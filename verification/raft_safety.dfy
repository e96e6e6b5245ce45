/**
 What the invariant gives: Leader Completeness, and the commit rule built on it.
 */
module RaftSafety {
  import opened RaftNode
  import opened RaftCluster
  import opened RaftInvariant
  import opened RaftSteps

  /** Acknowledged by so many servers that every majority contains one of them. */
  ghost predicate Blocking(h: History, n: nat, Q: set<nat>, T: int, k: nat) {
    (forall q :: q in Q ==> q < n && Acked(h, q, T, k)) && |Q| + Majority(n) > n
  }

  /** The first k entries of T's log are decided: the last is of term T and is blocking. */
  ghost predicate Chosen(h: History, n: nat, T: int, k: nat) {
    && T in h.elections && T in h.tlog
    && 1 <= k <= |h.tlog[T]| && h.tlog[T][k - 1].term == T
    && exists Q :: Blocking(h, n, Q, T, k)
  }

  lemma ChosenStable(h: History, h': History, n: nat, T: int, k: nat)
    requires Grows(h, h') && Chosen(h, n, T, k)
    ensures Chosen(h', n, T, k)
  {
    var Q :| Blocking(h, n, Q, T, k);
    assert Blocking(h', n, Q, T, k);
  }

  // --------------------------------------------------- Leader Completeness

  /** A log at least as up to date as one that has T's first k entries has them too. */
  lemma UpToDateHas(h: History, n: nat, T: int, k: nat, voterLog: Log, log0: Log, U: int)
    requires HistoryOk(h, n) && T in h.tlog && 1 <= k <= |h.tlog[T]| && h.tlog[T][k - 1].term == T
    requires GoodLog(h, voterLog) && Agree(h.tlog[T], voterLog, k)
    requires GoodLog(h, log0) && (forall i :: 0 <= i < |log0| ==> log0[i].term < U)
    requires UpToDate(voterLog, LastTerm(log0), |log0| - 1)
    requires forall W :: T < W < U && W in h.elections ==> Agree(h.tlog[T], h.elections[W].log0, k)
    ensures Agree(h.tlog[T], log0, k)
  {
    var X, W := LastTerm(voterLog), LastTerm(log0);
    LastTermBound(h, n, voterLog, k - 1);
    if |log0| > 0 {
      assert ElectionOk(h, W, n);
      assert Agree(log0, h.tlog[W], |log0|);
      if W > X {
        assert |h.elections[W].log0| < |log0|;
        assert Agree(h.elections[W].log0, log0, |h.elections[W].log0|);
      } else {
        assert Agree(voterLog, h.tlog[X], |voterLog|);
      }
    } else {
      LastTermPositive(h, n, voterLog);
      assert false;
    }
  }

  lemma LastTermBound(h: History, n: nat, log: Log, i: nat)
    requires HistoryOk(h, n) && GoodLog(h, log) && i < |log|
    ensures log[i].term <= LastTerm(log)
  {
    assert ElectionOk(h, LastTerm(log), n);
  }

  lemma LastTermPositive(h: History, n: nat, log: Log)
    requires HistoryOk(h, n) && GoodLog(h, log) && |log| > 0
    ensures LastTerm(log) >= 1
  {
    assert ElectionOk(h, LastTerm(log), n);
  }

  /** Every later leader began with all the entries chosen in an earlier term. */
  lemma {:induction false} ChosenInLaterLogs(c: Cluster, h: History, T: int, k: nat, U: int)
    requires Inv(c, h) && Chosen(h, |c.nodes|, T, k) && T < U && U in h.elections
    ensures Agree(h.tlog[T], h.elections[U].log0, k)
    decreases U - T
  {
    var e := h.elections[U];
    forall W | T < W < U && W in h.elections ensures Agree(h.tlog[T], h.elections[W].log0, k) {
      ChosenInLaterLogs(c, h, T, k, W);
    }
    var Q :| Blocking(h, |c.nodes|, Q, T, k);
    var v := CommonVoter(c, h, Q, T, k, U);
    VoterHas(c, h, v, T, k, U);
    BeganWith(c, h, U);
    UpToDateHas(h, |c.nodes|, T, k, h.votes[(v, U)].voterLog, e.log0, U);
  }

  lemma CommonVoter(c: Cluster, h: History, Q: set<nat>, T: int, k: nat, U: int) returns (v: nat)
    requires Inv(c, h) && Blocking(h, |c.nodes|, Q, T, k) && U in h.elections
    ensures v in h.elections[U].voters && Acked(h, v, T, k) && VotedFor(h, v, U, h.elections[U])
  {
    hide GoodLog, AckOk, VoteOk, NodeOk;
    assert ElectionOk(h, U, |c.nodes|);
    v := QuorumsMeet(Q, h.elections[U].voters, |c.nodes|);
  }

  lemma BeganWith(c: Cluster, h: History, U: int)
    requires Inv(c, h) && U in h.elections
    ensures GoodLog(h, h.elections[U].log0)
    ensures forall i :: 0 <= i < |h.elections[U].log0| ==> h.elections[U].log0[i].term < U
  {
    hide AckOk, VoteOk, NodeOk;
    assert ElectionOk(h, U, |c.nodes|);
    var log0 := h.elections[U].log0;
    assert log0 == h.tlog[U][..|log0|];
    LeaderLogOk(h, U, |c.nodes|);
  }

  lemma VoterHas(c: Cluster, h: History, v: nat, T: int, k: nat, U: int)
    requires Inv(c, h) && T in h.tlog && T < U && U in h.elections && v in h.elections[U].voters
    requires Acked(h, v, T, k) && (v, U) in h.votes
    requires forall W :: T < W < U && W in h.elections ==> Agree(h.tlog[T], h.elections[W].log0, k)
    ensures Agree(h.tlog[T], h.votes[(v, U)].voterLog, k)
    ensures GoodLog(h, h.votes[(v, U)].voterLog)
    ensures UpToDate(h.votes[(v, U)].voterLog, h.votes[(v, U)].lastTerm, h.votes[(v, U)].lastIndex)
  {
    hide GoodLog, AckOk, NodeOk, Agree;
    assert VoteOk(h, c.nodes, v, U);
    assert AckVoteOk(h, v, T, U);
    assert KeptByVoter(h, v, T, U, k);
  }

  /** The same for the whole log of a later leader, at any time of its term. */
  lemma LeaderCompleteness(c: Cluster, h: History, T: int, k: nat, U: int)
    requires Inv(c, h) && Chosen(h, |c.nodes|, T, k) && T <= U && U in h.elections
    ensures U in h.tlog && Agree(h.tlog[T], h.tlog[U], k)
  {
    hide AckOk, VoteOk, NodeOk, GoodLog;
    assert ElectionOk(h, U, |c.nodes|);
    if T < U {
      ChosenInLaterLogs(c, h, T, k, U);
    }
  }
}
