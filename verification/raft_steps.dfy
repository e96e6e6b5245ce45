/**
 Every step of the cluster keeps the invariant, whichever server takes it and
 whatever message it reacts to.
 */
module RaftSteps {
  import opened RaftNode
  import opened RaftCluster
  import opened RaftInvariant

  // ------------------------------------------------------ log replication

  /**
   appendEntriesLocal on entries cut from a leader's log K: the follower ends
   with K up to the last entry sent, unless it already had all of that.
   */
  lemma {:induction false} MergeIsLeaderPrefix(h: History, log: Log, K: Log, entries: seq<LogEntry>, first: nat)
    requires GoodLog(h, log) && GoodLog(h, K) && Agree(log, K, first)
    requires first + |entries| <= |K| && entries == K[first .. first + |entries|]
    ensures Consecutive(entries, first)
    ensures var end := first + |entries|;
            Merge(log, entries, first) == if Agree(log, K, end) then log else K[..end]
    decreases |entries|
  {
    var end := first + |entries|;
    if entries != [] {
      assert entries[0] == K[first];
      if HasTermAt(log, first, entries[0].term) {
        assert entries[1..] == K[first + 1 .. first + 1 + |entries[1..]|];
        MergeIsLeaderPrefix(h, log, K, entries[1..], first + 1);
      } else {
        assert !Agree(log, K, end);
        assert log[..first] + entries == K[..end];
      }
    }
  }

  /** The effect of an accepted AppendEntries on the log of the receiver. */
  lemma AcceptedLog(h: History, n: Node, args: AppendArgs, K: Log, end: nat)
    requires LogOk(h, n.log, n.term) && AppendOk(h, args) && n.term == args.term
    requires K == h.tlog[args.term] && LogOk(h, K, n.term)
    requires end == args.prevLogIndex + 1 + |args.entries|
    requires args.prevLogIndex < |n.log| && TermAt(n.log, args.prevLogIndex) == args.prevLogTerm
    ensures WellFormed(args)
    ensures var log' := Merge(n.log, args.entries, args.prevLogIndex + 1);
            && log' == (if Agree(n.log, K, end) then n.log else K[..end])
            && Agree(K, log', end)
            && LogOk(h, log', n.term)
  {
    var first := args.prevLogIndex + 1;
    assert args.entries == K[first..end];
    hide GoodLog, Merge, AppendOk;
    MergeIsLeaderPrefix(h, n.log, K, args.entries, first);
    hide Agree, LogOk;
  }

  /** What a server once held of a term's log survives an accepted AppendEntries, or was lost before. */
  lemma KeptOnAccept(h: History, n: Node, n': Node, K: Log, end: nat, T: int, k: nat)
    requires T in h.tlog && T <= n.term == n'.term && Kept(h, n, T, k)
    requires n.term in h.elections && n.term in h.tlog && h.tlog[n.term] == K && end <= |K|
    requires Agree(h.elections[n.term].log0, K, |h.elections[n.term].log0|)
    requires n'.log == if Agree(n.log, K, end) then n.log else K[..end]
    requires k <= |h.tlog[T]|
    ensures Kept(h, n', T, k)
  {
  }

  // --------------------------------------------------------- quiet steps

  /** A step that leaves the history and the log alone. */
  lemma QuietStep(c: Cluster, h: History, c': Cluster, s: nat)
    requires Inv(c, h) && Moved(c.nodes, c'.nodes, s)
    requires NodeOk(h, s, c'.nodes[s], |c.nodes|) && c'.nodes[s].log == c.nodes[s].log
    requires forall m :: m in c'.net && m !in c.net ==> MsgOk(h, c'.nodes, m)
    ensures Inv(c', h)
  {
    forall T | (s, T) in h.acks ensures AckOk(h, c'.nodes, s, T) {
      assert AckOk(h, c.nodes, s, T);
      forall k: nat | k <= h.acks[(s, T)] ensures Kept(h, c'.nodes[s], T, k) {
        AckStable(h, h, c.nodes[s], c'.nodes[s], T, k);
      }
    }
    StepFrame(c, h, c', h, s);
  }

  lemma BumpKeepsInv(c: Cluster, h: History, s: nat, term: int)
    requires Inv(c, h) && s < |c.nodes|
    ensures Inv(Put(c, s, HandleHigherTerm(c.nodes[s], term)), h)
    ensures Moved(c.nodes, c.nodes[s := HandleHigherTerm(c.nodes[s], term)], s)
  {
    hide Inv, GoodLog;
    HasNodeOk(c, h, s);
    QuietStep(c, h, Put(c, s, HandleHigherTerm(c.nodes[s], term)), s);
  }

  lemma SendKeepsInv(c: Cluster, h: History, m: Message)
    requires Inv(c, h) && MsgOk(h, c.nodes, m)
    ensures Inv(Send(c, m), h)
  {
    hide NodeOk, VoteOk, AckOk, MsgOk, HistoryOk;
  }

  /** Steps that touch neither the term, the vote, the role nor the log. */
  lemma IndexStep(c: Cluster, h: History, c': Cluster, s: nat)
    requires Inv(c, h) && s < |c.nodes| == |c'.nodes| && c'.net == c.net
    requires c'.nodes == c.nodes[s := c'.nodes[s]]
    requires var n, n' := c.nodes[s], c'.nodes[s];
             n' == n.(commitIndex := n'.commitIndex, lastApplied := n'.lastApplied)
    requires c'.nodes[s].commitIndex >= -1
    ensures Inv(c', h)
  {
    hide Inv, GoodLog;
    HasNodeOk(c, h, s);
    QuietStep(c, h, c', s);
  }

  lemma CrashStep(c: Cluster, h: History, s: nat)
    requires Inv(c, h) && s < |c.nodes|
    ensures Inv(Put(c, s, Restart(c.nodes[s], |c.nodes|)), h)
  {
    hide Inv, GoodLog;
    HasNodeOk(c, h, s);
    QuietStep(c, h, Put(c, s, Restart(c.nodes[s], |c.nodes|)), s);
  }

  lemma SoftStep(c: Cluster, h: History, l: Label)
    requires Inv(c, h) && Enabled(c, l) && NoPanic(c, l)
    requires l.Advance? || l.Apply? || l.Crash? || l.OnVoteAnswer?
    ensures Inv(Next(c, l), Record(c, h, l))
  {
    match l {
      case OnVoteAnswer(s, m) => BumpKeepsInv(c, h, s, m.answer.term);
      case Advance(s) => IndexStep(c, h, Next(c, l), s);
      case Apply(s) => IndexStep(c, h, Next(c, l), s);
      case Crash(s) => CrashStep(c, h, s);
    }
  }

  // ------------------------------------------------------------ elections

  lemma ElectionStable(h: History, h': History, T: int, n: nat)
    requires Grows(h, h') && T in h.elections && T in h.tlog && ElectionOk(h, T, n)
    requires h'.tlog[T] == h.tlog[T]
    ensures ElectionOk(h', T, n)
  {
  }

  lemma HistoryStable(h: History, h': History, n: nat)
    requires Grows(h, h') && HistoryOk(h, n)
    requires h'.tlog == h.tlog && h'.elections == h.elections
    ensures HistoryOk(h', n)
  {
    forall T | T in h'.elections ensures ElectionOk(h', T, n) {
      ElectionStable(h, h', T, n);
    }
  }

  /** A vote remembers all the voter has held, unless a leader before the vote lacked it. */
  lemma NewVoteOk(c: Cluster, h: History, h': History, nodes': seq<Node>, v: nat, T: int, vote: Vote)
    requires Inv(c, h) && (v, T) !in h.votes && h' == RecordVote(h, v, T, vote)
    requires v < |c.nodes| == |nodes'| && vote.candidate < |c.nodes|
    requires c.nodes[v].term <= T == nodes'[v].term && T >= 1 && nodes'[v].votedFor == vote.candidate
    requires vote.voterLog == c.nodes[v].log
    requires Announces(nodes'[vote.candidate], T, vote.lastTerm, vote.lastIndex)
    requires UpToDate(vote.voterLog, vote.lastTerm, vote.lastIndex)
    ensures VoteOk(h', nodes', v, T)
  {
    assert NodeOk(h, v, c.nodes[v], |c.nodes|);
    GoodLogStable(h, h', vote.voterLog);
    forall T' | (v, T') in h'.acks && T' < T ensures AckVoteOk(h', v, T', T) {
      assert AckOk(h, c.nodes, v, T');
      forall k: nat | k <= h'.acks[(v, T')] ensures KeptByVoter(h', v, T', T, k) {
        NewVoteKeeps(h, h', c.nodes[v], |c.nodes|, v, T', T, k);
      }
    }
  }

  lemma NewVoteKeeps(h: History, h': History, n: Node, size: nat, v: nat, T: int, U: int, k: nat)
    requires Grows(h, h') && HistoryOk(h, size) && h'.elections == h.elections
    requires (v, U) !in h.votes && (v, U) in h'.votes && h'.votes[(v, U)].voterLog == n.log
    requires n.term <= U && T in h.tlog && k <= |h.tlog[T]| && Kept(h, n, T, k)
    ensures KeptByVoter(h', v, T, U, k)
  {
    if !Agree(h.tlog[T], n.log, k) {
      var W :| T < W < n.term + 1 && W in h.elections && !Agree(h.tlog[T], h.elections[W].log0, k);
      if W == U {
        assert ElectionOk(h, U, size);
      }
    }
  }

  lemma VoteStep(c: Cluster, h: History, c': Cluster, v: nat, T: int, vote: Vote)
    requires Inv(c, h) && Moved(c.nodes, c'.nodes, v)
    requires c'.nodes[v].log == c.nodes[v].log
    requires T >= 1 && c'.nodes[v].term == T && c'.nodes[v].votedFor == vote.candidate < |c.nodes|
    requires vote.voterLog == c.nodes[v].log
    requires Announces(c'.nodes[vote.candidate], T, vote.lastTerm, vote.lastIndex)
    requires UpToDate(vote.voterLog, vote.lastTerm, vote.lastIndex)
    requires NodeOk(RecordVote(h, v, T, vote), v, c'.nodes[v], |c.nodes|)
    requires forall m :: m in c'.net && m !in c.net ==> MsgOk(RecordVote(h, v, T, vote), c'.nodes, m)
    ensures Inv(c', RecordVote(h, v, T, vote))
  {
    var h' := RecordVote(h, v, T, vote);
    assert Grows(h, h');
    HistoryStable(h, h', |c.nodes|);
    forall j | 0 <= j < |c.nodes| && j != v ensures NodeOk(h', j, c.nodes[j], |c.nodes|) {
      NodeStable(h, h', j, c.nodes[j], |c.nodes|);
    }
    forall T' | (v, T') in h'.acks ensures AckOk(h', c'.nodes, v, T') {
      assert AckOk(h, c.nodes, v, T');
      forall k: nat | k <= h.acks[(v, T')] ensures Kept(h', c'.nodes[v], T', k) {
        AckStable(h, h', c.nodes[v], c'.nodes[v], T', k);
      }
    }
    if (v, T) !in h.votes {
      NewVoteOk(c, h, h', c'.nodes, v, T, vote);
    }
    StepFrame(c, h, c', h', v);
  }

  lemma NothingAhead(c: Cluster, h: History, s: nat, T: int)
    requires Inv(c, h) && s < |c.nodes| && T > c.nodes[s].term
    ensures (s, T) !in h.votes
    ensures T in h.elections ==> h.elections[T].leader != s
  {
    assert (s, T) in h.votes ==> VoteOk(h, c.nodes, s, T);
  }

  lemma TimeoutStep(c: Cluster, h: History, l: Label)
    requires Inv(c, h) && Enabled(c, l) && l.Timeout?
    ensures Inv(Next(c, l), Record(c, h, l))
  {
    hide AckOk, VoteOk, ElectionOk, GoodLog, LeaderOk;
    var n := c.nodes[l.s];
    var T := n.term + 1;
    NothingAhead(c, h, l.s, T);
    var vote := Vote(l.s, n.log, LastTerm(n.log), |n.log| - 1);
    var h' := RecordVote(h, l.s, T, vote);
    assert NodeOk(h, l.s, n, |c.nodes|);
    GoodLogStable(h, h', n.log);
    VoteStep(c, h, Next(c, l), l.s, T, vote);
  }

  lemma GrantKeepsInv(c: Cluster, h: History, s: nat, a: VoteArgs)
    requires Inv(c, h) && s < |c.nodes| && c.nodes[s].term == a.term && Grants(c.nodes[s], a)
    requires a.candidate != s && MsgOk(h, c.nodes, RequestVote(a))
    ensures var n := c.nodes[s];
            var c' := Put(c, s, Persist(n.(votedFor := a.candidate)));
            Inv(Send(c', VoteAnswer(s, a, VoteReply(n.term, true))),
                RecordVote(h, s, a.term, Vote(a.candidate, n.log, a.lastLogTerm, a.lastLogIndex)))
  {
    hide AckOk, ElectionOk, GoodLog, VoteOk;
    var n := c.nodes[s];
    var c' := Send(Put(c, s, Persist(n.(votedFor := a.candidate))), VoteAnswer(s, a, VoteReply(n.term, true)));
    var vote := Vote(a.candidate, n.log, a.lastLogTerm, a.lastLogIndex);
    var h' := RecordVote(h, s, a.term, vote);
    OneVote(c, h, s, a.term);
    assert Grows(h, h');
    NodeStable(h, h', s, n, |c.nodes|);
    VoteStep(c, h, c', s, a.term, vote);
  }

  lemma OneVote(c: Cluster, h: History, s: nat, T: int)
    requires Inv(c, h) && s < |c.nodes| && c.nodes[s].term == T
    ensures (s, T) in h.votes ==> h.votes[(s, T)].candidate == c.nodes[s].votedFor
  {
    assert (s, T) in h.votes ==> VoteOk(h, c.nodes, s, T);
  }

  lemma RequestVoteStep(c: Cluster, h: History, l: Label)
    requires Inv(c, h) && Enabled(c, l) && l.OnRequestVote?
    ensures Inv(Next(c, l), Record(c, h, l))
  {
    hide NodeOk, AckOk, VoteOk, HistoryOk;
    var s, a := l.s, l.m.vote;
    SentOk(c, h, l.m);
    var n1 := HandleHigherTerm(c.nodes[s], a.term);
    var c1 := Put(c, s, n1);
    BumpKeepsInv(c, h, s, a.term);
    if Grants(n1, a) {
      SentOk(c1, h, l.m);
      GrantKeepsInv(c1, h, s, a);
      assert Put(c, s, Persist(n1.(votedFor := a.candidate))) == Put(c1, s, Persist(n1.(votedFor := a.candidate)));
    } else {
      SendKeepsInv(c1, h, VoteAnswer(s, a, VoteReply(n1.term, false)));
    }
  }

  // --------------------------------------------------------------- quorums

  /** Any two majorities of n servers share a server. */
  lemma QuorumsMeet(a: set<nat>, b: set<nat>, n: nat) returns (v: nat)
    requires forall x :: x in a ==> x < n
    requires forall x :: x in b ==> x < n
    requires |a| + |b| > n
    ensures v in a && v in b
  {
    if a * b == {} {
      assert |a + b| == |a| + |b|;
      BoundedSize(a + b, n);
    }
    v :| v in a * b;
  }

  lemma {:induction false} BoundedSize(a: set<nat>, n: nat)
    requires forall x :: x in a ==> x < n
    ensures |a| <= n
    decreases n
  {
    if n == 0 {
      assert a == {};
    } else {
      BoundedSize(a - {n - 1}, n - 1);
    }
  }

  /** The votes a candidate counts, and its own, are recorded votes for the log it has. */
  lemma VotersOk(c: Cluster, h: History, s: nat)
    requires Inv(c, h) && s < |c.nodes| && c.nodes[s].role == Candidate
    ensures var n := c.nodes[s];
            var e := Election(s, Granted(c, s) + {s}, n.log);
            && (forall v :: v in e.voters ==> v < |c.nodes| && VotedFor(h, v, n.term, e))
            && |e.voters| == |Granted(c, s)| + 1
  {
    var n := c.nodes[s];
    var e := Election(s, Granted(c, s) + {s}, n.log);
    assert NodeOk(h, s, n, |c.nodes|);
    forall v | v in e.voters ensures v < |c.nodes| && VotedFor(h, v, n.term, e) {
      if v != s {
        var m :| m in c.net && IsGrantFor(c, s, m) && m.from == v;
        assert MsgOk(h, c.nodes, m);
      }
      assert VoteOk(h, c.nodes, v, n.term);
    }
  }

  /** A candidate with a majority is the first winner of its term. */
  lemma TermIsNew(c: Cluster, h: History, s: nat)
    requires Inv(c, h) && s < |c.nodes| && c.nodes[s].role == Candidate
    requires |Granted(c, s)| + 1 >= Majority(|c.nodes|)
    ensures c.nodes[s].term !in h.elections
  {
    var T := c.nodes[s].term;
    if T in h.elections {
      VotersOk(c, h, s);
      assert ElectionOk(h, T, |c.nodes|) && NodeOk(h, s, c.nodes[s], |c.nodes|);
      var v := QuorumsMeet(Granted(c, s) + {s}, h.elections[T].voters, |c.nodes|);
    }
  }

  lemma HistoryOnElection(h: History, h': History, T: int, e: Election, n: nat)
    requires HistoryOk(h, n) && h' == RecordElection(h, T, e) && T !in h.elections
    requires T >= 1 && e.leader < n && |e.voters| >= Majority(n) && LogOk(h, e.log0, T)
    requires forall v :: v in e.voters ==> v < n && VotedFor(h, v, T, e)
    requires (e.leader, T) !in h.acks
    ensures Grows(h, h') && HistoryOk(h', n)
  {
    assert Grows(h, h');
    forall U | U in h'.elections ensures ElectionOk(h', U, n) {
      if U != T {
        ElectionStable(h, h', U, n);
      }
    }
  }

  /** Nothing the leader of a term adds to the history concerns the other servers. */
  lemma OthersOk(c: Cluster, h: History, h': History, s: nat)
    requires Inv(c, h) && Grows(h, h') && s < |c.nodes|
    requires var T := c.nodes[s].term;
             && T in h'.elections && h'.elections[T].leader == s
             && (forall U :: U in h'.elections && U != T ==> U in h.elections)
             && (forall U :: U in h.tlog && U != T ==> h'.tlog[U] == h.tlog[U])
    ensures forall j :: 0 <= j < |c.nodes| && j != s ==> NodeOk(h', j, c.nodes[j], |c.nodes|)
  {
    forall j | 0 <= j < |c.nodes| && j != s ensures NodeOk(h', j, c.nodes[j], |c.nodes|) {
      assert NodeOk(h, j, c.nodes[j], |c.nodes|);
      NodeStable(h, h', j, c.nodes[j], |c.nodes|);
    }
  }

  lemma ElectedStep(c: Cluster, h: History, l: Label)
    requires Inv(c, h) && Enabled(c, l) && NoPanic(c, l) && l.Elected?
    ensures Inv(Next(c, l), Record(c, h, l))
  {
    var s, n := l.s, c.nodes[l.s];
    VotersOk(c, h, s);
    TermIsNew(c, h, s);
    WinKeepsInv(c, h, s, Election(s, Granted(c, s) + {s}, n.log));
  }

  lemma WinKeepsInv(c: Cluster, h: History, s: nat, e: Election)
    requires Inv(c, h) && s < |c.nodes| && e.leader == s && e.log0 == c.nodes[s].log
    requires var n := c.nodes[s]; n.role == Candidate && n.term !in h.elections
    requires forall v :: v in e.voters ==> v < |c.nodes| && VotedFor(h, v, c.nodes[s].term, e)
    requires |e.voters| >= Majority(|c.nodes|)
    ensures NodeOk(h, s, c.nodes[s], |c.nodes|)
    ensures Inv(Put(c, s, BecomeLeader(c.nodes[s], s)), RecordElection(h, c.nodes[s].term, e))
  {
    hide AckOk, MsgOk, ElectionOk, VotedFor, GoodLog, HistoryOk;
    var n := c.nodes[s];
    var n', h' := BecomeLeader(n, s), RecordElection(h, n.term, e);
    assert VoteOk(h, c.nodes, s, n.term);
    hide VoteOk;
    NoAckYet(c, h, s, n.term);
    HistoryOnElection(h, h', n.term, e, |c.nodes|);
    GoodLogStable(h, h', n.log);
    OthersOk(c, h, h', s);
    AcksOnExtension(c, h, h', s, n', n.term);
    StepFrame(c, h, Put(c, s, n'), h', s);
  }

  lemma NoAckYet(c: Cluster, h: History, s: nat, T: int)
    requires Inv(c, h) && T !in h.elections
    ensures (s, T) !in h.acks
    ensures (s, T) in h.votes ==> T >= 1
  {
    assert (s, T) in h.acks ==> AckOk(h, c.nodes, s, T);
    assert (s, T) in h.votes ==> VoteOk(h, c.nodes, s, T);
  }

  /** The leader's own acknowledgement of its whole log, and its older ones. */
  lemma AcksOnExtension(c: Cluster, h: History, h': History, s: nat, n': Node, T: int)
    requires Inv(c, h) && Grows(h, h') && s < |c.nodes|
    requires var n := c.nodes[s]; T == n.term == n'.term && Agree(n.log, n'.log, |n.log|)
    requires T in h'.elections && T in h'.tlog && h'.tlog[T] == n'.log
    requires h'.acks.Keys == h.acks.Keys + {(s, T)} && h'.acks[(s, T)] <= |n'.log|
    requires forall k :: k in h.acks && k != (s, T) ==> h'.acks[k] == h.acks[k]
    ensures forall T' :: (s, T') in h'.acks ==> AckOk(h', c.nodes[s := n'], s, T')
  {
    forall T' | (s, T') in h'.acks ensures AckOk(h', c.nodes[s := n'], s, T') {
      if T' != T {
        hide Inv, Grows, Lost;
        OwnAck(c, h, s, T');
        forall k: nat | k <= h'.acks[(s, T')] ensures Kept(h', n', T', k) {
          KeptOnExtension(h, h', c.nodes[s], n', T', k);
        }
      }
    }
  }

  lemma OwnAck(c: Cluster, h: History, v: nat, T: int)
    requires Inv(c, h) && (v, T) in h.acks
    ensures AckOk(h, c.nodes, v, T)
  {
  }

  lemma KeptOnExtension(h: History, h': History, n: Node, n': Node, T: int, k: nat)
    requires Grows(h, h') && T in h.tlog && k <= |h.tlog[T]| && Kept(h, n, T, k)
    requires n'.term == n.term && Agree(n.log, n'.log, |n.log|)
    ensures T in h'.tlog && Kept(h', n', T, k)
  {
  }

  // ---------------------------------------------------------- replication

  lemma ExtendedElectionOk(h: History, h': History, T: int, entry: LogEntry, n: nat)
    requires Grows(h, h') && T in h.elections && T in h.tlog && ElectionOk(h, T, n)
    requires entry.term == T && entry.index == |h.tlog[T]|
    requires h'.tlog[T] == h.tlog[T] + [entry]
    ensures ElectionOk(h', T, n)
  {
  }

  lemma HistoryOnStart(h: History, h': History, T: int, entry: LogEntry, n: nat)
    requires HistoryOk(h, n) && Grows(h, h') && T in h.elections
    requires entry.term == T && entry.index == |h.tlog[T]|
    requires h'.elections == h.elections && h'.tlog == h.tlog[T := h.tlog[T] + [entry]]
    ensures HistoryOk(h', n)
  {
    hide ElectionOk;
    forall U | U in h'.elections ensures ElectionOk(h', U, n) {
      if U == T {
        ExtendedElectionOk(h, h', T, entry, n);
      } else {
        ElectionStable(h, h', U, n);
      }
    }
  }

  lemma StartStep(c: Cluster, h: History, l: Label)
    requires Inv(c, h) && Enabled(c, l) && NoPanic(c, l) && l.Start?
    ensures Inv(Next(c, l), Record(c, h, l))
  {
    hide AckOk, VoteOk, MsgOk, ElectionOk, GoodLog, Inv;
    var s, n, c', h' := l.s, c.nodes[l.s], Next(c, l), Record(c, h, l);
    HasNodeOk(c, h, s);
    AckBound(c, h, s, n.term);
    assert Grows(h, h');
    HistoryOnStart(h, h', n.term, LogEntry(|n.log|, n.term, l.command), |c.nodes|);
    LeaderLogOk(h', n.term, |c.nodes|);
    OthersOk(c, h, h', s);
    AcksOnExtension(c, h, h', s, c'.nodes[s], n.term);
    StepFrame(c, h, c', h', s);
  }

  lemma AckBound(c: Cluster, h: History, v: nat, T: int)
    requires Inv(c, h) && T in h.tlog
    ensures (v, T) in h.acks ==> h.acks[(v, T)] <= |h.tlog[T]|
  {
    assert (v, T) in h.acks ==> AckOk(h, c.nodes, v, T);
  }

  ghost predicate AckOk'(c: Cluster, h: History, v: nat, T: int) {
    (v, T) in h.acks ==> AckOk(h, c.nodes, v, T)
  }

  lemma HasNodeOk(c: Cluster, h: History, s: nat)
    requires Inv(c, h) && s < |c.nodes|
    ensures NodeOk(h, s, c.nodes[s], |c.nodes|) && HistoryOk(h, |c.nodes|)
  {
  }

  lemma SentOk(c: Cluster, h: History, m: Message)
    requires Inv(c, h) && m in c.net
    ensures MsgOk(h, c.nodes, m)
  {
  }

  lemma SendStep(c: Cluster, h: History, l: Label)
    requires Inv(c, h) && Enabled(c, l) && NoPanic(c, l) && l.SendAppend?
    ensures Inv(Next(c, l), Record(c, h, l))
  {
    hide Inv, NodeOk, AppendOk, MissingEntries;
    HasNodeOk(c, h, l.s);
    MissingOk(h, l.s, c.nodes[l.s], |c.nodes|, l.to);
    SendKeepsInv(c, h, AppendEntries(l.to, MissingEntries(c.nodes[l.s], l.s, l.to)));
  }

  lemma MissingOk(h: History, s: nat, n: Node, size: nat, to: nat)
    requires NodeOk(h, s, n, size) && n.role == Leader && CanSend(n, to)
    ensures var args := MissingEntries(n, s, to); AppendOk(h, args) && args.leader == s
  {
    hide GoodLog;
  }

  /** A term's log carries no later term. */
  lemma LeaderLogOk(h: History, T: int, n: nat)
    requires HistoryOk(h, n) && T in h.elections
    ensures LogOk(h, h.tlog[T], T)
  {
    assert ElectionOk(h, T, n);
  }

  /** In the term of the request the receiver does not lead, and StepDown made it a follower. */
  lemma StepDownKeepsInv(c: Cluster, h: History, s: nat, args: AppendArgs)
    requires Inv(c, h) && s < |c.nodes| && AppendOk(h, args) && args.leader != s
    ensures var n1 := StepDown(c.nodes[s], args.term);
            && Inv(Put(c, s, n1), h) && Moved(c.nodes, c.nodes[s := n1], s) && n1.term >= args.term
            && (n1.term == args.term ==> n1.role == Follower)
  {
    hide AckOk, VoteOk, MsgOk, ElectionOk, GoodLog;
    BumpKeepsInv(c, h, s, args.term);
    var c1 := Put(c, s, HandleHigherTerm(c.nodes[s], args.term));
    assert NodeOk(h, s, c1.nodes[s], |c.nodes|);
    QuietStep(c1, h, Put(c, s, StepDown(c.nodes[s], args.term)), s);
  }

  lemma AcceptKeepsInv(c: Cluster, h: History, s: nat, args: AppendArgs, n': Node, end: nat)
    requires Inv(c, h) && s < |c.nodes| && AppendOk(h, args)
    requires end == args.prevLogIndex + 1 + |args.entries|
    requires var n := c.nodes[s]; n.role == Follower && n.term == args.term == n'.term && n'.role == Follower
    requires NodeOk(h, s, n', |c.nodes|) && n'.votedFor == c.nodes[s].votedFor
    requires end <= |h.tlog[args.term]|
    requires var K := h.tlog[args.term];
             && n'.log == (if Agree(c.nodes[s].log, K, end) then c.nodes[s].log else K[..end])
             && Agree(K, n'.log, end)
    ensures Inv(Put(c, s, n'), RecordAck(h, s, args.term, end))
  {
    hide AckOk, VoteOk, MsgOk, ElectionOk, GoodLog, LeaderOk, NodeOk, Agree;
    var n, T, h' := c.nodes[s], args.term, RecordAck(h, s, args.term, end);
    AckBound(c, h, s, T);
    RecordAckGrows(h, s, T, end);
    HistoryStable(h, h', |c.nodes|);
    forall j | 0 <= j < |c.nodes| && j != s ensures NodeOk(h', j, c.nodes[j], |c.nodes|) {
      QuietNode(c, h, h', j);
    }
    FollowerStable(h, h', s, n', |c.nodes|);
    forall U | (s, U) in h'.acks ensures AckOk(h', c.nodes[s := n'], s, U) {
      AcceptedAck(c, h, h', s, n', T, end, U);
    }
    StepFrame(c, h, Put(c, s, n'), h', s);
  }

  lemma RecordAckGrows(h: History, s: nat, T: int, end: nat)
    ensures Grows(h, RecordAck(h, s, T, end)) && AcksOnlyBy(h, RecordAck(h, s, T, end), s, T)
  {
  }

  lemma QuietNode(c: Cluster, h: History, h': History, j: nat)
    requires Inv(c, h) && Grows(h, h') && j < |c.nodes|
    requires h'.elections == h.elections && h'.tlog == h.tlog
    ensures NodeOk(h', j, c.nodes[j], |c.nodes|)
  {
  }

  lemma FollowerStable(h: History, h': History, s: nat, n: Node, size: nat)
    requires Grows(h, h') && NodeOk(h, s, n, size) && n.role == Follower
    ensures NodeOk(h', s, n, size)
  {
  }

  lemma AcceptedAck(c: Cluster, h: History, h': History, s: nat, n': Node, T: int, end: nat, U: int)
    requires Inv(c, h) && Grows(h, h') && s < |c.nodes| && (s, U) in h'.acks
    requires h' == RecordAck(h, s, T, end) && T in h.elections && T in h.tlog
    requires c.nodes[s].term == T == n'.term && end <= |h.tlog[T]|
    requires n'.log == if Agree(c.nodes[s].log, h.tlog[T], end) then c.nodes[s].log else h.tlog[T][..end]
    requires Agree(h.tlog[T], n'.log, end)
    ensures AckOk(h', c.nodes[s := n'], s, U)
  {
    assert ElectionOk(h, T, |c.nodes|);
    assert AckOk'(c, h, s, U);
    forall k: nat | k <= h'.acks[(s, U)] ensures Kept(h', n', U, k) {
      if (s, U) in h.acks && k <= h.acks[(s, U)] {
        assert Kept(h, c.nodes[s], U, k);
        KeptOnAccept(h, c.nodes[s], n', h.tlog[T], end, U, k);
        AckStable(h, h', n', n', U, k);
      } else {
        assert U == T && k <= end;
        assert Agree(h'.tlog[T], n'.log, k);
      }
    }
  }

  lemma AppendStep(c: Cluster, h: History, l: Label)
    requires Inv(c, h) && Enabled(c, l) && NoPanic(c, l) && l.OnAppendEntries?
    ensures Inv(Next(c, l), Record(c, h, l))
  {
    hide AckOk, VoteOk, ElectionOk, GoodLog, LeaderOk, Inv, Merge, LogInfoAt, AppendOk;
    var s, args := l.s, l.m.append;
    SentOk(c, h, l.m);
    var n1 := StepDown(c.nodes[s], args.term);
    var c1 := Put(c, s, n1);
    StepDownKeepsInv(c, h, s, args);
    var (n', reply) := HandleAppendEntries(c.nodes[s], args);
    var c2, h' := Put(c1, s, n'), Record(c, h, l);
    assert Put(c, s, n') == c2;
    if Accepts(n1, args) {
      var end := args.prevLogIndex + 1 + |args.entries|;
      AcceptOk(c1, h, s, args, end);
      AcceptKeepsInv(c1, h, s, args, n', end);
    } else if n1.term == args.term {
      RejectedOk(h, n1.log, args);
    }
    AppendStable(h, h', args);
    SendKeepsInv(c2, h', AppendAnswer(s, args, reply));
  }

  /** What a follower that rejects a request says about its log. */
  lemma RejectedOk(h: History, log: Log, args: AppendArgs)
    requires AppendOk(h, args) && !HasTermAt(log, args.prevLogIndex, args.prevLogTerm)
    ensures RejectOk(args, LogInfoAt(log, args.prevLogIndex))
  {
  }

  lemma AppendStable(h: History, h': History, args: AppendArgs)
    requires Grows(h, h') && AppendOk(h, args)
    ensures AppendOk(h', args)
  {
  }

  lemma AcceptOk(c: Cluster, h: History, s: nat, args: AppendArgs, end: nat)
    requires Inv(c, h) && s < |c.nodes| && AppendOk(h, args) && WellFormed(args)
    requires c.nodes[s].term == args.term && Accepts(c.nodes[s], args) && c.nodes[s].role == Follower
    requires end == args.prevLogIndex + 1 + |args.entries|
    ensures var n := c.nodes[s]; var n' := Accept(n, args); var K := h.tlog[args.term];
            && NodeOk(h, s, n', |c.nodes|)
            && n'.log == (if Agree(n.log, K, end) then n.log else K[..end])
            && Agree(K, n'.log, end)
  {
    hide GoodLog, ElectionOk, VoteOk, AckOk, Agree, Merge, LeaderOk;
    LeaderLogOk(h, args.term, |c.nodes|);
    AcceptedLog(h, c.nodes[s], args, h.tlog[args.term], end);
    AcceptedNode(h, s, c.nodes[s], args, |c.nodes|);
  }

  lemma AcceptedNode(h: History, s: nat, n: Node, args: AppendArgs, size: nat)
    requires NodeOk(h, s, n, size) && n.role == Follower && WellFormed(args) && Accepts(n, args)
    requires LogOk(h, Merge(n.log, args.entries, args.prevLogIndex + 1), n.term)
    ensures NodeOk(h, s, Accept(n, args), size)
    ensures Accept(n, args).log == Merge(n.log, args.entries, args.prevLogIndex + 1)
  {
  }

  /** A leader that hears an answer to a request of its own term changes only its index slices. */
  lemma HeardNode(h: History, s: nat, n: Node, from: nat, args: AppendArgs, reply: AppendReply, size: nat)
    requires NodeOk(h, s, n, size) && AppendOk(h, args) && ReplyOk(h, from, args, reply) && from < size
    requires HearsReply(n, args, reply) && CanHandleReply(n, from, args, reply)
    ensures var n' := HandleAppendReply(n, from, args, reply);
            && NodeOk(h, s, n', size)
            && n' == n.(nextIndex := n'.nextIndex, matchIndex := n'.matchIndex)
  {
    hide GoodLog;
  }

  lemma UnheardNode(n: Node, from: nat, args: AppendArgs, reply: AppendReply)
    requires !HearsReply(n, args, reply)
    ensures HandleAppendReply(n, from, args, reply) == HandleHigherTerm(n, reply.term)
  {
  }

  lemma AnswerStep(c: Cluster, h: History, l: Label)
    requires Inv(c, h) && Enabled(c, l) && NoPanic(c, l) && l.OnAppendAnswer?
    ensures Inv(Next(c, l), Record(c, h, l))
  {
    hide Inv, NodeOk, AppendOk, ReplyOk, HandleAppendReply;
    var s, args, reply := l.s, l.m.appendOf, l.m.reply;
    SentOk(c, h, l.m);
    if HearsReply(c.nodes[s], args, reply) {
      HasNodeOk(c, h, s);
      HeardNode(h, s, c.nodes[s], l.m.follower, args, reply, |c.nodes|);
      QuietStep(c, h, Next(c, l), s);
    } else {
      UnheardNode(c.nodes[s], l.m.follower, args, reply);
      BumpKeepsInv(c, h, s, reply.term);
    }
  }

  // ---------------------------------------------------------------- all of it

  /** No critical section reads or writes past the end of a slice (for Apply see raft_commit.dfy). */
  lemma NeverPanics(c: Cluster, h: History, l: Label)
    requires Inv(c, h) && Enabled(c, l) && !l.Apply?
    ensures NoPanic(c, l)
  {
    hide AckOk, VoteOk, GoodLog, ElectionOk;
    assert NodeOk(h, l.s, c.nodes[l.s], |c.nodes|);
    if l.OnAppendEntries? {
      assert MsgOk(h, c.nodes, l.m);
      LeaderLogOk(h, l.m.append.term, |c.nodes|);
      SentWellFormed(h, l.m.append);
    } else if l.OnAppendAnswer? {
      assert MsgOk(h, c.nodes, l.m);
    }
  }

  lemma SentWellFormed(h: History, args: AppendArgs)
    requires AppendOk(h, args) && GoodLog(h, h.tlog[args.term])
    ensures WellFormed(args)
  {
  }

  lemma StepKeepsInv(c: Cluster, h: History, l: Label)
    requires Inv(c, h) && Enabled(c, l) && NoPanic(c, l)
    ensures Inv(Next(c, l), Record(c, h, l))
  {
    match l {
      case Timeout(_) => TimeoutStep(c, h, l);
      case OnRequestVote(_, _) => RequestVoteStep(c, h, l);
      case Elected(_) => ElectedStep(c, h, l);
      case Start(_, _) => StartStep(c, h, l);
      case SendAppend(_, _) => SendStep(c, h, l);
      case OnAppendEntries(_, _) => AppendStep(c, h, l);
      case OnAppendAnswer(_, _) => AnswerStep(c, h, l);
      case _ => SoftStep(c, h, l);
    }
  }

  lemma InitHasInv(n: nat)
    requires n >= 1
    ensures Inv(Init(n), Genesis())
  {
  }
}
