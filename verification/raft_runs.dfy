/**
 The safety properties of Raft as statements about whole runs of the code, with
 message loss, delay, reordering, duplication and crashes.  `states[i]` is the
 cluster after i steps.
 */
module RaftRuns {
  import opened RaftNode
  import opened RaftCluster
  import opened RaftInvariant
  import opened RaftSteps
  import opened RaftSafety
  import opened RaftCommit
  import opened RaftBackup

  /** Runs in which counting replicas is safe: only leaders do it, or there are at most two servers. */
  ghost predicate SafeRun(n: nat, states: seq<Cluster>, labels: seq<Label>) {
    n >= 1 && IsRun(n, states, labels) && (n <= 2 || LeaderCommits(states, labels))
  }

  /** The history that accompanies the first i steps of a run. */
  ghost function HistoryAt(n: nat, states: seq<Cluster>, labels: seq<Label>, i: nat): History
    requires IsRun(n, states, labels) && i < |states|
  {
    if i == 0 then Genesis()
    else
      assert IsStep(states[i - 1], labels[i - 1], states[i]);
      Record(states[i - 1], HistoryAt(n, states, labels, i - 1), labels[i - 1])
  }

  lemma {:induction false} InvAt(n: nat, states: seq<Cluster>, labels: seq<Label>, i: nat)
    requires n >= 1 && IsRun(n, states, labels) && i < |states|
    ensures Inv(states[i], HistoryAt(n, states, labels, i)) && |states[i].nodes| == n
  {
    hide Inv, Next, Enabled, NoPanic, Record;
    if i == 0 {
      InitHasInv(n);
    } else {
      InvAt(n, states, labels, i - 1);
      assert IsStep(states[i - 1], labels[i - 1], states[i]);
      StepKeepsInv(states[i - 1], HistoryAt(n, states, labels, i - 1), labels[i - 1]);
      SameSize(states[i - 1], labels[i - 1]);
    }
  }

  lemma {:induction false} GrowsFrom(n: nat, states: seq<Cluster>, labels: seq<Label>, i: nat, j: nat)
    requires n >= 1 && IsRun(n, states, labels) && i <= j < |states|
    ensures Grows(HistoryAt(n, states, labels, i), HistoryAt(n, states, labels, j))
    decreases j - i
  {
    hide Inv, Next, Enabled, NoPanic, Record, Grows;
    var h := HistoryAt(n, states, labels, j);
    if i == j {
      GrowsReflexive(h);
    } else {
      var h0 := HistoryAt(n, states, labels, j - 1);
      GrowsFrom(n, states, labels, i, j - 1);
      InvAt(n, states, labels, j - 1);
      assert IsStep(states[j - 1], labels[j - 1], states[j]);
      RecordGrows(states[j - 1], h0, labels[j - 1]);
      GrowsTransitive(HistoryAt(n, states, labels, i), h0, h);
    }
  }

  lemma {:induction false} CommitsAt(n: nat, states: seq<Cluster>, labels: seq<Label>, i: nat)
    requires SafeRun(n, states, labels) && i < |states|
    ensures CommitInv(states[i], HistoryAt(n, states, labels, i))
  {
    hide Inv, CommitInv, Next, Enabled, NoPanic, Record;
    if i == 0 {
      InitCommits(n);
    } else {
      var c, l := states[i - 1], labels[i - 1];
      CommitsAt(n, states, labels, i - 1);
      InvAt(n, states, labels, i - 1);
      assert IsStep(c, l, states[i]);
      assert LeaderOnly(c, l) || n <= 2;
      StepKeepsCommits(c, HistoryAt(n, states, labels, i - 1), l);
    }
  }

  lemma {:induction false} HeldAt(n: nat, states: seq<Cluster>, labels: seq<Label>, i: nat, v: nat, T: int)
    requires n >= 1 && IsRun(n, states, labels) && i < |states|
    requires (v, T) in HistoryAt(n, states, labels, i).acks
    ensures OnceHeld(states[..i + 1], HistoryAt(n, states, labels, i), v, T)
    decreases i
  {
    hide Inv, Next, Enabled, NoPanic, Record, OnceHeld, Grows;
    if i > 0 {
      var c, l, h := states[i - 1], labels[i - 1], HistoryAt(n, states, labels, i - 1);
      assert IsStep(c, l, states[i]);
      InvAt(n, states, labels, i - 1);
      InvAt(n, states, labels, i);
      if (v, T) in h.acks {
        HeldAt(n, states, labels, i - 1, v, T);
      }
      RecordGrows(c, h, l);
      AckWasHeld(states[..i], c, h, l, v, T);
      assert states[..i] + [Next(c, l)] == states[..i + 1];
    }
  }

  lemma SameSize(c: Cluster, l: Label)
    requires Enabled(c, l) && NoPanic(c, l)
    ensures |Next(c, l).nodes| == |c.nodes|
  {
  }

  lemma GrowsTransitive(a: History, b: History, c: History)
    requires Grows(a, b) && Grows(b, c)
    ensures Grows(a, c)
  {
  }

  lemma InitCommits(n: nat)
    ensures CommitInv(Init(n), Genesis())
  {
  }

  /** At some moment the server was in term T and had all it is recorded to have held of T's log. */
  ghost predicate OnceHeld(past: seq<Cluster>, h: History, v: nat, T: int)
    requires (v, T) in h.acks
  {
    T in h.tlog && exists j :: 0 <= j < |past| && HeldIn(past[j], h, v, T)
  }

  ghost predicate HeldIn(c: Cluster, h: History, v: nat, T: int)
    requires (v, T) in h.acks && T in h.tlog
  {
    v < |c.nodes| && c.nodes[v].term == T && Agree(h.tlog[T], c.nodes[v].log, h.acks[(v, T)])
  }

  lemma AckWasHeld(past: seq<Cluster>, c: Cluster, h: History, l: Label, v: nat, T: int)
    requires Inv(c, h) && Enabled(c, l) && NoPanic(c, l)
    requires Inv(Next(c, l), Record(c, h, l)) && Grows(h, Record(c, h, l))
    requires (v, T) in h.acks ==> OnceHeld(past, h, v, T)
    requires (v, T) in Record(c, h, l).acks
    ensures OnceHeld(past + [Next(c, l)], Record(c, h, l), v, T)
  {
    hide Inv, Next, Record, Enabled, NoPanic;
    var c', h' := Next(c, l), Record(c, h, l);
    AckFacts(c', h', v, T);
    if (v, T) in h.acks && h'.acks[(v, T)] == h.acks[(v, T)] {
      var j :| 0 <= j < |past| && HeldIn(past[j], h, v, T);
      AckFacts(c, h, v, T);
      assert HeldIn((past + [c'])[j], h', v, T);
    } else {
      NewAckTerm(c, h, l, v, T);
      assert HeldIn((past + [c'])[|past|], h', v, T);
    }
  }

  lemma NewAckTerm(c: Cluster, h: History, l: Label, v: nat, T: int)
    requires Inv(c, h) && Enabled(c, l) && NoPanic(c, l) && (v, T) in Record(c, h, l).acks
    requires (v, T) in h.acks ==> Record(c, h, l).acks[(v, T)] != h.acks[(v, T)]
    ensures v == l.s && Next(c, l).nodes[v].term == T
  {
    hide Inv, Merge;
    if l.OnAppendEntries? {
      SentOk(c, h, l.m);
      StepDownKeepsInv(c, h, l.s, l.m.append);
    }
  }

  lemma AckFacts(c: Cluster, h: History, v: nat, T: int)
    requires Inv(c, h) && (v, T) in h.acks
    ensures T in h.tlog && v < |c.nodes| && h.acks[(v, T)] <= |h.tlog[T]|
    ensures c.nodes[v].term == T ==> Agree(h.tlog[T], c.nodes[v].log, h.acks[(v, T)])
  {
    hide NodeOk, VoteOk, MsgOk, ElectionOk;
    assert AckOk(h, c.nodes, v, T);
    assert Kept(h, c.nodes[v], T, h.acks[(v, T)]);
  }

  // ------------------------------------------------------ Election Safety

  /** At most one server ever leads in a term, over the whole run. */
  lemma ElectionSafety(n: nat, states: seq<Cluster>, labels: seq<Label>, i: nat, j: nat, a: nat, b: nat)
    requires n >= 1 && IsRun(n, states, labels) && i <= j < |states|
    requires a < |states[i].nodes| && b < |states[j].nodes|
    requires states[i].nodes[a].role == Leader && states[j].nodes[b].role == Leader
    requires states[i].nodes[a].term == states[j].nodes[b].term
    ensures a == b
  {
    hide Inv, IsRun;
    InvAt(n, states, labels, i);
    InvAt(n, states, labels, j);
    HasNodeOk(states[i], HistoryAt(n, states, labels, i), a);
    HasNodeOk(states[j], HistoryAt(n, states, labels, j), b);
    GrowsFrom(n, states, labels, i, j);
  }

  // --------------------------------------------------------- Log Matching

  /** Logs, even at different times, that have the same term at an index agree up to that index. */
  lemma LogMatching(n: nat, states: seq<Cluster>, labels: seq<Label>, i: nat, j: nat, a: nat, b: nat, x: nat)
    requires n >= 1 && IsRun(n, states, labels) && i <= j < |states|
    requires a < |states[i].nodes| && b < |states[j].nodes|
    requires var p, q := states[i].nodes[a].log, states[j].nodes[b].log;
             x < |p| && x < |q| && p[x].term == q[x].term
    ensures states[i].nodes[a].log[..x + 1] == states[j].nodes[b].log[..x + 1]
  {
    hide Inv, IsRun, Grows;
    var p, q := states[i].nodes[a].log, states[j].nodes[b].log;
    var hi, hj := HistoryAt(n, states, labels, i), HistoryAt(n, states, labels, j);
    InvAt(n, states, labels, i);
    InvAt(n, states, labels, j);
    HasNodeOk(states[i], hi, a);
    HasNodeOk(states[j], hj, b);
    GrowsFrom(n, states, labels, i, j);
    GoodLogStable(hi, hj, p);
  }

  /** Entries carry their own index, and terms never decrease along a log. */
  lemma LogShape(n: nat, states: seq<Cluster>, labels: seq<Label>, i: nat, a: nat, x: nat, y: nat)
    requires n >= 1 && IsRun(n, states, labels) && i < |states|
    requires a < |states[i].nodes| && x <= y < |states[i].nodes[a].log|
    ensures var log := states[i].nodes[a].log;
            log[x].index == x && 1 <= log[x].term <= log[y].term <= states[i].nodes[a].term
  {
    hide Inv, IsRun, Grows;
    var h, log := HistoryAt(n, states, labels, i), states[i].nodes[a].log;
    InvAt(n, states, labels, i);
    HasNodeOk(states[i], h, a);
    assert log[y].index == y && log[x].index == x;
    assert ElectionOk(h, log[y].term, n) && ElectionOk(h, log[x].term, n);
    assert log[x] == h.tlog[log[y].term][x];
  }

  ghost predicate MatchesDownwards(p: Log, q: Log) {
    forall x, y :: -1 <= x <= y < |p| && Matches(p, q, y) ==> Matches(p, q, x)
  }

  lemma LogsMatchDownwards(n: nat, states: seq<Cluster>, labels: seq<Label>, i: nat, j: nat, a: nat, b: nat)
    requires n >= 1 && IsRun(n, states, labels) && i < |states| && j < |states|
    requires a < |states[i].nodes| && b < |states[j].nodes|
    ensures var p, q := states[i].nodes[a].log, states[j].nodes[b].log;
            Sorted(p) && Sorted(q) && MatchesDownwards(p, q)
  {
    hide IsRun;
    var p, q := states[i].nodes[a].log, states[j].nodes[b].log;
    forall x, y | 0 <= x <= y < |p| ensures p[x].term <= p[y].term {
      LogShape(n, states, labels, i, a, x, y);
    }
    forall x, y | 0 <= x <= y < |q| ensures q[x].term <= q[y].term {
      LogShape(n, states, labels, j, b, x, y);
    }
    forall x, y | -1 <= x <= y < |p| && Matches(p, q, y) ensures Matches(p, q, x) {
      if x >= 0 {
        if i <= j {
          LogMatching(n, states, labels, i, j, a, b, y);
        } else {
          LogMatching(n, states, labels, j, i, b, a, y);
        }
        assert p[x] == p[..y + 1][x] == q[..y + 1][x] == q[x];
      }
    }
  }

  /**
   Fast backup between any two logs of a run ends where the follower accepts, at
   most one entry before the end of one-step backup.
   */
  lemma FastBackupInRuns(
    n: nat, states: seq<Cluster>, labels: seq<Label>, i: nat, j: nat, a: nat, b: nat, next: int)
    requires n >= 1 && IsRun(n, states, labels) && i < |states| && j < |states|
    requires a < |states[i].nodes| && b < |states[j].nodes| && 0 <= next <= |states[i].nodes[a].log|
    ensures var p, q := states[i].nodes[a].log, states[j].nodes[b].log;
            && Sorted(p) && Sorted(q)
            && var fast, slow := FastBackup(p, q, next), SlowBackup(p, q, next);
               0 <= fast <= next && Matches(p, q, fast - 1) && slow - 1 <= fast <= slow
  {
    hide IsRun, Sorted;
    LogsMatchDownwards(n, states, labels, i, j, a, b);
    FastRefinesSlow(states[i].nodes[a].log, states[j].nodes[b].log, next);
  }

  /** Leader Append-Only: within its term a leader only extends its log. */
  lemma LeaderAppendOnly(n: nat, states: seq<Cluster>, labels: seq<Label>, i: nat, j: nat, a: nat)
    requires n >= 1 && IsRun(n, states, labels) && i <= j < |states|
    requires a < |states[i].nodes| && a < |states[j].nodes|
    requires states[i].nodes[a].role == Leader && states[j].nodes[a].role == Leader
    requires states[i].nodes[a].term == states[j].nodes[a].term
    ensures states[i].nodes[a].log <= states[j].nodes[a].log
  {
    hide Inv, IsRun;
    InvAt(n, states, labels, i);
    InvAt(n, states, labels, j);
    HasNodeOk(states[i], HistoryAt(n, states, labels, i), a);
    HasNodeOk(states[j], HistoryAt(n, states, labels, j), a);
    GrowsFrom(n, states, labels, i, j);
  }

  // ---------------------------------------------------- truth of matchIndex

  /**
   If a leader of term T has matchIndex[s] == k, then s, at some earlier or the
   same moment, was in term T with the leader's log up to k.
   */
  lemma MatchIndexWasTrue(n: nat, states: seq<Cluster>, labels: seq<Label>, i: nat, a: nat, s: nat)
    requires n >= 1 && IsRun(n, states, labels) && i < |states|
    requires a < |states[i].nodes| && states[i].nodes[a].role == Leader
    requires s < |states[i].nodes[a].matchIndex| && states[i].nodes[a].matchIndex[s] >= 0
    ensures var leader := states[i].nodes[a];
            exists j :: 0 <= j <= i && s < |states[j].nodes| && states[j].nodes[s].term == leader.term
                        && Agree(leader.log, states[j].nodes[s].log, leader.matchIndex[s] + 1)
  {
    hide Inv, IsRun, Grows;
    var leader, h := states[i].nodes[a], HistoryAt(n, states, labels, i);
    InvAt(n, states, labels, i);
    HasNodeOk(states[i], h, a);
    assert Acked(h, s, leader.term, leader.matchIndex[s] + 1);
    HeldAt(n, states, labels, i, s, leader.term);
    var j :| 0 <= j < |states[..i + 1]| && HeldIn(states[..i + 1][j], h, s, leader.term);
    assert states[..i + 1][j] == states[j];
  }

  /** ... and as long as s stays in term T, it keeps them. */
  lemma MatchIndexStaysTrue(n: nat, states: seq<Cluster>, labels: seq<Label>, i: nat, j: nat, a: nat, s: nat)
    requires n >= 1 && IsRun(n, states, labels) && i <= j < |states|
    requires a < |states[i].nodes| && states[i].nodes[a].role == Leader
    requires s < |states[i].nodes[a].matchIndex| && states[i].nodes[a].matchIndex[s] >= 0
    requires s < |states[j].nodes| && states[j].nodes[s].term == states[i].nodes[a].term
    ensures Agree(states[i].nodes[a].log, states[j].nodes[s].log, states[i].nodes[a].matchIndex[s] + 1)
  {
    hide Inv, IsRun;
    var leader := states[i].nodes[a];
    var hi, hj := HistoryAt(n, states, labels, i), HistoryAt(n, states, labels, j);
    InvAt(n, states, labels, i);
    InvAt(n, states, labels, j);
    HasNodeOk(states[i], hi, a);
    assert Acked(hi, s, leader.term, leader.matchIndex[s] + 1);
    GrowsFrom(n, states, labels, i, j);
    AckFacts(states[i], hi, s, leader.term);
    AckFacts(states[j], hj, s, leader.term);
  }

  // --------------------------------------------------- Leader Completeness

  /**
   If a leader of term T ever sees an entry of term T on a majority, then every
   leader of every later term, seen at any moment before or after, has that
   entry and everything before it.
   */
  lemma LeadersAreComplete(
    n: nat, states: seq<Cluster>, labels: seq<Label>, i: nat, j: nat, a: nat, b: nat, x: nat)
    requires n >= 1 && IsRun(n, states, labels) && i < |states| && j < |states|
    requires a < |states[i].nodes| && b < |states[j].nodes|
    requires states[i].nodes[a].role == Leader && states[j].nodes[b].role == Leader
    requires states[i].nodes[a].term < states[j].nodes[b].term
    requires var p := states[i].nodes[a];
             x < |p.log| && p.log[x].term == p.term && NReplicated(p.matchIndex, x) >= Majority(n)
    ensures Agree(states[i].nodes[a].log, states[j].nodes[b].log, x + 1)
  {
    hide Inv, IsRun, Chosen, GoodLog, NReplicated, Agree, Grows, HistoryOk;
    var p, q := states[i].nodes[a], states[j].nodes[b];
    var m := if i <= j then j else i;
    var hi, hj, hm := HistoryAt(n, states, labels, i), HistoryAt(n, states, labels, j), HistoryAt(n, states, labels, m);
    InvAt(n, states, labels, i);
    InvAt(n, states, labels, j);
    GrowsFrom(n, states, labels, i, m);
    GrowsFrom(n, states, labels, j, m);
    MajorityChooses(states[i], hi, a, x);
    HasNodeOk(states[j], hj, b);
    CompleteAcross(states[m], hi, hj, hm, p.term, x + 1, q.term);
  }

  lemma CompleteAcross(c: Cluster, hi: History, hj: History, hm: History, T: int, k: nat, U: int)
    requires Inv(c, hm) && Grows(hi, hm) && Grows(hj, hm) && Chosen(hi, |c.nodes|, T, k)
    requires T < U && U in hj.elections && HistoryOk(hj, |c.nodes|)
    ensures U in hj.tlog && Agree(hi.tlog[T], hj.tlog[U], k)
  {
    hide Inv, GoodLog;
    ChosenStable(hi, hm, |c.nodes|, T, k);
    ChosenInLaterLogs(c, hm, T, k, U);
    assert ElectionOk(hj, U, |c.nodes|);
    var log0 := hj.elections[U].log0;
    assert hm.elections[U].log0 == log0;
    assert Agree(log0, hj.tlog[U], |log0|);
    assert Agree(hi.tlog[T], hm.tlog[T], k);
  }

  // ------------------------------------------------- State Machine Safety

  /** Every AppendEntries ever sent carries all that its leader had committed. */
  lemma RequestsCoverCommit(n: nat, states: seq<Cluster>, labels: seq<Label>, i: nat, m: Message)
    requires SafeRun(n, states, labels) && i < |states| && m in states[i].net && m.AppendEntries?
    ensures m.append.leaderCommit <= m.append.prevLogIndex + |m.append.entries|
  {
    hide Inv, IsRun;
    CommitsAt(n, states, labels, i);
    assert SentCovered(HistoryAt(n, states, labels, i), |states[i].nodes|, m.append);
  }

  /** Whatever two servers consider committed, at any two moments, is the same. */
  lemma CommittedEntriesAgree(
    n: nat, states: seq<Cluster>, labels: seq<Label>, i: nat, j: nat, a: nat, b: nat, x: nat)
    requires SafeRun(n, states, labels) && i <= j < |states|
    requires a < |states[i].nodes| && b < |states[j].nodes|
    requires x <= states[i].nodes[a].commitIndex && x <= states[j].nodes[b].commitIndex
    ensures var p, q := states[i].nodes[a].log, states[j].nodes[b].log;
            x < |p| && x < |q| && p[x] == q[x]
  {
    hide Inv, IsRun, Grows;
    var p, q := states[i].nodes[a], states[j].nodes[b];
    var hi, hj := HistoryAt(n, states, labels, i), HistoryAt(n, states, labels, j);
    InvAt(n, states, labels, i);
    InvAt(n, states, labels, j);
    CommitsAt(n, states, labels, i);
    CommitsAt(n, states, labels, j);
    assert NodeCommits(hi, n, a, p) && NodeCommits(hj, n, b, q);
    CoveredWithin(hi, n, p.log, p.commitIndex, p.term);
    GrowsFrom(n, states, labels, i, j);
    CoveredStable(hi, hj, n, p.log, p.log, p.commitIndex, p.term, p.term);
    var T, k :| T <= p.term && CoveredBy(hj, n, p.log, p.commitIndex, T, k);
    var T', k' :| T' <= q.term && CoveredBy(hj, n, q.log, q.commitIndex, T', k');
    ChosenAgree(states[j], hj, T, k, T', k', x);
  }

  /** No index is ever delivered with two different commands. */
  ghost predicate Consistent(c: Cluster) {
    forall d, d' :: d in c.delivered && d' in c.delivered && d.index == d'.index ==> d.command == d'.command
  }

  lemma StateMachineSafety(n: nat, states: seq<Cluster>, labels: seq<Label>, i: nat)
    requires SafeRun(n, states, labels) && i < |states|
    ensures Consistent(states[i])
  {
    hide Inv, IsRun, CommitInv;
    InvAt(n, states, labels, i);
    CommitsAt(n, states, labels, i);
    forall d, d' | d in states[i].delivered && d' in states[i].delivered && d.index == d'.index
      ensures d.command == d'.command
    {
      DeliveriesAgree(states[i], HistoryAt(n, states, labels, i), d, d');
    }
  }

  /** Deliveries are never taken back, so consistency at the end is consistency throughout. */
  lemma {:induction false} DeliveriesStay(n: nat, states: seq<Cluster>, labels: seq<Label>, i: nat, j: nat)
    requires IsRun(n, states, labels) && i <= j < |states|
    ensures states[i].delivered <= states[j].delivered
    decreases j - i
  {
    if i < j {
      assert IsStep(states[i], labels[i], states[i + 1]);
      DeliveriesStay(n, states, labels, i + 1, j);
    }
  }

  /** No step of a safe run indexes a slice out of range. */
  lemma SafeRunsNeverPanic(n: nat, states: seq<Cluster>, labels: seq<Label>, l: Label)
    requires SafeRun(n, states, labels) && Enabled(states[|labels|], l)
    ensures NoPanic(states[|labels|], l)
  {
    hide Inv, CommitInv;
    var k := |labels|;
    InvAt(n, states, labels, k);
    CommitsAt(n, states, labels, k);
    if l.Apply? {
      ApplyNeverPanics(states[k], HistoryAt(n, states, labels, k), l);
    } else {
      NeverPanics(states[k], HistoryAt(n, states, labels, k), l);
    }
  }

  // ------------------------------------------------------ what services get

  /** The commands handed to the service of server s since it last restarted. */
  ghost function Fed(n: nat, states: seq<Cluster>, labels: seq<Label>, s: nat, i: nat): seq<Command>
    requires IsRun(n, states, labels) && i < |states|
  {
    if i == 0 then []
    else
      var c, l, before := states[i - 1], labels[i - 1], Fed(n, states, labels, s, i - 1);
      assert IsStep(c, l, states[i]);
      if l.s != s then before
      else if l.Crash? then []
      else if l.Apply? then before + [Deliver(c.nodes[s]).1]
      else before
  }

  predicate IsPrefixOf(fed: seq<Command>, log: Log) {
    |fed| <= |log| && forall x :: 0 <= x < |fed| ==> fed[x] == log[x].command
  }

  lemma LastAppliedMoves(c: Cluster, l: Label, s: nat)
    requires Enabled(c, l) && NoPanic(c, l) && s < |c.nodes|
    ensures var n, n' := c.nodes[s], Next(c, l).nodes[s];
            n'.lastApplied == if l.s == s && l.Crash? then -1
                              else if l.s == s && l.Apply? then n.lastApplied + 1 else n.lastApplied
    ensures l.s == s && l.Apply? ==> Next(c, l).nodes[s].log == c.nodes[s].log
  {
    hide Merge, LargestOnMajority, LastEntry, LogInfoAt;
  }

  /** A service has been given exactly the commands of its server's log up to lastApplied. */
  lemma {:induction false} FedFollowsLog(n: nat, states: seq<Cluster>, labels: seq<Label>, s: nat, i: nat)
    requires SafeRun(n, states, labels) && i < |states| && s < n
    ensures s < |states[i].nodes| && |Fed(n, states, labels, s, i)| == states[i].nodes[s].lastApplied + 1
    ensures IsPrefixOf(Fed(n, states, labels, s, i), states[i].nodes[s].log)
  {
    hide Inv, CommitInv, Next, Enabled, NoPanic, Record, Covered;
    InvAt(n, states, labels, i);
    if i > 0 {
      var c, l, fed := states[i - 1], labels[i - 1], Fed(n, states, labels, s, i);
      FedFollowsLog(n, states, labels, s, i - 1);
      assert IsStep(c, l, states[i]);
      LastAppliedMoves(c, l, s);
      Bounds(n, states, labels, i - 1, s);
      Bounds(n, states, labels, i, s);
      forall x | 0 <= x < |fed| ensures x < |states[i].nodes[s].log| && fed[x] == states[i].nodes[s].log[x].command {
        if x <= c.nodes[s].lastApplied {
          CommittedEntriesAgree(n, states, labels, i - 1, i, s, s, x);
        }
      }
    }
  }

  lemma Bounds(n: nat, states: seq<Cluster>, labels: seq<Label>, i: nat, s: nat)
    requires SafeRun(n, states, labels) && i < |states| && s < |states[i].nodes|
    ensures -1 <= states[i].nodes[s].lastApplied <= states[i].nodes[s].commitIndex < |states[i].nodes[s].log|
  {
    hide Inv, IsRun, Covered;
    var node, h := states[i].nodes[s], HistoryAt(n, states, labels, i);
    InvAt(n, states, labels, i);
    CommitsAt(n, states, labels, i);
    assert NodeCommits(h, n, s, node);
    CoveredWithin(h, n, node.log, node.commitIndex, node.term);
  }

  /** Of two services, at any two moments, one has been given a prefix of what the other has. */
  lemma ServicesAgree(n: nat, states: seq<Cluster>, labels: seq<Label>, i: nat, j: nat, a: nat, b: nat)
    requires SafeRun(n, states, labels) && i <= j < |states| && a < n && b < n
    ensures var p, q := Fed(n, states, labels, a, i), Fed(n, states, labels, b, j);
            p <= q || q <= p
  {
    hide IsRun;
    var p, q := Fed(n, states, labels, a, i), Fed(n, states, labels, b, j);
    FedFollowsLog(n, states, labels, a, i);
    FedFollowsLog(n, states, labels, b, j);
    Bounds(n, states, labels, i, a);
    Bounds(n, states, labels, j, b);
    forall x | 0 <= x < |p| && x < |q| ensures p[x] == q[x] {
      CommittedEntriesAgree(n, states, labels, i, j, a, b, x);
    }
  }

  // ------------------------------------------------------ what Start promises

  /** A server's term never goes back, not even over a crash. */
  lemma {:induction false} TermsGrow(n: nat, states: seq<Cluster>, labels: seq<Label>, i: nat, j: nat, s: nat)
    requires n >= 1 && IsRun(n, states, labels) && i <= j < |states| && s < n
    ensures s < |states[i].nodes| && s < |states[j].nodes|
    ensures states[i].nodes[s].term <= states[j].nodes[s].term
    ensures states[i].nodes[s].log != [] ==> states[j].nodes[s].log != []
    decreases j
  {
    hide Inv, Next, Enabled, NoPanic;
    InvAt(n, states, labels, i);
    InvAt(n, states, labels, j);
    if i < j {
      TermsGrow(n, states, labels, i, j - 1, s);
      InvAt(n, states, labels, j - 1);
      assert IsStep(states[j - 1], labels[j - 1], states[j]);
      StepGrows(states[j - 1], HistoryAt(n, states, labels, j - 1), labels[j - 1], s);
    }
  }

  lemma StepGrows(c: Cluster, h: History, l: Label, s: nat)
    requires Inv(c, h) && Enabled(c, l) && NoPanic(c, l) && s < |c.nodes|
    ensures Next(c, l).nodes[s].term >= c.nodes[s].term
    ensures c.nodes[s].log != [] ==> Next(c, l).nodes[s].log != []
  {
    hide Inv, LargestOnMajority, LastEntry, LogInfoAt, GoodLog, LeaderOk, Merge;
    HasNodeOk(c, h, s);
    if l.OnAppendEntries? && l.s == s {
      var n1, args := StepDown(c.nodes[s], l.m.append.term), l.m.append;
      if Accepts(n1, args) {
        MergeNotEmpty(n1.log, args.entries, args.prevLogIndex + 1);
      }
    }
  }

  lemma {:induction false} MergeNotEmpty(log: Log, entries: seq<LogEntry>, first: nat)
    requires first <= |log| && Consecutive(entries, first)
    ensures log != [] ==> Merge(log, entries, first) != []
    decreases |entries|
  {
    if entries != [] && HasTermAt(log, first, entries[0].term) {
      MergeNotEmpty(log, entries[1..], first + 1);
    }
  }

  /**
   Two calls of Start on the same server: the term does not go back, the index grows
   within a term, and it is not the first index again.  The new index has not been
   delivered.
   */
  lemma StartGuarantees(n: nat, states: seq<Cluster>, labels: seq<Label>, i: nat, j: nat)
    requires SafeRun(n, states, labels) && i < j < |labels|
    requires labels[i].Start? && labels[j].Start? && labels[i].s == labels[j].s < n
    ensures var s := labels[i].s;
            && s < |states[i].nodes| && s < |states[j].nodes|
            && var p, q := states[i].nodes[s], states[j].nodes[s];
               && 1 <= p.term <= q.term
               && (p.term == q.term ==> |p.log| < |q.log|)
               && 1 <= |q.log| && q.lastApplied < |q.log|
  {
    assert IsStep(states[i], labels[i], states[i + 1]) && IsStep(states[j], labels[j], states[j + 1]);
    hide Inv, IsRun, Merge;
    var s := labels[i].s;
    TermsGrow(n, states, labels, i, i + 1, s);
    TermsGrow(n, states, labels, i + 1, j, s);
    LeaderTermPositive(n, states, labels, i, s);
    Bounds(n, states, labels, j, s);
    if states[i].nodes[s].term == states[j].nodes[s].term {
      LeaderAppendOnly(n, states, labels, i + 1, j, s);
    }
  }

  lemma LeaderTermPositive(n: nat, states: seq<Cluster>, labels: seq<Label>, i: nat, s: nat)
    requires n >= 1 && IsRun(n, states, labels) && i < |states| && s < |states[i].nodes|
    requires states[i].nodes[s].role == Leader
    ensures states[i].nodes[s].term >= 1
  {
    hide Inv, IsRun, GoodLog;
    var h := HistoryAt(n, states, labels, i);
    InvAt(n, states, labels, i);
    HasNodeOk(states[i], h, s);
    assert ElectionOk(h, states[i].nodes[s].term, n);
  }

  // --------------------------------------------------- where commands come from

  /** An entry of its own term in a leader's log was put there by a call of Start. */
  lemma {:induction false} LedWasStarted(n: nat, states: seq<Cluster>, labels: seq<Label>, i: nat, T: int, x: nat)
    returns (k: nat)
    requires n >= 1 && IsRun(n, states, labels) && i < |states|
    requires var h := HistoryAt(n, states, labels, i);
             T in h.tlog && x < |h.tlog[T]| && h.tlog[T][x].term == T
    ensures k < i && labels[k].Start? && labels[k].command == HistoryAt(n, states, labels, i).tlog[T][x].command
    decreases i
  {
    hide Inv, Next, Enabled, NoPanic, Record, Grows;
    var c, l, h := states[i - 1], labels[i - 1], HistoryAt(n, states, labels, i - 1);
    assert IsStep(c, l, states[i]);
    InvAt(n, states, labels, i - 1);
    InvAt(n, states, labels, i);
    RecordGrows(c, h, l);
    NewInLog(c, h, l, T, x);
    if T in h.tlog && x < |h.tlog[T]| {
      k := LedWasStarted(n, states, labels, i - 1, T, x);
    } else {
      k := i - 1;
    }
  }

  lemma NewInLog(c: Cluster, h: History, l: Label, T: int, x: nat)
    requires Inv(c, h) && Enabled(c, l) && NoPanic(c, l) && Grows(h, Record(c, h, l))
    requires var h' := Record(c, h, l);
             Inv(Next(c, l), h') && T in h'.tlog && x < |h'.tlog[T]| && h'.tlog[T][x].term == T
    ensures var e := Record(c, h, l).tlog[T][x];
            if T in h.tlog && x < |h.tlog[T]| then h.tlog[T][x] == e else l.Start? && e.command == l.command
  {
    hide Inv, GoodLog, Next, Merge;
    var h' := Record(c, h, l);
    HasNodeOk(c, h, l.s);
    HasElectionOk(Next(c, l), h', T);
  }

  lemma HasElectionOk(c: Cluster, h: History, T: int)
    requires Inv(c, h) && T in h.tlog
    ensures T in h.elections && ElectionOk(h, T, |c.nodes|)
  {
  }

  /** Every command in a log was started before. */
  lemma LoggedWasStarted(n: nat, states: seq<Cluster>, labels: seq<Label>, i: nat, s: nat, x: nat) returns (k: nat)
    requires n >= 1 && IsRun(n, states, labels) && i < |states|
    requires s < |states[i].nodes| && x < |states[i].nodes[s].log|
    ensures k < i && labels[k].Start? && labels[k].command == states[i].nodes[s].log[x].command
  {
    hide Inv, IsRun;
    InvAt(n, states, labels, i);
    HasNodeOk(states[i], HistoryAt(n, states, labels, i), s);
    k := LedWasStarted(n, states, labels, i, states[i].nodes[s].log[x].term, x);
  }

  /** All that was ever handed to a service is a prefix of what one of them was given. */
  lemma LongestFed(n: nat, states: seq<Cluster>, labels: seq<Label>) returns (s: nat, i: nat)
    requires SafeRun(n, states, labels)
    ensures s < n && i < |states|
    ensures forall t: nat, j: nat :: t < n && j < |states| ==> Fed(n, states, labels, t, j) <= Fed(n, states, labels, s, i)
  {
    hide Fed;
    s, i := 0, 0;
    for j := 0 to |states|
      invariant s < n && i < |states|
      invariant forall t: nat, m: nat :: t < n && m < j ==>
                  |Fed(n, states, labels, t, m)| <= |Fed(n, states, labels, s, i)|
    {
      for t := 0 to n
        invariant s < n && i < |states|
        invariant forall u: nat, m: nat :: u < n && m < j ==>
                    |Fed(n, states, labels, u, m)| <= |Fed(n, states, labels, s, i)|
        invariant forall u: nat :: u < t ==> |Fed(n, states, labels, u, j)| <= |Fed(n, states, labels, s, i)|
      {
        if |Fed(n, states, labels, t, j)| > |Fed(n, states, labels, s, i)| {
          s, i := t, j;
        }
      }
    }
    forall t: nat, j: nat | t < n && j < |states|
      ensures Fed(n, states, labels, t, j) <= Fed(n, states, labels, s, i)
    {
      if j <= i {
        ServicesAgree(n, states, labels, j, i, t, s);
      } else {
        ServicesAgree(n, states, labels, i, j, s, t);
      }
    }
  }
}
