/**
 Commit indices and deliveries.  With the intended rule, that only a leader
 advances its commit index by counting replicas, everything committed is chosen.
 The guard of advanceCommitIndex also lets other servers count, with whatever
 matchIndex they have; that is harmless exactly when one server meets every
 majority, which is when the cluster has at most two servers.
 */
module RaftCommit {
  import opened RaftNode
  import opened RaftCluster
  import opened RaftInvariant
  import opened RaftSteps
  import opened RaftSafety

  /** Everything up to ci is decided, in a term not after `term`, as `log` has it. */
  ghost predicate Covered(h: History, n: nat, log: Log, ci: int, term: int) {
    ci >= -1 && (ci >= 0 ==> exists T, k :: T <= term && CoveredBy(h, n, log, ci, T, k))
  }

  ghost predicate CoveredBy(h: History, n: nat, log: Log, ci: nat, T: int, k: nat) {
    ci < k && Chosen(h, n, T, k) && Agree(h.tlog[T], log, ci + 1)
  }

  ghost predicate SentCovered(h: History, n: nat, args: AppendArgs) {
    && args.term in h.tlog
    && Covered(h, n, h.tlog[args.term], args.leaderCommit, args.term)
    && args.leaderCommit <= args.prevLogIndex + |args.entries|
  }

  ghost predicate DeliveryOk(h: History, n: nat, d: Delivery) {
    exists T, k :: 0 <= d.index < k && Chosen(h, n, T, k) && h.tlog[T][d.index].command == d.command
  }

  /** Entries of the current term were acknowledged by the server that has them. */
  ghost predicate OwnTermAcked(h: History, s: nat, n: Node) {
    forall i :: 0 <= i < |n.log| && n.log[i].term == n.term ==> Acked(h, s, n.term, i + 1)
  }

  ghost predicate NodeCommits(h: History, size: nat, s: nat, n: Node) {
    && Covered(h, size, n.log, n.commitIndex, n.term)
    && -1 <= n.lastApplied <= n.commitIndex
    && OwnTermAcked(h, s, n)
  }

  ghost predicate CommitInv(c: Cluster, h: History) {
    && (forall s :: 0 <= s < |c.nodes| ==> NodeCommits(h, |c.nodes|, s, c.nodes[s]))
    && (forall m :: m in c.net && m.AppendEntries? ==> SentCovered(h, |c.nodes|, m.append))
    && (forall d :: d in c.delivered ==> DeliveryOk(h, |c.nodes|, d))
  }

  // ------------------------------------------------------------ stability

  lemma CoveredStable(h: History, h': History, n: nat, log: Log, log': Log, ci: int, term: int, term': int)
    requires Grows(h, h') && Covered(h, n, log, ci, term) && term <= term'
    requires ci + 1 <= |log| ==> Agree(log, log', ci + 1)
    ensures Covered(h', n, log', ci, term')
  {
    if ci >= 0 {
      var T, k :| T <= term && CoveredBy(h, n, log, ci, T, k);
      ChosenStable(h, h', n, T, k);
      assert CoveredBy(h', n, log', ci, T, k);
    }
  }

  lemma SentStable(h: History, h': History, n: nat, args: AppendArgs)
    requires Grows(h, h') && SentCovered(h, n, args)
    ensures SentCovered(h', n, args)
  {
    CoveredStable(h, h', n, h.tlog[args.term], h'.tlog[args.term], args.leaderCommit, args.term, args.term);
  }

  lemma DeliveryStable(h: History, h': History, n: nat, d: Delivery)
    requires Grows(h, h') && DeliveryOk(h, n, d)
    ensures DeliveryOk(h', n, d)
  {
    var T, k :| 0 <= d.index < k && Chosen(h, n, T, k) && h.tlog[T][d.index].command == d.command;
    ChosenStable(h, h', n, T, k);
  }

  lemma NodeCommitsStable(h: History, h': History, size: nat, s: nat, n: Node)
    requires Grows(h, h') && NodeCommits(h, size, s, n)
    ensures NodeCommits(h', size, s, n)
  {
    CoveredStable(h, h', size, n.log, n.log, n.commitIndex, n.term, n.term);
  }

  lemma CommitFrame(c: Cluster, h: History, c': Cluster, h': History, s: nat)
    requires CommitInv(c, h) && Grows(h, h') && s < |c.nodes| == |c'.nodes|
    requires c'.nodes == c.nodes[s := c'.nodes[s]]
    requires NodeCommits(h', |c.nodes|, s, c'.nodes[s])
    requires forall m :: m in c'.net && m !in c.net && m.AppendEntries? ==> SentCovered(h', |c.nodes|, m.append)
    requires forall d :: d in c'.delivered && d !in c.delivered ==> DeliveryOk(h', |c.nodes|, d)
    ensures CommitInv(c', h')
  {
    hide NodeCommits, SentCovered, DeliveryOk, Grows;
    forall j | 0 <= j < |c.nodes| ensures NodeCommits(h', |c.nodes|, j, c'.nodes[j]) {
      if j != s {
        NodeCommitsStable(h, h', |c.nodes|, j, c.nodes[j]);
      }
    }
    forall m | m in c'.net && m.AppendEntries? ensures SentCovered(h', |c.nodes|, m.append) {
      if m in c.net {
        SentStable(h, h', |c.nodes|, m.append);
      }
    }
    forall d | d in c'.delivered ensures DeliveryOk(h', |c.nodes|, d) {
      if d in c.delivered {
        DeliveryStable(h, h', |c.nodes|, d);
      }
    }
  }

  // -------------------------------------------------------------- counting

  /** The servers that nReplicated counts. */
  function Replicas(matchIndex: seq<int>, i: int): set<nat> {
    set j: nat | j < |matchIndex| && matchIndex[j] >= i
  }

  lemma {:induction false} NReplicatedCounts(matchIndex: seq<int>, i: int)
    ensures NReplicated(matchIndex, i) == |Replicas(matchIndex, i)|
    decreases |matchIndex|
  {
    if matchIndex == [] {
      assert Replicas(matchIndex, i) == {};
    } else {
      var last := |matchIndex| - 1;
      NReplicatedCounts(matchIndex[..last], i);
      var rest := Replicas(matchIndex[..last], i);
      assert Replicas(matchIndex, i) == if matchIndex[last] >= i then rest + {last} else rest;
    }
  }

  /** A leader of term T with index l on a majority has chosen its log up to l, if l is of term T. */
  lemma MajorityChooses(c: Cluster, h: History, s: nat, l: nat)
    requires Inv(c, h) && s < |c.nodes|
    requires var n := c.nodes[s]; n.role == Leader && l < |n.log| && n.log[l].term == n.term
    requires NReplicated(c.nodes[s].matchIndex, l) >= Majority(|c.nodes|)
    ensures Chosen(h, |c.nodes|, c.nodes[s].term, l + 1) && c.nodes[s].log == h.tlog[c.nodes[s].term]
  {
    hide GoodLog, VoteOk, AckOk, ElectionOk, MsgOk;
    var n := c.nodes[s];
    assert NodeOk(h, s, n, |c.nodes|);
    NReplicatedCounts(n.matchIndex, l);
    assert Blocking(h, |c.nodes|, Replicas(n.matchIndex, l), n.term, l + 1);
  }

  /** With at most two servers, the server's own acknowledgement is blocking. */
  lemma AloneChooses(c: Cluster, h: History, s: nat, l: nat)
    requires Inv(c, h) && CommitInv(c, h) && s < |c.nodes| <= 2
    requires var n := c.nodes[s]; l < |n.log| && n.log[l].term == n.term
    ensures Chosen(h, |c.nodes|, c.nodes[s].term, l + 1)
    ensures Agree(h.tlog[c.nodes[s].term], c.nodes[s].log, l + 1)
  {
    hide VoteOk, AckOk, ElectionOk, MsgOk, SentCovered, DeliveryOk, Covered;
    var n := c.nodes[s];
    assert NodeOk(h, s, n, |c.nodes|) && NodeCommits(h, |c.nodes|, s, n);
    assert Blocking(h, |c.nodes|, {s}, n.term, l + 1);
  }

  lemma AdvanceCommits(c: Cluster, h: History, s: nat)
    requires Inv(c, h) && CommitInv(c, h) && s < |c.nodes| && c.nodes[s].commitIndex >= -1
    requires c.nodes[s].role == Leader || |c.nodes| <= 2
    ensures CommitInv(Put(c, s, AdvanceCommit(c.nodes[s])), h)
  {
    hide Inv, Grows, SentCovered, DeliveryOk, Chosen, Agree;
    var n := c.nodes[s];
    var n' := AdvanceCommit(n);
    HasNodeOk(c, h, s);
    assert NodeCommits(h, |c.nodes|, s, n);
    if n' != n {
      var l := n'.commitIndex;
      if n.role == Leader {
        MajorityChooses(c, h, s, l);
        SelfAgree(n.log, l + 1);
      } else {
        AloneChooses(c, h, s, l);
      }
      assert CoveredBy(h, |c.nodes|, n.log, l, n.term, l + 1);
    }
    GrowsReflexive(h);
    CommitFrame(c, h, Put(c, s, n'), h, s);
  }

  lemma SelfAgree(log: Log, k: nat)
    requires k <= |log|
    ensures Agree(log, log, k)
  {
  }

  lemma GrowsReflexive(h: History)
    ensures Grows(h, h)
  {
  }

  // ------------------------------------------------------------ each step

  lemma RecordGrows(c: Cluster, h: History, l: Label)
    requires Inv(c, h) && Enabled(c, l) && NoPanic(c, l)
    ensures Grows(h, Record(c, h, l))
  {
    hide Inv, GoodLog, Merge, LogInfoAt, Granted;
    if l.Elected? {
      TermIsNew(c, h, l.s);
      HasNodeOk(c, h, l.s);
    } else if l.Start? {
      HasNodeOk(c, h, l.s);
    }
  }

  /** A server keeps its log and does not raise its commit index. */
  lemma QuietCommits(h: History, h': History, size: nat, s: nat, n: Node, n': Node)
    requires Grows(h, h') && NodeCommits(h, size, s, n) && LogOk(h, n.log, n.term)
    requires n'.log == n.log && n'.term >= n.term
    requires || (n'.commitIndex == n.commitIndex && n'.lastApplied == n.lastApplied)
             || n'.commitIndex == n'.lastApplied == -1
    ensures NodeCommits(h', size, s, n')
  {
    hide GoodLog;
    CoveredStable(h, h', size, n.log, n.log, n.commitIndex, n.term, n'.term);
  }

  lemma QuietCommitStep(c: Cluster, h: History, l: Label)
    requires Inv(c, h) && CommitInv(c, h) && Enabled(c, l) && NoPanic(c, l)
    requires l.Timeout? || l.OnRequestVote? || l.OnVoteAnswer? || l.Elected? || l.OnAppendAnswer? || l.Crash?
    ensures CommitInv(Next(c, l), Record(c, h, l))
  {
    hide Inv, Grows, Record, NodeCommits, SentCovered, DeliveryOk, GoodLog;
    RecordGrows(c, h, l);
    HasNodeOk(c, h, l.s);
    QuietCommits(h, Record(c, h, l), |c.nodes|, l.s, c.nodes[l.s], Next(c, l).nodes[l.s]);
    CommitFrame(c, h, Next(c, l), Record(c, h, l), l.s);
  }

  lemma StartCommits(c: Cluster, h: History, l: Label)
    requires Inv(c, h) && CommitInv(c, h) && Enabled(c, l) && NoPanic(c, l) && l.Start?
    ensures CommitInv(Next(c, l), Record(c, h, l))
  {
    hide Inv, SentCovered, DeliveryOk, GoodLog, Covered;
    var s, n, h' := l.s, c.nodes[l.s], Record(c, h, l);
    var n' := AppendCommand(n, s, l.command);
    RecordGrows(c, h, l);
    assert NodeCommits(h, |c.nodes|, s, n);
    CoveredStable(h, h', |c.nodes|, n.log, n'.log, n.commitIndex, n.term, n.term);
    assert OwnTermAcked(h', s, n');
    CommitFrame(c, h, Next(c, l), h', s);
  }

  lemma CoveredWithin(h: History, n: nat, log: Log, ci: int, term: int)
    requires Covered(h, n, log, ci, term)
    ensures -1 <= ci < |log|
  {
  }

  lemma SendCommits(c: Cluster, h: History, l: Label)
    requires Inv(c, h) && CommitInv(c, h) && Enabled(c, l) && NoPanic(c, l) && l.SendAppend?
    ensures CommitInv(Next(c, l), Record(c, h, l))
  {
    hide Inv, Grows, GoodLog, Covered, DeliveryOk;
    var n := c.nodes[l.s];
    HasNodeOk(c, h, l.s);
    assert NodeCommits(h, |c.nodes|, l.s, n);
    CoveredWithin(h, |c.nodes|, n.log, n.commitIndex, n.term);
    GrowsReflexive(h);
    CommitFrame(c, h, Next(c, l), h, l.s);
  }

  lemma ApplyCommits(c: Cluster, h: History, l: Label)
    requires Inv(c, h) && CommitInv(c, h) && Enabled(c, l) && NoPanic(c, l) && l.Apply?
    ensures CommitInv(Next(c, l), Record(c, h, l))
  {
    hide Inv, Grows, GoodLog, SentCovered;
    var n := c.nodes[l.s];
    assert NodeCommits(h, |c.nodes|, l.s, n);
    var T, k :| T <= n.term && CoveredBy(h, |c.nodes|, n.log, n.commitIndex, T, k);
    var i := n.lastApplied + 1;
    assert h.tlog[T][i] == n.log[i];
    assert DeliveryOk(h, |c.nodes|, Delivery(l.s, i, n.log[i].command));
    GrowsReflexive(h);
    CommitFrame(c, h, Next(c, l), h, l.s);
  }

  /** An accepted AppendEntries never takes back what the server had committed. */
  lemma AcceptKeepsCommitted(c: Cluster, h: History, n: Node, n': Node, K: Log, end: nat)
    requires Inv(c, h) && Covered(h, |c.nodes|, n.log, n.commitIndex, n.term)
    requires n.term in h.elections && n.term in h.tlog && h.tlog[n.term] == K && end <= |K|
    requires n'.log == if Agree(n.log, K, end) then n.log else K[..end]
    ensures Covered(h, |c.nodes|, n'.log, n.commitIndex, n.term)
  {
    hide Inv;
    var ci := n.commitIndex;
    if ci >= 0 {
      var T, k :| T <= n.term && CoveredBy(h, |c.nodes|, n.log, ci, T, k);
      LeaderCompleteness(c, h, T, k, n.term);
      assert Agree(K, n.log, ci + 1);
      assert Agree(h.tlog[T], n'.log, ci + 1);
      assert CoveredBy(h, |c.nodes|, n'.log, ci, T, k);
    }
  }

  /** The follower's new commit index is one the leader had, on entries the follower has. */
  lemma FollowerCommits(h: History, n: nat, args: AppendArgs, K: Log, log': Log, end: nat)
    requires SentCovered(h, n, args) && h.tlog[args.term] == K && args.leaderCommit >= 0
    requires end == args.prevLogIndex + 1 + |args.entries| && Agree(K, log', end)
    ensures Covered(h, n, log', Min(args.leaderCommit, |log'| - 1), args.term)
  {
    hide Chosen;
    var lc := args.leaderCommit;
    var T, k :| T <= args.term && CoveredBy(h, n, K, lc, T, k);
    assert CoveredBy(h, n, log', lc, T, k);
  }

  lemma AcceptCommits(c: Cluster, h: History, s: nat, args: AppendArgs, end: nat)
    requires Inv(c, h) && s < |c.nodes| && AppendOk(h, args) && WellFormed(args)
    requires c.nodes[s].term == args.term && Accepts(c.nodes[s], args) && c.nodes[s].role == Follower
    requires end == args.prevLogIndex + 1 + |args.entries|
    requires NodeCommits(h, |c.nodes|, s, c.nodes[s]) && SentCovered(h, |c.nodes|, args)
    ensures NodeCommits(RecordAck(h, s, args.term, end), |c.nodes|, s, Accept(c.nodes[s], args))
  {
    hide Inv, Chosen, GoodLog, Merge, Agree;
    var n, n', h' := c.nodes[s], Accept(c.nodes[s], args), RecordAck(h, s, args.term, end);
    var K := h.tlog[args.term];
    AcceptOk(c, h, s, args, end);
    AcceptKeepsCommitted(c, h, n, n', K, end);
    if args.leaderCommit > n.commitIndex {
      FollowerCommits(h, |c.nodes|, args, K, n'.log, end);
      CoveredWithin(h, |c.nodes|, n'.log, n.commitIndex, n.term);
    }
    RecordAckGrows(h, s, args.term, end);
    assert Agree(n'.log, n'.log, n'.commitIndex + 1) by {
      CoveredWithin(h, |c.nodes|, n'.log, n'.commitIndex, n.term);
      SelfAgree(n'.log, n'.commitIndex + 1);
    }
    CoveredStable(h, h', |c.nodes|, n'.log, n'.log, n'.commitIndex, n.term, n.term);
    assert OwnTermAcked(h', s, n');
  }

  lemma AppendCommits(c: Cluster, h: History, l: Label)
    requires Inv(c, h) && CommitInv(c, h) && Enabled(c, l) && NoPanic(c, l) && l.OnAppendEntries?
    ensures CommitInv(Next(c, l), Record(c, h, l))
  {
    hide Inv, Grows, NodeCommits, SentCovered, DeliveryOk, GoodLog, AppendOk, Accept;
    var s, args := l.s, l.m.append;
    SentOk(c, h, l.m);
    HasNodeOk(c, h, s);
    var n1 := StepDown(c.nodes[s], args.term);
    var c1 := Put(c, s, n1);
    StepDownKeepsInv(c, h, s, args);
    GrowsReflexive(h);
    QuietCommits(h, h, |c.nodes|, s, c.nodes[s], n1);
    RecordGrows(c, h, l);
    if Accepts(n1, args) {
      AcceptCommits(c1, h, s, args, args.prevLogIndex + 1 + |args.entries|);
    }
    CommitFrame(c, h, Next(c, l), Record(c, h, l), s);
  }

  lemma StepKeepsCommits(c: Cluster, h: History, l: Label)
    requires Inv(c, h) && CommitInv(c, h) && Enabled(c, l) && NoPanic(c, l)
    requires LeaderOnly(c, l) || |c.nodes| <= 2
    ensures CommitInv(Next(c, l), Record(c, h, l))
  {
    hide Inv, CommitInv;
    match l {
      case Start(_, _) => StartCommits(c, h, l);
      case SendAppend(_, _) => SendCommits(c, h, l);
      case OnAppendEntries(_, _) => AppendCommits(c, h, l);
      case Advance(s) => AdvanceCommits(c, h, s);
      case Apply(_) => ApplyCommits(c, h, l);
      case _ => QuietCommitStep(c, h, l);
    }
  }

  /** With commits covered, the apply loop never reads past the end of the log either. */
  lemma ApplyNeverPanics(c: Cluster, h: History, l: Label)
    requires CommitInv(c, h) && Enabled(c, l) && l.Apply?
    ensures NoPanic(c, l)
  {
  }

  /** Two decided prefixes never disagree. */
  lemma ChosenAgree(c: Cluster, h: History, T: int, k: nat, T': int, k': nat, i: nat)
    requires Inv(c, h) && Chosen(h, |c.nodes|, T, k) && Chosen(h, |c.nodes|, T', k') && i < k && i < k'
    ensures h.tlog[T][i] == h.tlog[T'][i]
  {
    hide Inv;
    if T <= T' {
      LeaderCompleteness(c, h, T, k, T');
    } else {
      LeaderCompleteness(c, h, T', k', T);
    }
  }

  lemma DeliveriesAgree(c: Cluster, h: History, d: Delivery, d': Delivery)
    requires Inv(c, h) && CommitInv(c, h) && d in c.delivered && d' in c.delivered && d.index == d'.index
    ensures d.command == d'.command
  {
    hide Inv, NodeCommits, SentCovered;
    assert DeliveryOk(h, |c.nodes|, d) && DeliveryOk(h, |c.nodes|, d');
    var T, k :| 0 <= d.index < k && Chosen(h, |c.nodes|, T, k) && h.tlog[T][d.index].command == d.command;
    var T', k' :| 0 <= d'.index < k' && Chosen(h, |c.nodes|, T', k') && h.tlog[T'][d'.index].command == d'.command;
    ChosenAgree(c, h, T, k, T', k', d.index);
  }
}
