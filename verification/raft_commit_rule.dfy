/**
 The commit rule as coded.  advanceCommitIndex runs on every server, and Make
 fills matchIndex with zeros, so a server that restarts with one entry of its
 current term counts that entry as replicated everywhere.  With three or more
 servers this breaks State Machine Safety; with one or two it cannot.
 */
module RaftCommitRule {
  import opened RaftNode
  import opened RaftCluster
  import opened RaftRuns

  ghost predicate Reachable(n: nat, c: Cluster) {
    exists states, labels :: IsRun(n, states, labels) && states[|labels|] == c
  }

  lemma InitReachable(n: nat)
    ensures Reachable(n, Init(n))
  {
    assert IsRun(n, [Init(n)], []);
  }

  lemma StepReachable(n: nat, c: Cluster, l: Label)
    requires Reachable(n, c) && Enabled(c, l) && NoPanic(c, l)
    ensures Reachable(n, Next(c, l))
  {
    hide Next, Enabled, NoPanic;
    var states, labels :| IsRun(n, states, labels) && states[|labels|] == c;
    var states', labels' := states + [Next(c, l)], labels + [l];
    forall i | 0 <= i < |labels'| ensures IsStep(states'[i], labels'[i], states'[i + 1]) {
      if i < |labels| {
        assert IsStep(states[i], labels[i], states[i + 1]);
      }
    }
    assert IsRun(n, states', labels');
  }

  /** A server with an empty log that has not yet reached `term` and does not lead. */
  predicate Blank(n: Node, term: int) {
    n.log == [] && n.term < term && n.role != Leader && Synced(n)
  }

  /** Voting raised the term of a blank server and changed nothing else that matters here. */
  predicate Voted(n: Node, n': Node, term: int) {
    Blank(n', term + 1) && n'.term == term && |n'.matchIndex| == |n.matchIndex|
  }

  ghost predicate Asks(c: Cluster, s: nat, args: VoteArgs) {
    && s < |c.nodes| && args == VoteArgs(c.nodes[s].term, s, -1, 0)
    && c.nodes[s].role == Candidate && c.nodes[s].log == []
    && RequestVote(args) in c.net
  }

  /** The servers lo, ..., hi - 1 all vote for s, and nobody else moves. */
  lemma {:induction false} CollectVotes(n: nat, c: Cluster, s: nat, args: VoteArgs, lo: nat, hi: nat)
    returns (c': Cluster)
    requires Reachable(n, c) && |c.nodes| == n && Asks(c, s, args)
    requires s < lo <= hi <= n && args.term >= 1
    requires forall v :: lo <= v < hi ==> Blank(c.nodes[v], args.term)
    ensures Reachable(n, c') && |c'.nodes| == n && Asks(c', s, args)
    ensures forall v :: 0 <= v < n && !(lo <= v < hi) ==> c'.nodes[v] == c.nodes[v]
    ensures forall v :: lo <= v < hi ==> Voted(c.nodes[v], c'.nodes[v], args.term)
    ensures forall v :: lo <= v < hi ==> VoteAnswer(v, args, VoteReply(args.term, true)) in c'.net
    ensures c.delivered == c'.delivered
    decreases hi - lo
  {
    if lo == hi {
      c' := c;
    } else {
      var last := hi - 1;
      var c1 := CollectVotes(n, c, s, args, lo, last);
      assert Blank(c1.nodes[last], args.term);
      var l := OnRequestVote(last, RequestVote(args));
      StepReachable(n, c1, l);
      c' := Next(c1, l);
    }
  }

  lemma {:induction false} RangeWithin(a: set<nat>, lo: nat, hi: nat)
    requires lo <= hi && forall v :: lo <= v < hi ==> v in a
    ensures |a| >= hi - lo
    decreases hi - lo
  {
    if lo < hi {
      RangeWithin(a - {hi - 1}, lo, hi - 1);
    }
  }

  lemma VotesWin(c: Cluster, s: nat, args: VoteArgs, lo: nat, hi: nat)
    requires Asks(c, s, args) && s < lo <= hi <= |c.nodes|
    requires forall v :: lo <= v < hi ==> VoteAnswer(v, args, VoteReply(args.term, true)) in c.net
    ensures |Granted(c, s)| >= hi - lo
  {
    forall v | lo <= v < hi ensures v in Granted(c, s) {
      var m := VoteAnswer(v, args, VoteReply(args.term, true));
      assert m in c.net && IsGrantFor(c, s, m) && m.from == v;
    }
    RangeWithin(Granted(c, s), lo, hi);
  }

  lemma {:induction false} ZerosReplicate(k: nat)
    ensures NReplicated(seq(k, _ => 0), 0) == k
  {
    if k > 0 {
      assert seq(k, _ => 0)[..k - 1] == seq(k - 1, _ => 0);
      ZerosReplicate(k - 1);
    }
  }

  /** A restarted server with one entry, of its own term, commits it without asking anyone. */
  lemma RestartedCommits(n: Node, size: nat, x: Command)
    requires n.log == [LogEntry(0, n.term, x)] && size >= 1 && Synced(n)
    ensures var r := AdvanceCommit(Restart(n, size));
            r.commitIndex == 0 && r.lastApplied == -1 && r.log == n.log && r.role == Follower
  {
    ZerosReplicate(size);
  }

  /** Server s wins a term, takes one command, restarts, and delivers it, all by itself. */
  lemma SoloCommit(n: nat, c: Cluster, s: nat, lo: nat, hi: nat, x: Command) returns (c': Cluster)
    requires Reachable(n, c) && |c.nodes| == n && s < lo <= hi <= n
    requires c.nodes[s].term >= 0 && Blank(c.nodes[s], c.nodes[s].term + 1) && |c.nodes[s].matchIndex| == n
    requires forall v :: lo <= v < hi ==> Blank(c.nodes[v], c.nodes[s].term + 1)
    requires hi - lo + 1 >= Majority(n)
    ensures Reachable(n, c') && |c'.nodes| == n
    ensures Delivery(s, 0, x) in c'.delivered && c.delivered <= c'.delivered
    ensures forall v :: 0 <= v < n && v != s && !(lo <= v < hi) ==> c'.nodes[v] == c.nodes[v]
    ensures forall v :: lo <= v < hi ==> Voted(c.nodes[v], c'.nodes[v], c.nodes[s].term + 1)
  {
    var c1 := Next(c, Timeout(s));
    StepReachable(n, c, Timeout(s));
    var args := BeginElection(c.nodes[s], s).1;
    var c2 := CollectVotes(n, c1, s, args, lo, hi);
    VotesWin(c2, s, args, lo, hi);
    assert c2.nodes[s] == c1.nodes[s];
    var c3 := Lead(n, c2, s, x);
    c' := RestartAndDeliver(n, c3, s, x);
  }

  lemma Lead(n: nat, c: Cluster, s: nat, x: Command) returns (c': Cluster)
    requires Reachable(n, c) && s < |c.nodes| == n == |c.nodes[s].matchIndex|
    requires c.nodes[s].role == Candidate && c.nodes[s].log == []
    requires |Granted(c, s)| + 1 >= Majority(n)
    ensures Reachable(n, c') && |c'.nodes| == n && c'.delivered == c.delivered
    ensures forall v :: 0 <= v < n && v != s ==> c'.nodes[v] == c.nodes[v]
    ensures c'.nodes[s].log == [LogEntry(0, c'.nodes[s].term, x)] && Synced(c'.nodes[s])
  {
    StepReachable(n, c, Elected(s));
    var c1 := Next(c, Elected(s));
    StepReachable(n, c1, Start(s, x));
    c' := Next(c1, Start(s, x));
  }

  lemma RestartAndDeliver(n: nat, c: Cluster, s: nat, x: Command) returns (c': Cluster)
    requires Reachable(n, c) && s < |c.nodes| == n
    requires c.nodes[s].log == [LogEntry(0, c.nodes[s].term, x)] && Synced(c.nodes[s])
    ensures Reachable(n, c') && |c'.nodes| == n
    ensures Delivery(s, 0, x) in c'.delivered && c.delivered <= c'.delivered
    ensures forall v :: 0 <= v < n && v != s ==> c'.nodes[v] == c.nodes[v]
  {
    RestartedCommits(c.nodes[s], n, x);
    StepReachable(n, c, Crash(s));
    var c1 := Next(c, Crash(s));
    StepReachable(n, c1, Advance(s));
    var c2 := Next(c1, Advance(s));
    StepReachable(n, c2, Apply(s));
    c' := Next(c2, Apply(s));
  }

  /** With three or more servers two of them can deliver different commands at index 0. */
  lemma CodedRuleFails(n: nat, x: Command, y: Command) returns (c: Cluster)
    requires n >= 3
    ensures Reachable(n, c) && Delivery(0, 0, x) in c.delivered && Delivery(1, 0, y) in c.delivered
  {
    InitReachable(n);
    var m := Majority(n);
    var c1 := SoloCommit(n, Init(n), 0, 1, m, x);
    assert forall v :: 1 <= v < m ==> Voted(Init(n).nodes[v], c1.nodes[v], 1);
    c := SoloCommit(n, c1, 1, 2, m + 1, y);
  }

  /**
   The exact condition on the coded rule: every run of an n-server cluster
   delivers consistently if and only if n is at most two.
   */
  lemma CodedRuleSafeIff(n: nat)
    requires n >= 1
    ensures (forall states, labels :: IsRun(n, states, labels) ==> Consistent(states[|labels|])) <==> n <= 2
  {
    if n <= 2 {
      forall states, labels | IsRun(n, states, labels) ensures Consistent(states[|labels|]) {
        StateMachineSafety(n, states, labels, |labels|);
      }
    } else {
      var c := CodedRuleFails(n, "x", "y");
      var states, labels :| IsRun(n, states, labels) && states[|labels|] == c;
      assert !Consistent(c);
    }
  }
}
