/**
 What the handlers do for progress, over whole runs: which requests are granted
 and accepted, what a round trip of AppendEntries achieves, and what leader and
 follower commit afterwards.
 */
module RaftProgress {
  import opened RaftNode
  import opened RaftCluster
  import opened RaftInvariant
  import opened RaftSteps
  import opened RaftCommit
  import opened RaftBackup
  import opened RaftRuns

  // -------------------------------------------------------------- elections

  /** The first log is at least as up to date as the second: a later last term, or the same and no shorter. */
  predicate AtLeastAsUpToDate(a: Log, b: Log) {
    if a == [] then b == []
    else b == [] || a[|a| - 1].term > b[|b| - 1].term || (a[|a| - 1].term == b[|b| - 1].term && |a| >= |b|)
  }

  /** A request for votes was sent by a server that timed out, and describes the log it had then. */
  lemma {:induction false} RequestWasSent(n: nat, states: seq<Cluster>, labels: seq<Label>, i: nat, m: Message)
    returns (k: nat)
    requires n >= 1 && IsRun(n, states, labels) && i < |states| && m in states[i].net && m.RequestVote?
    ensures k < i && labels[k] == Timeout(m.vote.candidate) && m.vote.candidate < |states[k].nodes|
    ensures var p := states[k].nodes[m.vote.candidate];
            m.vote == VoteArgs(p.term + 1, m.vote.candidate, |p.log| - 1, LastTerm(p.log))
    decreases i
  {
    hide NoPanic;
    assert IsStep(states[i - 1], labels[i - 1], states[i]);
    if m in states[i - 1].net {
      k := RequestWasSent(n, states, labels, i - 1, m);
    } else {
      NewRequest(states[i - 1], labels[i - 1], m);
      k := i - 1;
    }
  }

  lemma NewRequest(c: Cluster, l: Label, m: Message)
    requires Enabled(c, l) && NoPanic(c, l) && m in Next(c, l).net && m !in c.net && m.RequestVote?
    ensures l == Timeout(m.vote.candidate)
    ensures var p := c.nodes[l.s]; m.vote == VoteArgs(p.term + 1, l.s, |p.log| - 1, LastTerm(p.log))
  {
    hide Merge, LargestOnMajority, LastEntry, LogInfoAt;
  }

  /**
   A vote is granted exactly when the request's term is not over, the voter has not
   voted for anybody else in it, and the log the candidate had when it timed out is
   at least as up to date as the voter's.
   */
  lemma VoteGrantedIff(n: nat, states: seq<Cluster>, labels: seq<Label>, k: nat, i: nat)
    requires n >= 1 && IsRun(n, states, labels) && k < i < |labels|
    requires labels[k].Timeout? && labels[i].OnRequestVote? && labels[k].s < |states[k].nodes| && labels[i].s < n
    requires labels[i].m == RequestVote(BeginElection(states[k].nodes[labels[k].s], labels[k].s).1)
    ensures labels[i].s < |states[i].nodes|
    ensures var p, q, T := states[k].nodes[labels[k].s], states[i].nodes[labels[i].s], states[k].nodes[labels[k].s].term + 1;
            HandleRequestVote(q, labels[i].m.vote).1.granted <==>
              && q.term <= T
              && (q.term == T ==> q.votedFor == -1 || q.votedFor == labels[k].s)
              && AtLeastAsUpToDate(p.log, q.log)
  {
    RunLength(n, states, labels);
    hide Inv, IsRun, AtLeastAsUpToDate, HandleRequestVote;
    InvAt(n, states, labels, k);
    InvAt(n, states, labels, i);
    LastTermPositive(n, states, labels, k, labels[k].s);
    LastTermPositive(n, states, labels, i, labels[i].s);
    GrantedIff(states[k].nodes[labels[k].s], labels[k].s, states[i].nodes[labels[i].s]);
  }

  lemma GrantedIff(p: Node, candidate: nat, q: Node)
    requires p.log != [] ==> p.log[|p.log| - 1].term >= 1
    requires q.log != [] ==> q.log[|q.log| - 1].term >= 1
    ensures HandleRequestVote(q, BeginElection(p, candidate).1).1.granted <==>
              && q.term <= p.term + 1
              && (q.term == p.term + 1 ==> q.votedFor == -1 || q.votedFor == candidate)
              && AtLeastAsUpToDate(p.log, q.log)
  {
  }

  lemma LastTermPositive(n: nat, states: seq<Cluster>, labels: seq<Label>, i: nat, s: nat)
    requires n >= 1 && IsRun(n, states, labels) && i < |states| && s < |states[i].nodes|
    ensures var log := states[i].nodes[s].log; log != [] ==> log[|log| - 1].term >= 1
  {
    var log := states[i].nodes[s].log;
    if log != [] {
      LogShape(n, states, labels, i, s, |log| - 1, |log| - 1);
    }
  }

  /**
   A candidate that has been sent the votes of enough servers for its term, together
   with its own more than half of the cluster, can become leader.
   */
  lemma MajorityElects(n: nat, states: seq<Cluster>, labels: seq<Label>, i: nat, s: nat, voters: set<nat>)
    requires n >= 1 && IsRun(n, states, labels) && i < |states| && s < |states[i].nodes|
    requires states[i].nodes[s].role == Candidate
    requires forall v :: v in voters ==> v < n && VotesFor(states[i], v, s)
    requires 2 * |voters + {s}| > n
    ensures Enabled(states[i], Elected(s)) && NoPanic(states[i], Elected(s))
  {
    hide Inv, IsRun, VotesFor;
    InvAt(n, states, labels, i);
    HasNodeOk(states[i], HistoryAt(n, states, labels, i), s);
    forall v | v in voters - {s} ensures v in Granted(states[i], s) {
      VoteCounts(states[i], v, s);
    }
    SubsetSize(voters - {s}, Granted(states[i], s));
    assert voters + {s} == (voters - {s}) + {s};
  }

  /** Server v has granted s its vote, in the current term of s. */
  ghost predicate VotesFor(c: Cluster, v: nat, s: nat)
    requires s < |c.nodes|
  {
    exists m :: m in c.net && m.VoteAnswer? && m.from == v && m.answer.granted
                && m.voteOf.candidate == s && m.voteOf.term == c.nodes[s].term
  }

  lemma VoteCounts(c: Cluster, v: nat, s: nat)
    requires s < |c.nodes| && v < |c.nodes| && v != s && VotesFor(c, v, s)
    ensures v in Granted(c, s)
  {
    var m :| m in c.net && m.VoteAnswer? && m.from == v && m.answer.granted
             && m.voteOf.candidate == s && m.voteOf.term == c.nodes[s].term;
    assert IsGrantFor(c, s, m);
  }

  lemma {:induction false} SubsetSize(a: set<nat>, b: set<nat>)
    requires a <= b
    ensures |a| <= |b|
  {
    if a != {} {
      var x :| x in a;
      SubsetSize(a - {x}, b - {x});
    }
  }

  /** A new leader assumes that everybody has its whole log, and counts on nobody but itself. */
  lemma NewLeader(n: nat, states: seq<Cluster>, labels: seq<Label>, i: nat, j: nat)
    requires n >= 1 && IsRun(n, states, labels) && i < |labels| && labels[i].Elected? && j < n
    ensures labels[i].s < |states[i + 1].nodes|
    ensures var p := states[i + 1].nodes[labels[i].s];
            && p.role == Leader && j < |p.nextIndex| && j < |p.matchIndex|
            && p.nextIndex[j] == |p.log| && p.matchIndex[j] == if j == labels[i].s then |p.log| - 1 else -1
  {
    assert IsStep(states[i], labels[i], states[i + 1]);
    hide Inv, IsRun, Granted;
    InvAt(n, states, labels, i);
    HasNodeOk(states[i], HistoryAt(n, states, labels, i), labels[i].s);
  }

  // ------------------------------------------------------------------ terms

  /** Server s is in the later of its own term and the given one, and leads or stands no more if it is behind. */
  predicate CatchesUp(before: Node, after: Node, term: int) {
    && after.term == Max(before.term, term)
    && (term > before.term ==> after.role == Follower)
  }

  /**
   Terms spread with every message: whoever handles a request is afterwards in the later
   of the two terms, and the answer takes that term back to the sender.
   */
  lemma RequestsSpreadTerms(n: nat, states: seq<Cluster>, labels: seq<Label>, i: nat)
    requires n >= 1 && IsRun(n, states, labels) && i < |labels| && labels[i].s < |states[i].nodes| == |states[i + 1].nodes|
    ensures labels[i].OnRequestVote? && labels[i].m.RequestVote? ==>
              var answer := HandleRequestVote(states[i].nodes[labels[i].s], labels[i].m.vote).1;
              && CatchesUp(states[i].nodes[labels[i].s], states[i + 1].nodes[labels[i].s], labels[i].m.vote.term)
              && answer.term == states[i + 1].nodes[labels[i].s].term
              && VoteAnswer(labels[i].s, labels[i].m.vote, answer) in states[i + 1].net
    ensures labels[i].OnAppendEntries? && labels[i].m.AppendEntries? && WellFormed(labels[i].m.append) ==>
              var reply := HandleAppendEntries(states[i].nodes[labels[i].s], labels[i].m.append).1;
              && CatchesUp(states[i].nodes[labels[i].s], states[i + 1].nodes[labels[i].s], labels[i].m.append.term)
              && reply.term == states[i + 1].nodes[labels[i].s].term
              && AppendAnswer(labels[i].s, labels[i].m.append, reply) in states[i + 1].net
  {
    assert IsStep(states[i], labels[i], states[i + 1]);
    hide IsRun, Merge, LogInfoAt, Grants;
  }

  lemma AnswersSpreadTerms(n: nat, states: seq<Cluster>, labels: seq<Label>, i: nat)
    requires n >= 1 && IsRun(n, states, labels) && i < |labels| && labels[i].s < |states[i].nodes| == |states[i + 1].nodes|
    ensures labels[i].OnVoteAnswer? && labels[i].m.VoteAnswer? ==>
              CatchesUp(states[i].nodes[labels[i].s], states[i + 1].nodes[labels[i].s], labels[i].m.answer.term)
    ensures labels[i].OnAppendAnswer? && labels[i].m.AppendAnswer? ==>
              CatchesUp(states[i].nodes[labels[i].s], states[i + 1].nodes[labels[i].s], labels[i].m.reply.term)
  {
    assert IsStep(states[i], labels[i], states[i + 1]);
    hide IsRun, LastEntry;
  }

  lemma RunLength(n: nat, states: seq<Cluster>, labels: seq<Label>)
    requires IsRun(n, states, labels)
    ensures |states| == |labels| + 1
  {
  }

  // ------------------------------------------------------------ replication

  /** At step k leader a sends `args` to s. */
  ghost predicate SentAt(states: seq<Cluster>, labels: seq<Label>, k: nat, a: nat, s: nat, args: AppendArgs) {
    && k < |labels| < |states| && labels[k] == SendAppend(a, s) && a < |states[k].nodes|
    && CanSend(states[k].nodes[a], s) && args == MissingEntries(states[k].nodes[a], a, s)
  }

  /** At step i server s handles `args`. */
  ghost predicate HandledAt(states: seq<Cluster>, labels: seq<Label>, i: nat, s: nat, args: AppendArgs) {
    && i < |labels| < |states| && labels[i] == OnAppendEntries(s, AppendEntries(s, args))
    && s < |states[i].nodes| && WellFormed(args)
  }

  /** The answer to the request handled at step i. */
  ghost function AnswerAt(states: seq<Cluster>, labels: seq<Label>, i: nat, s: nat, args: AppendArgs): AppendReply
    requires HandledAt(states, labels, i, s, args)
  {
    HandleAppendEntries(states[i].nodes[s], args).1
  }

  /**
   A request is accepted exactly when the follower's term is not later than the
   leader's was, and it has all that the leader's log had before the entries sent.
   */
  lemma RequestAcceptedIff(n: nat, states: seq<Cluster>, labels: seq<Label>, k: nat, i: nat, a: nat, s: nat, args: AppendArgs)
    requires n >= 1 && IsRun(n, states, labels) && k < i
    requires SentAt(states, labels, k, a, s, args) && HandledAt(states, labels, i, s, args)
    ensures var p, q := states[k].nodes[a], states[i].nodes[s];
            AnswerAt(states, labels, i, s, args).success <==> q.term <= p.term && Agree(p.log, q.log, p.nextIndex[s])
  {
    hide IsRun, Merge, LogInfoAt;
    var p, q, prev := states[k].nodes[a].log, states[i].nodes[s].log, args.prevLogIndex;
    if 0 <= prev < |q| && q[prev].term == p[prev].term {
      LogMatching(n, states, labels, k, i, a, s, prev);
      forall x | 0 <= x <= prev ensures p[x] == q[x] {
        assert p[x] == p[..prev + 1][x] == q[..prev + 1][x] == q[x];
      }
    }
  }

  /**
   A follower's commit index moves to the announced one, or to the end of its log if
   that comes first, whenever the announced one is beyond its own; a request that is
   not accepted moves neither log nor commit index.
   */
  lemma AcceptedCommit(n: Node, args: AppendArgs)
    requires WellFormed(args)
    ensures var (n', reply) := HandleAppendEntries(n, args);
            if reply.success && args.leaderCommit > n.commitIndex
            then && n'.commitIndex <= args.leaderCommit && n'.commitIndex <= |n'.log| - 1
                 && (n'.commitIndex == args.leaderCommit || n'.commitIndex == |n'.log| - 1)
            else n'.commitIndex == n.commitIndex && (reply.success || n'.log == n.log)
  {
    hide Merge, LogInfoAt;
  }

  lemma AcceptedLength(n: nat, states: seq<Cluster>, labels: seq<Label>, i: nat)
    requires n >= 1 && IsRun(n, states, labels) && i < |labels| && labels[i].OnAppendEntries?
    requires IsStep(states[i], labels[i], states[i + 1])
    requires HandleAppendEntries(states[i].nodes[labels[i].s], labels[i].m.append).1.success
    ensures labels[i].s < |states[i + 1].nodes|
    ensures var args := labels[i].m.append;
            args.prevLogIndex + 1 + |args.entries| <= |states[i + 1].nodes[labels[i].s].log|
  {
    hide Inv, Next, Record, HandleAppendEntries;
    var h, h' := HistoryAt(n, states, labels, i), HistoryAt(n, states, labels, i + 1);
    assert h' == Record(states[i], h, labels[i]);
    AcceptAcks(states[i], h, labels[i]);
    hide IsRun, NoPanic, Enabled;
    InvAt(n, states, labels, i + 1);
    AckFacts(states[i + 1], h', labels[i].s, labels[i].m.append.term);
  }

  /** After every success the follower's commit index is the later of its own and the announced one. */
  lemma SuccessCommits(n: nat, states: seq<Cluster>, labels: seq<Label>, i: nat)
    requires SafeRun(n, states, labels) && i < |labels| && labels[i].OnAppendEntries?
    requires IsStep(states[i], labels[i], states[i + 1])
    requires HandleAppendEntries(states[i].nodes[labels[i].s], labels[i].m.append).1.success
    ensures labels[i].s < |states[i + 1].nodes|
    ensures states[i + 1].nodes[labels[i].s].commitIndex ==
              Max(states[i].nodes[labels[i].s].commitIndex, labels[i].m.append.leaderCommit)
  {
    RunLength(n, states, labels);
    hide IsRun, Merge, LogInfoAt;
    AcceptedLength(n, states, labels, i);
    RequestsCoverCommit(n, states, labels, i, labels[i].m);
    AcceptedCommit(states[i].nodes[labels[i].s], labels[i].m.append);
  }

  /** After a success the follower has all the leader had when it sent the request, and all it had committed. */
  lemma FollowerCatchesUp(n: nat, states: seq<Cluster>, labels: seq<Label>, k: nat, i: nat, a: nat, s: nat, args: AppendArgs)
    requires SafeRun(n, states, labels) && k < i
    requires SentAt(states, labels, k, a, s, args) && HandledAt(states, labels, i, s, args)
    requires AnswerAt(states, labels, i, s, args).success
    ensures s < |states[i + 1].nodes|
    ensures var p, q, q' := states[k].nodes[a], states[i].nodes[s], states[i + 1].nodes[s];
            Agree(p.log, q'.log, |p.log|) && q'.commitIndex == Max(q.commitIndex, p.commitIndex)
  {
    HoldsWhatWasSent(n, states, labels, k, i, a, s, args);
    assert IsStep(states[i], labels[i], states[i + 1]);
    hide IsRun, Merge, LogInfoAt;
    SuccessCommits(n, states, labels, i);
  }

  lemma HoldsWhatWasSent(n: nat, states: seq<Cluster>, labels: seq<Label>, k: nat, i: nat, a: nat, s: nat, args: AppendArgs)
    requires n >= 1 && IsRun(n, states, labels) && k < i
    requires SentAt(states, labels, k, a, s, args) && HandledAt(states, labels, i, s, args)
    requires AnswerAt(states, labels, i, s, args).success
    ensures s < |states[i + 1].nodes| && Agree(states[k].nodes[a].log, states[i + 1].nodes[s].log, |states[k].nodes[a].log|)
  {
    hide Inv, Next, Record, HandleAppendEntries, NoPanic, GoodLog;
    assert IsStep(states[k], labels[k], states[k + 1]) && IsStep(states[i], labels[i], states[i + 1]);
    var hk, h, h' := HistoryAt(n, states, labels, k), HistoryAt(n, states, labels, i), HistoryAt(n, states, labels, i + 1);
    assert h' == Record(states[i], h, labels[i]);
    AcceptAcks(states[i], h, labels[i]);
    InvAt(n, states, labels, k);
    InvAt(n, states, labels, i + 1);
    GrowsFrom(n, states, labels, k, i + 1);
    hide IsRun;
    HeldByFollower(states[k], hk, a, states[i + 1], h', s);
  }

  /** Having acknowledged, in a leader's term, as much as the leader had, a server has it. */
  lemma HeldByFollower(c: Cluster, h: History, a: nat, c': Cluster, h': History, s: nat)
    requires Inv(c, h) && Inv(c', h') && Grows(h, h') && a < |c.nodes| && s < |c'.nodes|
    requires var p := c.nodes[a]; p.role == Leader && Acked(h', s, p.term, |p.log|) && c'.nodes[s].term == p.term
    ensures Agree(c.nodes[a].log, c'.nodes[s].log, |c.nodes[a].log|)
  {
    hide Inv, GoodLog;
    HasNodeOk(c, h, a);
    AckFacts(c', h', s, c.nodes[a].term);
  }

  lemma AcceptAcks(c: Cluster, h: History, l: Label)
    requires Enabled(c, l) && NoPanic(c, l) && l.OnAppendEntries? && HandleAppendEntries(c.nodes[l.s], l.m.append).1.success
    ensures var args := l.m.append;
            && Acked(Record(c, h, l), l.s, args.term, args.prevLogIndex + 1 + |args.entries|)
            && |Next(c, l).nodes| == |c.nodes| && Next(c, l).nodes[l.s].term == args.term
  {
    hide Merge, LogInfoAt;
  }

  /**
   A round trip: what a leader sent at k was accepted at i, and the answer reaches the
   leader, still in that term, at j.  From then on the leader knows that the follower
   has all it had at k, and goes on from there.
   */
  lemma RoundTrip(
    n: nat, states: seq<Cluster>, labels: seq<Label>, k: nat, i: nat, j: nat, a: nat, s: nat, args: AppendArgs)
    requires n >= 1 && IsRun(n, states, labels) && k < i < j < |labels|
    requires SentAt(states, labels, k, a, s, args) && HandledAt(states, labels, i, s, args)
    requires AnswerAt(states, labels, i, s, args).success && a < |states[j].nodes|
    requires labels[j] == OnAppendAnswer(a, AppendAnswer(s, args, AnswerAt(states, labels, i, s, args)))
    requires states[j].nodes[a].role == Leader && states[j].nodes[a].term == states[k].nodes[a].term
    ensures a < |states[j + 1].nodes|
    ensures var p, p' := states[k].nodes[a], states[j + 1].nodes[a];
            && s < |p'.matchIndex| && s < |p'.nextIndex|
            && p'.role == Leader && p'.matchIndex[s] == |p.log| - 1 && p'.nextIndex[s] == |p.log|
  {
    hide Merge, LogInfoAt, LastEntry;
    assert IsStep(states[j], labels[j], states[j + 1]);
    assert AnswerAt(states, labels, i, s, args).term == args.term;
  }

  /** A leader counts itself: its own matchIndex is always the end of its log. */
  lemma {:induction false} LeaderMatchesItself(n: nat, states: seq<Cluster>, labels: seq<Label>, i: nat, a: nat)
    requires n >= 1 && IsRun(n, states, labels) && i < |states| && a < |states[i].nodes|
    ensures var p := states[i].nodes[a];
            p.role == Leader ==> a < |p.matchIndex| && p.matchIndex[a] == |p.log| - 1
    ensures forall m :: m in states[i].net && m.AppendAnswer? ==> m.follower != m.appendOf.leader
    decreases i
  {
    hide Inv, Next, Enabled, NoPanic;
    if i > 0 {
      var c, l := states[i - 1], labels[i - 1];
      assert IsStep(c, l, states[i]);
      InvAt(n, states, labels, i - 1);
      InvAt(n, states, labels, i);
      LeaderMatchesItself(n, states, labels, i - 1, a);
      SelfMatchStays(c, HistoryAt(n, states, labels, i - 1), l, a);
    }
  }

  lemma SelfMatchStays(c: Cluster, h: History, l: Label, a: nat)
    requires Inv(c, h) && Enabled(c, l) && NoPanic(c, l) && a < |c.nodes|
    requires var p := c.nodes[a]; p.role == Leader ==> a < |p.matchIndex| && p.matchIndex[a] == |p.log| - 1
    requires forall m :: m in c.net && m.AppendAnswer? ==> m.follower != m.appendOf.leader
    ensures var p := Next(c, l).nodes[a]; p.role == Leader ==> a < |p.matchIndex| && p.matchIndex[a] == |p.log| - 1
    ensures forall m :: m in Next(c, l).net && m.AppendAnswer? ==> m.follower != m.appendOf.leader
  {
    hide Inv, Merge, LogInfoAt, LastEntry, LargestOnMajority;
    if l.OnAppendEntries? {
      SentOk(c, h, l.m);
      StepDownKeepsInv(c, h, l.s, l.m.append);
    }
  }

  // ---------------------------------------------------------------- commits

  lemma {:induction false} ReplicatedLess(matchIndex: seq<int>, i: int, j: int)
    requires i <= j
    ensures NReplicated(matchIndex, j) <= NReplicated(matchIndex, i)
    decreases |matchIndex|
  {
    if matchIndex != [] {
      ReplicatedLess(matchIndex[..|matchIndex| - 1], i, j);
    }
  }

  /** The scan from `from` passes every index that is on a majority. */
  lemma {:induction false} ScanReaches(matchIndex: seq<int>, last: int, from: int, x: int)
    requires from <= x <= last && NReplicated(matchIndex, x) >= Majority(|matchIndex|)
    ensures x <= LargestOnMajority(matchIndex, last, from)
    decreases last - from
  {
    ReplicatedLess(matchIndex, from, x);
    if from < x {
      ScanReaches(matchIndex, last, from + 1, x);
    }
  }

  /** A majority of the cluster has, as far as this server knows, got to index x. */
  ghost predicate OnMajority(n: Node, x: int) {
    |set j: nat | j < |n.matchIndex| && n.matchIndex[j] >= x| > |n.matchIndex| / 2
  }

  lemma OnMajorityCounts(n: Node, x: int)
    ensures OnMajority(n, x) <==> NReplicated(n.matchIndex, x) >= Majority(|n.matchIndex|)
  {
    NReplicatedCounts(n.matchIndex, x);
    assert Replicas(n.matchIndex, x) == set j: nat | j < |n.matchIndex| && n.matchIndex[j] >= x;
  }

  /**
   What advanceCommitIndex does on any log with non-decreasing terms: it commits every
   entry of the server's term that is on a majority, and moves nowhere but to such an entry.
   */
  lemma AdvanceCommitsMajority(n: Node, x: nat)
    requires -1 <= n.commitIndex && n.role == Leader && Sorted(n.log) && TermsAtMost(n.log, n.term)
    ensures x < |n.log| && n.log[x].term == n.term && OnMajority(n, x) ==> x <= AdvanceCommit(n).commitIndex
    ensures var ci := AdvanceCommit(n).commitIndex;
            ci == n.commitIndex || (n.commitIndex < ci < |n.log| && n.log[ci].term == n.term && OnMajority(n, ci))
  {
    hide NReplicated, LargestOnMajority, OnMajority;
    var l := LargestOnMajority(n.matchIndex, |n.log| - 1, n.commitIndex + 1);
    OnMajorityCounts(n, x);
    OnMajorityCounts(n, l);
    if n.commitIndex < x < |n.log| && n.log[x].term == n.term && OnMajority(n, x) {
      ScanReaches(n.matchIndex, |n.log| - 1, n.commitIndex + 1, x);
      assert n.log[x].term <= n.log[l].term <= n.term;
    }
  }

  /** The same over runs, where the condition on the log always holds. */
  lemma LeaderCommitsMajority(n: nat, states: seq<Cluster>, labels: seq<Label>, i: nat, x: nat)
    requires n >= 1 && IsRun(n, states, labels) && i < |labels| && labels[i].Advance? && labels[i].s < |states[i].nodes|
    requires states[i].nodes[labels[i].s].role == Leader
    ensures labels[i].s < |states[i + 1].nodes|
    ensures var p, p' := states[i].nodes[labels[i].s], states[i + 1].nodes[labels[i].s];
            && |p.matchIndex| == n && p'.log == p.log && p'.term == p.term
            && (x < |p.log| && p.log[x].term == p.term && OnMajority(p, x) ==> x <= p'.commitIndex)
            && (p'.commitIndex == p.commitIndex
                || (p.commitIndex < p'.commitIndex < |p.log| && p.log[p'.commitIndex].term == p.term
                    && OnMajority(p, p'.commitIndex)))
  {
    var s := labels[i].s;
    assert IsStep(states[i], labels[i], states[i + 1]);
    hide Inv, IsRun, OnMajority, LargestOnMajority, Sorted, GoodLog;
    InvAt(n, states, labels, i);
    HasNodeOk(states[i], HistoryAt(n, states, labels, i), s);
    LogsMatchDownwards(n, states, labels, i, i, s, s);
    AdvanceCommitsMajority(states[i].nodes[s], x);
  }

  /** Only a crash takes a commit index back, and only counting and accepting move it on. */
  lemma CommitIndexMoves(n: nat, states: seq<Cluster>, labels: seq<Label>, i: nat, s: nat)
    requires SafeRun(n, states, labels) && i < |labels| && s < |states[i].nodes|
    ensures s < |states[i + 1].nodes|
    ensures var ci, ci' := states[i].nodes[s].commitIndex, states[i + 1].nodes[s].commitIndex;
            if labels[i] == Crash(s) then ci' == -1
            else ci <= ci' && (ci < ci' ==> labels[i].s == s && (labels[i].Advance? || labels[i].OnAppendEntries?))
  {
    var c, l := states[i], labels[i];
    assert IsStep(c, l, states[i + 1]);
    if l.OnAppendEntries? && l.s == s {
      if HandleAppendEntries(c.nodes[s], l.m.append).1.success {
        SuccessCommits(n, states, labels, i);
      }
      AcceptedCommit(c.nodes[s], l.m.append);
    }
    hide IsRun, Merge, LargestOnMajority, LastEntry, LogInfoAt;
  }

  // ------------------------------------------------------------ fast backup

  /**
   One rejection passes the whole run of the follower's conflicting term: if the leader
   has nothing of that term up to there, it goes on at the first index at which the
   follower has it, or at the end of the follower's log if the follower had nothing there.
   If it has the term, it goes on at its own last entry of it.
   */
  lemma RejectionPassesTerm(leader: Log, follower: Log, args: AppendArgs)
    requires Sorted(leader) && Sorted(follower)
    requires -1 <= args.prevLogIndex < |leader| && args.prevLogTerm == TermAt(leader, args.prevLogIndex)
    requires !HasTermAt(follower, args.prevLogIndex, args.prevLogTerm)
    ensures var prev, next := args.prevLogIndex, Backup(leader, args, LogInfoAt(follower, args.prevLogIndex));
            if prev >= |follower| then next == |follower|
            else
              var term := follower[prev].term;
              if exists k :: 0 <= k <= prev && leader[k].term == term
              then 0 <= next <= prev && leader[next].term == term && forall k :: next < k <= prev ==> leader[k].term != term
              else 0 <= next <= prev && forall k :: 0 <= k <= prev ==> (follower[k].term == term <==> next <= k)
  {
    var prev, info := args.prevLogIndex, LogInfoAt(follower, args.prevLogIndex);
    if prev < |follower| {
      LastEntryFinds(leader, prev, info.term);
    }
  }

  /** What fast backup may skip: nothing at which the logs match, and at least the whole conflicting term. */
  ghost predicate BacksUp(leader: Log, follower: Log, prev: int, next: int)
    requires -1 <= prev < |leader|
  {
    && 0 <= next <= prev && (forall k :: next < k <= prev ==> !Matches(leader, follower, k))
    && (prev >= |follower| ==> next == |follower|)
    && (prev < |follower| && (forall k :: 0 <= k <= prev ==> leader[k].term != follower[prev].term) ==>
          forall k :: 0 <= k <= prev && follower[k].term == follower[prev].term ==> next <= k)
  }

  /**
   The other round trip: what was sent at k is rejected at i for the follower's log,
   and the answer reaches the leader, still in that term, at j.
   */
  lemma RejectionRoundTrip(
    n: nat, states: seq<Cluster>, labels: seq<Label>, k: nat, i: nat, j: nat, a: nat, s: nat, args: AppendArgs)
    requires n >= 1 && IsRun(n, states, labels) && k < i < j < |labels|
    requires SentAt(states, labels, k, a, s, args) && HandledAt(states, labels, i, s, args)
    requires !AnswerAt(states, labels, i, s, args).success && a < |states[j].nodes|
    requires labels[j] == OnAppendAnswer(a, AppendAnswer(s, args, AnswerAt(states, labels, i, s, args)))
    requires states[j].nodes[a].role == Leader && states[j].nodes[a].term == states[k].nodes[a].term >= states[i].nodes[s].term
    ensures a < |states[j + 1].nodes|
    ensures var p, q, p' := states[k].nodes[a], states[i].nodes[s], states[j + 1].nodes[a];
            && s < |p'.nextIndex| && p'.role == Leader && p'.matchIndex == states[j].nodes[a].matchIndex
            && BacksUp(p.log, q.log, args.prevLogIndex, p'.nextIndex[s])
  {
    assert IsStep(states[k], labels[k], states[k + 1]);
    var p, q, p1 := states[k].nodes[a], states[i].nodes[s], states[j].nodes[a];
    RejectedNext(states, labels, i, j, a, s, args);
    hide IsRun, Sorted, Merge, LogInfoAt, LastEntry, BacksUp, MatchesDownwards;
    LeaderAppendOnly(n, states, labels, k, j, a);
    LogsMatchDownwards(n, states, labels, k, i, a, s);
    LogsMatchDownwards(n, states, labels, j, i, a, s);
    BackupWithMore(p.log, p1.log, q.log, args);
  }

  lemma RejectedNext(states: seq<Cluster>, labels: seq<Label>, i: nat, j: nat, a: nat, s: nat, args: AppendArgs)
    requires HandledAt(states, labels, i, s, args) && !AnswerAt(states, labels, i, s, args).success
    requires j < |labels| && j + 1 < |states| && IsStep(states[j], labels[j], states[j + 1]) && a < |states[j].nodes|
    requires labels[j] == OnAppendAnswer(a, AppendAnswer(s, args, AnswerAt(states, labels, i, s, args)))
    requires states[j].nodes[a].role == Leader && states[j].nodes[a].term == args.term >= states[i].nodes[s].term
    ensures a < |states[j + 1].nodes| && -1 <= args.prevLogIndex < |states[j].nodes[a].log|
    ensures var q, p1, p' := states[i].nodes[s], states[j].nodes[a], states[j + 1].nodes[a];
            && s < |p'.nextIndex| && p'.role == Leader && p'.matchIndex == p1.matchIndex
            && !HasTermAt(q.log, args.prevLogIndex, args.prevLogTerm)
            && p'.nextIndex[s] == Backup(p1.log, args, LogInfoAt(q.log, args.prevLogIndex))
  {
    hide Merge, LogInfoAt, LastEntry;
  }

  /** The leader may have started more commands since; they do not matter. */
  lemma BackupWithMore(before: Log, now: Log, follower: Log, args: AppendArgs)
    requires before <= now && Sorted(now) && Sorted(follower)
    requires -1 <= args.prevLogIndex < |before| && args.prevLogTerm == TermAt(before, args.prevLogIndex)
    requires !HasTermAt(follower, args.prevLogIndex, args.prevLogTerm)
    ensures BacksUp(before, follower, args.prevLogIndex, Backup(now, args, LogInfoAt(follower, args.prevLogIndex)))
  {
    hide LogInfoAt, LastEntry;
    RejectionPassesTerm(now, follower, args);
    BackupSkipsOnlyMismatches(now, follower, args);
  }
}
