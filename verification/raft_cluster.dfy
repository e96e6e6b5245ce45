/**
 A cluster of Raft servers as a state machine.  Every critical section under
 `rf.mu` is one step.  The network is the set of all messages ever sent: a step
 may react to any of them at any time and any number of times, so loss, delay,
 reordering and duplication are all covered.  Restart is a crash followed by
 Make on the persisted state.
 */
module RaftCluster {
  import opened RaftNode

  datatype Message =
    | RequestVote(vote: VoteArgs)
    | VoteAnswer(from: nat, voteOf: VoteArgs, answer: VoteReply)
    | AppendEntries(to: nat, append: AppendArgs)
    | AppendAnswer(follower: nat, appendOf: AppendArgs, reply: AppendReply)

  /** An ApplyMsg put on the apply channel of `server`. */
  datatype Delivery = Delivery(server: nat, index: int, command: Command)

  datatype Cluster = Cluster(nodes: seq<Node>, net: set<Message>, delivered: set<Delivery>)

  datatype Label =
    | Timeout(s: nat)
    | OnRequestVote(s: nat, m: Message)
    | OnVoteAnswer(s: nat, m: Message)
    | Elected(s: nat)
    | Start(s: nat, command: Command)
    | SendAppend(s: nat, to: nat)
    | OnAppendEntries(s: nat, m: Message)
    | OnAppendAnswer(s: nat, m: Message)
    | Advance(s: nat)
    | Apply(s: nat)
    | Crash(s: nat)

  function Init(n: nat): Cluster {
    Cluster(seq(n, _ => Boot(n)), {}, {})
  }

  /** The peers whose granted votes for s, in the current term of s, have been sent. */
  function Granted(c: Cluster, s: nat): set<nat>
    requires s < |c.nodes|
  {
    set m | m in c.net && IsGrantFor(c, s, m) :: m.from
  }

  predicate IsGrantFor(c: Cluster, s: nat, m: Message)
    requires s < |c.nodes|
  {
    m.VoteAnswer? && m.from != s && m.from < |c.nodes| && m.answer.granted
    && m.voteOf.candidate == s && m.voteOf.term == c.nodes[s].term
  }

  function Put(c: Cluster, s: nat, n: Node): Cluster
    requires s < |c.nodes|
  {
    c.(nodes := c.nodes[s := n])
  }

  function Send(c: Cluster, m: Message): Cluster {
    c.(net := c.net + {m})
  }

  /** Conditions under which the source runs the critical section. */
  predicate Enabled(c: Cluster, l: Label) {
    l.s < |c.nodes| && var n := c.nodes[l.s];
    match l
    case Timeout(s) => n.role != Leader
    case OnRequestVote(s, m) => m in c.net && m.RequestVote? && m.vote.candidate != s
    case OnVoteAnswer(s, m) => m in c.net && m.VoteAnswer? && m.voteOf.candidate == s
    case Elected(s) => n.role == Candidate && |Granted(c, s)| + 1 >= Majority(|c.nodes|)
    case Start(s, command) => n.role == Leader
    case SendAppend(s, to) => n.role == Leader && to < |c.nodes| && to != s
    case OnAppendEntries(s, m) => m in c.net && m.AppendEntries? && m.to == s
    case OnAppendAnswer(s, m) => m in c.net && m.AppendAnswer? && m.appendOf.leader == s
    case Advance(s) => true
    case Apply(s) => n.lastApplied < n.commitIndex
    case Crash(s) => true
  }

  /** No slice access of the critical section is out of range. */
  predicate NoPanic(c: Cluster, l: Label)
    requires l.s < |c.nodes|
  {
    var n := c.nodes[l.s];
    match l
    case Elected(s) => s < |n.matchIndex|
    case Start(s, command) => s < |n.matchIndex|
    case SendAppend(s, to) => CanSend(n, to)
    case OnAppendEntries(s, m) => m.AppendEntries? && WellFormed(m.append)
    case OnAppendAnswer(s, m) =>
      m.AppendAnswer? && CanHandleReply(n, m.follower, m.appendOf, m.reply)
    case Advance(s) => -1 <= n.commitIndex
    case Apply(s) => CanDeliver(n)
    case _ => true
  }

  function Next(c: Cluster, l: Label): Cluster
    requires Enabled(c, l) && NoPanic(c, l)
  {
    var s := l.s;
    var n := c.nodes[s];
    match l
    case Timeout(_) =>
      var (n', args) := BeginElection(n, s);
      Send(Put(c, s, n'), RequestVote(args))
    case OnRequestVote(_, m) =>
      var (n', answer) := HandleRequestVote(n, m.vote);
      Send(Put(c, s, n'), VoteAnswer(s, m.vote, answer))
    case OnVoteAnswer(_, m) => Put(c, s, HandleHigherTerm(n, m.answer.term))
    case Elected(_) => Put(c, s, BecomeLeader(n, s))
    case Start(_, command) => Put(c, s, AppendCommand(n, s, command))
    case SendAppend(_, to) => Send(c, AppendEntries(to, MissingEntries(n, s, to)))
    case OnAppendEntries(_, m) =>
      var (n', reply) := HandleAppendEntries(n, m.append);
      Send(Put(c, s, n'), AppendAnswer(s, m.append, reply))
    case OnAppendAnswer(_, m) =>
      Put(c, s, HandleAppendReply(n, m.follower, m.appendOf, m.reply))
    case Advance(_) => Put(c, s, AdvanceCommit(n))
    case Apply(_) =>
      var (n', command) := Deliver(n);
      var c' := Put(c, s, n');
      c'.(delivered := c.delivered + {Delivery(s, n'.lastApplied, command)})
    case Crash(_) => Put(c, s, Restart(n, |c.nodes|))
  }

  /** A run of the code: consecutive states, each step taken with the guards of the source. */
  ghost predicate IsRun(n: nat, states: seq<Cluster>, labels: seq<Label>) {
    && |states| == |labels| + 1
    && states[0] == Init(n)
    && forall i :: 0 <= i < |labels| ==> IsStep(states[i], labels[i], states[i + 1])
  }

  predicate IsStep(c: Cluster, l: Label, c': Cluster) {
    Enabled(c, l) && NoPanic(c, l) && c' == Next(c, l)
  }

  /** The intended commit rule: only a leader advances its commit index by counting. */
  predicate LeaderOnly(c: Cluster, l: Label) {
    l.Advance? && l.s < |c.nodes| ==> c.nodes[l.s].role == Leader
  }

  predicate LeaderCommits(states: seq<Cluster>, labels: seq<Label>)
    requires |states| == |labels| + 1
  {
    forall i :: 0 <= i < |labels| ==> LeaderOnly(states[i], labels[i])
  }
}
