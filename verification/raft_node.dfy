/**
 The state of one Raft server and the effect of each of its critical sections,
 written as functions on values.  The functions follow src/raft/raft.go for a
 server that has not compacted its log; `Raft` in raft_server.dfy is the
 imperative server, with compaction, that is proved to compute them.

 Indices are the internal ones of the source: the first entry has index 0 and
 -1 stands for "before the first entry", which has term 0.
 */
module RaftNode {

  type Command = string

  datatype LogEntry = LogEntry(index: int, term: int, command: Command)

  type Log = seq<LogEntry>

  datatype Role = Follower | Candidate | Leader

  /** What `persist` saves and `readPersist` restores. */
  datatype Disk = Disk(term: int, votedFor: int, log: Log)

  datatype Node = Node(
    term: int,
    votedFor: int,
    log: Log,
    role: Role,
    commitIndex: int,
    lastApplied: int,
    nextIndex: seq<int>,
    matchIndex: seq<int>,
    disk: Disk)

  datatype VoteArgs = VoteArgs(term: int, candidate: nat, lastLogIndex: int, lastLogTerm: int)

  datatype VoteReply = VoteReply(term: int, granted: bool)

  datatype AppendArgs = AppendArgs(
    term: int,
    leader: nat,
    prevLogIndex: int,
    prevLogTerm: int,
    entries: seq<LogEntry>,
    leaderCommit: int)

  datatype LogInfo = LogInfo(term: int, index: int, len: int)

  datatype AppendReply = AppendReply(term: int, success: bool, skipForwardTo: int, info: LogInfo)

  // ---------------------------------------------------------------- logs

  function Min(a: int, b: int): int {
    if a < b then a else b
  }

  function Max(a: int, b: int): int {
    if a > b then a else b
  }

  function TermAt(log: Log, i: int): int
    requires -1 <= i < |log|
  {
    if i == -1 then 0 else log[i].term
  }

  function LastTerm(log: Log): int {
    TermAt(log, |log| - 1)
  }

  /** entryHasTerm on an uncompacted log. */
  predicate HasTermAt(log: Log, i: int, term: int)
    requires -1 <= i
  {
    i < |log| && TermAt(log, i) == term
  }

  /** The entries of an AppendEntries request carry consecutive indices. */
  predicate Consecutive(entries: seq<LogEntry>, first: int) {
    forall k :: 0 <= k < |entries| ==> entries[k].index == first + k
  }

  /** appendEntriesLocal: keep the log up to the first entry that conflicts. */
  function Merge(log: Log, entries: seq<LogEntry>, first: nat): Log
    requires first <= |log| && Consecutive(entries, first)
    decreases |entries|
  {
    if entries == [] then log
    else if HasTermAt(log, first, entries[0].term) then Merge(log, entries[1..], first + 1)
    else log[..first] + entries
  }

  function FirstWithSameTerm(log: Log, i: int): (j: int)
    requires -1 <= i < |log|
    ensures -1 <= j <= i && (i >= 0 ==> j >= 0)
    ensures forall k :: j <= k <= i && k >= 0 ==> log[k].term == log[i].term
    ensures j >= 1 ==> log[j - 1].term != log[i].term
    decreases i + 1
  {
    if i >= 1 && log[i].term == log[i - 1].term then FirstWithSameTerm(log, i - 1) else i
  }

  function LogInfoAt(log: Log, expected: int): LogInfo
    requires -1 <= expected
  {
    if expected < |log|
    then LogInfo(TermAt(log, expected), FirstWithSameTerm(log, expected), |log|)
    else LogInfo(0, -1, |log|)
  }

  /** lastEntry: where the scan for `term`, downwards from i, ends; -1 when it finds nothing. */
  function LastEntry(log: Log, i: int, term: int): (j: int)
    requires -1 <= i < |log|
    ensures -1 <= j <= i
    ensures j >= 0 ==> log[j].term == term && forall k :: j < k <= i ==> log[k].term > term
    decreases i + 1
  {
    if i >= 0 && log[i].term > term then LastEntry(log, i - 1, term)
    else if i >= 0 && log[i].term == term then i
    else -1
  }

  predicate UpToDate(log: Log, lastTerm: int, lastIndex: int) {
    lastTerm > LastTerm(log) || (lastTerm == LastTerm(log) && lastIndex >= |log| - 1)
  }

  // ------------------------------------------------- quorums and counting

  function Majority(n: nat): nat {
    n / 2 + 1
  }

  function NReplicated(matchIndex: seq<int>, i: int): nat {
    if matchIndex == [] then 0
    else NReplicated(matchIndex[..|matchIndex| - 1], i)
         + (if matchIndex[|matchIndex| - 1] >= i then 1 else 0)
  }

  /** The scan of largestOnMajority from index `from`. */
  function LargestOnMajority(matchIndex: seq<int>, last: int, from: int): (l: int)
    ensures l <= last
    ensures from <= last ==> from - 1 <= l
    ensures forall i :: from <= i <= l ==> NReplicated(matchIndex, i) >= Majority(|matchIndex|)
    ensures from - 1 <= l < last ==> NReplicated(matchIndex, l + 1) < Majority(|matchIndex|)
    decreases last - from
  {
    if from > last then last
    else if NReplicated(matchIndex, from) < Majority(|matchIndex|) then from - 1
    else LargestOnMajority(matchIndex, last, from + 1)
  }

  // ---------------------------------------------------- critical sections

  function Persist(n: Node): Node {
    n.(disk := Disk(n.term, n.votedFor, n.log))
  }

  predicate Synced(n: Node) {
    n.disk == Disk(n.term, n.votedFor, n.log)
  }

  /** Make on an empty persister. */
  function Boot(size: nat): Node {
    Restart(Node(0, -1, [], Follower, -1, -1, [], [], Disk(0, -1, [])), size)
  }

  /** Make on the persister of an earlier incarnation: both index slices are zero filled. */
  function Restart(n: Node, size: nat): Node {
    Node(n.disk.term, n.disk.votedFor, n.disk.log, Follower, -1, -1,
         seq(size, _ => 0), seq(size, _ => 0), n.disk)
  }

  function HandleHigherTerm(n: Node, term: int): Node {
    if term > n.term then Persist(n.(term := term, votedFor := -1, role := Follower)) else n
  }

  predicate Grants(n: Node, args: VoteArgs) {
    && args.term >= n.term
    && (n.votedFor == -1 || n.votedFor == args.candidate)
    && UpToDate(n.log, args.lastLogTerm, args.lastLogIndex)
  }

  function HandleRequestVote(n: Node, args: VoteArgs): (Node, VoteReply) {
    var n1 := HandleHigherTerm(n, args.term);
    if Grants(n1, args)
    then (Persist(n1.(votedFor := args.candidate)), VoteReply(n1.term, true))
    else (n1, VoteReply(n1.term, false))
  }

  function BeginElection(n: Node, me: nat): (Node, VoteArgs) {
    var n1 := Persist(n.(term := n.term + 1, votedFor := me));
    (n1.(role := Candidate), VoteArgs(n1.term, me, |n.log| - 1, LastTerm(n.log)))
  }

  function BecomeLeader(n: Node, me: nat): Node
    requires me < |n.matchIndex|
  {
    n.(role := Leader,
       nextIndex := seq(|n.nextIndex|, _ => |n.log|),
       matchIndex := seq(|n.matchIndex|, _ => -1)[me := |n.log| - 1])
  }

  /** Start, when the server leads. */
  function AppendCommand(n: Node, me: nat, command: Command): Node
    requires me < |n.matchIndex|
  {
    Persist(n.(log := n.log + [LogEntry(|n.log|, n.term, command)],
               matchIndex := n.matchIndex[me := |n.log|]))
  }

  predicate CanSend(n: Node, to: nat) {
    to < |n.nextIndex| && 0 <= n.nextIndex[to] <= |n.log|
  }

  function MissingEntries(n: Node, me: nat, to: nat): AppendArgs
    requires CanSend(n, to)
  {
    var prev := n.nextIndex[to] - 1;
    AppendArgs(n.term, me, prev, TermAt(n.log, prev), n.log[n.nextIndex[to]..], n.commitIndex)
  }

  predicate WellFormed(args: AppendArgs) {
    args.prevLogIndex >= -1 && Consecutive(args.entries, args.prevLogIndex + 1)
  }

  /** What both the request and the request's term do before the log is looked at. */
  function StepDown(n: Node, term: int): Node {
    var n1 := HandleHigherTerm(n, term);
    if n1.role == Candidate && n1.term == term then n1.(role := Follower) else n1
  }

  predicate Accepts(n: Node, args: AppendArgs)
    requires WellFormed(args)
  {
    args.term >= n.term && HasTermAt(n.log, args.prevLogIndex, args.prevLogTerm)
  }

  /** The log and commit index after an accepted AppendEntries. */
  function Accept(n: Node, args: AppendArgs): Node
    requires WellFormed(args) && args.prevLogIndex < |n.log|
  {
    var merged := n.(log := Merge(n.log, args.entries, args.prevLogIndex + 1));
    var saved := if args.entries == [] then merged else Persist(merged);
    if args.leaderCommit > n.commitIndex
    then saved.(commitIndex := Min(args.leaderCommit, |saved.log| - 1))
    else saved
  }

  function HandleAppendEntries(n: Node, args: AppendArgs): (Node, AppendReply)
    requires WellFormed(args)
  {
    var n1 := StepDown(n, args.term);
    var matches := HasTermAt(n1.log, args.prevLogIndex, args.prevLogTerm);
    var info := if matches then LogInfo(0, 0, 0) else LogInfoAt(n1.log, args.prevLogIndex);
    if Accepts(n1, args)
    then (Accept(n1, args), AppendReply(n1.term, true, 0, info))
    else (n1, AppendReply(n1.term, false, 0, info))
  }

  /** The leader's new nextIndex for a follower that rejected `args`. */
  function Backup(log: Log, args: AppendArgs, info: LogInfo): int
    requires -1 <= args.prevLogIndex < |log|
  {
    if args.prevLogIndex >= info.len then info.len
    else
      var i := LastEntry(log, args.prevLogIndex, info.term);
      if i >= 0 then i else info.index
  }

  predicate HearsReply(n: Node, args: AppendArgs, reply: AppendReply) {
    var n1 := HandleHigherTerm(n, reply.term);
    n1.role == Leader && n1.term == args.term
  }

  predicate CanHandleReply(n: Node, from: nat, args: AppendArgs, reply: AppendReply) {
    HearsReply(n, args, reply) ==>
      from < |n.nextIndex| == |n.matchIndex| && -1 <= args.prevLogIndex < |n.log|
  }

  function HandleAppendReply(n: Node, from: nat, args: AppendArgs, reply: AppendReply): Node
    requires CanHandleReply(n, from, args, reply)
  {
    var n1 := HandleHigherTerm(n, reply.term);
    if !HearsReply(n, args, reply) then n1
    else if reply.success then
      var next := args.prevLogIndex + 1 + |args.entries|;
      n1.(nextIndex := n1.nextIndex[from := next], matchIndex := n1.matchIndex[from := next - 1])
    else
      n1.(nextIndex := n1.nextIndex[from := Backup(n1.log, args, reply.info)])
  }

  /** The guard of advanceCommitIndex, which also admits servers that do not lead. */
  predicate MayAdvance(n: Node) {
    n.role == Leader || n.commitIndex != |n.log| - 1
  }

  function AdvanceCommit(n: Node): Node
    requires -1 <= n.commitIndex
  {
    var l := LargestOnMajority(n.matchIndex, |n.log| - 1, n.commitIndex + 1);
    if MayAdvance(n) && l != -1 && l > n.commitIndex && n.log[l].term == n.term
    then n.(commitIndex := l)
    else n
  }

  predicate CanDeliver(n: Node) {
    -1 <= n.lastApplied < n.commitIndex && n.lastApplied + 1 < |n.log|
  }

  /** One turn of apply: the node after it and the command handed to the service. */
  function Deliver(n: Node): (Node, Command)
    requires CanDeliver(n)
  {
    (n.(lastApplied := n.lastApplied + 1), n.log[n.lastApplied + 1].command)
  }
}
