/**
 The Raft server as the source has it: fields updated in place, a log that may
 have been compacted, and a persister.  `full` is the log the server would have
 without compaction, and every method is proved against the function of
 raft_node.dfy for that uncompacted server.
 */
module RaftServer {
  import opened RaftNode

  type Snapshot = seq<int>

  /** The byte string Persister holds, decoded. */
  datatype Saved = Saved(term: int, votedFor: int, log: Log,
                         lastIncludedIndex: int, lastIncludedTerm: int, snapshot: Snapshot)

  datatype SnapshotArgs = SnapshotArgs(
    term: int, leader: nat, lastIncludedIndex: int, lastIncludedTerm: int, snapshot: Snapshot)

  /** A command message may carry no command: NoCommandMsg is one whose Command is nil. */
  datatype ApplyMsg =
    | CommandMsg(command: Command, commandIndex: int)
    | NoCommandMsg(noCommandIndex: int)
    | SnapshotMsg(snapshot: Snapshot, snapshotIndex: int, snapshotTerm: int)

  /** What a turn of the apply loop ends in: a message, or an index out of range. */
  datatype ApplyOutcome = Sent(msg: ApplyMsg) | OutOfRange

  /** How a log looks after everything up to and including `last` has been dropped. */
  ghost predicate Compacts(log: Log, last: int, lastTerm: int, full: Log) {
    && -1 <= last < |full|
    && log == full[last + 1..]
    && lastTerm == TermAt(full, last)
    && Consecutive(full, 0)
  }

  /** lastEntry stops at the first retained entry. */
  function LastEntryFrom(log: Log, base: int, i: int, term: int): int
    requires -1 <= i < |log|
  {
    var j := LastEntry(log, i, term);
    if j >= base then j else -1
  }

  function BackupFrom(log: Log, base: int, args: AppendArgs, info: LogInfo): int
    requires -1 <= args.prevLogIndex < |log|
  {
    if args.prevLogIndex >= info.len then info.len
    else
      var i := LastEntryFrom(log, base, args.prevLogIndex, info.term);
      if i >= 0 then i else info.index
  }

  /** firstWithSameTerm stops at the first retained entry. */
  function LogInfoFrom(log: Log, base: int, expected: int): LogInfo
    requires -1 <= expected
  {
    var info := LogInfoAt(log, expected);
    if expected < |log| then info.(index := Max(info.index, Min(expected, base))) else info
  }

  /**
   AppendEntries on a server that has compacted everything up to `last`: a
   request that starts before that is answered with success, and nothing is appended.
   */
  function AppendOn(n: Node, last: int, args: AppendArgs): (Node, AppendReply)
    requires WellFormed(args)
  {
    if args.prevLogIndex < last then
      var n1 := StepDown(n, args.term);
      (n1, AppendReply(n1.term, true, last + 1, LogInfo(0, 0, 0)))
    else
      var (n', reply) := HandleAppendEntries(n, args);
      if HasTermAt(n.log, args.prevLogIndex, args.prevLogTerm) then (n', reply)
      else (n', reply.(info := LogInfoFrom(n.log, last + 1, args.prevLogIndex)))
  }

  /** Installing the snapshot of a log that began with `prefix`. */
  function InstallOn(n: Node, known: int, args: SnapshotArgs, prefix: Log): Node {
    var n1 := HandleHigherTerm(n, args.term);
    if args.term < n1.term || args.lastIncludedIndex <= known then n1
    else
      var log := if args.lastIncludedIndex >= -1 && HasTermAt(n1.log, args.lastIncludedIndex, args.lastIncludedTerm)
                 then n1.log else prefix;
      Persist(n1.(log := log, commitIndex := Max(n1.commitIndex, args.lastIncludedIndex)))
  }

  /** Make restarts the uncompacted server, with everything compacted counted as committed and applied. */
  function Recovered(saved: Saved, full: Log, size: nat): Node {
    var before := Node(0, -1, [], Follower, -1, -1, [], [], Disk(saved.term, saved.votedFor, full));
    Restart(before, size).(commitIndex := saved.lastIncludedIndex, lastApplied := saved.lastIncludedIndex)
  }

  function CountGranted(replies: seq<VoteReply>): nat {
    if replies == [] then 0
    else CountGranted(replies[..|replies| - 1]) + (if replies[|replies| - 1].granted then 1 else 0)
  }

  /** Everything from `at` on is replaced. */
  function Spliced(log: Log, at: nat, rest: seq<LogEntry>): Log
    requires at <= |log|
  {
    log[..at] + rest
  }

  class Raft {
    const me: nat
    const nPeers: nat
    var currentTerm: int
    var votedFor: int
    var log: Log
    var lastIncludedIndex: int
    var lastIncludedTerm: int
    var baseIndex: int
    var role: Role
    var commitIndex: int
    var lastApplied: int
    var nextIndex: seq<int>
    var matchIndex: seq<int>
    var snapshot: Snapshot
    var snapshotInstalled: bool
    var persister: Saved
    ghost var full: Log
    ghost var diskFull: Log

    ghost predicate Shape()
      reads this
    {
      && Compacts(log, lastIncludedIndex, lastIncludedTerm, full)
      && 0 <= baseIndex == lastIncludedIndex + 1 <= |full|
      && me < nPeers == |nextIndex| == |matchIndex|
      && lastIncludedIndex <= commitIndex
    }

    /** Between critical sections the persister holds exactly what has to survive a crash. */
    ghost predicate Valid()
      reads this
    {
      && Shape()
      && diskFull == full
      && persister == Saved(currentTerm, votedFor, log, lastIncludedIndex, lastIncludedTerm, snapshot)
    }

    /** The server without compaction. */
    ghost function View(): Node
      reads this
    {
      Node(currentTerm, votedFor, full, role, commitIndex, lastApplied, nextIndex, matchIndex,
           Disk(persister.term, persister.votedFor, diskFull))
    }

    /** What the apply loop needs next has not been compacted away. */
    ghost predicate CaughtUp()
      reads this
    {
      snapshotInstalled || lastIncludedIndex <= lastApplied
    }

    /** What compaction has dropped. */
    ghost function Dropped(): (int, Snapshot, bool)
      reads this
    {
      (baseIndex, snapshot, snapshotInstalled)
    }

    // ----------------------------------------------------------- restarting

    constructor (me: nat, nPeers: nat, saved: Saved, ghost savedFull: Log)
      requires me < nPeers
      requires Compacts(saved.log, saved.lastIncludedIndex, saved.lastIncludedTerm, savedFull)
      ensures Valid() && CaughtUp() && this.me == me && this.nPeers == nPeers && persister == saved
      ensures View() == Recovered(saved, savedFull, nPeers)
      ensures Dropped() == (saved.lastIncludedIndex + 1, saved.snapshot, saved.snapshot != [])
    {
      this.me := me;
      this.nPeers := nPeers;
      currentTerm, votedFor, log := saved.term, saved.votedFor, saved.log;
      lastIncludedIndex, lastIncludedTerm := saved.lastIncludedIndex, saved.lastIncludedTerm;
      snapshot := saved.snapshot;
      snapshotInstalled := |saved.snapshot| != 0;
      role := Follower;
      lastApplied, commitIndex := saved.lastIncludedIndex, saved.lastIncludedIndex;
      baseIndex := saved.lastIncludedIndex + 1;
      nextIndex, matchIndex := seq(nPeers, _ => 0), seq(nPeers, _ => 0);
      persister := saved;
      full, diskFull := savedFull, savedFull;
    }

    method PersistState()
      requires Shape()
      modifies this`persister, this`diskFull
      ensures Valid() && View() == Persist(old(View()))
    {
      persister := Saved(currentTerm, votedFor, log, lastIncludedIndex, lastIncludedTerm, snapshot);
      diskFull := full;
    }

    // ------------------------------------------------------- log accessors

    function LastLogIndex(): (i: int)
      reads this
      requires Shape()
      ensures i == |full| - 1 && -1 <= lastIncludedIndex <= i
    {
      baseIndex + |log| - 1
    }

    /** logEntry: below the first retained entry only the last dropped one is still known. */
    function EntryAt(i: int): (e: LogEntry)
      reads this
      requires Shape() && lastIncludedIndex <= i < |full|
      ensures e.term == TermAt(full, i)
      ensures i > lastIncludedIndex ==> e == full[i]
      ensures e.index == i
    {
      if i == lastIncludedIndex then LogEntry(i, lastIncludedTerm, "") else log[i - baseIndex]
    }

    function LastLogTerm(): (t: int)
      reads this
      requires Shape()
      ensures t == LastTerm(full)
    {
      EntryAt(LastLogIndex()).term
    }

    predicate EntryHasTerm(i: int, term: int)
      reads this
      requires Shape() && lastIncludedIndex <= i
      ensures EntryHasTerm(i, term) <==> HasTermAt(full, i, term)
    {
      if i == lastIncludedIndex then term == lastIncludedTerm
      else if i > LastLogIndex() then false
      else EntryAt(i).term == term
    }

    method ScanFirstWithSameTerm(i: int) returns (j: int)
      requires Shape() && lastIncludedIndex <= i < |full|
      ensures j == Max(FirstWithSameTerm(full, i), Min(i, baseIndex))
    {
      hide Compacts;
      j := i;
      while j >= baseIndex + 1 && EntryAt(j).term == EntryAt(j - 1).term
        invariant Min(i, baseIndex) <= j <= i
        invariant FirstWithSameTerm(full, j) == FirstWithSameTerm(full, i)
        decreases j
      {
        j := j - 1;
      }
    }

    method DescribeLog(expected: int) returns (info: LogInfo)
      requires Shape() && lastIncludedIndex <= expected
      ensures info == LogInfoFrom(full, baseIndex, expected)
    {
      info := LogInfo(0, -1, LastLogIndex() + 1);
      if expected <= LastLogIndex() {
        var first := ScanFirstWithSameTerm(expected);
        info := info.(term := EntryAt(expected).term, index := first);
      }
    }

    method ScanLastEntry(i: int, term: int) returns (found: bool, j: int)
      requires Shape() && -1 <= i < |full|
      ensures j == LastEntryFrom(full, baseIndex, i, term) && found == (j >= 0)
    {
      hide Compacts;
      j := i;
      while j >= baseIndex && EntryAt(j).term > term
        invariant -1 <= j <= i
        invariant LastEntry(full, j, term) == LastEntry(full, i, term)
        decreases j
      {
        j := j - 1;
      }
      if j >= baseIndex && EntryAt(j).term == term {
        return true, j;
      }
      return false, -1;
    }

    // ------------------------------------------------------------ elections

    method RaiseTerm(newTerm: int)
      requires Valid()
      modifies this
      ensures Valid() && View() == HandleHigherTerm(old(View()), newTerm) && Dropped() == old(Dropped())
    {
      hide Compacts;
      if newTerm > currentTerm {
        currentTerm := newTerm;
        votedFor := -1;
        role := Follower;
        PersistState();
      }
    }

    method OnRequestVote(args: VoteArgs) returns (reply: VoteReply)
      requires Valid()
      modifies this
      ensures Valid() && (View(), reply) == HandleRequestVote(old(View()), args) && Dropped() == old(Dropped())
    {
      hide Compacts, LastTerm, LastLogTerm, LastLogIndex;
      RaiseTerm(args.term);
      var granted := args.term >= currentTerm && (votedFor == -1 || votedFor == args.candidate)
                     && (args.lastLogTerm > LastLogTerm()
                         || (args.lastLogTerm == LastLogTerm() && args.lastLogIndex >= LastLogIndex()));
      if granted {
        votedFor := args.candidate;
        PersistState();
      }
      reply := VoteReply(currentTerm, granted);
    }

    method RunElection() returns (args: VoteArgs)
      requires Valid()
      modifies this
      ensures Valid() && (View(), args) == BeginElection(old(View()), me) && Dropped() == old(Dropped())
    {
      hide Compacts, LastTerm, LastLogTerm, LastLogIndex;
      currentTerm := currentTerm + 1;
      votedFor := me;
      PersistState();
      args := VoteArgs(currentTerm, me, LastLogIndex(), LastLogTerm());
      role := Candidate;
    }

    /** Counts answers in the order they arrive and stops as soon as there are enough. */
    method GatherVotes(replies: seq<VoteReply>) returns (elected: bool)
      ensures elected <==> 1 + CountGranted(replies) >= Majority(nPeers)
    {
      var count, finished := 1, 0;
      while count < Majority(nPeers) && finished < |replies|
        invariant finished <= |replies|
        invariant count == 1 + CountGranted(replies[..finished])
      {
        if replies[finished].granted {
          count := count + 1;
        }
        assert replies[..finished + 1][..finished] == replies[..finished];
        finished := finished + 1;
      }
      assert replies[..|replies|] == replies;
      GrantedGrow(replies, finished);
      return count >= Majority(nPeers);
    }

    method SetAll(s: seq<int>, v: int) returns (r: seq<int>)
      ensures r == seq(|s|, _ => v)
    {
      r := s;
      for i := 0 to |s|
        invariant |r| == |s| && forall k :: 0 <= k < i ==> r[k] == v
      {
        r := r[i := v];
      }
    }

    method TakeLead()
      requires Valid()
      modifies this
      ensures Valid() && View() == BecomeLeader(old(View()), me) && Dropped() == old(Dropped())
    {
      hide Compacts, LastLogIndex;
      role := Leader;
      nextIndex := SetAll(nextIndex, LastLogIndex() + 1);
      matchIndex := SetAll(matchIndex, -1);
      matchIndex := matchIndex[me := LastLogIndex()];
    }

    // ---------------------------------------------------------- replication

    method StartCommand(command: Command) returns (index: int, term: int, isLeader: bool)
      requires Valid()
      modifies this
      ensures Valid() && Dropped() == old(Dropped())
      ensures isLeader <==> old(role) == Leader
      ensures View() == if isLeader then AppendCommand(old(View()), me, command) else old(View())
      ensures term == currentTerm && index == if isLeader then |full| else 0
    {
      index := -1;
      if role == Leader {
        var next := LastLogIndex() + 1;
        log := log + [LogEntry(next, currentTerm, command)];
        full := full + [LogEntry(next, currentTerm, command)];
        matchIndex := matchIndex[me := next];
        PersistState();
        index := LastLogIndex();
      }
      return index + 1, currentTerm, role == Leader;
    }

    /** The request for a follower whose next entry has not been compacted away. */
    method MissingEntriesFor(server: nat) returns (args: AppendArgs)
      requires Valid() && CanSend(View(), server) && lastIncludedIndex <= nextIndex[server] - 1
      ensures args == MissingEntries(View(), me, server)
    {
      var prev := nextIndex[server] - 1;
      var missing := [];
      if LastLogIndex() >= prev + 1 {
        missing := log[prev + 1 - baseIndex..];
      }
      args := AppendArgs(currentTerm, me, prev, EntryAt(prev).term, missing, commitIndex);
    }

    method AppendEntriesLocal(first: int, entries: seq<LogEntry>)
      requires Valid() && baseIndex <= first <= |full| && Consecutive(entries, first)
      modifies this`log, this`full, this`persister, this`diskFull
      ensures Valid() && Dropped() == old(Dropped())
      ensures var n := old(View()).(log := Merge(old(full), entries, first));
              View() == if entries == [] then n else Persist(n)
    {
      hide Compacts, Merge, EntryHasTerm, Consecutive, Spliced;
      if |entries| == 0 {
        NothingToMerge(full, first);
        return;
      }
      var i := FirstConflict(first, entries);
      if i < |entries| {
        RestConsecutive(entries, first, i);
        Splice(entries[i..], first + i);
      }
      PersistState();
    }

    /** The loop of appendEntriesLocal: the first entry the log does not have, with its term. */
    method FirstConflict(first: int, entries: seq<LogEntry>) returns (i: int)
      requires Shape() && baseIndex <= first <= |full| && Consecutive(entries, first)
      ensures 0 <= i <= |entries| && (i < |entries| ==> first + i <= |full|)
      ensures Merge(full, entries, first) == if i == |entries| then full else Spliced(full, first + i, entries[i..])
    {
      hide Compacts;
      i := 0;
      while i < |entries|
        invariant 0 <= i <= |entries| && first + i <= |full|
        invariant Merge(full, entries, first) == Merge(full, entries[i..], first + i)
      {
        var e := entries[i];
        assert entries[i..][0] == e && entries[i..][1..] == entries[i + 1..];
        if !EntryHasTerm(e.index, e.term) {
          return;
        }
        i := i + 1;
      }
    }

    method Splice(rest: seq<LogEntry>, at: int)
      requires Shape() && baseIndex <= at <= |full| && Consecutive(rest, at)
      modifies this`log, this`full
      ensures Shape() && View() == old(View()).(log := Spliced(old(full), at, rest))
    {
      log := log[..at - baseIndex] + rest;
      full := full[..at] + rest;
      assert full[baseIndex..] == log;
    }

    method OnAppendEntries(args: AppendArgs) returns (reply: AppendReply)
      requires Valid() && WellFormed(args)
      modifies this
      ensures Valid() && Dropped() == old(Dropped())
      ensures (View(), reply) == AppendOn(old(View()), old(lastIncludedIndex), args)
      ensures old(baseIndex) == 0 ==> (View(), reply) == HandleAppendEntries(old(View()), args)
    {
      hide Compacts, Merge, LogInfoAt, LogInfoFrom, EntryHasTerm;
      RaiseTerm(args.term);
      if role == Candidate && currentTerm == args.term {
        role := Follower;
      }
      ghost var n1 := View();
      reply := AppendReply(currentTerm, false, 0, LogInfo(0, 0, 0));
      var outdated := args.term < currentTerm;
      if args.prevLogIndex < lastIncludedIndex {
        reply := reply.(skipForwardTo := baseIndex, success := true);
        return;
      }
      var matches := EntryHasTerm(args.prevLogIndex, args.prevLogTerm);
      if !matches {
        WithoutCompaction(full, args.prevLogIndex);
        var info := DescribeLog(args.prevLogIndex);
        reply := reply.(info := info);
      }
      reply := reply.(success := !outdated && matches);
      if reply.success {
        AppendEntriesLocal(args.prevLogIndex + 1, args.entries);
        if args.leaderCommit > commitIndex {
          commitIndex := Min(args.leaderCommit, LastLogIndex());
        }
      }
    }

    method OnAppendReply(server: nat, args: AppendArgs, reply: AppendReply)
      requires Valid() && CanHandleReply(View(), server, args, reply)
      modifies this
      ensures Valid() && Dropped() == old(Dropped())
      ensures var n := old(View());
              var n' := HandleAppendReply(n, server, args, reply);
              View() == if HearsReply(n, args, reply) && !reply.success
                        then n'.(nextIndex := n.nextIndex[server := BackupFrom(n.log, baseIndex, args, reply.info)])
                        else n'
      ensures old(baseIndex) == 0 ==> View() == HandleAppendReply(old(View()), server, args, reply)
    {
      hide Compacts, LastEntry;
      RaiseTerm(reply.term);
      if role != Leader || currentTerm != args.term {
        return;
      }
      if reply.success {
        nextIndex := nextIndex[server := args.prevLogIndex + 1 + |args.entries|];
        matchIndex := matchIndex[server := nextIndex[server] - 1];
      } else if args.prevLogIndex >= reply.info.len {
        nextIndex := nextIndex[server := reply.info.len];
      } else {
        var hasTerm, i := ScanLastEntry(args.prevLogIndex, reply.info.term);
        nextIndex := nextIndex[server := if hasTerm then i else reply.info.index];
      }
    }

    // --------------------------------------------------- commit and delivery

    method CountReplicated(index: int) returns (count: nat)
      requires Shape()
      ensures count == NReplicated(matchIndex, index)
    {
      count := 0;
      for i := 0 to |matchIndex|
        invariant count == NReplicated(matchIndex[..i], index)
      {
        assert matchIndex[..i + 1][..i] == matchIndex[..i];
        if matchIndex[i] >= index {
          count := count + 1;
        }
      }
      assert matchIndex[..|matchIndex|] == matchIndex;
    }

    method ScanLargestOnMajority() returns (l: int)
      requires Shape()
      ensures l == LargestOnMajority(matchIndex, |full| - 1, commitIndex + 1)
    {
      var i := commitIndex + 1;
      while i <= LastLogIndex()
        invariant LargestOnMajority(matchIndex, |full| - 1, i) == LargestOnMajority(matchIndex, |full| - 1, commitIndex + 1)
      {
        var count := CountReplicated(i);
        if count < Majority(nPeers) {
          return i - 1;
        }
        i := i + 1;
      }
      return LastLogIndex();
    }

    /** One turn of advanceCommitIndex. */
    method AdvanceCommitIndex()
      requires Valid()
      modifies this`commitIndex
      ensures Valid() && View() == AdvanceCommit(old(View())) && Dropped() == old(Dropped())
    {
      hide Compacts, LargestOnMajority, NReplicated, EntryAt, LastLogIndex;
      if role == Leader || commitIndex != LastLogIndex() {
        var l := ScanLargestOnMajority();
        if l != lastIncludedIndex && l > commitIndex && EntryAt(l).term == currentTerm {
          commitIndex := l;
        }
      }
    }

    /**
     One turn of the apply loop.  It hands over the pending snapshot or the next
     command exactly when compaction has not overtaken lastApplied.
     */
    method ApplyNext() returns (r: ApplyOutcome)
      requires Valid() && lastApplied < commitIndex < |full|
      modifies this
      ensures Valid() && Dropped() == (old(baseIndex), old(snapshot), false)
      ensures r.OutOfRange? || r.msg.NoCommandMsg? <==> !old(CaughtUp())
      ensures old(CaughtUp()) ==> CaughtUp()
      ensures old(snapshotInstalled) ==>
                && View() == old(View()).(lastApplied := lastIncludedIndex)
                && r == Sent(SnapshotMsg(snapshot, lastIncludedIndex + 1, lastIncludedTerm))
      ensures !old(snapshotInstalled) ==> View() == old(View()).(lastApplied := old(lastApplied) + 1)
      ensures !old(snapshotInstalled) && lastIncludedIndex <= old(lastApplied) ==>
                var (n', command) := Deliver(old(View()));
                View() == n' && r == Sent(CommandMsg(command, lastApplied + 1))
      ensures r == Sent(NoCommandMsg(lastApplied + 1)) <==>
                !old(snapshotInstalled) && lastIncludedIndex == old(lastApplied) + 1
      ensures r.OutOfRange? <==> !old(snapshotInstalled) && lastIncludedIndex > old(lastApplied) + 1
    {
      hide Compacts, EntryAt;
      if snapshotInstalled {
        lastApplied := lastIncludedIndex;
        snapshotInstalled := false;
        return Sent(SnapshotMsg(snapshot, lastIncludedIndex + 1, lastIncludedTerm));
      }
      lastApplied := lastApplied + 1;
      if lastApplied < lastIncludedIndex {
        return OutOfRange;
      } else if lastApplied == lastIncludedIndex {
        return Sent(NoCommandMsg(lastApplied + 1));
      }
      return Sent(CommandMsg(EntryAt(lastApplied).command, lastApplied + 1));
    }

    // ----------------------------------------------------------- compaction

    /** Dropping a prefix of the log leaves the uncompacted log as it was. */
    method Trim(index: int)
      requires Shape() && lastIncludedIndex < index < |full| && index <= commitIndex
      modifies this`log, this`lastIncludedIndex, this`lastIncludedTerm, this`baseIndex
      ensures Shape() && View() == old(View()) && baseIndex == index + 1
    {
      var lastIncluded := EntryAt(index);
      if index >= LastLogIndex() {
        log := [];
      } else {
        log := log[index - baseIndex + 1..];
      }
      lastIncludedIndex := lastIncluded.index;
      lastIncludedTerm := lastIncluded.term;
      baseIndex := lastIncludedIndex + 1;
    }

    /** The service has a snapshot of everything it was given up to its index; false is log.Fatalf. */
    method TakeSnapshot(index: int, newSnapshot: Snapshot) returns (ok: bool)
      requires Valid() && commitIndex < |full|
      modifies this
      ensures Valid() && View() == old(View())
      ensures ok <==> index - 1 <= commitIndex
      ensures old(CaughtUp()) ==> (CaughtUp() <==> snapshotInstalled || !ok || index - 1 <= lastApplied)
      ensures Dropped() == if ok && index > old(baseIndex) then (index, newSnapshot, old(snapshotInstalled)) else old(Dropped())
    {
      hide Compacts;
      var i := index - 1;
      if i <= lastIncludedIndex {
        return true;
      }
      if i > commitIndex {
        return false;
      }
      Trim(i);
      snapshot := newSnapshot;
      PersistState();
      return true;
    }

    /** `prefix` is the part of the leader's log that the snapshot stands for. */
    method OnInstallSnapshot(args: SnapshotArgs, ghost prefix: Log) returns (term: int)
      requires Valid() && Consecutive(prefix, 0)
      requires args.lastIncludedIndex == |prefix| - 1 && args.lastIncludedTerm == LastTerm(prefix)
      modifies this
      ensures Valid() && term == currentTerm
      ensures View() == InstallOn(old(View()), old(lastIncludedIndex), args, prefix)
      ensures Dropped() == if args.term < currentTerm || |prefix| <= old(baseIndex) then old(Dropped())
                           else (|prefix|, args.snapshot, true)
      ensures old(CaughtUp()) ==> CaughtUp()
    {
      hide Compacts, EntryHasTerm;
      RaiseTerm(args.term);
      term := currentTerm;
      if args.term < currentTerm || args.lastIncludedIndex <= lastIncludedIndex {
        return;
      }
      snapshot := args.snapshot;
      var matches := EntryHasTerm(args.lastIncludedIndex, args.lastIncludedTerm);
      commitIndex := Max(commitIndex, args.lastIncludedIndex);
      snapshotInstalled := true;
      if matches {
        Trim(args.lastIncludedIndex);
      } else {
        ReplaceLog(args.lastIncludedIndex, args.lastIncludedTerm, prefix);
      }
      PersistState();
    }

    method ReplaceLog(last: int, lastTerm: int, ghost prefix: Log)
      requires Consecutive(prefix, 0) && last == |prefix| - 1 && lastTerm == LastTerm(prefix)
      requires me < nPeers == |nextIndex| == |matchIndex| && last <= commitIndex
      modifies this`log, this`lastIncludedIndex, this`lastIncludedTerm, this`baseIndex, this`full
      ensures Shape() && View() == old(View()).(log := prefix) && baseIndex == |prefix|
    {
      log := [];
      lastIncludedIndex := last;
      lastIncludedTerm := lastTerm;
      baseIndex := lastIncludedIndex + 1;
      full := prefix;
    }
  }

  lemma RestConsecutive(entries: seq<LogEntry>, first: int, i: nat)
    requires Consecutive(entries, first) && i <= |entries|
    ensures Consecutive(entries[i..], first + i)
  {
  }

  lemma NothingToMerge(log: Log, first: nat)
    requires first <= |log|
    ensures Merge(log, [], first) == log
  {
  }

  lemma WithoutCompaction(log: Log, expected: int)
    requires -1 <= expected
    ensures LogInfoFrom(log, 0, expected) == LogInfoAt(log, expected)
  {
  }

  lemma {:induction false} GrantedGrow(replies: seq<VoteReply>, k: nat)
    requires k <= |replies|
    ensures CountGranted(replies[..k]) <= CountGranted(replies)
    decreases |replies| - k
  {
    if k < |replies| {
      assert replies[..k + 1][..k] == replies[..k];
      GrantedGrow(replies, k + 1);
    } else {
      assert replies[..k] == replies;
    }
  }
}
