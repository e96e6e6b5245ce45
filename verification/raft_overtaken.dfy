/**
 Compaction can overtake the apply loop.  A snapshot that InstallSnapshot brings
 makes the loop go back to the snapshot's index, and the service may then compact
 everything it had executed before.
 */
module RaftOvertaken {
  import opened RaftNode
  import opened RaftServer

  /** A log of the given length, all of term 1. */
  function Entries(n: nat): (log: Log)
    ensures |log| == n && Consecutive(log, 0)
    ensures forall i :: 0 <= i < n ==> log[i].term == 1
  {
    seq(n, i => LogEntry(i, 1, "x"))
  }

  /** A leader of term 1 with the same log announces that it has committed up to `commit`. */
  function Heartbeat(n: nat, commit: int): AppendArgs
    requires n > 0
  {
    AppendArgs(1, 1, n - 1, 1, [], commit)
  }

  method Commit(rf: Raft, n: nat, commit: int)
    requires rf.Valid() && rf.full == Entries(n) && rf.currentTerm == 1 && rf.role == Follower && n > 0
    requires rf.lastIncludedIndex < n - 1 && rf.commitIndex < commit < n
    modifies rf
    ensures rf.Valid() && rf.full == Entries(n) && rf.currentTerm == 1 && rf.role == Follower
    ensures rf.Dropped() == old(rf.Dropped()) && rf.lastApplied == old(rf.lastApplied) && rf.commitIndex == commit
  {
    var reply := rf.OnAppendEntries(Heartbeat(n, commit));
  }

  /** Applies commands up to index k. */
  method ApplyUpTo(rf: Raft, n: nat, k: int)
    requires rf.Valid() && rf.full == Entries(n) && rf.currentTerm == 1 && rf.role == Follower
    requires !rf.snapshotInstalled && rf.lastIncludedIndex <= rf.lastApplied <= k <= rf.commitIndex < n
    modifies rf
    ensures rf.Valid() && rf.full == Entries(n) && rf.currentTerm == 1 && rf.role == Follower
    ensures rf.Dropped() == old(rf.Dropped()) && rf.lastApplied == k && rf.commitIndex == old(rf.commitIndex)
  {
    while rf.lastApplied < k
      invariant rf.Valid() && rf.full == Entries(n) && rf.currentTerm == 1 && rf.role == Follower
      invariant rf.Dropped() == old(rf.Dropped()) && rf.commitIndex == old(rf.commitIndex)
      invariant rf.lastIncludedIndex <= rf.lastApplied <= k
    {
      var r := rf.ApplyNext();
    }
  }

  /**
   The service has executed everything up to some index, a snapshot of a shorter
   prefix is installed, the loop goes back to it, and the service compacts what it
   had executed.  If that leaves more than one entry unapplied, the next turn of the
   loop is out of range; if it leaves one, the loop hands over a message without a
   command.
   */
  method SnapshotOvertakesApply(executed: nat, installed: nat) returns (r: ApplyOutcome)
    requires installed < executed
    ensures installed + 1 < executed ==> r.OutOfRange?
    ensures installed + 1 == executed ==> r == Sent(NoCommandMsg(executed + 1))
  {
    var n := executed + 2;
    var rf := new Raft(0, 3, Saved(1, -1, Entries(n), -1, 0, []), Entries(n));
    Commit(rf, n, executed);
    ApplyUpTo(rf, n, executed);
    var term := rf.OnInstallSnapshot(SnapshotArgs(1, 1, installed, 1, [0]), Entries(installed + 1));
    Commit(rf, n, executed + 1);
    r := rf.ApplyNext();
    var ok := rf.TakeSnapshot(executed + 1, [1]);
    r := rf.ApplyNext();
  }
}
