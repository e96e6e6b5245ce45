/**
 Fast backup: what one rejection tells the leader.
 */
module RaftBackup {
  import opened RaftNode

  ghost predicate Sorted(log: Log) {
    forall i, j :: 0 <= i <= j < |log| ==> log[i].term <= log[j].term
  }

  /** The follower could accept a request whose previous entry is the leader's entry i. */
  predicate Matches(leader: Log, follower: Log, i: int)
    requires -1 <= i < |leader|
  {
    HasTermAt(follower, i, TermAt(leader, i))
  }

  /** The largest index up to i at which follower and leader match; -1 always does. */
  function MatchPoint(leader: Log, follower: Log, i: int): (m: int)
    requires -1 <= i < |leader|
    ensures -1 <= m <= i && Matches(leader, follower, m)
    ensures forall j :: m < j <= i ==> !Matches(leader, follower, j)
    decreases i + 1
  {
    if i == -1 || Matches(leader, follower, i) then i else MatchPoint(leader, follower, i - 1)
  }

  /** lastEntry finds the term if any entry up to i has it, on logs with non-decreasing terms. */
  lemma {:induction false} LastEntryFinds(log: Log, i: int, term: int)
    requires Sorted(log) && -1 <= i < |log|
    ensures LastEntry(log, i, term) == -1 ==> forall k :: 0 <= k <= i ==> log[k].term != term
    decreases i + 1
  {
    if i >= 0 && log[i].term > term {
      LastEntryFinds(log, i - 1, term);
    }
  }

  /**
   A rejection lowers nextIndex to somewhere between 0 and the index it was about,
   and skips only indices at which the logs do not match.
   */
  lemma BackupSkipsOnlyMismatches(leader: Log, follower: Log, args: AppendArgs)
    requires Sorted(leader) && Sorted(follower)
    requires -1 <= args.prevLogIndex < |leader| && args.prevLogTerm == TermAt(leader, args.prevLogIndex)
    requires !HasTermAt(follower, args.prevLogIndex, args.prevLogTerm)
    ensures var next := Backup(leader, args, LogInfoAt(follower, args.prevLogIndex));
            && 0 <= next <= args.prevLogIndex
            && forall j :: next < j <= args.prevLogIndex ==> !Matches(leader, follower, j)
  {
    var prev, info := args.prevLogIndex, LogInfoAt(follower, args.prevLogIndex);
    if prev < info.len {
      LastEntryFinds(leader, prev, info.term);
    }
  }

  /** Where decrementing nextIndex by one after each rejection, as in the Raft paper, ends. */
  function SlowBackup(leader: Log, follower: Log, next: int): int
    requires 0 <= next <= |leader|
  {
    MatchPoint(leader, follower, next - 1) + 1
  }

  function Probe(leader: Log, next: int): AppendArgs
    requires 0 <= next <= |leader|
  {
    AppendArgs(0, 0, next - 1, TermAt(leader, next - 1), leader[next..], -1)
  }

  /** Where fast backup ends when the follower's log stays as it is. */
  function FastBackup(leader: Log, follower: Log, next: int): int
    requires Sorted(leader) && Sorted(follower) && 0 <= next <= |leader|
    decreases next
  {
    if Matches(leader, follower, next - 1) then next
    else
      BackupSkipsOnlyMismatches(leader, follower, Probe(leader, next));
      FastBackup(leader, follower, Backup(leader, Probe(leader, next), LogInfoAt(follower, next - 1)))
  }

  /**
   Fast backup ends at an index the follower accepts, at most one entry before
   the one the slow way finds.  `Matches` is closed downwards by Log Matching.
   */
  lemma {:induction false} FastRefinesSlow(leader: Log, follower: Log, next: int)
    requires Sorted(leader) && Sorted(follower) && 0 <= next <= |leader|
    requires forall i, j :: -1 <= i <= j < |leader| && Matches(leader, follower, j) ==> Matches(leader, follower, i)
    ensures var fast, slow := FastBackup(leader, follower, next), SlowBackup(leader, follower, next);
            && 0 <= fast <= next && Matches(leader, follower, fast - 1)
            && slow - 1 <= fast <= slow
    decreases next
  {
    if !Matches(leader, follower, next - 1) {
      var args := Probe(leader, next);
      BackupSkipsOnlyMismatches(leader, follower, args);
      FastRefinesSlow(leader, follower, Backup(leader, args, LogInfoAt(follower, next - 1)));
    }
  }
}
