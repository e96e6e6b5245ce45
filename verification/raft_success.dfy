/**
 What a positive answer to AppendEntries tells the leader, which takes it to mean
 that the follower now holds every entry of the request.
 */
module RaftSuccess {
  import opened RaftNode
  import opened RaftServer

  /** The log has, entry by entry, the terms of the request. */
  ghost predicate HoldsAll(log: Log, args: AppendArgs)
    requires WellFormed(args)
  {
    && args.prevLogIndex + 1 + |args.entries| <= |log|
    && forall k :: 0 <= k < |args.entries| ==> HoldsAt(log, args, k)
  }

  predicate HoldsAt(log: Log, args: AppendArgs, k: nat)
    requires WellFormed(args) && k < |args.entries|
  {
    var i := args.prevLogIndex + 1 + k;
    i < |log| && log[i].term == args.entries[k].term
  }

  lemma {:induction false} MergeHolds(log: Log, entries: seq<LogEntry>, first: nat, k: nat)
    requires first <= |log| && Consecutive(entries, first) && k < |entries|
    ensures var merged := Merge(log, entries, first);
            first + |entries| <= |merged| && merged[first + k].term == entries[k].term
    decreases |entries|
  {
    if HasTermAt(log, first, entries[0].term) {
      if |entries| == 1 {
        assert entries[1..] == [];
      } else if k > 0 {
        MergeHolds(log, entries[1..], first + 1, k - 1);
      } else {
        MergeHolds(log, entries[1..], first + 1, 0);
        MergeKeeps(log, entries[1..], first + 1, first);
      }
    }
  }

  lemma {:induction false} MergeKeeps(log: Log, entries: seq<LogEntry>, first: nat, k: nat)
    requires k < first <= |log| && Consecutive(entries, first)
    ensures var merged := Merge(log, entries, first); k < |merged| && merged[k] == log[k]
    decreases |entries|
  {
    if entries != [] && HasTermAt(log, first, entries[0].term) {
      MergeKeeps(log, entries[1..], first + 1, k);
    }
  }

  /** The request a leader with this log sends to a follower whose next index is `next`. */
  function RequestFor(leader: Log, next: int, term: int): AppendArgs
    requires 0 <= next <= |leader|
  {
    AppendArgs(term, 0, next - 1, TermAt(leader, next - 1), leader[next..], -1)
  }

  /** A follower whose log up to `last`, being committed, is the leader's as far as that reaches. */
  ghost predicate SharesCommitted(n: Node, leader: Log, last: int) {
    last < |n.log| && forall k :: 0 <= k <= last && k < |leader| ==> n.log[k].term == leader[k].term
  }

  /** Whenever the follower's positive answer counts with the leader, the follower holds the entries. */
  ghost predicate Truthful(n: Node, last: int, args: AppendArgs)
    requires WellFormed(args)
  {
    var (n', reply) := AppendOn(n, last, args);
    reply.success && reply.term == args.term ==> HoldsAll(n'.log, args)
  }

  /** The shortcut: a request that starts in the compacted prefix is told where the prefix ends, and changes no log. */
  lemma ShortcutTellsEnd(n: Node, last: int, args: AppendArgs)
    requires WellFormed(args) && args.prevLogIndex < last
    ensures var (n', reply) := AppendOn(n, last, args);
            && reply.success && reply.skipForwardTo == last + 1 && reply.term == n'.term == Max(n.term, args.term)
            && n'.log == n.log && n'.commitIndex == n.commitIndex
  {
  }

  /** Without the shortcut for compacted prefixes a positive answer is always true. */
  lemma AppendedIsHeld(n: Node, last: int, args: AppendArgs)
    requires WellFormed(args) && args.prevLogIndex >= last
    ensures Truthful(n, last, args)
  {
    hide Merge, LogInfoAt;
    if HasTermAt(n.log, args.prevLogIndex, args.prevLogTerm) {
      MergedHolds(n.log, args);
    }
  }

  lemma MergedHolds(log: Log, args: AppendArgs)
    requires WellFormed(args) && args.prevLogIndex < |log|
    ensures HoldsAll(Merge(log, args.entries, args.prevLogIndex + 1), args)
  {
    hide Merge, Consecutive;
    NothingToMerge(log, args.prevLogIndex + 1);
    if args.entries != [] {
      var merged := Merge(log, args.entries, args.prevLogIndex + 1);
      MergeHolds(log, args.entries, args.prevLogIndex + 1, 0);
      forall k: nat | k < |args.entries| ensures HoldsAt(merged, args, k) {
        MergeHolds(log, args.entries, args.prevLogIndex + 1, k);
      }
    }
  }

  /**
   With it, the answer can be relied on exactly when the request does not both
   start before the compacted prefix ends and reach beyond it.
   */
  lemma SuccessTruthfulIff(leader: Log, next: int, term: int, last: int)
    requires Consecutive(leader, 0) && 0 <= next <= |leader| && last >= -1
    ensures (forall n: Node :: SharesCommitted(n, leader, last) ==> Truthful(n, last, RequestFor(leader, next, term)))
            <==> (next - 1 >= last || |leader| - 1 <= last)
  {
    var args := RequestFor(leader, next, term);
    if next - 1 >= last {
      forall n: Node ensures Truthful(n, last, args) {
        AppendedIsHeld(n, last, args);
      }
    } else if |leader| - 1 > last {
      var n := Node(term, -1, leader[..last + 1], Follower, last, last, [], [], Disk(term, -1, leader[..last + 1]));
      assert !HoldsAll(n.log, args);
      assert SharesCommitted(n, leader, last) && !Truthful(n, last, args);
    }
  }

  // -------------------------------------------------------- install snapshot

  /** The follower's log has what the snapshot stands for, if it has the snapshot's last entry. */
  ghost predicate MatchesPrefix(log: Log, prefix: Log) {
    HasTermAt(log, |prefix| - 1, LastTerm(prefix)) ==> prefix <= log
  }

  /**
   A snapshot that is neither of an earlier term nor outdated leaves the follower with
   all it stands for and with all the follower had committed.  The entries after it
   stay if and only if the follower has its last entry, and the commit index is the
   later of the two.  Any other snapshot changes nothing but the term.
   */
  lemma InstallKeepsCommitted(n: Node, known: int, args: SnapshotArgs, prefix: Log)
    requires args.lastIncludedIndex == |prefix| - 1 && args.lastIncludedTerm == LastTerm(prefix) && -1 <= n.commitIndex < |n.log|
    requires MatchesPrefix(n.log, prefix) && forall k :: 0 <= k <= n.commitIndex && k < |prefix| ==> n.log[k] == prefix[k]
    ensures var n' := InstallOn(n, known, args, prefix);
            if args.term < n.term || |prefix| - 1 <= known then n'.log == n.log && n'.commitIndex == n.commitIndex
            else && prefix <= n'.log && n'.commitIndex == Max(n.commitIndex, |prefix| - 1) < |n'.log|
                 && n'.log[..n.commitIndex + 1] == n.log[..n.commitIndex + 1]
                 && n'.log == if HasTermAt(n.log, |prefix| - 1, LastTerm(prefix)) then n.log else prefix
  {
    var last := |prefix| - 1;
    if 0 <= last <= n.commitIndex {
      assert n.log[last] == prefix[last];
    }
  }
}
