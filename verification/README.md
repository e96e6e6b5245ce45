# Dafny model of mitdist

A model, with proofs, of four parts of the repository: the Raft implementation,
the linearizability checker, the replicated key/value service and MapReduce.
`dafny verify dfyconfig.toml` checks the whole project.

## Raft

`raft_node.dfy` gives every critical section of `src/raft/raft.go` as a function
on one server's state, and `raft_cluster.dfy` puts n servers and the set of all
messages ever sent into one state machine.  Loss, delay, reordering and
duplication of messages, and crashes that reload the persisted fields, are all
steps of it.  A proof-only history (`raft_invariant.dfy`) remembers elections,
votes, acknowledgements and each leader's log.  `raft_steps.dfy` shows that every
step keeps the invariant, `raft_safety.dfy` and `raft_commit.dfy` derive
completeness of leaders and safety of commits, and `raft_runs.dfy` states the
results for whole runs.  `raft_progress.dfy` states the other half, what the handlers
achieve: exactly which votes are granted and which requests accepted, what leader and
follower know, hold and have committed after a round trip of AppendEntries, whether it
was accepted or rejected, and that a leader commits everything of its term that is on
a majority.

`raft_server.dfy` is the imperative server, with log compaction.  Each method is
proved to compute the function of `raft_node.dfy` on the log the server would have
had without compaction; where compaction changes the answer, the exact
difference is in the contract.

What the code does differently from its documentation:

- The comment at `src/raft/raft.go:696-698` says that leaders advance the commit
  index.  The guard at line 702 also lets other servers do it, and `Make` fills
  matchIndex with zeros (lines 893-894), so a restarted server can commit index 0
  alone.  `RaftCommitRule.CodedRuleSafeIff` proves that, with the guard as coded,
  all runs of an n-server cluster deliver consistently if and only if n is at
  most 2.  With leader-only commits the property holds for every n
  (`RaftRuns.StateMachineSafety`).  Election Safety, Log Matching, Leader
  Append-Only, truth of matchIndex and Leader Completeness hold for the guard as
  coded.
- `src/raft/raft.go:331-335` answers success to a request that starts inside the
  compacted prefix, without appending.  `RaftSuccess.SuccessTruthfulIff` proves
  when the leader may rely on such an answer: exactly when the request does not
  both start before the end of the compacted prefix and reach beyond it.
- Compaction can overtake the apply loop.  An installed snapshot of a shorter prefix
  sends lastApplied back (`src/raft/raft.go:747-750`), and the service may then
  compact all it had executed, since `Snapshot` compares its index with commitIndex
  only (lines 209-219).  The next turn of the loop indexes the log out of range, or
  hands over a message without a command if exactly one entry is missing.
  `RaftServer.Raft.ApplyNext` states when each happens: if and only if no snapshot
  is pending and lastIncludedIndex is beyond lastApplied.  `Raft.TakeSnapshot` states
  that it is the call that leads there, and `RaftOvertaken.SnapshotOvertakesApply`
  is the sequence of calls.

## Linearizability checker

`porcupine_list.dfy` is the doubly linked list with its in-place unlinking and
relinking, `porcupine_bitset.dfy` the bitset over an array of 64-bit words,
`porcupine_search.dfy` the invariant of the backtracking search over values, and
`porcupine_checker.dfy` the imperative search with its memo cache.  It terminates
and decides exactly the definition of Herlihy and Wing
(`porcupine_model.dfy`).  `porcupine_kv.dfy` proves the locality theorem behind
the per-key partition and says what the key/value model accepts without mentioning
its step function: every get returns the last put before it and the appends since.
`porcupine_verdict.dfy` puts everything together: a
verdict other than Unknown is the truth about the whole history.  With no
operations there is no part to wait for, and the loop of `checkParallel`
(`src/porcupine/checker.go:292-310`) ends by its timeout or never; the contracts say
so.

## Key/value service

`kv_server.dfy` has duplicate suppression over a log with repeats,
`kv_rendezvous.dfy` the hand-shake between the apply loop and the waiting request
handlers, `kv_replicas.dfy` the service on top of Raft, and `kv_history.dfy` the
service as its clients see it: the calls of every run, with crashes and lost or
repeated messages, form a linearizable history, as long as no reply was overtaken by
a newer request of the same client.  That is always so for a client that waits for
its replies (`KvHistory.SequentialRepliesOwn`).  A clerk may be used for two requests
at once, and then the property is false: the older request can be taken for a
duplicate of the newer one, never be executed, and still be answered, with the result
of the newer one (`src/kvraft/server.go:148`).  `KvConcurrentClient` has such a run
without any linearizable completion, and `KvHistory.ReplyIsOwnIff` says of each reply
when it is the request's own.

The rendezvous takes every critical section under `kv.mu` as one step, except that
each look at the copy of Raft's term, which `refreshRaftTerm` stores and broadcasts
without `kv.mu`, is a step of its own.  What follows from that:

- A handler never sees an apply message past its own index, but it can go on with an
  earlier one.  `src/kvraft/server.go:127` finds the term of a new leader not
  refreshed yet, the refresh comes, and line 135 finds it.  A handler that goes on has
  its own message if and only if the wait loop ended by the test of the index
  (`KvRendezvous.TakesOwnMessageIff`); `TakesEarlierMessage` is a run where it does
  not.  Nothing else goes wrong: a handler whose term stays the refreshed one leaves
  with its own message (`AppliedIsAnswered`).  If nothing has been applied yet, the type assertion at line 142 panics; a
  handler can still come to that if and only if nothing has been applied and Raft's
  term, as last refreshed, is below the handler's own (`PanicsIff`, `PanicHappens`).
  Clients are not misled by an earlier message, because the handler compares
  the operation it finds with its own (`KvHistory.HandlerAnswers`).
- The broadcast of a new term can be missed, because it comes without `kv.mu`.  A
  handler of an earlier term is still waiting afterwards if and only if the broadcast
  found it between its test and its wait, and no delivery that somebody waits for has
  come since (`MissesNewTermIff`, `SleepsThroughNewTerm`).  A delivery is never missed
  (`NobodyWaitsInVain`).
- The process aborts (lines 121-124) exactly when a handler of an earlier term is
  still registered for the index that `Start` returns, which happens when another
  leader has shortened the log in between.

`Operation` also answers a repeated request with OK even when the stored result was an
error (lines 109-115), which differs from the first reply exactly when that was a Get
of a key that nothing had written (`KvServer.RetryErrorDiffersIff`).

## MapReduce

`mr_worker.dfy` proves that the distributed pipeline and the sequential program
produce the same lines, for a reduce function that does not depend on the order of
its values (neither program sorts stably).  `mr_coordinator.dfy` has the
coordinator and the interleavings of its calls, timers and reports.  `done` is stored
under two different locks (`src/mr/coordinator.go:83-89`), so a late report can
overwrite true with the false it had computed before (`DoneIsLost`);
`MapReduceCoordinator.DoneIff` says at every moment what `done` tells.  In a job
without tasks nobody reports, and `done` stays false.  What counts as finished is tied
to the reports of the workers (`FinishedIffReported`), and `mr_progress.dfy` shows that
every run can go on until every task has been reported.

## Model

| member | source | states |
|---|---|---|
| RaftRuns.ElectionSafety | src/raft/raft.go:776-844 | at most one server ever leads in a term, over a whole run with crashes |
| RaftRuns.LogMatching | src/raft/raft.go:316-351 | logs of any two servers at any two moments with the same term at an index are equal up to that index |
| RaftRuns.LogShape | src/raft/raft.go:627-653 | each entry carries its own position, terms are positive, never decrease along a log and never exceed the server's term |
| RaftRuns.LeaderAppendOnly | src/raft/raft.go:613-653 | while it leads a term a server only extends its log |
| RaftRuns.MatchIndexWasTrue | src/raft/raft.go:546-557 | a leader's matchIndex of s was true: s, in the leader's term, held the leader's log up to it |
| RaftRuns.MatchIndexStaysTrue | src/raft/raft.go:546-557 | and s still holds it at every later moment at which it is in that term |
| RaftRuns.LeadersAreComplete | src/raft/raft.go:717-736 | an entry of a leader's own term that it counts on a majority is, with all before it, in the log of every leader of a later term |
| RaftRuns.RequestsCoverCommit | src/raft/raft.go:494-518 | no AppendEntries ever in flight announces a commit index beyond the entries it covers |
| RaftRuns.CommittedEntriesAgree | src/raft/raft.go:341-349 | what any two servers consider committed at any two moments is in their logs and equal |
| RaftRuns.StateMachineSafety | src/raft/raft.go:739-773 | no index is ever delivered with two different commands |
| RaftRuns.DeliveriesStay | src/raft/raft.go:739-773 | the record of deliveries only grows, so consistency at the end is consistency throughout |
| RaftRuns.SafeRunsNeverPanic | src/raft/raft.go:117-157 | no critical section of a reachable state indexes a slice out of range |
| RaftRuns.FastBackupInRuns | src/raft/raft.go:546-589 | between any two logs of a run, repeated rejections end at an index the follower accepts, at most one entry before where one-step backup ends |
| RaftRuns.FedFollowsLog | src/raft/raft.go:739-773 | since its last restart a service was given exactly its server's log up to lastApplied, in order |
| RaftRuns.ServicesAgree | src/raft/raft.go:739-773 | of what two services were given, at any two moments, one is a prefix of the other |
| RaftRuns.StartGuarantees | src/raft/raft.go:613-636 | of two calls of Start on a server the later is not in an earlier term, has a higher index if the term is the same, never gets index 1 again, and gets an index not delivered yet |
| RaftRuns.LoggedWasStarted | src/raft/raft.go:613-653 | every command in any log was put there by an earlier call of Start |
| RaftRuns.LongestFed | src/raft/raft.go:739-773 | all that was ever handed to any service is a prefix of what one of them was given |
| RaftProgress.RequestWasSent | src/raft/raft.go:776-804 | every request for votes was sent by a server that timed out and describes the log it had then |
| RaftProgress.VoteGrantedIff | src/raft/raft.go:386-407 | a vote is granted if and only if the request's term is not over, the voter has not voted for another in it, and the candidate's log was at least as up to date as the voter's |
| RaftProgress.MajorityElects | src/raft/raft.go:815-844 | a candidate with the votes of more than half the servers, its own included, can become leader |
| RaftProgress.NewLeader | src/raft/raft.go:806-812 | a new leader takes everybody to have its whole log and counts on nobody but itself |
| RaftProgress.RequestsSpreadTerms | src/raft/raft.go:316-392 | who handles a request is afterwards in the later of the two terms, and the answer carries that term |
| RaftProgress.AnswersSpreadTerms | src/raft/raft.go:592-599 | who gets an answer is afterwards in the later term, and no leader or candidate if it was behind |
| RaftProgress.RequestAcceptedIff | src/raft/raft.go:316-341 | a request is accepted if and only if the follower's term is not later and it has all that the leader's log had before the entries sent |
| RaftProgress.AcceptedCommit | src/raft/raft.go:341-349 | on any server an accepted request moves the commit index to the announced one or to the end of the log, whichever comes first, if the announced one is beyond its own; otherwise nothing moves |
| RaftProgress.SuccessCommits | src/raft/raft.go:341-349 | after every success in a safe run the commit index is the later of its own and the announced one |
| RaftProgress.FollowerCatchesUp | src/raft/raft.go:316-351 | after a success the follower has all the leader had when it sent, and has committed what the leader had |
| RaftProgress.RoundTrip | src/raft/raft.go:546-557 | after the answer the leader's matchIndex and nextIndex are the end of the log it had when it sent |
| RaftProgress.RejectionRoundTrip | src/raft/raft.go:558-579 | after a rejection nextIndex is lower, has skipped no match with the follower's log, and has passed the follower's whole conflicting term if the leader lacks it |
| RaftProgress.LeaderMatchesItself | src/raft/raft.go:627-636 | a leader's own matchIndex is always the end of its log |
| RaftProgress.AdvanceCommitsMajority | src/raft/raft.go:699-726 | for any leader with non-decreasing terms: every entry of its term on a majority is committed, and the index moves only to such an entry |
| RaftProgress.LeaderCommitsMajority | src/raft/raft.go:699-736 | the same in every run |
| RaftProgress.CommitIndexMoves | src/raft/raft.go:341-349 | only a crash takes a commit index back, and only counting and accepting move it on |
| RaftSteps.QuorumsMeet | src/raft/raft.go:677-679 | any two majorities share a server |
| RaftSteps.TermIsNew | src/raft/raft.go:776-844 | a candidate with a majority of votes is the first winner of its term |
| RaftSteps.MergeIsLeaderPrefix | src/raft/raft.go:641-653 | appending entries cut from a leader's log leaves the follower's log as it was, if it already had them, or makes it the leader's prefix |
| RaftSteps.KeptOnAccept | src/raft/raft.go:316-351 | what a server once held of a term's log survives an accepted request, or an intermediate leader lacked it |
| RaftSteps.NeverPanics | src/raft/raft.go:475-578 | every enabled step but delivery is free of out-of-range accesses in a state that satisfies the invariant |
| RaftSteps.StepKeepsInv | src/raft/raft.go:316-909 | every step of every server keeps the cluster invariant |
| RaftSafety.UpToDateHas | src/raft/raft.go:405-407 | a log at least as up to date as one that has a decided prefix has that prefix |
| RaftSafety.ChosenInLaterLogs | src/raft/raft.go:394-407 | every later leader began its term with all entries decided in earlier terms |
| RaftSafety.LeaderCompleteness | src/raft/raft.go:394-407 | the same for the whole log of a later leader |
| RaftCommit.NReplicatedCounts | src/raft/raft.go:728-736 | nReplicated is the number of servers whose matchIndex reaches the index |
| RaftCommit.MajorityChooses | src/raft/raft.go:699-736 | an entry of the leader's term on a majority decides the leader's log up to it |
| RaftCommit.AcceptKeepsCommitted | src/raft/raft.go:341-349 | an accepted request never changes what the follower had committed |
| RaftCommit.FollowerCommits | src/raft/raft.go:341-349 | the follower's new commit index is on entries its leader had committed |
| RaftCommit.StepKeepsCommits | src/raft/raft.go:699-773 | every step keeps all commit indices, announcements and deliveries on decided entries |
| RaftCommit.ApplyNeverPanics | src/raft/raft.go:739-773 | the apply loop never reads past the end of the log |
| RaftCommit.ChosenAgree | src/raft/raft.go:699-736 | two decided prefixes never disagree |
| RaftCommitRule.RestartedCommits | src/raft/raft.go:873-909 | a restarted server with one entry of its own term commits it by itself |
| RaftCommitRule.CodedRuleFails | src/raft/raft.go:699-712 | with three or more servers, any two different commands can be delivered at the same index |
| RaftCommitRule.CodedRuleSafeIff | src/raft/raft.go:699-712 | with the guard as coded all runs deliver consistently if and only if there are at most two servers |
| RaftBackup.MatchPoint | src/raft/raft.go:372-383 | the largest index up to i at which the follower accepts |
| RaftBackup.BackupSkipsOnlyMismatches | src/raft/raft.go:546-589 | a rejection lowers nextIndex to between 0 and the rejected index and skips only indices that do not match |
| RaftBackup.FastRefinesSlow | src/raft/raft.go:546-589 | fast backup ends where the follower accepts, at most one entry before one-step backup |
| RaftProgress.RejectionPassesTerm | src/raft/raft.go:355-371 | one rejection leads to the end of a short log, to the leader's last entry of the conflicting term, or to the start of the follower's run of that term if the leader lacks it |
| RaftSuccess.AppendedIsHeld | src/raft/raft.go:336-344 | after a success that is not the compaction shortcut the follower holds all entries of the request |
| RaftSuccess.SuccessTruthfulIff | src/raft/raft.go:331-335 | with the shortcut, for all followers, exactly when the request does not straddle the compacted prefix |
| RaftSuccess.ShortcutTellsEnd | src/raft/raft.go:331-335 | the shortcut tells where the compacted prefix ends and changes neither log nor commit index |
| RaftSuccess.InstallKeepsCommitted | src/raft/raft.go:291-312 | an installed snapshot leaves all it stands for and all that was committed; later entries stay if and only if its last entry is in the log |
| RaftNode.FirstWithSameTerm | src/raft/raft.go:365-369 | the first entry of the run of equal terms that ends at i |
| RaftNode.LastEntry | src/raft/raft.go:582-589 | where the downward scan finds the term, everything passed having a higher one |
| RaftNode.LargestOnMajority | src/raft/raft.go:717-725 | everything scanned up to the result is on a majority and the next index is not |
| RaftServer.Raft.constructor | src/raft/raft.go:873-909 | a restart brings back exactly term, vote, log and snapshot from the persister, with zero-filled index slices, and takes what was compacted as committed and applied |
| RaftServer.Raft.PersistState | src/raft/raft.go:170-182 | the persister holds term, vote, log and snapshot |
| RaftServer.Raft.LastLogIndex | src/raft/raft.go:117-119 | the last index of the full log |
| RaftServer.Raft.EntryAt | src/raft/raft.go:126-134 | the entry, or at the compaction boundary the term, of the full log |
| RaftServer.Raft.LastLogTerm | src/raft/raft.go:121-124 | the last term of the full log |
| RaftServer.Raft.EntryHasTerm | src/raft/raft.go:372-383 | agrees with the full log from the compaction boundary on |
| RaftServer.Raft.ScanFirstWithSameTerm | src/raft/raft.go:365-369 | the answer on the full log, clamped at the first retained entry |
| RaftServer.Raft.DescribeLog | src/raft/raft.go:355-362 | logInfo of the full log with that clamped index |
| RaftServer.Raft.ScanLastEntry | src/raft/raft.go:582-589 | the answer on the full log if it is retained, else not found |
| RaftServer.Raft.RaiseTerm | src/raft/raft.go:592-599 | the new server state, persisted before the lock is released |
| RaftServer.Raft.OnRequestVote | src/raft/raft.go:386-407 | state and reply are those of the uncompacted server |
| RaftServer.Raft.RunElection | src/raft/raft.go:776-804 | state and request are those of the uncompacted server |
| RaftServer.Raft.GatherVotes | src/raft/raft.go:815-844 | elected if and only if the granted answers and the own vote reach a majority, although counting stops early |
| RaftServer.Raft.SetAll | src/raft/raft.go:47-51 | every element becomes the value |
| RaftServer.Raft.TakeLead | src/raft/raft.go:806-813 | leader state with fresh nextIndex and matchIndex |
| RaftServer.Raft.StartCommand | src/raft/raft.go:613-636 | a leader appends and persists one entry and returns its 1-based index; others change nothing |
| RaftServer.Raft.MissingEntriesFor | src/raft/raft.go:494-518 | the request of the uncompacted server, with the whole suffix |
| RaftServer.Raft.FirstConflict | src/raft/raft.go:641-653 | finds where the log and the entries part, so that cutting there gives the merged log |
| RaftServer.Raft.AppendEntriesLocal | src/raft/raft.go:641-653 | the merged log, persisted |
| RaftServer.Raft.OnAppendEntries | src/raft/raft.go:316-351 | state and reply of the uncompacted server, except for the shortcut and the clamped log info |
| RaftServer.Raft.OnAppendReply | src/raft/raft.go:546-578 | state of the uncompacted server, except that backup stops at the first retained entry |
| RaftServer.Raft.CountReplicated | src/raft/raft.go:728-736 | the loop counts the servers that reach the index |
| RaftServer.Raft.ScanLargestOnMajority | src/raft/raft.go:717-725 | the loop finds the largest index on a majority |
| RaftServer.Raft.AdvanceCommitIndex | src/raft/raft.go:699-712 | commit index of the uncompacted server |
| RaftServer.Raft.ApplyNext | src/raft/raft.go:739-773 | a pending snapshot first, else the next command in order; out of range, or a message without a command, if and only if compaction has overtaken lastApplied |
| RaftServer.Raft.Trim | src/raft/raft.go:226-240 | compaction leaves the full log unchanged |
| RaftServer.Raft.TakeSnapshot | src/raft/raft.go:205-223 | aborts exactly when the index is not committed; otherwise the full log and all indices are unchanged, the prefix is dropped and the new snapshot stored unless outdated; and whether the apply loop is still in range |
| RaftServer.Raft.OnInstallSnapshot | src/raft/raft.go:291-312 | the log is kept if it has the snapshot's last entry and otherwise becomes the leader's prefix; the snapshot is stored and marked for delivery; stale ones change nothing |
| RaftOvertaken.SnapshotOvertakesApply | src/raft/raft.go:205-240 | calls after which the apply loop is out of range, for every executed and every shorter installed prefix |
| Bitset.BitsDecideWord | src/porcupine/bitset.go:62-72 | a word is determined by its 64 bits |
| Bitset.MembersDecide | src/porcupine/bitset.go:62-72 | equal words if and only if equal sets |
| Bitset.NewBitset | src/porcupine/bitset.go:10-17 | the empty set, with room for all positions |
| Bitset.Clone | src/porcupine/bitset.go:19-23 | a fresh copy with the same words |
| Bitset.Set | src/porcupine/bitset.go:29-33 | adds exactly one position to the set |
| Bitset.Clear | src/porcupine/bitset.go:35-39 | removes exactly one position from the set |
| Bitset.Get | src/porcupine/bitset.go:41-44 | membership |
| Bitset.Equals | src/porcupine/bitset.go:62-72 | set equality |
| Bitset.Hash | src/porcupine/bitset.go:54-60 | depends only on the words, so equal sets hash alike |
| EntryList.Unlink | src/porcupine/checker.go:159-167 | removes one node from the list and leaves in it what is needed to put it back |
| EntryList.Relink | src/porcupine/checker.go:169-177 | puts back the node removed last |
| EntryList.Lift | src/porcupine/checker.go:159-167 | the list without the call and its return |
| EntryList.Unlift | src/porcupine/checker.go:169-177 | undoes the last lift exactly |
| EntryList.InsertBefore | src/porcupine/checker.go:70-81 | the links around the new node, and which links stay |
| EntryList.MakeLinkedEntries | src/porcupine/checker.go:121-138 | the list holds the entries in order, and each call points to its own return |
| Linearizability.FinishIffOrder | src/porcupine/checker.go:179-253 | a search that picks minimal calls can finish if and only if some legal order in real-time order exists |
| Linearizability.EqualStatesFinish | src/porcupine/model.go:40-42 | states the model calls equal have the same future |
| LinearizabilitySearch.CachedChoiceIsDead | src/porcupine/checker.go:145-152 | skipping a cached configuration never discards the only solution |
| LinearizabilitySearch.ReturnIsDead | src/porcupine/checker.go:216-241 | when the scan meets a return, nothing chosen so far can be completed |
| LinearizabilitySearch.Push | src/porcupine/checker.go:191-215 | taking a call keeps the search invariant |
| LinearizabilitySearch.Pop | src/porcupine/checker.go:216-241 | backtracking keeps the search invariant |
| LinearizabilitySearch.Illegal | src/porcupine/checker.go:216-241 | with nothing to backtrack to there is no linearization |
| LinearizabilitySearch.Complete | src/porcupine/checker.go:242-253 | with an empty list the stack is a linearization |
| LinearizabilityChecker.LiftCall | src/porcupine/checker.go:159-167 | the list is the original one without the operations on the stack |
| LinearizabilityChecker.UnliftCall | src/porcupine/checker.go:169-177 | the same after backtracking |
| LinearizabilityChecker.Length | src/porcupine/checker.go:83-90 | the number of nodes |
| LinearizabilityChecker.CacheContains | src/porcupine/checker.go:145-152 | found if and only if an entry with the same set and an equal state is stored under the hash |
| LinearizabilityChecker.PushIsNew | src/porcupine/checker.go:190-215 | a push that passes the cache explores a configuration not explored before |
| LinearizabilityChecker.TryCall | src/porcupine/checker.go:191-215 | one turn at a call keeps the invariant and decreases the termination measure |
| LinearizabilityChecker.Backtrack | src/porcupine/checker.go:216-241 | one turn at a return keeps the invariant and decreases the termination measure |
| LinearizabilityChecker.CheckSingle | src/porcupine/checker.go:179-253 | terminates; true only if the entries are linearizable, and false only if they are not or the search was stopped |
| HistoryEntries.MakeEntries | src/porcupine/checker.go:48-60 | the call and return of each operation once, sorted by time with calls before returns |
| HistoryEntries.OrderKept | src/porcupine/checker.go:39-46 | the sorted entries order a return before a call exactly when the operations do |
| HistoryEntries.PlacedWellFormed | src/porcupine/checker.go:48-60 | sorting puts every call before its own return |
| HistoryEntries.EntriesDecide | src/porcupine/checker.go:48-60 | the entries are linearizable if and only if the history is |
| KvLinearizability.KvModelSound | src/models/kv.go:35-57 | the model's equality fits its step function |
| KvLinearizability.AcceptsByKey | src/models/kv.go:40-54 | a sequence is accepted for the whole map if and only if each key's operations are accepted on their own |
| KvLinearizability.KvAcceptsIff | src/models/kv.go:35-54 | the model accepts an order if and only if every get returns the last put before it followed by the appends since |
| KvLinearizability.MapAcceptsIff | src/models/kv.go:18-54 | the same for the whole map, key by key |
| KvLinearizability.LinearizableIff | src/models/kv.go:17-54 | a history is linearizable if and only if it has an order that respects real time and in which every get returns what was written to its key |
| KvLinearizability.Merge | src/porcupine/model.go:28-31 | orders of the keys that each respect real time merge into one that does |
| KvLinearizability.Locality | src/porcupine/model.go:28-31 | a history is linearizable for the whole map if and only if every part is for its key |
| LinearizabilityVerdict.Group | src/models/kv.go:18-26 | each key's operations in history order |
| LinearizabilityVerdict.Partition | src/models/kv.go:18-34 | one part per key that occurs, by sorted key |
| LinearizabilityVerdict.CheckParallel | src/porcupine/checker.go:274-353 | Ok means all parts are linearizable, Illegal means one is not, Unknown only after a timeout, and no answer ever if and only if there is no part and no timeout |
| LinearizabilityVerdict.CheckOperations | src/porcupine/checker.go:365-373 | Ok if the history has a real-time order in which every get returns what was written, Illegal if it has none; the call blocks exactly on an empty history without a timeout |
| KvServer.KVServer.ExecuteOp | src/kvraft/server.go:277-290 | answer, error and new values of one operation |
| KvServer.KVServer.ExecuteIfNew | src/kvraft/server.go:263-275 | the new state, unchanged for a duplicate |
| KvServer.KVServer.AnswerDuplicate | src/kvraft/server.go:109-115 | which requests are answered at once and how |
| KvServer.KVServer.ApplyLog | src/kvraft/server.go:191-224 | the loop computes the state of the delivered log |
| KvServer.TableHolds | src/kvraft/server.go:178-181 | the table has each client's highest request number in the log |
| KvServer.DuplicateIffNotRecord | src/kvraft/server.go:178-181 | a request is a duplicate if and only if its client sent one at least as high before |
| KvServer.ExecutesRecordsOnce | src/kvraft/server.go:263-290 | for every log, the values are those of executing just the record-high requests |
| KvServer.ReplayChangesNothing | src/kvraft/server.go:263-275 | delivering again anything already delivered changes nothing |
| KvServer.TraceAccepted | src/kvraft/server.go:277-290 | the executed operations with their answers are a run of the map model |
| KvServer.AnswersFollowModel | src/models/kv.go:35-54 | on each key they are a run of the checker's model: every Get is answered with what was written before |
| KvServer.TableAnswers | src/kvraft/server.go:263-275 | the table has the answer of the first execution of each client's highest request |
| KvServer.PlacesAreRecords | src/kvraft/server.go:263-275 | the executed operations are those at the record highs, in log order |
| KvServer.HandlerAnswersOwnRequest | src/kvraft/server.go:137-150 | what a handler takes from the table is the answer of a first execution, and of its own request if and only if its client has nothing newer in the log |
| KvServer.RetryGetsFirstAnswer | src/kvraft/server.go:183-189 | a retry of the latest request gets the answer of its first execution |
| KvServer.RetryErrorDiffersIff | src/kvraft/server.go:109-115 | the first error was ErrNoKey if and only if that was a Get of a key nothing executed before had written, and OK otherwise; writes are answered with the empty string |
| KvServer.LastExecutedCovers | src/kvraft/server.go:226-236 | the index given to Snapshot is that of the last executed request; the log up to it leaves the server as the whole log does, and the table of any shorter part differs |
| KvRendezvous.StepKeepsInv | src/kvraft/server.go:106-224 | every step of handlers, apply loop and term refresh keeps the rendezvous invariant |
| KvRendezvous.OneSignalEach | src/kvraft/server.go:152-157 | a handler that left sent one signal if it was counted and none otherwise |
| KvRendezvous.TakesOwnMessageIff | src/kvraft/server.go:126-141 | no handler sees a message past its own index, and one answers with its own message if and only if it left the loop by the test of the index and its term still stands |
| KvRendezvous.AnswersIffTermStands | src/kvraft/server.go:135-149 | a handler answers with the message just applied if and only if its term is the refreshed one at its second look, with ErrWrongLeader otherwise |
| KvRendezvous.AppliedIsAnswered | src/kvraft/server.go:126-149 | a handler whose term stays the refreshed one leaves only with its own message, and has left once a later one is applied |
| KvRendezvous.SleepersTakeOwnMessage | src/kvraft/server.go:126-141 | a handler that ever waited has its own message if it goes on |
| KvRendezvous.TakesEarlierMessage | src/kvraft/server.go:126-141 | a run in which a handler goes on with the message before its own |
| KvRendezvous.PanicsIff | src/kvraft/server.go:126-142 | a handler at its test can still bring about the panic if and only if nothing has been applied and the refreshed term is below its own |
| KvRendezvous.PanicHappens | src/kvraft/server.go:141-142 | a run in which it does |
| KvRendezvous.ReceivesWhatItCounted | src/kvraft/server.go:205-221 | the apply loop receives as many signals as it counted, from the handler of its index |
| KvRendezvous.NobodyWaitsInVain | src/kvraft/server.go:152-221 | the holder of the lock can move, and when there is none the handler the loop waits for is awake |
| KvRendezvous.MissesNewTermIff | src/kvraft/server.go:295-305 | after the broadcast of a new term a handler of an earlier one is still waiting if and only if the broadcast found it between its test and its wait and nothing awaited was delivered since |
| KvRendezvous.SleepsThroughNewTerm | src/kvraft/server.go:295-305 | a run in which a handler misses the broadcast |
| KvRendezvous.TookWasApplied | src/kvraft/server.go:139-142 | the message a handler goes on with is one that has been applied |
| KvRendezvous.AbortsIff | src/kvraft/server.go:121-124 | the process aborts exactly when an older handler is registered for the same index, and that handler is of an earlier term |
| KvRendezvous.AbortHappens | src/kvraft/server.go:121-124 | a run in which it does |
| KvReplicas.ReplicasAgree | src/kvraft/server.go:191-224 | replicas that applied equally many commands, at any two moments of any run, hold the same state; one that is behind reaches the other's by applying the rest |
| KvReplicas.StartIsAllowed | src/kvraft/server.go:116-119 | on every run, what a call of Start returns is what the rendezvous assumes of it |
| KvHistory.GivenWasRequested | src/kvraft/server.go:116-119 | whatever a server has executed was requested by a client before |
| KvHistory.ReplyIsOwnIff | src/kvraft/server.go:109-150 | a reply is the answer of a first execution, and of the request itself if and only if the server had nothing newer of the client |
| KvHistory.SequentialRepliesOwn | src/kvraft/client.go:51-75 | a client that waits for its replies always gets its own |
| KvHistory.OrderRespectsTime | src/kvraft/server.go:106-150 | of two executed requests the later one returned in a later step than the earlier one was made |
| KvHistory.TraceCompletes | src/kvraft/server.go:106-150 | the executed requests with their answers are a completion of the calls: every replied call once with its reply |
| KvHistory.ServiceIsLinearizable | src/kvraft/server.go:106-224 | on every run of the replicated service in which no reply was overtaken by a newer request of its client, the calls are linearizable for the whole map, a request made in the step of a reply counting as after it |
| KvHistory.HandlerAnswers | src/kvraft/server.go:126-150 | a handler that goes on with a message and finds its own operation in it answers from a table that some moment of the run justifies |
| KvConcurrentClient.ConcurrentClientFails | src/kvraft/server.go:109-150 | a run with two requests of one client under way, none of whose completions is linearizable |
| Strings.SortByKey | src/mr/keyvalue.go:11-17 | a sorted permutation |
| MapReduce.EncodeKV | src/mr/worker.go:114-129 | file p holds, in order, exactly the pairs whose key hashes to p |
| MapReduce.ReadPartition | src/mr/worker.go:42-60 | all pairs of the partition, from all map tasks |
| MapReduce.ReduceSorted | src/mr/worker.go:80-96 | one line for each key, with the reduction of all its values, and no other line |
| MapReduce.Reduce | src/mr/worker.go:62-78 | the same for an unsorted partition |
| MapReduce.Sequential | src/main/mrsequential.go:38-84 | the same for the whole input |
| MapReduce.Distributed | src/mr/worker.go:42-129 | the lines of all partitions together are the same for the whole input |
| MapReduce.ValuesOfBucket | src/mr/worker.go:114-129 | a partition has all the values of its own keys and none of others |
| MapReduce.ValuesCount | src/mr/worker.go:87-90 | the values of a key are those of all pairs with that key |
| MapReduce.BucketCounts | src/mr/worker.go:123-128 | a pair is in the partition its hash names as often as it was emitted, and in no other |
| MapReduce.SameLines | src/main/mrsequential.go:56-84 | two outputs for the same pairs have the same lines, each once |
| MapReduce.RunBoth | src/main/mrsequential.go:38-84 | for every input and number of partitions the two programs print the same lines |
| MapReduceCoordinator.Coordinator.constructor | src/mr/coordinator.go:146-169 | all tasks queued and none finished |
| MapReduceCoordinator.Coordinator.UnassignedMap | src/mr/coordinator.go:109-111 | the last map task of the queue, if there is one |
| MapReduceCoordinator.Coordinator.UnassignedReduce | src/mr/coordinator.go:113-115 | the last reduce task of the queue, if there is one |
| MapReduceCoordinator.Coordinator.FindTask | src/mr/coordinator.go:91-107 | map tasks first, then reduce tasks, then Terminate, each popped from the end of its queue |
| MapReduceCoordinator.Coordinator.ResetMap | src/mr/coordinator.go:61-73 | back in the queue unless finished |
| MapReduceCoordinator.Coordinator.ResetReduce | src/mr/coordinator.go:57-73 | back in the queue unless finished |
| MapReduceCoordinator.Coordinator.FinishTask | src/mr/coordinator.go:47-89 | exactly the reported task is added to the finished ones, and done says whether all are |
| MapReduceCoordinator.StepKeepsInv | src/mr/coordinator.go:30-115 | every step of calls, timers and reports keeps the coordinator's invariant |
| MapReduceCoordinator.TokensConserved | src/mr/coordinator.go:30-115 | in every interleaving an unfinished task has exactly one token among queue, call and timer, and no task has two |
| MapReduceCoordinator.FinishedIffReported | src/mr/coordinator.go:83-86 | in every run a task is finished if and only if a worker that was given it has reported it |
| MapReduceCoordinator.LookFollowsReports | src/mr/coordinator.go:91-107 | a call goes for a map task while one is unreported, then for a reduce task while one is, then gets Terminate |
| MapReduceCoordinator.GivenIffTaken | src/mr/coordinator.go:30-45 | a call has been given exactly the task it took from the end of the queue |
| MapReduceCoordinator.ResetFollowsReports | src/mr/coordinator.go:65-73 | a timer puts its task at the end of the queue if and only if nobody has reported it |
| MapReduceCoordinator.PhaseOrder | src/mr/coordinator.go:91-107 | reduce tasks only after all maps have been reported, Terminate only after everything has |
| MapReduceCoordinator.DoneMeansFinished | src/mr/coordinator.go:47-55 | done only when every task has been reported |
| MapReduceCoordinator.DoneIff | src/mr/coordinator.go:83-89 | at every moment: no report has stored done and it is false, or the last that did had read the counts before and done says whether all tasks had been reported then |
| MapReduceCoordinator.DoneIsLost | src/mr/coordinator.go:83-89 | a run that ends with everything finished, no report under way, and done false |
| MapReduceProgress.JobCanFinish | src/mr/coordinator.go:30-107 | every run can go on until every task has been reported and a worker is told to stop |

## Left out

- Liveness, election timeouts, heartbeats and sleeps: real time and randomness; elections and sends may happen at any moment.
- Compaction in the cluster-wide Raft proofs: the leader does not consume the skip hint, so compaction is covered by the single-server refinement only.
- `SkipForwardTo` on the leader's side and the leader's handling of InstallSnapshot replies: the leader does not use them.
- RPC and encoding (`src/labrpc`, `src/labgob`): a set of sent messages and a faithful codec.
- KV snapshots (`src/kvraft/server.go:226-261`): byte-size thresholds and gob encoding.
- Operation types other than Get, Put and Append in `execute`: clients send no others.
- The partial linearizations and their display (`computePartial`, `src/porcupine/visualization.go`): they do not affect the verdict.
- Histories given as events (`src/porcupine/checker.go:92-119` and 355-363): only the operation form is modelled.
- `sort.Sort` and `sort.Slice`: modelled by insertion sort, which is stable; no result depends on that.
- The atomic kill flag of `checkSingle`: an arbitrary answer at each look.
- KvHistory.ServiceIsLinearizable: one direction for whole runs, because a run with an overtaken reply can still happen to be linearizable, for instance when both requests have the same result; the exact condition is given for each reply (KvHistory.ReplyIsOwnIff), and KvConcurrentClient.ConcurrentClientFails shows that the condition cannot be dropped.
- LinearizabilityVerdict.CheckParallel: does not model goroutines; results arrive in an arbitrary order.
- MapReduceCoordinator.Coordinator.FindTask: states one undisturbed call; the state machine beside it splits the call into its check, its pop and its timer.
- Data races on the finished maps and on `done` in the coordinator: each read and write is an atomic step here.
- Files, temporary-file renames, JSON and the FNV hash of `src/mr`: files are sequences and the hash is an arbitrary function.
- `src/shardctrler`, `src/shardkv`, `mraft.go`, `server_bu.go`, the tests and the launchers: stubs, superseded drafts and scaffolding.
