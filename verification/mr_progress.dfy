/**
 A MapReduce job never gets stuck: whatever has happened to workers, timers and
 reports, every run can go on until every task has been reported.
 */
module MapReduceProgress {
  import opened MapReduceCoordinator

  function Last(states: seq<System>): System
    requires states != []
  {
    states[|states| - 1]
  }

  /** One more step at the end of a run. */
  lemma Extend(nMap: nat, nReduce: nat, states: seq<System>, steps: seq<Step>, st: Step)
    returns (more: seq<System>, taken: seq<Step>)
    requires IsRun(nMap, nReduce, states, steps) && Enabled(Last(states), st)
    ensures IsRun(nMap, nReduce, more, taken) && states <= more && steps <= taken
    ensures Last(more) == Next(Last(states), st)
  {
    hide Next, Enabled;
    more, taken := states + [Next(Last(states), st)], steps + [st];
    forall i | 0 <= i < |taken| ensures Enabled(more[i], taken[i]) && more[i + 1] == Next(more[i], taken[i]) {
      assert more[i] == states[i];
    }
  }

  /** All but the reports under way and `done`. */
  predicate SameTasks(s: System, s': System) {
    && s'.maps == s.maps && s'.reduces == s.reduces && s'.calls == s.calls
    && s'.mapTimers == s.mapTimers && s'.reduceTimers == s.reduceTimers
  }

  /** Whoever holds the lock of one kind of task comes to an end. */
  lemma LockComesFree(nMap: nat, nReduce: nat, states: seq<System>, steps: seq<Step>, k: Kind)
    returns (more: seq<System>, taken: seq<Step>)
    requires IsRun(nMap, nReduce, states, steps)
    ensures IsRun(nMap, nReduce, more, taken) && states <= more && steps <= taken
    ensures ReportOf(Last(more), k).Free? && SameTasks(Last(states), Last(more))
  {
    RunLength(nMap, nReduce, states, steps);
    hide IsRun;
    more, taken := states, steps;
    if ReportOf(Last(more), k).Added? {
      more, taken := Extend(nMap, nReduce, more, taken, Read(k));
    }
    if ReportOf(Last(more), k).Decided? {
      more, taken := Extend(nMap, nReduce, more, taken, Write(k));
    }
  }

  /** Exactly task t of kind k has been added to the finished ones. */
  predicate Finishes(s: System, s': System, k: Kind, t: nat) {
    && PoolOf(s', k).finished == PoolOf(s, k).finished + {t} && PoolOf(s', k).size == PoolOf(s, k).size
    && PoolOf(s', Other(k)).finished == PoolOf(s, Other(k)).finished && PoolOf(s', Other(k)).size == PoolOf(s, Other(k)).size
  }

  function Other(k: Kind): Kind {
    if k == Maps then Reduces else Maps
  }

  /** A task that a call has popped can be reported. */
  lemma GivenFinishes(nMap: nat, nReduce: nat, states: seq<System>, steps: seq<Step>, c: nat, k: Kind, t: nat)
    returns (more: seq<System>, taken: seq<Step>)
    requires IsRun(nMap, nReduce, states, steps) && c < |Last(states).calls| && Last(states).calls[c] == Popping(TaskOf(k, t))
    ensures IsRun(nMap, nReduce, more, taken) && states <= more && steps <= taken
    ensures Finishes(Last(states), Last(more), k, t)
  {
    hide IsRun;
    more, taken := Extend(nMap, nReduce, states, steps, StartTimer(c));
    more, taken := LockComesFree(nMap, nReduce, more, taken, k);
    more, taken := Extend(nMap, nReduce, more, taken, Finish(c));
  }

  /** The tasks of the kind may be handed out: reduce tasks when the count of finished map tasks is full. */
  predicate Open(s: System, k: Kind) {
    && |PoolOf(s, k).finished| < PoolOf(s, k).size
    && (k == Maps || |s.maps.finished| >= s.maps.size)
  }

  /** A new call takes the last task of the queue. */
  lemma NewCallPops(nMap: nat, nReduce: nat, states: seq<System>, steps: seq<Step>, k: Kind)
    returns (more: seq<System>, taken: seq<Step>)
    requires IsRun(nMap, nReduce, states, steps) && Open(Last(states), k) && PoolOf(Last(states), k).unfinished != []
    ensures IsRun(nMap, nReduce, more, taken) && states <= more && steps <= taken
    ensures var s, s' := Last(states), Last(more);
            var q := PoolOf(s, k).unfinished;
            && PoolOf(s', k) == Popped(PoolOf(s, k)) && PoolOf(s', Other(k)) == PoolOf(s, Other(k))
            && s'.calls == s.calls + [Popping(TaskOf(k, q[|q| - 1]))]
  {
    var s := Last(states);
    hide IsRun;
    var c, will := |s.calls|, if k == Maps then WillPopMap else WillPopReduce;
    more, taken := Extend(nMap, nReduce, states, steps, NewCall);
    more, taken := Extend(nMap, nReduce, more, taken, Look(c));
    assert Last(more).calls == s.calls + [will];
    more, taken := LockComesFree(nMap, nReduce, more, taken, k);
    more, taken := Extend(nMap, nReduce, more, taken, if k == Maps then PopMap(c) else PopReduce(c));
  }

  /** A queued task can be reported, after those queued behind it have been handed out. */
  lemma {:induction false} QueuedFinishes(nMap: nat, nReduce: nat, states: seq<System>, steps: seq<Step>, k: Kind, t: nat)
    returns (more: seq<System>, taken: seq<Step>)
    requires IsRun(nMap, nReduce, states, steps) && Open(Last(states), k) && t in PoolOf(Last(states), k).unfinished
    ensures IsRun(nMap, nReduce, more, taken) && states <= more && steps <= taken
    ensures Finishes(Last(states), Last(more), k, t)
    decreases |PoolOf(Last(states), k).unfinished|
  {
    var q := PoolOf(Last(states), k).unfinished;
    hide IsRun, Next, Enabled;
    more, taken := NewCallPops(nMap, nReduce, states, steps, k);
    if q[|q| - 1] == t {
      more, taken := GivenFinishes(nMap, nReduce, more, taken, |Last(states).calls|, k, t);
    } else {
      more, taken := QueuedFinishes(nMap, nReduce, more, taken, k, t);
    }
  }

  lemma {:induction false} Holder(calls: seq<Call>, k: Kind, t: nat) returns (c: nat)
    requires HeldBy(calls, k, t) > 0
    ensures c < |calls| && calls[c] == Popping(TaskOf(k, t))
  {
    var n := |calls| - 1;
    if Holds(calls[n], k, t) {
      c := n;
    } else {
      c := Holder(calls[..n], k, t);
    }
  }

  lemma TimerFires(nMap: nat, nReduce: nat, states: seq<System>, steps: seq<Step>, k: Kind, t: nat)
    returns (more: seq<System>, taken: seq<Step>)
    requires IsRun(nMap, nReduce, states, steps) && t in TimersOf(Last(states), k) && t !in PoolOf(Last(states), k).finished
    ensures IsRun(nMap, nReduce, more, taken) && states <= more && steps <= taken
    ensures var s, s' := Last(states), Last(more);
            PoolOf(s', k) == Reset(PoolOf(s, k), t) && t in PoolOf(s', k).unfinished && PoolOf(s', Other(k)) == PoolOf(s, Other(k))
  {
    RunLength(nMap, nReduce, states, steps);
    hide IsRun;
    more, taken := LockComesFree(nMap, nReduce, states, steps, k);
    more, taken := Extend(nMap, nReduce, more, taken, if k == Maps then FireMap(t) else FireReduce(t));
  }

  /** Wherever the token of an unfinished task is, the task can be reported. */
  lemma TaskFinishes(nMap: nat, nReduce: nat, states: seq<System>, steps: seq<Step>, k: Kind, t: nat)
    returns (more: seq<System>, taken: seq<Step>)
    requires IsRun(nMap, nReduce, states, steps) && Open(Last(states), k)
    requires t < PoolOf(Last(states), k).size && t !in PoolOf(Last(states), k).finished
    ensures IsRun(nMap, nReduce, more, taken) && states <= more && steps <= taken
    ensures Finishes(Last(states), Last(more), k, t)
  {
    var s := Last(states);
    TokensConserved(nMap, nReduce, states, steps, |states| - 1, k, t);
    hide IsRun, HeldBy, Next, Enabled;
    if t in PoolOf(s, k).unfinished {
      more, taken := QueuedFinishes(nMap, nReduce, states, steps, k, t);
    } else if HeldBy(s.calls, k, t) > 0 {
      var c := Holder(s.calls, k, t);
      more, taken := GivenFinishes(nMap, nReduce, states, steps, c, k, t);
    } else {
      more, taken := TimerFires(nMap, nReduce, states, steps, k, t);
      more, taken := QueuedFinishes(nMap, nReduce, more, taken, k, t);
    }
  }

  /** All tasks of a kind can be reported, once those before it have been. */
  lemma {:induction false} KindFinishes(nMap: nat, nReduce: nat, states: seq<System>, steps: seq<Step>, k: Kind)
    returns (more: seq<System>, taken: seq<Step>)
    requires IsRun(nMap, nReduce, states, steps) && (k == Maps || |Last(states).maps.finished| >= Last(states).maps.size)
    ensures IsRun(nMap, nReduce, more, taken) && states <= more && steps <= taken
    ensures |PoolOf(Last(more), k).finished| == PoolOf(Last(more), k).size
    ensures PoolOf(Last(more), Other(k)).finished == PoolOf(Last(states), Other(k)).finished
    ensures PoolOf(Last(more), Other(k)).size == PoolOf(Last(states), Other(k)).size
    decreases PoolOf(Last(states), k).size - |PoolOf(Last(states), k).finished|
  {
    var p := PoolOf(Last(states), k);
    FullIffReported(nMap, nReduce, states, steps, |states| - 1, k);
    hide IsRun;
    more, taken := states, steps;
    if |p.finished| < p.size {
      var t := Missing(p.finished, p.size);
      more, taken := TaskFinishes(nMap, nReduce, states, steps, k, t);
      more, taken := KindFinishes(nMap, nReduce, more, taken, k);
    }
  }

  lemma Missing(s: set<nat>, n: nat) returns (t: nat)
    requires |s| < n
    ensures t < n && t !in s
  {
    if forall t: nat :: t < n ==> t in s {
      FullCount(s, n);
    }
    t :| t < n && t !in s;
  }

  /** Every run can go on until every task has been reported and a worker is told to stop. */
  lemma JobCanFinish(nMap: nat, nReduce: nat, states: seq<System>, steps: seq<Step>)
    returns (more: seq<System>, taken: seq<Step>)
    requires IsRun(nMap, nReduce, states, steps)
    ensures IsRun(nMap, nReduce, more, taken) && states <= more && steps <= taken
    ensures AllReported(more, taken, |taken|, Maps, nMap) && AllReported(more, taken, |taken|, Reduces, nReduce)
    ensures Answered(Terminate) in Last(more).calls
  {
    RunLength(nMap, nReduce, states, steps);
    hide IsRun, AllReported;
    more, taken := KindFinishes(nMap, nReduce, states, steps, Maps);
    more, taken := KindFinishes(nMap, nReduce, more, taken, Reduces);
    var c := |Last(more).calls|;
    more, taken := Extend(nMap, nReduce, more, taken, NewCall);
    more, taken := Extend(nMap, nReduce, more, taken, Look(c));
    assert Last(more).calls[c] == Answered(Terminate);
    RunLength(nMap, nReduce, more, taken);
    FullIffReported(nMap, nReduce, more, taken, |taken|, Maps);
    FullIffReported(nMap, nReduce, more, taken, |taken|, Reduces);
  }

  lemma RunLength(nMap: nat, nReduce: nat, states: seq<System>, steps: seq<Step>)
    requires IsRun(nMap, nReduce, states, steps)
    ensures |states| == |steps| + 1
  {
  }
}
