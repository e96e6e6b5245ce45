/**
 The MapReduce coordinator of src/mr/coordinator.go.  `Coordinator` is the object
 with its critical sections as methods; the second half lets any number of
 GetTask and FinishTask calls and reset timers interleave.
 */
module MapReduceCoordinator {

  /** The tasks of one kind: how many, the queue, and the finished ones. */
  datatype Pool = Pool(size: nat, unfinished: seq<nat>, finished: set<nat>)

  datatype Task = MapTask(id: nat) | ReduceTask(partition: nat) | Terminate

  function Range(n: nat): (s: seq<nat>)
    ensures |s| == n && forall i :: 0 <= i < n ==> s[i] == i
  {
    seq(n, i => i)
  }

  function NewPool(n: nat): Pool {
    Pool(n, Range(n), {})
  }

  /** popLast leaves the queue without its last task. */
  function Popped(p: Pool): Pool
    requires p.unfinished != []
  {
    p.(unfinished := p.unfinished[..|p.unfinished| - 1])
  }

  /** resetTask puts a task back unless it has finished. */
  function Reset(p: Pool, t: nat): Pool {
    if t in p.finished then p else p.(unfinished := p.unfinished + [t])
  }

  function Completed(p: Pool, t: nat): Pool {
    p.(finished := p.finished + {t})
  }

  predicate AllFinished(m: Pool, r: Pool) {
    |m.finished| == m.size && |r.finished| == r.size
  }

  class Coordinator {
    const nMap: nat
    const nReduce: nat
    var done: bool
    var mapUnfinished: seq<nat>
    var mapFinished: set<nat>
    var reduceUnfinished: seq<nat>
    var reduceFinished: set<nat>

    ghost function Maps(): Pool
      reads this
    {
      Pool(nMap, mapUnfinished, mapFinished)
    }

    ghost function Reduces(): Pool
      reads this
    {
      Pool(nReduce, reduceUnfinished, reduceFinished)
    }

    constructor (nFiles: nat, nReduce: nat)
      ensures Maps() == NewPool(nFiles) && Reduces() == NewPool(nReduce) && !done
    {
      this.nMap, this.nReduce, done := nFiles, nReduce, false;
      mapUnfinished, mapFinished := Range(nFiles), {};
      reduceUnfinished, reduceFinished := Range(nReduce), {};
    }

    method UnassignedMap() returns (found: bool, t: nat)
      modifies this`mapUnfinished
      ensures found <==> old(mapUnfinished) != []
      ensures found ==> t == old(mapUnfinished)[|old(mapUnfinished)| - 1] && Maps() == Popped(old(Maps()))
      ensures !found ==> Maps() == old(Maps())
    {
      if |mapUnfinished| > 0 {
        var last := |mapUnfinished| - 1;
        found, t := true, mapUnfinished[last];
        mapUnfinished := mapUnfinished[..last];
        return;
      }
      return false, 0;
    }

    method UnassignedReduce() returns (found: bool, t: nat)
      modifies this`reduceUnfinished
      ensures found <==> old(reduceUnfinished) != []
      ensures found ==> t == old(reduceUnfinished)[|old(reduceUnfinished)| - 1] && Reduces() == Popped(old(Reduces()))
      ensures !found ==> Reduces() == old(Reduces())
    {
      if |reduceUnfinished| > 0 {
        var last := |reduceUnfinished| - 1;
        found, t := true, reduceUnfinished[last];
        reduceUnfinished := reduceUnfinished[..last];
        return;
      }
      return false, 0;
    }

    /** findTask, when nothing happens between its check and its pop. */
    method FindTask() returns (found: bool, task: Task)
      modifies this`mapUnfinished, this`reduceUnfinished
      ensures old(|mapFinished|) < nMap ==>
                && found == (old(mapUnfinished) != []) && Reduces() == old(Reduces())
                && (found ==> Maps() == Popped(old(Maps())) && task == MapTask(old(mapUnfinished)[|old(mapUnfinished)| - 1]))
      ensures old(|mapFinished|) >= nMap && old(|reduceFinished|) < nReduce ==>
                && found == (old(reduceUnfinished) != []) && Maps() == old(Maps())
                && (found ==> Reduces() == Popped(old(Reduces()))
                              && task == ReduceTask(old(reduceUnfinished)[|old(reduceUnfinished)| - 1]))
      ensures old(|mapFinished|) >= nMap && old(|reduceFinished|) >= nReduce ==> found && task == Terminate
      ensures !found || task == Terminate ==> Maps() == old(Maps()) && Reduces() == old(Reduces())
    {
      var t;
      if |mapFinished| < nMap {
        found, t := UnassignedMap();
        return found, MapTask(t);
      } else if |reduceFinished| < nReduce {
        found, t := UnassignedReduce();
        return found, ReduceTask(t);
      }
      return true, Terminate;
    }

    method ResetMap(t: nat)
      modifies this`mapUnfinished
      ensures Maps() == Reset(old(Maps()), t)
      ensures mapUnfinished == if t in mapFinished then old(mapUnfinished) else old(mapUnfinished) + [t]
    {
      if t !in mapFinished {
        mapUnfinished := mapUnfinished + [t];
      }
    }

    method ResetReduce(t: nat)
      modifies this`reduceUnfinished
      ensures Reduces() == Reset(old(Reduces()), t)
      ensures reduceUnfinished == if t in reduceFinished then old(reduceUnfinished) else old(reduceUnfinished) + [t]
    {
      if t !in reduceFinished {
        reduceUnfinished := reduceUnfinished + [t];
      }
    }

    method FinishTask(task: Task)
      modifies this`mapFinished, this`reduceFinished, this`done
      ensures mapFinished == if task.MapTask? then old(mapFinished) + {task.id} else old(mapFinished)
      ensures reduceFinished == if task.ReduceTask? then old(reduceFinished) + {task.partition} else old(reduceFinished)
      ensures done == if task.Terminate? then old(done) else |mapFinished| == nMap && |reduceFinished| == nReduce
      ensures task.MapTask? ==> Maps() == Completed(old(Maps()), task.id)
      ensures task.ReduceTask? ==> Reduces() == Completed(old(Reduces()), task.partition)
    {
      match task
      case MapTask(t) =>
        mapFinished := mapFinished + {t};
        done := |mapFinished| == nMap && |reduceFinished| == nReduce;
      case ReduceTask(p) =>
        reduceFinished := reduceFinished + {p};
        done := |mapFinished| == nMap && |reduceFinished| == nReduce;
      case Terminate =>
    }
  }

  // -------------------------------------------------------- interleavings

  /** Where a GetTask call is: it has looked at the finished counts, or popped and not yet started its timer. */
  datatype Call = Looking | WillPopMap | WillPopReduce | Popping(task: Task) | Answered(task: Task)

  datatype Kind = Maps | Reduces

  /**
   What the holder of the lock of one kind of task, if it is a completeTask, has
   done: put the task among the finished ones, or also read the counts that decide
   what it will store in `done`.
   */
  datatype Report = Free | Added | Decided(value: bool)

  /** Timers that are running, as bags of task numbers. */
  datatype System = System(
    maps: Pool, reduces: Pool, done: bool, mapReport: Report, reduceReport: Report,
    calls: seq<Call>, mapTimers: multiset<nat>, reduceTimers: multiset<nat>)

  datatype Step =
    | NewCall
    | Look(c: nat)
    | PopMap(c: nat)
    | PopReduce(c: nat)
    | StartTimer(c: nat)
    | FireMap(t: nat)
    | FireReduce(t: nat)
    | Finish(c: nat)
    | Read(k: Kind)
    | Write(k: Kind)

  function Boot(nMap: nat, nReduce: nat): System {
    System(NewPool(nMap), NewPool(nReduce), false, Free, Free, [], multiset{}, multiset{})
  }

  predicate Enabled(s: System, st: Step) {
    match st
    case NewCall => true
    case Look(c) => c < |s.calls| && s.calls[c].Looking?
    case PopMap(c) => c < |s.calls| && s.calls[c].WillPopMap? && s.mapReport.Free?
    case PopReduce(c) => c < |s.calls| && s.calls[c].WillPopReduce? && s.reduceReport.Free?
    case StartTimer(c) => c < |s.calls| && s.calls[c].Popping?
    case FireMap(t) => t in s.mapTimers && s.mapReport.Free?
    case FireReduce(t) => t in s.reduceTimers && s.reduceReport.Free?
    // a worker reports a task it was given, at any time and any number of times
    case Finish(c) =>
      c < |s.calls| && s.calls[c].Answered? && !s.calls[c].task.Terminate?
      && ReportOf(s, KindOf(s.calls[c].task)).Free?
    case Read(k) => ReportOf(s, k).Added?
    case Write(k) => ReportOf(s, k).Decided?
  }

  function KindOf(task: Task): Kind {
    if task.MapTask? then Maps else Reduces
  }

  function ReportOf(s: System, k: Kind): Report {
    if k == Maps then s.mapReport else s.reduceReport
  }

  function WithReport(s: System, k: Kind, r: Report): System {
    if k == Maps then s.(mapReport := r) else s.(reduceReport := r)
  }

  function Next(s: System, st: Step): System
    requires Enabled(s, st)
  {
    match st
    case NewCall => s.(calls := s.calls + [Looking])
    case Look(c) =>
      s.(calls := s.calls[c := if |s.maps.finished| < s.maps.size then WillPopMap
                               else if |s.reduces.finished| < s.reduces.size then WillPopReduce
                               else Answered(Terminate)])
    case PopMap(c) =>
      if s.maps.unfinished == [] then s.(calls := s.calls[c := Looking])
      else s.(calls := s.calls[c := Popping(MapTask(s.maps.unfinished[|s.maps.unfinished| - 1]))],
              maps := Popped(s.maps))
    case PopReduce(c) =>
      if s.reduces.unfinished == [] then s.(calls := s.calls[c := Looking])
      else s.(calls := s.calls[c := Popping(ReduceTask(s.reduces.unfinished[|s.reduces.unfinished| - 1]))],
              reduces := Popped(s.reduces))
    case StartTimer(c) =>
      var task := s.calls[c].task;
      var s1 := s.(calls := s.calls[c := Answered(task)]);
      (match task
       case MapTask(t) => s1.(mapTimers := s.mapTimers + multiset{t})
       case ReduceTask(t) => s1.(reduceTimers := s.reduceTimers + multiset{t})
       case Terminate => s1)
    case FireMap(t) => s.(mapTimers := s.mapTimers - multiset{t}, maps := Reset(s.maps, t))
    case FireReduce(t) => s.(reduceTimers := s.reduceTimers - multiset{t}, reduces := Reset(s.reduces, t))
    case Finish(c) =>
      (match s.calls[c].task
       case MapTask(t) => s.(maps := Completed(s.maps, t), mapReport := Added)
       case ReduceTask(t) => s.(reduces := Completed(s.reduces, t), reduceReport := Added)
       case Terminate => s)
    case Read(k) => WithReport(s, k, Decided(AllFinished(s.maps, s.reduces)))
    case Write(k) => WithReport(s, k, Free).(done := ReportOf(s, k).value)
  }

  // ------------------------------------------------------------ invariant

  predicate IsOf(task: Task, k: Kind) {
    if k == Maps then task.MapTask? else task.ReduceTask?
  }

  function Number(task: Task): nat
    requires !task.Terminate?
  {
    match task case MapTask(t) => t case ReduceTask(t) => t
  }

  /** Whether a call holds the token of task t, having popped it and not yet started its timer. */
  predicate Holds(c: Call, k: Kind, t: nat) {
    c.Popping? && IsOf(c.task, k) && Number(c.task) == t
  }

  /** How many calls hold the token of task t. */
  function HeldBy(calls: seq<Call>, k: Kind, t: nat): nat {
    if calls == [] then 0
    else HeldBy(calls[..|calls| - 1], k, t) + if Holds(calls[|calls| - 1], k, t) then 1 else 0
  }

  function PoolOf(s: System, k: Kind): Pool {
    if k == Maps then s.maps else s.reduces
  }

  function TimersOf(s: System, k: Kind): multiset<nat> {
    if k == Maps then s.mapTimers else s.reduceTimers
  }

  /** The tokens of task t: in the queue, in a call, or waiting for a timer. */
  function Tokens(s: System, k: Kind, t: nat): nat {
    multiset(PoolOf(s, k).unfinished)[t] + HeldBy(s.calls, k, t) + TimersOf(s, k)[t]
  }

  /** Every unfinished task has exactly one token, and no task has two. */
  ghost predicate Conserved(s: System, k: Kind) {
    var p := PoolOf(s, k);
    && (forall t :: t in p.finished ==> t < p.size)
    && (forall t: nat :: TokensOk(p, t, Tokens(s, k, t)))
  }

  ghost predicate TokensOk(p: Pool, t: nat, n: nat) {
    n <= 1 && (n > 0 ==> t < p.size) && (t < p.size && t !in p.finished ==> n == 1)
  }

  ghost predicate CallOk(s: System, c: Call) {
    match c
    case Looking => true
    case WillPopMap => true
    case WillPopReduce => |s.maps.finished| >= s.maps.size
    case Popping(task) => TaskOk(s, task) && !task.Terminate?
    case Answered(task) => TaskOk(s, task)
  }

  ghost predicate TaskOk(s: System, task: Task) {
    match task
    case MapTask(t) => t < s.maps.size
    case ReduceTask(t) => t < s.reduces.size && |s.maps.finished| >= s.maps.size
    case Terminate => |s.maps.finished| >= s.maps.size && |s.reduces.finished| >= s.reduces.size
  }

  ghost predicate Inv(s: System) {
    && Conserved(s, Maps) && Conserved(s, Reduces)
    && (forall c :: 0 <= c < |s.calls| ==> CallOk(s, s.calls[c]))
    && (s.done || s.mapReport == Decided(true) || s.reduceReport == Decided(true) ==> AllFinished(s.maps, s.reduces))
  }

  lemma {:induction false} HeldAfterUpdate(calls: seq<Call>, c: nat, x: Call, k: Kind, t: nat)
    requires c < |calls|
    ensures HeldBy(calls[c := x], k, t) + (if Holds(calls[c], k, t) then 1 else 0) ==
              HeldBy(calls, k, t) + (if Holds(x, k, t) then 1 else 0)
    decreases |calls|
  {
    var n := |calls| - 1;
    if c < n {
      HeldAfterUpdate(calls[..n], c, x, k, t);
      assert calls[c := x][..n] == calls[..n][c := x];
    } else {
      assert calls[c := x][..n] == calls[..n];
    }
  }

  lemma {:induction false} FullSet(s: set<nat>, n: nat)
    requires forall t :: t in s ==> t < n
    ensures |s| <= n && (|s| == n ==> forall t: nat :: t < n ==> t in s)
    decreases n
  {
    if n == 0 {
      assert s == {};
    } else {
      FullSet(s - {n - 1}, n - 1);
      if n - 1 in s {
        assert |s - {n - 1}| == |s| - 1;
        forall t: nat | |s| == n && t < n - 1 ensures t in s {
          assert t in s - {n - 1};
        }
      } else {
        assert s - {n - 1} == s;
      }
    }
  }

  /** The counts of finished tasks only grow, and stop at the number of tasks. */
  lemma CompletedCounts(p: Pool, t: nat)
    requires t < p.size && forall u :: u in p.finished ==> u < p.size
    ensures |p.finished| <= |Completed(p, t).finished| <= p.size
  {
    FullSet(p.finished + {t}, p.size);
    if t in p.finished {
      assert p.finished + {t} == p.finished;
    }
  }

  lemma CallsStay(s: System, s': System)
    requires Inv(s) && s'.maps.size == s.maps.size && s'.reduces.size == s.reduces.size
    requires |s'.maps.finished| >= |s.maps.finished| && |s'.reduces.finished| >= |s.reduces.finished|
    ensures forall c :: 0 <= c < |s.calls| ==> CallOk(s', s.calls[c])
  {
  }

  lemma TokensStay(s: System, s': System, k: Kind)
    requires Conserved(s, k) && forall t: nat :: Tokens(s', k, t) == Tokens(s, k, t)
    requires PoolOf(s', k).size == PoolOf(s, k).size && PoolOf(s', k).finished == PoolOf(s, k).finished
    ensures Conserved(s', k)
  {
  }

  /** Changing one call moves at most the token it holds. */
  lemma CallChanges(s: System, s': System, c: nat, k: Kind)
    requires Conserved(s, k) && c < |s.calls| == |s'.calls| && s'.calls == s.calls[c := s'.calls[c]]
    requires PoolOf(s', k).size == PoolOf(s, k).size && PoolOf(s', k).finished == PoolOf(s, k).finished
    requires forall t: nat ::
               multiset(PoolOf(s', k).unfinished)[t] + TimersOf(s', k)[t] + (if Holds(s'.calls[c], k, t) then 1 else 0) ==
               multiset(PoolOf(s, k).unfinished)[t] + TimersOf(s, k)[t] + (if Holds(s.calls[c], k, t) then 1 else 0)
    ensures Conserved(s', k)
  {
    hide HeldBy, Conserved;
    forall t: nat ensures Tokens(s', k, t) == Tokens(s, k, t) {
      HeldAfterUpdate(s.calls, c, s'.calls[c], k, t);
    }
    TokensStay(s, s', k);
  }

  lemma NewCallKeeps(s: System)
    requires Inv(s)
    ensures Inv(Next(s, NewCall))
  {
    hide Conserved;
    var s' := Next(s, NewCall);
    CallsStay(s, s');
    assert s'.calls[..|s.calls|] == s.calls;
    TokensStay(s, s', Maps);
    TokensStay(s, s', Reduces);
  }

  lemma LookKeeps(s: System, c: nat)
    requires Inv(s) && Enabled(s, Look(c))
    ensures Inv(Next(s, Look(c)))
  {
    hide Conserved;
    var s' := Next(s, Look(c));
    CallsStay(s, s');
    CallChanges(s, s', c, Maps);
    CallChanges(s, s', c, Reduces);
  }

  lemma PopTokens(p: Pool, t: nat)
    requires p.unfinished != []
    ensures multiset(p.unfinished)[t] ==
              multiset(Popped(p).unfinished)[t] + if t == p.unfinished[|p.unfinished| - 1] then 1 else 0
  {
    assert p.unfinished == Popped(p).unfinished + [p.unfinished[|p.unfinished| - 1]];
  }

  lemma QueuedOk(s: System, k: Kind)
    requires Conserved(s, k) && PoolOf(s, k).unfinished != []
    ensures var q := PoolOf(s, k).unfinished; q[|q| - 1] < PoolOf(s, k).size
  {
    var q := PoolOf(s, k).unfinished;
    assert q[|q| - 1] in multiset(q);
    assert TokensOk(PoolOf(s, k), q[|q| - 1], Tokens(s, k, q[|q| - 1]));
  }

  /** A step of a call that concerns only the other kind of task. */
  lemma OtherKind(s: System, s': System, c: nat, k: Kind)
    requires Conserved(s, k) && c < |s.calls| == |s'.calls| && s'.calls == s.calls[c := s'.calls[c]]
    requires PoolOf(s', k) == PoolOf(s, k) && TimersOf(s', k) == TimersOf(s, k)
    requires forall t: nat :: !Holds(s.calls[c], k, t) && !Holds(s'.calls[c], k, t)
    ensures Conserved(s', k)
  {
    CallChanges(s, s', c, k);
  }

  lemma PopMoves(s: System, s': System, c: nat, k: Kind)
    requires Conserved(s, k) && c < |s.calls| == |s'.calls| && s'.calls == s.calls[c := s'.calls[c]]
    requires !s.calls[c].Popping? && PoolOf(s, k).unfinished != []
    requires PoolOf(s', k) == Popped(PoolOf(s, k)) && TimersOf(s', k) == TimersOf(s, k)
    requires var q, x := PoolOf(s, k).unfinished, s'.calls[c];
             x.Popping? && IsOf(x.task, k) && Number(x.task) == q[|q| - 1]
    ensures Conserved(s', k)
  {
    hide Conserved;
    forall t: nat {
      PopTokens(PoolOf(s, k), t);
    }
    CallChanges(s, s', c, k);
  }

  lemma PopKeeps(s: System, st: Step)
    requires Inv(s) && Enabled(s, st) && (st.PopMap? || st.PopReduce?)
    ensures Inv(Next(s, st))
  {
    hide Conserved;
    var s', kind := Next(s, st), if st.PopMap? then Maps else Reduces;
    assert CallOk(s, s.calls[st.c]);
    CallsStay(s, s');
    OtherKind(s, s', st.c, if st.PopMap? then Reduces else Maps);
    if PoolOf(s, kind).unfinished == [] {
      OtherKind(s, s', st.c, kind);
    } else {
      QueuedOk(s, kind);
      PopMoves(s, s', st.c, kind);
    }
  }

  lemma TimerMoves(s: System, s': System, c: nat, k: Kind)
    requires Conserved(s, k) && c < |s.calls| == |s'.calls| && s'.calls == s.calls[c := s'.calls[c]]
    requires s.calls[c].Popping? && IsOf(s.calls[c].task, k) && !s'.calls[c].Popping?
    requires PoolOf(s', k) == PoolOf(s, k)
    requires TimersOf(s', k) == TimersOf(s, k) + multiset{Number(s.calls[c].task)}
    ensures Conserved(s', k)
  {
    hide Conserved;
    CallChanges(s, s', c, k);
  }

  lemma StartTimerKeeps(s: System, c: nat)
    requires Inv(s) && Enabled(s, StartTimer(c))
    ensures Inv(Next(s, StartTimer(c)))
  {
    hide Conserved;
    var s' := Next(s, StartTimer(c));
    assert CallOk(s, s.calls[c]);
    CallsStay(s, s');
    if s.calls[c].task.MapTask? {
      TimerMoves(s, s', c, Maps);
      OtherKind(s, s', c, Reduces);
    } else {
      TimerMoves(s, s', c, Reduces);
      OtherKind(s, s', c, Maps);
    }
  }

  lemma FireTokens(s: System, s': System, k: Kind, u: nat)
    requires Conserved(s, k) && u in TimersOf(s, k) && s'.calls == s.calls
    requires PoolOf(s', k) == Reset(PoolOf(s, k), u) && TimersOf(s', k) == TimersOf(s, k) - multiset{u}
    ensures Conserved(s', k)
  {
    hide HeldBy;
    forall t: nat ensures TokensOk(PoolOf(s', k), t, Tokens(s', k, t)) {
      assert TokensOk(PoolOf(s, k), t, Tokens(s, k, t));
    }
  }

  lemma FireKeeps(s: System, st: Step)
    requires Inv(s) && Enabled(s, st) && (st.FireMap? || st.FireReduce?)
    ensures Inv(Next(s, st))
  {
    hide Conserved, HeldBy;
    var s' := Next(s, st);
    CallsStay(s, s');
    if st.FireMap? {
      FireTokens(s, s', Maps, st.t);
      TokensStay(s, s', Reduces);
    } else {
      FireTokens(s, s', Reduces, st.t);
      TokensStay(s, s', Maps);
    }
  }

  lemma FinishTokens(s: System, s': System, k: Kind, u: nat)
    requires Conserved(s, k) && u < PoolOf(s, k).size && s'.calls == s.calls && TimersOf(s', k) == TimersOf(s, k)
    requires PoolOf(s', k) == Completed(PoolOf(s, k), u)
    ensures Conserved(s', k)
  {
    hide HeldBy;
    forall t: nat ensures TokensOk(PoolOf(s', k), t, Tokens(s', k, t)) {
      assert TokensOk(PoolOf(s, k), t, Tokens(s, k, t));
    }
  }

  lemma FinishKeeps(s: System, c: nat)
    requires Inv(s) && Enabled(s, Finish(c))
    ensures Inv(Next(s, Finish(c)))
  {
    hide Conserved, HeldBy;
    var s', task := Next(s, Finish(c)), s.calls[c].task;
    assert CallOk(s, s.calls[c]);
    if task.MapTask? {
      FinishTokens(s, s', Maps, task.id);
      TokensStay(s, s', Reduces);
    } else {
      FinishTokens(s, s', Reduces, task.partition);
      TokensStay(s, s', Maps);
    }
    FinishCounts(s, c);
    CallsStay(s, s');
  }

  lemma FinishCounts(s: System, c: nat)
    requires Inv(s) && Enabled(s, Finish(c))
    ensures var s' := Next(s, Finish(c));
            && |s'.maps.finished| >= |s.maps.finished| && |s'.reduces.finished| >= |s.reduces.finished|
            && (AllFinished(s.maps, s.reduces) ==> AllFinished(s'.maps, s'.reduces))
  {
    var task := s.calls[c].task;
    assert CallOk(s, s.calls[c]);
    if task.MapTask? {
      CompletedCounts(s.maps, task.id);
    } else {
      CompletedCounts(s.reduces, task.partition);
    }
  }

  lemma ReportKeeps(s: System, st: Step)
    requires Inv(s) && Enabled(s, st) && (st.Read? || st.Write?)
    ensures Inv(Next(s, st))
  {
    hide Conserved, CallOk;
    var s' := Next(s, st);
    CallsStay(s, s');
    TokensSame(s, s', Maps);
    TokensSame(s, s', Reduces);
  }

  lemma TokensSame(s: System, s': System, k: Kind)
    requires Conserved(s, k) && s'.calls == s.calls && PoolOf(s', k) == PoolOf(s, k) && TimersOf(s', k) == TimersOf(s, k)
    ensures Conserved(s', k)
  {
    TokensStay(s, s', k);
  }

  lemma StepKeepsInv(s: System, st: Step)
    requires Inv(s) && Enabled(s, st)
    ensures Inv(Next(s, st))
  {
    hide Inv;
    match st
    case NewCall => NewCallKeeps(s);
    case Look(c) => LookKeeps(s, c);
    case PopMap(_) => PopKeeps(s, st);
    case PopReduce(_) => PopKeeps(s, st);
    case StartTimer(c) => StartTimerKeeps(s, c);
    case FireMap(_) => FireKeeps(s, st);
    case FireReduce(_) => FireKeeps(s, st);
    case Finish(c) => FinishKeeps(s, c);
    case Read(_) => ReportKeeps(s, st);
    case Write(_) => ReportKeeps(s, st);
  }

  lemma {:induction false} RangeCounts(n: nat, t: nat)
    ensures multiset(Range(n))[t] == if t < n then 1 else 0
    decreases n
  {
    if n > 0 {
      RangeCounts(n - 1, t);
      assert Range(n) == Range(n - 1) + [n - 1];
    }
  }

  lemma BootHasInv(nMap: nat, nReduce: nat)
    ensures Inv(Boot(nMap, nReduce))
  {
    var s := Boot(nMap, nReduce);
    forall t: nat ensures Tokens(s, Maps, t) == (if t < nMap then 1 else 0) && Tokens(s, Reduces, t) == if t < nReduce then 1 else 0 {
      RangeCounts(nMap, t);
      RangeCounts(nReduce, t);
    }
  }

  // ------------------------------------------------------------ whole runs

  ghost predicate IsRun(nMap: nat, nReduce: nat, states: seq<System>, steps: seq<Step>) {
    && |states| == |steps| + 1 && states[0] == Boot(nMap, nReduce)
    && forall i :: 0 <= i < |steps| ==> Enabled(states[i], steps[i]) && states[i + 1] == Next(states[i], steps[i])
  }

  lemma {:induction false} InvAt(nMap: nat, nReduce: nat, states: seq<System>, steps: seq<Step>, i: nat)
    requires IsRun(nMap, nReduce, states, steps) && i < |states|
    ensures Inv(states[i]) && states[i].maps.size == nMap && states[i].reduces.size == nReduce
    decreases i
  {
    hide Inv, Next, Enabled;
    if i == 0 {
      BootHasInv(nMap, nReduce);
    } else {
      InvAt(nMap, nReduce, states, steps, i - 1);
      StepKeepsInv(states[i - 1], steps[i - 1]);
      SameSizes(states[i - 1], steps[i - 1]);
    }
  }

  lemma SameSizes(s: System, st: Step)
    requires Enabled(s, st)
    ensures Next(s, st).maps.size == s.maps.size && Next(s, st).reduces.size == s.reduces.size
  {
  }

  /** Every unfinished task has exactly one token in the queue, in a call, or in a timer; none has two. */
  lemma TokensConserved(nMap: nat, nReduce: nat, states: seq<System>, steps: seq<Step>, i: nat, k: Kind, t: nat)
    requires IsRun(nMap, nReduce, states, steps) && i < |states|
    ensures Tokens(states[i], k, t) <= 1
    ensures t < PoolOf(states[i], k).size && t !in PoolOf(states[i], k).finished ==> Tokens(states[i], k, t) == 1
  {
    InvAt(nMap, nReduce, states, steps, i);
    assert TokensOk(PoolOf(states[i], k), t, Tokens(states[i], k, t));
  }

  // ------------------------------------------------------ reports decide

  function TaskOf(k: Kind, t: nat): Task {
    if k == Maps then MapTask(t) else ReduceTask(t)
  }

  /** The step is the report of a worker that was given task t. */
  predicate Reports(s: System, st: Step, k: Kind, t: nat) {
    st.Finish? && st.c < |s.calls| && s.calls[st.c] == Answered(TaskOf(k, t))
  }

  /** Some worker that was given task t has reported it before time j. */
  ghost predicate Reported(states: seq<System>, steps: seq<Step>, j: nat, k: Kind, t: nat)
    requires j <= |steps| < |states|
  {
    exists i :: 0 <= i < j && Reports(states[i], steps[i], k, t)
  }

  lemma FinishedStep(s: System, st: Step, k: Kind, t: nat)
    requires Enabled(s, st)
    ensures t in PoolOf(Next(s, st), k).finished <==> t in PoolOf(s, k).finished || Reports(s, st, k, t)
  {
  }

  /** A task counts as finished exactly when a worker that was given it has reported it. */
  lemma {:induction false} FinishedIffReported(
    nMap: nat, nReduce: nat, states: seq<System>, steps: seq<Step>, j: nat, k: Kind, t: nat)
    requires IsRun(nMap, nReduce, states, steps) && j < |states|
    ensures t in PoolOf(states[j], k).finished <==> Reported(states, steps, j, k, t)
    decreases j
  {
    hide Next, Enabled, Reports;
    if j > 0 {
      FinishedIffReported(nMap, nReduce, states, steps, j - 1, k, t);
      FinishedStep(states[j - 1], steps[j - 1], k, t);
    }
  }

  ghost predicate AllReported(states: seq<System>, steps: seq<Step>, j: nat, k: Kind, n: nat)
    requires j <= |steps| < |states|
  {
    forall t: nat :: t < n ==> Reported(states, steps, j, k, t)
  }

  /** The count of finished tasks is full exactly when every task has been reported. */
  lemma FullIffReported(nMap: nat, nReduce: nat, states: seq<System>, steps: seq<Step>, j: nat, k: Kind)
    requires IsRun(nMap, nReduce, states, steps) && j < |states|
    ensures var n := if k == Maps then nMap else nReduce;
            && PoolOf(states[j], k).size == n && |PoolOf(states[j], k).finished| <= n
            && (|PoolOf(states[j], k).finished| == n <==> AllReported(states, steps, j, k, n))
  {
    hide Reported, Next, Enabled;
    var p := PoolOf(states[j], k);
    InvAt(nMap, nReduce, states, steps, j);
    FullSet(p.finished, p.size);
    forall t: nat ensures t in p.finished <==> Reported(states, steps, j, k, t) {
      FinishedIffReported(nMap, nReduce, states, steps, j, k, t);
    }
    if AllReported(states, steps, j, k, p.size) {
      FullCount(p.finished, p.size);
    }
  }

  lemma {:induction false} FullCount(s: set<nat>, n: nat)
    requires forall t: nat :: t < n ==> t in s
    ensures |s| >= n
    decreases n
  {
    if n > 0 {
      FullCount(s - {n - 1}, n - 1);
    }
  }

  /**
   What a call does next, when it looks: a map task as long as one has not been
   reported, then a reduce task as long as one has not been reported, then Terminate.
   */
  lemma LookFollowsReports(nMap: nat, nReduce: nat, states: seq<System>, steps: seq<Step>, i: nat)
    requires IsRun(nMap, nReduce, states, steps) && i < |steps| && steps[i].Look?
    ensures steps[i].c < |states[i + 1].calls|
    ensures states[i + 1].calls[steps[i].c] ==
              if !AllReported(states, steps, i, Maps, nMap) then WillPopMap
              else if !AllReported(states, steps, i, Reduces, nReduce) then WillPopReduce
              else Answered(Terminate)
  {
    hide Reported;
    FullIffReported(nMap, nReduce, states, steps, i, Maps);
    FullIffReported(nMap, nReduce, states, steps, i, Reduces);
  }

  /** The task a call has been given, or is about to be. */
  predicate Has(s: System, c: nat, task: Task) {
    c < |s.calls| && (s.calls[c] == Popping(task) || s.calls[c] == Answered(task))
  }

  /** Call c takes the task from the end of its queue. */
  predicate Takes(s: System, st: Step, c: nat, k: Kind, t: nat) {
    var q := PoolOf(s, k).unfinished;
    st == (if k == Maps then PopMap(c) else PopReduce(c)) && q != [] && q[|q| - 1] == t
  }

  lemma TakenStep(s: System, st: Step, c: nat, k: Kind, t: nat)
    requires Enabled(s, st)
    ensures Has(Next(s, st), c, TaskOf(k, t)) <==> Has(s, c, TaskOf(k, t)) || Takes(s, st, c, k, t)
  {
    if st.PopMap? || st.PopReduce? {
      TakenByPop(s, st, c, k, t);
    } else {
      TakenBefore(s, st, c, TaskOf(k, t));
    }
  }

  lemma TakenByPop(s: System, st: Step, c: nat, k: Kind, t: nat)
    requires Enabled(s, st) && (st.PopMap? || st.PopReduce?)
    ensures Has(Next(s, st), c, TaskOf(k, t)) <==> Has(s, c, TaskOf(k, t)) || Takes(s, st, c, k, t)
  {
    hide Popped;
  }

  lemma TakenBefore(s: System, st: Step, c: nat, task: Task)
    requires Enabled(s, st) && !st.PopMap? && !st.PopReduce? && !task.Terminate?
    ensures Has(Next(s, st), c, task) <==> Has(s, c, task)
  {
    if !st.NewCall? && !st.Look? && !st.StartTimer? {
      CallsUntouched(s, st);
      hide Next;
    }
  }

  lemma CallsUntouched(s: System, st: Step)
    requires Enabled(s, st) && (st.FireMap? || st.FireReduce? || st.Finish? || st.Read? || st.Write?)
    ensures Next(s, st).calls == s.calls
  {
  }

  /** A call has been given exactly the task it took from the queue. */
  lemma {:induction false} GivenIffTaken(
    nMap: nat, nReduce: nat, states: seq<System>, steps: seq<Step>, j: nat, c: nat, k: Kind, t: nat)
    requires IsRun(nMap, nReduce, states, steps) && j < |states|
    ensures Has(states[j], c, TaskOf(k, t)) <==> exists i :: 0 <= i < j && Takes(states[i], steps[i], c, k, t)
    decreases j
  {
    hide Next, Enabled, Takes, Has;
    if j == 0 {
      NothingGiven(nMap, nReduce, c, TaskOf(k, t));
    } else {
      GivenIffTaken(nMap, nReduce, states, steps, j - 1, c, k, t);
      TakenStep(states[j - 1], steps[j - 1], c, k, t);
    }
  }

  lemma NothingGiven(nMap: nat, nReduce: nat, c: nat, task: Task)
    ensures !Has(Boot(nMap, nReduce), c, task)
  {
  }

  /** A timer puts its task at the end of the queue exactly when nobody has reported the task by then. */
  lemma ResetFollowsReports(nMap: nat, nReduce: nat, states: seq<System>, steps: seq<Step>, i: nat, k: Kind)
    requires IsRun(nMap, nReduce, states, steps) && i < |steps|
    requires if k == Maps then steps[i].FireMap? else steps[i].FireReduce?
    ensures PoolOf(states[i + 1], k).unfinished ==
              PoolOf(states[i], k).unfinished + if Reported(states, steps, i, k, steps[i].t) then [] else [steps[i].t]
  {
    FinishedIffReported(nMap, nReduce, states, steps, i, k, steps[i].t);
  }

  /** A reduce task has been handed out only if every map task has been reported, Terminate only if everything has. */
  lemma PhaseOrder(nMap: nat, nReduce: nat, states: seq<System>, steps: seq<Step>, i: nat, c: nat)
    requires IsRun(nMap, nReduce, states, steps) && i < |states| && c < |states[i].calls|
    ensures states[i].calls[c].Answered? && !states[i].calls[c].task.MapTask? ==> AllReported(states, steps, i, Maps, nMap)
    ensures states[i].calls[c] == Answered(Terminate) ==> AllReported(states, steps, i, Reduces, nReduce)
  {
    hide IsRun, AllReported;
    InvAt(nMap, nReduce, states, steps, i);
    assert CallOk(states[i], states[i].calls[c]);
    FullIffReported(nMap, nReduce, states, steps, i, Maps);
    FullIffReported(nMap, nReduce, states, steps, i, Reduces);
  }

  /** Done is reported only when every task of both kinds has been reported. */
  lemma DoneMeansFinished(nMap: nat, nReduce: nat, states: seq<System>, steps: seq<Step>, i: nat)
    requires IsRun(nMap, nReduce, states, steps) && i < |states| && states[i].done
    ensures AllReported(states, steps, i, Maps, nMap) && AllReported(states, steps, i, Reduces, nReduce)
  {
    hide IsRun, AllReported;
    InvAt(nMap, nReduce, states, steps, i);
    FullIffReported(nMap, nReduce, states, steps, i, Maps);
    FullIffReported(nMap, nReduce, states, steps, i, Reduces);
  }

  /** Only reading the counts makes a report decide, and only writing it changes `done`. */
  lemma ReportStep(s: System, st: Step, k: Kind)
    requires Enabled(s, st)
    ensures st != Read(k) && ReportOf(Next(s, st), k).Decided? ==> ReportOf(s, k) == ReportOf(Next(s, st), k)
    ensures st == Read(k) ==> ReportOf(Next(s, st), k) == Decided(AllFinished(s.maps, s.reduces))
    ensures Next(s, st).done == if st.Write? then ReportOf(s, st.k).value else s.done
  {
  }

  /** A report's decision stands, from its reading of the counts to its writing of `done`. */
  lemma {:induction false} DecisionStands(
    nMap: nat, nReduce: nat, states: seq<System>, steps: seq<Step>, k: Kind, m: nat, w: nat)
    requires IsRun(nMap, nReduce, states, steps) && m <= w < |steps| && steps[w] == Write(k)
    requires forall i :: m <= i < w ==> steps[i] != Read(k)
    ensures ReportOf(states[m], k) == ReportOf(states[w], k) && ReportOf(states[w], k).Decided?
    decreases w - m
  {
    assert Enabled(states[w], steps[w]);
    hide Next, Enabled;
    if m < w {
      DecisionStands(nMap, nReduce, states, steps, k, m + 1, w);
      ReportStep(states[m], steps[m], k);
    }
  }

  lemma {:induction false} DoneStands(nMap: nat, nReduce: nat, states: seq<System>, steps: seq<Step>, w: nat, j: nat)
    requires IsRun(nMap, nReduce, states, steps) && w <= j < |states|
    requires forall i :: w <= i < j ==> !steps[i].Write?
    ensures states[j].done == states[w].done
    decreases j
  {
    hide Next, Enabled;
    if w < j {
      DoneStands(nMap, nReduce, states, steps, w, j - 1);
      ReportStep(states[j - 1], steps[j - 1], Maps);
    }
  }

  /** As long as no report has stored anything, `done` is as it began. */
  lemma {:induction false} DoneBegins(nMap: nat, nReduce: nat, states: seq<System>, steps: seq<Step>, j: nat)
    requires IsRun(nMap, nReduce, states, steps) && j < |states|
    requires forall i :: 0 <= i < j ==> !steps[i].Write?
    ensures !states[j].done
    decreases j
  {
    hide Next, Enabled;
    if j > 0 {
      DoneBegins(nMap, nReduce, states, steps, j - 1);
      ReportStep(states[j - 1], steps[j - 1], Maps);
    }
  }

  /** A report that has decided has read the counts, and nobody has decided under its lock since. */
  lemma {:induction false} DecidedByRead(nMap: nat, nReduce: nat, states: seq<System>, steps: seq<Step>, k: Kind, w: nat)
    returns (r: nat)
    requires IsRun(nMap, nReduce, states, steps) && w < |states| && ReportOf(states[w], k).Decided?
    ensures r < w && steps[r] == Read(k) && forall i :: r < i < w ==> steps[i] != Read(k)
    decreases w
  {
    hide Next, Enabled;
    ReportStep(states[w - 1], steps[w - 1], k);
    if steps[w - 1] == Read(k) {
      r := w - 1;
    } else {
      r := DecidedByRead(nMap, nReduce, states, steps, k, w - 1);
    }
  }

  lemma {:induction false} LastWrite(steps: seq<Step>, j: nat) returns (w: int)
    requires j <= |steps|
    ensures -1 <= w < j && (w >= 0 ==> steps[w].Write?) && forall i :: w < i < j ==> !steps[i].Write?
  {
    if j == 0 || steps[j - 1].Write? {
      w := j - 1;
    } else {
      w := LastWrite(steps, j - 1);
    }
  }

  /** What `done` tells at time j: the last report to store it was w, and had read the counts at r; -1 for none. */
  ghost predicate DoneTells(nMap: nat, nReduce: nat, states: seq<System>, steps: seq<Step>, r: int, w: int, j: nat)
    requires |states| == |steps| + 1 && j < |states|
  {
    && -1 <= r <= w < j && (forall i :: w < i < j ==> !steps[i].Write?)
    && if w == -1 then !states[j].done
       else && 0 <= r < w && steps[w].Write? && steps[r] == Read(steps[w].k)
            && (forall i :: r < i < w ==> steps[i] != steps[r])
            && (states[j].done <==>
                AllReported(states, steps, r, Maps, nMap) && AllReported(states, steps, r, Reduces, nReduce))
  }

  /**
   At every moment of every run: either no report has stored `done` yet, and it is
   false even in a job without tasks, or there is a last one that did, it read the
   counts before, and `done` tells whether all tasks had been reported by then.
   */
  lemma DoneIff(nMap: nat, nReduce: nat, states: seq<System>, steps: seq<Step>, j: nat) returns (r: int, w: int)
    requires IsRun(nMap, nReduce, states, steps) && j < |states|
    ensures DoneTells(nMap, nReduce, states, steps, r, w, j)
  {
    hide AllReported;
    w := LastWrite(steps, j);
    if w == -1 {
      r := -1;
      DoneBegins(nMap, nReduce, states, steps, j);
    } else {
      var k := steps[w].k;
      assert Enabled(states[w], steps[w]);
      r := DecidedByRead(nMap, nReduce, states, steps, k, w);
      DecisionStands(nMap, nReduce, states, steps, k, r + 1, w);
      DoneStands(nMap, nReduce, states, steps, w + 1, j);
      hide Next;
      ReportStep(states[r], steps[r], k);
      ReportStep(states[w], steps[w], k);
      FullIffReported(nMap, nReduce, states, steps, r, Maps);
      FullIffReported(nMap, nReduce, states, steps, r, Reduces);
    }
  }

  ghost predicate Reachable(nMap: nat, nReduce: nat, s: System) {
    exists states, steps :: IsRun(nMap, nReduce, states, steps) && states[|steps|] == s
  }

  lemma BootReachable(nMap: nat, nReduce: nat)
    ensures Reachable(nMap, nReduce, Boot(nMap, nReduce))
  {
    assert IsRun(nMap, nReduce, [Boot(nMap, nReduce)], []);
  }

  lemma NextReachable(nMap: nat, nReduce: nat, s: System, st: Step)
    requires Reachable(nMap, nReduce, s) && Enabled(s, st)
    ensures Reachable(nMap, nReduce, Next(s, st))
  {
    var states, steps :| IsRun(nMap, nReduce, states, steps) && states[|steps|] == s;
    hide Next, Enabled;
    var more, taken := states + [Next(s, st)], steps + [st];
    assert more[|taken|] == Next(s, st);
    forall i | 0 <= i < |taken| ensures Enabled(more[i], taken[i]) && more[i + 1] == Next(more[i], taken[i]) {
      assert more[i] == states[i];
    }
    assert IsRun(nMap, nReduce, more, taken);
  }

  /** A new call takes the last map task and starts its timer. */
  lemma TakesMap(s: System) returns (s': System)
    requires Reachable(1, 1, s) && s.maps == Pool(1, [0], {}) && s.mapReport.Free?
    ensures Reachable(1, 1, s')
    ensures s' == s.(maps := Pool(1, [], {}), calls := s.calls + [Answered(MapTask(0))],
                     mapTimers := s.mapTimers + multiset{0})
  {
    hide Reachable;
    var c := |s.calls|;
    var s1 := s.(calls := s.calls + [Looking]);
    NextReachable(1, 1, s, NewCall);
    var s2 := s.(calls := s.calls + [WillPopMap]);
    assert s2 == Next(s1, Look(c));
    NextReachable(1, 1, s1, Look(c));
    var s3 := s.(maps := Pool(1, [], {}), calls := s.calls + [Popping(MapTask(0))]);
    assert s3 == Next(s2, PopMap(c));
    NextReachable(1, 1, s2, PopMap(c));
    NextReachable(1, 1, s3, StartTimer(c));
    s' := Next(s3, StartTimer(c));
    assert s'.calls == s.calls + [Answered(MapTask(0))];
  }

  /** The same for the last reduce task, once the map task has finished. */
  lemma TakesReduce(s: System) returns (s': System)
    requires Reachable(1, 1, s) && s.maps == Pool(1, [], {0}) && s.reduces == Pool(1, [0], {}) && s.reduceReport.Free?
    ensures Reachable(1, 1, s')
    ensures s' == s.(reduces := Pool(1, [], {}), calls := s.calls + [Answered(ReduceTask(0))],
                     reduceTimers := s.reduceTimers + multiset{0})
  {
    hide Reachable;
    var c := |s.calls|;
    var s1 := s.(calls := s.calls + [Looking]);
    NextReachable(1, 1, s, NewCall);
    var s2 := s.(calls := s.calls + [WillPopReduce]);
    assert s2 == Next(s1, Look(c));
    NextReachable(1, 1, s1, Look(c));
    var s3 := s.(reduces := Pool(1, [], {}), calls := s.calls + [Popping(ReduceTask(0))]);
    assert s3 == Next(s2, PopReduce(c));
    NextReachable(1, 1, s2, PopReduce(c));
    NextReachable(1, 1, s3, StartTimer(c));
    s' := Next(s3, StartTimer(c));
    assert s'.calls == s.calls + [Answered(ReduceTask(0))];
  }

  /** The only map task is handed out twice, because its first timer fires. */
  lemma MapTakenTwice() returns (s: System)
    ensures Reachable(1, 1, s) && s.calls == [Answered(MapTask(0)), Answered(MapTask(0))]
    ensures s.maps == Pool(1, [], {}) && s.reduces == Pool(1, [0], {}) && s.mapReport == s.reduceReport == Free
  {
    hide Reachable;
    s := Boot(1, 1);
    BootReachable(1, 1);
    assert Range(1) == [0];
    s := TakesMap(s);
    NextReachable(1, 1, s, FireMap(0));
    s := Next(s, FireMap(0));
    s := TakesMap(s);
  }

  /** The first of its workers reports it. */
  lemma MapReportedOnce() returns (s: System)
    ensures Reachable(1, 1, s) && s.calls == [Answered(MapTask(0)), Answered(MapTask(0))]
    ensures s.maps == Pool(1, [], {0}) && s.reduces == Pool(1, [0], {}) && s.mapReport == s.reduceReport == Free
  {
    hide Reachable;
    s := MapTakenTwice();
    NextReachable(1, 1, s, Finish(0));
    s := Next(s, Finish(0));
    NextReachable(1, 1, s, Read(Maps));
    s := Next(s, Read(Maps));
    NextReachable(1, 1, s, Write(Maps));
    s := Next(s, Write(Maps));
  }

  /**
   While the second worker reports the map task, having read the counts, the reduce
   task is reported and `done` becomes true; then the late report stores what it
   had read.
   */
  lemma DoneIsLost() returns (s: System)
    ensures Reachable(1, 1, s)
    ensures AllFinished(s.maps, s.reduces) && s.mapReport.Free? && s.reduceReport.Free? && !s.done
  {
    hide Reachable;
    s := MapReportedOnce();
    s := TakesReduce(s);
    NextReachable(1, 1, s, Finish(1));
    s := Next(s, Finish(1));
    NextReachable(1, 1, s, Read(Maps));
    s := Next(s, Read(Maps));
    NextReachable(1, 1, s, Finish(2));
    s := Next(s, Finish(2));
    NextReachable(1, 1, s, Read(Reduces));
    s := Next(s, Read(Reduces));
    NextReachable(1, 1, s, Write(Reduces));
    s := Next(s, Write(Reduces));
    NextReachable(1, 1, s, Write(Maps));
    s := Next(s, Write(Maps));
  }
}
