/**
 The rendezvous of src/kvraft/server.go between the apply loop and the handlers
 that wait for their command: Operation registers in nWaitingHandlers and waits
 on a condition variable, apply counts who waits for the index it delivers and
 then receives that many signals from an unbuffered channel, and cleanupHandler
 sends one when the index just applied is its own.  A handler keeps kv.mu from its
 wake-up until it waits again or returns, also while it is blocked sending.  The
 copy of Raft's term that handlers compare with is refreshed without kv.mu, so
 each look at it is a step of its own.
 */
module KvRendezvous {

  /**
   Where a call of Operation is: at the test of its wait loop, between a test that
   held and the wait, waiting, woken and in need of kv.mu, between the loop and the
   second look at the term, sending its signal, or gone.
   */
  datatype Phase = Testing | Settling | Asleep | Awake | Checking | Sending | Left

  /** ErrWrongLeader, or the index of the apply message the answer is taken from. */
  datatype Outcome = Open | WrongLeader | Took(index: int)

  /** One call that got as far as registering; byIndex: it left the loop by the test of the index. */
  datatype Handler = Handler(
    index: int, term: int, phase: Phase, byIndex: bool, counted: bool, sent: nat, outcome: Outcome)

  /** What the apply loop is doing: nothing, or receiving signals for an index. */
  datatype Loop = Idle | Receiving(index: int, expected: nat, received: nat)

  /** log.Fatalf in Operation, or its type assertion on a message that has no command. */
  datatype Status = Running | Fatal | Panicked

  /** `term` is raftT; rousing: it was stored and the broadcast is still to come. */
  datatype System = System(
    handlers: seq<Handler>,
    waiting: map<int, int>,
    lastIndex: int,
    term: int,
    rousing: bool,
    startTerm: int,
    startIndex: int,
    lock: int,
    loop: Loop,
    status: Status)

  datatype Step =
    | Register(index: int, term: int)
    | Test(h: nat)
    | Settle(h: nat)
    | Wake(h: nat)
    | Check(h: nat)
    | Signal(h: nat)
    | Deliver
    | NewTerm(t: int)
    | Rouse

  function Boot(): System {
    System([], map[], 0, 0, false, 0, 0, -1, Idle, Running)
  }

  function WaitingOn(waiting: map<int, int>, index: int): int {
    if index in waiting then waiting[index] else 0
  }

  /**
   What Start promises, proved of Raft as KvReplicas.StartIsAllowed: terms do not go
   back, indices grow within a term, a log that had an entry is never empty again, and
   the new index has not been delivered.
   */
  predicate CanStart(s: System, index: int, term: int) {
    && index > s.lastIndex && term >= 1 && term >= s.term
    && (term > s.startTerm || (term == s.startTerm && index > s.startIndex))
    && (s.startTerm >= 1 ==> index >= 2)
  }

  predicate Enabled(s: System, st: Step) {
    s.status == Running &&
    match st
    case Register(index, term) => s.lock == -1 && CanStart(s, index, term)
    case Test(h) => Holds(s, h, Testing)
    case Settle(h) => Holds(s, h, Settling)
    case Wake(h) => s.lock == -1 && h < |s.handlers| && s.handlers[h].phase == Awake
    case Check(h) => Holds(s, h, Checking)
    case Signal(h) => Holds(s, h, Sending) && s.loop.Receiving?
    case Deliver => s.lock == -1 && s.loop.Idle?
    case NewTerm(t) => !s.rousing && t > s.term
    case Rouse => s.rousing
  }

  predicate Holds(s: System, h: nat, phase: Phase) {
    s.lock == h < |s.handlers| && s.handlers[h].phase == phase
  }

  function Put(s: System, h: nat, x: Handler, lock: int): System
    requires h < |s.handlers|
  {
    s.(handlers := s.handlers[h := x], lock := lock)
  }

  function Next(s: System, st: Step): System
    requires Enabled(s, st)
  {
    match st
    case Register(index, term) =>
      var s1 := s.(startTerm := term, startIndex := index);
      if WaitingOn(s.waiting, index) != 0 then s1.(status := Fatal)
      else s1.(waiting := s.waiting[index := WaitingOn(s.waiting, index) + 1], lock := |s.handlers|,
               handlers := s.handlers + [Handler(index, term, Testing, false, false, 0, Open)])
    case Test(h) =>
      var x := s.handlers[h];
      if x.term == s.term && s.lastIndex < x.index then Put(s, h, x.(phase := Settling), h)
      else Put(s, h, x.(phase := Checking, byIndex := x.term == s.term), h)
    case Settle(h) => Put(s, h, s.handlers[h].(phase := Asleep), -1)
    case Wake(h) => Put(s, h, s.handlers[h].(phase := Testing), h)
    case Check(h) =>
      var x := s.handlers[h];
      if x.term == s.term && s.lastIndex == 0 then s.(status := Panicked)
      else
        var outcome := if x.term != s.term then WrongLeader else Took(s.lastIndex);
        var own := s.lastIndex == x.index;
        Put(s, h, x.(outcome := outcome, phase := if own then Sending else Left), if own then h else -1)
          .(waiting := s.waiting[x.index := WaitingOn(s.waiting, x.index) - 1])
    case Signal(h) =>
      var x := s.handlers[h];
      var got := s.loop.received + 1;
      Put(s, h, x.(phase := Left, sent := x.sent + 1), -1)
        .(loop := if got == s.loop.expected then Idle else s.loop.(received := got))
    case Deliver =>
      var i := s.lastIndex + 1;
      var n := WaitingOn(s.waiting, i);
      s.(lastIndex := i,
         handlers := Told(s.handlers, i, n != 0),
         loop := if n <= 0 then Idle else Receiving(i, n, 0))
    case NewTerm(t) => s.(term := t, rousing := true)
    case Rouse => s.(rousing := false, handlers := Told(s.handlers, -1, true))
  }

  /** Registered and not yet cleaned up. */
  predicate Registered(x: Handler) {
    x.phase != Sending && x.phase != Left
  }

  /** Apply counts those that wait for index i; a broadcast wakes all that are asleep. */
  function Tell(x: Handler, i: int, broadcast: bool): Handler {
    var y := if Registered(x) && x.index == i then x.(counted := true) else x;
    if broadcast && y.phase == Asleep then y.(phase := Awake) else y
  }

  function Told(handlers: seq<Handler>, i: int, broadcast: bool): (r: seq<Handler>)
    ensures |r| == |handlers|
    ensures forall h :: 0 <= h < |r| ==> r[h] == Tell(handlers[h], i, broadcast)
  {
    seq(|handlers|, h requires 0 <= h < |handlers| => Tell(handlers[h], i, broadcast))
  }

  // ------------------------------------------------------------ invariant

  /** The table has one for an index exactly when one handler is registered for it. */
  ghost predicate TableOk(s: System, i: int) {
    && 0 <= WaitingOn(s.waiting, i) <= 1
    && (WaitingOn(s.waiting, i) == 1 <==> exists h :: 0 <= h < |s.handlers| && WaitsFor(s, h, i))
    && (forall h, h' :: 0 <= h < |s.handlers| && 0 <= h' < |s.handlers| && WaitsFor(s, h, i) && WaitsFor(s, h', i) ==> h == h')
  }

  ghost predicate WaitsFor(s: System, h: int, i: int)
    requires 0 <= h < |s.handlers|
  {
    Registered(s.handlers[h]) && s.handlers[h].index == i
  }

  /** A handler's index has not been passed, and it is counted exactly when it has been reached. */
  ghost predicate Ahead(s: System, x: Handler) {
    && x.sent == 0 && x.index >= s.lastIndex && (x.counted <==> x.index == s.lastIndex)
    && (x.counted ==> s.loop == Receiving(s.lastIndex, 1, 0))
  }

  ghost predicate PhaseOk(s: System, h: nat, x: Handler) {
    match x.phase
    case Testing => s.lock == h && Ahead(s, x) && (x.term <= s.term || x.index > s.lastIndex)
    case Settling => s.lock == h && Ahead(s, x) && x.term <= s.term && x.index > s.lastIndex
    case Asleep => Ahead(s, x) && x.term <= s.term && x.index > s.lastIndex
    case Awake => Ahead(s, x) && x.term <= s.term
    case Checking =>
      && s.lock == h && Ahead(s, x)
      && (if x.byIndex then x.index == s.lastIndex else x.term < s.term || x.index > s.lastIndex)
    case Sending => s.lock == h && Ahead(s, x) && x.counted && OutcomeOk(s, x)
    case Left => x.sent == (if x.counted then 1 else 0) && OutcomeOk(s, x)
  }

  ghost predicate OutcomeOk(s: System, x: Handler) {
    x.outcome.Took? ==>
      && 1 <= x.outcome.index <= s.lastIndex
      && x.outcome.index <= x.index && (x.outcome.index == x.index <==> x.byIndex)
  }

  ghost predicate HandlerOk(s: System, h: nat)
    requires h < |s.handlers|
  {
    var x := s.handlers[h];
    && x.index >= 1
    && 1 <= x.term <= s.startTerm && (x.term == s.startTerm ==> x.index <= s.startIndex)
    && (Registered(x) ==> x.outcome == Open)
    && PhaseOk(s, h, x)
  }

  /** While the loop receives, the one handler it counted has still to signal. */
  ghost predicate LoopOk(s: System) {
    s.loop.Receiving? ==>
      && s.loop == Receiving(s.lastIndex, 1, 0)
      && exists h :: 0 <= h < |s.handlers| && Owes(s, h)
  }

  ghost predicate Owes(s: System, h: int)
    requires 0 <= h < |s.handlers|
  {
    s.handlers[h].counted && s.handlers[h].phase != Left
  }

  ghost predicate OneOwes(s: System) {
    forall g, h :: 0 <= g < |s.handlers| && 0 <= h < |s.handlers| && Owes(s, g) && Owes(s, h) ==> g == h
  }

  ghost predicate Inv(s: System) {
    && (forall i :: TableOk(s, i))
    && (forall h :: 0 <= h < |s.handlers| ==> HandlerOk(s, h))
    && LoopOk(s)
    && OneOwes(s)
    && s.lastIndex >= 0
    && -1 <= s.lock < |s.handlers|
    && (s.lock >= 0 ==> HasLock(s.handlers[s.lock].phase))
  }

  predicate HasLock(phase: Phase) {
    phase == Testing || phase == Settling || phase == Checking || phase == Sending
  }

  lemma StepKeepsInv(s: System, st: Step)
    requires Inv(s) && Enabled(s, st)
    ensures Inv(Next(s, st))
  {
    hide Inv;
    match st
    case Register(index, term) => RegisterKeeps(s, index, term);
    case Test(h) => MoveKeeps(s, st, h);
    case Settle(h) => MoveKeeps(s, st, h);
    case Wake(h) => MoveKeeps(s, st, h);
    case Check(h) => CheckKeeps(s, h);
    case Signal(h) => SignalKeeps(s, h);
    case Deliver => DeliverKeeps(s);
    case NewTerm(t) => NewTermKeeps(s, t);
    case Rouse => RouseKeeps(s);
  }

  /** The table and the debt of the loop do not look at anything but the registered handlers. */
  lemma TablesSame(s: System, s': System)
    requires Inv(s) && |s'.handlers| == |s.handlers| && s'.waiting == s.waiting
    requires forall h, i :: 0 <= h < |s.handlers| ==> (WaitsFor(s', h, i) <==> WaitsFor(s, h, i))
    ensures forall i :: TableOk(s', i)
  {
    forall i ensures TableOk(s', i) {
      assert TableOk(s, i);
    }
  }

  lemma LoopSame(s: System, s': System)
    requires Inv(s) && |s'.handlers| >= |s.handlers| && s'.loop == s.loop && s'.lastIndex == s.lastIndex
    requires forall h :: 0 <= h < |s'.handlers| ==> (Owes(s', h) <==> h < |s.handlers| && Owes(s, h))
    ensures LoopOk(s') && OneOwes(s')
  {
    if s.loop.Receiving? {
      var h :| 0 <= h < |s.handlers| && Owes(s, h);
      assert Owes(s', h);
    }
  }

  /** Test, Settle and Wake: one handler moves on and stays registered. */
  lemma MoveKeeps(s: System, st: Step, h: nat)
    requires Inv(s) && Enabled(s, st) && (st == Test(h) || st == Settle(h) || st == Wake(h))
    ensures Inv(Next(s, st))
  {
    var s' := Next(s, st);
    assert HandlerOk(s, h);
    TablesSame(s, s');
    LoopSame(s, s');
    forall g | 0 <= g < |s.handlers| ensures HandlerOk(s', g) {
      assert HandlerOk(s, g);
    }
  }

  lemma NewTermKeeps(s: System, t: int)
    requires Inv(s) && Enabled(s, NewTerm(t))
    ensures Inv(Next(s, NewTerm(t)))
  {
    var s' := Next(s, NewTerm(t));
    TablesSame(s, s');
    LoopSame(s, s');
    forall g | 0 <= g < |s.handlers| ensures HandlerOk(s', g) {
      assert HandlerOk(s, g);
    }
  }

  lemma RouseKeeps(s: System)
    requires Inv(s) && Enabled(s, Rouse)
    ensures Inv(Next(s, Rouse))
  {
    var s' := Next(s, Rouse);
    forall g | 0 <= g < |s.handlers| ensures HandlerOk(s', g) && s'.handlers[g].counted == s.handlers[g].counted {
      assert HandlerOk(s, g);
    }
    TablesSame(s, s');
    LoopSame(s, s');
  }

  lemma RegisterKeeps(s: System, index: int, term: int)
    requires Inv(s) && Enabled(s, Register(index, term))
    ensures Inv(Next(s, Register(index, term)))
  {
    var s', n := Next(s, Register(index, term)), |s.handlers|;
    assert TableOk(s, index);
    forall g | 0 <= g < n ensures HandlerOk(s', g) {
      assert HandlerOk(s, g);
    }
    if s'.status == Fatal {
      TablesSame(s, s');
      LoopSame(s, s');
    } else {
      assert s'.handlers[n] == Handler(index, term, Testing, false, false, 0, Open);
      forall i ensures TableOk(s', i) {
        assert TableOk(s, i);
        assert forall h :: 0 <= h < n ==> (WaitsFor(s', h, i) <==> WaitsFor(s, h, i));
        assert WaitsFor(s', n, i) <==> i == index;
      }
      LoopSame(s, s');
    }
  }

  /** Cleaning up takes the handler's own entry out of the table. */
  lemma CheckKeeps(s: System, h: nat)
    requires Inv(s) && Enabled(s, Check(h))
    ensures Inv(Next(s, Check(h)))
  {
    var s', x := Next(s, Check(h)), s.handlers[h];
    assert HandlerOk(s, h) && TableOk(s, x.index) && WaitsFor(s, h, x.index);
    LoopSame(s, s');
    forall g | 0 <= g < |s.handlers| ensures HandlerOk(s', g) {
      assert HandlerOk(s, g);
    }
    if s'.status == Panicked {
      TablesSame(s, s');
    } else {
      forall i ensures TableOk(s', i) {
        assert TableOk(s, i);
        assert forall g :: 0 <= g < |s.handlers| && g != h ==> (WaitsFor(s', g, i) <==> WaitsFor(s, g, i));
        assert !WaitsFor(s', h, i);
      }
    }
  }

  lemma SignalKeeps(s: System, h: nat)
    requires Inv(s) && Enabled(s, Signal(h))
    ensures Inv(Next(s, Signal(h)))
  {
    var s' := Next(s, Signal(h));
    assert HandlerOk(s, h);
    TablesSame(s, s');
    forall g | 0 <= g < |s.handlers| ensures HandlerOk(s', g) && !Owes(s', g) {
      assert HandlerOk(s, g);
      assert Owes(s, h) && (g != h ==> !Owes(s, g));
    }
  }

  lemma DeliverKeeps(s: System)
    requires Inv(s) && Enabled(s, Deliver)
    ensures Inv(Next(s, Deliver))
  {
    var s', i := Next(s, Deliver), s.lastIndex + 1;
    assert TableOk(s, i);
    forall g | 0 <= g < |s.handlers| ensures HandlerOk(s', g) && (Owes(s', g) <==> WaitsFor(s, g, i)) {
      assert HandlerOk(s, g);
      assert WaitsFor(s, g, i) ==> WaitingOn(s.waiting, i) == 1;
    }
    TablesSame(s, s');
    if WaitingOn(s.waiting, i) == 1 {
      var g :| 0 <= g < |s.handlers| && WaitsFor(s, g, i);
      assert Owes(s', g);
    }
  }

  // ------------------------------------------------------------ whole runs

  ghost predicate IsRun(states: seq<System>, steps: seq<Step>) {
    && |states| == |steps| + 1 && states[0] == Boot()
    && forall i :: 0 <= i < |steps| ==> Enabled(states[i], steps[i]) && states[i + 1] == Next(states[i], steps[i])
  }

  lemma BootRuns() returns (states: seq<System>, steps: seq<Step>)
    ensures IsRun(states, steps) && states[|steps|] == Boot()
  {
    states, steps := [Boot()], [];
  }

  /** One more step at the end of a run. */
  lemma Extend(before: seq<System>, taken: seq<Step>, st: Step) returns (states: seq<System>, steps: seq<Step>)
    requires IsRun(before, taken) && Enabled(before[|taken|], st)
    ensures IsRun(states, steps) && |before| == |taken| + 1
    ensures states == before + [Next(before[|taken|], st)] && steps == taken + [st]
  {
    states, steps := before + [Next(before[|taken|], st)], taken + [st];
  }

  lemma BootHasInv()
    ensures Inv(Boot())
  {
  }

  lemma {:induction false} InvAt(states: seq<System>, steps: seq<Step>, i: nat)
    requires IsRun(states, steps) && i < |states|
    ensures Inv(states[i])
  {
    hide Inv, Next, Enabled;
    if i == 0 {
      BootHasInv();
    } else {
      InvAt(states, steps, i - 1);
      StepKeepsInv(states[i - 1], steps[i - 1]);
    }
  }

  /** Every handler that has left sent one signal if it was counted, and none otherwise. */
  lemma OneSignalEach(states: seq<System>, steps: seq<Step>, i: nat, h: nat)
    requires IsRun(states, steps) && i < |states| && h < |states[i].handlers|
    ensures var x := states[i].handlers[h];
            && x.sent <= 1
            && (x.phase == Left ==> (x.sent == 1 <==> x.counted))
  {
    hide Next, Enabled;
    InvAt(states, steps, i);
    assert HandlerOk(states[i], h);
  }

  /**
   A handler never sees an apply message past its own index.  One that goes on,
   because its second look finds its own term, takes its own message if and only if
   the wait loop ended by the test of the index.
   */
  lemma TakesOwnMessageIff(states: seq<System>, steps: seq<Step>, i: nat)
    requires IsRun(states, steps) && i < |steps| && steps[i].Check?
    ensures var s, x := states[i], states[i].handlers[steps[i].h];
            && s.lastIndex <= x.index
            && (x.term == s.term ==> (s.lastIndex == x.index <==> x.byIndex))
    ensures states[i + 1].status == Running ==>
              && steps[i].h < |states[i + 1].handlers|
              && var s, x := states[i], states[i].handlers[steps[i].h];
                 states[i + 1].handlers[steps[i].h].outcome == Took(x.index) <==> x.term == s.term && x.byIndex
  {
    InvAt(states, steps, i);
    assert HandlerOk(states[i], steps[i].h);
  }

  /** A handler that stayed in the loop at its first test always takes its own message, if it goes on. */
  lemma SleepersTakeOwnMessage(states: seq<System>, steps: seq<Step>, i: nat, j: nat, h: nat)
    requires IsRun(states, steps) && i < j < |states| && h < |states[i].handlers|
    requires states[i].handlers[h].phase == Asleep
    ensures h < |states[j].handlers|
    ensures states[j].handlers[h].outcome.Took? ==> states[j].handlers[h].outcome.index == states[j].handlers[h].index
  {
    hide Next, Enabled, Inv;
    InvAt(states, steps, i);
    HasHandlerOk(states[i], h);
    StaysReached(states, steps, i, j, h);
    InvAt(states, steps, j);
    HasHandlerOk(states[j], h);
  }

  /**
   The second look decides: unless the process panics, a handler answers with the
   message just applied if and only if the refreshed term is then its own, and with
   ErrWrongLeader otherwise.
   */
  lemma AnswersIffTermStands(states: seq<System>, steps: seq<Step>, i: nat)
    requires IsRun(states, steps) && i < |steps| && steps[i].Check? && states[i + 1].status == Running
    ensures steps[i].h < |states[i].handlers| && steps[i].h < |states[i + 1].handlers|
    ensures var s, x, x' := states[i], states[i].handlers[steps[i].h], states[i + 1].handlers[steps[i].h];
            && x.outcome == Open && (x'.phase == Left || x'.phase == Sending)
            && x'.outcome == if x.term == s.term then Took(s.lastIndex) else WrongLeader
  {
    InvAt(states, steps, i);
    assert HandlerOk(states[i], steps[i].h);
  }

  /** The handler's term is the refreshed one, and it will take, or has taken, its own message. */
  ghost predicate OnItsWay(s: System, h: nat) {
    h < |s.handlers| && var x := s.handlers[h];
    && x.term == s.term && (x.phase == Checking ==> x.byIndex)
    && (!Registered(x) ==> x.outcome == Took(x.index))
  }

  lemma OnItsWayStays(s: System, st: Step, h: nat)
    requires Inv(s) && Enabled(s, st) && OnItsWay(s, h) && Next(s, st).term == s.term
    ensures OnItsWay(Next(s, st), h) && Next(s, st).handlers[h].index == s.handlers[h].index
    ensures Next(s, st).handlers[h].term == s.handlers[h].term
  {
    hide TableOk;
    assert HandlerOk(s, h);
  }

  lemma {:induction false} StaysOnItsWay(states: seq<System>, steps: seq<Step>, i: nat, j: nat, h: nat)
    requires IsRun(states, steps) && i <= j < |states| && OnItsWay(states[i], h)
    requires forall k :: i <= k <= j ==> states[k].term == states[i].term
    ensures OnItsWay(states[j], h) && states[j].handlers[h].index == states[i].handlers[h].index
    decreases j
  {
    hide Next, Enabled, Inv;
    if i < j {
      StaysOnItsWay(states, steps, i, j - 1, h);
      InvAt(states, steps, j - 1);
      assert states[j - 1].term == states[j].term;
      OnItsWayStays(states[j - 1], steps[j - 1], h);
    }
  }

  /**
   A handler that is at its test or waits, with the refreshed term its own until it has
   left, has been given its own command's message: it leaves by no other way.
   */
  lemma AppliedIsAnswered(states: seq<System>, steps: seq<Step>, i: nat, j: nat, h: nat)
    requires IsRun(states, steps) && i <= j < |states| && h < |states[i].handlers|
    requires Registered(states[i].handlers[h]) && states[i].handlers[h].phase != Checking
    requires forall k :: i <= k <= j ==> states[k].term == states[i].handlers[h].term
    ensures h < |states[j].handlers|
    ensures !Registered(states[j].handlers[h]) ==>
              states[j].handlers[h].outcome == Took(states[i].handlers[h].index)
    ensures states[j].lastIndex > states[i].handlers[h].index ==> states[j].handlers[h].phase == Left
  {
    hide Next, Enabled, Inv;
    InvAt(states, steps, i);
    HasHandlerOk(states[i], h);
    StaysOnItsWay(states, steps, i, j, h);
    InvAt(states, steps, j);
    HasHandlerOk(states[j], h);
  }

  /** What a handler takes has been applied. */
  lemma TookWasApplied(states: seq<System>, steps: seq<Step>, i: nat, h: nat)
    requires IsRun(states, steps) && i < |states| && h < |states[i].handlers| && states[i].handlers[h].outcome.Took?
    ensures 1 <= states[i].handlers[h].outcome.index <= states[i].lastIndex
  {
    hide Next, Enabled;
    InvAt(states, steps, i);
    assert HandlerOk(states[i], h);
  }

  lemma HasHandlerOk(s: System, h: nat)
    requires Inv(s) && h < |s.handlers|
    ensures HandlerOk(s, h) && s.lastIndex >= 0
  {
  }

  /** Raft's copy of the term has reached the handler's, and only its index lets it go on. */
  ghost predicate TermReached(s: System, h: nat) {
    h < |s.handlers| && var x := s.handlers[h];
    x.term <= s.term && (x.phase == Checking && !x.byIndex ==> x.term < s.term) && (x.outcome.Took? ==> x.byIndex)
  }

  lemma ReachedStays(s: System, st: Step, h: nat)
    requires Inv(s) && Enabled(s, st) && TermReached(s, h)
    ensures TermReached(Next(s, st), h)
  {
    hide TableOk;
    assert HandlerOk(s, h);
  }

  lemma {:induction false} StaysReached(states: seq<System>, steps: seq<Step>, i: nat, j: nat, h: nat)
    requires IsRun(states, steps) && i <= j < |states| && TermReached(states[i], h)
    ensures TermReached(states[j], h)
    decreases j
  {
    hide Next, Enabled, Inv;
    if i < j {
      StaysReached(states, steps, i, j - 1, h);
      InvAt(states, steps, j - 1);
      ReachedStays(states[j - 1], steps[j - 1], h);
    }
  }

  /** A new leader's term reaches the handlers late: one handler takes the message before its own. */
  lemma TakesEarlierMessage() returns (states: seq<System>, steps: seq<Step>)
    ensures IsRun(states, steps) && |states[|steps|].handlers| == 1
    ensures states[|steps|].handlers[0].outcome == Took(1) && states[|steps|].handlers[0].index == 2
  {
    hide IsRun;
    states, steps := BootRuns();
    states, steps := Extend(states, steps, Deliver);
    states, steps := Extend(states, steps, Register(2, 2));
    states, steps := Extend(states, steps, Test(0));
    states, steps := Extend(states, steps, NewTerm(2));
    states, steps := Extend(states, steps, Check(0));
  }

  lemma IndexGrows(s: System, st: Step)
    requires Enabled(s, st)
    ensures s.lastIndex <= Next(s, st).lastIndex
  {
  }

  lemma {:induction false} IndexStays(states: seq<System>, steps: seq<Step>, i: nat, j: nat)
    requires IsRun(states, steps) && i <= j < |states|
    ensures states[i].lastIndex <= states[j].lastIndex
    decreases j
  {
    hide Next, Enabled;
    if i < j {
      IndexStays(states, steps, i, j - 1);
      IndexGrows(states[j - 1], steps[j - 1]);
    }
  }

  /** The run goes on to a panic of handler h. */
  ghost predicate GoesOnToPanic(states: seq<System>, steps: seq<Step>, more: seq<System>, taken: seq<Step>, h: nat) {
    && IsRun(more, taken) && |steps| < |taken| && |states| == |steps| + 1
    && more[..|states|] == states && taken[..|steps|] == steps
    && taken[|taken| - 1] == Check(h) && more[|taken|].status == Panicked
  }

  /** What the panic of a handler says about an earlier moment at which it was at its test. */
  lemma PanicNeeds(states: seq<System>, steps: seq<Step>, i: nat, h: nat)
    requires IsRun(states, steps) && i < |steps| && h < |states[i].handlers| && states[i].handlers[h].phase == Testing
    requires steps[|steps| - 1] == Check(h) && states[|steps|].status == Panicked
    ensures states[i].lastIndex == 0 && states[i].term < states[i].handlers[h].term
  {
    var n := |steps| - 1;
    var last := states[n];
    assert Enabled(last, Check(h)) && states[n + 1] == Next(last, Check(h));
    assert last.lastIndex == 0 && last.handlers[h].term == last.term;
    hide IsRun, Next, Enabled, Inv;
    IndexStays(states, steps, i, n);
    InvAt(states, steps, i);
    InvAt(states, steps, n);
    HasHandlerOk(states[i], h);
    HasHandlerOk(last, h);
    if states[i].handlers[h].term <= states[i].term {
      StaysReached(states, steps, i, n, h);
    }
  }

  /**
   A handler that has just registered, or is at its test again, can still make the
   process panic if and only if nothing has been applied yet and Raft's copy of the
   term is below its own.
   */
  lemma PanicsIff(states: seq<System>, steps: seq<Step>, h: nat)
    requires IsRun(states, steps) && states[|steps|].status == Running
    requires h < |states[|steps|].handlers| && states[|steps|].handlers[h].phase == Testing
    ensures (exists more, taken :: GoesOnToPanic(states, steps, more, taken, h)) <==>
              states[|steps|].lastIndex == 0 && states[|steps|].term < states[|steps|].handlers[h].term
  {
    var s := states[|steps|];
    if more, taken :| GoesOnToPanic(states, steps, more, taken, h) {
      assert more[|steps|] == more[..|states|][|steps|] == s;
      PanicNeeds(more, taken, |steps|, h);
    }
    if s.lastIndex == 0 && s.term < s.handlers[h].term {
      InvAt(states, steps, |steps|);
      HasHandlerOk(s, h);
      var more, taken := PanicRun(states, steps, h);
      assert GoesOnToPanic(states, steps, more, taken, h);
    }
  }

  lemma PanicRun(states: seq<System>, steps: seq<Step>, h: nat) returns (more: seq<System>, taken: seq<Step>)
    requires IsRun(states, steps) && states[|steps|].status == Running
    requires var s := states[|steps|]; Holds(s, h, Testing) && s.lastIndex == 0 && s.term < s.handlers[h].term
    ensures GoesOnToPanic(states, steps, more, taken, h)
  {
    var t := states[|steps|].handlers[h].term;
    hide IsRun;
    more, taken := Extend(states, steps, Test(h));
    if more[|taken|].rousing {
      more, taken := Extend(more, taken, Rouse);
    }
    more, taken := Extend(more, taken, NewTerm(t));
    more, taken := Extend(more, taken, Check(h));
  }

  lemma PanicHappens() returns (states: seq<System>, steps: seq<Step>)
    ensures IsRun(states, steps)
    ensures states[|steps|].status == Panicked
  {
    hide IsRun;
    states, steps := BootRuns();
    states, steps := Extend(states, steps, Register(1, 1));
    states, steps := Extend(states, steps, Test(0));
    states, steps := Extend(states, steps, NewTerm(1));
    states, steps := Extend(states, steps, Check(0));
  }

  /** Whoever holds kv.mu can move, and when nobody does, the handler the loop waits for can. */
  lemma NobodyWaitsInVain(states: seq<System>, steps: seq<Step>, i: nat)
    requires IsRun(states, steps) && i < |states| && states[i].status == Running
    ensures var s := states[i];
            s.lock >= 0 ==> Enabled(s, Test(s.lock)) || Enabled(s, Settle(s.lock))
                            || Enabled(s, Check(s.lock)) || Enabled(s, Signal(s.lock))
    ensures states[i].lock == -1 && states[i].loop.Receiving? ==>
              exists h :: 0 <= h < |states[i].handlers| && Owes(states[i], h) && Enabled(states[i], Wake(h))
  {
    hide Next;
    var s := states[i];
    InvAt(states, steps, i);
    if s.lock >= 0 {
      assert HandlerOk(s, s.lock);
    } else if s.loop.Receiving? {
      var h :| 0 <= h < |s.handlers| && Owes(s, h);
      assert HandlerOk(s, h);
      assert Enabled(s, Wake(h));
    }
  }

  /** The loop receives as many signals as it counted: it stops at, and never passes, that number. */
  lemma ReceivesWhatItCounted(states: seq<System>, steps: seq<Step>, i: nat)
    requires IsRun(states, steps) && i < |steps| && steps[i].Signal?
    ensures var loop := states[i].loop;
            && loop.index == states[i].handlers[steps[i].h].index
            && loop.received + 1 == loop.expected && states[i + 1].loop == Idle
  {
    InvAt(states, steps, i);
    assert HandlerOk(states[i], steps[i].h);
  }

  /** A handler that waits, or is about to, although its term has passed. */
  ghost predicate Stuck(s: System, h: nat) {
    h < |s.handlers| && var x := s.handlers[h];
    (x.phase == Settling || x.phase == Asleep) && x.term < s.term
  }

  /** A delivery that somebody waits for, which wakes everybody. */
  predicate Broadcasts(s: System, st: Step) {
    st.Deliver? && WaitingOn(s.waiting, s.lastIndex + 1) != 0
  }

  /** Between two changes of term only such a delivery changes who is stuck. */
  lemma StuckStays(s: System, st: Step, h: nat)
    requires Inv(s) && Enabled(s, st) && !st.NewTerm? && !st.Rouse?
    ensures Stuck(Next(s, st), h) <==> Stuck(s, h) && !Broadcasts(s, st)
    ensures Next(s, st).term == s.term && Next(s, st).rousing == s.rousing
  {
    hide TableOk;
    if h < |s.handlers| {
      assert HandlerOk(s, h);
    }
  }

  /** What the broadcast of a new term leaves behind. */
  lemma StuckAfterRouse(s: System, h: nat)
    requires Inv(s) && Enabled(s, Rouse)
    ensures Stuck(Next(s, Rouse), h) <==> h < |s.handlers| && s.handlers[h].phase == Settling && s.handlers[h].term < s.term
    ensures !Next(s, Rouse).rousing
  {
  }

  /**
   A change of term is not as safe as a delivery: its broadcast, at r, comes without
   kv.mu.  A handler of an earlier term is still waiting at a later moment j, before
   any further change of term, if and only if the broadcast found it between its test
   and its wait, and no delivery that somebody waited for has come since.
   */
  lemma {:induction false} MissesNewTermIff(states: seq<System>, steps: seq<Step>, r: nat, j: nat, h: nat)
    requires IsRun(states, steps) && r < j < |states| && steps[r] == Rouse
    requires forall i :: r < i < j ==> !steps[i].NewTerm?
    ensures Stuck(states[j], h) <==>
              && h < |states[r].handlers| && states[r].handlers[h].phase == Settling
              && states[r].handlers[h].term < states[r].term
              && forall i :: r < i < j ==> !Broadcasts(states[i], steps[i])
    ensures !states[j].rousing
    decreases j
  {
    hide Next, Inv, Stuck, Broadcasts;
    InvAt(states, steps, j - 1);
    if j == r + 1 {
      StuckAfterRouse(states[r], h);
    } else {
      MissesNewTermIff(states, steps, r, j - 1, h);
      assert Enabled(states[j - 1], steps[j - 1]);
      StuckStays(states[j - 1], steps[j - 1], h);
    }
  }

  /** Such a run. */
  lemma SleepsThroughNewTerm() returns (states: seq<System>, steps: seq<Step>)
    ensures IsRun(states, steps) && |states[|steps|].handlers| == 1
    ensures var s := states[|steps|];
            !s.rousing && s.handlers[0].phase == Asleep && s.handlers[0].term < s.term
  {
    hide IsRun;
    states, steps := BootRuns();
    states, steps := Extend(states, steps, NewTerm(1));
    states, steps := Extend(states, steps, Rouse);
    states, steps := Extend(states, steps, Register(1, 1));
    states, steps := Extend(states, steps, Test(0));
    states, steps := Extend(states, steps, NewTerm(2));
    states, steps := Extend(states, steps, Rouse);
    states, steps := Extend(states, steps, Settle(0));
  }

  /**
   The server aborts exactly when a request is started at an index that an older
   handler is still registered for, and that handler is of an earlier term.
   */
  lemma AbortsIff(states: seq<System>, steps: seq<Step>, i: nat)
    requires IsRun(states, steps) && i < |steps|
    ensures states[i + 1].status == Fatal <==>
              steps[i].Register? && exists h :: 0 <= h < |states[i].handlers| && WaitsFor(states[i], h, steps[i].index)
    ensures steps[i].Register? ==>
              forall h :: 0 <= h < |states[i].handlers| && WaitsFor(states[i], h, steps[i].index) ==>
                states[i].handlers[h].term < steps[i].term
  {
    InvAt(states, steps, i);
    if steps[i].Register? {
      assert TableOk(states[i], steps[i].index);
      forall h | 0 <= h < |states[i].handlers| && WaitsFor(states[i], h, steps[i].index)
        ensures states[i].handlers[h].term < steps[i].term
      {
        assert HandlerOk(states[i], h);
      }
    }
  }

  /**
   A leader of term 1 starts indices 1 and 2, the leader of term 2 overwrites them
   with one entry, and the first server, leading again in term 3, starts index 2.
   */
  lemma AbortHappens() returns (states: seq<System>, steps: seq<Step>)
    ensures IsRun(states, steps)
    ensures states[|steps|].status == Fatal
  {
    hide IsRun;
    states, steps := BootRuns();
    states, steps := Extend(states, steps, NewTerm(1));
    states, steps := Extend(states, steps, Rouse);
    states, steps := Extend(states, steps, Register(1, 1));
    states, steps := Extend(states, steps, Test(0));
    states, steps := Extend(states, steps, Settle(0));
    states, steps := Extend(states, steps, Register(2, 1));
    states, steps := Extend(states, steps, Test(1));
    states, steps := Extend(states, steps, Settle(1));
    states, steps := Extend(states, steps, Register(2, 3));
  }
}
