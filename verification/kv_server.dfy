/**
 The replicated key/value state machine of src/kvraft/server.go: duplicate
 suppression over a log in which a request may appear any number of times.
 */
module KvServer {
  import opened Linearizability
  import opened KvLinearizability

  datatype Kind = Get | Put | Append

  datatype Op = Op(kind: Kind, key: string, value: string, clientId: int, requestNumber: int)

  datatype Err = OK | ErrNoKey | ErrWrongLeader | Outdated

  datatype Result = Result(requestNumber: int, result: string, error: Err)

  datatype Server = Server(values: map<string, string>, lastRequest: map<int, Result>, lastExecutedIndex: int)

  function Initial(): Server {
    Server(map[], map[], -1)
  }

  // ------------------------------------------------- one operation at a time

  /** execute: the answer and the new values. */
  function Execute(values: map<string, string>, op: Op): (string, Err, map<string, string>) {
    match op.kind
    case Get => if op.key in values then (values[op.key], OK, values) else ("", ErrNoKey, values)
    case Put => ("", OK, values[op.key := op.value])
    case Append => ("", OK, values[op.key := Lookup(values, op.key) + op.value])
  }

  predicate IsDuplicate(s: Server, op: Op) {
    op.clientId in s.lastRequest && s.lastRequest[op.clientId].requestNumber >= op.requestNumber
  }

  /** executeIfNew. */
  function ApplyOp(s: Server, op: Op, index: int): Server {
    if IsDuplicate(s, op) then s
    else
      var (r, e, values) := Execute(s.values, op);
      Server(values, s.lastRequest[op.clientId := Result(op.requestNumber, r, e)],
             if index > s.lastExecutedIndex then index else s.lastExecutedIndex)
  }

  class KVServer {
    var values: map<string, string>
    var lastRequest: map<int, Result>
    var lastExecutedIndex: int

    ghost function View(): Server
      reads this
    {
      Server(values, lastRequest, lastExecutedIndex)
    }

    constructor ()
      ensures View() == Initial()
    {
      values, lastRequest, lastExecutedIndex := map[], map[], -1;
    }

    method ExecuteOp(op: Op) returns (r: string, e: Err)
      modifies this`values
      ensures (r, e, values) == Execute(old(values), op)
    {
      match op.kind {
        case Get =>
          if op.key !in values {
            return "", ErrNoKey;
          }
          return values[op.key], OK;
        case Put =>
          values := values[op.key := op.value];
        case Append =>
          values := values[op.key := Lookup(values, op.key) + op.value];
      }
      return "", OK;
    }

    method ExecuteIfNew(op: Op, index: int)
      modifies this
      ensures View() == ApplyOp(old(View()), op, index)
    {
      if op.clientId in lastRequest && lastRequest[op.clientId].requestNumber >= op.requestNumber {
        return;
      }
      var r, e := ExecuteOp(op);
      lastRequest := lastRequest[op.clientId := Result(op.requestNumber, r, e)];
      if index > lastExecutedIndex {
        lastExecutedIndex := index;
      }
    }

    /** The part of Operation that answers without starting agreement. */
    method AnswerDuplicate(op: Op) returns (answered: bool, value: string, err: Err)
      ensures answered <==> IsDuplicate(View(), op)
      ensures answered && lastRequest[op.clientId].requestNumber == op.requestNumber ==>
                value == lastRequest[op.clientId].result && err == OK
      ensures answered && lastRequest[op.clientId].requestNumber != op.requestNumber ==> value == "" && err == Outdated
    {
      if op.clientId in lastRequest && lastRequest[op.clientId].requestNumber >= op.requestNumber {
        var r := lastRequest[op.clientId];
        if r.requestNumber == op.requestNumber {
          return true, r.result, OK;
        }
        return true, "", Outdated;
      }
      return false, "", OK;
    }

    /** The apply loop on a delivered log whose first index is 1. */
    method ApplyLog(log: seq<Op>)
      modifies this
      requires View() == Initial()
      ensures View() == Run(log)
    {
      for i := 0 to |log|
        invariant View() == Run(log[..i])
      {
        ExecuteIfNew(log[i], i + 1);
        assert log[..i + 1][..i] == log[..i];
      }
      assert log[..|log|] == log;
    }
  }

  // ------------------------------------------------------------ whole logs

  function Run(log: seq<Op>): Server {
    if log == [] then Initial()
    else ApplyOp(Run(log[..|log| - 1]), log[|log| - 1], |log|)
  }

  /** The i-th request has a higher number than any request of its client before it. */
  predicate RecordHigh(log: seq<Op>, i: int)
    requires 0 <= i < |log|
  {
    forall j :: 0 <= j < i && log[j].clientId == log[i].clientId ==> log[j].requestNumber < log[i].requestNumber
  }

  /** The requests that set a new record for their client, in log order. */
  function Records(log: seq<Op>): seq<Op> {
    if log == [] then []
    else
      var n := |log| - 1;
      Records(log[..n]) + if RecordHigh(log, n) then [log[n]] else []
  }

  /** Plain execution, without any suppression. */
  function ExecuteAll(ops: seq<Op>): map<string, string> {
    if ops == [] then map[]
    else Execute(ExecuteAll(ops[..|ops| - 1]), ops[|ops| - 1]).2
  }

  /** What the table of last requests knows about a client: the highest number in the log. */
  ghost predicate TableOk(log: seq<Op>, s: Server, client: int) {
    if client in s.lastRequest then
      && (forall j :: 0 <= j < |log| && log[j].clientId == client ==>
            log[j].requestNumber <= s.lastRequest[client].requestNumber)
      && exists j :: 0 <= j < |log| && log[j].clientId == client
                     && log[j].requestNumber == s.lastRequest[client].requestNumber
    else forall j :: 0 <= j < |log| ==> log[j].clientId != client
  }

  lemma {:induction false} TableHolds(log: seq<Op>, client: int)
    ensures TableOk(log, Run(log), client)
    decreases |log|
  {
    if log != [] {
      var n := |log| - 1;
      var prev := log[..n];
      TableHolds(prev, client);
      TableHolds(prev, log[n].clientId);
      assert forall j :: 0 <= j < n ==> prev[j] == log[j];
      if client in Run(prev).lastRequest && !(client == log[n].clientId && !IsDuplicate(Run(prev), log[n])) {
        var j :| 0 <= j < |prev| && prev[j].clientId == client
                 && prev[j].requestNumber == Run(prev).lastRequest[client].requestNumber;
        assert log[j] == prev[j];
      }
    }
  }

  /** A request is a duplicate exactly when it is not a record. */
  lemma DuplicateIffNotRecord(log: seq<Op>, n: nat)
    requires n < |log|
    ensures IsDuplicate(Run(log[..n]), log[n]) <==> !RecordHigh(log, n)
  {
    TableHolds(log[..n], log[n].clientId);
    assert forall j :: 0 <= j < n ==> log[..n][j] == log[j];
  }

  /** The values are those of executing each client's record-high requests once, and nothing else. */
  lemma {:induction false} ExecutesRecordsOnce(log: seq<Op>)
    ensures Run(log).values == ExecuteAll(Records(log))
    decreases |log|
  {
    if log != [] {
      var n := |log| - 1;
      ExecutesRecordsOnce(log[..n]);
      DuplicateIffNotRecord(log, n);
      hide RecordHigh, IsDuplicate, Execute;
      if RecordHigh(log, n) {
        assert Records(log)[..|Records(log)| - 1] == Records(log[..n]);
      } else {
        assert Records(log) == Records(log[..n]);
      }
    }
  }

  /** Delivering again requests that were already delivered, in any order, changes nothing. */
  lemma {:induction false} ReplayChangesNothing(log: seq<Op>, again: seq<Op>)
    requires forall op :: op in again ==> op in log
    ensures Run(log + again) == Run(log)
    decreases |again|
  {
    if again == [] {
      assert log + again == log;
    } else {
      var n := |again| - 1;
      var before := log + again[..n];
      ReplayChangesNothing(log, again[..n]);
      assert (log + again)[..|log + again| - 1] == before;
      assert again[n] in log;
      TableHolds(before, again[n].clientId);
      var j :| 0 <= j < |log| && log[j] == again[n];
      assert before[j] == again[n];
      assert IsDuplicate(Run(before), again[n]);
    }
  }

  // ---------------------------------------------------- the answers given

  function ToInput(op: Op): KvInput {
    KvInput(match op.kind case Get => 0 case Put => 1 case Append => 2, op.key, op.value)
  }

  /** The times at which an operation was called and returned. */
  type Clock = Op -> (int, int)

  /** An executed operation together with its answer, as the checker sees it. */
  function Answered(values: map<string, string>, op: Op, clock: Clock): KvOp {
    Operation(op.clientId, ToInput(op), clock(op).0, KvOutput(Execute(values, op).0), clock(op).1)
  }

  /** The executed operations of a log with the answers they were given. */
  function Trace(log: seq<Op>, clock: Clock): seq<KvOp> {
    if log == [] then []
    else
      var n := |log| - 1;
      Trace(log[..n], clock)
      + if IsDuplicate(Run(log[..n]), log[n]) then [] else [Answered(Run(log[..n]).values, log[n], clock)]
  }

  /** Where in the log those operations are. */
  function Places(log: seq<Op>): seq<nat> {
    if log == [] then []
    else
      var n := |log| - 1;
      Places(log[..n]) + if IsDuplicate(Run(log[..n]), log[n]) then [] else [n]
  }

  lemma RecordInPrefix(log: seq<Op>, n: nat, p: nat)
    requires p < n <= |log|
    ensures RecordHigh(log[..n], p) <==> RecordHigh(log, p)
    ensures log[..n][..p] == log[..p] && log[..n][p] == log[p]
  {
    assert forall j :: 0 <= j < n ==> log[..n][j] == log[j];
  }

  /** Places are the positions of the record highs, in order. */
  lemma {:induction false} PlacesAreRecords(log: seq<Op>)
    ensures forall p: nat :: p in Places(log) <==> p < |log| && RecordHigh(log, p)
    ensures forall i, j :: 0 <= i < j < |Places(log)| ==> Places(log)[i] < Places(log)[j]
    decreases |log|
  {
    if log != [] {
      var n := |log| - 1;
      PlacesAreRecords(log[..n]);
      DuplicateIffNotRecord(log, n);
      var before := Places(log[..n]);
      hide RecordHigh, IsDuplicate, Run;
      forall p: nat | p < n ensures RecordHigh(log[..n], p) <==> RecordHigh(log, p) {
        RecordInPrefix(log, n, p);
      }
      forall i | 0 <= i < |before| ensures before[i] < n {
        assert before[i] in before;
      }
    }
  }

  /** Trace has the answers of the record highs, each given in the state its predecessors left. */
  lemma {:induction false} PlacesOfTrace(log: seq<Op>, clock: Clock)
    ensures |Places(log)| == |Trace(log, clock)|
    ensures forall i :: 0 <= i < |Places(log)| ==> PlaceOk(log, clock, i)
    decreases |log|
  {
    if log != [] {
      var n := |log| - 1;
      PlacesOfTrace(log[..n], clock);
      hide IsDuplicate, Run, Answered;
      forall i | 0 <= i < |Places(log)| ensures PlaceOk(log, clock, i) {
        if i < |Places(log[..n])| {
          assert PlaceOk(log[..n], clock, i);
          assert log[..n][..Places(log)[i]] == log[..Places(log)[i]];
        }
      }
    }
  }

  ghost predicate PlaceOk(log: seq<Op>, clock: Clock, i: nat)
    requires i < |Places(log)| == |Trace(log, clock)|
  {
    var p := Places(log)[i];
    p < |log| && Trace(log, clock)[i] == Answered(Run(log[..p]).values, log[p], clock)
  }

  /** The value map and the checker's map agree, a missing key being the empty string. */
  ghost predicate SameValues(a: map<string, string>, b: map<string, string>) {
    forall key :: Lookup(a, key) == Lookup(b, key)
  }

  function StateFrom(s: map<string, string>, ops: seq<KvOp>): map<string, string>
    decreases |ops|
  {
    if ops == [] then s else StateFrom(MapStep(s, ops[0].input, ops[0].output).1, ops[1..])
  }

  lemma {:induction false} AcceptsAppend(s: map<string, string>, ops: seq<KvOp>, x: KvOp)
    ensures Accepts(MapModel(), s, ops + [x]) <==>
              Accepts(MapModel(), s, ops) && MapStep(StateFrom(s, ops), x.input, x.output).0
    decreases |ops|
  {
    if ops == [] {
      assert [x][1..] == [];
    } else {
      var s' := MapStep(s, ops[0].input, ops[0].output).1;
      AcceptsAppend(s', ops[1..], x);
      assert (ops + [x])[1..] == ops[1..] + [x];
    }
  }

  lemma {:induction false} StateFromAppend(s: map<string, string>, ops: seq<KvOp>, x: KvOp)
    ensures StateFrom(s, ops + [x]) == MapStep(StateFrom(s, ops), x.input, x.output).1
    decreases |ops|
  {
    if ops == [] {
      assert [x][1..] == [];
    } else {
      StateFromAppend(MapStep(s, ops[0].input, ops[0].output).1, ops[1..], x);
      assert (ops + [x])[1..] == ops[1..] + [x];
    }
  }

  lemma {:induction false} TraceAccepted(log: seq<Op>, clock: Clock)
    ensures Accepts(MapModel(), map[], Trace(log, clock))
    ensures SameValues(StateFrom(map[], Trace(log, clock)), Run(log).values)
    decreases |log|
  {
    if log != [] {
      var n := |log| - 1;
      TraceAccepted(log[..n], clock);
      if !IsDuplicate(Run(log[..n]), log[n]) {
        var x := Answered(Run(log[..n]).values, log[n], clock);
        AcceptsAppend(map[], Trace(log[..n], clock), x);
        StateFromAppend(map[], Trace(log[..n], clock), x);
        StepKeepsSame(StateFrom(map[], Trace(log[..n], clock)), Run(log[..n]).values, log[n], clock);
      } else {
        assert Trace(log, clock) == Trace(log[..n], clock);
      }
    }
  }

  lemma StepKeepsSame(a: map<string, string>, b: map<string, string>, op: Op, clock: Clock)
    requires SameValues(a, b)
    ensures var x := Answered(b, op, clock);
            var (ok, a') := MapStep(a, x.input, x.output);
            ok && SameValues(a', Execute(b, op).2)
  {
    var x := Answered(b, op, clock);
    assert Lookup(a, op.key) == Lookup(b, op.key);
    forall key ensures Lookup(MapStep(a, x.input, x.output).1, key) == Lookup(Execute(b, op).2, key) {
      assert Lookup(a, key) == Lookup(b, key);
    }
  }

  /**
   On every key, the executed operations and their answers are a run of the model of
   src/models/kv.go: every Get is answered with what has been written before it.
   */
  lemma AnswersFollowModel(log: seq<Op>, clock: Clock, key: string)
    ensures Accepts(KvModel(), "", OfKey(Trace(log, clock), key))
    ensures ReadsWritten(OfKey(Trace(log, clock), key))
  {
    KvAcceptsIff(OfKey(Trace(log, clock), key));
    TraceAccepted(log, clock);
    AcceptsByKey(map[], Trace(log, clock));
    assert Lookup(map[], key) == "";
  }

  /** A retry of a client's latest request is answered as its first execution was. */
  lemma {:induction false} RetryGetsFirstAnswer(log: seq<Op>, p: nat)
    requires p < |log| && RecordHigh(log, p)
    requires forall j :: p < j < |log| && log[j].clientId == log[p].clientId ==> log[j].requestNumber <= log[p].requestNumber
    ensures var (r, e, _) := Execute(Run(log[..p]).values, log[p]);
            && log[p].clientId in Run(log).lastRequest
            && Run(log).lastRequest[log[p].clientId] == Result(log[p].requestNumber, r, e)
    decreases |log|
  {
    var n := |log| - 1;
    if p == n {
      DuplicateIffNotRecord(log, n);
    } else {
      var prev := log[..n];
      assert prev[..p] == log[..p] && prev[p] == log[p];
      assert forall j :: 0 <= j < n ==> prev[j] == log[j];
      RetryGetsFirstAnswer(prev, p);
    }
  }

  /**
   A retry of a client's latest request is told OK, whatever the first reply said.
   That was ErrNoKey if and only if the request was a Get of a key that nothing
   executed before had written, and OK otherwise.
   */
  lemma RetryErrorDiffersIff(log: seq<Op>, p: nat)
    requires p < |log| && RecordHigh(log, p)
    requires forall j :: p < j < |log| && log[j].clientId == log[p].clientId ==> log[j].requestNumber <= log[p].requestNumber
    ensures IsDuplicate(Run(log), log[p])
    ensures Run(log).lastRequest[log[p].clientId].requestNumber == log[p].requestNumber
    ensures Run(log).lastRequest[log[p].clientId].error ==
              if log[p].kind == Get && !WrittenBefore(log, p, log[p].key) then ErrNoKey else OK
    ensures log[p].kind != Get ==> Run(log).lastRequest[log[p].clientId].result == ""
  {
    RetryGetsFirstAnswer(log, p);
    KeysAreWritten(log, p, log[p].key);
  }

  /** A Put or Append of the key has been executed before position n. */
  ghost predicate WrittenBefore(log: seq<Op>, n: nat, key: string)
    requires n <= |log|
  {
    exists i :: 0 <= i < n && RecordHigh(log, i) && log[i].kind != Get && log[i].key == key
  }

  lemma {:induction false} KeysAreWritten(log: seq<Op>, n: nat, key: string)
    requires n <= |log|
    ensures key in Run(log[..n]).values <==> WrittenBefore(log, n, key)
    decreases n
  {
    hide RecordHigh, IsDuplicate, ApplyOp;
    if n > 0 {
      KeysAreWritten(log, n - 1, key);
      DuplicateIffNotRecord(log, n - 1);
      KeysOfApply(Run(log[..n - 1]), log[n - 1], n, key);
      RunOfPrefix(log, n);
      hide Run;
    }
  }

  lemma RunOfPrefix(log: seq<Op>, n: nat)
    requires 0 < n <= |log|
    ensures Run(log[..n]) == ApplyOp(Run(log[..n - 1]), log[n - 1], n)
  {
    assert log[..n][..n - 1] == log[..n - 1];
  }

  lemma KeysOfApply(s: Server, op: Op, index: int, key: string)
    ensures key in ApplyOp(s, op, index).values <==>
              key in s.values || (!IsDuplicate(s, op) && op.kind != Get && op.key == key)
  {
  }

  lemma IndexOfApply(s: Server, op: Op, index: int)
    requires index > s.lastExecutedIndex
    ensures ApplyOp(s, op, index).lastExecutedIndex == if IsDuplicate(s, op) then s.lastExecutedIndex else index
    ensures IsDuplicate(s, op) ==> ApplyOp(s, op, index) == s
  {
  }

  /** Position k - 1 has the last executed request before n, if k is not -1. */
  ghost predicate LastExecuted(log: seq<Op>, n: nat, k: int)
    requires n <= |log|
  {
    && (k == -1 || (1 <= k <= n && RecordHigh(log, k - 1)))
    && forall i :: 0 <= i < n && k <= i ==> !RecordHigh(log, i)
  }

  lemma {:induction false} LastExecutedAt(log: seq<Op>, n: nat)
    requires n <= |log|
    ensures var k := Run(log[..n]).lastExecutedIndex;
            -1 <= k <= n && LastExecuted(log, n, k) && Run(log[..n]) == Run(log[..if k == -1 then 0 else k])
    decreases n
  {
    hide RecordHigh, IsDuplicate, ApplyOp;
    if n > 0 {
      LastExecutedAt(log, n - 1);
      DuplicateIffNotRecord(log, n - 1);
      RunOfPrefix(log, n);
      hide Run;
      IndexOfApply(Run(log[..n - 1]), log[n - 1], n);
    }
  }

  /**
   The index the service passes to Snapshot: that of the last executed request, after
   which nothing in the log changed the server, so the snapshot stands for the whole
   log; the table of any shorter part of the log would lack that request.
   */
  lemma LastExecutedCovers(log: seq<Op>, m: nat)
    requires m <= |log|
    ensures var k := Run(log).lastExecutedIndex;
            -1 <= k <= |log| && LastExecuted(log, |log|, k) && Run(log) == Run(log[..if k == -1 then 0 else k])
    ensures m < Run(log).lastExecutedIndex ==> Run(log[..m]).lastRequest != Run(log).lastRequest
  {
    hide LastExecuted, Run, TableOk;
    assert log[..|log|] == log;
    LastExecutedAt(log, |log|);
    if m < Run(log).lastExecutedIndex {
      TableMisses(log, m, Run(log).lastExecutedIndex);
    }
  }

  /** The table does not know a request that set a record after position m. */
  lemma TableMisses(log: seq<Op>, m: nat, k: nat)
    requires m < k <= |log| && LastExecuted(log, |log|, k)
    ensures Run(log[..m]).lastRequest != Run(log).lastRequest
  {
    hide Run;
    var client := log[k - 1].clientId;
    TableHolds(log, client);
    TableHolds(log[..m], client);
    if client in Run(log[..m]).lastRequest {
      var j :| 0 <= j < |log[..m]| && log[..m][j].clientId == client
               && log[..m][j].requestNumber == Run(log[..m]).lastRequest[client].requestNumber;
      assert log[j].requestNumber < log[k - 1].requestNumber;
    }
  }

  /** The table's answer for a client is that of the first execution of the client's highest request. */
  lemma TableAnswers(log: seq<Op>, client: int) returns (p: nat)
    requires client in Run(log).lastRequest
    ensures p < |log| && RecordHigh(log, p) && log[p].clientId == client
    ensures forall j :: 0 <= j < |log| && log[j].clientId == client ==> log[j].requestNumber <= log[p].requestNumber
    ensures var (r, e, _) := Execute(Run(log[..p]).values, log[p]);
            Run(log).lastRequest[client] == Result(log[p].requestNumber, r, e)
  {
    TableHolds(log, client);
    p :| p < |log| && log[p].clientId == client
         && log[p].requestNumber == Run(log).lastRequest[client].requestNumber;
    p := FirstOf(log, p);
    RetryGetsFirstAnswer(log, p);
  }

  /** The first request with the client and number of the one at p, which is a highest of its client. */
  lemma {:induction false} FirstOf(log: seq<Op>, p: nat) returns (q: nat)
    requires p < |log|
    requires forall j :: 0 <= j < |log| && log[j].clientId == log[p].clientId ==> log[j].requestNumber <= log[p].requestNumber
    ensures q <= p && RecordHigh(log, q)
    ensures log[q].clientId == log[p].clientId && log[q].requestNumber == log[p].requestNumber
    decreases p
  {
    if RecordHigh(log, p) {
      q := p;
    } else {
      var j :| 0 <= j < p && log[j].clientId == log[p].clientId && log[j].requestNumber >= log[p].requestNumber;
      q := FirstOf(log, j);
    }
  }

  /**
   Operation answers from the client's last request once its own has been
   applied.  That is the answer of its own first execution exactly when the client
   has sent nothing newer.
   */
  lemma HandlerAnswersOwnRequest(log: seq<Op>) returns (p: nat)
    requires log != []
    ensures var op := log[|log| - 1];
            && op.clientId in Run(log).lastRequest
            && p < |log| && RecordHigh(log, p) && log[p].clientId == op.clientId
            && (var (r, e, _) := Execute(Run(log[..p]).values, log[p]);
                Run(log).lastRequest[op.clientId] == Result(log[p].requestNumber, r, e))
            && (log[p].requestNumber == op.requestNumber <==>
                forall j :: 0 <= j < |log| && log[j].clientId == op.clientId ==> log[j].requestNumber <= op.requestNumber)
  {
    TableHolds(log, log[|log| - 1].clientId);
    p := TableAnswers(log, log[|log| - 1].clientId);
  }
}
