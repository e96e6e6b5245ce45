/**
 The key/value service as its clients see it.  The calls of a run of the replicated
 service form a linearizable history: the order is that of the first execution of
 each request in the log the replicas share.
 */
module KvHistory {
  import opened RaftNode
  import opened RaftCluster
  import opened RaftRuns
  import opened KvServer
  import opened KvReplicas
  import opened KvLinearizability
  import opened HistoryEntries
  import KvRendezvous
  import L = Linearizability

  datatype Reply = Pending | Replied(output: string, time: int)

  /** A request of a client: when it was made, and what came back and when.  Times are numbers of steps. */
  datatype Call = Call(op: Op, invoked: int, reply: Reply)

  /** A run of the cluster below the service, and the requests made of it by client and request number. */
  datatype Service = Service(
    decode: Command -> Op, n: nat, states: seq<Cluster>, labels: seq<Label>, calls: map<(int, int), Call>)

  function Key(op: Op): (int, int) {
    (op.clientId, op.requestNumber)
  }

  /** The operations server s has been given at time i. */
  ghost function LogAt(v: Service, s: nat, i: nat): seq<Op>
    requires IsRun(v.n, v.states, v.labels) && i < |v.states|
  {
    Decoded(v.decode, Fed(v.n, v.states, v.labels, s, i))
  }

  // -------------------------------------------------- what is assumed of clients

  /** A server starts agreement only on requests that were made, and after they were made. */
  ghost predicate Submitted(v: Service, k: nat)
    requires k < |v.labels| && v.labels[k].Start?
  {
    var op := v.decode(v.labels[k].command);
    Key(op) in v.calls && v.calls[Key(op)].op == op && v.calls[Key(op)].invoked <= k
  }

  ghost predicate ClientsOk(v: Service) {
    && (forall k :: k in v.calls ==> Key(v.calls[k].op) == k)
    && (forall k :: 0 <= k < |v.labels| && v.labels[k].Start? ==> Submitted(v, k))
  }

  // --------------------------------------------------------- what servers answer

  /**
   The two ways Operation answers, on a server that has executed `log`: the request
   is the latest of its client, or it equals the operation applied last.  Both take
   the answer from the table of last requests.
   */
  ghost predicate Answers(log: seq<Op>, op: Op, output: string) {
    var table := Run(log).lastRequest;
    && op.clientId in table && table[op.clientId].result == output
    && (table[op.clientId].requestNumber == op.requestNumber || (log != [] && log[|log| - 1] == op))
  }

  ghost predicate AnsweredAt(v: Service, call: Call, s: nat, i: nat)
    requires IsRun(v.n, v.states, v.labels) && call.reply.Replied?
  {
    s < v.n && i < |v.states| && i <= call.reply.time && Answers(LogAt(v, s, i), call.op, call.reply.output)
  }

  ghost predicate RepliesOk(v: Service)
    requires IsRun(v.n, v.states, v.labels)
  {
    forall k :: k in v.calls && v.calls[k].reply.Replied? ==> exists s: nat, i: nat :: AnsweredAt(v, v.calls[k], s, i)
  }

  ghost predicate ServiceRun(v: Service) {
    SafeRun(v.n, v.states, v.labels) && ClientsOk(v) && RepliesOk(v)
  }

  /** The server has nothing of the client that is newer than op. */
  ghost predicate NoNewer(log: seq<Op>, op: Op) {
    forall x :: 0 <= x < |log| && log[x].clientId == op.clientId ==> log[x].requestNumber <= op.requestNumber
  }

  ghost predicate OwnAt(v: Service, call: Call, s: nat, i: nat)
    requires IsRun(v.n, v.states, v.labels) && call.reply.Replied?
  {
    AnsweredAt(v, call, s, i) && NoNewer(LogAt(v, s, i), call.op)
  }

  /** No reply was overtaken by a newer request of the same client. */
  ghost predicate RepliesOwn(v: Service)
    requires IsRun(v.n, v.states, v.labels)
  {
    forall k :: k in v.calls && v.calls[k].reply.Replied? ==> exists s: nat, i: nat :: OwnAt(v, v.calls[k], s, i)
  }

  /** A client makes its next request only after the reply to the previous one. */
  ghost predicate Sequential(v: Service) {
    forall a, b :: a in v.calls && b in v.calls && a.0 == b.0 && a.1 < b.1 ==> RepliedBefore(v.calls[a], v.calls[b])
  }

  predicate RepliedBefore(a: Call, b: Call) {
    a.reply.Replied? && a.reply.time <= b.invoked
  }

  // ------------------------------------------------------------------- the proof

  /** An operation a server has been given was requested before. */
  lemma GivenWasRequested(v: Service, s: nat, i: nat, x: nat)
    requires ServiceRun(v) && s < v.n && i < |v.states| && x < |LogAt(v, s, i)|
    ensures var op := LogAt(v, s, i)[x];
            Key(op) in v.calls && v.calls[Key(op)].op == op && v.calls[Key(op)].invoked < i
  {
    RunLength(v);
    hide Fed, IsRun, RepliesOk;
    FedFollowsLog(v.n, v.states, v.labels, s, i);
    var k := LoggedWasStarted(v.n, v.states, v.labels, i, s, x);
    assert Submitted(v, k);
  }

  /**
   A reply is the answer of a first execution, and of the request itself if and only
   if the server had nothing newer of the client.
   */
  lemma ReplyIsOwnIff(v: Service, key: (int, int), s: nat, i: nat) returns (p: nat)
    requires ServiceRun(v) && key in v.calls && v.calls[key].reply.Replied? && AnsweredAt(v, v.calls[key], s, i)
    ensures var log, op := LogAt(v, s, i), v.calls[key].op;
            && p < |log| && RecordHigh(log, p) && log[p].clientId == op.clientId
            && Execute(Run(log[..p]).values, log[p]).0 == v.calls[key].reply.output
            && (log[p] == op <==> NoNewer(log, op))
  {
    hide Fed, IsRun, RepliesOk, Run, Execute;
    var log, op := LogAt(v, s, i), v.calls[key].op;
    p := TableAnswers(log, op.clientId);
    GivenWasRequested(v, s, i, p);
  }

  /** A client that waits for its replies is never overtaken by itself. */
  lemma SequentialRepliesOwn(v: Service)
    requires ServiceRun(v) && Sequential(v)
    ensures RepliesOwn(v)
  {
    hide Fed, IsRun, Answers;
    forall k | k in v.calls && v.calls[k].reply.Replied? ensures exists s: nat, i: nat :: OwnAt(v, v.calls[k], s, i) {
      var s: nat, i: nat :| AnsweredAt(v, v.calls[k], s, i);
      var log, op := LogAt(v, s, i), v.calls[k].op;
      forall x | 0 <= x < |log| && log[x].clientId == op.clientId ensures log[x].requestNumber <= op.requestNumber {
        GivenWasRequested(v, s, i, x);
        assert log[x].requestNumber > op.requestNumber ==> RepliedBefore(v.calls[k], v.calls[Key(log[x])]);
      }
      assert OwnAt(v, v.calls[k], s, i);
    }
  }

  /** The log of which every server has a prefix. */
  ghost predicate Shared(v: Service, log: seq<Op>)
    requires IsRun(v.n, v.states, v.labels)
  {
    && (exists s: nat, i: nat :: s < v.n && i < |v.states| && log == LogAt(v, s, i))
    && (forall s: nat, i: nat :: s < v.n && i < |v.states| ==> LogAt(v, s, i) <= log)
  }

  lemma SharedExists(v: Service) returns (log: seq<Op>)
    requires SafeRun(v.n, v.states, v.labels)
    ensures Shared(v, log)
  {
    hide Fed, IsRun;
    var s, i := LongestFed(v.n, v.states, v.labels);
    log := LogAt(v, s, i);
    forall t: nat, j: nat | t < v.n && j < |v.states| ensures LogAt(v, t, j) <= log {
      assert Fed(v.n, v.states, v.labels, t, j) <= Fed(v.n, v.states, v.labels, s, i);
    }
  }

  /** Where in the shared log a replied request was executed, and a server that had got so far by then. */
  lemma ReplyPlace(v: Service, log: seq<Op>, key: (int, int)) returns (s: nat, i: nat, p: nat)
    requires ServiceRun(v) && RepliesOwn(v) && Shared(v, log) && key in v.calls && v.calls[key].reply.Replied?
    ensures s < v.n && i < |v.states| && i <= v.calls[key].reply.time && p < |LogAt(v, s, i)|
    ensures LogAt(v, s, i) <= log && RecordHigh(log, p) && log[p] == v.calls[key].op
    ensures Execute(Run(log[..p]).values, log[p]).0 == v.calls[key].reply.output
  {
    hide Fed, IsRun, Run, Execute, Answers;
    s, i :| OwnAt(v, v.calls[key], s, i);
    p := ReplyIsOwnIff(v, key, s, i);
    var mine := LogAt(v, s, i);
    assert mine == log[..|mine|];
    RecordInPrefix(log, |mine|, p);
  }

  /**
   When a request was made and answered; one without an answer returns at the end.
   Each step has two ticks, for replies and then for requests, so that a request made
   in the step of a reply counts as made after it.
   */
  function ClockOf(v: Service): Clock {
    (op: Op) => if Key(op) in v.calls then (Made(v.calls[Key(op)]), Returned(v, v.calls[Key(op)])) else (0, 0)
  }

  function Made(call: Call): int {
    2 * call.invoked + 1
  }

  function Returned(v: Service, call: Call): int {
    2 * if call.reply.Replied? then call.reply.time else |v.labels|
  }

  /** Executed requests are different requests. */
  lemma OneExecution(log: seq<Op>, p: nat, q: nat)
    requires p < |log| && q < |log| && RecordHigh(log, p) && RecordHigh(log, q) && Key(log[p]) == Key(log[q])
    ensures p == q
  {
  }

  /** If p was executed no later than q, the request of q returned in a later step than that of p was made. */
  lemma OrderRespectsTime(v: Service, log: seq<Op>, p: nat, q: nat)
    requires ServiceRun(v) && RepliesOwn(v) && Shared(v, log) && p <= q < |log| && RecordHigh(log, q)
    ensures ClockOf(v)(log[q]).1 > ClockOf(v)(log[p]).0
  {
    hide Fed, IsRun, RecordHigh;
    var t: nat, j: nat :| t < v.n && j < |v.states| && log == LogAt(v, t, j);
    GivenWasRequested(v, t, j, p);
    GivenWasRequested(v, t, j, q);
    RunLength(v);
    var key := Key(log[q]);
    if v.calls[key].reply.Replied? {
      var s, i, r := ReplyPlace(v, log, key);
      OneExecution(log, r, q);
      GivenWasRequested(v, s, i, p);
    }
  }

  lemma RunLength(v: Service)
    requires SafeRun(v.n, v.states, v.labels)
    ensures |v.states| == |v.labels| + 1
  {
  }

  /** x is the operation of a call, with its answer if there was one and any other if not. */
  predicate IsOperation(v: Service, call: Call, x: KvOp) {
    && x.clientId == call.op.clientId && x.input == ToInput(call.op)
    && x.call == Made(call) && x.ret == Returned(v, call)
    && (call.reply.Replied? ==> x.output.value == call.reply.output)
  }

  /**
   A complete history of the calls: every replied request once, and some of the
   requests without a reply, as if they returned at the end.
   */
  ghost predicate Completes(v: Service, keys: seq<(int, int)>, history: seq<KvOp>) {
    && |keys| == |history|
    && (forall i, j :: 0 <= i < j < |keys| ==> keys[i] != keys[j])
    && (forall i :: 0 <= i < |keys| ==> keys[i] in v.calls && IsOperation(v, v.calls[keys[i]], history[i]))
    && (forall k :: k in v.calls && v.calls[k].reply.Replied? ==> k in keys)
  }

  /** The request executed at each place. */
  ghost function KeysAt(log: seq<Op>, places: seq<nat>): (keys: seq<(int, int)>)
    requires forall i :: 0 <= i < |places| ==> places[i] < |log|
    ensures |keys| == |places| && forall i :: 0 <= i < |places| ==> keys[i] == Key(log[places[i]])
  {
    seq(|places|, i requires 0 <= i < |places| => Key(log[places[i]]))
  }

  lemma TraceCompletes(v: Service, log: seq<Op>) returns (keys: seq<(int, int)>)
    requires ServiceRun(v) && RepliesOwn(v) && Shared(v, log)
    ensures Completes(v, keys, Trace(log, ClockOf(v)))
  {
    hide Fed, IsRun, Run, Execute, RecordHigh, Trace, Places, Shared;
    var places, history := Places(log), Trace(log, ClockOf(v));
    PlacesAreRecords(log);
    PlacesOfTrace(log, ClockOf(v));
    forall i | 0 <= i < |places| ensures places[i] < |log| {
      assert places[i] in places;
    }
    keys := KeysAt(log, places);
    forall i | 0 <= i < |keys| ensures keys[i] in v.calls && IsOperation(v, v.calls[keys[i]], history[i]) {
      assert places[i] in places && PlaceOk(log, ClockOf(v), i);
      ExecutedIsOperation(v, log, places[i]);
    }
    forall i, j | 0 <= i < j < |keys| ensures keys[i] != keys[j] {
      assert places[i] in places && places[j] in places;
      if keys[i] == keys[j] {
        OneExecution(log, places[i], places[j]);
      }
    }
    forall k | k in v.calls && v.calls[k].reply.Replied? ensures k in keys {
      var s, t, p := ReplyPlace(v, log, k);
      assert p in places;
      var i :| 0 <= i < |places| && places[i] == p;
      assert keys[i] == k;
    }
  }

  lemma ExecutedIsOperation(v: Service, log: seq<Op>, p: nat)
    requires ServiceRun(v) && RepliesOwn(v) && Shared(v, log) && p < |log| && RecordHigh(log, p)
    ensures Key(log[p]) in v.calls
    ensures IsOperation(v, v.calls[Key(log[p])], Answered(Run(log[..p]).values, log[p], ClockOf(v)))
  {
    hide Fed, IsRun, Run, Execute, RecordHigh;
    var t: nat, j: nat :| t < v.n && j < |v.states| && log == LogAt(v, t, j);
    GivenWasRequested(v, t, j, p);
    var key := Key(log[p]);
    if v.calls[key].reply.Replied? {
      var s, i, r := ReplyPlace(v, log, key);
      OneExecution(log, r, p);
    }
  }

  /**
   Whatever requests clients make of the replicated service, and whatever the run
   does to messages and servers, the replies they got are those of a linearizable
   history of the whole map, as long as no reply was overtaken by a newer request of
   the same client.  In the history every operation returns after it was called.
   */
  lemma ServiceIsLinearizable(v: Service) returns (keys: seq<(int, int)>, history: seq<KvOp>)
    requires ServiceRun(v) && RepliesOwn(v)
    ensures Completes(v, keys, history) && Timed(history) && L.Linearizable(MapModel(), history)
  {
    hide ServiceRun, Completes, Trace, Places, L.Accepts;
    assert SafeRun(v.n, v.states, v.labels) by {
      InService(v);
    }
    var log := SharedExists(v);
    keys := TraceCompletes(v, log);
    history := Trace(log, ClockOf(v));
    TraceAccepted(log, ClockOf(v));
    TraceRespectsTime(v, log);
    assert L.Linearizes(MapModel(), history, history);
  }

  lemma InService(v: Service)
    requires ServiceRun(v)
    ensures SafeRun(v.n, v.states, v.labels)
  {
  }

  lemma TraceRespectsTime(v: Service, log: seq<Op>)
    requires ServiceRun(v) && RepliesOwn(v) && Shared(v, log)
    ensures L.RespectsRealTime(Trace(log, ClockOf(v))) && Timed(Trace(log, ClockOf(v)))
  {
    hide Fed, IsRun, Run, Execute, RecordHigh, Trace, Places, Shared, ServiceRun, ClockOf;
    var places, history := Places(log), Trace(log, ClockOf(v));
    PlacesAreRecords(log);
    PlacesOfTrace(log, ClockOf(v));
    forall i, j | 0 <= i < j < |history| ensures !L.Precedes(history[j], history[i]) {
      assert places[i] in places && places[j] in places;
      assert PlaceOk(log, ClockOf(v), i) && PlaceOk(log, ClockOf(v), j);
      OrderRespectsTime(v, log, places[i], places[j]);
    }
    forall i | 0 <= i < |history| ensures history[i].call <= history[i].ret {
      assert places[i] in places && PlaceOk(log, ClockOf(v), i);
      OrderRespectsTime(v, log, places[i], places[i]);
    }
  }

  // ---------------------------------------------- how handlers come to their answers

  /** At some time up to i server s had been given exactly the first j of its commands. */
  lemma {:induction false} HadGiven(v: Service, s: nat, i: nat, j: nat) returns (i': nat)
    requires SafeRun(v.n, v.states, v.labels) && s < v.n && i < |v.states| && j <= |LogAt(v, s, i)|
    ensures i' <= i && LogAt(v, s, i') == LogAt(v, s, i)[..j]
  {
    i' := FedBefore(v.n, v.states, v.labels, s, i, j);
    hide Fed, IsRun;
    ServicesAgree(v.n, v.states, v.labels, i', i, s, s);
  }

  /** What is fed to a service grows by one command at a time. */
  lemma {:induction false} FedBefore(n: nat, states: seq<Cluster>, labels: seq<Label>, s: nat, i: nat, j: nat)
    returns (i': nat)
    requires IsRun(n, states, labels) && i < |states| && j <= |Fed(n, states, labels, s, i)|
    ensures i' <= i && |Fed(n, states, labels, s, i')| == j
    decreases i
  {
    if |Fed(n, states, labels, s, i)| == j {
      i' := i;
    } else {
      hide IsRun;
      i' := FedBefore(n, states, labels, s, i - 1, j);
    }
  }

  /** What Operation takes from the table at its end; a missing entry is the zero Result. */
  ghost function FromTable(log: seq<Op>, op: Op): string {
    if op.clientId in Run(log).lastRequest then Run(log).lastRequest[op.clientId].result else ""
  }

  /**
   A handler of the rendezvous that went on, with the message of index j, and found
   its own operation in it, answers as AnsweredAt says, whether j is its own index or
   an earlier one: `run` is a run of the rendezvous on server s, which has applied no
   more than the server was given at time i.
   */
  lemma HandlerAnswers(
    v: Service, call: Call, s: nat, i: nat, run: seq<KvRendezvous.System>, steps: seq<KvRendezvous.Step>, m: nat, h: nat)
    returns (i': nat)
    requires SafeRun(v.n, v.states, v.labels) && s < v.n && i < |v.states|
    requires KvRendezvous.IsRun(run, steps) && m < |run| && h < |run[m].handlers| && run[m].handlers[h].outcome.Took?
    requires run[m].lastIndex <= |LogAt(v, s, i)| && call.reply.Replied? && i <= call.reply.time
    requires var j, log := run[m].handlers[h].outcome.index, LogAt(v, s, i);
             1 <= j <= |log| ==> log[j - 1] == call.op && call.reply.output == FromTable(log[..j], call.op)
    ensures AnsweredAt(v, call, s, i')
  {
    hide Fed, IsRun, Run;
    var j, log := run[m].handlers[h].outcome.index, LogAt(v, s, i);
    KvRendezvous.TookWasApplied(run, steps, m, h);
    i' := HadGiven(v, s, i, j);
    assert log[..j][j - 1] == call.op;
    TableHolds(log[..j], call.op.clientId);
  }
}
