/**
 A client with two requests under way.  The newer one gets into the log first, so the
 older one is taken for a duplicate and never executed, and its handler, which finds
 it applied, answers with the result of the newer one.
 */
module KvConcurrentClient {
  import opened RaftNode
  import opened RaftCluster
  import opened RaftRuns
  import opened KvServer
  import opened KvReplicas
  import opened KvLinearizability
  import opened KvHistory
  import L = Linearizability

  /** Client 1 appends "a" and "b", in this order of request numbers, and client 2 reads. */
  const OLDER := Op(Append, "k", "a", 1, 0)
  const NEWER := Op(Append, "k", "b", 1, 1)
  const READ := Op(Get, "k", "", 2, 0)

  function Decode(c: Command): Op {
    if c == "older" then OLDER else if c == "newer" then NEWER else READ
  }

  // -------------------------------------------------------- a cluster of one server

  function Entry(i: int, c: Command): LogEntry {
    LogEntry(i, 1, c)
  }

  /** The only server, leading term 1. */
  function Only(log: Log, commit: int, applied: int): Node {
    Node(1, 0, log, Leader, commit, applied, [0], [|log| - 1], Disk(1, 0, log))
  }

  lemma Leads() returns (c1: Cluster, c2: Cluster)
    ensures IsStep(Init(1), Timeout(0), c1) && IsStep(c1, Elected(0), c2)
    ensures |c1.nodes| == 1 && c2.nodes == [Only([], -1, -1)]
  {
    c1 := Next(Init(1), Timeout(0));
    assert c1.nodes[0].role == Candidate && |c1.nodes| == 1;
    assert Majority(1) == 1;
    c2 := Next(c1, Elected(0));
    assert c2.nodes[0].nextIndex == [0] && c2.nodes[0].matchIndex == [-1];
  }

  lemma Starts(c: Cluster, log: Log, commit: int, applied: int, x: Command) returns (c': Cluster)
    requires c.nodes == [Only(log, commit, applied)]
    ensures IsStep(c, RaftCluster.Start(0, x), c') && c'.nodes == [Only(log + [Entry(|log|, x)], commit, applied)]
  {
    c' := Next(c, RaftCluster.Start(0, x));
    assert c'.nodes[0].matchIndex == [|log|];
  }

  lemma Advances(c: Cluster, log: Log, commit: int, applied: int) returns (c': Cluster)
    requires c.nodes == [Only(log, commit, applied)] && -1 <= commit < |log| - 1
    requires forall i :: 0 <= i < |log| ==> log[i].term == 1
    ensures IsStep(c, Advance(0), c') && c'.nodes == [Only(log, |log| - 1, applied)]
  {
    var l := LargestOnMajority([|log| - 1], |log| - 1, commit + 1);
    assert l < |log| - 1 ==> NReplicated([|log| - 1], l + 1) == 1;
    hide LargestOnMajority, NReplicated;
    c' := Next(c, Advance(0));
  }

  lemma Applies(c: Cluster, log: Log, commit: int, applied: int) returns (c': Cluster)
    requires c.nodes == [Only(log, commit, applied)] && -1 <= applied < commit < |log|
    ensures IsStep(c, RaftCluster.Apply(0), c') && c'.nodes == [Only(log, commit, applied + 1)]
    ensures CanDeliver(c.nodes[0]) && Deliver(c.nodes[0]).1 == log[applied + 1].command
  {
    c' := Next(c, RaftCluster.Apply(0));
  }

  function Labels(): seq<Label> {
    [Timeout(0), Elected(0), RaftCluster.Start(0, "newer"), RaftCluster.Start(0, "older"), Advance(0),
     RaftCluster.Apply(0), RaftCluster.Apply(0), RaftCluster.Start(0, "read"), Advance(0), RaftCluster.Apply(0)]
  }

  /** The run: both appends, newer first, and then the read. */
  lemma TheRun() returns (states: seq<Cluster>)
    ensures IsRun(1, states, Labels())
    ensures Fed(1, states, Labels(), 0, 6) == ["newer"]
    ensures Fed(1, states, Labels(), 0, 7) == ["newer", "older"]
    ensures Fed(1, states, Labels(), 0, 10) == ["newer", "older", "read"]
  {
    hide Next, Enabled, NoPanic;
    var c1, c2 := Leads();
    var one, two := [Entry(0, "newer")], [Entry(0, "newer"), Entry(1, "older")];
    var three := two + [Entry(2, "read")];
    var c3 := Starts(c2, [], -1, -1, "newer");
    assert [] + [Entry(0, "newer")] == one;
    var c4 := Starts(c3, one, -1, -1, "older");
    assert one + [Entry(1, "older")] == two;
    var c5 := Advances(c4, two, -1, -1);
    var c6 := Applies(c5, two, 1, -1);
    var c7 := Applies(c6, two, 1, 0);
    var c8 := Starts(c7, two, 1, 1, "read");
    var c9 := Advances(c8, three, 1, 1);
    var c10 := Applies(c9, three, 2, 1);
    hide Only, CanDeliver, Deliver;
    states := [Init(1), c1, c2, c3, c4, c5, c6, c7, c8, c9, c10];
    FedOnTheWay(states);
  }

  lemma FedOnTheWay(states: seq<Cluster>)
    requires IsRun(1, states, Labels()) && |states| == 11
    requires forall i :: 0 <= i < 11 ==> |states[i].nodes| == 1
    requires CanDeliver(states[5].nodes[0]) && Deliver(states[5].nodes[0]).1 == "newer"
    requires CanDeliver(states[6].nodes[0]) && Deliver(states[6].nodes[0]).1 == "older"
    requires CanDeliver(states[9].nodes[0]) && Deliver(states[9].nodes[0]).1 == "read"
    ensures Fed(1, states, Labels(), 0, 6) == ["newer"]
    ensures Fed(1, states, Labels(), 0, 7) == ["newer", "older"]
    ensures Fed(1, states, Labels(), 0, 10) == ["newer", "older", "read"]
  {
    hide IsRun, Next, Deliver;
    assert Fed(1, states, Labels(), 0, 1) == [];
    assert Fed(1, states, Labels(), 0, 3) == [];
    assert Fed(1, states, Labels(), 0, 5) == [];
    assert Fed(1, states, Labels(), 0, 8) == Fed(1, states, Labels(), 0, 7);
  }

  // --------------------------------------------------------- what the clients see

  function Calls(): map<(int, int), Call> {
    map[(1, 0) := Call(OLDER, 3, Replied("", 7)),
        (1, 1) := Call(NEWER, 2, Replied("", 6)),
        (2, 0) := Call(READ, 7, Replied("b", 10))]
  }

  lemma StateOfLog()
    ensures Answers([NEWER], NEWER, "") && Answers([NEWER, OLDER], OLDER, "") && Answers([NEWER, OLDER, READ], READ, "b")
  {
    assert [NEWER, OLDER][..1] == [NEWER] && [NEWER, OLDER, READ][..2] == [NEWER, OLDER];
  }

  /** The three operations as a history has them. */
  function Older(): KvOp {
    L.Operation(1, ToInput(OLDER), 7, KvOutput(""), 14)
  }

  function Newer(): KvOp {
    L.Operation(1, ToInput(NEWER), 5, KvOutput(""), 12)
  }

  function Read(): KvOp {
    L.Operation(2, ToInput(READ), 15, KvOutput("b"), 20)
  }

  /** After both appends the value has two characters, in either order. */
  lemma ReadNeverAccepted(order: seq<KvOp>)
    requires |order| == 3 && Older() in order && Newer() in order && Read() in order && L.RespectsRealTime(order)
    ensures !L.Accepts(MapModel(), map[], order)
  {
    assert L.Precedes(Older(), Read()) && L.Precedes(Newer(), Read());
    assert order[2] == Read();
    var x, y := order[0], order[1];
    var s1 := MapStep(map[], x.input, x.output).1;
    var s2 := MapStep(s1, y.input, y.output).1;
    assert |Lookup(s1, "k")| == 1 && |Lookup(s2, "k")| == 2;
    assert !MapStep(s2, order[2].input, order[2].output).0;
    assert order[1..][0] == y && order[1..][1..][0] == order[2];
    assert !L.Accepts(MapModel(), s2, order[1..][1..]);
    assert !L.Accepts(MapModel(), s1, order[1..]);
  }

  /**
   The run, with these calls, meets all that the service promises and all that is
   assumed of clients but their waiting, and no completion of it is linearizable.
   */
  lemma ConcurrentClientFails() returns (v: Service)
    ensures ServiceRun(v) && !RepliesOwn(v)
    ensures forall keys, history :: Completes(v, keys, history) ==> !L.Linearizable(MapModel(), history)
  {
    var states := TheRun();
    v := Service(Decode, 1, states, Labels(), Calls());
    ServesThem(v);
    if RepliesOwn(v) {
      var keys, history := ServiceIsLinearizable(v);
      NoOrder(v, keys, history);
    }
    forall keys, history | Completes(v, keys, history) ensures !L.Linearizable(MapModel(), history) {
      NoOrder(v, keys, history);
    }
  }

  lemma NoOrder(v: Service, keys: seq<(int, int)>, history: seq<KvOp>)
    requires v.calls == Calls() && |v.labels| == 10 && Completes(v, keys, history)
    ensures !L.Linearizable(MapModel(), history)
  {
    forall order ensures !L.Linearizes(MapModel(), history, order) {
      if L.Linearizes(MapModel(), history, order) {
        ThreeOperations(v, keys, history);
        assert |order| == |multiset(order)| == |history|;
        assert Older() in multiset(order) && Newer() in multiset(order) && Read() in multiset(order);
        ReadNeverAccepted(order);
      }
    }
  }

  lemma ThreeOperations(v: Service, keys: seq<(int, int)>, history: seq<KvOp>)
    requires v.calls == Calls() && |v.labels| == 10 && Completes(v, keys, history)
    ensures |history| == 3 && Older() in history && Newer() in history && Read() in history
  {
    var all := {(1, 0), (1, 1), (2, 0)};
    assert (1, 0) in keys && (1, 1) in keys && (2, 0) in keys;
    var i :| 0 <= i < |keys| && keys[i] == (1, 0);
    var j :| 0 <= j < |keys| && keys[j] == (1, 1);
    var k :| 0 <= k < |keys| && keys[k] == (2, 0);
    assert history[i] == Older() && history[j] == Newer() && history[k] == Read();
    Pigeons(keys, all);
  }

  lemma {:induction false} Pigeons(keys: seq<(int, int)>, all: set<(int, int)>)
    requires forall i, j :: 0 <= i < j < |keys| ==> keys[i] != keys[j]
    requires forall i :: 0 <= i < |keys| ==> keys[i] in all
    ensures |keys| <= |all|
    decreases |keys|
  {
    if keys != [] {
      var n := |keys| - 1;
      Pigeons(keys[..n], all - {keys[n]});
    }
  }

  lemma ServesThem(v: Service)
    requires v.decode == Decode && v.n == 1 && v.labels == Labels() && v.calls == Calls()
    requires IsRun(1, v.states, v.labels)
    requires Fed(1, v.states, Labels(), 0, 6) == ["newer"]
    requires Fed(1, v.states, Labels(), 0, 7) == ["newer", "older"]
    requires Fed(1, v.states, Labels(), 0, 10) == ["newer", "older", "read"]
    ensures ServiceRun(v)
  {
    assert |v.states| == |Labels()| + 1;
    hide IsRun, Fed, RepliesOk, ClientsOk, Labels, Calls;
    RepliesThem(v);
    RequestsThem(v);
  }

  lemma RequestsThem(v: Service)
    requires v.decode == Decode && v.labels == Labels() && v.calls == Calls()
    ensures ClientsOk(v)
  {
    assert Decode("older") == OLDER && Decode("newer") == NEWER && Decode("read") == READ;
    hide Decode;
    assert Submitted(v, 2) && Submitted(v, 3) && Submitted(v, 7);
  }

  lemma RepliesThem(v: Service)
    requires v.decode == Decode && v.n == 1 && v.labels == Labels() && v.calls == Calls()
    requires |v.states| == |Labels()| + 1 && IsRun(1, v.states, v.labels)
    requires Fed(1, v.states, Labels(), 0, 6) == ["newer"]
    requires Fed(1, v.states, Labels(), 0, 7) == ["newer", "older"]
    requires Fed(1, v.states, Labels(), 0, 10) == ["newer", "older", "read"]
    ensures RepliesOk(v)
  {
    hide IsRun, Fed, Answers;
    StateOfLog();
    assert LogAt(v, 0, 6) == [NEWER];
    assert LogAt(v, 0, 7) == [NEWER, OLDER];
    assert LogAt(v, 0, 10) == [NEWER, OLDER, READ];
    hide LogAt;
    assert AnsweredAt(v, v.calls[(1, 0)], 0, 7);
    assert AnsweredAt(v, v.calls[(1, 1)], 0, 6);
    assert AnsweredAt(v, v.calls[(2, 0)], 0, 10);
  }
}
