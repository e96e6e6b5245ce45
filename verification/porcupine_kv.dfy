/**
 The key/value model of src/models/kv.go.  Its states are the values of a single
 key, because Partition splits a history by key; Locality is the promise that
 model.go makes for Partition, against the model of the whole map.
 */
module KvLinearizability {
  import opened Linearizability
  import opened HistoryEntries

  datatype KvInput = KvInput(op: int, key: string, value: string)

  datatype KvOutput = KvOutput(value: string)

  type KvOp = Operation<KvInput, KvOutput>

  function KvStep(state: string, input: KvInput, output: KvOutput): (bool, string) {
    if input.op == 0 then (output.value == state, state)
    else if input.op == 1 then (true, input.value)
    else (true, state + input.value)
  }

  function KvModel(): Model<string, KvInput, KvOutput> {
    Model("", KvStep, (a, b) => a == b)
  }

  // ---------------------------------------------------- the whole map

  function Lookup(s: map<string, string>, key: string): string {
    if key in s then s[key] else ""
  }

  function MapStep(s: map<string, string>, input: KvInput, output: KvOutput): (bool, map<string, string>) {
    var (ok, v) := KvStep(Lookup(s, input.key), input, output);
    (ok, s[input.key := v])
  }

  function MapModel(): Model<map<string, string>, KvInput, KvOutput> {
    Model(map[], MapStep, (a, b) => a == b)
  }

  lemma KvModelSound()
    ensures Sound(KvModel())
  {
  }

  // ------------------------------------------------- what the model accepts

  /** The last put before index i, or -1. */
  function LastPut(ops: seq<KvOp>, i: nat): (p: int)
    requires i <= |ops|
    ensures -1 <= p < i && (p >= 0 ==> ops[p].input.op == 1)
    ensures forall k :: p < k < i ==> ops[k].input.op != 1
  {
    if i == 0 || ops[i - 1].input.op == 1 then i - 1 else LastPut(ops, i - 1)
  }

  /** The values of the appends from index `from` up to `to`, one after the other. */
  function Appended(ops: seq<KvOp>, from: nat, to: nat): string
    requires from <= to <= |ops|
  {
    if from == to then ""
    else Appended(ops, from, to - 1)
         + if ops[to - 1].input.op == 0 || ops[to - 1].input.op == 1 then "" else ops[to - 1].input.value
  }

  /** What has been written before index i: the last put and the appends since. */
  function Written(ops: seq<KvOp>, i: nat): string
    requires i <= |ops|
  {
    var p := LastPut(ops, i);
    (if p == -1 then "" else ops[p].input.value) + Appended(ops, p + 1, i)
  }

  /** Every get returns what has been written before it. */
  predicate ReadsWritten(ops: seq<KvOp>) {
    forall i :: 0 <= i < |ops| && ops[i].input.op == 0 ==> ops[i].output.value == Written(ops, i)
  }

  lemma WrittenMoves(ops: seq<KvOp>, i: nat)
    requires i < |ops|
    ensures Written(ops, i + 1) == KvStep(Written(ops, i), ops[i].input, ops[i].output).1
  {
  }

  lemma {:induction false} AcceptsFrom(ops: seq<KvOp>, j: nat)
    requires j <= |ops|
    ensures Accepts(KvModel(), Written(ops, j), ops[j..]) <==>
              forall i :: j <= i < |ops| && ops[i].input.op == 0 ==> ops[i].output.value == Written(ops, i)
    decreases |ops| - j
  {
    hide Written;
    if j < |ops| {
      AcceptsFrom(ops, j + 1);
      WrittenMoves(ops, j);
      assert ops[j..][1..] == ops[j + 1..];
    }
  }

  /** The model accepts an order exactly when every get returns what has been written before it. */
  lemma KvAcceptsIff(ops: seq<KvOp>)
    ensures Accepts(KvModel(), "", ops) <==> ReadsWritten(ops)
  {
    AcceptsFrom(ops, 0);
    assert ops[0..] == ops && Written(ops, 0) == "";
    hide Written, Accepts;
  }

  // -------------------------------------------------------- projections

  function OfKey(ops: seq<KvOp>, key: string): seq<KvOp> {
    if ops == [] then []
    else if ops[0].input.key == key then [ops[0]] + OfKey(ops[1..], key)
    else OfKey(ops[1..], key)
  }

  lemma {:induction false} OfKeyCounts(ops: seq<KvOp>, key: string, x: KvOp)
    ensures multiset(OfKey(ops, key))[x] == if x.input.key == key then multiset(ops)[x] else 0
    decreases |ops|
  {
    if ops != [] {
      OfKeyCounts(ops[1..], key, x);
      assert ops == [ops[0]] + ops[1..];
    }
  }

  lemma OfKeyMultiset(a: seq<KvOp>, b: seq<KvOp>, key: string)
    requires multiset(a) == multiset(b)
    ensures multiset(OfKey(a, key)) == multiset(OfKey(b, key))
  {
    forall x: KvOp ensures multiset(OfKey(a, key))[x] == multiset(OfKey(b, key))[x] {
      OfKeyCounts(a, key, x);
      OfKeyCounts(b, key, x);
    }
  }

  lemma OfKeyMembers(ops: seq<KvOp>, key: string, x: KvOp)
    ensures x in OfKey(ops, key) <==> x in ops && x.input.key == key
  {
  }

  lemma {:induction false} OfKeyAppend(ops: seq<KvOp>, x: KvOp, key: string)
    ensures OfKey(ops + [x], key) == OfKey(ops, key) + if x.input.key == key then [x] else []
    decreases |ops|
  {
    if ops == [] {
      assert [x][1..] == [];
    } else {
      OfKeyAppend(ops[1..], x, key);
      assert (ops + [x])[1..] == ops[1..] + [x];
    }
  }

  lemma {:induction false} OfKeyRespects(ops: seq<KvOp>, key: string)
    requires RespectsRealTime(ops)
    ensures RespectsRealTime(OfKey(ops, key))
    decreases |ops|
  {
    if ops != [] {
      OfKeyRespects(ops[1..], key);
      var rest := OfKey(ops[1..], key);
      forall j | 0 <= j < |rest| ensures !Precedes(rest[j], ops[0]) {
        OfKeyMembers(ops[1..], key, rest[j]);
        var i :| 0 <= i < |ops[1..]| && ops[1..][i] == rest[j];
        assert ops[1 + i] == rest[j];
      }
    }
  }

  /** The map model accepts an order exactly when each key's part is accepted on its own. */
  lemma {:induction false} AcceptsByKey(s: map<string, string>, ops: seq<KvOp>)
    ensures Accepts(MapModel(), s, ops) <==> forall key :: Accepts(KvModel(), Lookup(s, key), OfKey(ops, key))
    decreases |ops|
  {
    if ops == [] {
    } else {
      var k0 := ops[0].input.key;
      var (ok, v) := KvStep(Lookup(s, k0), ops[0].input, ops[0].output);
      var s' := s[k0 := v];
      AcceptsByKey(s', ops[1..]);
      forall key
        ensures Accepts(KvModel(), Lookup(s, key), OfKey(ops, key)) <==>
                  (key == k0 ==> ok) && Accepts(KvModel(), Lookup(s', key), OfKey(ops[1..], key))
      {
        assert key == k0 ==> OfKey(ops, key)[1..] == OfKey(ops[1..], key);
      }
      assert Accepts(KvModel(), Lookup(s, k0), OfKey(ops, k0)) ==> ok;
    }
  }

  /** The same for the whole map, key by key. */
  lemma MapAcceptsIff(ops: seq<KvOp>)
    ensures Accepts(MapModel(), map[], ops) <==> forall key :: ReadsWritten(OfKey(ops, key))
  {
    AcceptsByKey(map[], ops);
    forall key ensures Accepts(KvModel(), Lookup(map[], key), OfKey(ops, key)) <==> ReadsWritten(OfKey(ops, key)) {
      KvAcceptsIff(OfKey(ops, key));
    }
  }

  /** An order of the operations that respects real time and in which every get returns what was written to its key. */
  ghost predicate Explains(order: seq<KvOp>, history: seq<KvOp>) {
    multiset(order) == multiset(history) && RespectsRealTime(order) && forall key :: ReadsWritten(OfKey(order, key))
  }

  lemma ExplainsIff(order: seq<KvOp>, history: seq<KvOp>)
    ensures Linearizes(MapModel(), history, order) <==> Explains(order, history)
  {
    MapAcceptsIff(order);
    assert Accepts(MapModel(), map[], order) <==> forall key :: ReadsWritten(OfKey(order, key));
    assert MapModel().init == map[];
  }

  /** A history is linearizable exactly when there is such an order. */
  lemma LinearizableIff(history: seq<KvOp>)
    ensures Linearizable(MapModel(), history) <==> exists order :: Explains(order, history)
  {
    forall order ensures Linearizes(MapModel(), history, order) <==> Explains(order, history) {
      ExplainsIff(order, history);
    }
  }

  // ------------------------------------------------------------ merging

  /** Lists of operations, one list per key. */
  ghost predicate Split(keys: seq<string>, parts: seq<seq<KvOp>>) {
    && |keys| == |parts|
    && (forall i, j :: 0 <= i < j < |keys| ==> keys[i] != keys[j])
    && (forall i :: 0 <= i < |parts| ==> PartOk(keys[i], parts[i]))
  }

  ghost predicate PartOk(key: string, part: seq<KvOp>) {
    RespectsRealTime(part) && Timed(part) && forall j :: 0 <= j < |part| ==> part[j].input.key == key
  }

  function Total(parts: seq<seq<KvOp>>): nat {
    if parts == [] then 0 else |parts[0]| + Total(parts[1..])
  }

  lemma {:induction false} TotalDrops(parts: seq<seq<KvOp>>, i: nat)
    requires i < |parts| && parts[i] != []
    ensures Total(parts[i := parts[i][1..]]) == Total(parts) - 1
    decreases i
  {
    if i > 0 {
      TotalDrops(parts[1..], i - 1);
      assert parts[i := parts[i][1..]][1..] == parts[1..][i - 1 := parts[i][1..]];
    }
  }

  lemma {:induction false} FirstReturnIn(part: seq<KvOp>) returns (j: nat)
    requires part != []
    ensures j < |part| && forall b :: 0 <= b < |part| ==> part[j].ret <= part[b].ret
    decreases |part|
  {
    var last := |part| - 1;
    j := last;
    if last > 0 {
      var i := FirstReturnIn(part[..last]);
      assert part[..last][i] == part[i];
      if part[i].ret <= part[last].ret {
        j := i;
      }
      forall b | 0 <= b < |part| ensures part[j].ret <= part[b].ret {
        assert b < last ==> part[..last][b] == part[b];
      }
    }
  }

  /** Some remaining operation returns before, or together with, all others. */
  lemma {:induction false} FirstReturn(parts: seq<seq<KvOp>>) returns (i: nat, j: nat)
    requires Total(parts) > 0
    ensures i < |parts| && j < |parts[i]|
    ensures forall a, b :: 0 <= a < |parts| && 0 <= b < |parts[a]| ==> parts[i][j].ret <= parts[a][b].ret
    decreases |parts|
  {
    if Total(parts[1..]) == 0 {
      NothingIn(parts[1..]);
      i := 0;
      j := FirstReturnIn(parts[0]);
      assert forall a :: 0 < a < |parts| ==> parts[1..][a - 1] == parts[a];
    } else {
      i, j := FirstReturn(parts[1..]);
      var x := parts[1..][i][j];
      i := i + 1;
      if parts[0] != [] {
        var b := FirstReturnIn(parts[0]);
        if parts[0][b].ret < x.ret {
          i, j := 0, b;
        }
      }
      forall a, b | 0 <= a < |parts| && 0 <= b < |parts[a]| ensures parts[i][j].ret <= parts[a][b].ret {
        assert a > 0 ==> parts[1..][a - 1] == parts[a];
      }
    }
  }

  lemma {:induction false} NothingIn(parts: seq<seq<KvOp>>)
    requires Total(parts) == 0
    ensures forall i :: 0 <= i < |parts| ==> parts[i] == []
    decreases |parts|
  {
    if parts != [] {
      NothingIn(parts[1..]);
      assert forall i :: 0 < i < |parts| ==> parts[i] == parts[1..][i - 1];
    }
  }

  ghost predicate Merges(keys: seq<string>, parts: seq<seq<KvOp>>, order: seq<KvOp>) {
    && |keys| == |parts|
    && RespectsRealTime(order)
    && (forall i :: 0 <= i < |keys| ==> OfKey(order, keys[i]) == parts[i])
    && (forall x :: x in order ==> x.input.key in keys)
  }

  /** Orders of the keys can be merged into one order that respects real time. */
  lemma {:induction false} Merge(keys: seq<string>, parts: seq<seq<KvOp>>) returns (order: seq<KvOp>)
    requires Split(keys, parts)
    ensures Merges(keys, parts, order)
    decreases Total(parts)
  {
    if Total(parts) == 0 {
      NothingIn(parts);
      order := [];
    } else {
      var i, j := FirstReturn(parts);
      var head, parts' := parts[i][0], parts[i := parts[i][1..]];
      TotalDrops(parts, i);
      var rest := Merge(keys, parts');
      order := [head] + rest;
      PrependHead(keys, parts, i, rest);
    }
  }

  lemma PrependHead(keys: seq<string>, parts: seq<seq<KvOp>>, i: nat, rest: seq<KvOp>)
    requires Split(keys, parts) && i < |parts| && parts[i] != [] && Merges(keys, parts[i := parts[i][1..]], rest)
    requires forall a, b :: 0 <= a < |parts| && 0 <= b < |parts[a]| ==> !Precedes(parts[a][b], parts[i][0])
    ensures Merges(keys, parts, [parts[i][0]] + rest)
  {
    var head, order, parts' := parts[i][0], [parts[i][0]] + rest, parts[i := parts[i][1..]];
    assert PartOk(keys[i], parts[i]);
    assert order[1..] == rest;
    forall n | 0 <= n < |rest| ensures !Precedes(rest[n], head) {
      var x := rest[n];
      assert x in rest;
      var a :| 0 <= a < |keys| && keys[a] == x.input.key;
      OfKeyMembers(rest, keys[a], x);
      assert x in parts'[a];
      assert x in parts[a];
    }
    forall a | 0 <= a < |keys| ensures OfKey(order, keys[a]) == parts[a] {
      assert OfKey(rest, keys[a]) == parts'[a];
    }
  }

  // ------------------------------------------------------------- locality

  ghost predicate IsPartition(history: seq<KvOp>, keys: seq<string>, parts: seq<seq<KvOp>>) {
    && |keys| == |parts|
    && (forall i, j :: 0 <= i < j < |keys| ==> keys[i] != keys[j])
    && (forall x :: x in history ==> x.input.key in keys)
    && (forall i :: 0 <= i < |keys| ==> parts[i] == OfKey(history, keys[i]))
  }

  lemma PartsFollow(history: seq<KvOp>, key: string)
    requires Linearizable(MapModel(), history)
    ensures Linearizable(KvModel(), OfKey(history, key))
  {
    var order :| Linearizes(MapModel(), history, order);
    AcceptsByKey(map[], order);
    assert Lookup(map[], key) == "";
    OfKeyMultiset(order, history, key);
    OfKeyRespects(order, key);
    assert Linearizes(KvModel(), OfKey(history, key), OfKey(order, key));
  }

  lemma {:induction false} Choose(parts: seq<seq<KvOp>>) returns (orders: seq<seq<KvOp>>)
    requires forall i :: 0 <= i < |parts| ==> Linearizable(KvModel(), parts[i])
    ensures |orders| == |parts| && forall i :: 0 <= i < |parts| ==> Linearizes(KvModel(), parts[i], orders[i])
    decreases |parts|
  {
    if parts == [] {
      orders := [];
    } else {
      var last := |parts| - 1;
      var order :| Linearizes(KvModel(), parts[last], order);
      orders := Choose(parts[..last]);
      orders := orders + [order];
    }
  }

  lemma WholeFollows(history: seq<KvOp>, keys: seq<string>, parts: seq<seq<KvOp>>)
    requires IsPartition(history, keys, parts) && Timed(history)
    requires forall i :: 0 <= i < |parts| ==> Linearizable(KvModel(), parts[i])
    ensures Linearizable(MapModel(), history)
  {
    var orders := Choose(parts);
    forall i | 0 <= i < |parts| ensures PartOk(keys[i], orders[i]) {
      OrderPartOk(history, keys[i], orders[i]);
    }
    var order := Merge(keys, orders);
    SameOperations(history, keys, orders, order);
    forall key ensures Accepts(KvModel(), Lookup(map[], key), OfKey(order, key)) {
      KeyAccepted(keys, orders, order, key);
    }
    AcceptsByKey(map[], order);
    assert Linearizes(MapModel(), history, order);
  }

  lemma OrderPartOk(history: seq<KvOp>, key: string, order: seq<KvOp>)
    requires Timed(history) && Linearizes(KvModel(), OfKey(history, key), order)
    ensures PartOk(key, order)
  {
    forall j | 0 <= j < |order| ensures order[j].input.key == key && order[j].call <= order[j].ret {
      assert order[j] in multiset(order);
      assert order[j] in OfKey(history, key);
      OfKeyMembers(history, key, order[j]);
    }
  }

  lemma KeyAccepted(keys: seq<string>, orders: seq<seq<KvOp>>, order: seq<KvOp>, key: string)
    requires Merges(keys, orders, order)
    requires forall i :: 0 <= i < |orders| ==> Accepts(KvModel(), "", orders[i])
    ensures Accepts(KvModel(), "", OfKey(order, key))
  {
    if key in keys {
      var i :| 0 <= i < |keys| && keys[i] == key;
      assert OfKey(order, keys[i]) == orders[i];
    } else if OfKey(order, key) != [] {
      OfKeyMembers(order, key, OfKey(order, key)[0]);
    }
  }

  lemma SameOperations(history: seq<KvOp>, keys: seq<string>, orders: seq<seq<KvOp>>, order: seq<KvOp>)
    requires Merges(keys, orders, order) && (forall x :: x in history ==> x.input.key in keys)
    requires forall i :: 0 <= i < |keys| ==> multiset(orders[i]) == multiset(OfKey(history, keys[i]))
    ensures multiset(order) == multiset(history)
  {
    forall x: KvOp ensures multiset(order)[x] == multiset(history)[x] {
      OfKeyCounts(order, x.input.key, x);
      OfKeyCounts(history, x.input.key, x);
      if x.input.key in keys {
        var i :| 0 <= i < |keys| && keys[i] == x.input.key;
        assert OfKey(order, keys[i]) == orders[i];
      } else {
        assert x !in multiset(order) && x !in multiset(history) by {
          assert x in multiset(order) <==> x in order;
          assert x in multiset(history) <==> x in history;
        }
      }
    }
  }

  /** The contract of Partition: the whole is linearizable if and only if each part is. */
  lemma Locality(history: seq<KvOp>, keys: seq<string>, parts: seq<seq<KvOp>>)
    requires IsPartition(history, keys, parts) && Timed(history)
    ensures Linearizable(MapModel(), history) <==>
              forall i :: 0 <= i < |parts| ==> Linearizable(KvModel(), parts[i])
  {
    if Linearizable(MapModel(), history) {
      forall i | 0 <= i < |parts| ensures Linearizable(KvModel(), parts[i]) {
        PartsFollow(history, keys[i]);
      }
    }
    if forall i :: 0 <= i < |parts| ==> Linearizable(KvModel(), parts[i]) {
      WholeFollows(history, keys, parts);
    }
  }
}
