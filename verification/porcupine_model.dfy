/**
 Linearizability as Herlihy and Wing define it, for a model given by an initial
 state and a step function, and the same notion on a history of call and return
 entries, where it can be decided one operation at a time.
 */
module Linearizability {

  /** The fields of porcupine.Model that the checker uses. */
  datatype Model<!S, !I, !O> = Model(
    init: S,
    step: (S, I, O) -> (bool, S),
    equal: (S, S) -> bool)

  datatype Operation<I, O> = Operation(clientId: int, input: I, call: int, output: O, ret: int)

  /** `equal` may identify states, but only states that accept the same futures. */
  ghost predicate Sound<S(!new), I(!new), O(!new)>(m: Model<S, I, O>) {
    && (forall s :: m.equal(s, s))
    && (forall s, s', i, o :: m.equal(s, s') ==> SameFuture(m, s, s', i, o))
  }

  predicate SameFuture<S, I, O>(m: Model<S, I, O>, s: S, s': S, i: I, o: O) {
    m.step(s, i, o).0 == m.step(s', i, o).0
    && (m.step(s, i, o).0 ==> m.equal(m.step(s, i, o).1, m.step(s', i, o).1))
  }

  // ---------------------------------------------------------- the definition

  predicate Accepts<S, I, O>(m: Model<S, I, O>, s: S, ops: seq<Operation<I, O>>) {
    ops == [] ||
    var (ok, s') := m.step(s, ops[0].input, ops[0].output);
    ok && Accepts(m, s', ops[1..])
  }

  /** a has returned before b is called. */
  predicate Precedes<I, O>(a: Operation<I, O>, b: Operation<I, O>) {
    a.ret < b.call
  }

  ghost predicate RespectsRealTime<I, O>(ops: seq<Operation<I, O>>) {
    forall i, j :: 0 <= i < j < |ops| ==> !Precedes(ops[j], ops[i])
  }

  ghost predicate Linearizes<S, I, O>(m: Model<S, I, O>, history: seq<Operation<I, O>>, order: seq<Operation<I, O>>) {
    multiset(order) == multiset(history) && RespectsRealTime(order) && Accepts(m, m.init, order)
  }

  ghost predicate Linearizable<S, I(!new), O(!new)>(m: Model<S, I, O>, history: seq<Operation<I, O>>) {
    exists order :: Linearizes(m, history, order)
  }

  // -------------------------------------------------------- entry histories

  datatype Entry<I, O> =
    | CallEntry(input: I, id: nat, time: int, clientId: int)
    | ReturnEntry(output: O, id: nat, time: int, clientId: int)

  /** Entries, and for each operation id the list positions (from 1) of its call and return. */
  datatype Hist<I, O> = Hist(entries: seq<Entry<I, O>>, callAt: seq<nat>, retAt: seq<nat>) {
    function N(): nat {
      |callAt|
    }

    function At(p: nat): Entry<I, O>
      requires 1 <= p <= |entries|
    {
      entries[p - 1]
    }
  }

  ghost predicate PairOk<I, O>(h: Hist<I, O>, id: nat)
    requires id < h.N() && |h.retAt| == h.N()
  {
    && 1 <= h.callAt[id] < h.retAt[id] <= |h.entries|
    && h.At(h.callAt[id]).CallEntry? && h.At(h.callAt[id]).id == id
    && h.At(h.retAt[id]).ReturnEntry? && h.At(h.retAt[id]).id == id
  }

  ghost predicate PlaceOk<I, O>(h: Hist<I, O>, p: nat)
    requires 1 <= p <= |h.entries| && |h.retAt| == h.N()
  {
    var e := h.At(p);
    e.id < h.N() && p == if e.CallEntry? then h.callAt[e.id] else h.retAt[e.id]
  }

  /** Each of the ids 0, ..., n - 1 has one call and, after it, one return. */
  ghost predicate WellFormed<I, O>(h: Hist<I, O>) {
    && |h.retAt| == h.N() && |h.entries| == 2 * h.N()
    && (forall id :: 0 <= id < h.N() ==> PairOk(h, id))
    && (forall p :: 1 <= p <= |h.entries| ==> PlaceOk(h, p))
  }

  function Ids(n: nat): (s: set<nat>)
    ensures forall i: nat :: i in s <==> i < n
  {
    if n == 0 then {} else Ids(n - 1) + {n - 1}
  }

  ghost predicate Within(ids: seq<nat>, n: nat) {
    forall i :: 0 <= i < |ids| ==> ids[i] < n
  }

  function Apply<S, I, O>(m: Model<S, I, O>, h: Hist<I, O>, s: S, id: nat): (bool, S)
    requires WellFormed(h) && id < h.N()
  {
    assert PairOk(h, id);
    m.step(s, h.At(h.callAt[id]).input, h.At(h.retAt[id]).output)
  }

  predicate AcceptsIds<S, I, O>(m: Model<S, I, O>, h: Hist<I, O>, s: S, ids: seq<nat>)
    requires WellFormed(h) && Within(ids, h.N())
  {
    ids == [] ||
    (Apply(m, h, s, ids[0]).0 && AcceptsIds(m, h, Apply(m, h, s, ids[0]).1, ids[1..]))
  }

  ghost predicate Distinct(ids: seq<nat>) {
    forall i, j :: 0 <= i < j < |ids| ==> ids[i] != ids[j]
  }

  ghost function Elements(ids: seq<nat>): set<nat> {
    set id | id in ids
  }

  ghost predicate InOrder<I, O>(h: Hist<I, O>, ids: seq<nat>)
    requires WellFormed(h) && Within(ids, h.N())
  {
    forall i, j :: 0 <= i < j < |ids| ==> !(h.retAt[ids[j]] < h.callAt[ids[i]])
  }

  /** An order of the operations not in B that respects the order of the entries. */
  ghost predicate IsOrder<I, O>(h: Hist<I, O>, B: set<nat>, ids: seq<nat>)
    requires WellFormed(h)
  {
    Distinct(ids) && Within(ids, h.N()) && Elements(ids) == Ids(h.N()) - B && InOrder(h, ids)
  }

  ghost predicate EntriesLinearizable<S, I, O>(m: Model<S, I, O>, h: Hist<I, O>)
    requires WellFormed(h)
  {
    exists ids :: IsOrder(h, {}, ids) && AcceptsIds(m, h, m.init, ids)
  }

  // --------------------------------------------- deciding it step by step

  /** No remaining operation has returned before id is called. */
  ghost predicate Minimal<I, O>(h: Hist<I, O>, B: set<nat>, id: nat)
    requires WellFormed(h)
  {
    id < h.N() && id !in B && forall o :: 0 <= o < h.N() && o !in B ==> !(h.retAt[o] < h.callAt[id])
  }

  /** From state s with the operations of B done, the rest can be completed. */
  ghost predicate CanFinish<S, I, O>(m: Model<S, I, O>, h: Hist<I, O>, B: set<nat>, s: S)
    requires WellFormed(h) && B <= Ids(h.N())
    decreases Ids(h.N()) - B
  {
    B == Ids(h.N()) ||
    exists id: nat :: Minimal(h, B, id) && Apply(m, h, s, id).0 && CanFinish(m, h, B + {id}, Apply(m, h, s, id).1)
  }

  lemma {:induction false} FinishIffOrder<S, I, O>(m: Model<S, I, O>, h: Hist<I, O>, B: set<nat>, s: S)
    requires WellFormed(h) && B <= Ids(h.N())
    ensures CanFinish(m, h, B, s) <==> exists ids :: IsOrder(h, B, ids) && AcceptsIds(m, h, s, ids)
    decreases Ids(h.N()) - B
  {
    if B == Ids(h.N()) {
      assert IsOrder(h, B, []) && AcceptsIds(m, h, s, []);
    } else {
      if id: nat :| Minimal(h, B, id) && Apply(m, h, s, id).0 && CanFinish(m, h, B + {id}, Apply(m, h, s, id).1) {
        FinishIffOrder(m, h, B + {id}, Apply(m, h, s, id).1);
        var rest :| IsOrder(h, B + {id}, rest) && AcceptsIds(m, h, Apply(m, h, s, id).1, rest);
        ConsOrder(h, B, id, rest);
        assert ([id] + rest)[1..] == rest;
        assert AcceptsIds(m, h, s, [id] + rest);
      }
      forall ids | IsOrder(h, B, ids) && AcceptsIds(m, h, s, ids) ensures CanFinish(m, h, B, s) {
        TailOrder(h, B, ids);
        FinishIffOrder(m, h, B + {ids[0]}, Apply(m, h, s, ids[0]).1);
      }
    }
  }

  lemma ConsOrder<I, O>(h: Hist<I, O>, B: set<nat>, id: nat, rest: seq<nat>)
    requires WellFormed(h) && Minimal(h, B, id) && IsOrder(h, B + {id}, rest)
    ensures IsOrder(h, B, [id] + rest)
  {
    var ids := [id] + rest;
    assert forall i :: 0 <= i < |rest| ==> rest[i] in Elements(rest);
    assert Elements(ids) == Elements(rest) + {id};
  }

  lemma TailOrder<I, O>(h: Hist<I, O>, B: set<nat>, ids: seq<nat>)
    requires WellFormed(h) && B <= Ids(h.N()) && B != Ids(h.N()) && IsOrder(h, B, ids)
    ensures ids != [] && Minimal(h, B, ids[0]) && IsOrder(h, B + {ids[0]}, ids[1..])
  {
    assert !(Ids(h.N()) <= B);
    var left :| left in Ids(h.N()) && left !in B;
    assert left in Elements(ids);
    assert forall i :: 0 <= i < |ids| ==> ids[i] in Elements(ids);
    assert Elements(ids[1..]) == Elements(ids) - {ids[0]};
    forall o | 0 <= o < h.N() && o !in B ensures !(h.retAt[o] < h.callAt[ids[0]]) {
      assert o in Elements(ids);
      var j :| 0 <= j < |ids| && ids[j] == o;
      assert PairOk(h, o);
    }
  }

  /** Deciding from equal states gives the same answer. */
  lemma {:induction false} EqualStatesFinish<S(!new), I(!new), O(!new)>(m: Model<S, I, O>, h: Hist<I, O>, B: set<nat>, s: S, s': S)
    requires Sound(m) && WellFormed(h) && B <= Ids(h.N()) && m.equal(s, s')
    requires CanFinish(m, h, B, s)
    ensures CanFinish(m, h, B, s')
    decreases Ids(h.N()) - B
  {
    if B != Ids(h.N()) {
      var id: nat :| Minimal(h, B, id) && Apply(m, h, s, id).0 && CanFinish(m, h, B + {id}, Apply(m, h, s, id).1);
      assert PairOk(h, id);
      assert SameFuture(m, s, s', h.At(h.callAt[id]).input, h.At(h.retAt[id]).output);
      EqualStatesFinish(m, h, B + {id}, Apply(m, h, s, id).1, Apply(m, h, s', id).1);
    }
  }
}
