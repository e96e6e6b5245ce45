/**
 makeEntries of src/porcupine/checker.go: from operations with call and return
 times to a sorted list of entries, without changing what is linearizable.
 */
module HistoryEntries {
  import opened Linearizability
  import opened Sequences

  /** byTime.Less: by time, and calls before returns at the same time. */
  predicate Less<I, O>(a: Entry<I, O>, b: Entry<I, O>) {
    if a.time != b.time then a.time < b.time else a.CallEntry? && b.ReturnEntry?
  }

  ghost predicate SortedByTime<I, O>(es: seq<Entry<I, O>>) {
    forall i, j :: 0 <= i < j < |es| ==> !Less(es[j], es[i])
  }

  function CallOf<I, O>(op: Operation<I, O>, id: nat): Entry<I, O> {
    CallEntry(op.input, id, op.call, op.clientId)
  }

  function ReturnOf<I, O>(op: Operation<I, O>, id: nat): Entry<I, O> {
    ReturnEntry(op.output, id, op.ret, op.clientId)
  }

  function EntryFor<I, O>(history: seq<Operation<I, O>>, k: nat): Entry<I, O>
    requires k < 2 * |history|
  {
    if k % 2 == 0 then CallOf(history[k / 2], k / 2) else ReturnOf(history[k / 2], k / 2)
  }

  /** The entries in the order of the operations. */
  function Raw<I, O>(history: seq<Operation<I, O>>): (es: seq<Entry<I, O>>)
    ensures |es| == 2 * |history|
    ensures forall k :: 0 <= k < |es| ==> es[k] == EntryFor(history, k)
  {
    seq(2 * |history|, k requires 0 <= k < 2 * |history| => EntryFor(history, k))
  }

  ghost predicate Timed<I, O>(history: seq<Operation<I, O>>) {
    forall i :: 0 <= i < |history| ==> history[i].call <= history[i].ret
  }

  // ------------------------------------------------------------- sorting

  /** One step of insertion sort, standing for whatever sort.Sort does. */
  method Insert<I, O>(es: seq<Entry<I, O>>, e: Entry<I, O>) returns (r: seq<Entry<I, O>>)
    requires SortedByTime(es)
    ensures SortedByTime(r) && multiset(r) == multiset(es) + multiset{e}
  {
    var i := |es|;
    while i > 0 && Less(e, es[i - 1])
      invariant 0 <= i <= |es|
      invariant forall j :: i <= j < |es| ==> Less(e, es[j])
    {
      i := i - 1;
    }
    r := es[..i] + [e] + es[i..];
    InsertSorted(es, e, i);
    InsertMultiset(es, e, i);
  }

  lemma InsertSorted<I, O>(es: seq<Entry<I, O>>, e: Entry<I, O>, i: nat)
    requires SortedByTime(es) && i <= |es|
    requires i > 0 ==> !Less(e, es[i - 1])
    requires forall j :: i <= j < |es| ==> Less(e, es[j])
    ensures SortedByTime(es[..i] + [e] + es[i..])
  {
  }

  lemma RawNext<I, O>(history: seq<Operation<I, O>>, id: nat)
    requires id < |history|
    ensures multiset(Raw(history[..id + 1])) ==
              multiset(Raw(history[..id])) + multiset{CallOf(history[id], id)} + multiset{ReturnOf(history[id], id)}
  {
    assert Raw(history[..id + 1]) == Raw(history[..id]) + [CallOf(history[id], id), ReturnOf(history[id], id)];
  }

  method MakeEntries<I, O>(history: seq<Operation<I, O>>) returns (es: seq<Entry<I, O>>)
    ensures SortedByTime(es) && multiset(es) == multiset(Raw(history))
  {
    hide SortedByTime, CallOf, ReturnOf;
    es := [];
    NoEntries<I, O>();
    for id := 0 to |history|
      invariant SortedByTime(es) && multiset(es) == multiset(Raw(history[..id]))
    {
      hide Raw;
      es := Insert(es, CallOf(history[id], id));
      es := Insert(es, ReturnOf(history[id], id));
      RawNext(history, id);
    }
    assert history[..|history|] == history;
  }

  lemma NoEntries<I, O>()
    ensures SortedByTime<I, O>([])
  {
  }

  // -------------------------------------------- a permutation of distinct things

  lemma SortedDistinct<I, O>(history: seq<Operation<I, O>>, es: seq<Entry<I, O>>, i: nat, j: nat)
    requires multiset(es) == multiset(Raw(history)) && i < |es| && j < |es| && es[i] == es[j]
    ensures i == j
  {
    if i != j {
      assert forall a, b :: 0 <= a < b < |Raw(history)| ==> Raw(history)[a] != Raw(history)[b];
      CountsOfDistinct(Raw(history), es[i]);
      CountOfRepeated(es, if i < j then i else j, if i < j then j else i);
    }
  }

  ghost function Position<I, O>(es: seq<Entry<I, O>>, e: Entry<I, O>): (p: nat)
    requires e in es
    ensures 1 <= p <= |es| && es[p - 1] == e
  {
    var i :| 0 <= i < |es| && es[i] == e;
    i + 1
  }

  lemma InSorted<I, O>(history: seq<Operation<I, O>>, es: seq<Entry<I, O>>, id: nat)
    requires multiset(es) == multiset(Raw(history)) && id < |history|
    ensures CallOf(history[id], id) in es && ReturnOf(history[id], id) in es
  {
    var raw := Raw(history);
    assert raw[2 * id] in multiset(es) && raw[2 * id + 1] in multiset(es);
    assert raw[2 * id] == EntryFor(history, 2 * id) && raw[2 * id + 1] == EntryFor(history, 2 * id + 1);
  }

  /** The sorted entries, with the places of each operation's call and return. */
  ghost function Placed<I, O>(history: seq<Operation<I, O>>, es: seq<Entry<I, O>>): (h: Hist<I, O>)
    requires multiset(es) == multiset(Raw(history))
    ensures h.entries == es && |h.callAt| == |h.retAt| == |history|
  {
    Hist(es,
         seq(|history|, id requires 0 <= id < |history| => InSorted(history, es, id); Position(es, CallOf(history[id], id))),
         seq(|history|, id requires 0 <= id < |history| => InSorted(history, es, id); Position(es, ReturnOf(history[id], id))))
  }

  lemma PlacesOk<I, O>(history: seq<Operation<I, O>>, es: seq<Entry<I, O>>, id: nat)
    requires multiset(es) == multiset(Raw(history)) && id < |history|
    ensures var h := Placed(history, es);
            && 1 <= h.callAt[id] <= |es| && h.At(h.callAt[id]) == CallOf(history[id], id)
            && 1 <= h.retAt[id] <= |es| && h.At(h.retAt[id]) == ReturnOf(history[id], id)
  {
  }

  lemma BeforeIffLess<I, O>(es: seq<Entry<I, O>>, p: nat, q: nat)
    requires SortedByTime(es) && 1 <= p <= |es| && 1 <= q <= |es|
    requires Less(es[p - 1], es[q - 1])
    ensures p < q
  {
  }

  /** Sorting keeps the real-time order of the operations and nothing else. */
  lemma OrderKept<I, O>(history: seq<Operation<I, O>>, es: seq<Entry<I, O>>, a: nat, b: nat)
    requires multiset(es) == multiset(Raw(history)) && SortedByTime(es) && a < |history| && b < |history|
    ensures var h := Placed(history, es);
            h.retAt[a] < h.callAt[b] <==> Precedes(history[a], history[b])
  {
  }

  lemma PlacedWellFormed<I, O>(history: seq<Operation<I, O>>, es: seq<Entry<I, O>>)
    requires multiset(es) == multiset(Raw(history)) && SortedByTime(es) && Timed(history)
    ensures WellFormed(Placed(history, es))
  {
    hide Raw, Placed, SortedByTime;
    var h := Placed(history, es);
    SortedLength(history, es);
    forall id | 0 <= id < h.N() ensures PairOk(h, id) {
      PlacesOk(history, es, id);
      BeforeIffLess(es, h.callAt[id], h.retAt[id]);
    }
    forall p | 1 <= p <= |es| ensures PlaceOk(h, p) {
      EntryOfOperation(history, es, p);
      var e := es[p - 1];
      PlacesOk(history, es, e.id);
      SortedDistinct(history, es, p - 1, (if e.CallEntry? then h.callAt[e.id] else h.retAt[e.id]) - 1);
    }
  }

  lemma SortedLength<I, O>(history: seq<Operation<I, O>>, es: seq<Entry<I, O>>)
    requires multiset(es) == multiset(Raw(history))
    ensures |es| == 2 * |history|
  {
    assert |es| == |multiset(es)| == |multiset(Raw(history))| == |Raw(history)|;
  }

  lemma EntryOfOperation<I, O>(history: seq<Operation<I, O>>, es: seq<Entry<I, O>>, p: nat)
    requires multiset(es) == multiset(Raw(history)) && 1 <= p <= |es|
    ensures var e := es[p - 1];
            e.id < |history| && e == if e.CallEntry? then CallOf(history[e.id], e.id) else ReturnOf(history[e.id], e.id)
  {
    hide Raw;
    var e, raw := es[p - 1], Raw(history);
    assert e in multiset(es) && e in raw;
    var k :| 0 <= k < |raw| && raw[k] == e;
    assert e == EntryFor(history, k);
  }

  // ------------------------------------------------ the same linearizations

  function OpsOf<I, O>(history: seq<Operation<I, O>>, ids: seq<nat>): (ops: seq<Operation<I, O>>)
    requires forall i :: 0 <= i < |ids| ==> ids[i] < |history|
    ensures |ops| == |ids| && forall i :: 0 <= i < |ids| ==> ops[i] == history[ids[i]]
  {
    seq(|ids|, i requires 0 <= i < |ids| => history[ids[i]])
  }

  lemma {:induction false} OrderIsPermutation<I, O>(history: seq<Operation<I, O>>, ids: seq<nat>)
    requires Distinct(ids) && Within(ids, |history|) && Elements(ids) == Ids(|history|)
    ensures multiset(OpsOf(history, ids)) == multiset(history)
    decreases |history|
  {
    hide Elements;
    SomeId(ids);
    if history != [] {
      hide Distinct, Ids;
      var n := |history| - 1;
      var j := FindId(ids, n);
      RemoveId(ids, j, n);
      OrderIsPermutation(history[..n], Without(ids, j));
      OpsWithout(history, ids, j);
      hide Without;
      WithoutMultiset(OpsOf(history, ids), j);
      assert history == history[..n] + [history[n]];
    }
  }

  lemma SomeId(ids: seq<nat>)
    ensures ids != [] ==> Elements(ids) != {}
  {
    assert ids != [] ==> ids[0] in Elements(ids);
  }

  lemma FindId(ids: seq<nat>, n: nat) returns (j: nat)
    requires Elements(ids) == Ids(n + 1)
    ensures j < |ids| && ids[j] == n
  {
    assert n in Elements(ids);
    j :| 0 <= j < |ids| && ids[j] == n;
  }

  lemma OpsWithout<I, O>(history: seq<Operation<I, O>>, ids: seq<nat>, j: nat)
    requires Within(ids, |history|) && j < |ids| && history != [] && Within(Without(ids, j), |history| - 1)
    ensures OpsOf(history[..|history| - 1], Without(ids, j)) == Without(OpsOf(history, ids), j)
  {
  }

  lemma RemoveId(ids: seq<nat>, j: nat, n: nat)
    requires Distinct(ids) && Elements(ids) == Ids(n + 1) && j < |ids| && ids[j] == n
    ensures var rest := Without(ids, j);
            Distinct(rest) && Within(rest, n) && Elements(rest) == Ids(n)
  {
    var rest := Without(ids, j);
    forall i | 0 <= i < |rest| ensures rest[i] < n && rest[i] in Elements(ids) {
      assert rest[i] == if i < j then ids[i] else ids[i + 1];
      assert rest[i] in Elements(ids);
    }
    forall x | x in Ids(n) ensures x in Elements(rest) {
      assert x in Elements(ids);
      var i :| 0 <= i < |ids| && ids[i] == x;
      assert rest[if i < j then i else i - 1] == x;
    }
  }

  /** Any reordering of a history is given by an order of its indices. */
  lemma {:induction false} PermutationIsOrder<I, O>(history: seq<Operation<I, O>>, order: seq<Operation<I, O>>)
    returns (ids: seq<nat>)
    requires multiset(order) == multiset(history)
    ensures Distinct(ids) && Within(ids, |history|) && Elements(ids) == Ids(|history|)
    ensures OpsOf(history, ids) == order
    decreases |order|
  {
    assert |order| == |multiset(order)| == |history|;
    if order == [] {
      ids := [];
    } else {
      var k := |order| - 1;
      var x := order[k];
      assert x in multiset(history);
      var j :| 0 <= j < |history| && history[j] == x;
      var history' := Without(history, j);
      WithoutMultiset(history, j);
      WithoutMultiset(order, k);
      assert Without(order, k) == order[..k];
      CancelOne(multiset(order[..k]), multiset(history'), x);
      var rest := PermutationIsOrder(history', order[..k]);
      ids := AddId(rest, j, k);
      PutBack(history, order, rest, ids, j);
    }
  }

  lemma PutBack<I, O>(history: seq<Operation<I, O>>, order: seq<Operation<I, O>>, rest: seq<nat>, ids: seq<nat>, j: nat)
    requires j < |history| == |order| && order[|order| - 1] == history[j]
    requires Within(rest, |history| - 1) && OpsOf(Without(history, j), rest) == order[..|order| - 1]
    requires Within(ids, |history|) && Inserted(rest, ids, j)
    ensures OpsOf(history, ids) == order
  {
  }

  ghost predicate Inserted(rest: seq<nat>, ids: seq<nat>, j: nat) {
    && |ids| == |rest| + 1 && ids[|rest|] == j
    && forall i :: 0 <= i < |rest| ==> ids[i] == if rest[i] < j then rest[i] else rest[i] + 1
  }

  /** Indices of a sequence without its j-th element, as indices of the whole, and then j. */
  lemma AddId(rest: seq<nat>, j: nat, n: nat) returns (ids: seq<nat>)
    requires Distinct(rest) && Within(rest, n) && Elements(rest) == Ids(n) && j <= n
    ensures Inserted(rest, ids, j)
    ensures Distinct(ids) && Within(ids, n + 1) && Elements(ids) == Ids(n + 1)
  {
    ids := seq(|rest|, i requires 0 <= i < |rest| => if rest[i] < j then rest[i] else rest[i] + 1) + [j];
    forall x | x in Ids(n + 1) ensures x in Elements(ids) {
      if x != j {
        var y := if x < j then x else x - 1;
        assert y in Elements(rest);
        var i :| 0 <= i < |rest| && rest[i] == y;
        assert ids[i] == x;
      }
    }
  }

  lemma {:induction false} SameAcceptance<S, I, O>(
    m: Model<S, I, O>, history: seq<Operation<I, O>>, es: seq<Entry<I, O>>, s: S, ids: seq<nat>)
    requires multiset(es) == multiset(Raw(history)) && WellFormed(Placed(history, es)) && Within(ids, |history|)
    ensures AcceptsIds(m, Placed(history, es), s, ids) <==> Accepts(m, s, OpsOf(history, ids))
    decreases |ids|
  {
    hide Raw, Placed;
    if ids != [] {
      PlacesOk(history, es, ids[0]);
      var s' := Apply(m, Placed(history, es), s, ids[0]).1;
      SameAcceptance(m, history, es, s', ids[1..]);
      assert OpsOf(history, ids)[1..] == OpsOf(history, ids[1..]);
    }
  }

  lemma SameOrder<I, O>(history: seq<Operation<I, O>>, es: seq<Entry<I, O>>, ids: seq<nat>)
    requires multiset(es) == multiset(Raw(history)) && SortedByTime(es) && WellFormed(Placed(history, es))
    requires Within(ids, |history|)
    ensures InOrder(Placed(history, es), ids) <==> RespectsRealTime(OpsOf(history, ids))
  {
    hide Placed, Raw, SortedByTime;
    var h := Placed(history, es);
    forall i, j | 0 <= i < j < |ids|
      ensures h.retAt[ids[j]] < h.callAt[ids[i]] <==> Precedes(history[ids[j]], history[ids[i]])
    {
      OrderKept(history, es, ids[j], ids[i]);
    }
  }

  /** A history is linearizable exactly when its sorted entries are. */
  lemma EntriesDecide<S, I(!new), O(!new)>(m: Model<S, I, O>, history: seq<Operation<I, O>>, es: seq<Entry<I, O>>)
    requires multiset(es) == multiset(Raw(history)) && SortedByTime(es) && Timed(history)
    ensures WellFormed(Placed(history, es))
    ensures EntriesLinearizable(m, Placed(history, es)) <==> Linearizable(m, history)
  {
    hide Raw, Placed, SortedByTime, WellFormed, InOrder, RespectsRealTime, Accepts, AcceptsIds;
    PlacedWellFormed(history, es);
    var h := Placed(history, es);
    if EntriesLinearizable(m, h) {
      var ids :| IsOrder(h, {}, ids) && AcceptsIds(m, h, m.init, ids);
      OrderIsPermutation(history, ids);
      SameOrder(history, es, ids);
      SameAcceptance(m, history, es, m.init, ids);
      assert Linearizes(m, history, OpsOf(history, ids));
    }
    if Linearizable(m, history) {
      var order :| Linearizes(m, history, order);
      var ids := PermutationIsOrder(history, order);
      SameOrder(history, es, ids);
      SameAcceptance(m, history, es, m.init, ids);
      assert IsOrder(h, {}, ids) && AcceptsIds(m, h, m.init, ids);
    }
  }
}
