/**
 What the backtracking search of checkSingle knows at each moment, apart from
 the heap: which operations are on the stack, how far the scan of each level has
 come, and why nothing skipped so far can be part of a linearization.
 */
module LinearizabilitySearch {
  import opened Linearizability

  /** The ids on the calls stack, and the state before each of them. */
  datatype Stack<S> = Stack(ids: seq<nat>, states: seq<S>)

  /** A configuration the search has been in: the operations done and the state reached. */
  datatype Config<S> = Config(done: set<nat>, state: S)

  ghost predicate Live<I, O>(h: Hist<I, O>, B: set<nat>, p: nat)
    requires WellFormed(h)
  {
    1 <= p <= |h.entries| && h.At(p).id !in B
  }

  /** Every entry still in the list before position p is a call. */
  ghost predicate OnlyCallsBefore<I, O>(h: Hist<I, O>, B: set<nat>, p: nat)
    requires WellFormed(h)
  {
    forall q :: 0 <= q < p && Live(h, B, q) ==> h.At(q).CallEntry?
  }

  /** No operation called before position p can come next. */
  ghost predicate Explored<S, I, O>(m: Model<S, I, O>, h: Hist<I, O>, B: set<nat>, s: S, p: nat)
    requires WellFormed(h) && B <= Ids(h.N())
  {
    forall id: nat :: Minimal(h, B, id) && h.callAt[id] < p ==> DeadChoice(m, h, B, s, id)
  }

  ghost predicate DeadChoice<S, I, O>(m: Model<S, I, O>, h: Hist<I, O>, B: set<nat>, s: S, id: nat)
    requires WellFormed(h) && B <= Ids(h.N()) && id < h.N()
  {
    Apply(m, h, s, id).0 ==> !CanFinish(m, h, B + {id}, Apply(m, h, s, id).1)
  }

  /** The state after the d-th operation on the stack. */
  function StateAt<S>(k: Stack<S>, state: S, d: nat): S
    requires d <= |k.ids| == |k.states|
  {
    if d < |k.ids| then k.states[d] else state
  }

  ghost predicate LevelOk<S, I, O>(m: Model<S, I, O>, h: Hist<I, O>, k: Stack<S>, state: S, d: nat)
    requires WellFormed(h) && |k.ids| == |k.states| && d < |k.ids| && Within(k.ids, h.N())
  {
    var B := Elements(k.ids[..d]);
    && B <= Ids(h.N()) && Minimal(h, B, k.ids[d])
    && OnlyCallsBefore(h, B, h.callAt[k.ids[d]])
    && Explored(m, h, B, k.states[d], h.callAt[k.ids[d]])
    && Apply(m, h, k.states[d], k.ids[d]) == (true, StateAt(k, state, d + 1))
  }

  /** Known to the cache only because it is on the stack, or else hopeless. */
  ghost predicate CachedOk<S, I, O>(m: Model<S, I, O>, h: Hist<I, O>, k: Stack<S>, state: S, c: Config<S>)
    requires WellFormed(h) && |k.ids| == |k.states|
  {
    && c.done <= Ids(h.N())
    && (CanFinish(m, h, c.done, c.state) ==>
          exists d :: 1 <= d <= |k.ids| && c.done == Elements(k.ids[..d]) && c.state == StateAt(k, state, d))
  }

  ghost predicate SearchInv<S, I, O>(
    m: Model<S, I, O>, h: Hist<I, O>, k: Stack<S>, state: S, cache: set<Config<S>>, p: nat)
  {
    && WellFormed(h)
    && |k.ids| == |k.states| && Distinct(k.ids) && Within(k.ids, h.N())
    && StateAt(k, state, 0) == m.init
    && (forall d :: 0 <= d < |k.ids| ==> LevelOk(m, h, k, state, d))
    && (forall c :: c in cache ==> CachedOk(m, h, k, state, c))
    && Elements(k.ids) <= Ids(h.N())
    && OnlyCallsBefore(h, Elements(k.ids), p)
    && Explored(m, h, Elements(k.ids), state, p)
  }

  /** Nothing is left in the list strictly between p and q. */
  ghost predicate Gap<I, O>(h: Hist<I, O>, B: set<nat>, p: nat, q: nat)
    requires WellFormed(h)
  {
    forall r :: p < r < q ==> !Live(h, B, r)
  }

  // ---------------------------------------------------------------- moves

  /** At a call that only calls precede, the operation may come next. */
  lemma CallIsMinimal<I, O>(h: Hist<I, O>, B: set<nat>, p: nat)
    requires WellFormed(h) && OnlyCallsBefore(h, B, p) && Live(h, B, p) && h.At(p).CallEntry?
    ensures Minimal(h, B, h.At(p).id) && h.callAt[h.At(p).id] == p
  {
    assert PlaceOk(h, p);
    forall o | 0 <= o < h.N() && o !in B ensures !(h.retAt[o] < p) {
      assert PairOk(h, o);
      assert h.retAt[o] < p ==> Live(h, B, h.retAt[o]);
    }
  }

  lemma Begin<S, I, O>(m: Model<S, I, O>, h: Hist<I, O>, p: nat)
    requires WellFormed(h) && Gap(h, {}, 0, p)
    ensures SearchInv(m, h, Stack([], []), m.init, {}, p)
  {
    assert Elements([]) == {};
    NothingBefore(m, h, {}, m.init, p);
  }

  lemma NothingBefore<S, I, O>(m: Model<S, I, O>, h: Hist<I, O>, B: set<nat>, s: S, p: nat)
    requires WellFormed(h) && B <= Ids(h.N()) && Gap(h, B, 0, p)
    ensures OnlyCallsBefore(h, B, p) && Explored(m, h, B, s, p)
  {
    forall id: nat | Minimal(h, B, id) ensures h.callAt[id] >= p {
      assert PairOk(h, id);
      assert Live(h, B, h.callAt[id]);
    }
  }

  /** The scan passes a call whose choice is dead. */
  lemma Skip<S, I, O>(
    m: Model<S, I, O>, h: Hist<I, O>, k: Stack<S>, state: S, cache: set<Config<S>>, p: nat, q: nat)
    requires SearchInv(m, h, k, state, cache, p)
    requires var B := Elements(k.ids);
             && Live(h, B, p) && h.At(p).CallEntry? && p < q && Gap(h, B, p, q)
             && h.At(p).id < h.N() && DeadChoice(m, h, B, state, h.At(p).id)
    ensures SearchInv(m, h, k, state, cache, q)
  {
    Pass(m, h, Elements(k.ids), state, p, q);
  }

  lemma Pass<S, I, O>(m: Model<S, I, O>, h: Hist<I, O>, B: set<nat>, s: S, p: nat, q: nat)
    requires WellFormed(h) && B <= Ids(h.N())
    requires OnlyCallsBefore(h, B, p) && Explored(m, h, B, s, p)
    requires Live(h, B, p) && h.At(p).CallEntry? && p < q && Gap(h, B, p, q)
    requires h.At(p).id < h.N() && DeadChoice(m, h, B, s, h.At(p).id)
    ensures OnlyCallsBefore(h, B, q) && Explored(m, h, B, s, q)
  {
    forall id: nat | Minimal(h, B, id) && h.callAt[id] < q ensures DeadChoice(m, h, B, s, id) {
      assert PairOk(h, id);
      if p < h.callAt[id] {
        assert Live(h, B, h.callAt[id]);
      } else if p == h.callAt[id] {
        assert h.At(p).id == id;
      }
    }
  }

  /** A choice whose configuration is cached is dead: nothing that large is on the stack. */
  lemma CachedChoiceIsDead<S(!new), I(!new), O(!new)>(
    m: Model<S, I, O>, h: Hist<I, O>, k: Stack<S>, state: S, cache: set<Config<S>>, p: nat, id: nat, c: Config<S>)
    requires SearchInv(m, h, k, state, cache, p) && Sound(m)
    requires id < h.N() && id !in k.ids && c in cache && c.done == Elements(k.ids) + {id}
    requires m.equal(Apply(m, h, state, id).1, c.state)
    ensures DeadChoice(m, h, Elements(k.ids), state, id)
  {
    assert CachedOk(m, h, k, state, c);
    assert forall d :: 0 <= d <= |k.ids| ==> id !in Elements(k.ids[..d]);
    if CanFinish(m, h, c.done, Apply(m, h, state, id).1) {
      EqualStatesFinish(m, h, c.done, Apply(m, h, state, id).1, c.state);
    }
  }

  lemma AppendElements(ids: seq<nat>, id: nat)
    ensures Elements(ids + [id]) == Elements(ids) + {id}
  {
  }

  /** The call at p goes on the stack; the scan starts over at the first entry left. */
  lemma Push<S, I, O>(
    m: Model<S, I, O>, h: Hist<I, O>, k: Stack<S>, state: S, cache: set<Config<S>>, p: nat, q: nat)
    requires SearchInv(m, h, k, state, cache, p)
    requires Live(h, Elements(k.ids), p) && h.At(p).CallEntry? && h.At(p).id < h.N()
    requires Apply(m, h, state, h.At(p).id).0
    requires Gap(h, Elements(k.ids) + {h.At(p).id}, 0, q)
    ensures var id := h.At(p).id;
            var k', state' := Stack(k.ids + [id], k.states + [state]), Apply(m, h, state, id).1;
            && Elements(k'.ids) == Elements(k.ids) + {id}
            && SearchInv(m, h, k', state', cache + {Config(Elements(k'.ids), state')}, q)
  {
    var id := h.At(p).id;
    var k', state' := Stack(k.ids + [id], k.states + [state]), Apply(m, h, state, id).1;
    AppendElements(k.ids, id);
    CallIsMinimal(h, Elements(k.ids), p);
    assert forall i :: 0 <= i < |k.ids| ==> k.ids[i] in Elements(k.ids);
    assert Elements(k'.ids) <= Ids(h.N());
    NothingBefore(m, h, Elements(k'.ids), state', q);
    hide CanFinish, Explored, OnlyCallsBefore, Minimal, Live, WellFormed, Gap, Ids, Apply;
    assert k'.ids[..|k'.ids|] == k'.ids;
    assert CachedOk(m, h, k', state', Config(Elements(k'.ids), state'));
    forall d | 0 <= d < |k'.ids| ensures LevelOk(m, h, k', state', d) {
      if d < |k.ids| {
        LevelStays(m, h, k, state, k', state', d);
      } else {
        assert k'.ids[..d] == k.ids;
      }
    }
    hide LevelOk, CachedOk, Elements;
    forall c | c in cache ensures CachedOk(m, h, k', state', c) {
      StackStays(m, h, k, state, k', state', c);
    }
  }

  lemma LevelStays<S, I, O>(
    m: Model<S, I, O>, h: Hist<I, O>, k: Stack<S>, state: S, k': Stack<S>, state': S, d: nat)
    requires WellFormed(h) && |k.ids| == |k.states| && |k'.ids| == |k'.states| == |k.ids| + 1
    requires k'.ids[..|k.ids|] == k.ids && k'.states == k.states + [state]
    requires Within(k.ids, h.N()) && Within(k'.ids, h.N()) && d < |k.ids| && LevelOk(m, h, k, state, d)
    ensures LevelOk(m, h, k', state', d)
  {
    assert k'.ids[..d] == k.ids[..d];
  }

  lemma StackStays<S, I, O>(
    m: Model<S, I, O>, h: Hist<I, O>, k: Stack<S>, state: S, k': Stack<S>, state': S, c: Config<S>)
    requires WellFormed(h) && |k.ids| == |k.states| && |k'.ids| == |k'.states| == |k.ids| + 1
    requires k'.ids[..|k.ids|] == k.ids && k'.states == k.states + [state]
    requires CachedOk(m, h, k, state, c)
    ensures CachedOk(m, h, k', state', c)
  {
    if CanFinish(m, h, c.done, c.state) {
      var d :| 1 <= d <= |k.ids| && c.done == Elements(k.ids[..d]) && c.state == StateAt(k, state, d);
      assert k'.ids[..d] == k.ids[..d];
    }
  }

  /** At a return entry every possible next operation has been tried: the configuration is hopeless. */
  lemma ReturnIsDead<S, I, O>(m: Model<S, I, O>, h: Hist<I, O>, B: set<nat>, s: S, p: nat)
    requires WellFormed(h) && B <= Ids(h.N()) && Explored(m, h, B, s, p)
    requires Live(h, B, p) && h.At(p).ReturnEntry?
    ensures !CanFinish(m, h, B, s)
  {
    assert PlaceOk(h, p);
    var o := h.At(p).id;
    assert o in Ids(h.N()) && h.retAt[o] == p;
    forall id: nat | Minimal(h, B, id) ensures DeadChoice(m, h, B, s, id) {
      assert PairOk(h, id);
      assert !(h.retAt[o] < h.callAt[id]);
      assert h.callAt[id] != p;
    }
  }

  /** Backtracking at the return entry at p; q is the entry after the call put back. */
  lemma Pop<S, I, O>(
    m: Model<S, I, O>, h: Hist<I, O>, k: Stack<S>, state: S, cache: set<Config<S>>, p: nat, q: nat)
    requires SearchInv(m, h, k, state, cache, p) && |k.ids| > 0
    requires Live(h, Elements(k.ids), p) && h.At(p).ReturnEntry?
    requires var d := |k.ids| - 1; h.callAt[k.ids[d]] < q && Gap(h, Elements(k.ids[..d]), h.callAt[k.ids[d]], q)
    ensures var d := |k.ids| - 1;
            SearchInv(m, h, Stack(k.ids[..d], k.states[..d]), k.states[d], cache, q)
  {
    var d := |k.ids| - 1;
    var k' := Stack(k.ids[..d], k.states[..d]);
    ReturnIsDead(m, h, Elements(k.ids), state, p);
    PopTop(m, h, k, state, cache, p, q);
    hide CanFinish, Explored, OnlyCallsBefore, CachedOk, Live, WellFormed, Gap, Ids, Elements;
    forall i | 0 <= i < d ensures LevelOk(m, h, k', k.states[d], i) {
      LevelShrinks(m, h, k, state, i);
    }
    hide LevelOk;
    forall c | c in cache ensures CachedOk(m, h, k', k.states[d], c) {
      StackShrinks(m, h, k, state, c);
    }
  }

  /** The call put back has been tried, and so has everything before the entry after it. */
  lemma PopTop<S, I, O>(
    m: Model<S, I, O>, h: Hist<I, O>, k: Stack<S>, state: S, cache: set<Config<S>>, p: nat, q: nat)
    requires SearchInv(m, h, k, state, cache, p) && |k.ids| > 0 && !CanFinish(m, h, Elements(k.ids), state)
    requires var d := |k.ids| - 1; h.callAt[k.ids[d]] < q && Gap(h, Elements(k.ids[..d]), h.callAt[k.ids[d]], q)
    ensures var d := |k.ids| - 1; var B := Elements(k.ids[..d]);
            B <= Ids(h.N()) && OnlyCallsBefore(h, B, q) && Explored(m, h, B, k.states[d], q)
  {
    hide CanFinish, Explored, OnlyCallsBefore, CachedOk, Minimal, Live, WellFormed, Gap, Ids;
    var d := |k.ids| - 1;
    var id, B := k.ids[d], Elements(k.ids[..d]);
    assert k.ids == k.ids[..d] + [id];
    AppendElements(k.ids[..d], id);
    assert LevelOk(m, h, k, state, d);
    assert id !in B by { NotYetDone(k.ids, d, d); }
    CallPlace(h, B, id);
    Pass(m, h, B, k.states[d], h.callAt[id], q);
  }

  lemma LevelShrinks<S, I, O>(m: Model<S, I, O>, h: Hist<I, O>, k: Stack<S>, state: S, i: nat)
    requires WellFormed(h) && |k.ids| == |k.states| && i < |k.ids| - 1 && Within(k.ids, h.N())
    requires LevelOk(m, h, k, state, i)
    ensures var e := |k.ids| - 1; LevelOk(m, h, Stack(k.ids[..e], k.states[..e]), k.states[e], i)
  {
    assert k.ids[..|k.ids| - 1][..i] == k.ids[..i];
  }

  lemma CallPlace<I, O>(h: Hist<I, O>, B: set<nat>, id: nat)
    requires WellFormed(h) && id < h.N() && id !in B
    ensures Live(h, B, h.callAt[id]) && h.At(h.callAt[id]).CallEntry? && h.At(h.callAt[id]).id == id
  {
    assert PairOk(h, id);
  }

  lemma StackShrinks<S, I, O>(m: Model<S, I, O>, h: Hist<I, O>, k: Stack<S>, state: S, c: Config<S>)
    requires WellFormed(h) && |k.ids| == |k.states| > 0 && CachedOk(m, h, k, state, c)
    requires Elements(k.ids) <= Ids(h.N()) && !CanFinish(m, h, Elements(k.ids), state)
    ensures var e := |k.ids| - 1; CachedOk(m, h, Stack(k.ids[..e], k.states[..e]), k.states[e], c)
  {
    hide CanFinish, WellFormed, Ids;
    var e := |k.ids| - 1;
    assert k.ids[..|k.ids|] == k.ids;
    if CanFinish(m, h, c.done, c.state) {
      var d :| 1 <= d <= |k.ids| && c.done == Elements(k.ids[..d]) && c.state == StateAt(k, state, d);
      if d < |k.ids| {
        assert k.ids[..e][..d] == k.ids[..d];
      }
    }
  }

  // -------------------------------------------------------------- verdicts

  /** A return entry with an empty stack: no linearization exists. */
  lemma Illegal<S, I, O>(m: Model<S, I, O>, h: Hist<I, O>, k: Stack<S>, state: S, cache: set<Config<S>>, p: nat)
    requires SearchInv(m, h, k, state, cache, p) && k.ids == []
    requires Live(h, Elements(k.ids), p) && h.At(p).ReturnEntry?
    ensures !EntriesLinearizable(m, h)
  {
    assert Elements(k.ids) == {};
    ReturnIsDead(m, h, {}, state, p);
    FinishIffOrder(m, h, {}, m.init);
  }

  /** Nothing left in the list: the stack is a linearization. */
  lemma Complete<S, I, O>(m: Model<S, I, O>, h: Hist<I, O>, k: Stack<S>, state: S, cache: set<Config<S>>, p: nat)
    requires SearchInv(m, h, k, state, cache, p)
    requires forall r: nat :: !Live(h, Elements(k.ids), r)
    ensures IsOrder(h, {}, k.ids) && AcceptsIds(m, h, m.init, k.ids) && EntriesLinearizable(m, h)
  {
    StackIsOrder(m, h, k, state, cache, p);
    StackAccepts(m, h, k, state, cache, p, 0);
    assert k.ids[0..] == k.ids;
    hide IsOrder, AcceptsIds, LevelOk;
  }

  /** With nothing left, the stack has every operation, in an order that real time allows. */
  lemma StackIsOrder<S, I, O>(m: Model<S, I, O>, h: Hist<I, O>, k: Stack<S>, state: S, cache: set<Config<S>>, p: nat)
    requires SearchInv(m, h, k, state, cache, p)
    requires forall r: nat :: !Live(h, Elements(k.ids), r)
    ensures IsOrder(h, {}, k.ids)
  {
    forall id | id in Ids(h.N()) ensures id in Elements(k.ids) {
      assert PairOk(h, id);
      assert !Live(h, Elements(k.ids), h.callAt[id]);
    }
    forall i, j | 0 <= i < j < |k.ids| ensures !(h.retAt[k.ids[j]] < h.callAt[k.ids[i]]) {
      assert LevelOk(m, h, k, state, i);
      NotYetDone(k.ids, i, j);
    }
  }

  lemma NotYetDone(ids: seq<nat>, i: nat, j: nat)
    requires Distinct(ids) && i <= j < |ids|
    ensures ids[j] !in Elements(ids[..i])
  {
  }

  lemma {:induction false} StackAccepts<S, I, O>(
    m: Model<S, I, O>, h: Hist<I, O>, k: Stack<S>, state: S, cache: set<Config<S>>, p: nat, d: nat)
    requires SearchInv(m, h, k, state, cache, p) && d <= |k.ids|
    ensures Within(k.ids[d..], h.N()) && AcceptsIds(m, h, StateAt(k, state, d), k.ids[d..])
    decreases |k.ids| - d
  {
    if d < |k.ids| {
      assert LevelOk(m, h, k, state, d);
      StackAccepts(m, h, k, state, cache, p, d + 1);
      assert k.ids[d..][1..] == k.ids[d + 1..];
    }
  }
}
