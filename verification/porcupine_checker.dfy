/**
 checkSingle of src/porcupine/checker.go: a backtracking search over the linked
 entries with a cache of configurations, proved to decide linearizability and to
 terminate.
 */
module LinearizabilityChecker {
  import opened Linearizability
  import opened LinearizabilitySearch
  import opened EntryList
  import opened Bitset

  // ------------------------------------------------------- list and stack

  /** The list positions whose operation is in B. */
  ghost function Gone<I, O>(h: Hist<I, O>, B: set<nat>): set<nat>
    requires WellFormed(h)
  {
    set p: nat | 1 <= p <= |h.entries| && h.At(p).id in B
  }

  lemma GoneWith<I, O>(h: Hist<I, O>, B: set<nat>, id: nat)
    requires WellFormed(h) && id < h.N()
    ensures Gone(h, B + {id}) == Gone(h, B) + {h.callAt[id], h.retAt[id]}
  {
    assert PairOk(h, id);
    forall p: nat | 1 <= p <= |h.entries| && h.At(p).id == id ensures p == h.callAt[id] || p == h.retAt[id] {
      assert PlaceOk(h, p);
    }
  }

  /** The nodes are those of the history, behind a sentinel. */
  ghost predicate NodesOk<I, O>(h: Hist<I, O>, nodes: seq<Node<I, O>>)
    requires WellFormed(h)
  {
    |nodes| == |h.entries| + 1 && DescribesFrom(h, nodes[1..], 1)
  }

  ghost predicate SavedLevel<I, O>(h: Hist<I, O>, nodes: seq<Node<I, O>>, ids: seq<nat>, d: nat)
    requires WellFormed(h) && d < |ids| && Within(ids, h.N()) && |nodes| == |h.entries| + 1
    reads nodes
  {
    assert PairOk(h, ids[d]);
    SavedPair(nodes, Gone(h, Elements(ids[..d])), h.callAt[ids[d]], h.retAt[ids[d]])
  }

  /**
   The list from the sentinel is the original one without the calls and returns
   of the operations on the stack, and each of those can be put back in turn.
   */
  ghost predicate HeapOk<I, O>(h: Hist<I, O>, nodes: seq<Node<I, O>>, ids: seq<nat>)
    reads nodes
  {
    && WellFormed(h) && NodesOk(h, nodes) && Distinct(ids) && Within(ids, h.N())
    && Linked(nodes, Gone(h, Elements(ids)))
    && forall d :: 0 <= d < |ids| ==> SavedLevel(h, nodes, ids, d)
  }

  lemma NodeFacts<I, O>(h: Hist<I, O>, nodes: seq<Node<I, O>>, p: nat)
    requires WellFormed(h) && NodesOk(h, nodes) && 1 <= p < |nodes|
    ensures var e := h.At(p);
            && e.id < h.N() && nodes[p].id == e.id
            && (nodes[p].mate != null <==> e.CallEntry?)
            && (e.CallEntry? ==>
                  && p == h.callAt[e.id] < h.retAt[e.id] < |nodes|
                  && nodes[p].value == Input(e.input)
                  && nodes[p].mate == nodes[h.retAt[e.id]]
                  && h.At(h.retAt[e.id]).ReturnEntry?
                  && nodes[h.retAt[e.id]].value == Output(h.At(h.retAt[e.id]).output))
  {
    assert PlaceOk(h, p) && PairOk(h, h.At(p).id);
    assert Describes(h, nodes[1..], 1, p) && Describes(h, nodes[1..], 1, h.retAt[h.At(p).id]);
  }

  /** Following `next` from a position that is in the list. */
  lemma NextInList<I, O>(h: Hist<I, O>, nodes: seq<Node<I, O>>, ids: seq<nat>, p: nat) returns (q: nat)
    requires HeapOk(h, nodes, ids) && p < |nodes| && (p == 0 || Live(h, Elements(ids), p))
    ensures p < q <= |nodes| && nodes[p].next == NodeAt(nodes, q) && Gap(h, Elements(ids), p, q)
    ensures q < |nodes| ==> Live(h, Elements(ids), q)
  {
    var R := Gone(h, Elements(ids));
    q := HasNext(R, |nodes|, p, p + 1);
    assert Link(nodes, p, q);
    forall r | p < r < q ensures !Live(h, Elements(ids), r) {
      assert r in R;
    }
  }

  /** A call is never the last entry left, because its return is after it. */
  lemma CallHasNext<I, O>(h: Hist<I, O>, B: set<nat>, p: nat, q: nat)
    requires WellFormed(h) && Live(h, B, p) && h.At(p).CallEntry? && p < q && Gap(h, B, p, q)
    ensures q <= |h.entries|
  {
    assert PlaceOk(h, p) && PairOk(h, h.At(p).id);
    assert Live(h, B, h.retAt[h.At(p).id]);
  }

  method LiftCall<I, O>(entry: Node<I, O>, ghost h: Hist<I, O>, ghost nodes: seq<Node<I, O>>, ghost ids: seq<nat>, ghost p: nat)
    requires HeapOk(h, nodes, ids) && 1 <= p < |nodes| && nodes[p] == entry
    requires Live(h, Elements(ids), p) && h.At(p).CallEntry?
    modifies nodes
    ensures HeapOk(h, nodes, ids + [h.At(p).id])
  {
    ghost var id, R := h.At(p).id, Gone(h, Elements(ids));
    NodeFacts(h, nodes, p);
    NotGone(h, Elements(ids), p);
    Lift(entry, nodes, R, h.callAt[id], h.retAt[id]);
    GoneWith(h, Elements(ids), id);
    AppendElements(ids, id);
    forall d | 0 <= d < |ids| ensures SavedLevel(h, nodes, ids + [id], d) {
      assert old(SavedLevel(h, nodes, ids, d));
      StillGone(h, ids, d);
      assert (ids + [id])[..d] == ids[..d];
    }
    assert (ids + [id])[..|ids|] == ids;
  }

  lemma StillGone<I, O>(h: Hist<I, O>, ids: seq<nat>, d: nat)
    requires WellFormed(h) && Within(ids, h.N()) && d < |ids|
    ensures h.callAt[ids[d]] in Gone(h, Elements(ids)) && h.retAt[ids[d]] in Gone(h, Elements(ids))
  {
    assert PairOk(h, ids[d]);
  }

  lemma NotGone<I, O>(h: Hist<I, O>, B: set<nat>, p: nat)
    requires WellFormed(h) && Live(h, B, p) && h.At(p).CallEntry?
    ensures p !in Gone(h, B) && h.At(p).id < h.N() && h.retAt[h.At(p).id] !in Gone(h, B)
  {
    assert PlaceOk(h, p) && PairOk(h, h.At(p).id);
  }

  method UnliftCall<I, O>(entry: Node<I, O>, ghost h: Hist<I, O>, ghost nodes: seq<Node<I, O>>, ghost ids: seq<nat>)
    requires HeapOk(h, nodes, ids) && |ids| > 0
    requires PairOk(h, ids[|ids| - 1]) && nodes[h.callAt[ids[|ids| - 1]]] == entry
    modifies nodes
    ensures HeapOk(h, nodes, ids[..|ids| - 1])
  {
    hide Elements, Gone;
    ghost var rest, id := ids[..|ids| - 1], ids[|ids| - 1];
    ghost var R := Gone(h, Elements(rest));
    assert ids == rest + [id];
    AppendElements(rest, id);
    GoneWith(h, Elements(rest), id);
    NodeFacts(h, nodes, h.callAt[id]);
    NotYetDone(ids, |rest|, |rest|);
    NotGone(h, Elements(rest), h.callAt[id]);
    assert SavedLevel(h, nodes, ids, |rest|);
    Unlift(entry, nodes, R, h.callAt[id], h.retAt[id]);
    forall d | 0 <= d < |rest| ensures SavedLevel(h, nodes, rest, d) {
      assert old(SavedLevel(h, nodes, ids, d));
      StillGone(h, rest, d);
      assert rest[..d] == ids[..d];
    }
  }

  method Length<I, O>(root: Node?<I, O>, ghost nodes: seq<Node<I, O>>) returns (l: nat)
    requires Chain(nodes) && root == NodeAt(nodes, 0)
    ensures l == |nodes|
  {
    l := 0;
    var n := root;
    while n != null
      invariant l <= |nodes| && n == NodeAt(nodes, l)
      decreases |nodes| - l
    {
      n := n.next;
      l := l + 1;
    }
  }

  lemma ChainIsLinked<I, O>(h: Hist<I, O>, nodes: seq<Node<I, O>>)
    requires WellFormed(h) && |nodes| > 0 && Chain(nodes) && NodesOk(h, nodes)
    ensures HeapOk(h, nodes, [])
  {
    var R := Gone(h, Elements([]));
    assert R == {};
    forall i: nat, j: nat | Adjacent(R, |nodes|, i, j) ensures Link(nodes, i, j) {
      assert i + 1 < j ==> i + 1 in R;
    }
  }

  lemma ChainSize<I, O>(h: Hist<I, O>, nodes: seq<Node<I, O>>)
    requires WellFormed(h) && DescribesFrom(h, nodes, 1)
    ensures |nodes| == |h.entries| == 2 * h.N()
  {
  }

  method BuildList<I, O>(ghost h: Hist<I, O>, entries: seq<Entry<I, O>>)
    returns (head: Node<I, O>, root: Node?<I, O>, n: nat, ghost nodes: seq<Node<I, O>>)
    requires WellFormed(h) && entries == h.entries
    ensures HeapOk(h, nodes, []) && n == h.N() && |nodes| == |entries| + 1
    ensures head == nodes[0] && head.next == root
    ensures forall i :: 0 <= i < |nodes| ==> fresh(nodes[i])
  {
    hide Chain, DescribesFrom, WellFormed, HeapOk;
    ghost var chain;
    root, chain := MakeLinkedEntries(h, entries);
    var length := Length(root, chain);
    ChainSize(h, chain);
    n := length / 2;
    head := new Node(Nothing, null, -1);
    assert root != null ==> root in chain;
    InsertFront(head, root, chain);
    nodes := [head] + chain;
    assert nodes[1..] == chain;
    assert forall i :: 0 <= i < |chain| ==> chain[i] in chain;
    ChainIsLinked(h, nodes);
  }

  // ---------------------------------------------------------------- cache

  datatype CacheEntry<S> = CacheEntry(linearized: Bits, state: S)

  type Cache<S> = map<nat, seq<CacheEntry<S>>>

  ghost function Sets<S>(cache: Cache<S>): set<Bits> {
    set hash, i | hash in cache && 0 <= i < |cache[hash]| :: cache[hash][i].linearized
  }

  ghost function ConfigOf<S>(e: CacheEntry<S>): Config<S>
    reads e.linearized
  {
    Config(Members(e.linearized[..]), e.state)
  }

  ghost predicate EntryOk<S>(e: CacheEntry<S>, hash: nat, len: nat)
    reads e.linearized
  {
    e.linearized.Length == len && HashOf(e.linearized[..]) == hash
  }

  /** Every stored bitset has the same length and is in the bucket of its hash. */
  ghost predicate CacheOk<S>(cache: Cache<S>, len: nat)
    reads Sets(cache)
  {
    forall hash, i :: hash in cache && 0 <= i < |cache[hash]| ==>
      cache[hash][i].linearized in Sets(cache) && EntryOk(cache[hash][i], hash, len)
  }

  /** The configurations the cache stands for. */
  ghost function Configs<S>(cache: Cache<S>): set<Config<S>>
    reads Sets(cache)
  {
    set hash, i | hash in cache && 0 <= i < |cache[hash]| && cache[hash][i].linearized in Sets(cache)
      :: ConfigOf(cache[hash][i])
  }

  /** The comparison cacheContains makes. */
  predicate SameEntry<S, I, O>(m: Model<S, I, O>, e: CacheEntry<S>, e': CacheEntry<S>)
    reads e.linearized, e'.linearized
  {
    e.linearized[..] == e'.linearized[..] && m.equal(e.state, e'.state)
  }

  /** cacheContains: some stored configuration has the same operations done and an equal state. */
  method CacheContains<S(!new), I(!new), O(!new)>(m: Model<S, I, O>, cache: Cache<S>, entry: CacheEntry<S>)
    returns (found: bool)
    requires Sound(m) && CacheOk(cache, entry.linearized.Length)
    ensures found ==> exists c :: c in Configs(cache) && c.done == Members(entry.linearized[..]) && m.equal(entry.state, c.state)
    ensures !found ==> ConfigOf(entry) !in Configs(cache)
  {
    hide Members, HashOf, Sound;
    var hash := Hash(entry.linearized);
    var bucket := if hash in cache then cache[hash] else [];
    for i := 0 to |bucket|
      invariant forall j :: 0 <= j < i ==> !SameEntry(m, entry, bucket[j])
    {
      var same := Equals(entry.linearized, bucket[i].linearized);
      if same && m.equal(entry.state, bucket[i].state) {
        assert ConfigOf(bucket[i]).done == Members(entry.linearized[..]);
        return true;
      }
    }
    NotStored(m, cache, entry);
    return false;
  }

  lemma NotStored<S(!new), I(!new), O(!new)>(m: Model<S, I, O>, cache: Cache<S>, entry: CacheEntry<S>)
    requires Sound(m) && CacheOk(cache, entry.linearized.Length)
    requires var hash := HashOf(entry.linearized[..]);
             hash in cache ==> forall j :: 0 <= j < |cache[hash]| ==> !SameEntry(m, entry, cache[hash][j])
    ensures ConfigOf(entry) !in Configs(cache)
  {
    hide HashOf, Members;
    if ConfigOf(entry) in Configs(cache) {
      var hash, i :| hash in cache && 0 <= i < |cache[hash]| && cache[hash][i].linearized in Sets(cache)
                     && ConfigOf(cache[hash][i]) == ConfigOf(entry);
      var e := cache[hash][i];
      assert EntryOk(e, hash, entry.linearized.Length);
      MembersDecide(e.linearized[..], entry.linearized[..]);
    }
  }

  function Add<S>(cache: Cache<S>, hash: nat, e: CacheEntry<S>): Cache<S> {
    cache[hash := (if hash in cache then cache[hash] else []) + [e]]
  }

  lemma SetsOfAdd<S>(cache: Cache<S>, hash: nat, e: CacheEntry<S>)
    ensures Sets(Add(cache, hash, e)) == Sets(cache) + {e.linearized}
  {
    var cache' := Add(cache, hash, e);
    var last := |cache'[hash]| - 1;
    assert cache'[hash][last] == e;
    assert forall x, i :: x in cache && 0 <= i < |cache[x]| ==> x in cache' && i < |cache'[x]| && cache'[x][i] == cache[x][i];
  }

  lemma AddKeeps<S>(cache: Cache<S>, len: nat, hash: nat, e: CacheEntry<S>)
    requires CacheOk(cache, len) && EntryOk(e, hash, len)
    ensures CacheOk(Add(cache, hash, e), len)
    ensures Configs(Add(cache, hash, e)) == Configs(cache) + {ConfigOf(e)}
  {
    hide HashOf, Members, Sets;
    var cache' := Add(cache, hash, e);
    SetsOfAdd(cache, hash, e);
    var last := |cache'[hash]| - 1;
    assert cache'[hash][last] == e;
    assert forall x, i :: x in cache && 0 <= i < |cache[x]| ==> x in cache' && i < |cache'[x]| && cache'[x][i] == cache[x][i];
  }

  // ---------------------------------------------------------- termination

  /** All sequences of at most k ids below n. */
  ghost function Universe(n: nat, k: nat): set<seq<nat>> {
    if k == 0 then {[]}
    else Universe(n, k - 1) + set t, i | t in Universe(n, k - 1) && i in Ids(n) :: t + [i]
  }

  lemma {:induction false} InUniverse(t: seq<nat>, n: nat, k: nat)
    requires Within(t, n) && |t| <= k
    ensures t in Universe(n, k)
    decreases k
  {
    if |t| == k && k > 0 {
      InUniverse(t[..k - 1], n, k - 1);
      assert t == t[..k - 1] + [t[k - 1]];
    } else if k > 0 {
      InUniverse(t, n, k - 1);
    }
  }

  lemma {:induction false} DistinctBound(t: seq<nat>, n: nat)
    requires Within(t, n) && Distinct(t)
    ensures |t| <= n
    decreases n
  {
    assert |t| > 0 ==> t[0] < n;
    if n == 0 {
    } else if j :| 0 <= j < |t| && t[j] == n - 1 {
      DistinctBound(t[..j] + t[j + 1..], n - 1);
    } else {
      DistinctBound(t, n - 1);
    }
  }

  ghost function StateAfter<S, I, O>(m: Model<S, I, O>, h: Hist<I, O>, t: seq<nat>): S
    requires WellFormed(h) && Within(t, h.N())
  {
    if t == [] then m.init
    else Apply(m, h, StateAfter(m, h, t[..|t| - 1]), t[|t| - 1]).1
  }

  lemma {:induction false} StackState<S, I, O>(
    m: Model<S, I, O>, h: Hist<I, O>, k: Stack<S>, state: S, configs: set<Config<S>>, p: nat, d: nat)
    requires SearchInv(m, h, k, state, configs, p) && d <= |k.ids|
    ensures StateAfter(m, h, k.ids[..d]) == StateAt(k, state, d)
    decreases d
  {
    if d > 0 {
      assert LevelOk(m, h, k, state, d - 1);
      StackState(m, h, k, state, configs, p, d - 1);
      assert k.ids[..d][..d - 1] == k.ids[..d - 1];
    }
  }

  /** The stacks that have been reached are all different and are known to the cache. */
  ghost predicate Visited<S, I, O>(m: Model<S, I, O>, h: Hist<I, O>, configs: set<Config<S>>, visited: set<seq<nat>>)
    requires WellFormed(h)
  {
    && visited <= Universe(h.N(), h.N())
    && forall t :: t in visited ==> Within(t, h.N()) && Config(Elements(t), StateAfter(m, h, t)) in configs
  }

  /** Pushing an operation that is not cached reaches a stack never reached before. */
  lemma PushIsNew<S, I, O>(
    m: Model<S, I, O>, h: Hist<I, O>, k: Stack<S>, state: S, configs: set<Config<S>>, p: nat, id: nat,
    visited: set<seq<nat>>)
    requires SearchInv(m, h, k, state, configs, p) && Visited(m, h, configs, visited)
    requires id < h.N() && id !in Elements(k.ids)
    requires var c := Config(Elements(k.ids) + {id}, Apply(m, h, state, id).1);
             c !in configs
    ensures var t := k.ids + [id];
            && t !in visited && t in Universe(h.N(), h.N())
            && Visited(m, h, configs + {Config(Elements(t), Apply(m, h, state, id).1)}, visited + {t})
  {
    hide SearchInv, Universe;
    var t := k.ids + [id];
    StackIds(m, h, k, state, configs, p);
    StackState(m, h, k, state, configs, p, |k.ids|);
    assert k.ids[..|k.ids|] == k.ids && t[..|t| - 1] == k.ids;
    AppendElements(k.ids, id);
    assert StateAfter(m, h, t) == Apply(m, h, state, id).1;
    assert Distinct(t) by { assert forall i :: 0 <= i < |k.ids| ==> k.ids[i] in Elements(k.ids); }
    DistinctBound(t, h.N());
    InUniverse(t, h.N(), h.N());
  }

  lemma StackIds<S, I, O>(m: Model<S, I, O>, h: Hist<I, O>, k: Stack<S>, state: S, configs: set<Config<S>>, p: nat)
    requires SearchInv(m, h, k, state, configs, p)
    ensures WellFormed(h) && |k.ids| == |k.states| && Distinct(k.ids) && Within(k.ids, h.N()) && Elements(k.ids) <= Ids(h.N())
  {
  }

  // --------------------------------------------------------------- search

  datatype CallsEntry<I, O, S> = CallsEntry(entry: Node<I, O>, state: S)

  /** The calls stack holds the call nodes of the ids and the state before each. */
  ghost predicate CallsOk<S, I, O>(h: Hist<I, O>, nodes: seq<Node<I, O>>, calls: seq<CallsEntry<I, O, S>>, k: Stack<S>)
    requires WellFormed(h) && |nodes| == |h.entries| + 1
  {
    && |calls| == |k.ids| == |k.states| && Within(k.ids, h.N())
    && forall d :: 0 <= d < |calls| ==> CallOk(h, nodes, calls[d], k.ids[d], k.states[d])
  }

  ghost predicate CallOk<S, I, O>(h: Hist<I, O>, nodes: seq<Node<I, O>>, c: CallsEntry<I, O, S>, id: nat, state: S)
    requires WellFormed(h) && |nodes| == |h.entries| + 1 && id < h.N()
  {
    assert PairOk(h, id);
    c.entry == nodes[h.callAt[id]] && c.state == state && c.entry.id == id
  }

  /** The scan stands at position p; at the end only if the list is empty. */
  ghost predicate ScanAt<I, O>(h: Hist<I, O>, nodes: seq<Node<I, O>>, ids: seq<nat>, p: nat)
    requires WellFormed(h)
  {
    && 1 <= p <= |nodes|
    && (p < |nodes| ==> Live(h, Elements(ids), p))
    && (p == |nodes| ==> forall r: nat :: !Live(h, Elements(ids), r))
  }

  /** Where the scan starts over after a push, or at the beginning. */
  lemma FirstInList<I, O>(h: Hist<I, O>, nodes: seq<Node<I, O>>, ids: seq<nat>) returns (q: nat)
    requires HeapOk(h, nodes, ids)
    ensures nodes[0].next == NodeAt(nodes, q) && Gap(h, Elements(ids), 0, q) && ScanAt(h, nodes, ids, q)
  {
    q := NextInList(h, nodes, ids, 0);
  }

  /** Where the scan goes from a call it passes. */
  lemma AfterCall<I, O>(h: Hist<I, O>, nodes: seq<Node<I, O>>, ids: seq<nat>, p: nat) returns (q: nat)
    requires HeapOk(h, nodes, ids) && 1 <= p < |nodes| && Live(h, Elements(ids), p) && h.At(p).CallEntry?
    ensures p < q < |nodes| && nodes[p].next == nodes[q] && Gap(h, Elements(ids), p, q) && ScanAt(h, nodes, ids, q)
  {
    q := NextInList(h, nodes, ids, p);
    CallHasNext(h, Elements(ids), p, q);
  }

  /** All that holds between two turns of the search. */
  ghost predicate Searching<S, I, O>(
    m: Model<S, I, O>, h: Hist<I, O>, nodes: seq<Node<I, O>>, k: Stack<S>, state: S, cache: Cache<S>,
    linearized: Bits, calls: seq<CallsEntry<I, O, S>>, visited: set<seq<nat>>, p: nat)
    reads nodes, linearized, Sets(cache)
  {
    && HeapOk(h, nodes, k.ids) && |nodes| == |h.entries| + 1 && ScanAt(h, nodes, k.ids, p)
    && SearchInv(m, h, k, state, Configs(cache), p)
    && CallsOk(h, nodes, calls, k)
    && CacheOk(cache, linearized.Length) && linearized !in Sets(cache)
    && Visited(m, h, Configs(cache), visited)
    && h.N() <= 64 * linearized.Length && Members(linearized[..]) == Elements(k.ids)
  }

  /** The turn at a call entry: push the operation, or pass it by. */
  method TryCall<S(!new), I(!new), O(!new)>(
    m: Model<S, I, O>, ghost h: Hist<I, O>, ghost nodes: seq<Node<I, O>>, headEntry: Node<I, O>, entry: Node<I, O>,
    ghost k: Stack<S>, state: S, cache: Cache<S>, linearized: Bits, calls: seq<CallsEntry<I, O, S>>,
    ghost visited: set<seq<nat>>, ghost p: nat)
    returns (entry': Node?<I, O>, ghost k': Stack<S>, state': S, cache': Cache<S>,
             calls': seq<CallsEntry<I, O, S>>, ghost visited': set<seq<nat>>, ghost p': nat)
    requires Sound(m) && Searching(m, h, nodes, k, state, cache, linearized, calls, visited, p)
    requires headEntry == nodes[0] && headEntry.next != null && entry == NodeAt(nodes, p) && entry.mate != null
    modifies nodes, linearized
    ensures Searching(m, h, nodes, k', state', cache', linearized, calls', visited', p') && entry' == NodeAt(nodes, p')
    ensures visited < visited' <= Universe(h.N(), h.N()) || (visited' == visited && calls' == calls && p < p' <= |nodes|)
  {
    hide HeapOk, SearchInv, Visited, CacheOk, Configs, CallsOk, ScanAt, Members, WellFormed, Sound, Universe;
    AtEntry(m, h, nodes, k.ids, p, state);
    ghost var id, configs := h.At(p).id, Configs(cache);
    var matching := entry.mate;
    var (legal, newState) := m.step(state, entry.value.input, matching.value.output);
    k', state', cache', calls', visited' := k, state, cache, calls, visited;
    var found := false;
    if legal {
      var newLinearized;
      found, newLinearized := Lookup(m, cache, linearized, entry.id, newState);
      if !found {
        PushIsNew(m, h, k, state, configs, p, id, visited);
        AppendElements(k.ids, id);
        MoreCalls(h, nodes, calls, k, CallsEntry(entry, state), p);
        cache' := Store(cache, CacheEntry(newLinearized, newState));
        ghost var configs' := configs + {Config(Elements(k.ids) + {id}, newState)};
        assert Configs(cache') == configs';
        calls' := calls + [CallsEntry(entry, state)];
        Set(linearized, entry.id);
        assert Configs(cache') == configs';
        LiftCall(entry, h, nodes, k.ids, p);
        assert Configs(cache') == configs';
        entry' := headEntry.next;
        p' := FirstInList(h, nodes, k.ids + [id]);
        Push(m, h, k, state, configs, p, p');
        k', visited' := Stack(k.ids + [id], k.states + [state]), visited + {k.ids + [id]};
        state' := newState;
        VisitedBound(m, h, Configs(cache'), visited');
        return;
      }
    }
    entry' := entry.next;
    p' := PassCall(m, h, nodes, k, state, configs, p, found);
  }

  lemma VisitedBound<S, I, O>(m: Model<S, I, O>, h: Hist<I, O>, configs: set<Config<S>>, visited: set<seq<nat>>)
    requires WellFormed(h) && Visited(m, h, configs, visited)
    ensures visited <= Universe(h.N(), h.N())
  {
  }

  /** The turn at a return entry with a non-empty stack: undo the last operation and go on after it. */
  method Backtrack<S, I, O>(
    m: Model<S, I, O>, ghost h: Hist<I, O>, ghost nodes: seq<Node<I, O>>,
    ghost k: Stack<S>, state: S, cache: Cache<S>, linearized: Bits, calls: seq<CallsEntry<I, O, S>>,
    ghost visited: set<seq<nat>>, ghost p: nat)
    returns (entry': Node?<I, O>, ghost k': Stack<S>, state': S, calls': seq<CallsEntry<I, O, S>>, ghost p': nat)
    requires Searching(m, h, nodes, k, state, cache, linearized, calls, visited, p)
    requires nodes[0].next != null && p < |nodes| && nodes[p].mate == null && |calls| > 0
    modifies nodes, linearized
    ensures Searching(m, h, nodes, k', state', cache, linearized, calls', visited, p') && entry' == NodeAt(nodes, p')
    ensures |calls'| == |calls| - 1
  {
    hide HeapOk, SearchInv, Visited, CacheOk, Configs, CallsOk, ScanAt, Members, WellFormed;
    AtEntry(m, h, nodes, k.ids, p, state);
    TopCall(h, nodes, calls, k);
    PoppedLive(m, h, k, state, Configs(cache), p);
    ghost var configs := Configs(cache);
    var callsTop := calls[|calls| - 1];
    k' := Stack(k.ids[..|calls| - 1], k.states[..|calls| - 1]);
    var entry := callsTop.entry;
    state' := callsTop.state;
    Clear(linearized, entry.id);
    calls' := calls[..|calls| - 1];
    UnliftCall(entry, h, nodes, k.ids);
    p' := AfterCall(h, nodes, k'.ids, h.callAt[entry.id]);
    entry' := entry.next;
    Pop(m, h, k, state, configs, p, p');
  }

  /**
   A positive verdict is always right, a negative one unless the search was
   stopped from outside.  kill(i) is what the i-th look at the kill flag sees.
   */
  method CheckSingle<S(!new), I(!new), O(!new)>(
    m: Model<S, I, O>, ghost h: Hist<I, O>, entries: seq<Entry<I, O>>, kill: nat -> bool)
    returns (ok: bool)
    requires Sound(m) && WellFormed(h) && entries == h.entries
    ensures ok ==> EntriesLinearizable(m, h)
    ensures !ok ==> !EntriesLinearizable(m, h) || exists i :: kill(i)
  {
    hide HeapOk, SearchInv, Visited, CacheOk, Configs, Sets, CallsOk, ScanAt, Members, WellFormed,
         EntriesLinearizable, Sound, Universe;
    var headEntry, entry, n;
    ghost var nodes;
    headEntry, entry, n, nodes := BuildList(h, entries);
    var linearized := NewBitset(n);
    var cache: Cache<S> := map[];
    var calls: seq<CallsEntry<I, O, S>> := [];
    var state := m.init;
    var turn := 0;
    ghost var k: Stack<S> := Stack([], []);
    ghost var visited: set<seq<nat>> := {};
    ghost var p := FirstInList(h, nodes, k.ids);
    Begun(m, h, nodes, p, cache, linearized.Length, calls, k);
    while headEntry.next != null
      invariant headEntry == nodes[0] && entry == NodeAt(nodes, p)
      invariant Searching(m, h, nodes, k, state, cache, linearized, calls, visited, p)
      invariant fresh(linearized) && forall i :: 0 <= i < |nodes| ==> fresh(nodes[i])
      decreases Universe(h.N(), h.N()) - visited, |calls|, |nodes| - p
    {
      if kill(turn) {
        return false;
      }
      turn := turn + 1;
      AtEntry(m, h, nodes, k.ids, p, state);
      if entry.mate != null {
        entry, k, state, cache, calls, visited, p :=
          TryCall(m, h, nodes, headEntry, entry, k, state, cache, linearized, calls, visited, p);
      } else {
        if |calls| == 0 {
          EmptyStack(h, nodes, calls, k);
          Illegal(m, h, k, state, Configs(cache), p);
          return false;
        }
        entry, k, state, calls, p := Backtrack(m, h, nodes, k, state, cache, linearized, calls, visited, p);
      }
    }
    NothingLeft(h, nodes, k.ids);
    Complete(m, h, k, state, Configs(cache), p);
    return true;
  }

  lemma EmptyStack<S, I, O>(h: Hist<I, O>, nodes: seq<Node<I, O>>, calls: seq<CallsEntry<I, O, S>>, k: Stack<S>)
    requires WellFormed(h) && |nodes| == |h.entries| + 1 && CallsOk(h, nodes, calls, k) && calls == []
    ensures k.ids == []
  {
  }

  method Store<S>(cache: Cache<S>, e: CacheEntry<S>) returns (cache': Cache<S>)
    requires CacheOk(cache, e.linearized.Length)
    ensures CacheOk(cache', e.linearized.Length) && Configs(cache') == old(Configs(cache)) + {ConfigOf(e)}
    ensures Sets(cache') == Sets(cache) + {e.linearized}
  {
    hide HashOf, Members;
    var hash := Hash(e.linearized);
    AddKeeps(cache, e.linearized.Length, hash, e);
    SetsOfAdd(cache, hash, e);
    cache' := Add(cache, hash, e);
  }

  /** linearized.clone().set(id), and whether the cache has it with an equal state. */
  method Lookup<S(!new), I(!new), O(!new)>(m: Model<S, I, O>, cache: Cache<S>, linearized: Bits, id: nat, newState: S)
    returns (found: bool, newLinearized: Bits)
    requires Sound(m) && CacheOk(cache, linearized.Length) && id < 64 * linearized.Length
    ensures fresh(newLinearized) && newLinearized.Length == linearized.Length && newLinearized !in Sets(cache)
    ensures Members(newLinearized[..]) == Members(linearized[..]) + {id}
    ensures found ==> exists c :: c in Configs(cache) && c.done == Members(newLinearized[..]) && m.equal(newState, c.state)
    ensures !found ==> Config(Members(newLinearized[..]), newState) !in Configs(cache)
    ensures CacheOk(cache, linearized.Length) && Configs(cache) == old(Configs(cache))
  {
    hide Members, HashOf, Sound;
    newLinearized := Clone(linearized);
    Set(newLinearized, id);
    assert newLinearized !in Sets(cache);
    found := CacheContains(m, cache, CacheEntry(newLinearized, newState));
  }

  /** What the loop body may use about the entry the scan stands at. */
  lemma AtEntry<S, I, O>(m: Model<S, I, O>, h: Hist<I, O>, nodes: seq<Node<I, O>>, ids: seq<nat>, p: nat, state: S)
    requires HeapOk(h, nodes, ids) && ScanAt(h, nodes, ids, p) && nodes[0].next != null
    ensures WellFormed(h) && 1 <= p < |nodes| && Live(h, Elements(ids), p)
    ensures var e := h.At(p);
            && e.id < h.N() && e.id !in Elements(ids) && nodes[p].id == e.id
            && (nodes[p].mate != null <==> e.CallEntry?)
            && (e.CallEntry? ==>
                  && nodes[p].value.Input? && nodes[p].mate.value.Output?
                  && Apply(m, h, state, e.id) == m.step(state, nodes[p].value.input, nodes[p].mate.value.output))
  {
    var q := NextInList(h, nodes, ids, 0);
    assert p < |nodes|;
    NodeFacts(h, nodes, p);
  }

  lemma PassCall<S(!new), I(!new), O(!new)>(
    m: Model<S, I, O>, h: Hist<I, O>, nodes: seq<Node<I, O>>, k: Stack<S>, state: S, configs: set<Config<S>>, p: nat,
    found: bool) returns (q: nat)
    requires Sound(m) && HeapOk(h, nodes, k.ids) && SearchInv(m, h, k, state, configs, p)
    requires 1 <= p < |nodes| && Live(h, Elements(k.ids), p) && h.At(p).CallEntry? && h.At(p).id < h.N()
    requires var (legal, newState) := Apply(m, h, state, h.At(p).id);
             if found then exists c :: c in configs && c.done == Elements(k.ids) + {h.At(p).id} && m.equal(newState, c.state)
             else !legal
    ensures p < q < |nodes| && nodes[p].next == nodes[q] && ScanAt(h, nodes, k.ids, q)
    ensures SearchInv(m, h, k, state, configs, q)
  {
    hide SearchInv, HeapOk, ScanAt;
    var id := h.At(p).id;
    StackIds(m, h, k, state, configs, p);
    q := AfterCall(h, nodes, k.ids, p);
    if found {
      var c :| c in configs && c.done == Elements(k.ids) + {id} && m.equal(Apply(m, h, state, id).1, c.state);
      CachedChoiceIsDead(m, h, k, state, configs, p, id, c);
    }
    Skip(m, h, k, state, configs, p, q);
  }

  lemma PoppedLive<S, I, O>(m: Model<S, I, O>, h: Hist<I, O>, k: Stack<S>, state: S, configs: set<Config<S>>, p: nat)
    requires SearchInv(m, h, k, state, configs, p) && |k.ids| > 0
    ensures var d := |k.ids| - 1;
            && Live(h, Elements(k.ids[..d]), h.callAt[k.ids[d]]) && h.At(h.callAt[k.ids[d]]).CallEntry?
            && Elements(k.ids[..d]) == Elements(k.ids) - {k.ids[d]}
  {
    hide CanFinish, Explored, OnlyCallsBefore, CachedOk, LevelOk;
    var d := |k.ids| - 1;
    NotYetDone(k.ids, d, d);
    CallPlace(h, Elements(k.ids[..d]), k.ids[d]);
    assert k.ids == k.ids[..d] + [k.ids[d]];
    AppendElements(k.ids[..d], k.ids[d]);
  }

  lemma TopCall<S, I, O>(h: Hist<I, O>, nodes: seq<Node<I, O>>, calls: seq<CallsEntry<I, O, S>>, k: Stack<S>)
    requires WellFormed(h) && |nodes| == |h.entries| + 1 && CallsOk(h, nodes, calls, k) && |calls| > 0
    ensures |k.ids| == |k.states| == |calls| && Within(k.ids, h.N())
    ensures var d := |calls| - 1;
            && k.ids[d] < h.N() && PairOk(h, k.ids[d])
            && calls[d].entry.id == k.ids[d] && calls[d].entry == nodes[h.callAt[k.ids[d]]] && calls[d].state == k.states[d]
            && CallsOk(h, nodes, calls[..d], Stack(k.ids[..d], k.states[..d]))
  {
  }

  lemma MoreCalls<S, I, O>(
    h: Hist<I, O>, nodes: seq<Node<I, O>>, calls: seq<CallsEntry<I, O, S>>, k: Stack<S>, c: CallsEntry<I, O, S>, p: nat)
    requires HeapOk(h, nodes, k.ids) && CallsOk(h, nodes, calls, k)
    requires 1 <= p < |nodes| && h.At(p).CallEntry? && c.entry == nodes[p]
    ensures h.At(p).id < h.N()
    ensures CallsOk(h, nodes, calls + [c], Stack(k.ids + [h.At(p).id], k.states + [c.state]))
  {
    NodeFacts(h, nodes, p);
    assert PairOk(h, h.At(p).id);
  }

  lemma NothingLeft<I, O>(h: Hist<I, O>, nodes: seq<Node<I, O>>, ids: seq<nat>)
    requires HeapOk(h, nodes, ids) && nodes[0].next == null
    ensures forall r: nat :: !Live(h, Elements(ids), r)
  {
    var q := NextInList(h, nodes, ids, 0);
  }

  lemma Begun<S, I, O>(
    m: Model<S, I, O>, h: Hist<I, O>, nodes: seq<Node<I, O>>, p: nat, cache: Cache<S>, len: nat,
    calls: seq<CallsEntry<I, O, S>>, k: Stack<S>)
    requires HeapOk(h, nodes, []) && Gap(h, Elements([]), 0, p) && cache == map[] && calls == [] && k == Stack([], [])
    ensures SearchInv(m, h, k, m.init, Configs(cache), p)
    ensures CallsOk(h, nodes, calls, k)
    ensures CacheOk(cache, len) && Sets(cache) == {} && Visited(m, h, Configs(cache), {})
  {
    assert Elements([]) == {};
    Begin(m, h, p);
    assert Configs(cache) == {};
  }
}
