/**
 The doubly linked list of src/porcupine/checker.go.  `nodes` is the list as it
 was built, headed by the sentinel, and R is the set of positions that have been
 unlinked; an unlinked node keeps its own pointers, which is what makes putting
 it back possible.
 */
module EntryList {
  import opened Linearizability

  datatype Payload<I, O> = Input(input: I) | Output(output: O) | Nothing

  /** `mate` is the return node of a call node, and null in a return node. */
  class Node<I, O> {
    const value: Payload<I, O>
    const mate: Node?<I, O>
    const id: int
    var next: Node?<I, O>
    var prev: Node?<I, O>

    constructor (value: Payload<I, O>, mate: Node?<I, O>, id: int)
      ensures this.value == value && this.mate == mate && this.id == id
      ensures next == null && prev == null
    {
      this.value, this.mate, this.id := value, mate, id;
      next, prev := null, null;
    }
  }

  // -------------------------------------------------------------- the shape

  /** i and j are neighbours once the positions of R are gone; `size` stands for the end. */
  ghost predicate Adjacent(R: set<nat>, size: nat, i: nat, j: nat) {
    i < j <= size && i !in R && j !in R && forall k :: i < k < j ==> k in R
  }

  ghost predicate Removable(R: set<nat>, size: nat) {
    forall k :: k in R ==> 0 < k < size
  }

  ghost predicate Unique<I, O>(nodes: seq<Node<I, O>>) {
    forall i, j :: 0 <= i < j < |nodes| ==> nodes[i] != nodes[j]
  }

  ghost function NodeAt<I, O>(nodes: seq<Node<I, O>>, j: nat): Node?<I, O> {
    if j < |nodes| then nodes[j] else null
  }

  ghost predicate Link<I, O>(nodes: seq<Node<I, O>>, i: nat, j: nat)
    requires i < |nodes|
    reads nodes
  {
    nodes[i].next == NodeAt(nodes, j) && (j < |nodes| ==> nodes[j].prev == nodes[i])
  }

  ghost predicate Linked<I, O>(nodes: seq<Node<I, O>>, R: set<nat>)
    reads nodes
  {
    && |nodes| > 0 && Unique(nodes) && Removable(R, |nodes|)
    && forall i: nat, j: nat :: Adjacent(R, |nodes|, i, j) ==> Link(nodes, i, j)
  }

  /** The unlinked node at p still points to the neighbours it had. */
  ghost predicate Saved<I, O>(nodes: seq<Node<I, O>>, R: set<nat>, p: nat)
    requires p < |nodes|
    reads nodes
  {
    forall i: nat, j: nat :: Adjacent(R, |nodes|, i, j) && i < p < j ==>
      nodes[p].prev == nodes[i] && nodes[p].next == NodeAt(nodes, j)
  }

  twostate predicate Untouched<I, O>(nodes: seq<Node<I, O>>, R: set<nat>)
    reads nodes
  {
    forall k :: k in R && k < |nodes| ==> nodes[k].next == old(nodes[k].next) && nodes[k].prev == old(nodes[k].prev)
  }

  lemma {:induction false} HasPrevious(R: set<nat>, size: nat, p: nat, q: nat) returns (i: nat)
    requires q < p <= size && p !in R && 0 !in R && forall k :: q < k < p ==> k in R
    ensures Adjacent(R, size, i, p) && i <= q
    decreases q
  {
    if q !in R {
      i := q;
    } else {
      i := HasPrevious(R, size, p, q - 1);
    }
  }

  lemma {:induction false} HasNext(R: set<nat>, size: nat, p: nat, q: nat) returns (j: nat)
    requires p < q <= size && p !in R && size !in R && forall k :: p < k < q ==> k in R
    ensures Adjacent(R, size, p, j) && j >= q
    decreases size - q
  {
    if q !in R {
      j := q;
    } else {
      j := HasNext(R, size, p, q + 1);
    }
  }

  /** Taking p out merges the pairs on its two sides and leaves the others. */
  lemma AdjacentWithout(R: set<nat>, size: nat, p: nat, i: nat, j: nat, a: nat, b: nat)
    requires Adjacent(R, size, i, p) && Adjacent(R, size, p, j)
    ensures Adjacent(R + {p}, size, a, b) <==>
              (a == i && b == j) || (Adjacent(R, size, a, b) && a != p && b != p)
  {
  }

  method Unlink<I, O>(x: Node<I, O>, ghost nodes: seq<Node<I, O>>, ghost R: set<nat>, ghost p: nat)
    requires Linked(nodes, R) && 0 < p < |nodes| && p !in R && nodes[p] == x
    modifies nodes
    ensures Linked(nodes, R + {p}) && Saved(nodes, R + {p}, p) && Untouched(nodes, R + {p})
  {
    ghost var size := |nodes|;
    ghost var i := HasPrevious(R, size, p, p - 1);
    ghost var j := HasNext(R, size, p, p + 1);
    assert Link(nodes, i, p) && Link(nodes, p, j);
    x.prev.next := x.next;
    if x.next != null {
      x.next.prev := x.prev;
    }
    forall a: nat, b: nat | Adjacent(R + {p}, size, a, b)
      ensures Link(nodes, a, b)
      ensures a < p < b ==> a == i && b == j
    {
      AdjacentWithout(R, size, p, i, j, a, b);
      if !(a == i && b == j) {
        assert old(Link(nodes, a, b));
      }
    }
  }

  method Relink<I, O>(x: Node<I, O>, ghost nodes: seq<Node<I, O>>, ghost R: set<nat>, ghost p: nat)
    requires Linked(nodes, R) && 0 < p < |nodes| && p in R && nodes[p] == x && Saved(nodes, R, p)
    modifies nodes
    ensures Linked(nodes, R - {p}) && Untouched(nodes, R)
  {
    ghost var size := |nodes|;
    ghost var R' := R - {p};
    ghost var i := HasPrevious(R', size, p, p - 1);
    ghost var j := HasNext(R', size, p, p + 1);
    assert R' + {p} == R;
    AdjacentWithout(R', size, p, i, j, i, j);
    x.prev.next := x;
    if x.next != null {
      x.next.prev := x;
    }
    forall a: nat, b: nat | Adjacent(R', size, a, b) ensures Link(nodes, a, b) {
      AdjacentWithout(R', size, p, i, j, a, b);
      if a != p && b != p {
        assert old(Link(nodes, a, b));
        assert !(a == i && b == j);
      }
    }
  }

  /** lift: the call node and its return node leave the list. */
  method Lift<I, O>(entry: Node<I, O>, ghost nodes: seq<Node<I, O>>, ghost R: set<nat>, ghost c: nat, ghost r: nat)
    requires Linked(nodes, R) && 0 < c < r < |nodes| && c !in R && r !in R
    requires nodes[c] == entry && nodes[r] == entry.mate
    modifies nodes
    ensures Linked(nodes, R + {c, r}) && Untouched(nodes, R)
    ensures SavedPair(nodes, R, c, r)
  {
    Unlink(entry, nodes, R, c);
    label L:
    Unlink(entry.mate, nodes, R + {c}, r);
    assert Untouched@L(nodes, R + {c});
    assert R + {c} + {r} == R + {c, r};
  }

  ghost predicate SavedPair<I, O>(nodes: seq<Node<I, O>>, R: set<nat>, c: nat, r: nat)
    requires c < |nodes| && r < |nodes|
    reads nodes
  {
    Saved(nodes, R + {c}, c) && Saved(nodes, R + {c, r}, r)
  }

  /** unlift: the exact inverse of the last lift that has not been undone. */
  method Unlift<I, O>(entry: Node<I, O>, ghost nodes: seq<Node<I, O>>, ghost R: set<nat>, ghost c: nat, ghost r: nat)
    requires 0 < c < r < |nodes| && c !in R && r !in R && Linked(nodes, R + {c, r})
    requires nodes[c] == entry && nodes[r] == entry.mate && SavedPair(nodes, R, c, r)
    modifies nodes
    ensures Linked(nodes, R) && Untouched(nodes, R)
  {
    Relink(entry.mate, nodes, R + {c, r}, r);
    label L:
    assert R + {c, r} - {r} == R + {c};
    Relink(entry, nodes, R + {c}, c);
    assert Untouched@L(nodes, R + {c});
    assert R + {c} - {c} == R;
  }

  // ----------------------------------------------------------- building it

  method InsertBefore<I, O>(n: Node<I, O>, mark: Node?<I, O>)
    requires mark != null ==> n != mark && mark.prev != n && mark.prev != mark
    modifies n, mark, if mark == null then null else mark.prev
    ensures mark == null ==> n.next == old(n.next) && n.prev == old(n.prev)
    ensures mark != null ==> mark.prev == n && n.next == mark && mark.next == old(mark.next)
    ensures mark != null && old(mark.prev) == null ==> n.prev == old(n.prev)
    ensures mark != null && old(mark.prev) != null ==> n.prev == old(mark.prev) && old(mark.prev).next == n
  {
    if mark != null {
      var beforeMark := mark.prev;
      mark.prev := n;
      n.next := mark;
      if beforeMark != null {
        n.prev := beforeMark;
        beforeMark.next := n;
      }
    }
  }

  /** A list without gaps. */
  ghost predicate Chain<I, O>(nodes: seq<Node<I, O>>)
    reads nodes
  {
    && Unique(nodes)
    && (forall k :: 0 <= k < |nodes| ==> nodes[k].next == NodeAt(nodes, k + 1))
    && (forall k :: 1 <= k < |nodes| ==> nodes[k].prev == nodes[k - 1])
    && (|nodes| > 0 ==> nodes[0].prev == null)
  }

  /** The node for list position p, where nodes[p - first] is the one of position p. */
  ghost predicate Describes<I, O>(h: Hist<I, O>, nodes: seq<Node<I, O>>, first: nat, p: nat)
    requires WellFormed(h) && 1 <= first <= p <= |h.entries| && |nodes| == |h.entries| + 1 - first
  {
    assert PlaceOk(h, p);
    var e, x := h.At(p), nodes[p - first];
    assert PairOk(h, e.id);
    && x.id == e.id
    && (e.CallEntry? ==> x.value == Input(e.input) && x.mate == nodes[h.retAt[e.id] - first])
    && (e.ReturnEntry? ==> x.value == Output(e.output) && x.mate == null)
  }

  ghost predicate DescribesFrom<I, O>(h: Hist<I, O>, nodes: seq<Node<I, O>>, first: nat)
    requires WellFormed(h)
  {
    && 1 <= first <= |h.entries| + 1 && |nodes| == |h.entries| + 1 - first
    && forall p :: first <= p <= |h.entries| ==> Describes(h, nodes, first, p)
  }

  ghost predicate MatesOk<I, O>(h: Hist<I, O>, mates: map<nat, Node<I, O>>, nodes: seq<Node<I, O>>, first: nat)
    requires WellFormed(h) && 1 <= first <= |h.entries| + 1 && |nodes| == |h.entries| + 1 - first
  {
    forall id :: 0 <= id < h.N() && first <= h.retAt[id] <= |h.entries| ==>
      id in mates && mates[id] == nodes[h.retAt[id] - first]
  }

  /** One more node at the front, for the entry just before. */
  lemma DescribesCons<I, O>(
    h: Hist<I, O>, nodes: seq<Node<I, O>>, mates: map<nat, Node<I, O>>, x: Node<I, O>, first: nat)
    requires WellFormed(h) && first >= 1 && DescribesFrom(h, nodes, first + 1) && MatesOk(h, mates, nodes, first + 1)
    requires var e := h.At(first);
             && x.id == e.id
             && (e.CallEntry? ==> x.value == Input(e.input) && e.id in mates && x.mate == mates[e.id])
             && (e.ReturnEntry? ==> x.value == Output(e.output) && x.mate == null)
    ensures DescribesFrom(h, [x] + nodes, first)
    ensures MatesOk(h, if h.At(first).ReturnEntry? then mates[h.At(first).id := x] else mates, [x] + nodes, first)
  {
    var e, nodes' := h.At(first), [x] + nodes;
    assert PlaceOk(h, first) && PairOk(h, e.id);
    forall p | first <= p <= |h.entries| ensures Describes(h, nodes', first, p) {
      if p > first {
        assert Describes(h, nodes, first + 1, p);
        assert PlaceOk(h, p) && PairOk(h, h.At(p).id);
      }
    }
    forall id | 0 <= id < h.N() && first <= h.retAt[id] ensures first == h.retAt[id] ==> id == e.id {
      assert PairOk(h, id);
    }
  }

  /** insertBefore at the front of a whole list. */
  method InsertFront<I, O>(x: Node<I, O>, root: Node?<I, O>, ghost nodes: seq<Node<I, O>>)
    requires Chain(nodes) && root == NodeAt(nodes, 0) && x !in nodes && x.next == null && x.prev == null
    modifies x, root
    ensures Chain([x] + nodes) && x.next == root
  {
    InsertBefore(x, root);
  }

  method MakeLinkedEntries<I, O>(ghost h: Hist<I, O>, entries: seq<Entry<I, O>>)
    returns (root: Node?<I, O>, ghost nodes: seq<Node<I, O>>)
    requires WellFormed(h) && entries == h.entries
    ensures Chain(nodes) && root == NodeAt(nodes, 0) && DescribesFrom(h, nodes, 1)
    ensures forall x :: x in nodes ==> fresh(x)
  {
    hide WellFormed, Describes, DescribesFrom, MatesOk, Chain;
    root, nodes := null, [];
    var mates: map<nat, Node<I, O>> := map[];
    var i := |entries|;
    NothingYet(h);
    assert Chain<I, O>([]) by { EmptyChain<I, O>(); }
    while i > 0
      invariant 0 <= i <= |entries| && |nodes| == |entries| - i
      invariant Chain(nodes) && root == NodeAt(nodes, 0)
      invariant DescribesFrom(h, nodes, i + 1) && MatesOk(h, mates, nodes, i + 1)
      invariant forall x :: x in nodes ==> fresh(x)
    {
      var elem := entries[i - 1];
      MateKnown(h, mates, nodes, i);
      var entry: Node<I, O>;
      var mates' := mates;
      if elem.ReturnEntry? {
        entry := new Node(Output(elem.output), null, elem.id);
        mates' := mates[elem.id := entry];
      } else {
        entry := new Node(Input(elem.input), mates[elem.id], elem.id);
      }
      DescribesCons(h, nodes, mates, entry, i);
      assert root != null ==> root in nodes;
      InsertFront(entry, root, nodes);
      nodes := [entry] + nodes;
      root, mates := entry, mates';
      i := i - 1;
    }
  }

  lemma EmptyChain<I, O>()
    ensures Chain<I, O>([])
  {
  }

  lemma NothingYet<I, O>(h: Hist<I, O>)
    requires WellFormed(h)
    ensures DescribesFrom(h, [], |h.entries| + 1) && MatesOk(h, map[], [], |h.entries| + 1)
  {
  }

  lemma MateKnown<I, O>(h: Hist<I, O>, mates: map<nat, Node<I, O>>, nodes: seq<Node<I, O>>, i: nat)
    requires WellFormed(h) && 1 <= i <= |h.entries| && |nodes| == |h.entries| - i && MatesOk(h, mates, nodes, i + 1)
    ensures h.At(i).CallEntry? ==> h.At(i).id in mates
  {
    assert PlaceOk(h, i) && PairOk(h, h.At(i).id);
  }
}
