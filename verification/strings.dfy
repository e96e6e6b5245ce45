/**
 Go's order on strings, and sorting by it.
 */
module Strings {
  import opened Sequences

  /** Lexicographic a <= b. */
  predicate Leq(a: string, b: string) {
    a == [] || (b != [] && (a[0] < b[0] || (a[0] == b[0] && Leq(a[1..], b[1..]))))
  }

  lemma {:induction false} LeqTotal(a: string, b: string)
    ensures Leq(a, b) || Leq(b, a)
    decreases |a|
  {
    if a != [] && b != [] && a[0] == b[0] {
      LeqTotal(a[1..], b[1..]);
    }
  }

  lemma {:induction false} LeqTransitive(a: string, b: string, c: string)
    requires Leq(a, b) && Leq(b, c)
    ensures Leq(a, c)
    decreases |a|
  {
    if a != [] && b != [] && c != [] && a[0] == b[0] && b[0] == c[0] {
      LeqTransitive(a[1..], b[1..], c[1..]);
    }
  }

  lemma {:induction false} LeqAntisymmetric(a: string, b: string)
    requires Leq(a, b) && Leq(b, a)
    ensures a == b
    decreases |a|
  {
    if a != [] && b != [] {
      LeqAntisymmetric(a[1..], b[1..]);
      assert a == [a[0]] + a[1..] && b == [b[0]] + b[1..];
    }
  }

  ghost predicate SortedKeys<T(!new)>(s: seq<T>, key: T -> string) {
    forall i, j :: 0 <= i < j < |s| ==> Leq(key(s[i]), key(s[j]))
  }

  /** Sorting by key; sort.Sort fixes no order between equal keys, and neither do its users here. */
  method SortByKey<T(!new)>(s: seq<T>, key: T -> string) returns (r: seq<T>)
    ensures SortedKeys(r, key) && multiset(r) == multiset(s)
  {
    r := [];
    for n := 0 to |s|
      invariant SortedKeys(r, key) && multiset(r) == multiset(s[..n])
    {
      var i := |r|;
      while i > 0 && !Leq(key(r[i - 1]), key(s[n]))
        invariant 0 <= i <= |r|
        invariant forall j :: i <= j < |r| ==> !Leq(key(r[j]), key(s[n]))
      {
        i := i - 1;
      }
      InsertSorted(r, key, s[n], i);
      InsertMultiset(r, s[n], i);
      assert s[..n + 1] == s[..n] + [s[n]];
      r := r[..i] + [s[n]] + r[i..];
    }
    assert s[..|s|] == s;
  }

  lemma InsertSorted<T(!new)>(r: seq<T>, key: T -> string, x: T, i: nat)
    requires SortedKeys(r, key) && i <= |r|
    requires i > 0 ==> Leq(key(r[i - 1]), key(x))
    requires forall j :: i <= j < |r| ==> !Leq(key(r[j]), key(x))
    ensures SortedKeys(r[..i] + [x] + r[i..], key)
  {
    forall j | 0 <= j < i ensures Leq(key(r[j]), key(x)) {
      if j < i - 1 {
        LeqTransitive(key(r[j]), key(r[i - 1]), key(x));
      }
    }
    forall j | i <= j < |r| ensures Leq(key(x), key(r[j])) {
      LeqTotal(key(x), key(r[j]));
    }
  }
}
