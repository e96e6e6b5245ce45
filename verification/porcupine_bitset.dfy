/**
 The bitset of src/porcupine/bitset.go, a slice of 64-bit words updated in
 place, as a finite set of naturals.
 */
module Bitset {

  type Bits = array<bv64>

  // And and Or name the word operations, so that proofs by induction on a bit
  // position can treat them as opaque.

  function And(w: bv64, m: bv64): bv64 {
    w & m
  }

  function Or(w: bv64, m: bv64): bv64 {
    w | m
  }

  function AndNot(w: bv64, m: bv64): bv64 {
    w & !m
  }

  function Twice(w: bv64): bv64 {
    w << 1
  }

  /** 1 << k, as k shifts by one place. */
  function Mask(k: nat): bv64
    requires k < 64
  {
    if k == 0 then 1 else Twice(Mask(k - 1))
  }

  predicate Bit(w: bv64, k: nat)
    requires k < 64
  {
    And(w, Mask(k)) != 0
  }

  predicate Has(words: seq<bv64>, pos: nat)
    requires pos < 64 * |words|
  {
    Bit(words[pos / 64], pos % 64)
  }

  /** The set a bitset stands for. */
  ghost function Members(words: seq<bv64>): set<nat> {
    set pos: nat | pos < 64 * |words| && Has(words, pos)
  }

  function WithBit(words: seq<bv64>, pos: nat): seq<bv64>
    requires pos < 64 * |words|
  {
    words[pos / 64 := Or(words[pos / 64], Mask(pos % 64))]
  }

  function WithoutBit(words: seq<bv64>, pos: nat): seq<bv64>
    requires pos < 64 * |words|
  {
    words[pos / 64 := AndNot(words[pos / 64], Mask(pos % 64))]
  }

  // ----------------------------------------------------------- single words

  lemma OrOnMask(w: bv64, m: bv64)
    ensures And(Or(w, m), m) == m
  {
  }

  lemma OrOffMask(w: bv64, m: bv64, p: bv64)
    requires And(m, p) == 0
    ensures And(Or(w, m), p) == And(w, p)
  {
  }

  lemma AndNotOnMask(w: bv64, m: bv64)
    ensures And(AndNot(w, m), m) == 0
  {
  }

  lemma AndNotOffMask(w: bv64, m: bv64, p: bv64)
    requires And(m, p) == 0
    ensures And(AndNot(w, m), p) == And(w, p)
  {
  }

  lemma TopMask()
    ensures Mask(63) == 0x8000_0000_0000_0000
  {
    assert Mask(12) == 0x1000;
    assert Mask(24) == 0x100_0000;
    assert Mask(36) == 0x10_0000_0000;
    assert Mask(48) == 0x1_0000_0000_0000;
  }

  lemma {:induction false} MaskNotZero(k: nat)
    requires k < 64
    ensures Mask(k) != 0
    decreases 64 - k
  {
    if k == 63 {
      TopMask();
    } else {
      MaskNotZero(k + 1);
      assert Twice(0) == 0;
    }
  }

  lemma {:induction false} MasksApart(j: nat, k: nat)
    requires j < k < 64
    ensures And(Mask(j), Mask(k)) == 0 && And(Mask(k), Mask(j)) == 0
  {
    if j > 0 {
      MasksApart(j - 1, k - 1);
    }
    hide And, Twice;
  }

  lemma MasksMeet(j: nat, k: nat)
    requires j < 64 && k < 64
    ensures Mask(j) != 0 && (j != k ==> And(Mask(j), Mask(k)) == 0)
  {
    hide Mask, And;
    MaskNotZero(j);
    if j < k {
      MasksApart(j, k);
    } else if k < j {
      MasksApart(k, j);
    }
  }

  lemma BitOfOr(w: bv64, j: nat, k: nat)
    requires j < 64 && k < 64
    ensures Bit(Or(w, Mask(k)), j) == (Bit(w, j) || j == k)
  {
    hide Mask, Or, And;
    MasksMeet(k, j);
    if j == k {
      OrOnMask(w, Mask(k));
    } else {
      OrOffMask(w, Mask(k), Mask(j));
    }
  }

  lemma BitOfAndNot(w: bv64, j: nat, k: nat)
    requires j < 64 && k < 64
    ensures Bit(AndNot(w, Mask(k)), j) == (Bit(w, j) && j != k)
  {
    hide Mask, AndNot, And;
    MasksMeet(k, j);
    if j == k {
      AndNotOnMask(w, Mask(k));
    } else {
      AndNotOffMask(w, Mask(k), Mask(j));
    }
  }

  /** The k lowest bits. */
  function Low(k: nat): bv64
    requires k <= 64
  {
    if k == 0 then 0 else Or(Low(k - 1), Mask(k - 1))
  }

  lemma {:induction false} LowIsMask(k: nat)
    requires k < 64
    ensures Low(k) == Mask(k) - 1
  {
    if k > 0 {
      LowIsMask(k - 1);
      LowMeets(k - 1, k - 1);
    }
  }

  lemma {:induction false} LowMeets(k: nat, j: nat)
    requires k <= j < 64
    ensures And(Low(k), Mask(j)) == 0
  {
    hide Mask, Or;
    if k > 0 {
      LowMeets(k - 1, j);
      MasksMeet(k - 1, j);
      OrOffMask(Low(k - 1), Mask(k - 1), Mask(j));
    }
  }

  lemma {:induction false} SingleBit(w: bv64, k: nat)
    requires k < 64
    ensures And(w, Mask(k)) == 0 || And(w, Mask(k)) == Mask(k)
  {
    if k > 0 {
      assert Twice(0) == 0;
      hide And, Twice;
      SingleBit(w >> 1, k - 1);
      AndTwice(w, Mask(k - 1));
    }
  }

  lemma AndTwice(w: bv64, m: bv64)
    ensures And(w, Twice(m)) == Twice(And(w >> 1, m))
  {
  }

  lemma BitDecides(w: bv64, v: bv64, k: nat)
    requires k < 64 && Bit(w, k) == Bit(v, k)
    ensures And(w, Mask(k)) == And(v, Mask(k))
  {
    hide Mask;
    SingleBit(w, k);
    SingleBit(v, k);
  }

  lemma AndOfOr(w: bv64, v: bv64, l: bv64, m: bv64)
    requires And(w, l) == And(v, l) && And(w, m) == And(v, m)
    ensures And(w, Or(l, m)) == And(v, Or(l, m))
  {
  }

  lemma {:induction false} LowBitsDecide(w: bv64, v: bv64, k: nat)
    requires k <= 64 && forall j :: 0 <= j < k ==> Bit(w, j) == Bit(v, j)
    ensures And(w, Low(k)) == And(v, Low(k))
  {
    if k == 0 {
    } else {
      hide Mask, Bit, And, Or;
      LowBitsDecide(w, v, k - 1);
      assert Bit(w, k - 1) == Bit(v, k - 1);
      BitDecides(w, v, k - 1);
      AndOfOr(w, v, Low(k - 1), Mask(k - 1));
    }
  }

  lemma LowOfAll()
    ensures Low(64) == 0xFFFF_FFFF_FFFF_FFFF
  {
    assert Low(64) == Or(Low(63), Mask(63));
    hide Low, Mask;
    LowIsMask(63);
    TopMask();
  }

  lemma AndAll(w: bv64)
    ensures And(w, 0xFFFF_FFFF_FFFF_FFFF) == w
  {
  }

  /** A word is determined by its 64 bits. */
  lemma BitsDecideWord(w: bv64, v: bv64)
    requires forall j :: 0 <= j < 64 ==> Bit(w, j) == Bit(v, j)
    ensures w == v
  {
    hide Low, Bit, Mask, And;
    LowBitsDecide(w, v, 64);
    LowOfAll();
    AndAll(w);
    AndAll(v);
  }

  // --------------------------------------------------------- sets of words

  lemma MembersOfWith(words: seq<bv64>, pos: nat)
    requires pos < 64 * |words|
    ensures Members(WithBit(words, pos)) == Members(words) + {pos}
  {
    hide Bit, Mask, Or;
    forall p: nat | p < 64 * |words|
      ensures Has(WithBit(words, pos), p) == (Has(words, p) || p == pos)
    {
      BitOfOr(words[pos / 64], p % 64, pos % 64);
    }
  }

  lemma MembersOfWithout(words: seq<bv64>, pos: nat)
    requires pos < 64 * |words|
    ensures Members(WithoutBit(words, pos)) == Members(words) - {pos}
  {
    hide Bit, Mask, AndNot;
    forall p: nat | p < 64 * |words|
      ensures Has(WithoutBit(words, pos), p) == (Has(words, p) && p != pos)
    {
      BitOfAndNot(words[pos / 64], p % 64, pos % 64);
    }
  }

  /** Bitsets of one length are the same words exactly when they are the same set. */
  lemma MembersDecide(a: seq<bv64>, b: seq<bv64>)
    requires |a| == |b|
    ensures a == b <==> Members(a) == Members(b)
  {
    if Members(a) == Members(b) {
      forall i | 0 <= i < |a| ensures a[i] == b[i] {
        forall j | 0 <= j < 64 ensures Bit(a[i], j) == Bit(b[i], j) {
          var pos := 64 * i + j;
          assert Has(a, pos) == Has(b, pos) by {
            assert pos in Members(a) <==> pos in Members(b);
          }
        }
        BitsDecideWord(a[i], b[i]);
      }
    }
  }

  // ------------------------------------------------------------ operations

  method NewBitset(bits: nat) returns (b: Bits)
    ensures fresh(b) && bits <= 64 * b.Length
    ensures Members(b[..]) == {}
  {
    var extra := if bits % 64 != 0 then 1 else 0;
    b := new bv64[bits / 64 + extra](_ => 0);
    forall pos: nat | pos < 64 * b.Length ensures !Has(b[..], pos) {
      assert b[..][pos / 64] == 0;
    }
  }

  method Clone(b: Bits) returns (c: Bits)
    ensures fresh(c) && c[..] == b[..]
  {
    c := new bv64[b.Length](i requires 0 <= i < b.Length reads b => b[i]);
  }

  method Set(b: Bits, pos: nat)
    requires pos < 64 * b.Length
    modifies b
    ensures b[..] == WithBit(old(b[..]), pos) && Members(b[..]) == old(Members(b[..])) + {pos}
  {
    var major, minor := pos / 64, pos % 64;
    b[major] := Or(b[major], Mask(minor));
    MembersOfWith(old(b[..]), pos);
  }

  method Clear(b: Bits, pos: nat)
    requires pos < 64 * b.Length
    modifies b
    ensures b[..] == WithoutBit(old(b[..]), pos) && Members(b[..]) == old(Members(b[..])) - {pos}
  {
    var major, minor := pos / 64, pos % 64;
    b[major] := AndNot(b[major], Mask(minor));
    MembersOfWithout(old(b[..]), pos);
  }

  method Get(b: Bits, pos: nat) returns (r: bool)
    requires pos < 64 * b.Length
    ensures r <==> pos in Members(b[..])
  {
    r := And(b[pos / 64], Mask(pos % 64)) != 0;
  }

  method Equals(a: Bits, b: Bits) returns (r: bool)
    ensures r <==> a[..] == b[..]
    ensures a.Length == b.Length ==> (r <==> Members(a[..]) == Members(b[..]))
  {
    if a.Length != b.Length {
      return false;
    }
    MembersDecide(a[..], b[..]);
    for i := 0 to a.Length
      invariant a[..i] == b[..i]
    {
      if a[i] != b[i] {
        assert a[..][i] != b[..][i];
        return false;
      }
    }
    assert a[..] == a[..a.Length] && b[..] == b[..b.Length];
    return true;
  }

  // --------------------------------------------------------------- hashing

  /** OnesCount64. */
  function Ones(w: bv64, k: nat): nat
    requires k <= 64
  {
    if k == 0 then 0 else Ones(w, k - 1) + (if Bit(w, k - 1) then 1 else 0)
  }

  function PopulationCount(words: seq<bv64>): nat {
    if words == [] then 0
    else PopulationCount(words[..|words| - 1]) + Ones(words[|words| - 1], 64)
  }

  function Xor(w: bv64, v: bv64): bv64 {
    w ^ v
  }

  function XorAll(words: seq<bv64>, seed: bv64): bv64 {
    if words == [] then seed else Xor(XorAll(words[..|words| - 1], seed), words[|words| - 1])
  }

  /** The 64-bit hash, as the number it is. */
  function HashOf(words: seq<bv64>): nat {
    XorAll(words, (PopulationCount(words) % 0x1_0000_0000_0000_0000) as bv64) as nat
  }

  method Hash(b: Bits) returns (h: nat)
    ensures h == HashOf(b[..])
  {
    hide Xor, Ones;
    var total := 0;
    for i := 0 to b.Length
      invariant total == PopulationCount(b[..i])
    {
      assert b[..i + 1][..i] == b[..i];
      total := total + Ones(b[i], 64);
    }
    assert b[..b.Length] == b[..];
    var seed := (total % 0x1_0000_0000_0000_0000) as bv64;
    var x := seed;
    for i := 0 to b.Length
      invariant x == XorAll(b[..i], seed)
    {
      assert b[..i + 1][..i] == b[..i];
      x := Xor(x, b[i]);
    }
    h := x as nat;
  }
}
