/**
 The doorkeeper Bloom filter of internal/bf/bf.go.

 The simple form is a sequence of bits; the class holds them sixty-four to a word and is proved to do
 to the bits what the functions say.
 */
module Bloom {

  // ----- The filter as bits -----

  /** Probe `i` of a hash: 32-bit double hashing, masked to the power-of-two size, which is a remainder. */
  function Probe(h: nat, i: nat, m: nat): (p: nat)
    requires m > 0
    ensures p < m
  {
    (h % 0x1_0000_0000 + i * (h / 0x1_0000_0000 % 0x1_0000_0000)) % 0x1_0000_0000 % m
  }

  lemma RemainderUnique(x: int, b: int, k: int, r: int)
    requires b > 0 && x == b * k + r && 0 <= r < b
    ensures x % b == r
  {
    var d := x / b - k;
    assert b * d == r - x % b;
    assert d >= 1 ==> b * d >= b;
    assert d <= -1 ==> b * d <= -b;
  }

  /** Taking the remainder by a multiple first makes no difference. */
  lemma CoarseFirst(x: int, m: int, q: int)
    requires m > 0 && q > 0
    ensures m * q > 0 && x % (m * q) % m == x % m
  {
    var n := m * q;
    var y := x % n;
    assert x == n * (x / n) + y;
    assert x == m * (q * (x / n)) + y by {
      assert m * (q * (x / n)) == (m * q) * (x / n);
    }
    assert y == m * (y / m) + y % m;
    assert x == m * (q * (x / n) + y / m) + y % m;
    RemainderUnique(x, m, q * (x / n) + y / m, y % m);
  }

  lemma AddThenRemainder(x: int, y: int, m: int)
    requires m > 0
    ensures (x + y) % m == (x % m + y) % m
  {
    var z := x % m + y;
    assert x + y == m * (x / m + z / m) + z % m;
    RemainderUnique(x + y, m, x / m + z / m, z % m);
  }

  /** The probes of a hash start at its low half and go on in steps of its high half, around the filter; the size
      of a filter divides 2^32. */
  lemma ProbeSteps(h: nat, i: nat, m: nat, q: nat)
    requires m > 0 && m * q == 0x1_0000_0000
    ensures Probe(h, 0, m) == h % 0x1_0000_0000 % m
    ensures Probe(h, i + 1, m) == (Probe(h, i, m) + h / 0x1_0000_0000 % 0x1_0000_0000) % m
  {
    var low, high := h % 0x1_0000_0000, h / 0x1_0000_0000 % 0x1_0000_0000;
    ProbeIs(h, 0, m, q);
    ProbeIs(h, i, m, q);
    ProbeIs(h, i + 1, m, q);
    AddThenRemainder(low + i * high, high, m);
    assert low + (i + 1) * high == low + i * high + high;
  }

  lemma ProbeIs(h: nat, i: nat, m: nat, q: nat)
    requires m > 0 && m * q == 0x1_0000_0000
    ensures Probe(h, i, m) == (h % 0x1_0000_0000 + i * (h / 0x1_0000_0000 % 0x1_0000_0000)) % m
  {
    if q > 0 {
      CoarseFirst(h % 0x1_0000_0000 + i * (h / 0x1_0000_0000 % 0x1_0000_0000), m, q);
    }
  }

  /** Every one of the first `k` probes of `h` hits a set bit. */
  predicate Hits(b: seq<bool>, h: nat, k: nat, m: nat)
    requires 0 < m <= |b|
  {
    forall i: nat :: i < k ==> b[Probe(h, i, m)]
  }

  function Inserted(b: seq<bool>, h: nat, k: nat, m: nat): (c: seq<bool>)
    requires 0 < m <= |b|
    ensures |c| == |b|
  {
    if k == 0 then b else Inserted(b, h, k - 1, m)[Probe(h, k - 1, m) := true]
  }

  /** Bit `p` is one of the first `k` probes of `h`. */
  ghost predicate Touches(h: nat, k: nat, m: nat, p: nat)
    requires m > 0
  {
    exists i: nat :: i < k && Probe(h, i, m) == p
  }

  /** An insertion sets exactly the probed bits, however they collide. */
  lemma {:induction false} InsertedBits(b: seq<bool>, h: nat, k: nat, m: nat, p: nat)
    requires 0 < m <= |b| && p < |b|
    ensures Inserted(b, h, k, m)[p] <==> b[p] || Touches(h, k, m, p)
  {
    if k > 0 {
      InsertedBits(b, h, k - 1, m, p);
      if Probe(h, k - 1, m) == p {
        assert Touches(h, k, m, p);
      } else if Touches(h, k, m, p) {
        var i: nat :| i < k && Probe(h, i, m) == p;
        assert i < k - 1;
        assert Touches(h, k - 1, m, p);
      } else if Touches(h, k - 1, m, p) {
        assert false;
      }
    }
  }

  function InsertedAll(b: seq<bool>, hs: seq<nat>, k: nat, m: nat): (c: seq<bool>)
    requires 0 < m <= |b|
    ensures |c| == |b|
  {
    if hs == [] then b else Inserted(InsertedAll(b, hs[..|hs| - 1], k, m), hs[|hs| - 1], k, m)
  }

  ghost predicate SomeTouches(hs: seq<nat>, k: nat, m: nat, p: nat)
    requires m > 0
  {
    exists j :: 0 <= j < |hs| && Touches(hs[j], k, m, p)
  }

  lemma {:induction false} InsertedAllBits(b: seq<bool>, hs: seq<nat>, k: nat, m: nat, p: nat)
    requires 0 < m <= |b| && p < |b|
    ensures InsertedAll(b, hs, k, m)[p] <==> b[p] || SomeTouches(hs, k, m, p)
  {
    if hs != [] {
      var n := |hs| - 1;
      InsertedAllBits(b, hs[..n], k, m, p);
      InsertedBits(InsertedAll(b, hs[..n], k, m), hs[n], k, m, p);
      if SomeTouches(hs[..n], k, m, p) {
        var j :| 0 <= j < n && Touches(hs[..n][j], k, m, p);
        assert Touches(hs[j], k, m, p);
      }
      if SomeTouches(hs, k, m, p) && !Touches(hs[n], k, m, p) {
        var j :| 0 <= j < |hs| && Touches(hs[j], k, m, p);
        assert hs[..n][j] == hs[j];
      }
    }
  }

  /** No false negatives: a hash inserted anywhere in a run of insertions is found at its end. */
  lemma NoFalseNegatives(b: seq<bool>, hs: seq<nat>, j: nat, k: nat, m: nat)
    requires 0 < m <= |b| && j < |hs|
    ensures Hits(InsertedAll(b, hs, k, m), hs[j], k, m)
  {
    forall i: nat | i < k
      ensures InsertedAll(b, hs, k, m)[Probe(hs[j], i, m)]
    {
      var p := Probe(hs[j], i, m);
      assert Touches(hs[j], k, m, p);
      InsertedAllBits(b, hs, k, m, p);
    }
  }

  /** In a run from a cleared filter a hash is found if and only if every one of its probes was made
      for some inserted hash. */
  lemma FoundIff(b: seq<bool>, hs: seq<nat>, g: nat, k: nat, m: nat)
    requires 0 < m <= |b| && forall p :: 0 <= p < |b| ==> !b[p]
    ensures Hits(InsertedAll(b, hs, k, m), g, k, m) <==>
            forall i: nat :: i < k ==> SomeTouches(hs, k, m, Probe(g, i, m))
  {
    forall i: nat
      ensures InsertedAll(b, hs, k, m)[Probe(g, i, m)] <==> SomeTouches(hs, k, m, Probe(g, i, m))
    {
      InsertedAllBits(b, hs, k, m, Probe(g, i, m));
    }
  }

  // ----- Sixty-four bits to a word -----

  /** The word with only bit `n` set. */
  function Mask(n: nat): bv64 {
    if n == 0 then 1 else Mask(n - 1) << 1
  }

  predicate Nonzero(v: bv64) {
    v != 0
  }

  predicate IsSet(v: bv64, n: nat) {
    Nonzero(v & Mask(n))
  }

  function SetBit(v: bv64, n: nat): bv64 {
    v | Mask(n)
  }

  lemma ShiftApart(a: bv64, b: bv64)
    requires a & b == 0
    ensures (a << 1) & (b << 1) == 0
  {
  }

  lemma {:induction false} MasksApart(n: nat, k: nat)
    requires n < k
    ensures Mask(n) & Mask(k) == 0
  {
    if n == 0 {
      assert (1 as bv64) & (Mask(k - 1) << 1) == 0;
    } else {
      MasksApart(n - 1, k - 1);
      ShiftApart(Mask(n - 1), Mask(k - 1));
    }
  }

  lemma MaskNext(n: nat, v: bv64, w: bv64)
    requires Mask(n) == v && v << 1 == w
    ensures Mask(n + 1) == w
  {
  }

  lemma MaskFour(n: nat, v1: bv64, v2: bv64, v3: bv64, v4: bv64, v5: bv64)
    requires Mask(n) == v1 && v1 << 1 == v2 && v2 << 1 == v3 && v3 << 1 == v4 && v4 << 1 == v5
    ensures Mask(n + 4) == v5
  {
    MaskNext(n, v1, v2);
    MaskNext(n + 1, v2, v3);
    MaskNext(n + 2, v3, v4);
    MaskNext(n + 3, v4, v5);
  }

  lemma TopMask()
    ensures Mask(63) == 0x8000_0000_0000_0000
  {
    assert Mask(3) == 8;
    MaskFour(3, 0x8, 0x10, 0x20, 0x40, 0x80);
    MaskFour(7, 0x80, 0x100, 0x200, 0x400, 0x800);
    MaskFour(11, 0x800, 0x1000, 0x2000, 0x4000, 0x8000);
    MaskFour(15, 0x8000, 0x10000, 0x20000, 0x40000, 0x80000);
    MaskFour(19, 0x80000, 0x100000, 0x200000, 0x400000, 0x800000);
    MaskFour(23, 0x800000, 0x1000000, 0x2000000, 0x4000000, 0x8000000);
    MaskFour(27, 0x8000000, 0x10000000, 0x20000000, 0x40000000, 0x80000000);
    MaskFour(31, 0x80000000, 0x100000000, 0x200000000, 0x400000000, 0x800000000);
    MaskFour(35, 0x800000000, 0x1000000000, 0x2000000000, 0x4000000000, 0x8000000000);
    MaskFour(39, 0x8000000000, 0x10000000000, 0x20000000000, 0x40000000000, 0x80000000000);
    MaskFour(43, 0x80000000000, 0x100000000000, 0x200000000000, 0x400000000000, 0x800000000000);
    MaskFour(47, 0x800000000000, 0x1000000000000, 0x2000000000000, 0x4000000000000, 0x8000000000000);
    MaskFour(51, 0x8000000000000, 0x10000000000000, 0x20000000000000, 0x40000000000000, 0x80000000000000);
    MaskFour(55, 0x80000000000000, 0x100000000000000, 0x200000000000000, 0x400000000000000, 0x800000000000000);
    MaskFour(59, 0x800000000000000, 0x1000000000000000, 0x2000000000000000, 0x4000000000000000, 0x8000000000000000);
  }

  /** A mask that vanished would stay zero up to the top one. */
  lemma {:induction false} MaskNonzero(n: nat)
    requires n < 64
    ensures Mask(n) != 0
    decreases 64 - n
  {
    if n == 63 {
      TopMask();
    } else {
      MaskNonzero(n + 1);
      assert Mask(n + 1) == Mask(n) << 1;
    }
  }

  lemma MasksApartBoth(n: nat, k: nat)
    requires n != k
    ensures Mask(n) & Mask(k) == 0
  {
    if k < n {
      MasksApart(k, n);
      Commute(Mask(n), Mask(k));
    } else {
      MasksApart(n, k);
    }
  }

  lemma Commute(a: bv64, b: bv64)
    ensures a & b == b & a
  {
  }

  lemma OrApart(v: bv64, a: bv64, b: bv64)
    requires a & b == 0
    ensures (v | a) & b == v & b
  {
  }

  lemma OrSame(v: bv64, a: bv64)
    ensures (v | a) & a == a
  {
  }

  lemma SetSame(v: bv64, n: nat)
    requires n < 64
    ensures IsSet(SetBit(v, n), n)
  {
    MaskNonzero(n);
    OrSame(v, Mask(n));
  }

  lemma KeepsOther(v: bv64, a: bv64, b: bv64)
    requires a & b == 0
    ensures Nonzero((v | a) & b) <==> Nonzero(v & b)
  {
    OrApart(v, a, b);
  }

  lemma StaysSet(v: bv64, n: nat, k: nat)
    requires n != k && IsSet(v, k)
    ensures IsSet(SetBit(v, n), k)
  {
    MasksApartBoth(n, k);
    KeepsOther(v, Mask(n), Mask(k));
  }

  lemma WasSet(v: bv64, n: nat, k: nat)
    requires n != k && IsSet(SetBit(v, n), k)
    ensures IsSet(v, k)
  {
    MasksApartBoth(n, k);
    KeepsOther(v, Mask(n), Mask(k));
  }

  /** Setting a bit sets that bit and no other. */
  lemma SetBits(v: bv64, n: nat, k: nat)
    requires n < 64
    ensures IsSet(SetBit(v, n), k) <==> k == n || IsSet(v, k)
  {
    if k == n {
      SetSame(v, n);
    } else if IsSet(v, k) {
      StaysSet(v, n, k);
    } else if IsSet(SetBit(v, n), k) {
      WasSet(v, n, k);
    }
  }

  /** The words hold exactly these bits. */
  ghost predicate Packs(t: seq<bv64>, b: seq<bool>) {
    |b| == 64 * |t| &&
    forall i, n {:trigger IsSet(t[i], n)} :: 0 <= i < |t| && 0 <= n < 64 ==> (b[64 * i + n] <==> IsSet(t[i], n))
  }

  lemma PacksSet(t: seq<bv64>, b: seq<bool>, i: nat, n: nat)
    requires Packs(t, b) && i < |t| && n < 64
    ensures Packs(t[i := SetBit(t[i], n)], b[64 * i + n := true])
  {
    var u, c := t[i := SetBit(t[i], n)], b[64 * i + n := true];
    forall j, k | 0 <= j < |u| && 0 <= k < 64
      ensures c[64 * j + k] <==> IsSet(u[j], k)
    {
      if j == i {
        SetBits(t[i], n, k);
      }
    }
  }

  lemma PacksClear(t: seq<bv64>, b: seq<bool>)
    requires |b| == 64 * |t| && (forall i :: 0 <= i < |t| ==> t[i] == 0) && forall p :: 0 <= p < |b| ==> !b[p]
    ensures Packs(t, b)
  {
    forall j, k | 0 <= j < |t| && 0 <= k < 64
      ensures b[64 * j + k] <==> IsSet(t[j], k)
    {
      assert 0 & Mask(k) == 0;
    }
  }

  // ----- The filter -----

  class Bloomfilter {
    const filter: array<bv64>
    const m: nat
    const k: nat
    ghost var bits: seq<bool>

    ghost predicate Valid()
      reads this, filter
    {
      0 < m <= 64 * filter.Length && Packs(filter[..], bits)
    }

    /** Sizes are chosen by the caller; the float formulas that choose them are not modelled. */
    constructor (m: nat, k: nat)
      requires m > 0
      ensures Valid() && fresh(filter) && this.m == m && this.k == k
      ensures forall p :: 0 <= p < |bits| ==> !bits[p]
    {
      this.m, this.k := m, k;
      var words := (m + 63) / 64;
      filter := new bv64[words](i => 0);
      bits := seq(64 * words, i => false);
      new;
      PacksClear(filter[..], bits);
    }

    method Get(bit: nat) returns (r: bool)
      requires Valid() && bit < m
      ensures r == bits[bit]
    {
      r := IsSet(filter[bit / 64], bit % 64);
    }

    /** Set a bit and return what it was. */
    method GetSet(bit: nat) returns (r: bool)
      requires Valid() && bit < m
      modifies filter, this`bits
      ensures Valid() && bits == old(bits)[bit := true] && r == old(bits)[bit]
    {
      var i, n := bit / 64, bit % 64;
      r := IsSet(filter[i], n);
      PacksSet(filter[..], bits, i, n);
      filter[i] := SetBit(filter[i], n);
      bits := bits[bit := true];
    }

    method Exist(h: nat) returns (found: bool)
      requires Valid()
      ensures found <==> Hits(bits, h, k, m)
    {
      found := true;
      var i := 0;
      while i < k
        invariant 0 <= i <= k
        invariant found <==> Hits(bits, h, i, m)
      {
        var r := Get(Probe(h, i, m));
        found := found && r;
        i := i + 1;
      }
    }

    /** Returns exactly what Exist would have returned just before. */
    method Insert(h: nat) returns (found: bool)
      requires Valid()
      modifies filter, this`bits
      ensures Valid() && bits == Inserted(old(bits), h, k, m)
      ensures found <==> Hits(old(bits), h, k, m)
    {
      found := true;
      var i := 0;
      while i < k
        invariant 0 <= i <= k && Valid()
        invariant bits == Inserted(old(bits), h, i, m)
        invariant found <==> Hits(old(bits), h, i, m)
      {
        var p := Probe(h, i, m);
        InsertedBits(old(bits), h, i, m, p);
        var r := GetSet(p);
        found := found && r;
        i := i + 1;
      }
    }

    method Reset()
      requires Valid()
      modifies filter, this`bits
      ensures Valid() && |bits| == |old(bits)| && forall p :: 0 <= p < |bits| ==> !bits[p]
    {
      var i := 0;
      while i < filter.Length
        invariant 0 <= i <= filter.Length
        invariant |bits| == 64 * filter.Length && forall j :: 0 <= j < i ==> filter[j] == 0
      {
        filter[i] := 0;
        i := i + 1;
      }
      bits := seq(|bits|, p => false);
      PacksClear(filter[..], bits);
    }
  }
}
