/**
 The sketch of internal/sketch.go as it is stored: an array of words, sixteen counters to a word.

 Every method is proved to do to the counters what the functions of module Sketch say.
 */
module PackedSketch {
  import opened Seqs
  import opened Nibbles
  import opened Sketch

  type Hash = bv64

  function Scaled(h: Hash): Hash {
    h * 0x94d0_49bb_1331_11eb
  }

  function Folded(m: Hash): Hash {
    m ^ (m >> 31)
  }

  function Rehash(h: Hash): Hash {
    Folded(Scaled(h))
  }

  function OffsetBits(p: Hash): (o: bv64)
    ensures o <= 15
  {
    (p >> 1) & 0xF
  }

  function PickOf(p: Hash): Pick {
    PosOf(OffsetBits(p));
    Pick(p & 1 == 1, OffsetBits(p) as int)
  }

  function KeyOf(h: Hash): Key {
    var c := Rehash(h);
    Key(h as nat, PickOf(Shifted(c, 0)), PickOf(Shifted(c, 1)), PickOf(Shifted(c, 2)), PickOf(Shifted(c, 3)))
  }

  /** The bits that choose in row `k`. */
  function Shifted(c: Hash, k: nat): Hash
    requires k < 4
  {
    if k == 0 then c else if k == 1 then c >> 8 else if k == 2 then c >> 16 else c >> 24
  }

  /** A word of the table and a counter in it. */
  datatype Spot = Spot(index: nat, offset: nat)

  predicate IsCell(at: Spot, h: Key, k: nat, size: nat)
    requires k < 4 && Sized(size)
  {
    at.index < size && at.offset < 16 && 16 * at.index + at.offset == Cell(h, k, size)
  }

  /** The four counters of a hash. */
  datatype Spots = Spots(row0: Spot, row1: Spot, row2: Spot, row3: Spot)

  predicate AreCells(at: Spots, h: Key, size: nat)
    requires Sized(size)
  {
    IsCell(at.row0, h, 0, size) && IsCell(at.row1, h, 1, size) && IsCell(at.row2, h, 2, size) &&
        IsCell(at.row3, h, 3, size)
  }

  /** The word and the counter in it that the bits `p` choose in row `k` of a block. */
  method IndexOf(block: nat, p: Hash, k: nat) returns (at: Spot)
    requires k < 4
    ensures at.index == block + (if PickOf(p).odd then 1 else 0) + 2 * k && at.offset == PickOf(p).offset
  {
    PosOf(OffsetBits(p));
    at := Spot(block + (if p & 1 == 1 then 1 else 0) + 2 * k, OffsetBits(p) as int);
  }

  /** The counter of a hash in row `k`, given its block and the bits that choose in the row. */
  method LocateRow(block: nat, p: Hash, k: nat, ghost h: Key, ghost size: nat) returns (at: Spot)
    requires k < 4 && Sized(size) && block == Block(h.hash, size) && PickOf(p) == Chosen(h, k)
    ensures IsCell(at, h, k, size)
  {
    at := IndexOf(block, p, k);
  }

  method LocateRows(block: nat, p0: Hash, p1: Hash, p2: Hash, p3: Hash, ghost h: Key, ghost size: nat)
      returns (at: Spots)
    requires Sized(size) && block == Block(h.hash, size)
    requires PickOf(p0) == h.row0 && PickOf(p1) == h.row1 && PickOf(p2) == h.row2 && PickOf(p3) == h.row3
    ensures AreCells(at, h, size)
  {
    var r0 := LocateRow(block, p0, 0, h, size);
    var r1 := LocateRow(block, p1, 1, h, size);
    var r2 := LocateRow(block, p2, 2, h, size);
    var r3 := LocateRow(block, p3, 3, h, size);
    at := Spots(r0, r1, r2, r3);
  }

  method Locate(h: Hash, size: nat) returns (at: Spots)
    requires Sized(size)
    ensures AreCells(at, KeyOf(h), size)
  {
    var c := Rehash(h);
    at := LocateRows(Block(h as nat, size), Shifted(c, 0), Shifted(c, 1), Shifted(c, 2), Shifted(c, 3), KeyOf(h), size);
  }

  // ----- The choices are free -----

  /** Every word and every counter of a row can be chosen. */
  lemma PickOnto(odd: bool, n: nat) returns (p: Hash)
    requires n < 16
    ensures PickOf(p) == Pick(odd, n) && p < 32
  {
    PosOf(Pos(n));
    p := (Pos(n) << 1) | (if odd then 1 else 0);
    PickBits(Pos(n), odd);
    PosNumber(n);
  }

  lemma PickBits(o: bv64, odd: bool)
    requires o <= 15
    ensures var p := (o << 1) | (if odd then 1 else 0); (p & 1 == 1 <==> odd) && OffsetBits(p) == o && p < 32
  {
  }

  lemma PosNumber(n: nat)
    requires n < 16
    ensures Pos(n) as int == n
  {
  }

  /** The four rows are chosen independently: by separate bytes of the rehashed hash. */
  lemma RowsFree(p0: Hash, p1: Hash, p2: Hash, p3: Hash) returns (c: Hash)
    requires p0 < 32 && p1 < 32 && p2 < 32 && p3 < 32
    ensures PickOf(Shifted(c, 0)) == PickOf(p0) && PickOf(Shifted(c, 1)) == PickOf(p1)
    ensures PickOf(Shifted(c, 2)) == PickOf(p2) && PickOf(Shifted(c, 3)) == PickOf(p3)
  {
    c := p0 | (p1 << 8) | (p2 << 16) | (p3 << 24);
    ByteOf(p0, p1, p2, p3);
    SamePick(Shifted(c, 0), p0);
    SamePick(Shifted(c, 1), p1);
    SamePick(Shifted(c, 2), p2);
    SamePick(Shifted(c, 3), p3);
  }

  lemma ByteOf(p0: Hash, p1: Hash, p2: Hash, p3: Hash)
    requires p0 < 32 && p1 < 32 && p2 < 32 && p3 < 32
    ensures var c := p0 | (p1 << 8) | (p2 << 16) | (p3 << 24);
      c & 31 == p0 && (c >> 8) & 31 == p1 && (c >> 16) & 31 == p2 && (c >> 24) & 31 == p3
  {
  }

  /** Only five bits matter. */
  lemma SamePick(a: Hash, p: Hash)
    requires a & 31 == p
    ensures PickOf(a) == PickOf(p)
  {
    assert a & 1 == p & 1 && OffsetBits(a) == OffsetBits(p);
  }

  function Unfolded(r: Hash): Hash {
    r ^ (r >> 31) ^ (r >> 62)
  }

  function Unscaled(m: Hash): Hash {
    m * 0x3196_42b2_d24d_8ec3
  }

  /** Rehashing loses nothing: multiplying by an odd number can be undone ... */
  lemma ScaleUndone(h: Hash)
    ensures Unscaled(h * 0x94d0_49bb_1331_11eb) == h
  {
  }

  /** ... and so can folding the high bits down ... */
  lemma FoldUndone(m: Hash)
    ensures Unfolded(m ^ (m >> 31)) == m
  {
  }

  lemma ScaledUndone(h: Hash)
    ensures Unscaled(Scaled(h)) == h
  {
    ScaleUndone(h);
  }

  lemma FoldedUndone(m: Hash)
    ensures Unfolded(Folded(m)) == m
  {
    FoldUndone(m);
  }

  /** ... so no two hashes are rehashed alike. */
  lemma RehashUndone(h: Hash)
    ensures Unscaled(Unfolded(Rehash(h))) == h
  {
    ScaledUndone(h);
    FoldedUndone(Scaled(h));
  }

  // ----- Words as counters -----

  /** The sixteen counters of word `i`. */
  function Group(c: Cells, i: nat): (s: seq<int>)
    requires 16 * i + 16 <= |c|
    ensures |s| == 16
  {
    c[16 * i..16 * i + 16]
  }

  /** The words hold exactly these counters. */
  ghost predicate Packs(t: seq<Word>, c: Cells) {
    |c| == 16 * |t| && forall i :: 0 <= i < |t| ==> Holds(t[i], Group(c, i))
  }

  lemma HoldsInc(v: Word, s: seq<int>, n: nat)
    requires n < 16 == |s| && Holds(v, s)
    ensures Holds(IncWord(v, Pos(n)), Inc(s, n))
    ensures IncWord(v, Pos(n)) != v <==> s[n] < 15
  {
    var w := IncWord(v, Pos(n));
    IncCounters(v, n, n);
    forall m | 0 <= m < 16
      ensures Inc(s, n)[m] == Counter(w, m)
    {
      IncCounters(v, n, m);
    }
  }

  lemma HoldsHalf(v: Word, s: seq<int>)
    requires |s| == 16 && Holds(v, s)
    ensures Holds(HalveWord(v), Halve(s))
  {
    forall m | 0 <= m < 16
      ensures Halve(s)[m] == Counter(HalveWord(v), m)
    {
      HalveCounters(v, m);
    }
  }

  lemma HoldsZero(s: seq<int>)
    requires |s| == 16 && forall m :: 0 <= m < 16 ==> s[m] == 0
    ensures Holds(0, s)
  {
    forall m | 0 <= m < 16
      ensures s[m] == Counter(0, m)
    {
      assert Nibble(0, Pos(m)) == 0;
    }
  }

  lemma GroupInc(c: Cells, i: nat, n: nat, k: nat)
    requires 16 * i + 16 <= |c| && 16 * k + 16 <= |c| && n < 16
    ensures Group(Inc(c, 16 * i + n), k) == if k == i then Inc(Group(c, i), n) else Group(c, k)
  {
  }

  lemma PacksInc(t: seq<Word>, c: Cells, i: nat, w: Word, n: nat)
    requires Packs(t, c) && i < |t| && n < 16 && Holds(w, Inc(Group(c, i), n))
    ensures Packs(t[i := w], Inc(c, 16 * i + n))
  {
    var u, d := t[i := w], Inc(c, 16 * i + n);
    forall k | 0 <= k < |t|
      ensures Holds(u[k], Group(d, k))
    {
      GroupInc(c, i, n, k);
    }
  }

  lemma PacksHalf(t: seq<Word>, u: seq<Word>, c: Cells)
    requires Packs(t, c) && |u| == |t| && forall i :: 0 <= i < |t| ==> u[i] == HalveWord(t[i])
    ensures Packs(u, Halve(c))
  {
    forall i | 0 <= i < |t|
      ensures Holds(u[i], Group(Halve(c), i))
    {
      HoldsHalf(t[i], Group(c, i));
      assert Group(Halve(c), i) == Halve(Group(c, i));
    }
  }

  lemma PacksBlank(t: seq<Word>)
    requires forall i :: 0 <= i < |t| ==> t[i] == 0
    ensures Packs(t, Blank(|t|))
  {
    forall i | 0 <= i < |t|
      ensures Holds(t[i], Group(Blank(|t|), i))
    {
      HoldsZero(Group(Blank(|t|), i));
    }
  }

  lemma CountCell(t: seq<Word>, c: Cells, i: nat, n: nat)
    requires Packs(t, c) && i < |t| && n < 16
    ensures c[16 * i + n] == Nibble(t[i], Pos(n)) as int
  {
    assert Group(c, i)[n] == Counter(t[i], n);
  }

  lemma {:induction false} OddsConcat(a: seq<int>, b: seq<int>)
    ensures Odds(a + b) == Odds(a) + Odds(b)
  {
    if a == [] {
      assert a + b == b;
    } else {
      assert (a + b)[1..] == a[1..] + b;
      OddsConcat(a[1..], b);
    }
  }

  lemma OddsOfSlice(c: seq<int>, i: nat, j: nat)
    requires i <= j <= |c|
    ensures Odds(c[..j]) == Odds(c[..i]) + Odds(c[i..j])
  {
    assert c[..j] == c[..i] + c[i..j];
    OddsConcat(c[..i], c[i..j]);
  }

  /** Counting the odd counters word by word counts them all. */
  lemma OddsOfWord(t: seq<Word>, c: Cells, i: nat)
    requires Packs(t, c) && i < |t|
    ensures Odds(c[..16 * i + 16]) == Odds(c[..16 * i]) + OnesCount(OddMask(t[i]))
  {
    OddsOfSlice(c, 16 * i, 16 * i + 16);
    OddCount(t[i], Group(c, i));
  }

  // ----- The sketch -----

  class CountMinSketch {
    var table: array<Word>
    var additions: nat
    var sampleSize: nat
    ghost var cells: Cells

    ghost predicate Valid()
      reads this, table
    {
      sampleSize == 10 * table.Length && Packs(table[..], cells) && Sound(Model())
    }

    ghost function Model(): Counts
      reads this, table
    {
      Counts(cells, table.Length, additions)
    }

    constructor ()
      ensures Valid() && fresh(table) && Model() == Grow(EMPTY, 64)
    {
      table := new Word[0];
      additions, sampleSize, cells := 0, 0, [];
      new;
      EnsureCapacity(64);
    }

    method EnsureCapacity(size: nat)
      requires Valid() || (Model() == EMPTY && size > 0)
      modifies this
      ensures Valid() && Model() == Grow(old(Model()), size)
      ensures table == old(table) || fresh(table)
    {
      if table.Length >= size {
        return;
      }
      var newSize := NextPower(if size < 16 then 16 else size);
      table := new Word[newSize](i => 0);
      sampleSize := 10 * newSize;
      additions := 0;
      cells := Blank(newSize);
      PacksBlank(table[..]);
    }

    method IncCounter(at: Spot) returns (added: bool)
      requires Packs(table[..], cells) && at.index < table.Length && at.offset < 16
      modifies table, this`cells
      ensures Packs(table[..], cells) && cells == Inc(old(cells), 16 * at.index + at.offset)
      ensures added <==> old(cells)[16 * at.index + at.offset] < 15
    {
      var i, n := at.index, at.offset;
      var w := IncWord(table[i], Pos(n));
      HoldsInc(table[i], Group(cells, i), n);
      PacksInc(table[..], cells, i, w, n);
      added := w != table[i];
      table[i] := w;
      cells := Inc(cells, 16 * i + n);
    }

    /** Increment the four counters of a hash. */
    method IncAll(at: Spots, ghost h: Key) returns (added: bool)
      requires Packs(table[..], cells) && Shaped(cells, table.Length) && AreCells(at, h, table.Length)
      modifies table, this`cells
      ensures Packs(table[..], cells) && cells == Bump(old(cells), table.Length, h)
      ensures added <==> !Full(old(cells), table.Length, h)
    {
      var a0 := IncCounter(at.row0);
      var a1 := IncCounter(at.row1);
      var a2 := IncCounter(at.row2);
      var a3 := IncCounter(at.row3);
      added := a0 || a1 || a2 || a3;
    }

    method Reset()
      requires Packs(table[..], cells) && Shaped(cells, table.Length)
      requires additions == sampleSize == 10 * table.Length
      modifies this, table
      ensures Valid() && table == old(table) && Model() == Aged(old(Model()))
    {
      ghost var t := table[..];
      var count := 0;
      var i := 0;
      while i < table.Length
        invariant 0 <= i <= table.Length == |t|
        invariant table == old(table) && additions == old(additions) && sampleSize == old(sampleSize) &&
          cells == old(cells)
        invariant count == Odds(cells[..16 * i])
        invariant forall k :: 0 <= k < i ==> table[k] == HalveWord(t[k])
        invariant forall k :: i <= k < table.Length ==> table[k] == t[k]
      {
        OddsOfWord(t, cells, i);
        var v := table[i];
        count := count + OnesCount(OddMask(v));
        table[i] := HalveWord(v);
        i := i + 1;
      }
      PacksHalf(t, table[..], cells);
      assert cells[..16 * i] == cells;
      additions := (additions - count / 4) / 2;
      cells := Halve(cells);
    }

    /** Count an addition that changed a counter, and age the sketch when the sample is full. */
    method CountAddition() returns (aged: bool)
      requires Valid()
      modifies this, table
      ensures Valid() && table == old(table)
      ensures aged <==> old(additions) + 1 == sampleSize
      ensures Model() == Counted(old(Model()))
    {
      aged := false;
      additions := additions + 1;
      if additions == sampleSize {
        Reset();
        aged := true;
      }
    }

    method AddAt(at: Spots, ghost h: Key) returns (aged: bool)
      requires Valid() && AreCells(at, h, table.Length)
      modifies this, table
      ensures Valid() && table == old(table)
      ensures Model() == Record(old(Model()), h) && (aged <==> Ages(old(Model()), h))
    {
      RecordCases(Model(), h);
      FullEstimate(cells, table.Length, h);
      var added := IncAll(at, h);
      aged := false;
      if added {
        aged := CountAddition();
      }
    }

    /** Returns whether the addition aged the sketch. */
    method Add(h: Hash) returns (aged: bool)
      requires Valid()
      modifies this, table
      ensures Valid() && table == old(table)
      ensures Model() == Record(old(Model()), KeyOf(h))
      ensures aged <==> Freq(old(Model()), KeyOf(h)) < 15 && old(additions) + 1 == 10 * table.Length
    {
      var at := Locate(h, table.Length);
      aged := AddAt(at, KeyOf(h));
    }

    method AddnAt(at: Spots, n: int, ghost h: Key)
      requires Valid() && AreCells(at, h, table.Length)
      modifies this`cells, table
      ensures Valid() && table == old(table) && Model() == Step(old(Model()), Times(h, n))
    {
      var i := 0;
      while i < n
        invariant 0 <= i <= Max0(n)
        invariant Packs(table[..], cells) && cells == BumpN(old(cells), table.Length, h, i)
      {
        BumpNNext(old(cells), table.Length, h, i);
        var _ := IncAll(at, h);
        i := i + 1;
      }
    }

    method Addn(h: Hash, n: int)
      requires Valid()
      modifies this, table
      ensures Valid() && table == old(table) && Model() == Step(old(Model()), Times(KeyOf(h), n))
    {
      var at := Locate(h, table.Length);
      AddnAt(at, n, KeyOf(h));
    }

    method Count(at: Spot) returns (n: int)
      requires Valid() && at.index < table.Length && at.offset < 16
      ensures n == cells[16 * at.index + at.offset]
    {
      n := Nibble(table[at.index], Pos(at.offset)) as int;
      CountCell(table[..], cells, at.index, at.offset);
    }

    method EstimateAt(at: Spots, ghost h: Key) returns (m: int)
      requires Valid() && AreCells(at, h, table.Length)
      ensures m == Freq(Model(), h)
    {
      var c0 := Count(at.row0);
      var c1 := Count(at.row1);
      var c2 := Count(at.row2);
      var c3 := Count(at.row3);
      m := Min(c3, Min(c2, Min(c1, Min(c0, 100))));
    }

    method EstimateOf(h: Hash) returns (m: int)
      requires Valid()
      ensures m == Freq(Model(), KeyOf(h))
    {
      var at := Locate(h, table.Length);
      m := EstimateAt(at, KeyOf(h));
    }
  }
}
