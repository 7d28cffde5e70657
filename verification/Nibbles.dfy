/** One word of the sketch of internal/sketch.go: sixteen 4-bit counters, updated by the source's own
 shifts and masks. */
module Nibbles {

  type Word = bv64

  /** The counter at offset `o`. */
  function Nibble(v: Word, o: bv64): bv64
    requires o <= 15
  {
    (v >> (o << 2)) & 0xF
  }

  function IncWord(v: Word, o: bv64): Word
    requires o <= 15
  {
    var mask := (0xF as bv64) << (o << 2);
    if v & mask != mask then v + ((1 as bv64) << (o << 2)) else v
  }

  function HalveWord(v: Word): Word {
    (v >> 1) & 0x7777_7777_7777_7777
  }

  /** Incrementing a counter below 15 adds one to it ... */
  lemma IncSame(v: Word, o: bv64)
    requires o <= 15 && Nibble(v, o) != 15
    ensures Nibble(IncWord(v, o), o) == Nibble(v, o) + 1
  {
  }

  /** ... a full counter keeps the word as it is ... */
  lemma IncFull(v: Word, o: bv64)
    requires o <= 15 && Nibble(v, o) == 15
    ensures IncWord(v, o) == v
  {
  }

  /** ... and no carry ever reaches another counter. */
  lemma IncOther(v: Word, o: bv64, p: bv64)
    requires o <= 15 && p <= 15 && o != p
    ensures Nibble(IncWord(v, o), p) == Nibble(v, p)
  {
  }

  /** Shifting the word and masking halves every counter, rounding down. */
  lemma HalveNibble(v: Word, o: bv64)
    requires o <= 15
    ensures Nibble(HalveWord(v), o) == Nibble(v, o) >> 1
  {
  }

  lemma NibbleRange(v: Word, o: bv64)
    requires o <= 15
    ensures 0 <= Nibble(v, o) as int <= 15
    ensures Nibble(v, o) == 15 <==> Nibble(v, o) as int == 15
  {
  }

  lemma NibbleAsInt(x: bv64)
    requires x <= 15
    ensures x != 15 ==> (x + 1) as int == x as int + 1
    ensures (x >> 1) as int == (x as int) / 2
  {
  }

  lemma NibbleSmall(v: Word, o: bv64)
    requires o <= 15
    ensures Nibble(v, o) <= 15
  {
  }

  // ----- The counters as numbers -----

  /** A counter's position as a word, so that no proof converts an unknown number to bits. */
  function Pos(n: nat): (o: bv64)
    requires n < 16
    ensures o <= 15
  {
    if n == 0 then 0 else if n == 1 then 1 else if n == 2 then 2 else if n == 3 then 3
    else if n == 4 then 4 else if n == 5 then 5 else if n == 6 then 6 else if n == 7 then 7
    else if n == 8 then 8 else if n == 9 then 9 else if n == 10 then 10 else if n == 11 then 11
    else if n == 12 then 12 else if n == 13 then 13 else if n == 14 then 14 else 15
  }

  lemma PosOf(o: bv64)
    requires o <= 15
    ensures 0 <= o as int <= 15 && Pos(o as int) == o
  {
  }

  lemma PosDistinct(n: nat, m: nat)
    requires n < 16 && m < 16 && n != m
    ensures Pos(n) != Pos(m)
  {
  }

  /** Counter `n` of a word. */
  function Counter(v: Word, n: nat): (c: int)
    requires n < 16
    ensures 0 <= c <= 15
  {
    NibbleRange(v, Pos(n));
    Nibble(v, Pos(n)) as int
  }

  /** The packed increment is a saturating increment of one counter that leaves the others alone. */
  lemma IncCounters(v: Word, n: nat, m: nat)
    requires n < 16 && m < 16
    ensures Counter(IncWord(v, Pos(n)), m) ==
            if m == n && Counter(v, n) < 15 then Counter(v, n) + 1 else Counter(v, m)
    ensures IncWord(v, Pos(n)) != v <==> Counter(v, n) < 15
  {
    var o := Pos(n);
    NibbleRange(v, o);
    if Nibble(v, o) == 15 {
      IncFull(v, o);
    } else {
      NibbleSmall(v, o);
      NibbleAsInt(Nibble(v, o));
      IncSame(v, o);
      if m != n {
        PosDistinct(n, m);
        IncOther(v, o, Pos(m));
      }
    }
  }

  lemma HalveCounters(v: Word, n: nat)
    requires n < 16
    ensures Counter(HalveWord(v), n) == Counter(v, n) / 2
  {
    HalveNibble(v, Pos(n));
    NibbleSmall(v, Pos(n));
    NibbleAsInt(Nibble(v, Pos(n)));
  }

  // ----- The odd counters, which halving rounds down -----

  /** The number of one bits. */
  function OnesCount(w: Word): nat
    decreases w
  {
    if w == 0 then 0
    else HalfBelow(w); Low(w) + OnesCount(w >> 1)
  }

  function Low(w: Word): nat {
    if w & 1 == 1 then 1 else 0
  }

  lemma HalfBelow(w: Word)
    requires w != 0
    ensures w >> 1 < w
  {
  }

  function OddMask(v: Word): Word {
    v & 0x1111_1111_1111_1111
  }

  /** How many of the lowest `n` counters are odd. */
  function Odd(v: Word, n: nat): (k: nat)
    ensures k <= n
  {
    if n == 0 then 0 else Counter(v, 0) % 2 + Odd(v >> 4, n - 1)
  }

  /** How many of the numbers are odd. */
  function Odds(s: seq<int>): (k: nat)
    ensures k <= |s|
  {
    if s == [] then 0 else s[0] % 2 + Odds(s[1..])
  }

  lemma CounterShift(v: Word, n: nat)
    requires n < 15
    ensures Counter(v >> 4, n) == Counter(v, n + 1)
  {
    PosNext(n);
    NibbleShift(v, Pos(n));
  }

  lemma PosNext(n: nat)
    requires n < 15
    ensures Pos(n + 1) == Pos(n) + 1 && Pos(n) <= 14
  {
  }

  lemma NibbleShift(v: Word, o: bv64)
    requires o <= 14
    ensures Nibble(v >> 4, o) == Nibble(v, o + 1)
  {
  }

  /** The numbers are the lowest counters of the word. */
  ghost predicate Holds(v: Word, s: seq<int>) {
    |s| <= 16 && forall n {:trigger Counter(v, n)} :: 0 <= n < |s| ==> s[n] == Counter(v, n)
  }

  lemma HoldsShift(v: Word, s: seq<int>)
    requires s != [] && Holds(v, s)
    ensures Holds(v >> 4, s[1..]) && s[0] == Counter(v, 0)
  {
    forall n: nat | n < |s| - 1
      ensures s[1..][n] == Counter(v >> 4, n)
    {
      CounterShift(v, n);
    }
  }

  lemma {:induction false} OddIsOdds(v: Word, s: seq<int>)
    requires Holds(v, s)
    ensures Odd(v, |s|) == Odds(s)
    decreases |s|
  {
    if s != [] {
      HoldsShift(v, s);
      OddIsOdds(v >> 4, s[1..]);
    }
  }

  /** `m` is `n` nibbles of ones. */
  predicate Ones(m: Word, n: nat) {
    if n == 0 then m == 0 else m & 0xF == 0xF && Ones(m >> 4, n - 1)
  }

  lemma OnesShift(w: Word)
    ensures OnesCount(w) == Low(w) + OnesCount(w >> 1)
  {
  }

  lemma OnesShift4(w: Word, w1: Word, w2: Word, w3: Word, w4: Word)
    requires w1 == w >> 1 && w2 == w1 >> 1 && w3 == w2 >> 1 && w4 == w3 >> 1
    requires Low(w1) == Low(w2) == Low(w3) == 0
    ensures OnesCount(w) == Low(w) + OnesCount(w4)
  {
    OnesShift(w);
    OnesShift(w1);
    OnesShift(w2);
    OnesShift(w3);
  }

  lemma OddStep(v: Word) returns (w1: Word, w2: Word, w3: Word)
    ensures w1 == OddMask(v) >> 1 && w2 == w1 >> 1 && w3 == w2 >> 1 && OddMask(v >> 4) == w3 >> 1
    ensures Low(w1) == Low(w2) == Low(w3) == 0
    ensures Low(OddMask(v)) == Low(v)
  {
    w1 := OddMask(v) >> 1;
    w2 := w1 >> 1;
    w3 := w2 >> 1;
  }

  lemma OddTail(v: Word)
    ensures OnesCount(OddMask(v)) == Low(v) + OnesCount(OddMask(v >> 4))
  {
    var w1, w2, w3 := OddStep(v);
    OnesShift4(OddMask(v), w1, w2, w3, OddMask(v >> 4));
  }

  lemma LowestCounter(v: Word)
    ensures Low(v) == Counter(v, 0) % 2
  {
    assert Nibble(v, 0) == v & 0xF;
    LowBit(v);
    LowAsInt(v & 0xF);
  }

  lemma LowBit(v: Word)
    ensures v & 0xF <= 15 && (v & 0xF) & 1 == v & 1
  {
  }

  lemma LowAsInt(x: Word)
    requires x <= 15
    ensures Low(x) == (x as int) % 2
  {
  }

  lemma ShiftMask(v: Word, m: Word)
    requires v & m == v
    ensures (v >> 4) & (m >> 4) == v >> 4
  {
  }

  /** Nothing is left of `v` after `n` nibbles. */
  predicate Within(v: Word, n: nat) {
    if n == 0 then v == 0 else Within(v >> 4, n - 1)
  }

  lemma {:induction false} MaskedWithin(v: Word, m: Word, n: nat)
    requires Ones(m, n) && v & m == v
    ensures Within(v, n)
  {
    if n > 0 {
      ShiftMask(v, m);
      MaskedWithin(v >> 4, m >> 4, n - 1);
    }
  }

  lemma {:induction false} OddOnes(v: Word, n: nat)
    requires Within(v, n)
    ensures OnesCount(OddMask(v)) == Odd(v, n)
  {
    if n == 0 {
      assert OddMask(0) == 0;
    } else {
      OddTail(v);
      LowestCounter(v);
      OddOnes(v >> 4, n - 1);
    }
  }

  lemma OnesStep(m: Word, below: Word, n: nat)
    requires m >> 4 == below && m & 0xF == 0xF && Ones(below, n)
    ensures Ones(m, n + 1)
  {
  }

  lemma AllOnes()
    ensures Ones(0xFFFF_FFFF_FFFF_FFFF, 16)
  {
    OnesStep(0xF, 0, 0);
    OnesStep(0xFF, 0xF, 1);
    OnesStep(0xFFF, 0xFF, 2);
    OnesStep(0xFFFF, 0xFFF, 3);
    OnesStep(0xF_FFFF, 0xFFFF, 4);
    OnesStep(0xFF_FFFF, 0xF_FFFF, 5);
    OnesStep(0xFFF_FFFF, 0xFF_FFFF, 6);
    OnesStep(0xFFFF_FFFF, 0xFFF_FFFF, 7);
    OnesStep(0xF_FFFF_FFFF, 0xFFFF_FFFF, 8);
    OnesStep(0xFF_FFFF_FFFF, 0xF_FFFF_FFFF, 9);
    OnesStep(0xFFF_FFFF_FFFF, 0xFF_FFFF_FFFF, 10);
    OnesStep(0xFFFF_FFFF_FFFF, 0xFFF_FFFF_FFFF, 11);
    OnesStep(0xF_FFFF_FFFF_FFFF, 0xFFFF_FFFF_FFFF, 12);
    OnesStep(0xFF_FFFF_FFFF_FFFF, 0xF_FFFF_FFFF_FFFF, 13);
    OnesStep(0xFFF_FFFF_FFFF_FFFF, 0xFF_FFFF_FFFF_FFFF, 14);
    OnesStep(0xFFFF_FFFF_FFFF_FFFF, 0xFFF_FFFF_FFFF_FFFF, 15);
  }

  lemma MaskAll(v: Word)
    ensures v & 0xFFFF_FFFF_FFFF_FFFF == v
  {
  }

  /** The population count of the masked word is the number of its odd counters. */
  lemma OddCount(v: Word, s: seq<int>)
    requires |s| == 16 && Holds(v, s)
    ensures OnesCount(OddMask(v)) == Odds(s)
  {
    OddIsOdds(v, s);
    AllOnes();
    MaskAll(v);
    MaskedWithin(v, 0xFFFF_FFFF_FFFF_FFFF, 16);
    OddOnes(v, 16);
  }
}
