/**
 The 4-bit count-min sketch of internal/sketch.go.

 The simple form of the sketch is a sequence of counters, sixteen to a word; what the sketch promises
 is proved about functions on it. Module PackedSketch holds the packed words and is proved to do to the
 counters what those functions say. Table sizes are powers of two, so masking a hash with `size / 8 - 1` is
 taking its remainder by `size / 8`.
 */
module Sketch {
  import opened Seqs
  import opened Nibbles

  type Cells = seq<int>

  predicate Power2(n: nat) {
    n == 1 || (n > 1 && n % 2 == 0 && Power2(n / 2))
  }

  /** The sizes, in words, a table can have. */
  predicate Sized(size: nat) {
    size >= 16 && Power2(size)
  }

  lemma SizedBlocks(size: nat)
    requires Sized(size)
    ensures size % 8 == 0
  {
    assert Power2(size / 2) && Power2(size / 2 / 2) && Power2(size / 2 / 2 / 2);
  }

  predicate Shaped(c: Cells, size: nat) {
    Sized(size) && |c| == 16 * size && forall i :: 0 <= i < |c| ==> 0 <= c[i] <= 15
  }

  // ----- Where the four counters of a hash are -----

  type Nib = n: int | 0 <= n < 16

  /** What five bits of the rehashed hash choose in one row: one of two words, and a counter in it. */
  datatype Pick = Pick(odd: bool, offset: Nib)

  /** A hash as the sketch uses it: the hash itself for the block, and a choice in each row. */
  datatype Key = Key(hash: nat, row0: Pick, row1: Pick, row2: Pick, row3: Pick)

  function Chosen(h: Key, k: nat): Pick
    requires k < 4
  {
    if k == 0 then h.row0 else if k == 1 then h.row1 else if k == 2 then h.row2 else h.row3
  }

  /** The first of the eight words of a hash. */
  function Block(hash: nat, size: nat): (b: nat)
    requires Sized(size)
    ensures b % 8 == 0 && b + 8 <= size
  {
    SizedBlocks(size);
    hash % (size / 8) * 8
  }

  lemma RowOfWord(block: nat, x: nat, k: nat)
    requires block % 8 == 0 && x < 2 && k < 4
    ensures (block + x + 2 * k) % 8 / 2 == k
  {
    assert (block + x + 2 * k) % 8 == x + 2 * k;
  }

  /** Row `k` of a hash is one of the words 2k and 2k + 1 of its block, so the four rows are distinct words. */
  function Index(h: Key, k: nat, size: nat): (i: nat)
    requires k < 4 && Sized(size)
    ensures i < size && i % 8 / 2 == k
  {
    RowOfWord(Block(h.hash, size), if Chosen(h, k).odd then 1 else 0, k);
    Block(h.hash, size) + (if Chosen(h, k).odd then 1 else 0) + 2 * k
  }

  function Cell(h: Key, k: nat, size: nat): (c: nat)
    requires k < 4 && Sized(size)
    ensures c < 16 * size && c / 16 % 8 / 2 == k
  {
    16 * Index(h, k, size) + Chosen(h, k).offset
  }

  /** Hashes share a block exactly when they agree modulo the number of blocks, and every block is some hash's. */
  lemma BlocksSpread(a: nat, b: nat, size: nat)
    requires Sized(size)
    ensures Block(a, size) == Block(b, size) <==> a % (size / 8) == b % (size / 8)
    ensures a < size / 8 ==> Block(a, size) == 8 * a
  {
    SizedBlocks(size);
  }

  /** Two hashes share the counter of a row exactly when they share the block and choose alike in the row. */
  lemma SharedIff(h: Key, g: Key, k: nat, size: nat)
    requires k < 4 && Sized(size)
    ensures Cell(h, k, size) == Cell(g, k, size) <==>
      Block(h.hash, size) == Block(g.hash, size) && Chosen(h, k) == Chosen(g, k)
  {
    var b, c := Block(h.hash, size), Block(g.hash, size);
    var x, y := if Chosen(h, k).odd then 1 else 0, if Chosen(g, k).odd then 1 else 0;
    SameParts(b, x, Chosen(h, k).offset, c, y, Chosen(g, k).offset, k);
  }

  lemma SameParts(b: nat, x: nat, m: nat, c: nat, y: nat, n: nat, k: nat)
    requires b % 8 == 0 && c % 8 == 0 && x < 2 && y < 2 && m < 16 && n < 16
    ensures 16 * (b + x + 2 * k) + m == 16 * (c + y + 2 * k) + n <==> b == c && x == y && m == n
  {
    if b + x == c + y {
      assert (b + x) % 8 == x && (c + y) % 8 == y;
    }
  }

  // ----- The table as counters -----

  function Row(c: Cells, size: nat, h: Key, k: nat): (n: int)
    requires k < 4 && Shaped(c, size)
    ensures 0 <= n <= 15
  {
    c[Cell(h, k, size)]
  }

  function Estimate(c: Cells, size: nat, h: Key): (n: int)
    requires Shaped(c, size)
    ensures 0 <= n <= 15
    ensures forall k: nat :: k < 4 ==> n <= Row(c, size, h, k)
    ensures n == Row(c, size, h, 0) || n == Row(c, size, h, 1) || n == Row(c, size, h, 2) || n == Row(c, size, h, 3)
  {
    Min(Row(c, size, h, 3), Min(Row(c, size, h, 2), Min(Row(c, size, h, 1), Min(Row(c, size, h, 0), 100))))
  }

  /** All four counters of the hash are at 15. */
  predicate Full(c: Cells, size: nat, h: Key)
    requires Shaped(c, size)
  {
    Row(c, size, h, 0) == 15 && Row(c, size, h, 1) == 15 && Row(c, size, h, 2) == 15 && Row(c, size, h, 3) == 15
  }

  lemma FullEstimate(c: Cells, size: nat, h: Key)
    requires Shaped(c, size)
    ensures Full(c, size, h) <==> Estimate(c, size, h) == 15
  {
  }

  /** One more, up to 15. */
  function Inc(c: Cells, i: nat): (d: Cells)
    requires i < |c|
    ensures |d| == |c|
  {
    c[i := Min(15, c[i] + 1)]
  }

  function Bump(c: Cells, size: nat, h: Key): (d: Cells)
    requires Shaped(c, size)
    ensures Shaped(d, size)
  {
    Inc(Inc(Inc(Inc(c, Cell(h, 0, size)), Cell(h, 1, size)), Cell(h, 2, size)), Cell(h, 3, size))
  }

  function Halve(c: Cells): (d: Cells)
    ensures |d| == |c| && forall i :: 0 <= i < |c| ==> d[i] == c[i] / 2
  {
    seq(|c|, i requires 0 <= i < |c| => c[i] / 2)
  }

  function Sum(c: Cells): int {
    if c == [] then 0 else c[0] + Sum(c[1..])
  }

  /** The odd counters, which an ageing counts, are exactly what halving them all rounds away. */
  lemma {:induction false} HalveConserves(c: Cells)
    ensures Sum(c) == 2 * Sum(Halve(c)) + Odds(c)
  {
    if c != [] {
      assert Halve(c)[1..] == Halve(c[1..]);
      HalveConserves(c[1..]);
    }
  }

  /** Adding a hash increments, up to 15, exactly the counters that its rows share: row `j` of `g` is
      touched only by row `j` of `h`. */
  lemma BumpRow(c: Cells, size: nat, h: Key, g: Key, j: nat)
    requires j < 4 && Shaped(c, size)
    ensures Row(Bump(c, size, h), size, g, j) ==
            if Cell(h, j, size) == Cell(g, j, size) then Min(15, Row(c, size, g, j) + 1) else Row(c, size, g, j)
  {
  }

  /** An addition without ageing makes the estimate of the hash exactly one more, up to 15. */
  lemma BumpEstimate(c: Cells, size: nat, h: Key)
    requires Shaped(c, size)
    ensures Estimate(Bump(c, size, h), size, h) == Min(15, Estimate(c, size, h) + 1)
    ensures Bump(c, size, h) != c <==> Estimate(c, size, h) < 15
  {
    forall j: nat | j < 4
      ensures Row(Bump(c, size, h), size, h, j) == Min(15, Row(c, size, h, j) + 1)
    {
      BumpRow(c, size, h, h, j);
    }
  }

  /** Whatever is added, no estimate falls, and none rises by more than one. */
  lemma BumpGrows(c: Cells, size: nat, h: Key, g: Key)
    requires Shaped(c, size)
    ensures Estimate(c, size, g) <= Estimate(Bump(c, size, h), size, g) <= Estimate(c, size, g) + 1
  {
    forall j: nat | j < 4
      ensures Row(c, size, g, j) <= Row(Bump(c, size, h), size, g, j) <= Row(c, size, g, j) + 1
    {
      BumpRow(c, size, h, g, j);
    }
  }

  /** Ageing halves every estimate, rounding down. */
  lemma HalveEstimate(c: Cells, size: nat, g: Key)
    requires Shaped(c, size)
    ensures Shaped(Halve(c), size) && Estimate(Halve(c), size, g) == Estimate(c, size, g) / 2
  {
    var d := Halve(c);
    forall j: nat | j < 4
      ensures Row(d, size, g, j) == Row(c, size, g, j) / 2
    {
    }
  }

  // ----- Repeated additions, used when a saved cache is restored -----

  function BumpN(c: Cells, size: nat, h: Key, n: int): (d: Cells)
    requires Shaped(c, size)
    ensures Shaped(d, size)
    decreases n
  {
    if n <= 0 then c else Bump(BumpN(c, size, h, n - 1), size, h)
  }

  lemma BumpNNext(c: Cells, size: nat, h: Key, n: nat)
    requires Shaped(c, size)
    ensures BumpN(c, size, h, n + 1) == Bump(BumpN(c, size, h, n), size, h)
  {
  }

  function Max0(n: int): nat {
    if n < 0 then 0 else n
  }

  lemma {:induction false} BumpNEstimate(c: Cells, size: nat, h: Key, n: int)
    requires Shaped(c, size)
    ensures Estimate(BumpN(c, size, h, n), size, h) == Min(15, Estimate(c, size, h) + Max0(n))
    decreases n
  {
    if n > 0 {
      BumpNEstimate(c, size, h, n - 1);
      BumpEstimate(BumpN(c, size, h, n - 1), size, h);
    }
  }

  lemma {:induction false} BumpNGrows(c: Cells, size: nat, h: Key, n: int, g: Key)
    requires Shaped(c, size)
    ensures Estimate(c, size, g) <= Estimate(BumpN(c, size, h, n), size, g)
    decreases n
  {
    if n > 0 {
      BumpNGrows(c, size, h, n - 1, g);
      BumpGrows(BumpN(c, size, h, n - 1), size, h, g);
    }
  }

  lemma {:induction false} BumpNRow(c: Cells, size: nat, h: Key, n: int, g: Key, j: nat)
    requires j < 4 && Shaped(c, size)
    ensures Row(BumpN(c, size, h, n), size, g, j) ==
            if Cell(h, j, size) == Cell(g, j, size) then Min(15, Row(c, size, g, j) + Max0(n)) else Row(c, size, g, j)
    decreases n
  {
    if n > 0 {
      BumpNRow(c, size, h, n - 1, g, j);
      BumpRow(BumpN(c, size, h, n - 1), size, h, g, j);
    }
  }

  // ----- The whole sketch: counters, ageing and growth -----

  datatype Counts = Counts(cells: Cells, size: nat, additions: int)

  /** Additions stay below the sample size, ten per word, so the equality test that starts an ageing
      is never jumped over. */
  predicate Sound(s: Counts) {
    Shaped(s.cells, s.size) && 0 <= s.additions < 10 * s.size
  }

  /** The source subtracts unsigned words; the result is never negative because at most four in ten
      additions of a full sample can be rounding. */
  function Aged(s: Counts): (r: Counts)
    requires Shaped(s.cells, s.size) && s.additions == 10 * s.size
    ensures Sound(r) && r.size == s.size && 3 * s.size <= r.additions <= 5 * s.size
    ensures r.additions == (s.additions - Odds(s.cells) / 4) / 2
    ensures forall i :: 0 <= i < |s.cells| ==> r.cells[i] == s.cells[i] / 2
  {
    Counts(Halve(s.cells), s.size, (s.additions - Odds(s.cells) / 4) / 2)
  }

  /** An addition that changed a counter is counted; a full sample is aged. */
  function Counted(s: Counts): (r: Counts)
    requires Sound(s)
    ensures Sound(r) && r.size == s.size
  {
    var n := s.(additions := s.additions + 1);
    if n.additions == 10 * s.size then Aged(n) else n
  }

  function Record(s: Counts, h: Key): (r: Counts)
    requires Sound(s)
    ensures Sound(r) && r.size == s.size
  {
    var c := Bump(s.cells, s.size, h);
    if c == s.cells then s else Counted(s.(cells := c))
  }

  /** Whether adding `h` ages the sketch. */
  predicate Ages(s: Counts, h: Key)
    requires Sound(s)
  {
    Estimate(s.cells, s.size, h) < 15 && s.additions + 1 == 10 * s.size
  }

  /** Nothing is counted exactly when all four counters are full. */
  lemma RecordCases(s: Counts, h: Key)
    requires Sound(s)
    ensures Estimate(s.cells, s.size, h) == 15 ==> Record(s, h) == s && Bump(s.cells, s.size, h) == s.cells
    ensures Estimate(s.cells, s.size, h) < 15 ==> Record(s, h) == Counted(s.(cells := Bump(s.cells, s.size, h)))
  {
    BumpEstimate(s.cells, s.size, h);
  }

  /** Counter `i` is one of the four of the hash. */
  predicate Mine(h: Key, size: nat, i: int)
    requires Sized(size)
  {
    i == Cell(h, 0, size) || i == Cell(h, 1, size) || i == Cell(h, 2, size) || i == Cell(h, 3, size)
  }

  /** Its four counters go up by one and no other moves. */
  lemma BumpCells(c: Cells, size: nat, h: Key, i: nat)
    requires Shaped(c, size) && i < |c|
    ensures Bump(c, size, h)[i] == if Mine(h, size, i) && c[i] < 15 then c[i] + 1 else c[i]
  {
  }

  /** Add, by its counters: all four full, nothing happens; before the sample is full, the four counters and
      the additions go up; when it fills, every counter ends at half of that. */
  lemma RecordExact(s: Counts, h: Key, i: nat)
    requires Sound(s) && i < |s.cells|
    ensures var r, up := Record(s, h), if Mine(h, s.size, i) && s.cells[i] < 15 then s.cells[i] + 1 else s.cells[i];
      if Estimate(s.cells, s.size, h) == 15 then r == s
      else if s.additions + 1 < 10 * s.size then r.additions == s.additions + 1 && r.cells[i] == up
      else r.cells[i] == up / 2 && 3 * s.size <= r.additions <= 5 * s.size
  {
    RecordCases(s, h);
    BumpCells(s.cells, s.size, h, i);
  }

  function Double(p: nat, n: nat): (r: nat)
    requires Power2(p) && (p == 1 || p < 2 * n)
    ensures Power2(r) && r >= n && (r == 1 || r < 2 * n)
    decreases n - p
  {
    if p >= n then p else Double(2 * p, n)
  }

  /** The least power of two not below `n`. */
  function NextPower(n: nat): (r: nat)
    ensures Power2(r) && r >= n && (r == 1 || r < 2 * n)
  {
    Double(1, n)
  }

  function Blank(size: nat): (c: Cells)
    ensures |c| == 16 * size && forall i :: 0 <= i < |c| ==> c[i] == 0
  {
    seq(16 * size, i => 0)
  }

  const EMPTY: Counts := Counts([], 0, 0)

  function Grow(s: Counts, size: nat): (r: Counts)
    requires Sound(s) || (s == EMPTY && size > 0)
    ensures Sound(r) && r.size >= size && r.size >= s.size
    ensures s.size >= size ==> r == s
    ensures s.size < size ==> r.additions == 0 && forall i :: 0 <= i < |r.cells| ==> r.cells[i] == 0
    ensures s.size < size ==> var n := if size < 16 then 16 else size; Power2(r.size) && n <= r.size < 2 * n
  {
    if s.size >= size then s
    else
      var n := NextPower(if size < 16 then 16 else size);
      Counts(Blank(n), n, 0)
  }

  // ----- Runs -----

  datatype Op = Once(key: Key) | Times(key: Key, n: int) | Resize(size: nat)

  function Step(s: Counts, op: Op): (r: Counts)
    requires Sound(s)
    ensures Sound(r)
  {
    match op
    case Once(h) => Record(s, h)
    case Times(h, n) => s.(cells := BumpN(s.cells, s.size, h, n))
    case Resize(size) => Grow(s, size)
  }

  /** The aged count of `g` an exact counter would hold: one more per addition of `g` up to 15, halved
      at each ageing, zero once the table grows. */
  function IdealStep(s: Counts, op: Op, g: Key, c: int): int
    requires Sound(s)
  {
    match op
    case Once(h) =>
      var d := if h == g then Min(15, c + 1) else c;
      if Ages(s, h) then d / 2 else d
    case Times(h, n) => if h == g then Min(15, c + Max0(n)) else c
    case Resize(size) => if s.size >= size then c else 0
  }

  function Run(s: Counts, ops: seq<Op>): (r: Counts)
    requires Sound(s)
    ensures Sound(r)
    decreases |ops|
  {
    if ops == [] then s else Run(Step(s, ops[0]), ops[1..])
  }

  function Ideal(s: Counts, ops: seq<Op>, g: Key, c: int): int
    requires Sound(s)
    decreases |ops|
  {
    if ops == [] then c else Ideal(Step(s, ops[0]), ops[1..], g, IdealStep(s, ops[0], g, c))
  }

  function Freq(s: Counts, g: Key): int
    requires Sound(s)
  {
    Estimate(s.cells, s.size, g)
  }

  lemma OnceEstimate(s: Counts, h: Key, g: Key, c: int)
    requires Sound(s) && c <= Freq(s, g)
    ensures IdealStep(s, Once(h), g, c) <= Freq(Record(s, h), g)
  {
    var d := Bump(s.cells, s.size, h);
    BumpEstimate(s.cells, s.size, h);
    BumpGrows(s.cells, s.size, h, g);
    HalveEstimate(d, s.size, g);
  }

  lemma StepEstimate(s: Counts, op: Op, g: Key, c: int)
    requires Sound(s) && c <= Freq(s, g)
    ensures IdealStep(s, op, g, c) <= Freq(Step(s, op), g)
  {
    match op
    case Once(h) =>
      OnceEstimate(s, h, g, c);
    case Times(h, n) =>
      BumpNEstimate(s.cells, s.size, h, n);
      BumpNGrows(s.cells, s.size, h, n, g);
    case Resize(_) =>
  }

  /** Over every run, whatever else is added, the estimate is never below the ideal aged count. */
  lemma {:induction false} NeverUnder(s: Counts, ops: seq<Op>, g: Key, c: int)
    requires Sound(s) && c <= Freq(s, g)
    ensures Ideal(s, ops, g, c) <= Freq(Run(s, ops), g)
    decreases |ops|
  {
    if ops != [] {
      StepEstimate(s, ops[0], g, c);
      NeverUnder(Step(s, ops[0]), ops[1..], g, IdealStep(s, ops[0], g, c));
    }
  }

  /** The step adds no other hash that shares row `j` of `g`. */
  predicate LeavesAlone(s: Counts, op: Op, g: Key, j: nat)
    requires Sound(s) && j < 4
  {
    op.Resize? || op.key == g || Cell(op.key, j, s.size) != Cell(g, j, s.size)
  }

  predicate Private(s: Counts, ops: seq<Op>, g: Key, j: nat)
    requires Sound(s) && j < 4
    decreases |ops|
  {
    ops == [] || (LeavesAlone(s, ops[0], g, j) && Private(Step(s, ops[0]), ops[1..], g, j))
  }

  lemma OnceRow(s: Counts, h: Key, g: Key, j: nat)
    requires Sound(s) && j < 4 && LeavesAlone(s, Once(h), g, j)
    ensures IdealStep(s, Once(h), g, Row(s.cells, s.size, g, j)) == Row(Record(s, h).cells, s.size, g, j)
  {
    BumpEstimate(s.cells, s.size, h);
    BumpRow(s.cells, s.size, h, g, j);
  }

  lemma StepRow(s: Counts, op: Op, g: Key, j: nat)
    requires Sound(s) && j < 4 && LeavesAlone(s, op, g, j)
    ensures IdealStep(s, op, g, Row(s.cells, s.size, g, j)) == Row(Step(s, op).cells, Step(s, op).size, g, j)
  {
    match op
    case Once(h) => OnceRow(s, h, g, j);
    case Times(h, n) => BumpNRow(s.cells, s.size, h, n, g, j);
    case Resize(_) =>
  }

  /** The estimate is exact as soon as one of the four rows is never touched by another hash. */
  lemma {:induction false} ExactWhenPrivate(s: Counts, ops: seq<Op>, g: Key, j: nat)
    requires Sound(s) && j < 4 && Private(s, ops, g, j)
    requires Row(s.cells, s.size, g, j) == Freq(s, g)
    ensures Freq(Run(s, ops), g) == Ideal(s, ops, g, Freq(s, g))
    decreases |ops|
  {
    if ops != [] {
      var c := Freq(s, g);
      StepRow(s, ops[0], g, j);
      StepEstimate(s, ops[0], g, c);
      ExactWhenPrivate(Step(s, ops[0]), ops[1..], g, j);
    }
  }
}
