/** Sequence vocabulary shared by the models: options, positions and removal. */
module Seqs {

  datatype Option<+T> = None | Some(value: T)

  /** No value occurs twice. */
  predicate NoDup<T(==)>(s: seq<T>) {
    forall i, j :: 0 <= i < j < |s| ==> s[i] != s[j]
  }

  function Min(a: int, b: int): int {
    if a < b then a else b
  }

  ghost function Elements<T(!new)>(s: seq<T>): set<T> {
    set x | x in s
  }

  lemma NoElements(s: set<int>)
    requires forall x :: x !in s
    ensures s == {}
  {
    assert forall x :: x in s ==> x in {0} - {0};
  }

  lemma Witness(s: set<int>) returns (x: int)
    requires |s| > 0
    ensures x in s
  {
    if forall y :: y !in s {
      NoElements(s);
    }
    x :| x in s;
  }

  /** The first position of `x`. */
  function IndexOf<T(==)>(s: seq<T>, x: T): (i: nat)
    requires x in s
    ensures i < |s| && s[i] == x && x !in s[..i]
  {
    if s[0] == x then 0 else 1 + IndexOf(s[1..], x)
  }

  function RemoveAt<T>(s: seq<T>, i: nat): seq<T>
    requires i < |s|
  {
    s[..i] + s[i + 1..]
  }

  /** `s` with the first occurrence of `x` taken out. */
  function Without<T(==)>(s: seq<T>, x: T): seq<T>
    requires x in s
  {
    RemoveAt(s, IndexOf(s, x))
  }

  /** In a duplicate-free sequence, taking out `x` leaves everything else, in order and duplicate-free. */
  lemma WithoutKeeps<T>(s: seq<T>, x: T)
    requires NoDup(s) && x in s
    ensures NoDup(Without(s, x)) && |Without(s, x)| == |s| - 1
    ensures forall y :: y in Without(s, x) <==> y in s && y != x
  {
    var i := IndexOf(s, x);
    var r := Without(s, x);
    assert forall k :: 0 <= k < |r| ==> r[k] == if k < i then s[k] else s[k + 1];
    forall y | y in s && y != x
      ensures y in r
    {
      var k := IndexOf(s, y);
      assert y == if k < i then r[k] else r[k - 1];
    }
  }

  /** The sum of `f` over a sequence. */
  ghost function Tally<T(!new)>(s: seq<T>, f: T -> int): int {
    if s == [] then 0 else f(s[0]) + Tally(s[1..], f)
  }

  lemma {:induction false} TallyConcat<T(!new)>(s: seq<T>, t: seq<T>, f: T -> int)
    ensures Tally(s + t, f) == Tally(s, f) + Tally(t, f)
  {
    if s == [] {
      assert s + t == t;
    } else {
      assert (s + t)[1..] == s[1..] + t;
      TallyConcat(s[1..], t, f);
    }
  }

  lemma TallyPush<T(!new)>(s: seq<T>, x: T, f: T -> int)
    ensures Tally(s + [x], f) == Tally(s, f) + f(x)
    ensures Tally([x] + s, f) == Tally(s, f) + f(x)
  {
    TallyConcat(s, [x], f);
    TallyConcat([x], s, f);
    assert [x][1..] == [];
    assert Tally([x], f) == f(x) + Tally([], f);
  }

  lemma TallyRemoveAt<T(!new)>(s: seq<T>, i: nat, f: T -> int)
    requires i < |s|
    ensures Tally(RemoveAt(s, i), f) == Tally(s, f) - f(s[i])
  {
    var front, back := s[..i], s[i + 1..];
    assert s == front + ([s[i]] + back);
    TallyConcat(front, [s[i]] + back, f);
    TallyPush(back, s[i], f);
    TallyConcat(front, back, f);
  }

  lemma {:induction false} TallyAgree<T(!new)>(s: seq<T>, f: T -> int, g: T -> int)
    requires forall x :: x in s ==> f(x) == g(x)
    ensures Tally(s, f) == Tally(s, g)
  {
    if s != [] {
      TallyAgree(s[1..], f, g);
    }
  }

  /** Changing `f` at one listed value changes the sum by as much. */
  lemma TallyChange<T(!new)>(s: seq<T>, x: T, f: T -> int, g: T -> int)
    requires NoDup(s) && x in s
    requires forall y :: y in s && y != x ==> f(y) == g(y)
    ensures Tally(s, g) == Tally(s, f) - f(x) + g(x)
  {
    var i := IndexOf(s, x);
    WithoutKeeps(s, x);
    TallyRemoveAt(s, i, f);
    TallyRemoveAt(s, i, g);
    TallyAgree(Without(s, x), f, g);
  }

  lemma {:induction false} TallyNonNegative<T(!new)>(s: seq<T>, f: T -> int)
    requires forall x :: x in s ==> f(x) >= 0
    ensures Tally(s, f) >= 0
    ensures forall x :: x in s ==> f(x) <= Tally(s, f)
  {
    if s != [] {
      TallyNonNegative(s[1..], f);
    }
  }

  lemma {:induction false} TallyZero<T(!new)>(s: seq<T>, f: T -> int)
    requires forall x :: x in s ==> f(x) == 0
    ensures Tally(s, f) == 0
  {
    if s != [] {
      TallyZero(s[1..], f);
    }
  }
}
