/**
 The eviction policy of internal/tlfu.go and internal/slru.go: three weighted LRU lists, the
 hill-climbing window resize and the two-cursor eviction loop.

 Entries are identified by `Id`; their policy fields are kept in maps: `weight` is policyWeight and
 `zone` the list an entry is linked in, absent when meta.prev is nil. Sizes are integers: with
 non-negative weights the unsigned words of the source never wrap. Frequencies come from the sketch
 and do not change while entries are evicted, so they are a parameter.
 */
module TinyLfu {
  import opened Seqs
  import opened LruList

  type Id = int

  datatype Zone = Window | Probation | Protected

  datatype Policy = Policy(
    window: LruList<Id>, probation: LruList<Id>, protected: LruList<Id>,
    zone: map<Id, Zone>, weight: map<Id, int>, weightedSize: int, capacity: int)

  function ListOf(p: Policy, z: Zone): LruList<Id> {
    match z case Window => p.window case Probation => p.probation case Protected => p.protected
  }

  function WithList(p: Policy, z: Zone, l: LruList<Id>): Policy {
    match z
    case Window => p.(window := l)
    case Probation => p.(probation := l)
    case Protected => p.(protected := l)
  }

  ghost function W(weight: map<Id, int>): Id -> int {
    x => if x in weight then weight[x] else 0
  }

  /** The list's counters are right and it holds exactly the entries flagged with it. */
  ghost predicate ListSound(l: LruList<Id>, z: Zone, zone: map<Id, Zone>, weight: map<Id, int>) {
    && Accounts(l, W(weight))
    && (forall x :: x in l.items <==> x in zone && zone[x] == z)
  }

  ghost predicate Shape(p: Policy) {
    && ListSound(p.window, Window, p.zone, p.weight)
    && ListSound(p.probation, Probation, p.zone, p.weight)
    && ListSound(p.protected, Protected, p.zone, p.weight)
    && (forall x :: x in p.zone ==> x in p.weight && p.weight[x] >= 0)
    && p.window.capacity >= 1 && p.protected.capacity >= 0 && p.capacity >= 0
  }

  lemma ListOfSound(p: Policy, z: Zone)
    requires Shape(p)
    ensures ListSound(ListOf(p, z), z, p.zone, p.weight)
  {
  }

  ghost function Total(p: Policy): int {
    p.window.len + p.probation.len + p.protected.len
  }

  ghost predicate Sound(p: Policy) {
    Shape(p) && p.weightedSize == Total(p)
  }

  // ----- The two link operations -----

  /** List.remove on the list holding `x`. */
  function Unlinked(p: Policy, x: Id): Policy
    requires x in p.zone && x in ListOf(p, p.zone[x]).items && x in p.weight
  {
    var l := ListOf(p, p.zone[x]);
    WithList(p, p.zone[x], l.RemoveAt(IndexOf(l.items, x), p.weight[x])).(zone := p.zone - {x})
  }

  /** List.PushFront on list `z`. */
  function Linked(p: Policy, z: Zone, x: Id): Policy
    requires x in p.weight
  {
    WithList(p, z, ListOf(p, z).PushFront(x, p.weight[x])).(zone := p.zone[x := z])
  }

  lemma RemoveSound(l: LruList<Id>, z: Zone, zone: map<Id, Zone>, weight: map<Id, int>, x: Id)
    requires ListSound(l, z, zone, weight) && x in l.items && x in weight
    ensures ListSound(l.RemoveAt(IndexOf(l.items, x), weight[x]), z, zone - {x}, weight)
    ensures l.RemoveAt(IndexOf(l.items, x), weight[x]).items == Without(l.items, x)
  {
    WithoutKeeps(l.items, x);
    TallyRemoveAt(l.items, IndexOf(l.items, x), W(weight));
  }

  lemma PushSound(l: LruList<Id>, z: Zone, zone: map<Id, Zone>, weight: map<Id, int>, x: Id)
    requires ListSound(l, z, zone, weight) && x !in zone && x in weight
    ensures ListSound(l.PushFront(x, weight[x]), z, zone[x := z], weight)
  {
    TallyPush(l.items, x, W(weight));
    assert forall y :: y in [x] + l.items <==> y in l.items || y == x;
  }

  /** An entry of another list makes no difference to this one. */
  lemma ElsewhereSound(l: LruList<Id>, z: Zone, zone: map<Id, Zone>, weight: map<Id, int>, x: Id, y: Zone)
    requires ListSound(l, z, zone, weight) && y != z
    ensures x in zone && zone[x] == y ==> ListSound(l, z, zone - {x}, weight)
    ensures x !in zone ==> ListSound(l, z, zone[x := y], weight)
  {
  }

  lemma UnlinkShape(p: Policy, x: Id)
    requires Shape(p) && x in p.zone
    ensures x in ListOf(p, p.zone[x]).items && Shape(Unlinked(p, x)) && Total(Unlinked(p, x)) == Total(p) - p.weight[x]
  {
    var z := p.zone[x];
    RemoveSound(ListOf(p, z), z, p.zone, p.weight, x);
    if z != Window {
      ElsewhereSound(p.window, Window, p.zone, p.weight, x, z);
    }
    if z != Probation {
      ElsewhereSound(p.probation, Probation, p.zone, p.weight, x, z);
    }
    if z != Protected {
      ElsewhereSound(p.protected, Protected, p.zone, p.weight, x, z);
    }
  }

  lemma LinkShape(p: Policy, z: Zone, x: Id)
    requires Shape(p) && x !in p.zone && x in p.weight && p.weight[x] >= 0
    ensures Shape(Linked(p, z, x)) && Total(Linked(p, z, x)) == Total(p) + p.weight[x]
  {
    PushSound(ListOf(p, z), z, p.zone, p.weight, x);
    if z != Window {
      ElsewhereSound(p.window, Window, p.zone, p.weight, x, z);
    }
    if z != Probation {
      ElsewhereSound(p.probation, Probation, p.zone, p.weight, x, z);
    }
    if z != Protected {
      ElsewhereSound(p.protected, Protected, p.zone, p.weight, x, z);
    }
  }

  // ----- Moving entries from the back of one list to the front of another -----

  /** q is p with some of the back of list `from` moved, in order, to the front of list `to`. */
  ghost predicate Shifted(p: Policy, q: Policy, from: Zone, to: Zone) {
    && q.weight == p.weight && q.weightedSize == p.weightedSize && q.capacity == p.capacity &&
      q.zone.Keys == p.zone.Keys
    && ListOf(q, from).items <= ListOf(p, from).items
    && ListOf(q, from).items + ListOf(q, to).items == ListOf(p, from).items + ListOf(p, to).items
    && ListOf(q, from).len + ListOf(q, to).len == ListOf(p, from).len + ListOf(p, to).len
    && q.window.capacity == p.window.capacity && q.probation.capacity == p.probation.capacity &&
      q.protected.capacity == p.protected.capacity
    && (from != Window && to != Window ==> q.window == p.window)
    && (from != Probation && to != Probation ==> q.probation == p.probation)
    && (from != Protected && to != Protected ==> q.protected == p.protected)
  }

  /** No more was moved off the back of the list than had to be: with the last entry moved it would not fit. */
  predicate Minimal(l: LruList<Id>, all: seq<Id>, weight: map<Id, int>) {
    var kept := |l.items|;
    kept == |all| || (kept < |all| && all[kept] in weight && l.len + weight[all[kept]] > l.capacity)
  }

  /** Move the last entry of `from`. */
  function MovedBack(p: Policy, from: Zone, to: Zone): Policy
    requires ListOf(p, from).items != []
    requires var x := ListOf(p, from).items[|ListOf(p, from).items| - 1];
      x in p.zone && p.zone[x] == from && x in p.weight
  {
    var l := ListOf(p, from);
    var x := l.items[|l.items| - 1];
    Linked(Unlinked(p, x), to, x)
  }

  lemma LastIndex(items: seq<Id>)
    requires NoDup(items) && items != []
    ensures IndexOf(items, items[|items| - 1]) == |items| - 1
    ensures Without(items, items[|items| - 1]) == items[..|items| - 1]
  {
  }

  ghost predicate Movable(p: Policy, from: Zone) {
    var items := ListOf(p, from).items;
    NoDup(items) && items != [] && var x := items[|items| - 1]; x in p.zone && p.zone[x] == from && x in p.weight
  }

  lemma MoveBackLists(p: Policy, from: Zone, to: Zone)
    requires from != to && Movable(p, from)
    ensures var l, q := ListOf(p, from), MovedBack(p, from, to);
      var x := l.items[|l.items| - 1];
      && ListOf(q, from) == l.(items := l.items[..|l.items| - 1], len := l.len - p.weight[x], count := l.count - 1)
      && ListOf(q, to) == ListOf(p, to).PushFront(x, p.weight[x])
      && (from != Window && to != Window ==> q.window == p.window)
      && (from != Probation && to != Probation ==> q.probation == p.probation)
      && (from != Protected && to != Protected ==> q.protected == p.protected)
      && q.zone == p.zone[x := to]
      && q.weight == p.weight && q.weightedSize == p.weightedSize && q.capacity == p.capacity
  {
    var l := ListOf(p, from);
    var x := l.items[|l.items| - 1];
    LastIndex(l.items);
    assert l.items[..|l.items| - 1] + l.items[|l.items|..] == l.items[..|l.items| - 1];
    assert (p.zone - {x})[x := to] == p.zone[x := to];
  }

  lemma MoveBackShifts(p: Policy, from: Zone, to: Zone)
    requires from != to && Movable(p, from)
    ensures Shifted(p, MovedBack(p, from, to), from, to)
  {
    MoveBackLists(p, from, to);
    var l := ListOf(p, from);
    LastMoves(l.items, ListOf(p, to).items);
  }

  lemma LastMoves(a: seq<Id>, b: seq<Id>)
    requires a != []
    ensures a[..|a| - 1] + ([a[|a| - 1]] + b) == a + b
  {
  }

  lemma MoveBackShape(p: Policy, from: Zone, to: Zone)
    requires Shape(p) && from != to && ListOf(p, from).items != []
    ensures Movable(p, from) && Shape(MovedBack(p, from, to)) && Total(MovedBack(p, from, to)) == Total(p)
  {
    var l := ListOf(p, from);
    var x := l.items[|l.items| - 1];
    assert x in l.items;
    UnlinkShape(p, x);
    LinkShape(Unlinked(p, x), to, x);
  }

  lemma ShiftedTrans(p: Policy, q: Policy, r: Policy, from: Zone, to: Zone)
    requires Shifted(p, q, from, to) && Shifted(q, r, from, to)
    ensures Shifted(p, r, from, to)
  {
  }

  /** One more entry shifted to probation: the list loses its last entry and nothing else. */
  lemma ShiftOne(p: Policy, q: Policy, from: Zone)
    requires Shape(q) && Shifted(p, q, from, Probation) && from != Probation && ListOf(q, from).items != []
    ensures Movable(q, from)
    ensures var r, l := MovedBack(q, from, Probation), ListOf(q, from);
      var x := l.items[|l.items| - 1];
      && Shape(r) && Total(r) == Total(q) && Shifted(p, r, from, Probation)
      && ListOf(r, from) == l.(items := l.items[..|l.items| - 1], len := l.len - q.weight[x], count := l.count - 1)
      && r.probation.items == [x] + q.probation.items
  {
    MoveBackShape(q, from, Probation);
    MoveBackLists(q, from, Probation);
    MoveBackShifts(q, from, Probation);
    ShiftedTrans(p, q, MovedBack(q, from, Probation), from, Probation);
  }

  lemma MinimalShift(l: LruList<Id>, m: LruList<Id>, all: seq<Id>, weight: map<Id, int>)
    requires l.items <= all && l.items != [] && l.len > l.capacity && m.capacity == l.capacity
    requires var x := l.items[|l.items| - 1];
      x in weight && m.items == l.items[..|l.items| - 1] && m.len == l.len - weight[x]
    ensures Minimal(m, all, weight)
  {
    assert all[|m.items|] == l.items[|m.items|];
  }

  /** A list that weighs something has an entry. */
  lemma NonEmpty(l: LruList<Id>, w: Id -> int)
    requires Accounts(l, w) && l.len != 0
    ensures l.items != []
  {
  }

  // ----- Evicting -----

  /** policy.Remove. */
  function Removed(p: Policy, x: Id): Policy
    requires x in p.zone && x in ListOf(p, p.zone[x]).items && x in p.weight
  {
    Unlinked(p, x).(weightedSize := p.weightedSize - p.weight[x])
  }

  /** `items` without the entries in `gone`, in order. */
  ghost function Kept(items: seq<Id>, gone: set<Id>): seq<Id> {
    if items == [] then []
    else if items[0] in gone then Kept(items[1..], gone)
    else [items[0]] + Kept(items[1..], gone)
  }

  lemma {:induction false} KeptElements(items: seq<Id>, gone: set<Id>)
    ensures forall x :: x in Kept(items, gone) <==> x in items && x !in gone
  {
    if items != [] {
      KeptElements(items[1..], gone);
      assert forall x :: x in items <==> x == items[0] || x in items[1..];
    }
  }

  lemma {:induction false} KeptSame(items: seq<Id>, gone: set<Id>, x: Id)
    requires x !in items
    ensures Kept(items, gone + {x}) == Kept(items, gone)
  {
    if items != [] {
      KeptSame(items[1..], gone, x);
    }
  }

  lemma {:induction false} KeptNothingGone(items: seq<Id>)
    ensures Kept(items, {}) == items
  {
    if items != [] {
      KeptNothingGone(items[1..]);
    }
  }

  lemma WithoutHead(x: Id, k: seq<Id>)
    ensures Without([x] + k, x) == k
  {
  }

  lemma WithoutCons(y: Id, k: seq<Id>, x: Id)
    requires y != x && x in k
    ensures Without([y] + k, x) == [y] + Without(k, x)
  {
    assert ([y] + k)[1..] == k;
    assert IndexOf([y] + k, x) == 1 + IndexOf(k, x);
  }

  /** One more entry gone is one entry taken out. */
  lemma {:induction false} KeptWithout(items: seq<Id>, gone: set<Id>, x: Id)
    requires NoDup(items) && x in Kept(items, gone)
    ensures Kept(items, gone + {x}) == Without(Kept(items, gone), x)
  {
    var rest := items[1..];
    KeptElements(items, gone);
    if items[0] == x {
      assert x !in rest;
      KeptSame(rest, gone, x);
      WithoutHead(x, Kept(rest, gone));
    } else {
      KeptElements(rest, gone);
      assert x in rest;
      KeptWithout(rest, gone, x);
      if items[0] !in gone {
        WithoutCons(items[0], Kept(rest, gone), x);
      }
    }
  }

  /** q is p after evicting the entries of `gone`, one by one: all others stay where they were, in order. */
  ghost predicate Evicted(p: Policy, q: Policy, gone: seq<Id>) {
    && NoDup(gone) && Elements(gone) <= p.zone.Keys
    && (forall z: Zone ::
          && ListOf(q, z).items == Kept(ListOf(p, z).items, Elements(gone))
          && ListOf(q, z).capacity == ListOf(p, z).capacity)
    && q.zone == p.zone - Elements(gone)
    && q.weight == p.weight && q.capacity == p.capacity
  }

  lemma EvictNone(p: Policy)
    ensures Evicted(p, p, [])
  {
    KeptNothingGone(p.window.items);
    KeptNothingGone(p.probation.items);
    KeptNothingGone(p.protected.items);
    assert Elements<Id>([]) == {};
    assert p.zone - {} == p.zone;
  }

  lemma RemoveFrom(p: Policy, x: Id, z: Zone)
    requires Shape(p) && x in p.zone && x in ListOf(p, p.zone[x]).items
    ensures ListOf(Removed(p, x), z).capacity == ListOf(p, z).capacity
    ensures ListOf(Removed(p, x), z).items == if p.zone[x] == z then Without(ListOf(p, z).items, x)
      else ListOf(p, z).items
  {
  }

  lemma EvictOne(p: Policy, q: Policy, gone: seq<Id>, x: Id)
    requires Shape(p) && Shape(q) && Evicted(p, q, gone) && x in q.zone && x in ListOf(q, q.zone[x]).items
    ensures Evicted(p, Removed(q, x), gone + [x])
  {
    var r := Removed(q, x);
    assert Elements(gone + [x]) == Elements(gone) + {x};
    assert p.zone - (Elements(gone) + {x}) == (p.zone - Elements(gone)) - {x};
    forall z: Zone
      ensures ListOf(r, z).items == Kept(ListOf(p, z).items, Elements(gone) + {x}) &&
        ListOf(r, z).capacity == ListOf(p, z).capacity
    {
      RemoveFrom(q, x, z);
      if q.zone[x] == z {
        KeptWithout(ListOf(p, z).items, Elements(gone), x);
      } else {
        assert p.zone[x] == q.zone[x];
        KeptSame(ListOf(p, z).items, Elements(gone), x);
      }
    }
  }

  lemma RemoveSoundly(p: Policy, x: Id)
    requires Sound(p) && x in p.zone
    ensures x in ListOf(p, p.zone[x]).items && Sound(Removed(p, x))
    ensures Removed(p, x).weightedSize == p.weightedSize - p.weight[x]
  {
    UnlinkShape(p, x);
  }

  lemma EmptyTotal(p: Policy)
    requires Sound(p) && p.window.items == [] && p.probation.items == [] && p.protected.items == []
    ensures p.weightedSize == 0
  {
  }

  /** The guard `candidate.policyWeight > weightedSize` of the eviction loop never holds. */
  lemma WeightWithinTotal(p: Policy, x: Id)
    requires Sound(p) && x in p.zone
    ensures p.weight[x] <= p.weightedSize
  {
    ListNonNegative(p, Window);
    ListNonNegative(p, Probation);
    ListNonNegative(p, Protected);
    assert x in ListOf(p, p.zone[x]).items;
  }

  lemma ListNonNegative(p: Policy, z: Zone)
    requires Shape(p)
    ensures ListOf(p, z).len >= 0
    ensures forall x :: x in ListOf(p, z).items ==> x in p.weight && p.weight[x] <= ListOf(p, z).len
  {
    var w := W(p.weight);
    forall x | x in ListOf(p, z).items
      ensures w(x) >= 0 && x in p.weight
    {
      assert x in p.zone;
    }
    TallyNonNegative(ListOf(p, z).items, w);
    assert forall x :: x in ListOf(p, z).items ==> w(x) <= ListOf(p, z).len;
  }

  /** The lists after removing the entry of list `z`. */
  lemma RemoveFromAll(q: Policy, x: Id, z: Zone)
    requires Shape(q) && x in ListOf(q, z).items
    ensures x in q.zone && q.zone[x] == z && x in q.weight
    ensures ListOf(Removed(q, x), z).items == Without(ListOf(q, z).items, x)
    ensures z != Window ==> Removed(q, x).window.items == q.window.items
    ensures z != Probation ==> Removed(q, x).probation.items == q.probation.items
    ensures z != Protected ==> Removed(q, x).protected.items == q.protected.items
    ensures forall y :: y in Without(ListOf(q, z).items, x) <==> y in ListOf(q, z).items && y != x
  {
    ListOfSound(q, z);
    WithoutKeeps(ListOf(q, z).items, x);
    RemoveFrom(q, x, Window);
    RemoveFrom(q, x, Probation);
    RemoveFrom(q, x, Protected);
  }

  // ----- The cursors of the eviction loop -----

  /** The victim is the back of its queue, every queue left behind is empty, and the candidate, if any,
      is in the queue it is taken from. */
  ghost predicate Cursors(q: Policy, victimQueue: Zone, victim: Option<Id>, candidateQueue: Zone,
      candidate: Option<Id>) {
    && victim == ListOf(q, victimQueue).Back()
    && (victimQueue != Probation ==> q.probation.items == [])
    && (victimQueue == Window ==> q.protected.items == [])
    && candidateQueue != Protected
    && (candidate.Some? ==> candidate.value in ListOf(q, candidateQueue).items)
  }

  lemma CursorsStart(q: Policy, first: Option<Id>)
    requires first.Some? ==> first.value in q.probation.items
    ensures Cursors(q, Probation, q.probation.Back(), Probation, first)
  {
  }

  /** When the first candidates run out, the next come from the back of the window. */
  lemma CursorsRefill(q: Policy, vq: Zone, victim: Option<Id>)
    requires Cursors(q, vq, victim, Probation, None)
    ensures Cursors(q, vq, victim, Window, q.window.Back())
  {
  }

  /** A queue is left only when it is empty. */
  lemma CursorsNextQueue(q: Policy, vq: Zone, cq: Zone)
    requires Cursors(q, vq, None, cq, None)
    ensures vq == Probation ==> Cursors(q, Protected, q.protected.Back(), cq, None)
    ensures vq == Protected ==> Cursors(q, Window, q.window.Back(), cq, None)
    ensures vq == Window && Sound(q) ==> q.weightedSize == 0
  {
    if vq == Window && Sound(q) {
      EmptyTotal(q);
    }
  }

  lemma CursorsKnown(q: Policy, vq: Zone, victim: Option<Id>, cq: Zone, candidate: Option<Id>)
    requires Shape(q) && Cursors(q, vq, victim, cq, candidate)
    ensures candidate.Some? ==> candidate.value in q.weight
  {
    if candidate.Some? {
      RemoveFromAll(q, candidate.value, cq);
    }
  }

  lemma CandidateLight(q: Policy, vq: Zone, victim: Option<Id>, cq: Zone, candidate: Option<Id>)
    requires Sound(q) && Cursors(q, vq, victim, cq, candidate)
    ensures candidate.Some? ==> candidate.value in q.weight && q.weight[candidate.value] <= q.weightedSize
  {
    CursorsKnown(q, vq, victim, cq, candidate);
    if candidate.Some? {
      RemoveFromAll(q, candidate.value, cq);
      WeightWithinTotal(q, candidate.value);
    }
  }

  lemma BackAfterRemove(items: seq<Id>, x: Id)
    requires NoDup(items) && x in items
    ensures var left := Without(items, x);
      && (x == items[|items| - 1] ==> PrevOf(items, x) == if left == [] then None else Some(left[|left| - 1]))
      && (x != items[|items| - 1] ==> left != [] && left[|left| - 1] == items[|items| - 1])
      && (PrevOf(items, x).Some? ==> PrevOf(items, x).value in left)
  {
    WithoutKeeps(items, x);
    if x == items[|items| - 1] {
      LastIndex(items);
    }
  }

  /** After evicting the victim, the entry before it is the back of its queue. */
  lemma VictimGone(q: Policy, vq: Zone, victim: Id, cq: Zone, candidate: Option<Id>)
    requires Shape(q) && Cursors(q, vq, Some(victim), cq, candidate) && candidate != Some(victim)
    ensures victim in q.zone && q.zone[victim] == vq && victim in ListOf(q, vq).items
    ensures Cursors(Removed(q, victim), vq, PrevOf(ListOf(q, vq).items, victim), cq, candidate)
  {
    assert victim in ListOf(q, vq).items;
    ListOfSound(q, vq);
    RemoveFromAll(q, victim, vq);
    BackAfterRemove(ListOf(q, vq).items, victim);
    CursorsRemain(q, Removed(q, victim), vq, victim, cq, candidate);
  }

  lemma CursorsRemain(q: Policy, r: Policy, vq: Zone, victim: Id, cq: Zone, candidate: Option<Id>)
    requires Cursors(q, vq, Some(victim), cq, candidate) && candidate != Some(victim) && victim in ListOf(q, vq).items
    requires ListOf(r, vq).items == Without(ListOf(q, vq).items, victim)
    requires forall y :: y in Without(ListOf(q, vq).items, victim) <==> y in ListOf(q, vq).items && y != victim
    requires vq != Window ==> r.window.items == q.window.items
    requires vq != Probation ==> r.probation.items == q.probation.items
    requires vq != Protected ==> r.protected.items == q.protected.items
    requires PrevOf(ListOf(q, vq).items, victim) == ListOf(r, vq).Back()
    ensures Cursors(r, vq, PrevOf(ListOf(q, vq).items, victim), cq, candidate)
  {
  }

  /** After evicting a candidate that is not the victim, the victim is still the back of its queue. */
  lemma CandidateGone(q: Policy, vq: Zone, victim: Option<Id>, cq: Zone, candidate: Id)
    requires Shape(q) && Cursors(q, vq, victim, cq, Some(candidate)) && victim != Some(candidate)
    ensures candidate in q.zone && q.zone[candidate] == cq && candidate in ListOf(q, cq).items
    ensures Cursors(Removed(q, candidate), vq, victim, cq, PrevOf(ListOf(q, cq).items, candidate))
  {
    ListOfSound(q, cq);
    RemoveFromAll(q, candidate, cq);
    BackAfterRemove(ListOf(q, cq).items, candidate);
  }

  lemma SmallerMap(zone: map<Id, Zone>, x: Id)
    requires x in zone
    ensures |zone - {x}| == |zone| - 1
  {
    assert (zone - {x}).Keys == zone.Keys - {x};
  }

  /** What eviction leaves weighs no more than what was there. */
  lemma {:induction false} KeptTally(items: seq<Id>, gone: set<Id>, w: Id -> int)
    requires forall x :: x in items ==> w(x) >= 0
    ensures Tally(Kept(items, gone), w) <= Tally(items, w)
  {
    if items != [] {
      KeptTally(items[1..], gone, w);
      TallyPush(Kept(items[1..], gone), items[0], w);
    }
  }

  lemma EvictedLighter(p: Policy, q: Policy, gone: seq<Id>, z: Zone)
    requires Shape(p) && Shape(q) && Evicted(p, q, gone)
    ensures ListOf(q, z).len <= ListOf(p, z).len
  {
    var w := W(p.weight);
    forall x | x in ListOf(p, z).items
      ensures w(x) >= 0
    {
      assert x in p.zone;
    }
    KeptTally(ListOf(p, z).items, Elements(gone), w);
  }

  /** q has the entries of p less those of `gone`, each once, at the same weights and capacities. */
  ghost predicate Fitted(p: Policy, q: Policy, gone: seq<Id>) {
    && NoDup(gone) && Elements(gone) <= p.zone.Keys && q.zone.Keys == p.zone.Keys - Elements(gone)
    && q.weight == p.weight && q.capacity == p.capacity
    && q.window.capacity == p.window.capacity && q.probation.capacity == p.probation.capacity &&
      q.protected.capacity == p.protected.capacity
  }

  /** q is p with entries from the back of probation pushed onto the window, then some from the back of
      protected. */
  ghost predicate Grown(p: Policy, q: Policy) {
    && q.weight == p.weight && q.weightedSize == p.weightedSize && q.capacity == p.capacity &&
      q.zone.Keys == p.zone.Keys
    && q.probation.items <= p.probation.items && q.protected.items <= p.protected.items
    && q.window.items == Pulled(p, q) + p.window.items && q.protected.len <= p.protected.len
    && q.window.capacity == p.window.capacity && q.probation.capacity == p.probation.capacity &&
      q.protected.capacity == p.protected.capacity
  }

  /** What q lacks at the backs of protected and probation. */
  ghost function Pulled(p: Policy, q: Policy): seq<Id>
    requires q.probation.items <= p.probation.items && q.protected.items <= p.protected.items
  {
    p.protected.items[|q.protected.items|..] + p.probation.items[|q.probation.items|..]
  }

  lemma GrowStep(p: Policy, q: Policy, from: Zone)
    requires from == Probation ==> q.protected == p.protected
    requires Grown(p, q) && Shape(q) && from != Window && ListOf(q, from).items != []
    ensures Movable(q, from) && Grown(p, MovedBack(q, from, Window))
    ensures var r, x := MovedBack(q, from, Window), ListOf(q, from).items[|ListOf(q, from).items| - 1];
      && r.window.len == q.window.len + q.weight[x]
      && |r.probation.items| + |r.protected.items| == |q.probation.items| + |q.protected.items| - 1
  {
    MoveBackShape(q, from, Window);
    MoveBackLists(q, from, Window);
    var items := ListOf(q, from).items;
    var x := items[|items| - 1];
    assert x in q.zone;
    assert MovedBack(q, from, Window).window.items == [x] + q.window.items;
    assert q.zone[x := Window].Keys == q.zone.Keys;
  }

  /** Nothing at the back of the list is light enough to move. */
  ghost predicate TooHeavy(l: LruList<Id>, weight: map<Id, int>, amount: int) {
    l.items == [] || (l.items[|l.items| - 1] in weight && weight[l.items[|l.items| - 1]] > amount)
  }

  lemma BackKnown(p: Policy, z: Zone)
    requires Shape(p) && ListOf(p, z).items != []
    ensures var x := ListOf(p, z).items[|ListOf(p, z).items| - 1];
      x in p.zone && p.zone[x] == z && x in p.weight && p.weight[x] >= 0
  {
    ListOfSound(p, z);
    var l := ListOf(p, z);
    var x := l.items[|l.items| - 1];
    assert x in l.items;
  }

  /** Shift `amount` of capacity from protected to the window. */
  ghost function Recapped(p: Policy, amount: int): Policy {
    p.(window := p.window.(capacity := p.window.capacity + amount),
        protected := p.protected.(capacity := p.protected.capacity - amount))
  }

  /** q is p with the shortest needed tail of protected moved to probation. */
  ghost predicate Demoted(p: Policy, q: Policy) {
    && Shifted(p, q, Protected, Probation) && Minimal(q.protected, p.protected.items, p.weight)
    && q.protected.len <= q.protected.capacity
  }

  /** Entries were moved as far as whole entries allow: into the window from the back of probation until that
      does not fit, then from the back of protected until neither does; or out of the window's back. */
  ghost predicate MovedBy(p: Policy, q: Policy, amount: int, remain: int) {
    if amount > 0 then
      && q.probation.items <= p.probation.items && q.protected.items <= p.protected.items
      && q.window.items == Pulled(p, q) + p.window.items
      && TooHeavy(q.probation, q.weight, remain + p.protected.len - q.protected.len)
      && TooHeavy(q.probation, q.weight, remain) && TooHeavy(q.protected, q.weight, remain)
    else if amount < 0 then
      && q.window.items <= p.window.items && q.window.items + q.probation.items == p.window.items + p.probation.items
      && q.protected.items == p.protected.items && TooHeavy(q.window, q.weight, -remain)
    else
      q.window.items == p.window.items && q.probation.items == p.probation.items &&
          q.protected.items == p.protected.items
  }

  /** q is p resized: protected demoted to its new capacity, then entries moved. */
  ghost predicate Resized(p: Policy, demoted: Policy, q: Policy, amount: int, remain: int) {
    && demoted.window.items == p.window.items && demoted.protected.items <= p.protected.items
    && demoted.protected.items + demoted.probation.items == p.protected.items + p.probation.items
    && demoted.protected.capacity == p.protected.capacity - amount
    && Minimal(demoted.protected, p.protected.items, p.weight) && demoted.protected.len <= demoted.protected.capacity
    && MovedBy(demoted, q, amount, remain)
    && q.window.capacity == p.window.capacity + amount - remain
    && q.protected.capacity == p.protected.capacity - amount + remain
  }

  /** The nearest to `proposal` that leaves the window a capacity of at least 1 and protected at least 0. */
  function Clamp(proposal: int, window: int, protected: int): (amount: int)
    requires window >= 1 && protected >= 0
    ensures window + amount >= 1 && protected - amount >= 0
    ensures forall a :: window + a >= 1 && protected - a >= 0 ==> Distance(proposal, amount) <= Distance(proposal, a)
  {
    if proposal > protected then protected else if proposal < -(window - 1) then -(window - 1) else proposal
  }

  function Distance(a: int, b: int): int {
    if a < b then b - a else a - b
  }

  /** q is p, resized first if a sample was full. */
  ghost predicate Started(p: Policy, full: bool, proposal: int, q: Policy, remain: int)
    requires p.window.capacity >= 1 && p.protected.capacity >= 0
  {
    if full then
      exists d :: Resized(p, d, q, Clamp(proposal, p.window.capacity, p.protected.capacity), remain)
    else q == p
  }

  lemma ResizeSteps(p: Policy, demoted: Policy, moved: Policy, amount: int, remain: int)
    requires Demoted(Recapped(p, amount), demoted) && MovedBy(demoted, moved, amount, remain)
    requires moved.window.capacity == demoted.window.capacity && moved.protected.capacity == demoted.protected.capacity
    ensures Resized(p, demoted, Recapped(moved, -remain), amount, remain)
  {
  }

  lemma RecapShape(p: Policy, amount: int)
    requires Shape(p) && p.window.capacity + amount >= 1 && p.protected.capacity - amount >= 0
    ensures Shape(Recapped(p, amount)) && Total(Recapped(p, amount)) == Total(p)
  {
  }

  // ----- Touching and reweighing one entry -----

  function Promotion(z: Zone): Zone {
    if z == Window then Window else Protected
  }

  /** An accessed entry goes to the front of the window, or to the front of protected. */
  function Touched(p: Policy, x: Id): Policy
    requires x in p.zone && x in ListOf(p, p.zone[x]).items && x in p.weight
  {
    Linked(Unlinked(p, x), Promotion(p.zone[x]), x)
  }

  /** The entry is in the list its flag names, and has a weight. */
  ghost predicate Linkable(p: Policy, x: Id) {
    x in p.zone && x in ListOf(p, p.zone[x]).items && x in p.weight
  }

  /** What an access does, list by list: an entry of the window or of protected goes to the front of its own
      list, an entry of probation to the front of protected; nothing else moves. */
  ghost predicate MovedUp(p: Policy, q: Policy, x: Id) {
    && x in p.zone
    && match p.zone[x]
       case Window =>
         && x in p.window.items && q.window.items == [x] + Without(p.window.items, x)
         && q.zone == p.zone && q.probation == p.probation && q.protected == p.protected
       case Probation =>
         && x in p.probation.items && q.probation.items == Without(p.probation.items, x)
         && q.protected.items == [x] + p.protected.items
         && q.zone == p.zone[x := Protected] && q.window == p.window
       case Protected =>
         && x in p.protected.items && q.protected.items == [x] + Without(p.protected.items, x)
         && q.zone == p.zone && q.window == p.window && q.probation == p.probation
  }

  /** What a removal does, list by list. */
  ghost predicate TakenOut(p: Policy, q: Policy, x: Id) {
    && x in p.zone && q.zone == p.zone - {x}
    && match p.zone[x]
       case Window =>
         && x in p.window.items && q.window.items == Without(p.window.items, x)
         && q.probation == p.probation && q.protected == p.protected
       case Probation =>
         && x in p.probation.items && q.probation.items == Without(p.probation.items, x)
         && q.window == p.window && q.protected == p.protected
       case Protected =>
         && x in p.protected.items && q.protected.items == Without(p.protected.items, x)
         && q.window == p.window && q.probation == p.probation
  }

  lemma RemovedTakesOut(p: Policy, x: Id)
    requires Linkable(p, x)
    ensures TakenOut(p, Removed(p, x), x) && Removed(p, x).weightedSize == p.weightedSize - p.weight[x]
  {
  }

  lemma TouchedMovesUp(p: Policy, x: Id)
    requires Linkable(p, x)
    ensures MovedUp(p, Touched(p, x), x) && Touched(p, x).weightedSize == p.weightedSize
  {
    var z := Promotion(p.zone[x]);
    assert (p.zone - {x})[x := z] == p.zone[x := z];
    assert p.zone[x := p.zone[x]] == p.zone;
  }

  lemma TouchSound(p: Policy, x: Id)
    requires Sound(p) && x in p.zone
    ensures x in ListOf(p, p.zone[x]).items && x in p.weight && Sound(Touched(p, x))
    ensures MovedUp(p, Touched(p, x), x)
  {
    UnlinkShape(p, x);
    LinkShape(Unlinked(p, x), Promotion(p.zone[x]), x);
    TouchedMovesUp(p, x);
  }

  /** The policy before the weight of `x` was changed by `change`. */
  function Earlier(p: Policy, x: Id, change: int): Policy
    requires x in p.weight
  {
    p.(weight := p.weight[x := p.weight[x] - change])
  }

  function Reweighed(p: Policy, x: Id, change: int): Policy
    requires x in p.zone
  {
    var l := ListOf(p, p.zone[x]);
    WithList(p, p.zone[x], l.(len := l.len + change)).(weightedSize := p.weightedSize + change)
  }

  /** q is p once the changed weight of `x` is accounted for and `x` is removed, if it can never fit, or touched. */
  ghost predicate SettledTo(p: Policy, q: Policy, x: Id, change: int)
    requires x in p.zone && x in p.weight
  {
    var r := Reweighed(p, x, change);
    Linkable(r, x) && q == if p.weight[x] > p.capacity then Removed(r, x) else Touched(r, x)
  }

  /** What settling does, list by list. */
  lemma SettledLists(p: Policy, q: Policy, x: Id, change: int)
    requires x in p.zone && x in p.weight && SettledTo(p, q, x, change)
    ensures p.weight[x] > p.capacity ==>
      TakenOut(p, q, x) && q.weightedSize == p.weightedSize + change - p.weight[x]
    ensures p.weight[x] <= p.capacity ==> MovedUp(p, q, x) && q.weightedSize == p.weightedSize + change
  {
    var r := Reweighed(p, x, change);
    if p.weight[x] > p.capacity {
      RemovedTakesOut(r, x);
    } else {
      TouchedMovesUp(r, x);
    }
  }

  lemma ReweighList(l: LruList<Id>, z: Zone, zone: map<Id, Zone>, before: map<Id, int>, weight: map<Id, int>, x: Id)
    requires ListSound(l, z, zone, before) && x in weight && x in before && before == weight[x := before[x]]
    ensures x in zone && zone[x] == z ==> ListSound(l.(len := l.len + weight[x] - before[x]), z, zone, weight)
    ensures !(x in zone && zone[x] == z) ==> ListSound(l, z, zone, weight)
  {
    var f, g := W(before), W(weight);
    if x in l.items {
      TallyChange(l.items, x, f, g);
    } else {
      TallyAgree(l.items, f, g);
    }
  }

  /** The accounting catches up with a weight that was changed first. */
  lemma ReweighSound(p: Policy, x: Id, change: int)
    requires x in p.zone && x in p.weight && p.weight[x] >= 0 && Sound(Earlier(p, x, change))
    ensures Sound(Reweighed(p, x, change))
  {
    var e := Earlier(p, x, change);
    ReweighList(p.window, Window, p.zone, e.weight, p.weight, x);
    ReweighList(p.probation, Probation, p.zone, e.weight, p.weight, x);
    ReweighList(p.protected, Protected, p.zone, e.weight, p.weight, x);
  }

  /** The policy once the unlinked entry `x` is counted and put at the front of the window. */
  function Entered(p: Policy, x: Id): Policy
    requires x in p.weight
  {
    Linked(p, Window, x).(weightedSize := p.weightedSize + p.weight[x])
  }

  lemma EnteredLists(p: Policy, x: Id)
    requires x in p.weight
    ensures var q := Entered(p, x);
      && q.window.items == [x] + p.window.items && q.probation == p.probation && q.protected == p.protected
      && q.zone == p.zone[x := Window] && q.weightedSize == p.weightedSize + p.weight[x]
      && q.window.len == p.window.len + p.weight[x] && q.window.count == p.window.count + 1
  {
  }

  /** q is p with the shortest needed tail of the window moved to probation. */
  ghost predicate Sifted(p: Policy, q: Policy) {
    && Shifted(p, q, Window, Probation) && Minimal(q.window, p.window.items, p.weight)
    && q.window.len <= q.window.capacity
  }

  /** What an admission goes by: the frequencies, and the random number for the i-th eviction. */
  datatype Admission = Admission(freq: Id -> int, rand: int -> int)

  /** Which of the two cursors is evicted: by frequency, unless the candidate outweighs the whole
      cache, which WeightWithinTotal rules out. */
  predicate Chosen(x: Id, victim: Option<Id>, candidate: Option<Id>, oversized: bool, rule: Admission, i: nat) {
    if victim.None? then candidate == Some(x)
    else if candidate.None? || victim == candidate then victim == Some(x)
    else if oversized then candidate == Some(x)
    else
      var c, v := rule.freq(candidate.value), rule.freq(victim.value);
      x == if c > v || (c >= 6 && rule.rand(i) % 128 == 0) then victim.value else candidate.value
  }

  /** The order in which queues give victims. */
  function Rank(z: Zone): nat {
    match z case Probation => 2 case Protected => 1 case Window => 0
  }

  /** One round of the eviction loop: the policy and its cursors just before the eviction. */
  datatype Round = Round(q: Policy, victimQueue: Zone, victim: Option<Id>, candidateQueue: Zone, candidate: Option<Id>)

  /** The round started too heavy, from `p` less `gone`, with proper cursors, and evicted what they decide. */
  ghost predicate Decides(p: Policy, gone: seq<Id>, r: Round, x: Id, rule: Admission) {
    && Sound(r.q) && Evicted(p, r.q, gone) && r.q.weightedSize > r.q.capacity
    && Cursors(r.q, r.victimQueue, r.victim, r.candidateQueue, r.candidate)
    && Chosen(x, r.victim, r.candidate, false, rule, |gone|)
  }

  /** Every eviction was needed and was decided by the cursors of its round. */
  ghost predicate Decided(p: Policy, gone: seq<Id>, rounds: seq<Round>, rule: Admission) {
    |rounds| == |gone| && forall i :: 0 <= i < |gone| ==> Decides(p, gone[..i], rounds[i], gone[i], rule)
  }

  /** The first round is decided in the policy the loop started from. */
  lemma FirstRound(p: Policy, first: Option<Id>, gone: seq<Id>, rounds: seq<Round>, rule: Admission)
    requires Decided(p, gone, rounds, rule) && Traced(first, gone, rounds)
    ensures rounds != [] && first.Some? ==> rounds[0].candidate == first && rounds[0].candidateQueue == Probation
    ensures rounds != [] && first.None? ==>
      rounds[0].candidate == p.window.Back() && rounds[0].candidateQueue == Window
  {
    if rounds != [] {
      assert Decides(p, gone[..0], rounds[0], gone[0], rule);
      assert Elements(gone[..0]) == {};
      KeptNothingGone(p.window.items);
      assert ListOf(rounds[0].q, Window).items == Kept(ListOf(p, Window).items, {});
    }
  }

  lemma DecideOne(p: Policy, gone: seq<Id>, gone': seq<Id>, rounds: seq<Round>, r: Round, rule: Admission)
    requires Decided(p, gone, rounds, rule) && |gone'| == |gone| + 1 && gone'[..|gone|] == gone
    requires Decides(p, gone, r, gone'[|gone|], rule)
    ensures Decided(p, gone', rounds + [r], rule)
  {
    var all := rounds + [r];
    forall i | 0 <= i < |gone'|
      ensures Decides(p, gone'[..i], all[i], gone'[i], rule)
    {
      if i < |gone| {
        assert gone'[..|gone|][i] == gone'[i] && gone'[..i] == gone[..i];
      }
    }
  }

  /** Where the candidate cursor goes: on to the entry before it, except that it ends when it met the victim. */
  ghost predicate Advanced(x: Id, victim: Option<Id>, candidate: Option<Id>, candidate': Option<Id>, was: seq<Id>,
      now: seq<Id>) {
    if candidate.None? || victim == candidate then candidate' == None
    else if x == candidate.value then x in was && candidate' == PrevOf(was, x)
    else candidate.value in now && candidate' == PrevOf(now, candidate.value)
  }

  /** The two cursors, before they are refilled and moved on for the next round. */
  datatype Cursor = Cursor(candidate: Option<Id>, candidateQueue: Zone, victimQueue: Zone)

  /** When the entries pushed out of the window are used up as candidates, the next come from the back of
      the window. The queue is then the window for good, so this happens once. */
  ghost predicate Refilled(q: Policy, was: Cursor, candidate: Option<Id>, candidateQueue: Zone) {
    if was.candidate.None? && was.candidateQueue == Probation then
      candidate == q.window.Back() && candidateQueue == Window
    else
      candidate == was.candidate && candidateQueue == was.candidateQueue
  }

  /** The queue that gives the victim: with no candidate left, the first that is not empty of probation,
      protected and window, from `z` on. */
  ghost function Turn(q: Policy, z: Zone, candidate: Option<Id>): Zone
    decreases Rank(z)
  {
    if candidate.Some? || ListOf(q, z).items != [] || z == Window then z
    else Turn(q, if z == Probation then Protected else Window, candidate)
  }

  /** The round has the cursors that come of `was`. */
  ghost predicate Takes(r: Round, was: Cursor) {
    Refilled(r.q, was, r.candidate, r.candidateQueue) && r.victimQueue == Turn(r.q, was.victimQueue, r.candidate)
  }

  /** Where round r leaves the cursors, once `x` is evicted and the policy is q. */
  ghost predicate Leaves(r: Round, x: Id, q: Policy, next: Cursor) {
    && next.candidateQueue == r.candidateQueue && next.victimQueue == r.victimQueue
    && Advanced(x, r.victim, r.candidate, next.candidate,
                ListOf(r.q, r.candidateQueue).items, ListOf(q, r.candidateQueue).items)
  }

  /** The cursors of round r' follow from round r, which evicted `x`. */
  ghost predicate Succeeds(r: Round, x: Id, r': Round) {
    exists next :: Leaves(r, x, r'.q, next) && Takes(r', next)
  }

  /** The cursors of the first round come of `first`, the first entry pushed out of the window; those of every
      other follow from the round before. */
  ghost predicate Traced(first: Option<Id>, gone: seq<Id>, rounds: seq<Round>) {
    && |rounds| == |gone|
    && (rounds != [] ==> Takes(rounds[0], Cursor(first, Probation, Probation)))
    && forall i :: 0 <= i < |rounds| - 1 ==> Succeeds(rounds[i], gone[i], rounds[i + 1])
  }

  /** The cursors as the last round left them. */
  ghost predicate Resumes(first: Option<Id>, gone: seq<Id>, rounds: seq<Round>, q: Policy, was: Cursor) {
    && |rounds| == |gone|
    && if rounds == [] then was == Cursor(first, Probation, Probation)
       else Leaves(rounds[|rounds| - 1], gone[|gone| - 1], q, was)
  }

  lemma TraceOne(first: Option<Id>, gone: seq<Id>, gone': seq<Id>, rounds: seq<Round>, r: Round, was: Cursor)
    requires Traced(first, gone, rounds) && Resumes(first, gone, rounds, r.q, was) && Takes(r, was)
    requires |gone'| == |gone| + 1 && gone'[..|gone|] == gone
    ensures Traced(first, gone', rounds + [r])
  {
    var all := rounds + [r];
    forall i | 0 <= i < |all| - 1
      ensures Succeeds(all[i], gone'[i], all[i + 1])
    {
      assert gone'[..|gone|][i] == gone'[i];
      if i < |rounds| - 1 {
        assert Succeeds(rounds[i], gone[i], rounds[i + 1]);
      }
    }
  }

  /** Refilling and moving on in steps leads where doing it at once does. */
  ghost predicate OnTheWay(q: Policy, was: Cursor, candidate: Option<Id>, candidateQueue: Zone, victimQueue: Zone) {
    && (Refilled(q, was, candidate, candidateQueue) || Cursor(candidate, candidateQueue, victimQueue) == was)
    && (Refilled(q, was, candidate, candidateQueue) ==>
      Turn(q, victimQueue, candidate) == Turn(q, was.victimQueue, candidate))
  }

  lemma Arrived(r: Round, was: Cursor)
    requires OnTheWay(r.q, was, r.candidate, r.candidateQueue, r.victimQueue)
    requires r.candidate.None? ==> r.candidateQueue != Probation && ListOf(r.q, r.victimQueue).items != []
    ensures Takes(r, was)
  {
  }

  /** The records after one more round. */
  lemma RecordRound(p: Policy, first: Option<Id>, gone: seq<Id>, gone': seq<Id>, rounds: seq<Round>, r: Round,
                    was: Cursor, q: Policy, next: Cursor, rule: Admission)
    requires Decided(p, gone, rounds, rule) && Traced(first, gone, rounds) && Resumes(first, gone, rounds, r.q, was)
    requires Takes(r, was) && |gone'| == |gone| + 1 && gone'[..|gone|] == gone
    requires Decides(p, gone, r, gone'[|gone|], rule) && Leaves(r, gone'[|gone|], q, next)
    ensures Decided(p, gone', rounds + [r], rule) && Traced(first, gone', rounds + [r])
    ensures Resumes(first, gone', rounds + [r], q, next)
    ensures OnTheWay(q, next, next.candidate, next.candidateQueue, next.victimQueue)
  {
    DecideOne(p, gone, gone', rounds, r, rule);
    TraceOne(first, gone, gone', rounds, r, was);
  }

  /** The first entry pushed out of the window, if any was. */
  function PushedOut(p: Policy, q: Policy): Option<Id> {
    if q.window.items == p.window.items then None else p.window.Back()
  }

  lemma JoinGone(gone: seq<Id>, more: seq<Id>, keys: set<Id>)
    requires NoDup(gone) && NoDup(more) && Elements(gone) <= keys && Elements(more) <= keys - Elements(gone)
    ensures NoDup(gone + more) && Elements(gone + more) == Elements(gone) + Elements(more)
  {
    forall i, j | 0 <= i < j < |gone + more|
      ensures (gone + more)[i] != (gone + more)[j]
    {
      if i < |gone| <= j {
        assert gone[i] in Elements(gone) && more[j - |gone|] in Elements(more);
      }
    }
  }

  lemma JoinKeys(gone: seq<Id>, more: seq<Id>, keys: set<Id>, mid: set<Id>, left: set<Id>)
    requires NoDup(gone) && Elements(gone) <= keys && mid == keys - Elements(gone)
    requires NoDup(more) && Elements(more) <= mid && left == mid - Elements(more)
    ensures NoDup(gone + more) && Elements(gone + more) <= keys && left == keys - Elements(gone + more)
  {
    JoinGone(gone, more, keys);
  }

  // ----- The policy object -----

  const ADMIT_HASHDOS_THRESHOLD: int := 6

  class TinyLfu {
    var window: LruList<Id>
    var probation: LruList<Id>
    var protected: LruList<Id>
    var zone: map<Id, Zone>
    var weight: map<Id, int>
    var weightedSize: int
    var capacity: int
    var amount: int
    var hitsInSample: int
    var missesInSample: int
    var sampleSize: int

    ghost function Model(): Policy
      reads this
    {
      Policy(window, probation, protected, zone, weight, weightedSize, capacity)
    }

    ghost predicate Valid()
      reads this
    {
      Sound(Model())
    }

    constructor (size: int, windowSize: int, protectedSize: int, sampleSize: int)
      requires size >= 0 && windowSize >= 1 && protectedSize >= 0
      ensures Valid() && zone == map[] && weightedSize == 0 && capacity == size
    {
      window, probation, protected := LruList([], 0, 0, windowSize), LruList([], 0, 0, 0),
          LruList([], 0, 0, protectedSize);
      zone, weight, weightedSize, capacity := map[], map[], 0, size;
      amount, hitsInSample, missesInSample := 0, 0, 0;
      this.sampleSize := sampleSize;
    }

    /** List.remove. */
    method Unlink(x: Id)
      requires x in zone && x in ListOf(Model(), zone[x]).items && x in weight
      modifies this`window, this`probation, this`protected, this`zone
      ensures Model() == Unlinked(old(Model()), x)
    {
      match zone[x] {
        case Window => window := window.RemoveAt(IndexOf(window.items, x), weight[x]);
        case Probation => probation := probation.RemoveAt(IndexOf(probation.items, x), weight[x]);
        case Protected => protected := protected.RemoveAt(IndexOf(protected.items, x), weight[x]);
      }
      zone := zone - {x};
    }

    /** List.PushFront. */
    method PushFront(z: Zone, x: Id)
      requires x in weight
      modifies this`window, this`probation, this`protected, this`zone
      ensures Model() == Linked(old(Model()), z, x)
    {
      match z {
        case Window => window := window.PushFront(x, weight[x]);
        case Probation => probation := probation.PushFront(x, weight[x]);
        case Protected => protected := protected.PushFront(x, weight[x]);
      }
      zone := zone[x := z];
    }

    /** PopTail of one list, PushFront on another. */
    method MoveBack(from: Zone, to: Zone) returns (x: Id)
      requires Movable(Model(), from)
      modifies this`window, this`probation, this`protected, this`zone
      ensures x == old(ListOf(Model(), from).items[|ListOf(Model(), from).items| - 1])
      ensures Model() == MovedBack(old(Model()), from, to)
    {
      var items :=
        match from
        case Window => window.items
        case Probation => probation.items
        case Protected => protected.items;
      x := items[|items| - 1];
      Unlink(x);
      PushFront(to, x);
    }

    /** Part-way through moving entries from the back of `from` to probation. */
    ghost predicate Sifting(start: Policy, from: Zone)
      reads this
    {
      Shape(Model()) && Total(Model()) == Total(start) && Shifted(start, Model(), from, Probation)
    }

    /** PopTail of the window or protected, PushFront on probation. */
    method Sift(from: Zone, ghost start: Policy) returns (x: Id)
      requires from != Probation && Sifting(start, from) && ListOf(Model(), from).items != []
      modifies this`window, this`probation, this`protected, this`zone
      ensures Sifting(start, from)
      ensures x == old(ListOf(Model(), from).items[|ListOf(Model(), from).items| - 1]) && x in weight
      ensures var l := old(ListOf(Model(), from));
        ListOf(Model(), from) == l.(items := l.items[..|l.items| - 1], len := l.len - weight[x], count := l.count - 1)
      ensures probation.items == [x] + old(probation.items)
    {
      ShiftOne(start, Model(), from);
      x := MoveBack(from, Probation);
    }

    /** Move entries from the back of protected to probation until protected fits. */
    method DemoteFromProtected()
      requires Shape(Model())
      modifies this`window, this`probation, this`protected, this`zone
      ensures Shape(Model()) && Total(Model()) == old(Total(Model()))
      ensures Shifted(old(Model()), Model(), Protected, Probation)
      ensures protected.len <= protected.capacity
      ensures Minimal(protected, old(protected.items), weight)
    {
      while protected.len > protected.capacity
        invariant Sifting(old(Model()), Protected) && Minimal(protected, old(protected.items), weight)
        decreases |protected.items|
      {
        NonEmpty(protected, W(weight));
        ghost var l := protected;
        var _ := Sift(Protected, old(Model()));
        MinimalShift(l, protected, old(protected.items), weight);
      }
    }

    /** Move entries from the back of the window to probation until the window fits. */
    method EvictFromWindow() returns (first: Option<Id>)
      requires Shape(Model())
      modifies this`window, this`probation, this`protected, this`zone
      ensures Shape(Model()) && Total(Model()) == old(Total(Model()))
      ensures Shifted(old(Model()), Model(), Window, Probation)
      ensures window.len <= window.capacity
      ensures Minimal(window, old(window.items), weight)
      ensures first == if window.items == old(window.items) then None else old(window.Back())
      ensures first.Some? ==> first.value in probation.items
    {
      first := None;
      while window.len > window.capacity
        invariant Sifting(old(Model()), Window) && Minimal(window, old(window.items), weight)
        invariant first == if window.items == old(window.items) then None else old(window.Back())
        invariant first.Some? ==> first.value in probation.items
        decreases |window.items|
      {
        NonEmpty(window, W(weight));
        ghost var l := window;
        var victim := Sift(Window, old(Model()));
        MinimalShift(l, window, old(window.items), weight);
        if first.None? {
          first := Some(victim);
        }
      }
    }

    /** policy.Remove; the removal callback is the caller's business. */
    method Remove(x: Id)
      requires Valid() && x in zone
      modifies this`window, this`probation, this`protected, this`zone, this`weightedSize
      ensures x in old(ListOf(Model(), zone[x]).items)
      ensures Valid() && Model() == Removed(old(Model()), x)
      ensures TakenOut(old(Model()), Model(), x) && weightedSize == old(weightedSize) - weight[x]
    {
      RemoveSoundly(Model(), x);
      RemovedTakesOut(Model(), x);
      Unlink(x);
      weightedSize := weightedSize - weight[x];
    }

    /** Frequencies decide; a candidate that is warm but no warmer than the victim gets in once in 128. */
    method Admit(candidateFreq: int, victimFreq: int, rand: int) returns (admitted: bool)
      ensures admitted <==> candidateFreq > victimFreq || (candidateFreq >= 6 && rand % 128 == 0)
    {
      if candidateFreq > victimFreq {
        return true;
      } else if candidateFreq >= ADMIT_HASHDOS_THRESHOLD {
        return rand % 128 == 0;
      }
      return false;
    }

    /** Remove with the callback: `gone` lists the callback's calls. */
    method Evict(x: Id, ghost start: Policy, gone: seq<Id>) returns (gone': seq<Id>)
      requires Valid() && x in zone && Shape(start) && Evicted(start, Model(), gone)
      modifies this`window, this`probation, this`protected, this`zone, this`weightedSize
      ensures x in old(ListOf(Model(), zone[x]).items)
      ensures Valid() && Model() == Removed(old(Model()), x)
      ensures gone' == gone + [x] && Evicted(start, Model(), gone')
      ensures weightedSize == old(weightedSize) - weight[x] && |zone| == |old(zone)| - 1
    {
      RemoveSoundly(Model(), x);
      EvictOne(start, Model(), gone, x);
      SmallerMap(zone, x);
      Remove(x);
      gone' := gone + [x];
    }

    /** Everything the eviction loop keeps. */
    ghost predicate Evicting(start: Policy, gone: seq<Id>, victimQueue: Zone, victim: Option<Id>, candidateQueue: Zone,
        candidate: Option<Id>)
      reads this
    {
      Valid() && Shape(start) && Evicted(start, Model(), gone) &&
          Cursors(Model(), victimQueue, victim, candidateQueue, candidate)
    }

    /** The last eviction was needed. */
    ghost predicate NoneTooMany(gone: seq<Id>)
      reads this
    {
      gone == [] || (gone[|gone| - 1] in weight && weightedSize + weight[gone[|gone| - 1]] > capacity)
    }

    /** The invariant of the eviction loop: proper cursors, no eviction but those the cursors decided, and
        protected untouched while probation lasts. */
    ghost predicate Looping(start: Policy, first: Option<Id>, gone: seq<Id>, rounds: seq<Round>, rule: Admission,
                            was: Cursor, victimQueue: Zone, victim: Option<Id>, candidateQueue: Zone,
                                candidate: Option<Id>)
      reads this
    {
      && Evicting(start, gone, victimQueue, victim, candidateQueue, candidate) && NoneTooMany(gone)
      && Decided(start, gone, rounds, rule) && Traced(first, gone, rounds)
      && Resumes(first, gone, rounds, Model(), was)
      && OnTheWay(Model(), was, candidate, candidateQueue, victimQueue)
      && (victimQueue == Probation ==> protected == start.protected)
    }

    /** Compare candidates with victims and evict until the cache fits. `first` is the first entry
        pushed out of the window, if any. */
    method EvictFromMain(first: Option<Id>, rule: Admission) returns (gone: seq<Id>, ghost rounds: seq<Round>)
      requires Valid() && (first.Some? ==> first.value in probation.items)
      modifies this`window, this`probation, this`protected, this`zone, this`weightedSize
      ensures Valid() && weightedSize <= capacity
      ensures Evicted(old(Model()), Model(), gone) && NoneTooMany(gone)
      ensures Decided(old(Model()), gone, rounds, rule) && Traced(first, gone, rounds)
      ensures rounds != [] && first.Some? ==> rounds[0].candidate == first && rounds[0].candidateQueue == Probation
      ensures rounds != [] && first.None? ==>
        rounds[0].candidate == old(window.Back()) && rounds[0].candidateQueue == Window
      ensures protected == old(protected) || probation.items == []
    {
      gone, rounds := [], [];
      ghost var start := Model();
      StartLooping(first, rule);
      var victimQueue, candidateQueue := Probation, Probation;
      var victim, candidate := probation.Back(), first;
      ghost var was := Cursor(first, Probation, Probation);
      var done := false;
      while weightedSize > capacity && !done
        invariant Looping(start, first, gone, rounds, rule, was, victimQueue, victim, candidateQueue, candidate)
        invariant done ==> weightedSize <= capacity
        decreases |zone|, Rank(victimQueue), if done then 0 else 1
      {
        done, victimQueue, victim, candidateQueue, candidate, gone, rounds, was :=
          Pass(victimQueue, victim, candidateQueue, candidate, rule, start, first, gone, rounds, was);
      }
      EndLooping(start, first, gone, rounds, rule, was, victimQueue, victim, candidateQueue, candidate);
    }

    /** One pass through the loop, and whether it found nothing left to evict. */
    method Pass(victimQueue: Zone, victim: Option<Id>, candidateQueue: Zone, candidate: Option<Id>,
                rule: Admission, ghost start: Policy, ghost first: Option<Id>, gone: seq<Id>,
                ghost rounds: seq<Round>, ghost was: Cursor)
      returns (done: bool, victims: Zone, victim': Option<Id>, candidates: Zone, candidate': Option<Id>, gone': seq<Id>,
               ghost rounds': seq<Round>, ghost was': Cursor)
      requires Looping(start, first, gone, rounds, rule, was, victimQueue, victim, candidateQueue, candidate)
      requires weightedSize > capacity
      modifies this`window, this`probation, this`protected, this`zone, this`weightedSize
      ensures Looping(start, first, gone', rounds', rule, was', victims, victim', candidates, candidate')
      ensures done ==> weightedSize <= capacity
      ensures !done ==> |zone| < |old(zone)| || (|zone| == |old(zone)| && Rank(victims) < Rank(victimQueue))
      ensures done ==> |zone| == |old(zone)| && victims == victimQueue
    {
      candidates, candidate' := candidateQueue, candidate;
      if candidate.None? && candidateQueue == Probation {
        RefillLooping(start, first, gone, rounds, rule, was, victimQueue, victim);
        candidates, candidate' := Window, window.Back();
      }
      done := candidate'.None? && victim.None? && victimQueue == Window;
      if done {
        CursorsNextQueue(Model(), victimQueue, candidates);
        victims, victim', gone', rounds', was' := victimQueue, victim, gone, rounds, was;
      } else {
        victims, victim', candidate', gone', rounds', was' :=
          NextStep(victimQueue, victim, candidates, candidate', rule, start, first, gone, rounds, was);
      }
    }

    /** The rest of a pass through the loop: on to the next victim queue when both cursors are at their end,
        an eviction otherwise. */
    method NextStep(victimQueue: Zone, victim: Option<Id>, candidateQueue: Zone, candidate: Option<Id>,
                    rule: Admission, ghost start: Policy, ghost first: Option<Id>, gone: seq<Id>,
                    ghost rounds: seq<Round>, ghost was: Cursor)
      returns (queue: Zone, victim': Option<Id>, candidate': Option<Id>, gone': seq<Id>,
               ghost rounds': seq<Round>, ghost was': Cursor)
      requires Looping(start, first, gone, rounds, rule, was, victimQueue, victim, candidateQueue, candidate)
      requires candidate.None? ==> candidateQueue != Probation && (victim.Some? || victimQueue != Window)
      requires weightedSize > capacity
      modifies this`window, this`probation, this`protected, this`zone, this`weightedSize
      ensures Looping(start, first, gone', rounds', rule, was', queue, victim', candidateQueue, candidate')
      ensures |zone| < |old(zone)| || (|zone| == |old(zone)| && Rank(queue) < Rank(victimQueue))
    {
      if candidate.None? && victim.None? {
        candidate', gone', rounds', was' := candidate, gone, rounds, was;
        queue, victim' := NextQueue(victimQueue, candidateQueue, start, first, gone, rounds, rule, was);
      } else {
        queue := victimQueue;
        victim', candidate', gone', rounds', was' :=
          EvictRound(victimQueue, victim, candidateQueue, candidate, rule, start, first, gone, rounds, was);
      }
    }

    lemma StartLooping(first: Option<Id>, rule: Admission)
      requires Valid() && (first.Some? ==> first.value in probation.items)
      ensures Looping(Model(), first, [], [], rule, Cursor(first, Probation, Probation),
                      Probation, probation.Back(), Probation, first)
    {
      EvictNone(Model());
      CursorsStart(Model(), first);
    }

    lemma RefillLooping(start: Policy, first: Option<Id>, gone: seq<Id>, rounds: seq<Round>, rule: Admission,
                        was: Cursor, victimQueue: Zone, victim: Option<Id>)
      requires Looping(start, first, gone, rounds, rule, was, victimQueue, victim, Probation, None)
      ensures Looping(start, first, gone, rounds, rule, was, victimQueue, victim, Window, window.Back())
    {
      CursorsRefill(Model(), victimQueue, victim);
    }

    lemma EndLooping(start: Policy, first: Option<Id>, gone: seq<Id>, rounds: seq<Round>, rule: Admission, was: Cursor,
                     victimQueue: Zone, victim: Option<Id>, candidateQueue: Zone, candidate: Option<Id>)
      requires Looping(start, first, gone, rounds, rule, was, victimQueue, victim, candidateQueue, candidate)
      ensures Valid() && Evicted(start, Model(), gone) && NoneTooMany(gone)
      ensures Decided(start, gone, rounds, rule) && Traced(first, gone, rounds)
      ensures rounds != [] && first.Some? ==> rounds[0].candidate == first && rounds[0].candidateQueue == Probation
      ensures rounds != [] && first.None? ==>
        rounds[0].candidate == start.window.Back() && rounds[0].candidateQueue == Window
      ensures protected == start.protected || probation.items == []
    {
      FirstRound(start, first, gone, rounds, rule);
    }

    /** With both cursors at their end, victims come from protected and then from the window. */
    method NextQueue(victimQueue: Zone, candidateQueue: Zone, ghost start: Policy, ghost first: Option<Id>,
        ghost gone: seq<Id>, ghost rounds: seq<Round>, ghost rule: Admission, ghost was: Cursor)
      returns (queue: Zone, victim: Option<Id>)
      requires victimQueue != Window && candidateQueue != Probation
      requires Looping(start, first, gone, rounds, rule, was, victimQueue, None, candidateQueue, None)
      ensures Looping(start, first, gone, rounds, rule, was, queue, victim, candidateQueue, None)
      ensures Rank(queue) < Rank(victimQueue)
    {
      CursorsNextQueue(Model(), victimQueue, candidateQueue);
      if victimQueue == Probation {
        victim, queue := protected.Back(), Protected;
      } else {
        victim, queue := window.Back(), Window;
      }
    }

    /** One eviction of the loop, recorded. */
    method EvictRound(victimQueue: Zone, victim: Option<Id>, candidateQueue: Zone, candidate: Option<Id>,
                      rule: Admission, ghost start: Policy, ghost first: Option<Id>, gone: seq<Id>,
                      ghost rounds: seq<Round>, ghost was: Cursor)
      returns (victim': Option<Id>, candidate': Option<Id>, gone': seq<Id>, ghost rounds': seq<Round>,
          ghost was': Cursor)
      requires Looping(start, first, gone, rounds, rule, was, victimQueue, victim, candidateQueue, candidate)
      requires (victim.Some? || candidate.Some?) && (candidate.None? ==> candidateQueue != Probation)
      requires weightedSize > capacity
      modifies this`window, this`probation, this`protected, this`zone, this`weightedSize
      ensures Looping(start, first, gone', rounds', rule, was', victimQueue, victim', candidateQueue, candidate')
      ensures |zone| == |old(zone)| - 1
    {
      CandidateLight(Model(), victimQueue, victim, candidateQueue, candidate);
      ghost var r := Round(Model(), victimQueue, victim, candidateQueue, candidate);
      Arrived(r, was);
      victim', candidate', gone' := EvictNext(victimQueue, victim, candidateQueue, candidate, rule, start, gone);
      was' := Cursor(candidate', candidateQueue, victimQueue);
      RecordRound(start, first, gone, gone', rounds, r, was, Model(), was', rule);
      rounds' := rounds + [r];
    }

    /** One eviction of the loop, with at least one cursor set. */
    method EvictNext(victimQueue: Zone, victim: Option<Id>, candidateQueue: Zone, candidate: Option<Id>,
                     rule: Admission, ghost start: Policy, gone: seq<Id>)
      returns (victim': Option<Id>, candidate': Option<Id>, gone': seq<Id>)
      requires Evicting(start, gone, victimQueue, victim, candidateQueue, candidate) && weightedSize > capacity
      requires victim.Some? || candidate.Some?
      modifies this`window, this`probation, this`protected, this`zone, this`weightedSize
      ensures Evicting(start, gone', victimQueue, victim', candidateQueue, candidate')
      ensures NoneTooMany(gone') && |zone| == |old(zone)| - 1 && |gone'| == |gone| + 1 && gone'[..|gone|] == gone
      ensures victimQueue == Probation ==> protected == old(protected)
      ensures Chosen(gone'[|gone|], victim, candidate,
                     candidate.Some? && candidate.value in weight &&
                         weight[candidate.value] > old(weightedSize), rule, |gone|)
      ensures Advanced(gone'[|gone|], victim, candidate, candidate', old(ListOf(Model(), candidateQueue).items),
        ListOf(Model(), candidateQueue).items)
    {
      CursorsKnown(Model(), victimQueue, victim, candidateQueue, candidate);
      if victim.None? {
        candidate', gone' := EvictCandidate(victimQueue, victim, candidateQueue, candidate.value, start, gone);
        victim' := victim;
      } else if candidate.None? {
        victim', gone' := EvictVictim(victimQueue, victim.value, candidateQueue, candidate, start, gone);
        candidate' := candidate;
      } else if victim == candidate {
        victim', gone' := EvictVictim(victimQueue, victim.value, candidateQueue, None, start, gone);
        candidate' := None;
      } else {
        victim', candidate', gone' := EvictLoser(victimQueue, victim, candidateQueue, candidate, rule, start, gone);
      }
    }

    /** One eviction with both cursors set on different entries: the candidate goes when it is too heavy
        or less frequent than the victim. */
    method EvictLoser(victimQueue: Zone, victim: Option<Id>, candidateQueue: Zone, candidate: Option<Id>,
                      rule: Admission, ghost start: Policy, gone: seq<Id>)
      returns (victim': Option<Id>, candidate': Option<Id>, gone': seq<Id>)
      requires Evicting(start, gone, victimQueue, victim, candidateQueue, candidate) && weightedSize > capacity
      requires victim.Some? && candidate.Some? && victim != candidate && candidate.value in weight
      requires candidate.value in ListOf(Model(), candidateQueue).items
      modifies this`window, this`probation, this`protected, this`zone, this`weightedSize
      ensures Evicting(start, gone', victimQueue, victim', candidateQueue, candidate')
      ensures NoneTooMany(gone') && |zone| == |old(zone)| - 1 && |gone'| == |gone| + 1 && gone'[..|gone|] == gone
      ensures victimQueue == Probation ==> protected == old(protected)
      ensures Chosen(gone'[|gone|], victim, candidate, weight[candidate.value] > old(weightedSize), rule, |gone|)
      ensures Advanced(gone'[|gone|], victim, candidate, candidate', old(ListOf(Model(), candidateQueue).items),
        ListOf(Model(), candidateQueue).items)
    {
      if weight[candidate.value] > weightedSize {
        candidate', gone' := EvictCandidate(victimQueue, victim, candidateQueue, candidate.value, start, gone);
        victim' := victim;
      } else {
        var admitted := Admit(rule.freq(candidate.value), rule.freq(victim.value), rule.rand(|gone|));
        if admitted {
          victim', candidate', gone' :=
            EvictForCandidate(victimQueue, victim.value, candidateQueue, candidate.value, start, gone);
        } else {
          candidate', gone' := EvictCandidate(victimQueue, victim, candidateQueue, candidate.value, start, gone);
          victim' := victim;
        }
      }
    }

    /** The candidate is admitted: the victim goes, and the entry before the candidate is next. */
    method EvictForCandidate(victimQueue: Zone, victim: Id, candidateQueue: Zone, candidate: Id, ghost start: Policy,
        gone: seq<Id>)
      returns (victim': Option<Id>, candidate': Option<Id>, gone': seq<Id>)
      requires Evicting(start, gone, victimQueue, Some(victim), candidateQueue, Some(candidate)) &&
        candidate != victim && weightedSize > capacity
      modifies this`window, this`probation, this`protected, this`zone, this`weightedSize
      ensures Evicting(start, gone', victimQueue, victim', candidateQueue, candidate')
      ensures gone' == gone + [victim] && NoneTooMany(gone') && |zone| == |old(zone)| - 1
      ensures victimQueue == Probation ==> protected == old(protected)
      ensures candidate in ListOf(Model(), candidateQueue).items &&
        candidate' == PrevOf(ListOf(Model(), candidateQueue).items, candidate)
    {
      victim', gone' := EvictVictim(victimQueue, victim, candidateQueue, Some(candidate), start, gone);
      candidate' := Before(candidateQueue, candidate);
    }

    /** PrevPolicy. */
    method Before(z: Zone, x: Id) returns (prev: Option<Id>)
      requires x in ListOf(Model(), z).items
      ensures prev == PrevOf(ListOf(Model(), z).items, x)
      ensures prev.Some? ==> prev.value in ListOf(Model(), z).items
    {
      match z {
        case Window => prev := PrevOf(window.items, x);
        case Probation => prev := PrevOf(probation.items, x);
        case Protected => prev := PrevOf(protected.items, x);
      }
    }

    method EvictVictim(victimQueue: Zone, victim: Id, candidateQueue: Zone, candidate: Option<Id>, ghost start: Policy,
        gone: seq<Id>)
      returns (victim': Option<Id>, gone': seq<Id>)
      requires Evicting(start, gone, victimQueue, Some(victim), candidateQueue, candidate) &&
        candidate != Some(victim) && weightedSize > capacity
      modifies this`window, this`probation, this`protected, this`zone, this`weightedSize
      ensures Evicting(start, gone', victimQueue, victim', candidateQueue, candidate)
      ensures gone' == gone + [victim] && NoneTooMany(gone') && |zone| == |old(zone)| - 1
      ensures victimQueue == Probation ==> protected == old(protected)
    {
      VictimGone(Model(), victimQueue, victim, candidateQueue, candidate);
      victim' := Before(victimQueue, victim);
      gone' := Evict(victim, start, gone);
    }

    method EvictCandidate(victimQueue: Zone, victim: Option<Id>, candidateQueue: Zone, candidate: Id,
        ghost start: Policy, gone: seq<Id>)
      returns (candidate': Option<Id>, gone': seq<Id>)
      requires Evicting(start, gone, victimQueue, victim, candidateQueue, Some(candidate)) &&
        victim != Some(candidate) && weightedSize > capacity
      modifies this`window, this`probation, this`protected, this`zone, this`weightedSize
      ensures Evicting(start, gone', victimQueue, victim, candidateQueue, candidate')
      ensures gone' == gone + [candidate] && NoneTooMany(gone') && |zone| == |old(zone)| - 1
      ensures protected == old(protected)
      ensures candidate in old(ListOf(Model(), candidateQueue).items)
      ensures candidate' == PrevOf(old(ListOf(Model(), candidateQueue).items), candidate)
    {
      CandidateGone(Model(), victimQueue, victim, candidateQueue, candidate);
      candidate' := Before(candidateQueue, candidate);
      gone' := Evict(candidate, start, gone);
    }

    method EvictEntries(rule: Admission) returns (gone: seq<Id>, ghost sifted: Policy, ghost rounds: seq<Round>)
      requires Valid()
      modifies this`window, this`probation, this`protected, this`zone, this`weightedSize
      ensures Valid() && weightedSize <= capacity && window.len <= window.capacity &&
        protected.len <= old(protected.len)
      ensures Fitted(old(Model()), Model(), gone) && NoneTooMany(gone)
      ensures protected == old(protected) || probation.items == []
      ensures Sifted(old(Model()), sifted)
      ensures EvictedFrom(sifted, PushedOut(old(Model()), sifted), gone, rounds, rule)
    {
      var first := EvictFromWindow();
      sifted := Model();
      gone, rounds := EvictFromMain(first, rule);
      EvictedLighter(sifted, Model(), gone, Window);
      EvictedLighter(sifted, Model(), gone, Protected);
    }

    /** The policy is `p` less the entries of `gone`, each of them evicted by the cursors of its round. */
    ghost predicate EvictedFrom(p: Policy, first: Option<Id>, gone: seq<Id>, rounds: seq<Round>, rule: Admission)
      reads this
    {
      Evicted(p, Model(), gone) && Decided(p, gone, rounds, rule) && Traced(first, gone, rounds)
    }

    /** Move the back of probation or protected to the front of the window. */
    method Pull(from: Zone, ghost start: Policy) returns (w: int)
      requires Shape(Model()) && Grown(start, Model()) && from != Window && ListOf(Model(), from).items != []
      requires from == Probation ==> protected == start.protected
      modifies this`window, this`probation, this`protected, this`zone
      ensures Shape(Model()) && Total(Model()) == old(Total(Model())) && Grown(start, Model())
      ensures var x := old(ListOf(Model(), from).items[|ListOf(Model(), from).items| - 1]);
        x in weight && w == weight[x]
      ensures window.len == old(window.len) + w
      ensures if from == Probation then protected == old(protected)
              else probation == old(probation) && protected.len == old(protected.len) - w
      ensures |probation.items| + |protected.items| == old(|probation.items| + |protected.items|) - 1
    {
      GrowStep(start, Model(), from);
      MoveBackShape(Model(), from, Window);
      MoveBackLists(Model(), from, Window);
      var x := MoveBack(from, Window);
      w := weight[x];
    }

    /** The next entry to pull, and whether it comes from probation. */
    method NextToPull(remain: int) returns (from: Zone, entry: Option<Id>)
      requires Shape(Model())
      ensures from != Window && entry == ListOf(Model(), from).Back()
      ensures entry.Some? ==> entry.value in weight && weight[entry.value] >= 0
      ensures from == Protected ==> TooHeavy(probation, weight, remain)
      ensures from == Probation ==> entry.Some? && weight[entry.value] <= remain
    {
      from, entry := Probation, probation.Back();
      if entry.Some? {
        BackKnown(Model(), Probation);
      }
      if entry.None? || weight[entry.value] > remain {
        from, entry := Protected, protected.Back();
        if entry.Some? {
          BackKnown(Model(), Protected);
        }
      }
    }

    /** Pull entries into the window, probation first, while they fit in `amount`; what is left of it
        is returned. Terminates even if entries weigh nothing: each pass shortens probation or protected. */
    method IncreaseWindow(amount: int) returns (remain: int)
      requires Shape(Model()) && amount >= 0
      modifies this`window, this`probation, this`protected, this`zone
      ensures Shape(Model()) && Total(Model()) == old(Total(Model()))
      ensures Grown(old(Model()), Model()) && 0 <= remain <= amount && window.len == old(window.len) + amount - remain
      ensures TooHeavy(probation, weight, remain + old(protected.len) - protected.len)
      ensures TooHeavy(probation, weight, remain) && TooHeavy(protected, weight, remain)
    {
      remain := amount;
      while true
        invariant Shape(Model()) && Total(Model()) == old(Total(Model()))
        invariant Grown(old(Model()), Model()) && 0 <= remain <= amount &&
          window.len == old(window.len) + amount - remain
        invariant protected == old(protected) ||
          TooHeavy(probation, weight, remain + old(protected.len) - protected.len)
        decreases |probation.items| + |protected.items|
      {
        var from, entry := NextToPull(remain);
        if entry.None? || weight[entry.value] > remain {
          break;
        }
        var w := Pull(from, old(Model()));
        remain := remain - w;
      }
    }

    /** Push entries out of the window into probation while they fit in `amount`. */
    method DecreaseWindow(amount: int) returns (remain: int)
      requires Shape(Model()) && amount >= 0
      modifies this`window, this`probation, this`protected, this`zone
      ensures Shape(Model()) && Total(Model()) == old(Total(Model()))
      ensures Shifted(old(Model()), Model(), Window, Probation) && 0 <= remain <= amount &&
        window.len == old(window.len) - (amount - remain)
      ensures TooHeavy(window, weight, remain)
    {
      remain := amount;
      while true
        invariant Sifting(old(Model()), Window)
        invariant 0 <= remain <= amount && window.len == old(window.len) - (amount - remain)
        decreases |window.items|
      {
        var entry := window.Back();
        if entry.None? {
          break;
        }
        BackKnown(Model(), Window);
        var w := weight[entry.value];
        if w > remain {
          break;
        }
        remain := remain - w;
        var _ := Sift(Window, old(Model()));
      }
    }

    /** The clamps of climb: `proposal` is what the hill climber wants. */
    method Climb(proposal: int)
      requires Valid()
      modifies this`amount, this`hitsInSample, this`missesInSample
      ensures hitsInSample == 0 && missesInSample == 0
      ensures amount == Clamp(proposal, window.capacity, protected.capacity)
    {
      hitsInSample, missesInSample := 0, 0;
      amount := proposal;
      if amount > 0 && amount > protected.capacity {
        amount := protected.capacity;
      }
      if amount < 0 && -amount > window.capacity - 1 {
        amount := -(window.capacity - 1);
      }
    }

    method Recap(delta: int)
      requires Shape(Model()) && window.capacity + delta >= 1 && protected.capacity - delta >= 0
      modifies this`window, this`protected
      ensures Shape(Model()) && Model() == Recapped(old(Model()), delta)
    {
      RecapShape(Model(), delta);
      window := window.(capacity := window.capacity + delta);
      protected := protected.(capacity := protected.capacity - delta);
    }

    /** Move entries in the direction of `amount`; what could not be moved stays in it. */
    method MoveAmount()
      requires Shape(Model())
      modifies this`window, this`probation, this`protected, this`zone, this`amount
      ensures Shape(Model()) && Total(Model()) == old(Total(Model())) && zone.Keys == old(zone.Keys)
      ensures window.capacity == old(window.capacity) && protected.capacity == old(protected.capacity)
      ensures window.len == old(window.len) + old(amount) - amount
      ensures old(amount) >= 0 ==> 0 <= amount <= old(amount)
      ensures old(amount) <= 0 ==> old(amount) <= amount <= 0
      ensures MovedBy(old(Model()), Model(), old(amount), amount)
      ensures protected.len <= old(protected.len)
    {
      if amount > 0 {
        amount := IncreaseWindow(amount);
      } else if amount < 0 {
        var remain := DecreaseWindow(-amount);
        amount := -remain;
      }
    }

    /** Demote first, then move entries in the direction of `amount`. */
    method DemoteAndMove() returns (ghost demoted: Policy)
      requires Shape(Model())
      modifies this`window, this`probation, this`protected, this`zone, this`amount
      ensures Shape(Model()) && Total(Model()) == old(Total(Model())) && zone.Keys == old(zone.Keys)
      ensures Demoted(old(Model()), demoted) && MovedBy(demoted, Model(), old(amount), amount)
      ensures window.capacity == old(window.capacity) && protected.capacity == old(protected.capacity)
      ensures window.len == old(window.len) + old(amount) - amount
      ensures old(amount) >= 0 ==> 0 <= amount <= old(amount)
      ensures old(amount) <= 0 ==> old(amount) <= amount <= 0
      ensures protected.len <= protected.capacity
    {
      DemoteFromProtected();
      demoted := Model();
      MoveAmount();
    }

    /** Move `amount` of capacity between window and protected, as far as whole entries allow. */
    method ResizeWindow() returns (ghost demoted: Policy)
      requires Valid() && -(window.capacity - 1) <= amount <= protected.capacity
      modifies this`window, this`probation, this`protected, this`zone, this`amount
      ensures Valid() && Resized(old(Model()), demoted, Model(), old(amount), amount)
      ensures window.capacity + protected.capacity == old(window.capacity + protected.capacity)
      ensures window.capacity - window.len == old(window.capacity - window.len)
      ensures zone.Keys == old(zone.Keys)
      ensures window.len == old(window.len) + old(amount) - amount
      ensures old(amount) >= 0 ==> 0 <= amount <= old(amount)
      ensures old(amount) <= 0 ==> old(amount) <= amount <= 0
      ensures protected.len <= protected.capacity - amount
    {
      Recap(amount);
      demoted := DemoteAndMove();
      ResizeSteps(old(Model()), demoted, Model(), old(amount), amount);
      Recap(-amount);
    }

    /** A new sample: climb and resize once enough hits and misses were seen. */
    method Resample(proposal: int) returns (ghost demoted: Policy)
      requires Valid()
      modifies this`window, this`probation, this`protected, this`zone, this`amount, this`hitsInSample,
          this`missesInSample
      ensures Valid() && zone.Keys == old(zone.Keys)
      ensures window.capacity + protected.capacity == old(window.capacity + protected.capacity)
      ensures window.capacity - window.len == old(window.capacity - window.len)
      ensures old(hitsInSample + missesInSample) > sampleSize ==> hitsInSample == 0 && missesInSample == 0
      ensures Started(old(Model()), old(hitsInSample + missesInSample) > sampleSize, proposal, Model(), amount)
      ensures old(hitsInSample + missesInSample) <= sampleSize ==>
                hitsInSample == old(hitsInSample) && missesInSample == old(missesInSample)
    {
      demoted := Model();
      if hitsInSample + missesInSample > sampleSize {
        demoted := ClimbAndResize(proposal);
      }
    }

    method ClimbAndResize(proposal: int) returns (ghost demoted: Policy)
      requires Valid()
      modifies this`window, this`probation, this`protected, this`zone, this`amount, this`hitsInSample,
          this`missesInSample
      ensures Valid() && zone.Keys == old(zone.Keys) && hitsInSample == 0 && missesInSample == 0
      ensures window.capacity + protected.capacity == old(window.capacity + protected.capacity)
      ensures window.capacity - window.len == old(window.capacity - window.len)
      ensures Resized(old(Model()), demoted, Model(),
                      Clamp(proposal, old(window.capacity), old(protected.capacity)), amount)
    {
      Climb(proposal);
      demoted := ResizeWindow();
    }

    /** Count the entry's weight, and put it in the window if it is not linked. */
    method Enter(x: Id)
      requires Valid() && x !in zone && x in weight && weight[x] >= 0
      modifies this`window, this`probation, this`protected, this`zone, this`weightedSize, this`missesInSample
      ensures Valid() && Model() == Entered(old(Model()), x)
      ensures zone == old(zone)[x := Window] && weightedSize == old(weightedSize) + weight[x]
      ensures window == old(window).PushFront(x, weight[x]) && probation == old(probation) &&
        protected == old(protected)
      ensures missesInSample == old(missesInSample) + 1 && zone.Keys == old(zone.Keys) + {x}
    {
      weightedSize := weightedSize + weight[x];
      if x !in zone {
        missesInSample := missesInSample + 1;
        LinkShape(Model(), Window, x);
        PushFront(Window, x);
      }
    }

    /** Add an entry that is not linked yet. Afterwards everything fits, and what was removed for it
        is exactly `gone`. */
    method Set(x: Id, proposal: int, rule: Admission)
      returns (gone: seq<Id>, ghost start: Policy, ghost demoted: Policy, ghost sifted: Policy,
          ghost rounds: seq<Round>)
      requires Valid() && x !in zone && x in weight && weight[x] >= 0
      modifies this`window, this`probation, this`protected, this`zone, this`weightedSize, this`amount,
          this`hitsInSample, this`missesInSample
      ensures Valid() && weightedSize <= capacity && window.len <= window.capacity &&
        protected.len <= protected.capacity
      ensures NoDup(gone) && Elements(gone) <= old(zone.Keys) + {x} &&
        zone.Keys == old(zone.Keys) + {x} - Elements(gone)
      ensures NoneTooMany(gone) && Sifted(demoted, sifted)
      ensures EvictedFrom(sifted, PushedOut(demoted, sifted), gone, rounds, rule)
      ensures demoted.zone.Keys == old(zone.Keys) + {x}
      ensures Started(old(Model()), old(hitsInSample + missesInSample) > sampleSize, proposal, start, amount)
      ensures x in start.weight && Demoted(Entered(start, x), demoted)
      ensures window.capacity + protected.capacity == old(window.capacity + protected.capacity)
      ensures if old(hitsInSample + missesInSample) > sampleSize then hitsInSample == 0 && missesInSample == 1
              else hitsInSample == old(hitsInSample) && missesInSample == old(missesInSample) + 1
    {
      ghost var _ := Resample(proposal);
      start := Model();
      gone, demoted, sifted, rounds := EnterAndFit(x, rule);
    }

    method EnterAndFit(x: Id, rule: Admission)
      returns (gone: seq<Id>, ghost demoted: Policy, ghost sifted: Policy, ghost rounds: seq<Round>)
      requires Valid() && x !in zone && x in weight && weight[x] >= 0
      modifies this`window, this`probation, this`protected, this`zone, this`weightedSize, this`missesInSample
      ensures Valid() && weightedSize <= capacity && window.len <= window.capacity &&
        protected.len <= protected.capacity
      ensures NoDup(gone) && Elements(gone) <= old(zone.Keys) + {x}
      ensures zone.Keys == old(zone.Keys) + {x} - Elements(gone)
      ensures NoneTooMany(gone) && EvictedFrom(sifted, PushedOut(demoted, sifted), gone, rounds, rule)
      ensures Demoted(Entered(old(Model()), x), demoted) && Sifted(demoted, sifted)
      ensures demoted.zone.Keys == old(zone.Keys) + {x}
      ensures window.capacity == old(window.capacity) && protected.capacity == old(protected.capacity)
      ensures missesInSample == old(missesInSample) + 1
    {
      Enter(x);
      gone, demoted, sifted, rounds := MakeRoom(rule);
    }

    /** Demote, then evict: window, protected and the whole fit afterwards. */
    method MakeRoom(rule: Admission)
      returns (gone: seq<Id>, ghost demoted: Policy, ghost sifted: Policy, ghost rounds: seq<Round>)
      requires Valid()
      modifies this`window, this`probation, this`protected, this`zone, this`weightedSize
      ensures Valid() && weightedSize <= capacity && window.len <= window.capacity &&
        protected.len <= protected.capacity
      ensures Fitted(old(Model()), Model(), gone) && NoneTooMany(gone)
      ensures Demoted(old(Model()), demoted) && Sifted(demoted, sifted)
      ensures EvictedFrom(sifted, PushedOut(demoted, sifted), gone, rounds, rule)
    {
      DemoteFromProtected();
      demoted := Model();
      gone, sifted, rounds := EvictEntries(rule);
    }

    /** MoveToFront, or the move from probation to protected of Slru.access. */
    method Touch(x: Id)
      requires Valid() && x in zone
      modifies this`window, this`probation, this`protected, this`zone
      ensures x in old(ListOf(Model(), zone[x]).items) && Valid() && Model() == Touched(old(Model()), x)
    {
      TouchSound(Model(), x);
      var to := Promotion(zone[x]);
      Unlink(x);
      PushFront(to, x);
    }

    /** Record a hit. An entry no longer linked is ignored. Nothing is evicted. */
    method Access(x: Id, proposal: int) returns (ghost start: Policy)
      requires Valid()
      modifies this`window, this`probation, this`protected, this`zone, this`amount, this`hitsInSample,
          this`missesInSample
      ensures Valid() && zone.Keys == old(zone.Keys)
      ensures x in zone ==>
        zone[x] != Probation && ListOf(Model(), zone[x]).items != [] && ListOf(Model(), zone[x]).items[0] == x
      ensures if old(hitsInSample + missesInSample) > sampleSize then hitsInSample == 1 && missesInSample == 0
              else hitsInSample == old(hitsInSample) + 1 && missesInSample == old(missesInSample)
      ensures Started(old(Model()), old(hitsInSample + missesInSample) > sampleSize, proposal, start, amount)
      ensures if x in old(zone) then MovedUp(start, Model(), x) else Model() == start
    {
      ghost var _ := Resample(proposal);
      start := Model();
      Hit(x);
    }

    method Hit(x: Id)
      requires Valid()
      modifies this`window, this`probation, this`protected, this`zone, this`hitsInSample
      ensures Valid() && zone.Keys == old(zone.Keys) && hitsInSample == old(hitsInSample) + 1
      ensures if x in old(zone) then MovedUp(old(Model()), Model(), x) else Model() == old(Model())
      ensures x in zone ==>
        zone[x] != Probation && ListOf(Model(), zone[x]).items != [] && ListOf(Model(), zone[x]).items[0] == x
    {
      hitsInSample := hitsInSample + 1;
      if x in zone {
        TouchSound(Model(), x);
        Touch(x);
      }
    }

    /** len and weightedSize catch up with a changed weight. */
    method Reweigh(x: Id, change: int)
      requires x in zone && x in weight && weight[x] >= 0 && Sound(Earlier(Model(), x, change))
      modifies this`window, this`probation, this`protected, this`weightedSize
      ensures Valid() && Model() == Reweighed(old(Model()), x, change)
    {
      ReweighSound(Model(), x, change);
      weightedSize := weightedSize + change;
      match zone[x] {
        case Window => window := window.(len := window.len + change);
        case Probation => probation := probation.(len := probation.len + change);
        case Protected => protected := protected.(len := protected.len + change);
      }
    }

    /** An entry that can never fit is removed at once, any other is treated as accessed. */
    method RemoveOrTouch(x: Id) returns (gone: seq<Id>)
      requires Valid() && x in zone && x in weight
      modifies this`window, this`probation, this`protected, this`zone, this`weightedSize
      ensures Valid() && zone.Keys == old(zone.Keys) - Elements(gone)
      ensures gone == if weight[x] > capacity then [x] else []
      ensures Linkable(old(Model()), x)
      ensures Model() == if weight[x] > capacity then Removed(old(Model()), x) else Touched(old(Model()), x)
    {
      if weight[x] > capacity {
        Remove(x);
        gone := [x];
      } else {
        TouchSound(Model(), x);
        Touch(x);
        gone := [];
      }
    }

    /** Account for a changed weight, then remove or touch. */
    method Settle(x: Id, change: int) returns (gone: seq<Id>)
      requires x in zone && x in weight && weight[x] >= 0 && Sound(Earlier(Model(), x, change))
      modifies this`window, this`probation, this`protected, this`zone, this`weightedSize
      ensures Valid() && NoDup(gone) && Elements(gone) <= old(zone.Keys) && zone.Keys == old(zone.Keys) - Elements(gone)
      ensures gone == if weight[x] > capacity then [x] else []
      ensures SettledTo(old(Model()), Model(), x, change) && weightedSize <= old(weightedSize) + change
    {
      Reweigh(x, change);
      gone := RemoveOrTouch(x);
    }

    /** The weight of a linked entry was changed by `change`; account for it, drop the entry if it can
        never fit, and make room otherwise. */
    method UpdateCost(x: Id, change: int, rule: Admission)
      returns (dropped: seq<Id>, evicted: seq<Id>,
               ghost settled: Policy, ghost sifted: Policy, ghost rounds: seq<Round>)
      requires x in zone && x in weight && weight[x] >= 0 && Sound(Earlier(Model(), x, change))
      modifies this`window, this`probation, this`protected, this`zone, this`weightedSize
      ensures Valid() && weightedSize <= capacity
      ensures dropped == if weight[x] > capacity then [x] else []
      ensures NoDup(dropped + evicted) && Elements(dropped + evicted) <= old(zone.Keys)
      ensures zone.Keys == old(zone.Keys) - Elements(dropped + evicted)
      ensures weight[x] > capacity ==>
        TakenOut(old(Model()), settled, x) && settled.weightedSize == old(weightedSize) + change - weight[x]
      ensures weight[x] <= capacity ==>
        MovedUp(old(Model()), settled, x) && settled.weightedSize == old(weightedSize) + change
      ensures Relieved(settled, evicted, sifted, rounds, rule)
    {
      dropped := Settle(x, change);
      settled := Model();
      SettledLists(old(Model()), settled, x, change);
      evicted, sifted, rounds := Relieve(rule);
      JoinKeys(dropped, evicted, old(zone.Keys), settled.zone.Keys, zone.Keys);
    }

    /** The policy is `p`, if that fits, and otherwise `p` sifted and less what its rounds evicted. */
    ghost predicate Relieved(p: Policy, gone: seq<Id>, sifted: Policy, rounds: seq<Round>, rule: Admission)
      reads this
    {
      if p.weightedSize <= p.capacity then gone == [] && Model() == p
      else Sifted(p, sifted) && EvictedFrom(sifted, PushedOut(p, sifted), gone, rounds, rule) && NoneTooMany(gone)
    }

    /** Evict if the cache is too heavy. */
    method Relieve(rule: Admission) returns (gone: seq<Id>, ghost sifted: Policy, ghost rounds: seq<Round>)
      requires Valid()
      modifies this`window, this`probation, this`protected, this`zone, this`weightedSize
      ensures Valid() && weightedSize <= capacity
      ensures NoDup(gone) && Elements(gone) <= old(zone.Keys) && zone.Keys == old(zone.Keys) - Elements(gone)
      ensures Relieved(old(Model()), gone, sifted, rounds, rule)
    {
      gone, sifted, rounds := [], Model(), [];
      if weightedSize > capacity {
        gone, sifted, rounds := EvictEntries(rule);
      }
    }
  }
}
