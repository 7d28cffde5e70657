/**
 Restoring a saved cache: the insertion rules of Recover in internal/store.go.

 A saved cache is a version, a total and blocks of entries, each block for one of the three lists, as
 Persist writes them. Every entry is paired with the clock reading at the moment it is decoded. The
 entry records are already decoded: the encoding and its checksums are not part of this model.
 */
module Recover {
  import opened Seqs
  import opened LruList
  import TinyLfu
  import Sketch
  import PackedSketch

  type Zone = TinyLfu.Zone
  type Policy = TinyLfu.Policy

  datatype Saved = Saved(key: int, weight: int, policyWeight: int, expire: int, frequency: int)

  datatype Item = Item(zone: Zone, entry: Saved, now: int)

  /** The parts of a store that are restored; `timed` are the entries handed to the timer wheel. */
  datatype Contents = Contents(
    policy: Policy, maxsize: int, entries: map<int, Saved>, timed: set<int>, counts: Sketch.Counts)

  // ----- What restoring does -----

  predicate Live(item: Item) {
    item.entry.expire == 0 || item.entry.expire >= item.now
  }

  /** The window and the protected list have their own bound, the probation list what is left of the main part. */
  predicate HasRoom(p: Policy, maxsize: int, z: Zone) {
    match z
    case Window => p.window.len < p.window.capacity
    case Probation => p.protected.len + p.probation.len < maxsize
    case Protected => p.protected.len < p.protected.capacity
  }

  predicate Room(c: Contents, z: Zone) {
    HasRoom(c.policy, c.maxsize, z)
  }

  function PushedBack(p: Policy, z: Zone, x: int, w: int): Policy {
    var l := TinyLfu.ListOf(p, z);
    TinyLfu.WithList(p, z, l.Insert(|l.items|, x, w))
      .(zone := p.zone[x := z], weight := p.weight[x := w], weightedSize := p.weightedSize + w)
  }

  function Kept(c: Contents, item: Item, spread: int -> Sketch.Key): Contents
    requires Sketch.Sound(c.counts)
  {
    var e := item.entry;
    Contents(
      PushedBack(c.policy, item.zone, e.key, e.policyWeight),
      c.maxsize,
      c.entries[e.key := e],
      if e.expire != 0 then c.timed + {e.key} else c.timed,
      Sketch.Step(c.counts, Sketch.Times(spread(e.key), e.frequency)))
  }

  function Restored(c: Contents, item: Item, spread: int -> Sketch.Key): (d: Contents)
    requires Sketch.Sound(c.counts)
    ensures Sketch.Sound(d.counts)
  {
    if Live(item) && Room(c, item.zone) then Kept(c, item, spread) else c
  }

  function RestoredAll(c: Contents, items: seq<Item>, spread: int -> Sketch.Key): (d: Contents)
    requires Sketch.Sound(c.counts)
    ensures Sketch.Sound(d.counts)
  {
    if items == [] then c
    else Restored(RestoredAll(c, items[..|items| - 1], spread), items[|items| - 1], spread)
  }

  // ----- Which entries are kept -----

  /** The keys of the unexpired entries saved for list `z`, in saved order. */
  function LiveKeys(items: seq<Item>, z: Zone): seq<int> {
    if items == [] then []
    else
      var last := items[|items| - 1];
      var live := last.entry.expire == 0 || last.entry.expire >= last.now;
      LiveKeys(items[..|items| - 1], z) + (if last.zone == z && live then [last.entry.key] else [])
  }

  predicate NonNegative(items: seq<Item>) {
    forall i :: 0 <= i < |items| ==> items[i].entry.policyWeight >= 0
  }

  /** The list has reached its bound; for probation, the main part has. */
  predicate Full(c: Contents, z: Zone) {
    match z
    case Window => c.policy.window.len >= c.policy.window.capacity
    case Probation => c.policy.protected.len + c.policy.probation.len >= c.maxsize
    case Protected => c.policy.protected.len >= c.policy.protected.capacity
  }

  lemma RoomShrinks(c: Contents, item: Item, spread: int -> Sketch.Key, z: Zone)
    requires Sketch.Sound(c.counts) && item.entry.policyWeight >= 0
    ensures Room(Restored(c, item, spread), z) ==> Room(c, z)
  {
  }

  function Items(c: Contents, z: Zone): seq<int> {
    TinyLfu.ListOf(c.policy, z).items
  }

  lemma RestoredItems(c: Contents, item: Item, spread: int -> Sketch.Key, z: Zone)
    requires Sketch.Sound(c.counts)
    ensures Items(Restored(c, item, spread), z) ==
            if item.zone == z && Live(item) && Room(c, z) then Items(c, z) + [item.entry.key] else Items(c, z)
  {
  }

  lemma PrefixOfMore(base: seq<int>, keys: seq<int>, key: int, n: nat)
    requires n <= |keys|
    ensures (keys + [key])[..n] == keys[..n]
    ensures n == |keys| ==> base + keys[..n] + [key] == base + (keys + [key])[..n + 1]
  {
  }

  /** Each list receives exactly a prefix, in saved order, of the unexpired entries saved for it, and an
      unexpired entry is left out only when its list has no room even at the end. */
  lemma {:induction false} KeepsPrefix(c: Contents, items: seq<Item>, spread: int -> Sketch.Key, z: Zone)
      returns (n: nat)
    requires Sketch.Sound(c.counts) && NonNegative(items)
    ensures n <= |LiveKeys(items, z)|
    ensures Items(RestoredAll(c, items, spread), z) == Items(c, z) + LiveKeys(items, z)[..n]
    ensures n < |LiveKeys(items, z)| ==> Full(RestoredAll(c, items, spread), z)
  {
    n := 0;
    if items != [] {
      var front, last := items[..|items| - 1], items[|items| - 1];
      var d := RestoredAll(c, front, spread);
      n := KeepsPrefix(c, front, spread, z);
      RoomShrinks(d, last, spread, z);
      RestoredItems(d, last, spread, z);
      var keys, key := LiveKeys(front, z), last.entry.key;
      if last.zone == z && Live(last) {
        assert LiveKeys(items, z) == keys + [key];
        PrefixOfMore(Items(c, z), keys, key, n);
        if Room(d, z) {
          n := n + 1;
        }
      } else {
        assert LiveKeys(items, z) == keys;
      }
    }
  }

  // ----- When an entry is kept -----

  /** Keeping an entry, field by field: it goes to the back of its list and under its key, its weight is
      counted, and it is timed if it expires. */
  lemma KeptFields(c: Contents, item: Item, spread: int -> Sketch.Key)
    requires Sketch.Sound(c.counts)
    ensures var d, e := Kept(c, item, spread), item.entry;
      && d.entries == c.entries[e.key := e] && d.maxsize == c.maxsize
      && d.timed == (if e.expire != 0 then c.timed + {e.key} else c.timed)
      && d.policy.weightedSize == c.policy.weightedSize + e.policyWeight && d.policy.capacity == c.policy.capacity
      && d.policy.zone == c.policy.zone[e.key := item.zone] &&
        d.policy.weight == c.policy.weight[e.key := e.policyWeight]
    ensures var p, q, e := c.policy, Kept(c, item, spread).policy, item.entry;
      match item.zone
      case Window =>
        q.window.items == p.window.items + [e.key] && q.window.len == p.window.len + e.policyWeight &&
        q.window.count == p.window.count + 1 && q.window.capacity == p.window.capacity &&
        q.probation == p.probation && q.protected == p.protected
      case Probation =>
        q.probation.items == p.probation.items + [e.key] && q.probation.len == p.probation.len + e.policyWeight &&
        q.probation.count == p.probation.count + 1 && q.probation.capacity == p.probation.capacity &&
        q.window == p.window && q.protected == p.protected
      case Protected =>
        q.protected.items == p.protected.items + [e.key] && q.protected.len == p.protected.len + e.policyWeight &&
        q.protected.count == p.protected.count + 1 && q.protected.capacity == p.protected.capacity &&
        q.window == p.window && q.probation == p.probation
  {
  }

  /** Keeping an entry adds exactly its saved frequency to its estimate, up to 15. */
  lemma KeptFrequency(c: Contents, item: Item, spread: int -> Sketch.Key)
    requires Sketch.Sound(c.counts)
    ensures var d, k, n := Kept(c, item, spread), spread(item.entry.key), item.entry.frequency;
      && Sketch.Sound(d.counts) && d.counts.size == c.counts.size && d.counts.additions == c.counts.additions
      && Sketch.Freq(d.counts, k) == Min(15, Sketch.Freq(c.counts, k) + if n > 0 then n else 0)
  {
    Sketch.BumpNEstimate(c.counts.cells, c.counts.size, spread(item.entry.key), item.entry.frequency);
  }

  /** The step, in terms of the fields: an entry is kept if and only if it has not expired and its list has room,
      and otherwise nothing changes. */
  lemma RestoredIff(c: Contents, item: Item, spread: int -> Sketch.Key)
    requires Sketch.Sound(c.counts)
    ensures var e, p := item.entry, c.policy;
      var keep := (e.expire == 0 || e.expire >= item.now) &&
        match item.zone
        case Window => p.window.len < p.window.capacity
        case Probation => p.protected.len + p.probation.len < c.maxsize
        case Protected => p.protected.len < p.protected.capacity;
      Restored(c, item, spread) == if keep then Kept(c, item, spread) else c
  {
  }

  lemma {:induction false} EntryStays(c: Contents, items: seq<Item>, spread: int -> Sketch.Key, i: nat, k: int)
    requires Sketch.Sound(c.counts) && i <= |items| && forall j :: i <= j < |items| ==> items[j].entry.key != k
    ensures k in RestoredAll(c, items, spread).entries <==> k in RestoredAll(c, items[..i], spread).entries
  {
    if i == |items| {
      assert items[..i] == items;
    } else {
      var n := |items| - 1;
      EntryStays(c, items[..n], spread, i, k);
      assert items[..n][..i] == items[..i];
      KeptFields(RestoredAll(c, items[..n], spread), items[n], spread);
    }
  }

  /** Exactly which saved entries are restored: entry i if and only if it had not expired when it was decoded and,
      at that point, its list had room: the window and protected below their own capacity, probation when
      protected and probation together were below the size of the main part. */
  lemma RestoredExactly(c: Contents, items: seq<Item>, spread: int -> Sketch.Key, i: nat)
    requires Sketch.Sound(c.counts) && Fresh(c, items) && i < |items|
    ensures var d, e := RestoredAll(c, items[..i], spread), items[i].entry;
      e.key in RestoredAll(c, items, spread).entries <==>
        && (e.expire == 0 || e.expire >= items[i].now)
        && match items[i].zone
           case Window => d.policy.window.len < d.policy.window.capacity
           case Probation => d.policy.protected.len + d.policy.probation.len < d.maxsize
           case Protected => d.policy.protected.len < d.policy.protected.capacity
  {
    var d, k := RestoredAll(c, items[..i], spread), items[i].entry.key;
    EntryStays(c, items, spread, i + 1, k);
    RestoredNext(c, items, i, spread);
    RestoredIff(d, items[i], spread);
    KeptFields(d, items[i], spread);
    KeyNotYet(c, items, spread, i);
  }

  lemma KeyNotYet(c: Contents, items: seq<Item>, spread: int -> Sketch.Key, i: nat)
    requires Sketch.Sound(c.counts) && Fresh(c, items) && i < |items|
    ensures items[i].entry.key !in RestoredAll(c, items[..i], spread).entries
  {
    EntryStays(c, items[..i], spread, 0, items[i].entry.key);
    assert items[..i][..0] == [];
  }

  /** Nothing is restored that had expired when it was decoded. */
  lemma {:induction false} NoneExpired(c: Contents, items: seq<Item>, spread: int -> Sketch.Key, k: int)
    requires Sketch.Sound(c.counts) && k in RestoredAll(c, items, spread).entries && k !in c.entries
    ensures exists i ::
      && 0 <= i < |items| && items[i].entry.key == k && RestoredAll(c, items, spread).entries[k] == items[i].entry
      && (items[i].entry.expire == 0 || items[i].entry.expire >= items[i].now)
  {
    var n := |items| - 1;
    var d := RestoredAll(c, items[..n], spread);
    RestoredIff(d, items[n], spread);
    KeptFields(d, items[n], spread);
    if RestoredAll(c, items, spread) == d || items[n].entry.key != k {
      NoneExpired(c, items[..n], spread, k);
      var i :| 0 <= i < n && items[..n][i].entry.key == k && d.entries[k] == items[..n][i].entry
        && (items[..n][i].entry.expire == 0 || items[..n][i].entry.expire >= items[..n][i].now);
      assert items[i].entry.key == k;
    }
  }

  /** What the list weighs without its last entry. */
  function LessLast(l: LruList<int>, weight: map<int, int>): int {
    if l.items == [] || l.items[|l.items| - 1] !in weight then l.len else l.len - weight[l.items[|l.items| - 1]]
  }

  /** Without its last entry each list is below its bound. */
  ghost predicate WithinBounds(c: Contents) {
    var p := c.policy;
    && (p.window.items != [] ==> LessLast(p.window, p.weight) < p.window.capacity)
    && (p.protected.items != [] ==> LessLast(p.protected, p.weight) < p.protected.capacity)
    && (p.probation.items != [] ==> p.protected.len + LessLast(p.probation, p.weight) < c.maxsize)
  }

  /** Persist writes protected before probation. */
  predicate ProtectedFirst(items: seq<Item>) {
    forall i, j :: 0 <= i < j < |items| && items[i].zone == TinyLfu.Probation ==> items[j].zone != TinyLfu.Protected
  }

  lemma {:induction false} NoProbation(c: Contents, items: seq<Item>, spread: int -> Sketch.Key)
    requires Sketch.Sound(c.counts) && forall i :: 0 <= i < |items| ==> items[i].zone != TinyLfu.Probation
    ensures RestoredAll(c, items, spread).policy.probation == c.policy.probation
  {
    if items != [] {
      var n := |items| - 1;
      NoProbation(c, items[..n], spread);
      KeptFields(RestoredAll(c, items[..n], spread), items[n], spread);
    }
  }

  /** The sizes a restored store can have: in each list all but the last entry fit. */
  lemma {:induction false} RestoredWithinBounds(c: Contents, items: seq<Item>, spread: int -> Sketch.Key)
    requires Sketch.Sound(c.counts) && Fresh(c, items) && ProtectedFirst(items)
    requires c.policy.window.items == [] && c.policy.probation.items == [] && c.policy.protected.items == []
    requires forall k :: k in c.policy.zone ==> k in c.entries
    ensures WithinBounds(RestoredAll(c, items, spread))
  {
    if items != [] {
      var n := |items| - 1;
      RestoredWithinBounds(c, items[..n], spread);
      var d := RestoredAll(c, items[..n], spread);
      if items[n].zone == TinyLfu.Protected {
        NoProbation(c, items[..n], spread);
      }
      ListedKeys(c, items[..n], spread);
      LastIsNew(c, items, spread);
      BoundStep(d, items[n], spread);
    }
  }

  ghost predicate Listed(c: Contents) {
    && (forall k :: k in c.policy.window.items ==> k in c.entries)
    && (forall k :: k in c.policy.probation.items ==> k in c.entries)
    && (forall k :: k in c.policy.protected.items ==> k in c.entries)
  }

  lemma {:induction false} ListedKeys(c: Contents, items: seq<Item>, spread: int -> Sketch.Key)
    requires Sketch.Sound(c.counts) && Listed(c)
    ensures Listed(RestoredAll(c, items, spread))
  {
    if items != [] {
      var n := |items| - 1;
      ListedKeys(c, items[..n], spread);
      KeptFields(RestoredAll(c, items[..n], spread), items[n], spread);
    }
  }

  lemma PushLessLast(l: LruList<int>, m: LruList<int>, weight: map<int, int>, x: int, w: int)
    requires m.items == l.items + [x] && m.len == l.len + w
    ensures LessLast(m, weight[x := w]) == l.len
  {
  }

  lemma SameLessLast(l: LruList<int>, weight: map<int, int>, x: int, w: int)
    requires x !in l.items
    ensures LessLast(l, weight[x := w]) == LessLast(l, weight)
  {
    assert l.items != [] ==> l.items[|l.items| - 1] in l.items;
  }

  lemma BoundKept(c: Contents, item: Item, spread: int -> Sketch.Key)
    requires Sketch.Sound(c.counts) && WithinBounds(c) && Listed(c) && item.entry.key !in c.entries
    requires item.zone == TinyLfu.Protected ==> c.policy.probation.items == []
    requires match item.zone
      case Window => c.policy.window.len < c.policy.window.capacity
      case Probation => c.policy.protected.len + c.policy.probation.len < c.maxsize
      case Protected => c.policy.protected.len < c.policy.protected.capacity
    ensures WithinBounds(Kept(c, item, spread))
  {
    KeptFields(c, item, spread);
    var p, q, x, w := c.policy, Kept(c, item, spread).policy, item.entry.key, item.entry.policyWeight;
    SameLessLast(p.window, p.weight, x, w);
    SameLessLast(p.probation, p.weight, x, w);
    SameLessLast(p.protected, p.weight, x, w);
    match item.zone
    case Window => PushLessLast(p.window, q.window, p.weight, x, w);
    case Probation => PushLessLast(p.probation, q.probation, p.weight, x, w);
    case Protected => PushLessLast(p.protected, q.protected, p.weight, x, w);
  }

  lemma BoundStep(c: Contents, item: Item, spread: int -> Sketch.Key)
    requires Sketch.Sound(c.counts) && WithinBounds(c) && Listed(c) && item.entry.key !in c.entries
    requires item.zone == TinyLfu.Protected ==> c.policy.probation.items == []
    ensures WithinBounds(Restored(c, item, spread))
  {
    RestoredIff(c, item, spread);
    if Restored(c, item, spread) != c {
      BoundKept(c, item, spread);
    }
  }

  // ----- What the restored store satisfies -----

  ghost predicate Remembered(c: Contents, spread: int -> Sketch.Key)
    requires Sketch.Sound(c.counts)
  {
    forall k :: k in c.entries ==> Min(15, c.entries[k].frequency) <= Sketch.Freq(c.counts, spread(k))
  }

  ghost predicate Agrees(c: Contents) {
    && c.entries.Keys == c.policy.zone.Keys
    && (forall k :: k in c.entries ==>
      c.entries[k].key == k && k in c.policy.weight && c.policy.weight[k] == c.entries[k].policyWeight)
    && (forall k :: k in c.timed <==> k in c.entries && c.entries[k].expire != 0)
  }

  /** The policy accounts for its entries, the maps and the lists hold the same entries, the timer wheel
      has those that expire, and the sketch knows every entry's saved frequency. */
  ghost predicate Good(c: Contents, spread: int -> Sketch.Key) {
    TinyLfu.Sound(c.policy) && Agrees(c) && Sketch.Sound(c.counts) && Remembered(c, spread)
  }

  lemma PushBackSound(l: LruList<int>, z: Zone, zone: map<int, Zone>, weight: map<int, int>, x: int, w: int)
    requires TinyLfu.ListSound(l, z, zone, weight) && x !in zone
    ensures TinyLfu.ListSound(l.Insert(|l.items|, x, w), z, zone[x := z], weight[x := w])
  {
    var now := weight[x := w];
    var items := l.Insert(|l.items|, x, w).items;
    assert items == l.items + [x];
    TallyPush(l.items, x, TinyLfu.W(now));
    TallyAgree(l.items, TinyLfu.W(weight), TinyLfu.W(now));
  }

  lemma OtherListSound(l: LruList<int>, z: Zone, zone: map<int, Zone>, weight: map<int, int>, x: int, y: Zone, w: int)
    requires TinyLfu.ListSound(l, z, zone, weight) && x !in zone && y != z
    ensures TinyLfu.ListSound(l, z, zone[x := y], weight[x := w])
  {
    TallyAgree(l.items, TinyLfu.W(weight), TinyLfu.W(weight[x := w]));
  }

  lemma PushedBackSound(p: Policy, z: Zone, x: int, w: int)
    requires TinyLfu.Sound(p) && x !in p.zone && w >= 0
    ensures TinyLfu.Sound(PushedBack(p, z, x, w))
  {
    PushBackSound(TinyLfu.ListOf(p, z), z, p.zone, p.weight, x, w);
    if z != TinyLfu.Window {
      OtherListSound(p.window, TinyLfu.Window, p.zone, p.weight, x, z, w);
    }
    if z != TinyLfu.Probation {
      OtherListSound(p.probation, TinyLfu.Probation, p.zone, p.weight, x, z, w);
    }
    if z != TinyLfu.Protected {
      OtherListSound(p.protected, TinyLfu.Protected, p.zone, p.weight, x, z, w);
    }
  }

  lemma StillRemembered(c: Contents, item: Item, spread: int -> Sketch.Key)
    requires Sketch.Sound(c.counts) && Remembered(c, spread)
    ensures Remembered(Kept(c, item, spread), spread)
  {
    var e := item.entry;
    var d := Kept(c, item, spread);
    var s := c.counts;
    forall k | k in d.entries
      ensures Min(15, d.entries[k].frequency) <= Sketch.Freq(d.counts, spread(k))
    {
      Sketch.BumpNEstimate(s.cells, s.size, spread(e.key), e.frequency);
      Sketch.BumpNGrows(s.cells, s.size, spread(e.key), e.frequency, spread(k));
    }
  }

  lemma KeptAgrees(c: Contents, item: Item, spread: int -> Sketch.Key)
    requires Sketch.Sound(c.counts) && Agrees(c) && item.entry.key !in c.entries
    ensures Agrees(Kept(c, item, spread))
  {
  }

  lemma KeptGood(c: Contents, item: Item, spread: int -> Sketch.Key)
    requires Good(c, spread) && item.entry.key !in c.entries && item.entry.policyWeight >= 0
    ensures Good(Kept(c, item, spread), spread)
  {
    PushedBackSound(c.policy, item.zone, item.entry.key, item.entry.policyWeight);
    KeptAgrees(c, item, spread);
    StillRemembered(c, item, spread);
  }

  ghost predicate Fresh(c: Contents, items: seq<Item>) {
    && (forall i :: 0 <= i < |items| ==> items[i].entry.key !in c.entries)
    && (forall i, j :: 0 <= i < j < |items| ==> items[i].entry.key != items[j].entry.key)
  }

  predicate Saves(items: seq<Item>, k: int) {
    exists i :: 0 <= i < |items| && items[i].entry.key == k
  }

  lemma SavesMore(items: seq<Item>, k: int)
    requires items != []
    ensures Saves(items, k) <==> Saves(items[..|items| - 1], k) || items[|items| - 1].entry.key == k
  {
    var front := items[..|items| - 1];
    if Saves(items, k) && items[|items| - 1].entry.key != k {
      var i :| 0 <= i < |items| && items[i].entry.key == k;
      assert front[i].entry.key == k;
    }
    if Saves(front, k) {
      var i :| 0 <= i < |front| && front[i].entry.key == k;
      assert items[i].entry.key == k;
    }
  }

  /** Nothing is restored that was not saved. */
  lemma {:induction false} RestoresSaved(c: Contents, items: seq<Item>, spread: int -> Sketch.Key, k: int)
    requires Sketch.Sound(c.counts) && k in RestoredAll(c, items, spread).entries
    ensures k in c.entries || Saves(items, k)
  {
    if items != [] {
      SavesMore(items, k);
      if items[|items| - 1].entry.key != k {
        RestoresSaved(c, items[..|items| - 1], spread, k);
      }
    }
  }

  lemma LastIsNew(c: Contents, items: seq<Item>, spread: int -> Sketch.Key)
    requires items != [] && Sketch.Sound(c.counts) && Fresh(c, items)
    ensures items[|items| - 1].entry.key !in RestoredAll(c, items[..|items| - 1], spread).entries
  {
    var n := |items| - 1;
    var k := items[n].entry.key;
    if k in RestoredAll(c, items[..n], spread).entries {
      RestoresSaved(c, items[..n], spread, k);
    }
  }

  /** Restoring entries with distinct keys and non-negative weights leaves a good store, whatever the capacities. */
  lemma {:induction false} RestoredGood(c: Contents, items: seq<Item>, spread: int -> Sketch.Key)
    requires Good(c, spread) && NonNegative(items) && Fresh(c, items)
    ensures Good(RestoredAll(c, items, spread), spread)
  {
    if items != [] {
      var n := |items| - 1;
      RestoredGood(c, items[..n], spread);
      LastIsNew(c, items, spread);
      KeptGood(RestoredAll(c, items[..n], spread), items[n], spread);
    }
  }

  // ----- The restoring loop -----

  /** A block of saved entries for one list, each with the clock reading when it is decoded. */
  datatype Block = Block(zone: Zone, decoded: seq<(Saved, int)>)

  function ItemsOf(b: Block): (s: seq<Item>)
    ensures |s| == |b.decoded|
  {
    seq(|b.decoded|, i requires 0 <= i < |b.decoded| => Item(b.zone, b.decoded[i].0, b.decoded[i].1))
  }

  function Stream(blocks: seq<Block>): seq<Item> {
    if blocks == [] then [] else Stream(blocks[..|blocks| - 1]) + ItemsOf(blocks[|blocks| - 1])
  }

  lemma {:induction false} RestoredConcat(c: Contents, a: seq<Item>, b: seq<Item>, spread: int -> Sketch.Key)
    requires Sketch.Sound(c.counts)
    ensures RestoredAll(RestoredAll(c, a, spread), b, spread) == RestoredAll(c, a + b, spread)
  {
    if b == [] {
      assert a + b == a;
    } else {
      var n := |b| - 1;
      RestoredConcat(c, a, b[..n], spread);
      assert (a + b)[..|a + b| - 1] == a + b[..n] && (a + b)[|a + b| - 1] == b[n];
    }
  }

  lemma StreamNext(c: Contents, blocks: seq<Block>, i: nat, spread: int -> Sketch.Key)
    requires Sketch.Sound(c.counts) && i < |blocks|
    ensures RestoredAll(RestoredAll(c, Stream(blocks[..i]), spread), ItemsOf(blocks[i]), spread) ==
            RestoredAll(c, Stream(blocks[..i + 1]), spread)
  {
    assert blocks[..i + 1][..i] == blocks[..i];
    RestoredConcat(c, Stream(blocks[..i]), ItemsOf(blocks[i]), spread);
  }

  /** The sketch is sized for the saved total before any entry is restored. */
  function Prepared(c: Contents, total: nat): (d: Contents)
    requires Sketch.Sound(c.counts)
    ensures Sketch.Sound(d.counts)
  {
    c.(counts := Sketch.Grow(c.counts, total))
  }

  lemma EmptyList(c: Contents, z: Zone)
    requires TinyLfu.Sound(c.policy) && c.policy.zone == map[]
    ensures Items(c, z) == []
  {
    TinyLfu.ListOfSound(c.policy, z);
    var items := Items(c, z);
    var x := if items == [] then 0 else items[0];
    assert items == [] || x in items;
    assert x !in c.policy.zone;
  }

  lemma RestoredNext(c: Contents, items: seq<Item>, i: nat, spread: int -> Sketch.Key)
    requires Sketch.Sound(c.counts) && i < |items|
    ensures RestoredAll(c, items[..i + 1], spread) == Restored(RestoredAll(c, items[..i], spread), items[i], spread)
  {
    assert items[..i + 1][..i] == items[..i];
  }

  /** Recovering into an empty store: the store is good, and each list holds exactly a prefix of the
      unexpired entries saved for it, cut only where the list is full. */
  lemma RecoveredStore(c: Contents, total: nat, items: seq<Item>, spread: int -> Sketch.Key, z: Zone) returns (n: nat)
    requires TinyLfu.Sound(c.policy) && c.policy.zone == map[] && c.entries == map[] && c.timed == {}
    requires Sketch.Sound(c.counts) && NonNegative(items) && Fresh(c, items)
    ensures var d := RestoredAll(Prepared(c, total), items, spread);
            && Good(d, spread)
            && n <= |LiveKeys(items, z)| && Items(d, z) == LiveKeys(items, z)[..n]
            && (n < |LiveKeys(items, z)| ==> Full(d, z))
  {
    var p := Prepared(c, total);
    RestoredGood(p, items, spread);
    n := KeepsPrefix(p, items, spread, z);
    EmptyList(c, z);
  }

  datatype Outcome = Done | VersionMismatch

  class Store {
    var policy: Policy
    var maxsize: int
    var entries: map<int, Saved>
    var timed: set<int>
    const sketch: PackedSketch.CountMinSketch
    const hash: int -> PackedSketch.Hash

    ghost function Model(): Contents
      reads this, sketch, sketch.table
    {
      Contents(policy, maxsize, entries, timed, sketch.Model())
    }

    ghost function Spread(): int -> Sketch.Key {
      k => PackedSketch.KeyOf(hash(k))
    }

    constructor (policy: Policy, maxsize: int, hash: int -> PackedSketch.Hash)
      ensures this.policy == policy && this.maxsize == maxsize && this.hash == hash
      ensures entries == map[] && timed == {} && fresh(sketch) && sketch.Valid() && fresh(sketch.table)
    {
      this.policy, this.maxsize, this.hash := policy, maxsize, hash;
      entries, timed := map[], {};
      sketch := new PackedSketch.CountMinSketch();
    }

    /** One entry of a block. */
    method RecoverEntry(z: Zone, e: Saved, now: int)
      requires sketch.Valid()
      modifies this, sketch, sketch.table
      ensures sketch.Valid() && sketch.table == old(sketch.table)
      ensures Model() == Restored(old(Model()), Item(z, e, now), Spread())
      ensures var keep := (e.expire == 0 || e.expire >= now) &&
        match z
        case Window => old(policy).window.len < old(policy).window.capacity
        case Probation => old(policy).protected.len + old(policy).probation.len < old(maxsize)
        case Protected => old(policy).protected.len < old(policy).protected.capacity;
        Model() == if keep then Kept(old(Model()), Item(z, e, now), Spread()) else old(Model())
    {
      RestoredIff(Model(), Item(z, e, now), Spread());
      if e.expire != 0 && e.expire < now {
        return;
      }
      if HasRoom(policy, maxsize, z) {
        policy := PushedBack(policy, z, e.key, e.policyWeight);
        entries := entries[e.key := e];
        if e.expire != 0 {
          timed := timed + {e.key};
        }
        if e.frequency > 0 {
          sketch.Addn(hash(e.key), e.frequency);
        }
      }
    }

    method RecoverBlock(b: Block)
      requires sketch.Valid()
      modifies this, sketch, sketch.table
      ensures sketch.Valid() && sketch.table == old(sketch.table)
      ensures Model() == RestoredAll(old(Model()), ItemsOf(b), Spread())
    {
      ghost var items := ItemsOf(b);
      var i := 0;
      while i < |b.decoded|
        invariant 0 <= i <= |b.decoded|
        invariant sketch.Valid() && sketch.table == old(sketch.table)
        invariant Model() == RestoredAll(old(Model()), items[..i], Spread())
      {
        RestoredNext(old(Model()), items, i, Spread());
        RecoverEntry(b.zone, b.decoded[i].0, b.decoded[i].1);
        i := i + 1;
      }
      assert items[..i] == items;
    }

    method RecoverBlocks(blocks: seq<Block>)
      requires sketch.Valid()
      modifies this, sketch, sketch.table
      ensures sketch.Valid() && sketch.table == old(sketch.table)
      ensures Model() == RestoredAll(old(Model()), Stream(blocks), Spread())
    {
      var i := 0;
      while i < |blocks|
        invariant 0 <= i <= |blocks| && sketch.Valid() && sketch.table == old(sketch.table)
        invariant Model() == RestoredAll(old(Model()), Stream(blocks[..i]), Spread())
      {
        StreamNext(old(Model()), blocks, i, Spread());
        RecoverBlock(blocks[i]);
        i := i + 1;
      }
      assert blocks[..i] == blocks;
    }

    /** Restore the saved blocks, or nothing at all when the versions differ. */
    method Recover(version: int, savedVersion: int, total: nat, blocks: seq<Block>) returns (o: Outcome)
      requires sketch.Valid()
      modifies this, sketch, sketch.table
      ensures sketch.Valid()
      ensures savedVersion != version ==> o == VersionMismatch && Model() == old(Model())
      ensures savedVersion == version ==>
                o == Done && Model() == RestoredAll(Prepared(old(Model()), total), Stream(blocks), Spread())
    {
      if savedVersion != version {
        return VersionMismatch;
      }
      sketch.EnsureCapacity(total);
      RecoverBlocks(blocks);
      return Done;
    }
  }
}
