/**
 The intrusive circular doubly linked list of internal/list.go over the two link chains of
 internal/entry.go, proved to be a sequence. `List.View` is the value the eviction policy works on.
 */
module LinkedList {
  import opened Seqs
  import opened LruList

  datatype Kind = Probation | Protected | Wheel | Window

  class Entry {
    var prev: Entry?
    var next: Entry?
    var wheelPrev: Entry?
    var wheelNext: Entry?
    var policyWeight: int
    var flags: set<Kind>    // the probation, protected and window flags
    const isRoot: bool

    constructor (isRoot: bool, weight: int)
      ensures this.isRoot == isRoot && policyWeight == weight && flags == {}
      ensures prev == null && next == null && wheelPrev == null && wheelNext == null
    {
      this.isRoot, policyWeight, flags := isRoot, weight, {};
      prev, next, wheelPrev, wheelNext := null, null, null, null;
    }

    function Next(kind: Kind): Entry?
      reads this
    {
      if kind == Wheel then wheelNext else next
    }

    function Prev(kind: Kind): Entry?
      reads this
    {
      if kind == Wheel then wheelPrev else prev
    }

    method SetNext(e: Entry?, kind: Kind)
      modifies this`next, this`wheelNext
      ensures Next(kind) == e
      ensures kind == Wheel ==> next == old(next)
      ensures kind != Wheel ==> wheelNext == old(wheelNext)
    {
      if kind == Wheel {
        wheelNext := e;
      } else {
        next := e;
      }
    }

    method SetPrev(e: Entry?, kind: Kind)
      modifies this`prev, this`wheelPrev
      ensures Prev(kind) == e
      ensures kind == Wheel ==> prev == old(prev)
      ensures kind != Wheel ==> wheelPrev == old(wheelPrev)
    {
      if kind == Wheel {
        wheelPrev := e;
      } else {
        prev := e;
      }
    }
  }

  /** What remove leaves in the entry itself. */
  method Forget(e: Entry, kind: Kind)
    modifies e`prev, e`next, e`wheelPrev, e`wheelNext, e`flags
    ensures e.Next(kind) == null && e.Prev(kind) == null && OtherChainKept(e, kind)
    ensures e.flags == if kind == Wheel then old(e.flags) else old(e.flags) - {Probation, Protected, Window}
  {
    e.SetNext(null, kind);
    e.SetPrev(null, kind);
    if kind != Wheel {
      e.flags := e.flags - {Probation, Protected, Window};
    }
  }

  /** The list as it lies in memory: the sentinel, the entries front first, the sentinel again. */
  ghost function Ring(root: Entry, items: seq<Entry>): seq<Entry> {
    [root] + items + [root]
  }

  /** Each node's forward link is the next node, and that node's backward link returns. */
  ghost predicate Chained(s: seq<Entry>, kind: Kind)
    reads set e | e in s
  {
    forall i :: 0 <= i < |s| - 1 ==> s[i].Next(kind) == s[i + 1] && s[i + 1].Prev(kind) == s[i]
  }

  /** A ring: it starts and ends with the sentinel and meets no node twice. */
  ghost predicate IsRing(s: seq<Entry>) {
    |s| >= 2 && s[0] == s[|s| - 1] && NoDup(s[..|s| - 1])
  }

  /** The links of the other chain are as they were; the wheel does not touch the flags either. */
  twostate predicate OtherChainKept(e: Entry, kind: Kind)
    reads e
  {
    if kind == Wheel then e.prev == old(e.prev) && e.next == old(e.next) && e.flags == old(e.flags)
    else e.wheelPrev == old(e.wheelPrev) && e.wheelNext == old(e.wheelNext)
  }

  /** Put `e` between the neighbours s[k] and s[k + 1]. */
  method LinkIn(e: Entry, kind: Kind, at: Entry, nxt: Entry, ghost s: seq<Entry>, ghost k: nat)
    requires IsRing(s) && Chained(s, kind) && e !in s && k + 1 < |s| && at == s[k] && nxt == s[k + 1]
    modifies e`prev, e`next, e`wheelPrev, e`wheelNext, at`next, at`wheelNext, nxt`prev, nxt`wheelPrev
    ensures Chained(s[..k + 1] + [e] + s[k + 1..], kind)
    ensures OtherChainKept(e, kind) && OtherChainKept(at, kind) && OtherChainKept(nxt, kind)
  {
    e.SetPrev(at, kind);
    e.SetNext(nxt, kind);
    at.SetNext(e, kind);
    nxt.SetPrev(e, kind);
    RingDistinct(s);
    ghost var t := s[..k + 1] + [e] + s[k + 1..];
    forall i | 0 <= i < |t| - 1
      ensures t[i].Next(kind) == t[i + 1] && t[i + 1].Prev(kind) == t[i]
    {
      if i < k {
        assert t[i] == s[i] && t[i + 1] == s[i + 1];
      } else if i > k + 1 {
        assert t[i] == s[i - 1] && t[i + 1] == s[i];
      }
    }
  }

  /** Take s[k] out from between its neighbours; its own links stay as they are. */
  method LinkOut(e: Entry, kind: Kind, before: Entry, after: Entry, ghost s: seq<Entry>, ghost k: nat)
    requires IsRing(s) && Chained(s, kind) && 1 <= k && k + 1 < |s| && before == s[k - 1] && e == s[k] &&
      after == s[k + 1]
    modifies before`next, before`wheelNext, after`prev, after`wheelPrev
    ensures Chained(s[..k] + s[k + 1..], kind)
    ensures OtherChainKept(before, kind) && OtherChainKept(after, kind)
  {
    before.SetNext(after, kind);
    after.SetPrev(before, kind);
    RingDistinct(s);
    ghost var t := s[..k] + s[k + 1..];
    forall i | 0 <= i < |t| - 1
      ensures t[i].Next(kind) == t[i + 1] && t[i + 1].Prev(kind) == t[i]
    {
      if i < k - 1 {
        assert t[i] == s[i] && t[i + 1] == s[i + 1];
      } else if i > k - 1 {
        assert t[i] == s[i + 1] && t[i + 1] == s[i + 2];
      }
    }
  }

  /** Forward ends differ pairwise, and so do backward ends. */
  lemma RingDistinct(s: seq<Entry>)
    requires IsRing(s)
    ensures forall i, j :: 0 <= i < j < |s| - 1 ==> s[i] != s[j]
    ensures forall i, j :: 1 <= i < j < |s| ==> s[i] != s[j]
  {
    assert forall i :: 0 <= i < |s| - 1 ==> s[..|s| - 1][i] == s[i];
  }

  lemma RingOf(root: Entry, items: seq<Entry>)
    requires root !in items && NoDup(items)
    ensures IsRing(Ring(root, items))
    ensures forall i :: 0 <= i < |items| ==> Ring(root, items)[i + 1] == items[i]
  {
    var s := Ring(root, items);
    assert s[..|s| - 1] == [root] + items;
  }

  function Inserted(items: seq<Entry>, k: nat, e: Entry): seq<Entry>
    requires k <= |items|
  {
    items[..k] + [e] + items[k..]
  }

  /** A node inserted into the ring is inserted into the entries. */
  lemma RingInsert(root: Entry, items: seq<Entry>, e: Entry, k: nat)
    requires k <= |items| && NoDup(items) && root !in items && e !in items && e != root
    ensures var s := Ring(root, items); s[..k + 1] + [e] + s[k + 1..] == Ring(root, Inserted(items, k, e))
    ensures NoDup(Inserted(items, k, e))
    ensures forall x :: x in Inserted(items, k, e) <==> x in items || x == e
    ensures e !in Ring(root, items)
  {
    var t := Inserted(items, k, e);
    forall x | x in items
      ensures x in t
    {
      var i := IndexOf(items, x);
      assert t[if i < k then i else i + 1] == x;
    }
  }

  /** A node taken out of the ring is taken out of the entries. */
  lemma RingRemove(root: Entry, items: seq<Entry>, j: nat)
    requires j < |items| && NoDup(items) && root !in items
    ensures var s := Ring(root, items); s[..j + 1] + s[j + 2..] == Ring(root, RemoveAt(items, j))
    ensures NoDup(RemoveAt(items, j))
    ensures forall x :: x in RemoveAt(items, j) <==> x in items && x != items[j]
  {
    assert IndexOf(items, items[j]) == j;
    WithoutKeeps(items, items[j]);
  }

  /** The j-th entry moved to just after the k-th node of the ring, unless it is that node. */
  function Moved(items: seq<Entry>, j: nat, k: nat): seq<Entry>
    requires j < |items| && k <= |items|
  {
    if k == j + 1 then items else Inserted(RemoveAt(items, j), if k <= j then k else k - 1, items[j])
  }

  lemma PutBack(items: seq<Entry>, j: nat)
    requires j < |items|
    ensures Inserted(RemoveAt(items, j), j, items[j]) == items
  {
  }

  /** Where the m-th entry is once the j-th is out. */
  function Rest(m: nat, j: nat): nat
    requires m != j
  {
    if m < j then m else m - 1
  }

  lemma MarkIndex(items: seq<Entry>, j: nat, m: nat)
    requires NoDup(items) && j < |items| && m < |items| && j != m
    ensures var r := RemoveAt(items, j); items[m] in r && IndexOf(r, items[m]) == Rest(m, j)
  {
    var r := RemoveAt(items, j);
    assert r[Rest(m, j)] == items[m];
  }

  lemma MovedNear(items: seq<Entry>, j: nat, m: nat)
    requires j < |items| && m < |items| && j != m
    ensures Moved(items, j, m) == Inserted(RemoveAt(items, j), Rest(m, j), items[j])
    ensures Moved(items, j, m + 1) == Inserted(RemoveAt(items, j), Rest(m, j) + 1, items[j])
  {
    PutBack(items, j);
  }

  lemma MovedInPlace(items: seq<Entry>, j: nat)
    requires j < |items|
    ensures Moved(items, j, j) == items && Moved(items, j, j + 1) == items
  {
    PutBack(items, j);
  }

  /** Moving after the node before a mark is moving before the mark; after its own node, after it. */
  lemma MovedAround(items: seq<Entry>, j: nat, m: nat)
    requires NoDup(items) && j < |items| && m < |items|
    ensures j == m ==> Moved(items, j, m) == items && Moved(items, j, m + 1) == items
    ensures j != m ==>
      var r, e, mark := RemoveAt(items, j), items[j], items[m];
      && e != mark && mark in r
      && Moved(items, j, m) == Inserted(r, IndexOf(r, mark), e)
      && Moved(items, j, m + 1) == Inserted(r, IndexOf(r, mark) + 1, e)
  {
    if j != m {
      MarkIndex(items, j, m);
      MovedNear(items, j, m);
    } else {
      MovedInPlace(items, j);
    }
  }

  /** Positions in the ring once the j-th entry is out; a node is the j-th entry only at its position. */
  lemma NodeShift(root: Entry, items: seq<Entry>, j: nat, k: nat)
    requires root !in items && NoDup(items) && j < |items| && k <= |items|
    ensures Ring(root, items)[k] == items[j] <==> k == j + 1
    ensures k != j + 1 ==> Ring(root, RemoveAt(items, j))[if k <= j then k else k - 1] == Ring(root, items)[k]
  {
  }

  lemma MovedToEnds(items: seq<Entry>, j: nat)
    requires j < |items|
    ensures Moved(items, j, 0) == [items[j]] + RemoveAt(items, j)
    ensures Moved(items, j, |items|) == RemoveAt(items, j) + [items[j]]
  {
  }

  class List {
    const root: Entry
    const kind: Kind
    var len: int
    var count: int
    var capacity: int
    ghost var items: seq<Entry>

    ghost function Nodes(): set<Entry>
      reads this`items
    {
      {root} + set e | e in items
    }

    /** The k-th node of the ring; 0 and |items| + 1 are the sentinel. */
    ghost function Node(k: nat): Entry
      requires k <= |items| + 1
      reads this`items
    {
      Ring(root, items)[k]
    }

    /** An entry of a policy list carries that list's flag. */
    ghost predicate Flagged(e: Entry)
      reads e`flags
    {
      kind != Wheel ==> kind in e.flags
    }

    ghost predicate Valid()
      reads this`items, Nodes()
    {
      && root.isRoot && root !in items && NoDup(items)
      && (forall e :: e in items ==> !e.isRoot && Flagged(e))
      && Chained(Ring(root, items), kind)
    }

    ghost function View(): LruList<Entry>
      reads this
    {
      LruList(items, len, count, capacity)
    }

    constructor (size: int, kind: Kind)
      ensures Valid() && fresh(root) && View() == LruList([], 0, 0, size) && this.kind == kind
    {
      root := new Entry(true, 0);
      this.kind := kind;
      len, count, capacity, items := 0, 0, size, [];
      new;
      root.SetNext(root, kind);
      root.SetPrev(root, kind);
    }

    /** Front and Back read the sentinel's links. */
    method Front() returns (e: Entry?)
      requires Valid()
      ensures e == if items == [] then null else items[0]
    {
      e := root.Next(kind);
      assert Ring(root, items)[0].Next(kind) == Ring(root, items)[1];
      if e == root {
        e := null;
      }
    }

    method Back() returns (e: Entry?)
      requires Valid()
      ensures e == if items == [] then null else items[|items| - 1]
    {
      e := root.Prev(kind);
      ghost var s := Ring(root, items);
      assert s[|s| - 2 + 1].Prev(kind) == s[|s| - 2];
      if e == root {
        e := null;
      }
    }

    /** Wire `e` in between the k-th node of the ring and the next. */
    method Splice(e: Entry, at: Entry, ghost k: nat)
      requires Valid() && !e.isRoot && e !in items && k <= |items| && at == Node(k)
      modifies e`prev, e`next, e`wheelPrev, e`wheelNext, at`next, at`wheelNext, Node(k + 1)`prev, Node(k + 1)`wheelPrev
      ensures Chained(Ring(root, Inserted(items, k, e)), kind)
      ensures OtherChainKept(e, kind) && OtherChainKept(at, kind) && OtherChainKept(Node(k + 1), kind)
    {
      ghost var s := Ring(root, items);
      RingOf(root, items);
      RingInsert(root, items, e, k);
      assert at.Next(kind) == s[k + 1];
      var nxt := at.Next(kind);
      LinkIn(e, kind, at, nxt, s, k);
    }

    /** Link `e` in after `at`, the k-th node of the ring. */
    method Attach(e: Entry, at: Entry, ghost k: nat)
      requires Valid() && !e.isRoot && Flagged(e) && e !in items && k <= |items| && at == Node(k)
      modifies this`items
      modifies e`prev, e`next, e`wheelPrev, e`wheelNext, at`next, at`wheelNext, Node(k + 1)`prev, Node(k + 1)`wheelPrev
      ensures Valid() && items == Inserted(old(items), k, e)
      ensures OtherChainKept(e, kind) && OtherChainKept(at, kind) && OtherChainKept(old(Node(k + 1)), kind)
    {
      RingInsert(root, items, e, k);
      Splice(e, at, k);
      items := Inserted(items, k, e);
    }

    /** Rewire the neighbours of the j-th entry to each other. */
    method Bypass(e: Entry, ghost j: nat)
      requires Valid() && j < |items| && e == items[j]
      modifies Node(j)`next, Node(j)`wheelNext, Node(j + 2)`prev, Node(j + 2)`wheelPrev
      ensures Chained(Ring(root, RemoveAt(items, j)), kind)
      ensures OtherChainKept(Node(j), kind) && OtherChainKept(Node(j + 2), kind)
    {
      ghost var s := Ring(root, items);
      RingOf(root, items);
      RingRemove(root, items, j);
      assert s[j + 1].Prev(kind) == s[j] && s[j + 1].Next(kind) == s[j + 1 + 1];
      var before, after := e.Prev(kind), e.Next(kind);
      LinkOut(e, kind, before, after, s, j + 1);
    }

    /** Link the j-th entry out; its own links still point into the list. */
    method Detach(e: Entry, ghost j: nat)
      requires Valid() && j < |items| && e == items[j]
      modifies this`items, Node(j)`next, Node(j)`wheelNext, Node(j + 2)`prev, Node(j + 2)`wheelPrev
      ensures Valid() && items == RemoveAt(old(items), j) && e !in items
      ensures OtherChainKept(old(Node(j)), kind) && OtherChainKept(old(Node(j + 2)), kind)
    {
      RingRemove(root, items, j);
      Bypass(e, j);
      items := RemoveAt(items, j);
    }

    method Insert(e: Entry, at: Entry, ghost k: nat)
      requires Valid() && !e.isRoot && e !in items && k <= |items| && at == Node(k)
      modifies this`len, this`count, this`items, e`flags,
               e`prev, e`next, e`wheelPrev, e`wheelNext, at`next, at`wheelNext, Node(k + 1)`prev, Node(k + 1)`wheelPrev
      ensures Valid() && View() == old(View()).Insert(k, e, e.policyWeight)
      ensures e.flags == if kind == Wheel then old(e.flags) else old(e.flags) + {kind}
      ensures OtherChainKept(e, kind) && OtherChainKept(at, kind) && OtherChainKept(old(Node(k + 1)), kind)
    {
      if kind != Wheel {
        e.flags := e.flags + {kind};
      }
      Attach(e, at, k);
      len := len + e.policyWeight;
      count := count + 1;
    }

    method Remove(e: Entry, ghost j: nat)
      requires Valid() && j < |items| && e == items[j]
      modifies this`len, this`count, this`items, e`flags,
               e`prev, e`next, e`wheelPrev, e`wheelNext,
               Node(j)`next, Node(j)`wheelNext, Node(j + 2)`prev, Node(j + 2)`wheelPrev
      ensures Valid() && View() == old(View()).RemoveAt(j, e.policyWeight)
      ensures e.Next(kind) == null && e.Prev(kind) == null
      ensures e.flags == if kind == Wheel then old(e.flags) else old(e.flags) - {Probation, Protected, Window}
      ensures OtherChainKept(e, kind) && OtherChainKept(old(Node(j)), kind) && OtherChainKept(old(Node(j + 2)), kind)
    {
      Unlink(e, j);
      len := len - e.policyWeight;
      count := count - 1;
    }

    /** Link the j-th entry out and clear its links and flags. */
    method Unlink(e: Entry, ghost j: nat)
      requires Valid() && j < |items| && e == items[j]
      modifies this`items, e`flags, e`prev, e`next, e`wheelPrev, e`wheelNext
      modifies Node(j)`next, Node(j)`wheelNext, Node(j + 2)`prev, Node(j + 2)`wheelPrev
      ensures Valid() && items == RemoveAt(old(items), j)
      ensures e.Next(kind) == null && e.Prev(kind) == null
      ensures e.flags == if kind == Wheel then old(e.flags) else old(e.flags) - {Probation, Protected, Window}
      ensures OtherChainKept(e, kind) && OtherChainKept(old(Node(j)), kind) && OtherChainKept(old(Node(j + 2)), kind)
    {
      Detach(e, j);
      assert e !in Nodes();
      Forget(e, kind);
    }

    method PushFront(e: Entry)
      requires Valid() && !e.isRoot && e !in items
      modifies this`len, this`count, this`items, Nodes()`prev, Nodes()`next, Nodes()`wheelPrev, Nodes()`wheelNext
      modifies e`prev, e`next, e`wheelPrev, e`wheelNext, e`flags
      ensures Valid() && View() == old(View()).PushFront(e, e.policyWeight)
      ensures e.flags == if kind == Wheel then old(e.flags) else old(e.flags) + {kind}
      ensures OtherChainKept(e, kind) && forall x :: x in old(Nodes()) ==> OtherChainKept(x, kind)
    {
      Insert(e, root, 0);
      assert items == [e] + old(items);
    }

    method PushBack(e: Entry)
      requires Valid() && !e.isRoot && e !in items
      modifies this`len, this`count, this`items, Nodes()`prev, Nodes()`next, Nodes()`wheelPrev, Nodes()`wheelNext
      modifies e`prev, e`next, e`wheelPrev, e`wheelNext, e`flags
      ensures Valid() && View() == old(View()).Insert(|old(items)|, e, e.policyWeight)
      ensures e.flags == if kind == Wheel then old(e.flags) else old(e.flags) + {kind}
      ensures OtherChainKept(e, kind) && forall x :: x in old(Nodes()) ==> OtherChainKept(x, kind)
    {
      assert root == Node(|items| + 1) && Node(|items| + 1).Prev(kind) == Node(|items|);
      Insert(e, root.Prev(kind), |items|);
    }

    method PopTail() returns (e: Entry?)
      requires Valid()
      modifies this`len, this`count, this`items, Nodes()`prev, Nodes()`next, Nodes()`wheelPrev, Nodes()`wheelNext
      modifies Nodes()`flags
      ensures Valid()
      ensures old(items) == [] ==> e == null && View() == old(View())
      ensures old(items) != [] ==>
        e == old(items[|items| - 1]) && View() == old(View()).RemoveAt(|old(items)| - 1, e.policyWeight)
      ensures e != null ==> e.Next(kind) == null && e.Prev(kind) == null
      ensures e != null ==>
        e.flags == if kind == Wheel then old(e.flags) else old(e.flags) - {Probation, Protected, Window}
      ensures forall x :: x in old(Nodes()) && x != e ==> x.flags == old(x.flags)
      ensures forall x :: x in old(Nodes()) ==> OtherChainKept(x, kind)
    {
      assert root == Node(|items| + 1) && Node(|items| + 1).Prev(kind) == Node(|items|);
      e := root.Prev(kind);
      if e != null && e != root {
        Remove(e, |items| - 1);
      } else {
        e := null;
      }
    }

    /** Move the j-th entry to just after `at`, the k-th node, unless it is that node. */
    method Move(e: Entry, at: Entry, ghost j: nat, ghost k: nat)
      requires Valid() && j < |items| && e == items[j] && k <= |items| && at == Node(k)
      modifies this`items, Nodes()`prev, Nodes()`next, Nodes()`wheelPrev, Nodes()`wheelNext
      ensures Valid()
      ensures items == Moved(old(items), j, k)
      ensures forall x :: x in old(Nodes()) ==> OtherChainKept(x, kind)
    {
      NodeShift(root, items, j, k);
      if e == at {
        return;
      }
      TakeOut(e, j);
      ghost var others := Nodes();
      PutIn(e, at, if k <= j then k else k - 1);
      forall x | x in old(Nodes())
        ensures OtherChainKept(x, kind)
      {
        assert x == e || x in others;
      }
    }

    /** Detach, as seen by the other chain. */
    method TakeOut(e: Entry, ghost j: nat)
      requires Valid() && j < |items| && e == items[j]
      modifies this`items, Nodes()`prev, Nodes()`next, Nodes()`wheelPrev, Nodes()`wheelNext
      ensures Valid() && items == RemoveAt(old(items), j) && e !in items && Nodes() == old(Nodes()) - {e}
      ensures forall x :: x in old(Nodes()) ==> OtherChainKept(x, kind)
    {
      RingRemove(root, items, j);
      Detach(e, j);
    }

    /** Attach, as seen by the other chain. */
    method PutIn(e: Entry, at: Entry, ghost k: nat)
      requires Valid() && !e.isRoot && Flagged(e) && e !in items && k <= |items| && at == Node(k)
      modifies this`items, Nodes()`prev, Nodes()`next, Nodes()`wheelPrev, Nodes()`wheelNext
      modifies e`prev, e`next, e`wheelPrev, e`wheelNext
      ensures Valid() && items == Inserted(old(items), k, e)
      ensures OtherChainKept(e, kind) && forall x :: x in old(Nodes()) ==> OtherChainKept(x, kind)
    {
      Attach(e, at, k);
    }

    method MoveToFront(e: Entry, ghost j: nat)
      requires Valid() && j < |items| && e == items[j]
      modifies this`items, Nodes()`prev, Nodes()`next, Nodes()`wheelPrev, Nodes()`wheelNext
      ensures Valid() && items == [e] + RemoveAt(old(items), j)
      ensures forall x :: x in old(Nodes()) ==> OtherChainKept(x, kind)
    {
      MovedToEnds(items, j);
      Move(e, root, j, 0);
    }

    method MoveToBack(e: Entry, ghost j: nat)
      requires Valid() && j < |items| && e == items[j]
      modifies this`items, Nodes()`prev, Nodes()`next, Nodes()`wheelPrev, Nodes()`wheelNext
      ensures Valid() && items == RemoveAt(old(items), j) + [e]
      ensures forall x :: x in old(Nodes()) ==> OtherChainKept(x, kind)
    {
      MovedToEnds(items, j);
      assert root == Node(|items| + 1) && Node(|items| + 1).Prev(kind) == Node(|items|);
      Move(e, root.Prev(kind), j, |items|);
    }

    method MoveBefore(e: Entry, mark: Entry, ghost j: nat, ghost m: nat)
      requires Valid() && j < |items| && e == items[j] && m < |items| && mark == items[m]
      modifies this`items, Nodes()`prev, Nodes()`next, Nodes()`wheelPrev, Nodes()`wheelNext
      ensures Valid()
      ensures e == mark ==> items == old(items)
      ensures e != mark ==> var r := RemoveAt(old(items), j); mark in r && items == Inserted(r, IndexOf(r, mark), e)
      ensures forall x :: x in old(Nodes()) ==> OtherChainKept(x, kind)
    {
      MovedAround(items, j, m);
      assert mark == Node(m + 1) && Node(m + 1).Prev(kind) == Node(m);
      Move(e, mark.Prev(kind), j, m);
    }

    method MoveAfter(e: Entry, mark: Entry, ghost j: nat, ghost m: nat)
      requires Valid() && j < |items| && e == items[j] && m < |items| && mark == items[m]
      modifies this`items, Nodes()`prev, Nodes()`next, Nodes()`wheelPrev, Nodes()`wheelNext
      ensures Valid()
      ensures e == mark ==> items == old(items)
      ensures e != mark ==> var r := RemoveAt(old(items), j); mark in r && items == Inserted(r, IndexOf(r, mark) + 1, e)
      ensures forall x :: x in old(Nodes()) ==> OtherChainKept(x, kind)
    {
      MovedAround(items, j, m);
      assert mark == Node(m + 1);
      Move(e, mark, j, m + 1);
    }

    /** The successor, or nil at the sentinel. */
    method After(e: Entry, ghost j: nat) returns (n: Entry?)
      requires Valid() && j < |items| && e == items[j]
      ensures n == if j + 1 < |items| then items[j + 1] else null
    {
      assert e == Node(j + 1) && Node(j + 1).Next(kind) == Node(j + 1 + 1);
      n := e.Next(kind);
      if n.isRoot {
        n := null;
      }
    }

    method Before(e: Entry, ghost j: nat) returns (n: Entry?)
      requires Valid() && j < |items| && e == items[j]
      ensures n == if j > 0 then items[j - 1] else null
    {
      assert Node(j + 1) == e && Node(j + 1).Prev(kind) == Node(j);
      n := e.Prev(kind);
      if n.isRoot {
        n := null;
      }
    }

    method Contains(x: Entry) returns (found: bool)
      requires Valid()
      ensures found <==> x in items
    {
      ghost var j := 0;
      var e := Front();
      while e != null
        invariant j <= |items| && e == (if j < |items| then items[j] else null) && x !in items[..j]
        decreases |items| - j
      {
        if e == x {
          return true;
        }
        e := After(e, j);
        j := j + 1;
      }
      return false;
    }

    /** Walking forward meets the entries in order. */
    method Entries() returns (s: seq<Entry>)
      requires Valid()
      ensures s == items
    {
      s := [];
      var e := Front();
      while e != null
        invariant |s| <= |items| && s == items[..|s|] && e == (if |s| < |items| then items[|s|] else null)
        decreases |items| - |s|
      {
        var next := After(e, |s|);
        s := s + [e];
        e := next;
      }
    }

    /** Walking backward meets them in the reverse order. */
    method EntriesBackward() returns (s: seq<Entry>)
      requires Valid()
      ensures |s| == |items| && forall i :: 0 <= i < |s| ==> s[i] == items[|items| - 1 - i]
    {
      s := [];
      var e := Back();
      while e != null
        invariant |s| <= |items| && (forall i :: 0 <= i < |s| ==> s[i] == items[|items| - 1 - i])
        invariant e == if |s| < |items| then items[|items| - 1 - |s|] else null
        decreases |items| - |s|
      {
        var prev := Before(e, |items| - 1 - |s|);
        s := s + [e];
        e := prev;
      }
    }
  }

  /** A list of one chain is untouched by an operation on the other, whatever entries they share. */
  twostate lemma OtherListKept(other: List, kind: Kind)
    requires (other.kind == Wheel) != (kind == Wheel)
    requires old(other.Valid()) && unchanged(other)
    requires forall x :: x in other.Nodes() ==> OtherChainKept(x, kind)
    ensures other.Valid() && other.View() == old(other.View())
  {
    var s := Ring(other.root, other.items);
    forall i | 0 <= i < |s| - 1
      ensures s[i].Next(other.kind) == s[i + 1] && s[i + 1].Prev(other.kind) == s[i]
    {
      assert s[i] in other.Nodes() && s[i + 1] in other.Nodes();
      assert OtherChainKept(s[i], kind) && OtherChainKept(s[i + 1], kind);
      assert old(s[i].Next(other.kind)) == s[i + 1] && old(s[i + 1].Prev(other.kind)) == s[i];
    }
    forall e | e in other.items
      ensures other.Flagged(e)
    {
      assert e in other.Nodes() && old(other.Flagged(e));
      assert OtherChainKept(e, kind);
    }
  }
}
