/**
 The eviction policy on linked lists: the three `List` objects of internal/tlfu.go and internal/slru.go and
 the entries' own fields realize one `Policy`, and linking and unlinking an entry does to the lists what
 `Linked` and `Unlinked` do to the policy. Everything the policy does to its lists is made of these two.
 */
module PolicyLists {
  import opened Seqs
  import opened LruList
  import LinkedList
  import TinyLfu

  type Zone = TinyLfu.Zone
  type Policy = TinyLfu.Policy
  type Entry = LinkedList.Entry
  type List = LinkedList.List

  function KindOf(z: Zone): LinkedList.Kind {
    match z
    case Window => LinkedList.Window
    case Probation => LinkedList.Probation
    case Protected => LinkedList.Protected
  }

  // ----- Entries and their identifiers -----

  ghost predicate Injective(name: map<Entry, int>) {
    forall e, f :: e in name && f in name && name[e] == name[f] ==> e == f
  }

  ghost predicate Named(items: seq<Entry>, name: map<Entry, int>) {
    forall e :: e in items ==> e in name
  }

  ghost function Names(items: seq<Entry>, name: map<Entry, int>): (s: seq<int>)
    requires Named(items, name)
    ensures |s| == |items| && forall i :: 0 <= i < |s| ==> s[i] == name[items[i]]
  {
    seq(|items|, i requires 0 <= i < |items| => name[items[i]])
  }

  lemma NamesIndex(items: seq<Entry>, name: map<Entry, int>, j: nat)
    requires Named(items, name) && Injective(name) && NoDup(items) && j < |items|
    ensures name[items[j]] in Names(items, name) && IndexOf(Names(items, name), name[items[j]]) == j
    ensures Named(RemoveAt(items, j), name) && Names(RemoveAt(items, j), name) == RemoveAt(Names(items, name), j)
  {
    assert Names(items, name)[j] == name[items[j]];
  }

  /** Removing from the named list is naming the list with the entry removed. */
  lemma NamedRemove(v: LruList<Entry>, n: LruList<int>, name: map<Entry, int>, j: nat, w: int)
    requires Named(v.items, name) && Injective(name) && NoDup(v.items) && j < |v.items|
    requires n == LruList(Names(v.items, name), v.len, v.count, v.capacity)
    ensures name[v.items[j]] in n.items && IndexOf(n.items, name[v.items[j]]) == j
    ensures var r := v.RemoveAt(j, w);
      Named(r.items, name) && n.RemoveAt(j, w) == LruList(Names(r.items, name), r.len, r.count, r.capacity)
  {
    NamesIndex(v.items, name, j);
  }

  lemma NamesPush(items: seq<Entry>, name: map<Entry, int>, e: Entry)
    requires Named(items, name) && e in name
    ensures Named([e] + items, name) && Names([e] + items, name) == [name[e]] + Names(items, name)
  {
  }

  lemma LinkedPrev(l: List, e: Entry)
    requires l.Valid() && l.kind != LinkedList.Wheel && e in l.items
    ensures e.prev != null
  {
    var j := IndexOf(l.items, e);
    assert l.Node(j + 1) == e && l.Node(j + 1).Prev(l.kind) == l.Node(j);
  }

  // ----- Three lists that share no node -----

  ghost predicate Trio(l: List, a: List, b: List)
    reads l, a, b, l.Nodes(), a.Nodes(), b.Nodes()
  {
    && l.Valid() && a.Valid() && b.Valid()
    && l.Nodes() !! a.Nodes() && l.Nodes() !! b.Nodes() && a.Nodes() !! b.Nodes()
    && l != a && l != b && a != b
  }

  /** What an operation on list `l` leaves of the other lists. */
  twostate predicate Spares(a: List)
    reads a
  {
    a.View() == old(a.View())
  }

  method PushApart(l: List, a: List, b: List, e: Entry)
    requires Trio(l, a, b) && !e.isRoot && e !in l.items && e !in a.items && e !in b.items
    requires l.kind != LinkedList.Wheel
    modifies l`len, l`count, l`items, l.Nodes()`prev, l.Nodes()`next, l.Nodes()`wheelPrev, l.Nodes()`wheelNext
    modifies e`prev, e`next, e`wheelPrev, e`wheelNext, e`flags
    ensures Trio(l, a, b) && Spares(a) && Spares(b)
    ensures l.View() == old(l.View()).PushFront(e, e.policyWeight)
    ensures e.flags == old(e.flags) + {l.kind}
    ensures forall f :: f in l.items ==> f.prev != null
  {
    l.PushFront(e);
    forall f | f in l.items
      ensures f.prev != null
    {
      LinkedPrev(l, f);
    }
  }

  method RemoveApart(l: List, a: List, b: List, e: Entry, ghost j: nat)
    requires Trio(l, a, b) && l.kind != LinkedList.Wheel && j < |l.items| && e == l.items[j]
    modifies l`len, l`count, l`items, l.Nodes()`prev, l.Nodes()`next, l.Nodes()`wheelPrev, l.Nodes()`wheelNext
    modifies e`flags
    ensures Trio(l, a, b) && Spares(a) && Spares(b)
    ensures l.View() == old(l.View()).RemoveAt(j, e.policyWeight) && e !in l.items
    ensures e.flags == old(e.flags) - {LinkedList.Probation, LinkedList.Protected, LinkedList.Window} && e.prev == null
    ensures forall f :: f in l.items ==> f.prev != null
    ensures forall f :: f in old(l.items) && f != e ==> f in l.items
  {
    LinkedList.RingRemove(l.root, l.items, j);
    l.Remove(e, j);
    forall f | f in l.items
      ensures f.prev != null
    {
      LinkedPrev(l, f);
    }
  }

  // ----- The lists and the policy -----

  /** The list as the policy sees it. */
  ghost predicate Shows(l: List, v: LruList<int>, name: map<Entry, int>)
    reads l
  {
    Named(l.items, name) && v == LruList(Names(l.items, name), l.len, l.count, l.capacity)
  }

  /** The entry's fields are what the policy says of it: its weight, the one flag of its zone, and a link
      exactly when it has a zone. */
  ghost predicate Agrees(e: Entry, x: int, p: Policy)
    reads e
  {
    && !e.isRoot && x in p.weight && p.weight[x] == e.policyWeight
    && e.flags == (if x in p.zone then {KindOf(p.zone[x])} else {})
    && (e.prev != null <==> x in p.zone)
  }

  ghost predicate AllAgree(p: Policy, name: map<Entry, int>)
    reads name.Keys
  {
    Injective(name) && forall e :: e in name ==> Agrees(e, name[e], p)
  }

  /** The list holds exactly the entries the policy has in zone `z`. */
  ghost predicate Holds(l: List, z: Zone, p: Policy, name: map<Entry, int>)
    reads l`items
  {
    && l.kind == KindOf(z)
    && forall e :: e in name ==> (e in l.items <==> name[e] in p.zone && p.zone[name[e]] == z)
  }

  method LinkFront(l: List, a: List, b: List, ghost z: Zone, e: Entry, ghost p: Policy, ghost name: map<Entry, int>)
    requires Trio(l, a, b) && Holds(l, z, p, name) && AllAgree(p, name) && Shows(l, TinyLfu.ListOf(p, z), name)
    requires e in name && name[e] !in p.zone && e !in l.items && e !in a.items && e !in b.items
    modifies l`len, l`count, l`items, l.Nodes()`prev, l.Nodes()`next, l.Nodes()`wheelPrev, l.Nodes()`wheelNext
    modifies e`prev, e`next, e`wheelPrev, e`wheelNext, e`flags
    ensures Trio(l, a, b) && Spares(a) && Spares(b)
    ensures Shows(l, TinyLfu.ListOf(p, z).PushFront(name[e], p.weight[name[e]]), name)
    ensures AllAgree(TinyLfu.Linked(p, z, name[e]), name)
  {
    NamesPush(l.items, name, e);
    PushApart(l, a, b, e);
    ghost var q := TinyLfu.Linked(p, z, name[e]);
    forall f | f in name
      ensures Agrees(f, name[f], q)
    {
      assert old(Agrees(f, name[f], p));
      if f != e {
        assert f in old(l.items) ==> f in l.items;
      }
    }
  }

  method LinkOut(l: List, a: List, b: List, ghost z: Zone, e: Entry, ghost p: Policy, ghost name: map<Entry, int>)
    requires Trio(l, a, b) && Holds(l, z, p, name) && AllAgree(p, name) && Shows(l, TinyLfu.ListOf(p, z), name)
    requires e in name && name[e] in p.zone && p.zone[name[e]] == z
    modifies l`len, l`count, l`items, l.Nodes()`prev, l.Nodes()`next, l.Nodes()`wheelPrev, l.Nodes()`wheelNext
    modifies e`flags
    ensures Trio(l, a, b) && Spares(a) && Spares(b)
    ensures var v, x := TinyLfu.ListOf(p, z), name[e];
      x in v.items && Shows(l, v.RemoveAt(IndexOf(v.items, x), p.weight[x]), name)
    ensures AllAgree(TinyLfu.Unlinked(p, name[e]), name)
  {
    ghost var j := IndexOf(l.items, e);
    NamedRemove(l.View(), TinyLfu.ListOf(p, z), name, j, e.policyWeight);
    RemoveApart(l, a, b, e, j);
    ghost var q := TinyLfu.Unlinked(p, name[e]);
    forall f | f in name
      ensures Agrees(f, name[f], q)
    {
      assert old(Agrees(f, name[f], p));
      if f != e {
        assert f in old(l.items) ==> f in l.items;
      }
    }
  }

  class PolicyLists {
    const window: List
    const probation: List
    const protected: List

    constructor (windowSize: int, protectedSize: int)
      ensures Valid()
      ensures window.View() == LruList([], 0, 0, windowSize) && probation.View() == LruList([], 0, 0, 0)
      ensures protected.View() == LruList([], 0, 0, protectedSize)
    {
      var w := new LinkedList.List(windowSize, LinkedList.Window);
      assert w.Nodes() == {w.root};
      var pb := new LinkedList.List(0, LinkedList.Probation);
      assert w.Valid() && pb.Nodes() == {pb.root};
      var pt := new LinkedList.List(protectedSize, LinkedList.Protected);
      assert w.Valid() && pb.Valid() && pt.Nodes() == {pt.root};
      window, probation, protected := w, pb, pt;
    }

    /** Empty lists realize the empty policy. */
    lemma EmptyRealizes(size: int)
      requires window.View() == LruList([], 0, 0, window.capacity)
      requires probation.View() == LruList([], 0, 0, probation.capacity)
      requires protected.View() == LruList([], 0, 0, protected.capacity)
      ensures Realizes(TinyLfu.Policy(LruList([], 0, 0, window.capacity), LruList([], 0, 0, probation.capacity),
        LruList([], 0, 0, protected.capacity), map[], map[], 0, size), map[])
    {
    }

    /** Three lists of the right kinds that share no node. */
    ghost predicate Valid()
      reads window, probation, protected, window.Nodes(), probation.Nodes(), protected.Nodes()
    {
      && window.kind == LinkedList.Window && probation.kind == LinkedList.Probation
      && protected.kind == LinkedList.Protected && Trio(window, probation, protected)
    }

    /** The lists show what the policy's lists are, and every entry's fields agree with the policy. */
    ghost predicate Realizes(p: Policy, name: map<Entry, int>)
      reads window, probation, protected, name.Keys
    {
      && AllAgree(p, name)
      && Shows(window, p.window, name) && Shows(probation, p.probation, name) && Shows(protected, p.protected, name)
    }

    lemma HoldsAt(l: List, z: Zone, p: Policy, name: map<Entry, int>)
      requires TinyLfu.Shape(p) && AllAgree(p, name) && l.kind == KindOf(z) && Shows(l, TinyLfu.ListOf(p, z), name)
      ensures Holds(l, z, p, name)
    {
      TinyLfu.ListOfSound(p, z);
      var v := TinyLfu.ListOf(p, z);
      forall e | e in name
        ensures e in l.items <==> name[e] in v.items
      {
        if e in l.items {
          var j := IndexOf(l.items, e);
          assert v.items[j] == name[e];
        }
        if name[e] in v.items {
          var j := IndexOf(v.items, name[e]);
          assert name[l.items[j]] == name[e];
        }
      }
    }

    /** In every state of the policy, a list holds an entry exactly when the entry has that list's flag, and an
        entry is in some list exactly when its previous link is not nil. */
    lemma FlagsDecide(p: Policy, name: map<Entry, int>, e: Entry)
      requires Valid() && Realizes(p, name) && TinyLfu.Shape(p) && e in name
      ensures e in window.items <==> LinkedList.Window in e.flags
      ensures e in probation.items <==> LinkedList.Probation in e.flags
      ensures e in protected.items <==> LinkedList.Protected in e.flags
      ensures e.prev != null <==> e in window.items || e in probation.items || e in protected.items
    {
      HoldsAt(window, TinyLfu.Window, p, name);
      HoldsAt(probation, TinyLfu.Probation, p, name);
      HoldsAt(protected, TinyLfu.Protected, p, name);
      assert Agrees(e, name[e], p);
    }

    /** Put an unlinked entry at the front of a list. */
    method PushFront(z: Zone, e: Entry, ghost p: Policy, ghost name: map<Entry, int>)
      requires Valid() && Realizes(p, name) && TinyLfu.Shape(p) && e in name && name[e] !in p.zone
      modifies window, probation, protected, window.Nodes(), probation.Nodes(), protected.Nodes(), e
      ensures Valid() && Realizes(TinyLfu.Linked(p, z, name[e]), name)
    {
      HoldsAt(window, TinyLfu.Window, p, name);
      HoldsAt(probation, TinyLfu.Probation, p, name);
      HoldsAt(protected, TinyLfu.Protected, p, name);
      match z {
        case Window => LinkFront(window, probation, protected, z, e, p, name);
        case Probation => LinkFront(probation, window, protected, z, e, p, name);
        case Protected => LinkFront(protected, window, probation, z, e, p, name);
      }
    }

    /** Take a linked entry out of the list its flag names. */
    method Unlink(e: Entry, ghost p: Policy, ghost name: map<Entry, int>)
      requires Valid() && Realizes(p, name) && TinyLfu.Shape(p) && e in name && name[e] in p.zone
      modifies window, probation, protected, window.Nodes(), probation.Nodes(), protected.Nodes(), e
      ensures name[e] in TinyLfu.ListOf(p, p.zone[name[e]]).items && name[e] in p.weight
      ensures Valid() && Realizes(TinyLfu.Unlinked(p, name[e]), name)
    {
      assert Agrees(e, name[e], p);
      HoldsAt(window, TinyLfu.Window, p, name);
      HoldsAt(probation, TinyLfu.Probation, p, name);
      HoldsAt(protected, TinyLfu.Protected, p, name);
      if LinkedList.Window in e.flags {
        LinkOut(window, probation, protected, TinyLfu.Window, e, p, name);
      } else if LinkedList.Probation in e.flags {
        LinkOut(probation, window, protected, TinyLfu.Probation, e, p, name);
      } else {
        LinkOut(protected, window, probation, TinyLfu.Protected, e, p, name);
      }
    }
  }
}
