/**
 The event protocol between the sharded map and the eviction policy, internal/store.go.

 API calls change the shard map under the shard lock and then send an event; the maintenance
 goroutine applies events to the policy under the policy lock. A goroutine may be delayed between
 the two, so `pending` holds every event not yet applied, sent or not, and any one of them may be
 applied next. Policy work on one entry that touches the shared map again (removeEntry) is split
 at each shared read or write: `crit` says where the holder of the policy lock stands. API calls
 and the clock may run at every point between.

 Which entries the policy evicts, and when entries expire, is left open. Keys and values are only
 compared. `ideal`, `notices`, `spared`, `refreshed`, `lost` and `rejected` are history: no step
 reads them.
 */
module StoreProtocol {
  import opened Seqs

  type Id = int
  type Key = int
  type Value = int

  datatype Entry = Entry(
    key: Key, value: Value, weight: int, expire: int,               // guarded by the shard lock
    policyWeight: int, removed: bool, deleted: bool,                // guarded by the policy lock, as are
    wheeled: bool, at: int)  // whether it is in the timer wheel, and the expiry it was last scheduled for

  datatype Event =
    | New(id: Id, cost: int)
    | Update(id: Id, change: int, reschedule: bool)
    | Remove(id: Id)

  /** Where the holder of the policy lock stands. */
  datatype Crit =
    | Free
    | Evicting                         // inside Set or UpdateCost: may evict more, or finish
    | Testing(id: Id)                  // removeEntry(EXPIRED): removed flag set, expire not re-read yet
    | Dropping(id: Id, evicted: bool)  // removeEntry: policy part done, shard map not yet updated

  datatype State = State(
    now: int,
    shard: map<Key, Id>,
    entries: map<Id, Entry>,
    pending: seq<Event>,
    lru: seq<Id>,          // the entries linked in the three policy lists
    weightedSize: int,     // an unsigned 64-bit word
    crit: Crit,
    ideal: map<Key, Value>, // what accepted Sets and Deletes alone would leave
    notices: seq<Id>,       // removal listener calls
    spared: set<Id>,        // left in place by the early return of an expiry whose entry was just refreshed
    refreshed: set<Id>,     // refreshed between its expiry test and its removal from the map
    lost: map<Id, int>,     // weight carried by events that were dropped on an entry
    rejected: set<Id>)      // already due when their NEW was applied, so never handed to the policy

  const WORD: int := 0x1_0000_0000_0000_0000

  function Wrap(x: int): int {
    x % WORD
  }

  ghost predicate InMap(s: State, id: Id)
    requires id in s.entries
  {
    var k := s.entries[id].key;
    k in s.shard && s.shard[k] == id
  }

  ghost predicate Init(s: State) {
    && s.shard == map[] && s.entries == map[] && s.pending == [] && s.lru == []
    && s.weightedSize == 0 && s.crit == Free
    && s.ideal == map[] && s.notices == [] && s.spared == {} && s.refreshed == {} && s.lost == map[] && s.rejected == {}
  }

  // ----- Steps -----

  datatype Action =
    | Clock(t: int)
    | Set(key: Key, value: Value, cost: int, expire: int, newId: Id)
    | Delete(key: Key)
    | Sink(i: nat)
    | WheelExpire(id: Id)
    | TestExpire
    | Evict(id: Id)
    | EndEvict
    | Drop

  ghost predicate Enabled(s: State, a: Action) {
    match a
    case Clock(t) => s.now <= t
    case Set(k, v, cost, expire, id) => id !in s.entries
    case Delete(k) => true
    case Sink(i) => s.crit == Free && i < |s.pending| && s.pending[i].id in s.entries
    case WheelExpire(id) => s.crit == Free && id in s.entries && s.entries[id].wheeled && s.entries[id].expire <= s.now
    case TestExpire => s.crit.Testing? && s.crit.id in s.entries
    case Evict(id) => s.crit == Evicting && id in s.lru && id in s.entries
    case EndEvict => s.crit == Evicting
    case Drop => s.crit.Dropping? && s.crit.id in s.entries
  }

  ghost function Send(s: State, e: Event): State {
    s.(pending := s.pending + [e])
  }

  ghost function Put(s: State, id: Id, e: Entry): State {
    s.(entries := s.entries[id := e])
  }

  ghost function Lose(s: State, id: Id, weight: int): State {
    s.(lost := s.lost[id := (if id in s.lost then s.lost[id] else 0) + weight])
  }

  /** policy.Remove, when the entry is linked. */
  ghost function Unlink(s: State, id: Id): State
    requires id in s.entries
  {
    if id in s.lru then
      s.(lru := Without(s.lru, id), weightedSize := Wrap(s.weightedSize - s.entries[id].policyWeight))
    else
      s
  }

  /** setShardWithoutLock, then toPolicy, when the key has an entry: refresh it in place. */
  ghost function Refresh(s: State, id: Id, v: Value, cost: int, expire: int): State
    requires id in s.entries
  {
    var e := s.entries[id];
    var newExpire := if expire > 0 then expire else e.expire;
    Send(Put(s, id, e.(value := v, weight := cost, expire := newExpire)),
        Update(id, cost - e.weight, newExpire != e.expire))
  }

  /** The same when it has none. */
  ghost function Create(s: State, k: Key, v: Value, cost: int, expire: int, newId: Id): State {
    var e := Entry(k, v, cost, expire, 0, false, false, false, 0);
    s.(entries := s.entries[newId := e], shard := s.shard[k := newId], lost := s.lost[newId := 0],
       pending := s.pending + [New(newId, cost)])
  }

  ghost function DoSet(s: State, k: Key, v: Value, cost: int, expire: int, newId: Id): State
    requires k in s.shard ==> s.shard[k] in s.entries
  {
    var t := s.(ideal := s.ideal[k := v]);
    if k in s.shard then Refresh(t, s.shard[k], v, cost, expire) else Create(t, k, v, cost, expire, newId)
  }

  ghost function DoDelete(s: State, k: Key): State {
    var t := s.(ideal := s.ideal - {k});
    if k in s.shard then Send(t.(shard := s.shard - {k}), Remove(s.shard[k])) else t
  }

  /** An entry that is already due goes to removeEntry(EXPIRED) instead of the policy. */
  ghost function Reject(s: State, id: Id, cost: int): State
    requires id in s.entries
  {
    Lose(Put(s, id, s.entries[id].(removed := true)), id, cost).(crit := Testing(id), rejected := s.rejected + {id})
  }

  /** Schedule if it has an expiry, add the cost to the policy weight, and hand it to policy.Set. */
  ghost function Link(s: State, id: Id, cost: int): State
    requires id in s.entries
  {
    var e := s.entries[id];
    var pw := e.policyWeight + cost;
    Put(s, id, Timed(e.(removed := false, policyWeight := pw), e.expire != 0))
      .(weightedSize := Wrap(s.weightedSize + pw), lru := if id in s.lru then s.lru else [id] + s.lru, crit := Evicting)
  }

  /** timerwheel.schedule, if asked for. */
  function Timed(e: Entry, schedule: bool): Entry {
    if schedule then e.(wheeled := true, at := e.expire) else e
  }

  predicate Due(e: Entry, now: int) {
    e.expire != 0 && e.expire <= now
  }

  ghost function SinkNew(s: State, id: Id, cost: int): State
    requires id in s.entries
  {
    if Due(s.entries[id], s.now) then Reject(s, id, cost) else Link(s, id, cost)
  }

  ghost function Reweigh(s: State, id: Id, change: int, reschedule: bool): State
    requires id in s.entries
  {
    var e := s.entries[id];
    var t := Put(s, id, Timed(e.(policyWeight := e.policyWeight + change), reschedule));
    if id in s.lru && change != 0 then
      t.(weightedSize := Wrap(s.weightedSize + change), crit := Evicting)
    else
      t
  }

  ghost function SinkUpdate(s: State, id: Id, change: int, reschedule: bool): State
    requires id in s.entries
  {
    if s.entries[id].removed then Lose(s, id, change) else Reweigh(s, id, change, reschedule)
  }

  ghost function SinkRemove(s: State, id: Id): State
    requires id in s.entries
  {
    var e := s.entries[id];
    if e.removed then
      Put(s, id, e.(deleted := true))
    else
      var t := Unlink(s, id);
      Put(t, id, e.(deleted := true, removed := true, wheeled := false)).(notices := t.notices + [id])
  }

  /** sinkWrite. */
  ghost function DoSink(s: State, i: nat): State
    requires i < |s.pending| && s.pending[i].id in s.entries
  {
    var t := s.(pending := RemoveAt(s.pending, i));
    if s.entries[s.pending[i].id].deleted then t else Apply(t, s.pending[i])
  }

  ghost function Apply(s: State, e: Event): State
    requires e.id in s.entries
  {
    match e
    case New(id, cost) => SinkNew(s, id, cost)
    case Update(id, change, reschedule) => SinkUpdate(s, id, change, reschedule)
    case Remove(id) => SinkRemove(s, id)
  }

  /** The wheel unlinks a due entry and enters removeEntry(EXPIRED). */
  ghost function DoWheelExpire(s: State, id: Id): State
    requires id in s.entries
  {
    Put(s, id, s.entries[id].(removed := true, wheeled := false)).(crit := Testing(id))
  }

  /** removeEntry(EXPIRED) re-reads the expiry; if it moved, it returns with the removed flag set. */
  ghost function DoTest(s: State, id: Id): State
    requires id in s.entries
  {
    var e := s.entries[id];
    if e.expire > s.now then
      s.(spared := s.spared + {id}, crit := Free)
    else
      Put(Unlink(s, id), id, e.(wheeled := false)).(crit := Dropping(id, false))
  }

  /** policy.Remove with its callback, up to the shard map. */
  ghost function DoEvict(s: State, id: Id): State
    requires id in s.entries
  {
    var e := s.entries[id];
    Put(Unlink(s, id), id, e.(removed := true, wheeled := false)).(crit := Dropping(id, true))
  }

  /** shard.delete, which removes the key only if it still maps to this very entry. */
  ghost function DoDrop(s: State, id: Id, evicted: bool): State
    requires id in s.entries
  {
    var e := s.entries[id];
    var t := s.(crit := if evicted then Evicting else Free,
                refreshed := if !evicted && e.expire > s.now then s.refreshed + {id} else s.refreshed);
    if InMap(s, id) then
      t.(shard := s.shard - {e.key}, notices := s.notices + [id])
    else
      t
  }

  ghost function Do(s: State, a: Action): State
    requires Enabled(s, a)
    requires forall k :: k in s.shard ==> s.shard[k] in s.entries
  {
    match a
    case Clock(t) => s.(now := t)
    case Set(k, v, cost, expire, id) => DoSet(s, k, v, cost, expire, id)
    case Delete(k) => DoDelete(s, k)
    case Sink(i) => DoSink(s, i)
    case WheelExpire(id) => DoWheelExpire(s, id)
    case TestExpire => DoTest(s, s.crit.id)
    case Evict(id) => DoEvict(s, id)
    case EndEvict => s.(crit := Free)
    case Drop => DoDrop(s, s.crit.id, s.crit.evicted)
  }

  // ----- The invariant, entry by entry -----

  datatype Queue = Queue(news: int, removes: int, owed: int, reschedules: int)

  function Count(q: Queue, e: Event): Queue {
    match e
    case New(_, cost) => q.(news := q.news + 1, owed := q.owed + cost)
    case Update(_, change, r) =>
      q.(owed := q.owed + change, reschedules := if r then q.reschedules + 1 else q.reschedules)
    case Remove(_) => q.(removes := q.removes + 1)
  }

  /** The events pending for one entry, summed up. */
  ghost function Mine(p: seq<Event>, id: Id): Queue {
    if p == [] then Queue(0, 0, 0, 0)
    else
      var q := Mine(p[..|p| - 1], id);
      var e := p[|p| - 1];
      if e.id == id then Count(q, e) else q
  }

  lemma MineSend(p: seq<Event>, e: Event, id: Id)
    ensures Mine(p + [e], id) == if e.id == id then Count(Mine(p, id), e) else Mine(p, id)
  {
    assert (p + [e])[..|p|] == p;
  }

  lemma CountCommutes(q: Queue, a: Event, b: Event)
    ensures Count(Count(q, a), b) == Count(Count(q, b), a)
  {
  }

  lemma {:induction false} MineTake(p: seq<Event>, i: nat, id: Id)
    requires i < |p|
    ensures Mine(p, id) == if p[i].id == id then Count(Mine(RemoveAt(p, i), id), p[i]) else Mine(RemoveAt(p, i), id)
  {
    var n := |p| - 1;
    if i == n {
      assert RemoveAt(p, i) == p[..n];
    } else {
      var front := p[..n];
      MineTake(front, i, id);
      var rest := RemoveAt(front, i);
      assert RemoveAt(p, i) == rest + [p[n]];
      MineSend(rest, p[n], id);
      CountCommutes(Mine(rest, id), p[i], p[n]);
    }
  }

  lemma {:induction false} MineNonNegative(p: seq<Event>, id: Id)
    ensures Mine(p, id).news >= 0 && Mine(p, id).removes >= 0 && Mine(p, id).reschedules >= 0
  {
    if p != [] {
      MineNonNegative(p[..|p| - 1], id);
    }
  }

  lemma {:induction false} MineNone(p: seq<Event>, id: Id)
    requires forall i :: 0 <= i < |p| ==> p[i].id != id
    ensures Mine(p, id) == Queue(0, 0, 0, 0)
  {
    if p != [] {
      MineNone(p[..|p| - 1], id);
    }
  }

  datatype Role = Bystander | UnderTest | ExpiredDrop | EvictedDrop

  function RoleOf(c: Crit, id: Id): Role {
    match c
    case Testing(x) => if x == id then UnderTest else Bystander
    case Dropping(x, evicted) => if x != id then Bystander else if evicted then EvictedDrop else ExpiredDrop
    case _ => Bystander
  }

  /** Everything the protocol knows about one entry. */
  datatype Local = Local(e: Entry, inMap: bool, linked: bool, q: Queue, lost: int,
                         spared: bool, refreshed: bool, notices: int, role: Role, rejected: bool)

  function Is(id: Id): Id -> int {
    n => if n == id then 1 else 0
  }

  ghost function View(s: State, id: Id): Local
    requires id in s.entries && id in s.lost
  {
    Local(s.entries[id], InMap(s, id), id in s.lru, Mine(s.pending, id), s.lost[id],
          id in s.spared, id in s.refreshed, Tally(s.notices, Is(id)), RoleOf(s.crit, id), id in s.rejected)
  }

  ghost predicate Sound(v: Local, now: int) {
    && 0 <= v.q.news <= 1 && 0 <= v.q.removes <= 1 && 0 <= v.q.reschedules && 0 <= v.notices <= 1
    && (v.q.reschedules > 0 || v.e.wheeled || v.role == UnderTest || v.role == ExpiredDrop ==> v.e.expire != 0)
    && (v.role != Bystander ==> v.e.removed)
    && (v.role == EvictedDrop ==> v.q.news == 0)
    // linked entries
    && (v.linked ==> v.q.news == 0 && v.role != ExpiredDrop && v.role != EvictedDrop)
    && (v.linked && v.e.removed ==> v.spared || v.role == UnderTest)
    && (v.linked && v.e.deleted ==> v.spared)
    && (v.linked && !v.inMap ==> v.q.removes == 1 || v.refreshed || v.spared)
    // live entries
    && (v.inMap ==> v.q.removes == 0 && !v.e.deleted && v.notices == 0)
    && (v.inMap && v.role == Bystander ==> v.q.news == 1 || v.linked || v.spared)
    && (v.inMap && v.e.removed ==> v.role != Bystander || v.spared)
    && (v.inMap ==> v.e.weight == v.e.policyWeight + v.q.owed + v.lost)
    && (v.inMap && v.lost != 0 ==> v.spared || v.role != Bystander)
    // what keeps a live entry out of the policy, and a dead one in it
    && (v.linked || v.q.news == 1 ==> !v.rejected)
    && (v.inMap && (v.role == Bystander || v.role == UnderTest) && v.q.news == 0 ==> v.linked || v.rejected)
    && (!v.inMap && v.q.removes == 0 ==> v.e.deleted || v.notices == 1)
    // live entries with an expiry are in the wheel
    && (v.inMap && v.role == Bystander && v.e.expire != 0 && v.q.news == 0 && v.q.reschedules == 0 ==>
          (v.e.wheeled && v.e.at == v.e.expire) || v.spared)
    // entries out of the map
    && (v.notices == 1 ==> v.q.removes == 0)
    && (v.q.news == 1 && !v.inMap && v.q.removes == 0 && !v.e.deleted && !v.refreshed ==> Due(v.e, now))
  }

  ghost function PolicyWeight(entries: map<Id, Entry>): Id -> int {
    id => if id in entries then entries[id].policyWeight else 0
  }

  /** Every reference is to a known entry; the map is keyed rightly and holds the latest values. */
  ghost predicate Shape(s: State) {
    && s.lost.Keys == s.entries.Keys
    && s.spared <= s.entries.Keys && s.refreshed <= s.entries.Keys && s.rejected <= s.entries.Keys
    && (forall i :: 0 <= i < |s.notices| ==> s.notices[i] in s.entries)
    && (forall i :: 0 <= i < |s.pending| ==> s.pending[i].id in s.entries)
    && (s.crit.Testing? || s.crit.Dropping? ==> s.crit.id in s.entries)
    && (forall k :: k in s.shard ==> s.shard[k] in s.entries && s.entries[s.shard[k]].key == k)
    && (forall k :: k in s.shard ==> k in s.ideal && s.ideal[k] == s.entries[s.shard[k]].value)
  }

  /** weightedSize is the policy weight of the linked entries, as a machine word. */
  ghost predicate Sized(s: State) {
    && NoDup(s.lru)
    && (forall id :: id in s.lru ==> id in s.entries)
    && s.weightedSize == Wrap(Tally(s.lru, PolicyWeight(s.entries)))
  }

  ghost predicate Global(s: State) {
    Shape(s) && Sized(s)
  }

  ghost predicate Inv(s: State) {
    && Global(s)
    && forall id :: id in s.entries ==> Sound(View(s, id), s.now)
  }

  // ----- Every step keeps the invariant -----

  lemma WrapAdd(a: int, b: int)
    ensures Wrap(Wrap(a) + b) == Wrap(a + b)
    ensures Wrap(Wrap(a) - b) == Wrap(a - b)
  {
    assert a + b == (Wrap(a) + b) + WORD * (a / WORD);
    assert a - b == (Wrap(a) - b) + WORD * (a / WORD);
  }

  lemma NothingKnown(s: State, id: Id)
    requires Shape(s) && id !in s.entries
    ensures Mine(s.pending, id) == Queue(0, 0, 0, 0)
    ensures Tally(s.notices, Is(id)) == 0
  {
    MineNone(s.pending, id);
    TallyZero(s.notices, Is(id));
  }

  // Set

  function SetLocal(v: Local, value: Value, cost: int, expire: int): Local {
    var newExpire := if expire > 0 then expire else v.e.expire;
    v.(e := v.e.(value := value, weight := cost, expire := newExpire),
       q := Count(v.q, Update(0, cost - v.e.weight, newExpire != v.e.expire)))
  }

  lemma SetLocalSound(v: Local, now: int, value: Value, cost: int, expire: int)
    requires Sound(v, now) && v.inMap
    ensures Sound(SetLocal(v, value, cost, expire), now)
  {
  }

  lemma RefreshView(s: State, x: Id, v: Value, cost: int, expire: int, id: Id)
    requires x in s.entries && id in s.entries && id in s.lost
    ensures View(Refresh(s, x, v, cost, expire), id) ==
      if id == x then SetLocal(View(s, id), v, cost, expire)
      else View(s, id)
  {
    var s' := Refresh(s, x, v, cost, expire);
    MineSend(s.pending, s'.pending[|s.pending|], id);
  }

  lemma CreateView(s: State, k: Key, v: Value, cost: int, expire: int, newId: Id, id: Id)
    requires newId !in s.entries && k !in s.shard && id in s.entries && id in s.lost
    ensures View(Create(s, k, v, cost, expire, newId), id) == View(s, id)
  {
    var s' := Create(s, k, v, cost, expire, newId);
    MineSend(s.pending, New(newId, cost), id);
    CreateInMap(s, k, v, cost, expire, newId, id);
  }

  lemma CreateInMap(s: State, k: Key, v: Value, cost: int, expire: int, newId: Id, id: Id)
    requires newId !in s.entries && k !in s.shard && id in s.entries && id in s.lost
    ensures InMap(Create(s, k, v, cost, expire, newId), id) == InMap(s, id)
  {
  }

  lemma CreateViewNew(s: State, k: Key, v: Value, cost: int, expire: int, id: Id)
    requires Shape(s) && id !in s.entries && id !in s.lru
    ensures View(Create(s, k, v, cost, expire, id), id) ==
      Local(Entry(k, v, cost, expire, 0, false, false, false, 0), true, false, Queue(1, 0, cost, 0), 0, false, false, 0,
          Bystander, false)
  {
    MineSend(s.pending, New(id, cost), id);
    NothingKnown(s, id);
  }

  lemma SetShape(s: State, k: Key, v: Value, cost: int, expire: int, newId: Id)
    requires Shape(s) && newId !in s.entries
    ensures Shape(DoSet(s, k, v, cost, expire, newId))
  {
  }

  lemma SetSized(s: State, k: Key, v: Value, cost: int, expire: int, newId: Id)
    requires Sized(s) && newId !in s.entries && (k in s.shard ==> s.shard[k] in s.entries)
    ensures Sized(DoSet(s, k, v, cost, expire, newId))
  {
    var s' := DoSet(s, k, v, cost, expire, newId);
    TallyAgree(s.lru, PolicyWeight(s.entries), PolicyWeight(s'.entries));
  }

  lemma SetEntry(s: State, k: Key, v: Value, cost: int, expire: int, newId: Id, id: Id)
    requires Shape(s) && newId !in s.entries && newId !in s.lru && id in DoSet(s, k, v, cost, expire, newId).entries
    requires id in s.entries ==> Sound(View(s, id), s.now)
    ensures id in DoSet(s, k, v, cost, expire, newId).lost &&
      Sound(View(DoSet(s, k, v, cost, expire, newId), id), s.now)
  {
    var t := s.(ideal := s.ideal[k := v]);
    if k in s.shard {
      RefreshView(t, s.shard[k], v, cost, expire, id);
      if id == s.shard[k] {
        SetLocalSound(View(s, id), s.now, v, cost, expire);
      }
    } else if id == newId {
      CreateViewNew(t, k, v, cost, expire, id);
    } else {
      CreateView(t, k, v, cost, expire, newId, id);
    }
  }

  lemma SetKeeps(s: State, k: Key, v: Value, cost: int, expire: int, newId: Id)
    requires Inv(s) && newId !in s.entries
    ensures Inv(DoSet(s, k, v, cost, expire, newId))
  {
    var s' := DoSet(s, k, v, cost, expire, newId);
    SetShape(s, k, v, cost, expire, newId);
    SetSized(s, k, v, cost, expire, newId);
    forall id | id in s'.entries
      ensures Sound(View(s', id), s.now)
    {
      SetEntry(s, k, v, cost, expire, newId, id);
    }
  }

  // Delete

  lemma DeleteView(s: State, k: Key, id: Id)
    requires Shape(s) && id in s.entries
    ensures View(DoDelete(s, k), id) ==
      if k in s.shard && s.shard[k] == id then View(s, id).(inMap := false, q := Count(View(s, id).q, Remove(id)))
      else View(s, id)
  {
    if k in s.shard {
      MineSend(s.pending, Remove(s.shard[k]), id);
    }
  }

  lemma DeleteLocalSound(v: Local, now: int, id: Id)
    requires Sound(v, now) && v.inMap
    ensures Sound(v.(inMap := false, q := Count(v.q, Remove(id))), now)
  {
  }

  lemma DeleteShape(s: State, k: Key)
    requires Shape(s)
    ensures Shape(DoDelete(s, k))
  {
  }

  lemma DeleteKeeps(s: State, k: Key)
    requires Inv(s)
    ensures Inv(DoDelete(s, k))
  {
    var s' := DoDelete(s, k);
    DeleteShape(s, k);
    forall id | id in s'.entries
      ensures Sound(View(s', id), s.now)
    {
      DeleteView(s, k, id);
      if k in s.shard && s.shard[k] == id {
        DeleteLocalSound(View(s, id), s.now, id);
      }
    }
  }

  // Sink

  /** What taking event `i` off the queue leaves of everyone's view. */
  lemma TakeView(s: State, i: nat, id: Id)
    requires i < |s.pending| && id in s.entries && id in s.lost
    ensures var t := s.(pending := RemoveAt(s.pending, i));
      View(s, id) ==
        if s.pending[i].id == id then View(t, id).(q := Count(View(t, id).q, s.pending[i])) else View(t, id)
    ensures var q := Mine(RemoveAt(s.pending, i), id); q.news >= 0 && q.removes >= 0 && q.reschedules >= 0
  {
    MineTake(s.pending, i, id);
    MineNonNegative(RemoveAt(s.pending, i), id);
  }

  lemma NewLocalSound(v: Local, now: int, id: Id, cost: int)
    requires Sound(v.(q := Count(v.q, New(id, cost))), now) && !v.e.deleted && v.role == Bystander
    requires v.q.news >= 0 && v.q.removes >= 0 && v.q.reschedules >= 0
    ensures Due(v.e, now) ==>
      Sound(v.(e := v.e.(removed := true), lost := v.lost + cost, role := UnderTest, rejected := true), now)
    ensures !Due(v.e, now) ==>
      Sound(v.(e := Timed(v.e.(removed := false, policyWeight := v.e.policyWeight + cost), v.e.expire != 0),
               linked := true), now)
  {
  }

  lemma UpdateLocalSound(v: Local, now: int, id: Id, change: int, r: bool)
    requires Sound(v.(q := Count(v.q, Update(id, change, r))), now) && !v.e.deleted && v.role == Bystander
    requires v.q.news >= 0 && v.q.removes >= 0 && v.q.reschedules >= 0
    ensures v.e.removed ==> Sound(v.(lost := v.lost + change), now)
    ensures !v.e.removed ==>
      Sound(v.(e := Timed(v.e.(policyWeight := v.e.policyWeight + change), r)), now)
  {
  }

  lemma RemoveLocalSound(v: Local, now: int, id: Id)
    requires Sound(v.(q := Count(v.q, Remove(id))), now) && !v.e.deleted && v.role == Bystander
    requires v.q.news >= 0 && v.q.removes >= 0 && v.q.reschedules >= 0
    ensures v.e.removed ==> Sound(v.(e := v.e.(deleted := true)), now)
    ensures !v.e.removed ==>
      Sound(v.(e := v.e.(deleted := true, removed := true, wheeled := false), linked := false,
          notices := v.notices + 1), now)
  {
  }

  lemma IgnoredLocalSound(v: Local, now: int, e: Event)
    requires Sound(v.(q := Count(v.q, e)), now) && v.e.deleted
    requires v.q.news >= 0 && v.q.removes >= 0 && v.q.reschedules >= 0
    ensures Sound(v, now)
  {
  }

  /** Views after the policy-side pieces of a step, for the entry `x` worked on and for any other. */
  lemma UnlinkView(s: State, x: Id, id: Id)
    requires NoDup(s.lru) && x in s.entries && id in s.entries && id in s.lost
    ensures View(Unlink(s, x), id) == if id == x then View(s, x).(linked := false) else View(s, id)
  {
    if x in s.lru {
      WithoutKeeps(s.lru, x);
    }
  }

  lemma PutView(s: State, x: Id, e: Entry, id: Id)
    requires x in s.entries && e.key == s.entries[x].key && id in s.entries && id in s.lost
    ensures View(Put(s, x, e), id) == if id == x then View(s, x).(e := e) else View(s, id)
  {
  }

  lemma RejectView(s: State, x: Id, cost: int, id: Id)
    requires s.crit == Free && x in s.entries && x in s.lost && id in s.entries && id in s.lost
    ensures View(Reject(s, x, cost), id) ==
      var v := View(s, id);
      if id != x then v else v.(e := v.e.(removed := true), lost := v.lost + cost, role := UnderTest, rejected := true)
  {
    PutView(s, x, s.entries[x].(removed := true), id);
  }

  lemma LinkView(s: State, x: Id, cost: int, id: Id)
    requires s.crit == Free && x in s.entries && x in s.lost && id in s.entries && id in s.lost
    ensures View(Link(s, x, cost), id) ==
      var v := View(s, id);
      if id != x then v
      else v.(e := Timed(v.e.(removed := false, policyWeight := v.e.policyWeight + cost), v.e.expire != 0),
          linked := true)
  {
    PutView(s, x, Link(s, x, cost).entries[x], id);
  }

  lemma LoseView(s: State, x: Id, change: int, id: Id)
    requires x in s.lost && id in s.entries && id in s.lost
    ensures View(Lose(s, x, change), id) ==
      if id != x then View(s, id)
      else View(s, id).(lost := View(s, id).lost + change)
  {
  }

  lemma ReweighView(s: State, x: Id, change: int, r: bool, id: Id)
    requires s.crit == Free && x in s.entries && id in s.entries && id in s.lost
    ensures View(Reweigh(s, x, change, r), id) ==
      var v := View(s, id);
      if id != x then v else v.(e := Timed(v.e.(policyWeight := v.e.policyWeight + change), r))
  {
    PutView(s, x, Reweigh(s, x, change, r).entries[x], id);
  }

  lemma SinkRemoveView(s: State, x: Id, id: Id)
    requires NoDup(s.lru) && s.crit == Free && x in s.entries && x in s.lost && id in s.entries && id in s.lost
    ensures View(SinkRemove(s, x), id) ==
      var v := View(s, id);
      if id != x then v
      else if v.e.removed then v.(e := v.e.(deleted := true))
      else v.(e := v.e.(deleted := true, removed := true, wheeled := false), linked := false, notices := v.notices + 1)
  {
    var e := s.entries[x];
    if e.removed {
      PutView(s, x, e.(deleted := true), id);
    } else {
      UnlinkView(s, x, id);
      PutView(Unlink(s, x), x, e.(deleted := true, removed := true, wheeled := false), id);
      TallyPush(s.notices, x, Is(id));
    }
  }

  lemma SinkNewEntry(s: State, x: Id, cost: int, id: Id)
    requires s.crit == Free && x in s.entries && x in s.lost && !s.entries[x].deleted && id in s.entries && id in s.lost
    requires var v := View(s, id);
      && v.q.news >= 0 && v.q.removes >= 0 && v.q.reschedules >= 0
      && Sound(if id == x then v.(q := Count(v.q, New(x, cost))) else v, s.now)
    ensures Sound(View(SinkNew(s, x, cost), id), s.now)
  {
    if Due(s.entries[x], s.now) {
      RejectView(s, x, cost, id);
    } else {
      LinkView(s, x, cost, id);
    }
    if x == id {
      NewLocalSound(View(s, id), s.now, x, cost);
    }
  }

  lemma SinkUpdateEntry(s: State, x: Id, change: int, r: bool, id: Id)
    requires s.crit == Free && x in s.entries && x in s.lost && !s.entries[x].deleted && id in s.entries && id in s.lost
    requires var v := View(s, id);
      && v.q.news >= 0 && v.q.removes >= 0 && v.q.reschedules >= 0
      && Sound(if id == x then v.(q := Count(v.q, Update(x, change, r))) else v, s.now)
    ensures Sound(View(SinkUpdate(s, x, change, r), id), s.now)
  {
    if s.entries[x].removed {
      LoseView(s, x, change, id);
    } else {
      ReweighView(s, x, change, r, id);
    }
    if x == id {
      UpdateLocalSound(View(s, id), s.now, x, change, r);
    }
  }

  lemma SinkRemoveEntry(s: State, x: Id, id: Id)
    requires NoDup(s.lru) && s.crit == Free && x in s.entries && x in s.lost && !s.entries[x].deleted &&
      id in s.entries && id in s.lost
    requires var v := View(s, id);
      && v.q.news >= 0 && v.q.removes >= 0 && v.q.reschedules >= 0
      && Sound(if id == x then v.(q := Count(v.q, Remove(x))) else v, s.now)
    ensures Sound(View(SinkRemove(s, x), id), s.now)
  {
    SinkRemoveView(s, x, id);
    if x == id {
      RemoveLocalSound(View(s, id), s.now, x);
    }
  }

  lemma IgnoredEntry(s: State, i: nat, id: Id)
    requires i < |s.pending| && s.pending[i].id in s.entries && s.entries[s.pending[i].id].deleted
    requires id in s.entries && id in s.lost && Sound(View(s, id), s.now)
    ensures Sound(View(s.(pending := RemoveAt(s.pending, i)), id), s.now)
  {
    TakeView(s, i, id);
    if s.pending[i].id == id {
      IgnoredLocalSound(View(s.(pending := RemoveAt(s.pending, i)), id), s.now, s.pending[i]);
    }
  }

  /** Applying an event taken off the queue leaves every entry sound. */
  lemma ApplyEntry(s: State, ev: Event, id: Id)
    requires NoDup(s.lru) && s.crit == Free && ev.id in s.entries && ev.id in s.lost && !s.entries[ev.id].deleted
    requires id in s.entries && id in s.lost
    requires var v := View(s, id);
      && v.q.news >= 0 && v.q.removes >= 0 && v.q.reschedules >= 0
      && Sound(if id == ev.id then v.(q := Count(v.q, ev)) else v, s.now)
    ensures id in Apply(s, ev).entries && id in Apply(s, ev).lost && Sound(View(Apply(s, ev), id), s.now)
  {
    match ev
    case New(x, cost) => SinkNewEntry(s, x, cost, id);
    case Update(x, change, r) => SinkUpdateEntry(s, x, change, r, id);
    case Remove(x) => SinkRemoveEntry(s, x, id);
  }

  /** Applying an event leaves every entry sound. */
  lemma SinkEntry(s: State, i: nat, id: Id)
    requires NoDup(s.lru) && s.crit == Free && i < |s.pending| && s.pending[i].id in s.entries &&
      s.pending[i].id in s.lost
    requires id in s.entries && id in s.lost && Sound(View(s, id), s.now)
    ensures id in DoSink(s, i).entries && id in DoSink(s, i).lost && Sound(View(DoSink(s, i), id), s.now)
  {
    var t := s.(pending := RemoveAt(s.pending, i));
    var x := s.pending[i].id;
    if s.entries[x].deleted {
      IgnoredEntry(s, i, id);
    } else {
      TakeView(s, i, id);
      ApplyEntry(t, s.pending[i], id);
    }
  }

  /** Rewriting an entry without changing its policy weight leaves the accounting alone. */
  lemma PutSized(s: State, x: Id, e: Entry)
    requires Sized(s) && x in s.entries && e.policyWeight == s.entries[x].policyWeight
    ensures Sized(Put(s, x, e))
  {
    TallyAgree(s.lru, PolicyWeight(s.entries), PolicyWeight(s.entries[x := e]));
  }

  lemma UnlinkSized(s: State, x: Id)
    requires Sized(s) && x in s.entries
    ensures Sized(Unlink(s, x)) && x !in Unlink(s, x).lru
  {
    if x in s.lru {
      var f := PolicyWeight(s.entries);
      WithoutKeeps(s.lru, x);
      TallyRemoveAt(s.lru, IndexOf(s.lru, x), f);
      WrapAdd(Tally(s.lru, f), f(x));
    }
  }

  lemma LinkSized(s: State, x: Id, cost: int)
    requires Sized(s) && x in s.entries && x !in s.lru
    ensures Sized(Link(s, x, cost))
  {
    var s' := Link(s, x, cost);
    var f := PolicyWeight(s'.entries);
    TallyAgree(s.lru, PolicyWeight(s.entries), f);
    TallyPush(s.lru, x, f);
    WrapAdd(Tally(s.lru, f), f(x));
    PushNoDup(s.lru, x);
  }

  lemma PushNoDup(lru: seq<Id>, x: Id)
    requires NoDup(lru) && x !in lru
    ensures NoDup([x] + lru) && forall id :: id in [x] + lru <==> id == x || id in lru
  {
  }

  lemma ReweighSized(s: State, x: Id, change: int, r: bool)
    requires Sized(s) && x in s.entries
    ensures Sized(Reweigh(s, x, change, r))
  {
    var f, g := PolicyWeight(s.entries), PolicyWeight(Reweigh(s, x, change, r).entries);
    if x in s.lru {
      TallyChange(s.lru, x, f, g);
      WrapAdd(Tally(s.lru, f), change);
    } else {
      TallyAgree(s.lru, f, g);
    }
  }

  lemma SinkRemoveSized(s: State, x: Id)
    requires Sized(s) && x in s.entries
    ensures Sized(SinkRemove(s, x))
  {
    UnlinkSized(s, x);
    var e := s.entries[x];
    PutSized(s, x, e.(deleted := true));
    PutSized(Unlink(s, x), x, e.(deleted := true, removed := true, wheeled := false));
  }

  lemma SinkSized(s: State, i: nat)
    requires Sized(s) && i < |s.pending| && s.pending[i].id in s.entries
    requires s.pending[i].New? ==> s.pending[i].id !in s.lru
    ensures Sized(DoSink(s, i))
  {
    var t := s.(pending := RemoveAt(s.pending, i));
    match s.pending[i]
    case New(x, cost) =>
      PutSized(t, x, t.entries[x].(removed := true));
      LinkSized(t, x, cost);
    case Update(x, change, r) => ReweighSized(t, x, change, r);
    case Remove(x) => SinkRemoveSized(t, x);
  }

  /** Of everything the shape depends on, a policy step changes the policy fields of one entry `x`. */
  ghost predicate SameShape(s: State, s': State, x: Id) {
    && x in s.entries && x in s'.entries
    && s'.entries == s.entries[x := s'.entries[x]]
    && s'.entries[x].key == s.entries[x].key && s'.entries[x].value == s.entries[x].value
    && s'.lost.Keys == s.lost.Keys && s'.shard == s.shard && s'.ideal == s.ideal && s'.pending == s.pending
    && s'.spared <= s.spared + {x} && s'.refreshed <= s.refreshed + {x} && s'.rejected <= s.rejected + {x}
    && (s'.notices == s.notices || s'.notices == s.notices + [x])
    && (s'.crit.Testing? || s'.crit.Dropping? ==> s'.crit.id == x)
  }

  lemma SameShapeKeeps(s: State, s': State, x: Id)
    requires Shape(s) && SameShape(s, s', x)
    ensures Shape(s')
  {
    forall k | k in s'.shard
      ensures s'.shard[k] in s'.entries && s'.entries[s'.shard[k]].key == k
      ensures k in s'.ideal && s'.ideal[k] == s'.entries[s'.shard[k]].value
    {
      var id := s.shard[k];
      assert id in s.entries && s.entries[id].key == k;
    }
  }

  lemma TakeShape(s: State, i: nat)
    requires Shape(s) && i < |s.pending|
    ensures Shape(s.(pending := RemoveAt(s.pending, i)))
  {
  }

  lemma SinkNewShape(s: State, x: Id, cost: int)
    requires s.lost.Keys == s.entries.Keys && s.crit == Free && x in s.entries
    ensures SameShape(s, SinkNew(s, x, cost), x)
  {
  }

  lemma SinkUpdateShape(s: State, x: Id, change: int, r: bool)
    requires s.lost.Keys == s.entries.Keys && s.crit == Free && x in s.entries
    ensures SameShape(s, SinkUpdate(s, x, change, r), x)
  {
  }

  lemma SinkRemoveShape(s: State, x: Id)
    requires s.lost.Keys == s.entries.Keys && s.crit == Free && x in s.entries
    ensures SameShape(s, SinkRemove(s, x), x)
  {
  }

  lemma SinkShape(s: State, i: nat)
    requires Shape(s) && s.crit == Free && i < |s.pending|
    ensures Shape(DoSink(s, i))
  {
    var t := s.(pending := RemoveAt(s.pending, i));
    TakeShape(s, i);
    var e := s.pending[i];
    match e
    case New(x, cost) =>
      SinkNewShape(t, x, cost);
      SameShapeKeeps(t, SinkNew(t, x, cost), x);
    case Update(x, change, r) =>
      SinkUpdateShape(t, x, change, r);
      SameShapeKeeps(t, SinkUpdate(t, x, change, r), x);
    case Remove(x) =>
      SinkRemoveShape(t, x);
      SameShapeKeeps(t, SinkRemove(t, x), x);
  }

  lemma NewIsUnlinked(s: State, i: nat)
    requires i < |s.pending| && s.pending[i].New? && s.pending[i].id in s.entries && s.pending[i].id in s.lost
    requires Sound(View(s, s.pending[i].id), s.now)
    ensures s.pending[i].id !in s.lru
  {
    TakeView(s, i, s.pending[i].id);
  }

  lemma SinkKeeps(s: State, i: nat)
    requires Inv(s) && s.crit == Free && i < |s.pending|
    ensures Inv(DoSink(s, i))
  {
    var s' := DoSink(s, i);
    assert Shape(s') by { SinkShape(s, i); }
    assert Sized(s') by {
      if s.pending[i].New? {
        NewIsUnlinked(s, i);
      }
      SinkSized(s, i);
    }
    assert s'.now == s.now;
    forall id | id in s'.entries
      ensures Sound(View(s', id), s'.now)
    {
      SinkEntry(s, i, id);
    }
  }

  // Expiry, eviction and removal from the map

  lemma WheelExpireView(s: State, x: Id, id: Id)
    requires s.crit == Free && x in s.entries && id in s.entries && id in s.lost
    ensures View(DoWheelExpire(s, x), id) ==
      var v := View(s, id);
      if id != x then v else v.(e := v.e.(removed := true, wheeled := false), role := UnderTest)
  {
    PutView(s, x, s.entries[x].(removed := true, wheeled := false), id);
  }

  lemma TestView(s: State, x: Id, id: Id)
    requires NoDup(s.lru) && s.crit == Testing(x) && x in s.entries && id in s.entries && id in s.lost
    ensures View(DoTest(s, x), id) ==
      var v := View(s, id);
      if id != x then v
      else if v.e.expire > s.now then v.(spared := true, role := Bystander)
      else v.(e := v.e.(wheeled := false), linked := false, role := ExpiredDrop)
  {
    if s.entries[x].expire <= s.now {
      UnlinkView(s, x, id);
      PutView(Unlink(s, x), x, s.entries[x].(wheeled := false), id);
    }
  }

  lemma EvictView(s: State, x: Id, id: Id)
    requires NoDup(s.lru) && s.crit == Evicting && x in s.entries && id in s.entries && id in s.lost
    ensures View(DoEvict(s, x), id) ==
      var v := View(s, id);
      if id != x then v else v.(e := v.e.(removed := true, wheeled := false), linked := false, role := EvictedDrop)
  {
    UnlinkView(s, x, id);
    PutView(Unlink(s, x), x, s.entries[x].(removed := true, wheeled := false), id);
  }

  lemma DropView(s: State, x: Id, evicted: bool, id: Id)
    requires Shape(s) && s.crit == Dropping(x, evicted) && x in s.entries && id in s.entries
    ensures View(DoDrop(s, x, evicted), id) ==
      var v := View(s, id);
      if id != x then v
      else v.(inMap := false, role := Bystander,
              notices := if v.inMap then v.notices + 1 else v.notices,
              refreshed := v.refreshed || (!evicted && v.e.expire > s.now))
  {
    TallyPush(s.notices, x, Is(id));
  }

  lemma PolicyLocalSound(v: Local, now: int)
    requires Sound(v, now)
    ensures v.role == Bystander && v.e.wheeled ==>
      Sound(v.(e := v.e.(removed := true, wheeled := false), role := UnderTest), now)
    ensures v.role == UnderTest && v.e.expire > now ==> Sound(v.(spared := true, role := Bystander), now)
    ensures v.role == UnderTest && v.e.expire <= now ==>
      Sound(v.(e := v.e.(wheeled := false), linked := false, role := ExpiredDrop), now)
    ensures v.role == Bystander && v.linked ==>
      Sound(v.(e := v.e.(removed := true, wheeled := false), linked := false, role := EvictedDrop), now)
  {
  }

  lemma DropLocalSound(v: Local, now: int)
    requires Sound(v, now) && (v.role == ExpiredDrop || v.role == EvictedDrop)
    ensures Sound(v.(inMap := false, role := Bystander,
                     notices := if v.inMap then v.notices + 1 else v.notices,
                     refreshed := v.refreshed || (v.role == ExpiredDrop && v.e.expire > now)), now)
  {
  }

  lemma WheelExpireKeeps(s: State, x: Id)
    requires Inv(s) && s.crit == Free && x in s.entries && s.entries[x].wheeled
    ensures Inv(DoWheelExpire(s, x))
  {
    var s' := DoWheelExpire(s, x);
    PutSized(s, x, s.entries[x].(removed := true, wheeled := false));
    assert Shape(s') by { SameShapeKeeps(s, s', x); }
    forall id | id in s'.entries
      ensures Sound(View(s', id), s.now)
    {
      WheelExpireView(s, x, id);
      PolicyLocalSound(View(s, id), s.now);
    }
  }

  lemma TestEntry(s: State, x: Id, id: Id)
    requires NoDup(s.lru) && s.crit == Testing(x) && x in s.entries && id in s.entries && id in s.lost &&
      Sound(View(s, id), s.now)
    ensures Sound(View(DoTest(s, x), id), s.now)
  {
    TestView(s, x, id);
    PolicyLocalSound(View(s, id), s.now);
  }

  lemma TestSized(s: State, x: Id)
    requires Sized(s) && x in s.entries
    ensures Sized(DoTest(s, x))
  {
    UnlinkSized(s, x);
    PutSized(Unlink(s, x), x, s.entries[x].(wheeled := false));
  }

  lemma TestShape(s: State, x: Id)
    requires Shape(s) && x in s.entries
    ensures Shape(DoTest(s, x))
  {
    assert SameShape(s, DoTest(s, x), x);
    SameShapeKeeps(s, DoTest(s, x), x);
  }

  lemma TestKeeps(s: State, x: Id)
    requires Inv(s) && s.crit == Testing(x)
    ensures Inv(DoTest(s, x))
  {
    var s' := DoTest(s, x);
    TestSized(s, x);
    TestShape(s, x);
    forall id | id in s'.entries
      ensures Sound(View(s', id), s.now)
    {
      TestEntry(s, x, id);
    }
  }

  lemma EvictKeeps(s: State, x: Id)
    requires Inv(s) && s.crit == Evicting && x in s.lru
    ensures Inv(DoEvict(s, x))
  {
    var s' := DoEvict(s, x);
    UnlinkSized(s, x);
    PutSized(Unlink(s, x), x, s.entries[x].(removed := true, wheeled := false));
    assert Shape(s') by { SameShapeKeeps(s, s', x); }
    forall id | id in s'.entries
      ensures Sound(View(s', id), s.now)
    {
      EvictView(s, x, id);
      PolicyLocalSound(View(s, id), s.now);
    }
  }

  lemma EndEvictKeeps(s: State)
    requires Inv(s) && s.crit == Evicting
    ensures Inv(s.(crit := Free))
  {
    forall id | id in s.entries
      ensures View(s.(crit := Free), id) == View(s, id)
    {
    }
  }

  lemma DropShape(s: State, x: Id, evicted: bool)
    requires Shape(s) && x in s.entries
    ensures Shape(DoDrop(s, x, evicted))
  {
  }

  lemma DropEntry(s: State, x: Id, evicted: bool, id: Id)
    requires Shape(s) && s.crit == Dropping(x, evicted) && x in s.entries && id in s.entries &&
      Sound(View(s, id), s.now)
    ensures Sound(View(DoDrop(s, x, evicted), id), s.now)
  {
    DropView(s, x, evicted, id);
    if id == x {
      DropLocalSound(View(s, id), s.now);
    }
  }

  lemma DropKeeps(s: State, x: Id, evicted: bool)
    requires Inv(s) && s.crit == Dropping(x, evicted)
    ensures Inv(DoDrop(s, x, evicted))
  {
    var s' := DoDrop(s, x, evicted);
    DropShape(s, x, evicted);
    forall id | id in s'.entries
      ensures Sound(View(s', id), s.now)
    {
      DropEntry(s, x, evicted, id);
    }
  }

  lemma ClockKeeps(s: State, t: int)
    requires Inv(s) && s.now <= t
    ensures Inv(s.(now := t))
  {
    forall id | id in s.entries
      ensures Sound(View(s.(now := t), id), t)
    {
      assert View(s.(now := t), id) == View(s, id);
      assert Sound(View(s, id), s.now);
    }
  }

  /** Every step of every participant keeps the invariant. */
  lemma StepKeeps(s: State, a: Action)
    requires Inv(s) && Enabled(s, a)
    ensures Inv(Do(s, a))
  {
    match a
    case Clock(t) => ClockKeeps(s, t);
    case Set(k, v, cost, expire, id) => SetKeeps(s, k, v, cost, expire, id);
    case Delete(k) => DeleteKeeps(s, k);
    case Sink(i) => SinkKeeps(s, i);
    case WheelExpire(id) => WheelExpireKeeps(s, id);
    case TestExpire => TestKeeps(s, s.crit.id);
    case Evict(id) => EvictKeeps(s, id);
    case EndEvict => EndEvictKeeps(s);
    case Drop => DropKeeps(s, s.crit.id, s.crit.evicted);
  }

  lemma InitInv(s: State)
    requires Init(s)
    ensures Inv(s)
  {
  }

  ghost predicate Follows(s: State, a: Action, s': State) {
    Shape(s) && Enabled(s, a) && s' == Do(s, a)
  }

  /** A run of the store: any interleaving of API calls, clock and policy steps. */
  ghost predicate IsRun(run: seq<State>, actions: seq<Action>) {
    && |run| == |actions| + 1
    && Init(run[0])
    && forall i :: 0 <= i < |actions| ==> Follows(run[i], actions[i], run[i + 1])
  }

  lemma {:induction false} RunInv(run: seq<State>, actions: seq<Action>, n: nat)
    requires IsRun(run, actions) && n < |run|
    ensures Inv(run[n])
  {
    if n == 0 {
      InitInv(run[0]);
    } else {
      RunInv(run, actions, n - 1);
      assert Follows(run[n - 1], actions[n - 1], run[n - 1 + 1]);
      StepKeeps(run[n - 1], actions[n - 1]);
    }
  }

  // ----- What the protocol promises -----

  ghost predicate Quiescent(s: State) {
    s.pending == [] && s.crit == Free
  }

  /** In every reachable state, a live entry's weight is its policy weight plus the cost changes still
      pending for it, in whatever order events are applied. The books are off by `lost` only for an
      entry that is being expired at this moment or that an expiry raced with and spared. */
  lemma LiveWeight(run: seq<State>, actions: seq<Action>, n: nat, id: Id)
    requires IsRun(run, actions) && n < |run|
    requires id in run[n].entries && InMap(run[n], id)
    ensures id in run[n].lost && Inv(run[n])
    ensures run[n].entries[id].weight ==
      run[n].entries[id].policyWeight + Mine(run[n].pending, id).owed + run[n].lost[id]
    ensures run[n].lost[id] != 0 ==> id in run[n].spared || RoleOf(run[n].crit, id) != Bystander
  {
    RunInv(run, actions, n);
    assert Sound(View(run[n], id), run[n].now);
  }

  /** When nothing is pending, an entry no expiry raced with is linked in the policy exactly when it is
      in the map, and then the policy accounts for it at its current weight. */
  lemma QuiescentEntry(run: seq<State>, actions: seq<Action>, n: nat, id: Id)
    requires IsRun(run, actions) && n < |run| && Quiescent(run[n]) && id in run[n].entries
    requires id !in run[n].spared && id !in run[n].refreshed
    ensures id in run[n].lru <==> InMap(run[n], id)
    ensures InMap(run[n], id) ==> run[n].entries[id].policyWeight == run[n].entries[id].weight
  {
    RunInv(run, actions, n);
    assert Sound(View(run[n], id), run[n].now);
  }

  /** Exactly when the policy has a live entry's weight right: with nothing pending, if and only if the
      changes dropped on it sum to nothing; and only an entry an expiry raced with has any. */
  lemma QuiescentWeightIff(run: seq<State>, actions: seq<Action>, n: nat, id: Id)
    requires IsRun(run, actions) && n < |run| && Quiescent(run[n]) && id in run[n].entries && InMap(run[n], id)
    ensures id in run[n].lost
    ensures run[n].entries[id].policyWeight == run[n].entries[id].weight <==> run[n].lost[id] == 0
    ensures run[n].lost[id] != 0 ==> id in run[n].spared
  {
    LiveWeight(run, actions, n, id);
  }

  ghost function Weight(entries: map<Id, Entry>): Id -> int {
    id => if id in entries then entries[id].weight else 0
  }

  /** The policy lists hold exactly the entries of the map, each once, at their current weight. */
  ghost predicate Agrees(s: State) {
    && NoDup(s.lru)
    && (forall id :: id in s.lru ==> id in s.entries && InMap(s, id))
    && (forall k :: k in s.shard ==> s.shard[k] in s.lru)
    && (forall id :: id in s.lru ==> s.entries[id].policyWeight == s.entries[id].weight)
    && s.weightedSize == Wrap(Tally(s.lru, Weight(s.entries)))
  }

  lemma EntriesAgree(s: State)
    requires Global(s)
    requires forall id :: id in s.entries ==>
      (id in s.lru <==> InMap(s, id)) && (InMap(s, id) ==> s.entries[id].policyWeight == s.entries[id].weight)
    ensures Agrees(s)
  {
    var f, g := PolicyWeight(s.entries), Weight(s.entries);
    forall id | id in s.lru
      ensures f(id) == g(id)
    {
      assert id in s.entries && InMap(s, id);
    }
    TallyAgree(s.lru, f, g);
    forall k | k in s.shard
      ensures s.shard[k] in s.lru
    {
      assert InMap(s, s.shard[k]);
    }
  }

  /** Exactly which entries are live and which of them are linked when nothing is pending: an entry is in the
      map unless a REMOVE was applied to it or its removal announced, and then linked unless it was already
      due when its NEW was applied. */
  lemma QuiescentMember(run: seq<State>, actions: seq<Action>, n: nat, id: Id)
    requires IsRun(run, actions) && n < |run| && Quiescent(run[n]) && id in run[n].entries
    ensures InMap(run[n], id) <==> !run[n].entries[id].deleted && Tally(run[n].notices, Is(id)) == 0
    ensures InMap(run[n], id) ==> (id in run[n].lru <==> id !in run[n].rejected)
  {
    RunInv(run, actions, n);
    assert Sound(View(run[n], id), run[n].now);
  }

  /** When nothing is pending, a live entry with an expiry is scheduled in the timer wheel, unless an expiry
      raced with it and spared it. */
  lemma QuiescentScheduled(run: seq<State>, actions: seq<Action>, n: nat, id: Id)
    requires IsRun(run, actions) && n < |run| && Quiescent(run[n]) && id in run[n].entries
    requires InMap(run[n], id) && run[n].entries[id].expire != 0
    ensures (run[n].entries[id].wheeled && run[n].entries[id].at == run[n].entries[id].expire) || id in run[n].spared
  {
    RunInv(run, actions, n);
    assert Sound(View(run[n], id), run[n].now);
  }

  // How a dead entry comes to be linked

  /** The step applies the REMOVE of a linked entry whose removed flag is set, and so leaves it linked. */
  ghost predicate IgnoresRemove(s: State, a: Action, id: Id) {
    && a.Sink? && a.i < |s.pending| && s.pending[a.i] == Remove(id)
    && id in s.entries && !s.entries[id].deleted && s.entries[id].removed && id in s.lru
  }

  /** The step applies the NEW of an entry whose removal was already announced, and so links it. */
  ghost predicate LinksLate(s: State, a: Action, id: Id) {
    && a.Sink? && a.i < |s.pending| && s.pending[a.i].New? && s.pending[a.i].id == id
    && id in s.entries && !s.entries[id].deleted && !Due(s.entries[id], s.now) && Tally(s.notices, Is(id)) >= 1
  }

  ghost predicate Misleads(s: State, a: Action, id: Id) {
    IgnoresRemove(s, a, id) || LinksLate(s, a, id)
  }

  ghost predicate Misled(run: seq<State>, actions: seq<Action>, n: nat, id: Id)
    requires |run| == |actions| + 1 && n < |run|
  {
    exists m :: 0 <= m < n && Misleads(run[m], actions[m], id)
  }

  ghost predicate Dead(s: State, id: Id) {
    id in s.entries && (s.entries[id].deleted || Tally(s.notices, Is(id)) >= 1)
  }

  /** Of what tells a dead entry that is linked, nothing changes to the worse. */
  ghost predicate NoWorse(s: State, s': State, id: Id) {
    && (id in s'.lru ==> id in s.lru) && (Dead(s, id) ==> Dead(s', id))
    && (id in s'.lru && Dead(s', id) ==> Dead(s, id))
  }

  lemma SetNoWorse(s: State, k: Key, v: Value, cost: int, expire: int, newId: Id, id: Id)
    requires Inv(s) && newId !in s.entries
    ensures NoWorse(s, DoSet(s, k, v, cost, expire, newId), id)
  {
  }

  lemma TestNoWorse(s: State, x: Id, id: Id)
    requires NoDup(s.lru) && x in s.entries
    ensures NoWorse(s, DoTest(s, x), id)
  {
    if x in s.lru {
      WithoutKeeps(s.lru, x);
    }
  }

  lemma EvictNoWorse(s: State, x: Id, id: Id)
    requires NoDup(s.lru) && x in s.lru && x in s.entries
    ensures NoWorse(s, DoEvict(s, x), id)
  {
    WithoutKeeps(s.lru, x);
  }

  /** The entry announced here is not linked. */
  lemma DropNoWorse(s: State, x: Id, evicted: bool, id: Id)
    requires Inv(s) && s.crit == Dropping(x, evicted)
    ensures NoWorse(s, DoDrop(s, x, evicted), id)
  {
    assert Sound(View(s, x), s.now);
    TallyPush(s.notices, x, Is(id));
  }

  lemma NewDead(s: State, x: Id, cost: int, id: Id)
    requires x in s.entries && !s.entries[x].deleted
    ensures Dead(SinkNew(s, x, cost), id) <==> Dead(s, id)
    ensures id in SinkNew(s, x, cost).lru ==> id in s.lru || (id == x && !Due(s.entries[x], s.now))
    ensures x == id && !Due(s.entries[x], s.now) ==> id in SinkNew(s, x, cost).lru
  {
  }

  lemma UpdateNoWorse(s: State, x: Id, change: int, r: bool, id: Id)
    requires x in s.entries
    ensures NoWorse(s, SinkUpdate(s, x, change, r), id)
  {
    if s.entries[x].removed {
      assert SinkUpdate(s, x, change, r) == Lose(s, x, change);
    } else {
      ReweighNoWorse(s, x, change, r, id);
    }
  }

  lemma ReweighNoWorse(s: State, x: Id, change: int, r: bool, id: Id)
    requires x in s.entries
    ensures NoWorse(s, Reweigh(s, x, change, r), id)
  {
    var s' := Reweigh(s, x, change, r);
    assert s'.lru == s.lru && s'.notices == s.notices && s'.entries[x].deleted == s.entries[x].deleted;
  }

  lemma RemoveDead(s: State, x: Id, id: Id)
    requires NoDup(s.lru) && x in s.entries && !s.entries[x].deleted
    ensures Dead(s, id) ==> Dead(SinkRemove(s, x), id)
    ensures id in SinkRemove(s, x).lru ==> id in s.lru
    ensures x == id ==> Dead(SinkRemove(s, x), id)
    ensures x == id ==> (id in SinkRemove(s, x).lru <==> id in s.lru && s.entries[x].removed)
    ensures x != id && Dead(SinkRemove(s, x), id) ==> Dead(s, id)
  {
    TallyPush(s.notices, x, Is(id));
    if x in s.lru {
      WithoutKeeps(s.lru, x);
    }
  }

  /** A linked entry is dead after a step exactly if it was linked and dead before or the step misleads. */
  ghost predicate Tells(s: State, a: Action, s': State, id: Id) {
    && (Dead(s, id) || Misleads(s, a, id) ==> Dead(s', id))
    && (id in s'.lru && Dead(s', id) ==> (id in s.lru && Dead(s, id)) || Misleads(s, a, id))
  }

  lemma SinkTells(s: State, i: nat, id: Id)
    requires Inv(s) && i < |s.pending| && s.crit == Free
    ensures Tells(s, Sink(i), DoSink(s, i), id)
  {
    var t := s.(pending := RemoveAt(s.pending, i));
    var e := s.pending[i];
    if !s.entries[e.id].deleted {
      match e
      case New(x, cost) => NewDead(t, x, cost, id);
      case Update(x, change, r) => UpdateNoWorse(t, x, change, r, id);
      case Remove(x) => RemoveDead(t, x, id);
    }
  }

  lemma NoWorseTells(s: State, a: Action, s': State, id: Id)
    requires !a.Sink? && NoWorse(s, s', id)
    ensures Tells(s, a, s', id)
  {
  }

  lemma QuietNoWorse(s: State, a: Action, id: Id)
    requires Shape(s) && Enabled(s, a) && (a.Clock? || a.Delete? || a.WheelExpire? || a.EndEvict?)
    ensures NoWorse(s, Do(s, a), id)
  {
  }

  lemma StepTells(s: State, a: Action, id: Id)
    requires Inv(s) && Enabled(s, a)
    ensures Tells(s, a, Do(s, a), id)
  {
    if a.Sink? {
      SinkTells(s, a.i, id);
    } else {
      match a {
        case Set(k, v, cost, expire, newId) => SetNoWorse(s, k, v, cost, expire, newId, id);
        case TestExpire => TestNoWorse(s, s.crit.id, id);
        case Evict(x) => EvictNoWorse(s, x, id);
        case Drop => DropNoWorse(s, s.crit.id, s.crit.evicted, id);
        case _ => QuietNoWorse(s, a, id);
      }
      NoWorseTells(s, a, Do(s, a), id);
    }
  }

  lemma MisledNext(run: seq<State>, actions: seq<Action>, n: nat, id: Id)
    requires |run| == |actions| + 1 && n < |actions|
    ensures Misled(run, actions, n + 1, id) <==> Misled(run, actions, n, id) || Misleads(run[n], actions[n], id)
  {
  }

  /** In every run a linked entry is dead, that is deleted or announced as removed, if and only if one of two
      guards let it pass earlier: its REMOVE was ignored, or its NEW came after its removal. */
  lemma {:induction false} LinkedDeadIff(run: seq<State>, actions: seq<Action>, n: nat, id: Id)
    requires IsRun(run, actions) && n < |run|
    ensures Misled(run, actions, n, id) ==> Dead(run[n], id)
    ensures id in run[n].lru && Dead(run[n], id) ==> Misled(run, actions, n, id)
  {
    if n > 0 {
      LinkedDeadIff(run, actions, n - 1, id);
      RunInv(run, actions, n - 1);
      assert Follows(run[n - 1], actions[n - 1], run[n - 1 + 1]);
      StepTells(run[n - 1], actions[n - 1], id);
      MisledNext(run, actions, n - 1, id);
    }
  }

  /** No guard of sinkWrite has come between the entry and the policy: a live entry was not due when its NEW
      was applied, and the changes to its weight that were dropped sum to nothing; no REMOVE of a linked one
      was ignored and its NEW did not come after its removal. */
  ghost predicate Untroubled(run: seq<State>, actions: seq<Action>, n: nat, id: Id)
    requires |run| == |actions| + 1 && n < |run| && id in run[n].entries && id in run[n].lost
  {
    && (InMap(run[n], id) ==> id !in run[n].rejected && run[n].lost[id] == 0)
    && (id in run[n].lru ==> !Misled(run, actions, n, id))
  }

  lemma UntroubledAgrees(run: seq<State>, actions: seq<Action>, n: nat)
    requires IsRun(run, actions) && n < |run| && Quiescent(run[n])
    requires forall id :: id in run[n].entries ==> id in run[n].lost && Untroubled(run, actions, n, id)
    ensures Agrees(run[n])
  {
    RunInv(run, actions, n);
    forall id | id in run[n].entries
      ensures id in run[n].lru <==> InMap(run[n], id)
      ensures InMap(run[n], id) ==> run[n].entries[id].policyWeight == run[n].entries[id].weight
    {
      NoticedOnce(run, actions, n, id);
      QuiescentMember(run, actions, n, id);
      LinkedDeadIff(run, actions, n, id);
      if InMap(run[n], id) {
        QuiescentWeightIff(run, actions, n, id);
      }
    }
    EntriesAgree(run[n]);
  }

  lemma AgreesUntroubled(run: seq<State>, actions: seq<Action>, n: nat, id: Id)
    requires IsRun(run, actions) && n < |run| && Quiescent(run[n]) && Agrees(run[n]) && id in run[n].entries
    ensures id in run[n].lost && Untroubled(run, actions, n, id)
  {
    RunInv(run, actions, n);
    QuiescentMember(run, actions, n, id);
    LinkedDeadIff(run, actions, n, id);
    if InMap(run[n], id) {
      QuiescentWeightIff(run, actions, n, id);
    }
  }

  /** Exactly when map and policy agree: in every quiescent state of every run, the policy lists hold
      exactly the entries of the map at their current weights, with weightedSize their total, if and only
      if every entry is untroubled. */
  lemma AgreementIff(run: seq<State>, actions: seq<Action>, n: nat)
    requires IsRun(run, actions) && n < |run| && Quiescent(run[n])
    ensures run[n].lost.Keys == run[n].entries.Keys
    ensures Agrees(run[n]) <==> forall id :: id in run[n].entries ==> Untroubled(run, actions, n, id)
  {
    RunInv(run, actions, n);
    if Agrees(run[n]) {
      forall id | id in run[n].entries
        ensures Untroubled(run, actions, n, id)
      {
        AgreesUntroubled(run, actions, n, id);
      }
    } else if forall id :: id in run[n].entries ==> Untroubled(run, actions, n, id) {
      UntroubledAgrees(run, actions, n);
    }
  }

  /** The agreement sampled by the correctness tests: with no race recorded and nothing pending, the
      policy lists hold exactly the entries of the map and weightedSize is their total weight. */
  lemma QuiescentAgreement(run: seq<State>, actions: seq<Action>, n: nat)
    requires IsRun(run, actions) && n < |run| && Quiescent(run[n])
    requires run[n].spared == {} && run[n].refreshed == {}
    ensures Agrees(run[n])
  {
    RunInv(run, actions, n);
    forall id | id in run[n].entries
      ensures id in run[n].lru <==> InMap(run[n], id)
      ensures InMap(run[n], id) ==> run[n].entries[id].policyWeight == run[n].entries[id].weight
    {
      QuiescentEntry(run, actions, n, id);
    }
    EntriesAgree(run[n]);
  }

  /** The call gives a new life to an entry that is due but still in the map. */
  ghost predicate Revives(s: State, a: Action) {
    && a.Set? && a.key in s.shard && s.shard[a.key] in s.entries
    && Due(s.entries[s.shard[a.key]], s.now) && a.expire > s.now
  }

  /** No expiry was raced with, and an entry being expired is still due. */
  ghost predicate Unraced(s: State) {
    && s.spared == {} && s.refreshed == {}
    && (Expiring(s.crit) ==> s.crit.id in s.entries && s.entries[s.crit.id].expire <= s.now)
  }

  lemma UnracedSink(s: State, i: nat)
    requires Unraced(s) && s.crit == Free && i < |s.pending| && s.pending[i].id in s.entries
    ensures Unraced(DoSink(s, i))
  {
  }

  predicate Expiring(c: Crit) {
    c.Testing? || (c.Dropping? && !c.evicted)
  }

  lemma ExpiringHasExpiry(s: State)
    requires Inv(s) && Expiring(s.crit)
    ensures s.crit.id in s.entries && s.entries[s.crit.id].expire != 0
  {
    assert Sound(View(s, s.crit.id), s.now);
  }

  lemma UnracedSet(s: State, k: Key, v: Value, cost: int, expire: int, newId: Id)
    requires k in s.shard ==> s.shard[k] in s.entries
    requires Expiring(s.crit) ==> s.crit.id in s.entries && s.entries[s.crit.id].expire != 0
    requires newId !in s.entries && Unraced(s) && !Revives(s, Set(k, v, cost, expire, newId))
    ensures Unraced(DoSet(s, k, v, cost, expire, newId))
  {
  }

  lemma UnracedOther(s: State, a: Action)
    requires Shape(s) && Enabled(s, a) && Unraced(s) && !a.Set? && !a.Sink?
    ensures Unraced(Do(s, a))
  {
  }

  lemma UnracedStep(s: State, a: Action)
    requires Inv(s) && Enabled(s, a) && Unraced(s) && !Revives(s, a)
    ensures Unraced(Do(s, a))
  {
    match a
    case Set(k, v, cost, expire, newId) =>
      if Expiring(s.crit) {
        ExpiringHasExpiry(s);
      }
      UnracedSet(s, k, v, cost, expire, newId);
    case Sink(i) => UnracedSink(s, i);
    case _ => UnracedOther(s, a);
  }

  lemma {:induction false} RunUnraced(run: seq<State>, actions: seq<Action>, n: nat)
    requires IsRun(run, actions) && n < |run|
    requires forall i :: 0 <= i < n ==> !Revives(run[i], actions[i])
    ensures Unraced(run[n])
  {
    if n > 0 {
      RunUnraced(run, actions, n - 1);
      RunInv(run, actions, n - 1);
      assert Follows(run[n - 1], actions[n - 1], run[n - 1 + 1]);
      UnracedStep(run[n - 1], actions[n - 1]);
    }
  }

  /** What a caller can do about the races: as long as no Set gives a new expiry to an entry that is due but
      not yet removed, map and policy agree and every live entry with an expiry is scheduled, whenever nothing
      is pending. */
  lemma UnrevivedAgreement(run: seq<State>, actions: seq<Action>, n: nat)
    requires IsRun(run, actions) && n < |run| && Quiescent(run[n])
    requires forall i :: 0 <= i < n ==> !Revives(run[i], actions[i])
    ensures Agrees(run[n])
    ensures forall id :: id in run[n].entries && InMap(run[n], id) && run[n].entries[id].expire != 0 ==>
      run[n].entries[id].wheeled && run[n].entries[id].at == run[n].entries[id].expire
  {
    RunUnraced(run, actions, n);
    QuiescentAgreement(run, actions, n);
    forall id | id in run[n].entries && InMap(run[n], id) && run[n].entries[id].expire != 0
      ensures run[n].entries[id].wheeled && run[n].entries[id].at == run[n].entries[id].expire
    {
      QuiescentScheduled(run, actions, n, id);
    }
  }

  /** No entry has an expiry, so nothing is ever scheduled or under an expiry test. */
  ghost predicate Untimed(s: State) {
    && s.spared == {} && s.refreshed == {} && !s.crit.Testing? && (s.crit.Dropping? ==> s.crit.evicted)
    && (forall id :: id in s.entries ==> s.entries[id].expire == 0 && !s.entries[id].wheeled)
    && (forall i :: 0 <= i < |s.pending| ==> s.pending[i].Update? ==> !s.pending[i].reschedule)
  }

  lemma UntimedSink(s: State, i: nat)
    requires Untimed(s) && s.crit == Free && i < |s.pending| && s.pending[i].id in s.entries
    ensures Untimed(DoSink(s, i))
  {
    var t := s.(pending := RemoveAt(s.pending, i));
    assert Untimed(t);
    match s.pending[i]
    case New(x, cost) => assert Untimed(Link(t, x, cost));
    case Update(x, change, r) => assert Untimed(Reweigh(t, x, change, r)) && Untimed(Lose(t, x, change));
    case Remove(x) => assert Untimed(SinkRemove(t, x));
  }

  lemma UntimedStep(s: State, a: Action)
    requires (forall k :: k in s.shard ==> s.shard[k] in s.entries)
    requires Enabled(s, a) && Untimed(s) && (a.Set? ==> a.expire == 0)
    ensures Untimed(Do(s, a))
  {
    match a
    case Sink(i) => UntimedSink(s, i);
    case _ =>
  }

  lemma {:induction false} RunUntimed(run: seq<State>, actions: seq<Action>, n: nat)
    requires IsRun(run, actions) && n < |run|
    requires forall i :: 0 <= i < |actions| && actions[i].Set? ==> actions[i].expire == 0
    ensures Untimed(run[n])
  {
    if n > 0 {
      RunUntimed(run, actions, n - 1);
      assert Follows(run[n - 1], actions[n - 1], run[n - 1 + 1]);
      UntimedStep(run[n - 1], actions[n - 1]);
    }
  }

  /** A cache used without expiries agrees with its policy whenever nothing is pending. */
  lemma UntimedAgreement(run: seq<State>, actions: seq<Action>, n: nat)
    requires IsRun(run, actions) && n < |run| && Quiescent(run[n])
    requires forall i :: 0 <= i < |actions| && actions[i].Set? ==> actions[i].expire == 0
    ensures Agrees(run[n])
  {
    RunUntimed(run, actions, n);
    QuiescentAgreement(run, actions, n);
  }

  /** In every reachable state the map is part of what accepted Sets and Deletes alone would leave:
      evicting or expiring an entry never brings back or changes a value. */
  lemma SubMap(run: seq<State>, actions: seq<Action>, n: nat, k: Key)
    requires IsRun(run, actions) && n < |run| && k in run[n].shard
    ensures run[n].shard[k] in run[n].entries && k in run[n].ideal
    ensures run[n].ideal[k] == run[n].entries[run[n].shard[k]].value
  {
    RunInv(run, actions, n);
  }

  /** A key leaves the map exactly by a Delete of that key or by the removal of the very entry it maps to, and
      no step makes it lead to another entry: removing an old entry never touches a newer one. */
  lemma KeyLeaves(run: seq<State>, actions: seq<Action>, n: nat, k: Key)
    requires IsRun(run, actions) && n < |actions| && k in run[n].shard
    ensures k in run[n + 1].shard ==> run[n + 1].shard[k] == run[n].shard[k]
    ensures k !in run[n + 1].shard <==>
      actions[n] == Delete(k) || (actions[n] == Drop && run[n].crit.Dropping? && run[n].crit.id == run[n].shard[k])
  {
    RunInv(run, actions, n);
    assert Follows(run[n], actions[n], run[n + 1]);
    KeyLeavesStep(run[n], actions[n], k);
  }

  /** The step applies the NEW of `id`, which is neither deleted nor already due. */
  ghost predicate LinksNow(s: State, a: Action, id: Id) {
    && a.Sink? && a.i < |s.pending| && s.pending[a.i].New? && s.pending[a.i].id == id && id in s.entries
    && !s.entries[id].deleted && (s.entries[id].expire == 0 || s.entries[id].expire > s.now)
  }

  /** The step evicts `id`, finds it still due in its expiry test, or applies its REMOVE while it is not flagged
      removed. */
  ghost predicate UnlinksNow(s: State, a: Action, id: Id) {
    && id in s.entries
    && match a
       case Evict(x) => x == id
       case TestExpire => s.crit == Testing(id) && s.entries[id].expire <= s.now
       case Sink(i) =>
         i < |s.pending| && s.pending[i] == Remove(id) && !s.entries[id].deleted && !s.entries[id].removed
       case _ => false
  }

  lemma SinkLinks(s: State, i: nat, id: Id)
    requires NoDup(s.lru) && i < |s.pending| && s.pending[i].id in s.entries
    requires s.pending[i].New? ==> s.pending[i].id !in s.lru
    ensures id in DoSink(s, i).lru <==> (id in s.lru && !UnlinksNow(s, Sink(i), id)) || LinksNow(s, Sink(i), id)
  {
    var x := s.pending[i].id;
    if x in s.lru {
      WithoutKeeps(s.lru, x);
    }
  }

  lemma OtherLinks(s: State, a: Action, id: Id)
    requires Shape(s) && Sized(s) && Enabled(s, a) && !a.Sink?
    ensures id in Do(s, a).lru <==> id in s.lru && !UnlinksNow(s, a, id)
  {
    match a
    case TestExpire =>
      if s.crit.id in s.lru {
        WithoutKeeps(s.lru, s.crit.id);
      }
    case Evict(x) => WithoutKeeps(s.lru, x);
    case _ =>
  }

  lemma StepLinks(s: State, a: Action, id: Id)
    requires Inv(s) && Enabled(s, a)
    ensures id in Do(s, a).lru <==> (id in s.lru && !UnlinksNow(s, a, id)) || LinksNow(s, a, id)
  {
    match a
    case Sink(i) =>
      if s.pending[i].New? {
        NewIsUnlinked(s, i);
      }
      SinkLinks(s, i, id);
    case _ => OtherLinks(s, a, id);
  }

  /** Exactly which steps of a run link an entry in the policy or unlink it. */
  lemma LinkedIff(run: seq<State>, actions: seq<Action>, n: nat, id: Id)
    requires IsRun(run, actions) && n < |actions|
    ensures id in run[n + 1].lru <==>
      (id in run[n].lru && !UnlinksNow(run[n], actions[n], id)) || LinksNow(run[n], actions[n], id)
  {
    RunInv(run, actions, n);
    assert Follows(run[n], actions[n], run[n + 1]);
    StepLinks(run[n], actions[n], id);
  }

  /** The step applies the NEW of `id` that links it with an expiry, or an UPDATE that moved its expiry while it is
      not flagged removed. */
  ghost predicate SchedulesNow(s: State, a: Action, id: Id) {
    && id in s.entries && a.Sink? && a.i < |s.pending| && s.pending[a.i].id == id && !s.entries[id].deleted
    && match s.pending[a.i]
       case New(_, _) => s.entries[id].expire != 0 && s.entries[id].expire > s.now
       case Update(_, _, moved) => moved && !s.entries[id].removed
       case Remove(_) => false
  }

  /** The entry is put in the timer wheel for its expiry, taken out of it, or left as it is. */
  ghost predicate WheelMoves(e: Entry, e': Entry, scheduled: bool, out: bool) {
    && (e'.wheeled <==> scheduled || (e.wheeled && !out))
    && e'.at == if scheduled then e'.expire else e.at
  }

  lemma NewSchedules(s: State, x: Id, cost: int, id: Id)
    requires x in s.entries && id in s.entries
    ensures var e := s.entries[id];
      WheelMoves(e, SinkNew(s, x, cost).entries[id], id == x && e.expire != 0 && e.expire > s.now, false)
  {
  }

  lemma UpdateSchedules(s: State, x: Id, change: int, moved: bool, id: Id)
    requires x in s.entries && id in s.entries
    ensures var e := s.entries[id];
      WheelMoves(e, SinkUpdate(s, x, change, moved).entries[id], id == x && moved && !e.removed, false)
  {
  }

  lemma RemoveSchedules(s: State, x: Id, id: Id)
    requires x in s.entries && id in s.entries
    ensures var e := s.entries[id]; WheelMoves(e, SinkRemove(s, x).entries[id], false, id == x && !e.removed)
  {
  }

  lemma SinkSchedules(s: State, i: nat, id: Id)
    requires Enabled(s, Sink(i)) && id in s.entries
    ensures WheelMoves(s.entries[id], DoSink(s, i).entries[id], SchedulesNow(s, Sink(i), id),
      UnlinksNow(s, Sink(i), id))
  {
    var t := s.(pending := RemoveAt(s.pending, i));
    match s.pending[i]
    case New(x, cost) => NewSchedules(t, x, cost, id);
    case Update(x, change, moved) => UpdateSchedules(t, x, change, moved, id);
    case Remove(x) => RemoveSchedules(t, x, id);
  }

  lemma OtherSchedules(s: State, a: Action, id: Id)
    requires Shape(s) && Enabled(s, a) && !a.Sink? && id in s.entries
    ensures WheelMoves(s.entries[id], Do(s, a).entries[id], false, UnlinksNow(s, a, id) || a == WheelExpire(id))
  {
  }

  lemma StepSchedules(s: State, a: Action, id: Id)
    requires Shape(s) && Enabled(s, a) && id in s.entries
    ensures WheelMoves(s.entries[id], Do(s, a).entries[id], SchedulesNow(s, a, id),
                       UnlinksNow(s, a, id) || a == WheelExpire(id))
  {
    if a.Sink? {
      SinkSchedules(s, a.i, id);
    } else {
      OtherSchedules(s, a, id);
    }
  }

  lemma StepKeepsEntries(s: State, a: Action, id: Id)
    requires Shape(s) && Enabled(s, a) && id in s.entries
    ensures id in Do(s, a).entries
  {
    if a.Sink? {
      assert id in Apply(s.(pending := RemoveAt(s.pending, a.i)), s.pending[a.i]).entries;
    }
  }

  /** Exactly which steps of a run put an entry in the timer wheel, for its expiry at that moment, or take it
      out. */
  lemma ScheduledIff(run: seq<State>, actions: seq<Action>, n: nat, id: Id)
    requires IsRun(run, actions) && n < |actions| && id in run[n].entries
    ensures id in run[n + 1].entries
    ensures WheelMoves(run[n].entries[id], run[n + 1].entries[id], SchedulesNow(run[n], actions[n], id),
                       UnlinksNow(run[n], actions[n], id) || actions[n] == WheelExpire(id))
  {
    RunInv(run, actions, n);
    assert Follows(run[n], actions[n], run[n + 1]);
    StepKeepsEntries(run[n], actions[n], id);
    StepSchedules(run[n], actions[n], id);
  }

  /** The step takes `id` out of the map for the policy, or applies its REMOVE while it is not flagged removed. */
  ghost predicate AnnouncesNow(s: State, a: Action, id: Id) {
    && id in s.entries
    && match a
       case Drop => s.crit.Dropping? && s.crit.id == id && InMap(s, id)
       case Sink(i) =>
         i < |s.pending| && s.pending[i] == Remove(id) && !s.entries[id].deleted && !s.entries[id].removed
       case _ => false
  }

  lemma StepAnnounces(s: State, a: Action, id: Id)
    requires Shape(s) && Enabled(s, a)
    ensures Tally(Do(s, a).notices, Is(id)) == Tally(s.notices, Is(id)) + if AnnouncesNow(s, a, id) then 1 else 0
  {
    match a
    case Sink(i) => TallyPush(s.notices, s.pending[i].id, Is(id));
    case Drop => TallyPush(s.notices, s.crit.id, Is(id));
    case _ =>
  }

  /** Exactly which steps of a run announce an entry's removal. */
  lemma AnnouncedIff(run: seq<State>, actions: seq<Action>, n: nat, id: Id)
    requires IsRun(run, actions) && n < |actions|
    ensures Tally(run[n + 1].notices, Is(id)) ==
      Tally(run[n].notices, Is(id)) + if AnnouncesNow(run[n], actions[n], id) then 1 else 0
  {
    RunInv(run, actions, n);
    assert Follows(run[n], actions[n], run[n + 1]);
    StepAnnounces(run[n], actions[n], id);
  }

  lemma KeyLeavesStep(s: State, a: Action, k: Key)
    requires Shape(s) && Enabled(s, a) && k in s.shard
    ensures k in Do(s, a).shard ==> Do(s, a).shard[k] == s.shard[k]
    ensures k !in Do(s, a).shard <==> a == Delete(k) || (a == Drop && s.crit.Dropping? && s.crit.id == s.shard[k])
  {
  }

  /** The action sets key `k`. */
  predicate Sets(a: Action, k: Key) {
    a.Set? && a.key == k
  }

  /** What a Set leaves under its key: its value and cost, and its expiry if it gives one; otherwise the expiry
      the key's entry had. */
  lemma SetEffect(s: State, k: Key, v: Value, cost: int, expire: int, newId: Id)
    requires Shape(s) && newId !in s.entries
    ensures var t := DoSet(s, k, v, cost, expire, newId);
      && k in t.shard && t.shard[k] in t.entries
      && var e := t.entries[t.shard[k]];
         && e.value == v && e.weight == cost
         && (expire > 0 ==> e.expire == expire)
         && (k in s.shard ==> t.shard[k] == s.shard[k])
         && (k in s.shard && expire <= 0 ==> e.expire == s.entries[s.shard[k]].expire)
         && (k !in s.shard ==> t.shard[k] == newId && e.expire == expire)
  {
  }

  /** The fields a caller gave the entry are the same in both states. */
  ghost predicate SameFields(s: State, t: State, id: Id) {
    && id in s.entries && id in t.entries
    && var e, f := s.entries[id], t.entries[id]; f.value == e.value && f.weight == e.weight && f.expire == e.expire
  }

  lemma SinkKeepsFields(s: State, i: nat, id: Id)
    requires i < |s.pending| && s.pending[i].id in s.entries && id in s.entries
    ensures SameFields(s, DoSink(s, i), id)
  {
  }

  lemma SetKeepsFields(s: State, k: Key, v: Value, cost: int, expire: int, newId: Id, id: Id)
    requires (k in s.shard ==> s.shard[k] in s.entries && s.shard[k] != id) && newId !in s.entries && id in s.entries
    ensures SameFields(s, DoSet(s, k, v, cost, expire, newId), id)
  {
  }

  lemma OtherKeepsFields(s: State, a: Action, id: Id)
    requires Shape(s) && Enabled(s, a) && !a.Set? && !a.Sink? && id in s.entries
    ensures SameFields(s, Do(s, a), id)
  {
  }

  /** No step but a Set of its key changes the value, the weight or the expiry of an entry in the map. */
  lemma OnlySetChanges(s: State, a: Action, k: Key)
    requires Shape(s) && Enabled(s, a) && !Sets(a, k) && k in s.shard
    ensures SameFields(s, Do(s, a), s.shard[k])
  {
    match a
    case Set(j, v, cost, expire, newId) =>
      SetKeepsFields(s, j, v, cost, expire, newId, s.shard[k]);
    case Sink(i) => SinkKeepsFields(s, i, s.shard[k]);
    case _ => OtherKeepsFields(s, a, s.shard[k]);
  }

  /** The fields of the entry that key `k` maps to. */
  datatype Given = Given(value: Value, weight: int, expire: int)

  ghost function Under(s: State, k: Key): Option<Given> {
    if k in s.shard && s.shard[k] in s.entries then
      var e := s.entries[s.shard[k]];
      Some(Given(e.value, e.weight, e.expire))
    else
      None
  }

  lemma StepSets(run: seq<State>, actions: seq<Action>, n: nat, k: Key)
    requires IsRun(run, actions) && n < |actions| && Sets(actions[n], k)
    ensures var a, e := actions[n], Under(run[n], k);
      Under(run[n + 1], k) ==
        Some(Given(a.value, a.cost, if a.expire <= 0 && e.Some? then e.value.expire else a.expire))
  {
    RunInv(run, actions, n);
    assert Follows(run[n], actions[n], run[n + 1]);
    var a := actions[n];
    SetEffect(run[n], k, a.value, a.cost, a.expire, a.newId);
  }

  lemma StepKeepsGiven(run: seq<State>, actions: seq<Action>, n: nat, k: Key)
    requires IsRun(run, actions) && n < |actions| && !Sets(actions[n], k) && k in run[n + 1].shard
    ensures Under(run[n], k).Some? && Under(run[n + 1], k) == Under(run[n], k)
  {
    RunInv(run, actions, n);
    assert Follows(run[n], actions[n], run[n + 1]);
    KeyComes(run[n], actions[n], k);
    KeyLeavesStep(run[n], actions[n], k);
    OnlySetChanges(run[n], actions[n], k);
  }

  /** Only a Set brings a key into the map. */
  lemma KeyComes(s: State, a: Action, k: Key)
    requires Shape(s) && Enabled(s, a) && !Sets(a, k) && k in Do(s, a).shard
    ensures k in s.shard
  {
  }

  lemma {:induction false} GivenSticks(run: seq<State>, actions: seq<Action>, m: nat, n: nat, k: Key)
    requires IsRun(run, actions) && m < n < |run| && Sets(actions[m], k)
    requires forall i :: m < i <= n ==> k in run[i].shard
    ensures Under(run[n], k).Some?
    ensures actions[m].expire > 0 && (forall i :: m < i < n && Sets(actions[i], k) ==> actions[i].expire <= 0) ==>
      Under(run[n], k).value.expire == actions[m].expire
    ensures (forall i :: m < i < n ==> !Sets(actions[i], k)) ==>
      Under(run[n], k).value.value == actions[m].value && Under(run[n], k).value.weight == actions[m].cost
  {
    if n == m + 1 {
      StepSets(run, actions, m, k);
    } else {
      GivenSticks(run, actions, m, n - 1, k);
      if Sets(actions[n - 1], k) {
        StepSets(run, actions, n - 1, k);
      } else {
        StepKeepsGiven(run, actions, n - 1, k);
      }
    }
  }

  /** What a Set means, over every run: as long as its key stays in the map, the entry has the value and weight
      it gave until the next Set of the key, and the expiry it gave until the next Set with an expiry; a Set
      without one keeps the expiry there was, and a first Set starts from its own. */
  lemma SetHolds(run: seq<State>, actions: seq<Action>, m: nat, n: nat, k: Key)
    requires IsRun(run, actions) && m < n < |run| && Sets(actions[m], k)
    requires forall i :: m < i <= n ==> k in run[i].shard
    ensures run[n].shard[k] in run[n].entries
    ensures actions[m].expire > 0 && (forall i :: m < i < n && Sets(actions[i], k) ==> actions[i].expire <= 0) ==>
      run[n].entries[run[n].shard[k]].expire == actions[m].expire
    ensures (forall i :: m < i < n ==> !Sets(actions[i], k)) ==>
      && run[n].entries[run[n].shard[k]].value == actions[m].value
      && run[n].entries[run[n].shard[k]].weight == actions[m].cost
    ensures n == m + 1 && actions[m].expire <= 0 ==>
      run[n].entries[run[n].shard[k]].expire ==
        if k in run[m].shard && run[m].shard[k] in run[m].entries then run[m].entries[run[m].shard[k]].expire
        else actions[m].expire
  {
    GivenSticks(run, actions, m, n, k);
    StepSets(run, actions, m, k);
  }

  /** Each entry is announced to the removal listener at most once, and never while it is live. */
  lemma NoticedOnce(run: seq<State>, actions: seq<Action>, n: nat, id: Id)
    requires IsRun(run, actions) && n < |run| && id in run[n].entries
    ensures Tally(run[n].notices, Is(id)) <= 1
    ensures InMap(run[n], id) ==> Tally(run[n].notices, Is(id)) == 0
  {
    RunInv(run, actions, n);
    assert Sound(View(run[n], id), run[n].now);
  }

  /** A REMOVE applied before NEW keeps the entry out of the policy for good. */
  lemma {:induction false} DeletedStaysOut(run: seq<State>, actions: seq<Action>, m: nat, n: nat, id: Id)
    requires IsRun(run, actions) && m <= n < |run|
    requires id in run[m].entries && run[m].entries[id].deleted && id !in run[m].lru
    ensures id in run[n].entries && run[n].entries[id].deleted && id !in run[n].lru
    decreases n - m
  {
    if m < n {
      RunInv(run, actions, m);
      assert Follows(run[m], actions[m], run[m + 1]);
      DeletedStep(run[m], actions[m], id);
      DeletedStaysOut(run, actions, m + 1, n, id);
    }
  }

  lemma DeletedSink(s: State, i: nat, id: Id)
    requires NoDup(s.lru) && i < |s.pending| && s.pending[i].id in s.entries
    requires id in s.entries && s.entries[id].deleted && id !in s.lru
    ensures id in DoSink(s, i).entries && DoSink(s, i).entries[id].deleted && id !in DoSink(s, i).lru
  {
    var x := s.pending[i].id;
    if x != id && s.pending[i].Remove? && x in s.lru {
      WithoutKeeps(s.lru, x);
    }
  }

  lemma DeletedStep(s: State, a: Action, id: Id)
    requires NoDup(s.lru) && Enabled(s, a) && (forall k :: k in s.shard ==> s.shard[k] in s.entries)
    requires id in s.entries && s.entries[id].deleted && id !in s.lru
    ensures id in Do(s, a).entries && Do(s, a).entries[id].deleted && id !in Do(s, a).lru
  {
    match a
    case Sink(i) => DeletedSink(s, i, id);
    case TestExpire =>
      if s.crit.id in s.lru {
        WithoutKeeps(s.lru, s.crit.id);
      }
    case Evict(x) => WithoutKeeps(s.lru, x);
    case _ =>
  }

  /** An entry whose removed flag is set, with no NEW on its way to reset it. */
  ghost predicate Frozen(s: State, id: Id) {
    id in s.entries && s.entries[id].removed && Mine(s.pending, id).news == 0
  }

  /** The entry's flag and policy weight, and the queue, are as they were. */
  ghost predicate Untouched(s: State, s': State, id: Id) {
    && id in s.entries && id in s'.entries && s'.pending == s.pending
    && s'.entries[id].removed == s.entries[id].removed && s'.entries[id].policyWeight == s.entries[id].policyWeight
  }

  lemma OtherNew(s: State, x: Id, cost: int, id: Id)
    requires id in s.entries && x in s.entries && x != id
    ensures Untouched(s, SinkNew(s, x, cost), id)
  {
  }

  lemma DroppedUpdate(s: State, x: Id, change: int, r: bool, id: Id)
    requires id in s.entries && x in s.entries && s.entries[id].removed
    ensures Untouched(s, SinkUpdate(s, x, change, r), id)
  {
  }

  lemma DroppedRemove(s: State, x: Id, id: Id)
    requires id in s.entries && x in s.entries && s.entries[id].removed
    ensures Untouched(s, SinkRemove(s, x), id)
  {
  }

  lemma FrozenSink(s: State, i: nat, id: Id)
    requires Frozen(s, id) && i < |s.pending| && s.pending[i].id in s.entries
    ensures Frozen(DoSink(s, i), id) && DoSink(s, i).entries[id].policyWeight == s.entries[id].policyWeight
  {
    MineTake(s.pending, i, id);
    MineNonNegative(RemoveAt(s.pending, i), id);
    var t := s.(pending := RemoveAt(s.pending, i));
    match s.pending[i]
    case New(x, cost) => OtherNew(t, x, cost, id);
    case Update(x, change, r) => DroppedUpdate(t, x, change, r, id);
    case Remove(x) => DroppedRemove(t, x, id);
  }

  lemma FrozenStep(s: State, a: Action, id: Id)
    requires Shape(s) && Enabled(s, a) && Frozen(s, id)
    ensures Frozen(Do(s, a), id) && Do(s, a).entries[id].policyWeight == s.entries[id].policyWeight
  {
    match a
    case Sink(i) => FrozenSink(s, i, id);
    case Set(k, v, cost, expire, newId) =>
      if k in s.shard {
        var e := s.entries[s.shard[k]];
        var newExpire := if expire > 0 then expire else e.expire;
        MineSend(s.pending, Update(s.shard[k], cost - e.weight, newExpire != e.expire), id);
      } else {
        MineSend(s.pending, New(newId, cost), id);
      }
    case Delete(k) =>
      if k in s.shard {
        MineSend(s.pending, Remove(s.shard[k]), id);
      }
    case _ =>
  }

  /** Once an entry is flagged removed and its NEW has been applied, the flag is never taken back and the
      policy weight never changes again, whatever is set afterwards. */
  lemma {:induction false} FrozenForGood(run: seq<State>, actions: seq<Action>, m: nat, n: nat, id: Id)
    requires IsRun(run, actions) && m <= n < |run| && Frozen(run[m], id)
    ensures Frozen(run[n], id) && run[n].entries[id].policyWeight == run[m].entries[id].policyWeight
    decreases n - m
  {
    if m < n {
      RunInv(run, actions, m);
      assert Follows(run[m], actions[m], run[m + 1]);
      FrozenStep(run[m], actions[m], id);
      FrozenForGood(run, actions, m + 1, n, id);
    }
  }

  // ----- The races -----

  /** A concrete schedule: an entry expires at 10; the wheel finds it due; before removeEntry reads the
      expiry again, a Set moves it to 100 and raises the weight from 1 to 5. */
  ghost function SparedAction(k: Key, v: Value, i: nat): Action {
    if i == 0 then Set(k, v, 1, 10, 0)
    else if i == 1 then Sink(0)
    else if i == 2 then EndEvict
    else if i == 3 then Clock(10)
    else if i == 4 then WheelExpire(0)
    else if i == 5 then Set(k, v, 5, 100, 1)
    else if i == 6 then TestExpire
    else if i == 8 then Delete(k)
    else Sink(0)
  }

  ghost function SparedState(k: Key, v: Value, i: nat): State {
    var now := if i <= 3 then 0 else 10;
    var e := Entry(k, v, if i <= 5 then 1 else 5, if i <= 5 then 10 else 100, if i <= 1 then 0 else 1,
                   i >= 5, i >= 10, 2 <= i <= 4, if i <= 1 then 0 else 10);
    if i == 0 then
      State(0, map[], map[], [], [], 0, Free, map[], [], {}, {}, map[], {})
    else
      State(now, if i >= 9 then map[] else map[k := 0], map[0 := e],
            if i == 1 then [New(0, 1)] else if 6 <= i <= 7 then [Update(0, 4, true)] else if i == 9 then [Remove(0)]
            else [],
            if i == 1 then [] else [0], if i == 1 then 0 else 1,
            if i == 2 then Evicting else if 5 <= i <= 6 then Testing(0) else Free,
            if i >= 9 then map[] else map[k := v], [], if i >= 7 then {0} else {}, {},
            map[0 := if i >= 8 then 4 else 0], {})
  }

  lemma SparedCreated(k: Key, v: Value)
    ensures Follows(SparedState(k, v, 0), SparedAction(k, v, 0), SparedState(k, v, 1))
  {
  }

  lemma SparedLinked(k: Key, v: Value)
    ensures Follows(SparedState(k, v, 1), SparedAction(k, v, 1), SparedState(k, v, 2))
  {
    var s := SparedState(k, v, 1);
    assert RemoveAt(s.pending, 0) == [];
    assert DoSink(s, 0) == Link(s.(pending := []), 0, 1);
    assert Link(s.(pending := []), 0, 1) == SparedState(k, v, 2);
  }

  lemma SparedAged(k: Key, v: Value)
    ensures Follows(SparedState(k, v, 2), SparedAction(k, v, 2), SparedState(k, v, 3))
    ensures Follows(SparedState(k, v, 3), SparedAction(k, v, 3), SparedState(k, v, 4))
  {
  }

  lemma SparedRefreshed(k: Key, v: Value)
    ensures Follows(SparedState(k, v, 4), SparedAction(k, v, 4), SparedState(k, v, 5))
    ensures Follows(SparedState(k, v, 5), SparedAction(k, v, 5), SparedState(k, v, 6))
  {
  }

  lemma SparedReturned(k: Key, v: Value)
    ensures Follows(SparedState(k, v, 6), SparedAction(k, v, 6), SparedState(k, v, 7))
  {
  }

  lemma SparedLost(k: Key, v: Value)
    ensures Follows(SparedState(k, v, 7), SparedAction(k, v, 7), SparedState(k, v, 8))
  {
  }

  lemma SparedDeleted(k: Key, v: Value)
    ensures Follows(SparedState(k, v, 8), SparedAction(k, v, 8), SparedState(k, v, 9))
  {
  }

  lemma SparedKept(k: Key, v: Value)
    ensures Follows(SparedState(k, v, 9), SparedAction(k, v, 9), SparedState(k, v, 10))
  {
  }

  lemma SparedStep(k: Key, v: Value, i: nat)
    requires i < 10
    ensures Follows(SparedState(k, v, i), SparedAction(k, v, i), SparedState(k, v, i + 1))
  {
    if i == 0 {
      SparedCreated(k, v);
    } else if i == 1 {
      SparedLinked(k, v);
    } else if i <= 3 {
      SparedAged(k, v);
    } else if i <= 5 {
      SparedRefreshed(k, v);
    } else if i == 6 {
      SparedReturned(k, v);
    } else if i == 7 {
      SparedLost(k, v);
    } else if i == 8 {
      SparedDeleted(k, v);
    } else {
      SparedKept(k, v);
    }
  }

  lemma SparedRun(k: Key, v: Value, n: nat) returns (run: seq<State>, actions: seq<Action>)
    requires n <= 10
    ensures IsRun(run, actions) && |actions| == n && run[n] == SparedState(k, v, n)
  {
    run, actions := seq(n + 1, i requires 0 <= i => SparedState(k, v, i)),
        seq(n, i requires 0 <= i => SparedAction(k, v, i));
    forall i | 0 <= i < n
      ensures Follows(run[i], actions[i], run[i + 1])
    {
      SparedStep(k, v, i);
    }
    assert run[0] == SparedState(k, v, 0);
  }

  /** The entry is left with its removed flag set, so the update's event is dropped and the policy
      keeps the old weight; FrozenForGood says for how long. Agreement really does depend on the absence
      of this race. */
  lemma SparedEntryDisagrees(k: Key, v: Value) returns (run: seq<State>, actions: seq<Action>)
    ensures IsRun(run, actions) && |actions| == 8 && run[8] == SparedState(k, v, 8)
    ensures Quiescent(run[8]) && run[8].spared == {0} && run[8].refreshed == {} && Frozen(run[8], 0)
    ensures InMap(run[8], 0) && run[8].entries[0].policyWeight == 1 && run[8].entries[0].weight == 5
    ensures run[8].entries[0].expire == 100 && !run[8].entries[0].wheeled
    ensures !Agrees(run[8])
  {
    run, actions := SparedRun(k, v, 8);
    assert 0 in run[8].lru;
  }

  /** Deleting the entry afterwards does not help: its REMOVE is ignored too, because of the same flag, and
      the policy goes on counting an entry that no key leads to. */
  lemma DeletedEntryDisagrees(k: Key, v: Value) returns (run: seq<State>, actions: seq<Action>)
    ensures IsRun(run, actions) && |actions| == 10 && run[10] == SparedState(k, v, 10)
    ensures Quiescent(run[10]) && run[10].shard == map[] && run[10].entries[0].deleted
    ensures 0 in run[10].lru && run[10].weightedSize == 1 && !Agrees(run[10])
  {
    run, actions := SparedRun(k, v, 10);
    assert 0 in run[10].lru && !InMap(run[10], 0);
  }

  /** The other race: NEW is still on its way when the entry, scheduled by an update that overtook it,
      expires; a Set refreshes the entry after the expiry test and before the map removal. */
  ghost function ZombieAction(k: Key, v: Value, i: nat): Action {
    if i == 0 then Set(k, v, 1, 0, 0)
    else if i == 1 then Set(k, v, 1, 10, 1)
    else if i == 2 then Sink(1)
    else if i == 3 then Clock(10)
    else if i == 4 then WheelExpire(0)
    else if i == 5 then TestExpire
    else if i == 6 then Set(k, v, 1, 100, 1)
    else if i == 7 then Drop
    else if i == 8 then Sink(1)
    else if i == 9 then Sink(0)
    else EndEvict
  }

  ghost function ZombieState(k: Key, v: Value, i: nat): State {
    var e := Entry(k, v, 1, if i <= 1 then 0 else if i <= 6 then 10 else 100, if i <= 9 then 0 else 1,
                   5 <= i <= 9, false, 3 <= i <= 4 || i >= 10, if i <= 2 then 0 else if i <= 9 then 10 else 100);
    if i == 0 then
      State(0, map[], map[], [], [], 0, Free, map[], [], {}, {}, map[], {})
    else
      State(if i <= 3 then 0 else 10, if i <= 7 then map[k := 0] else map[], map[0 := e],
            if i == 1 || 3 <= i <= 6 || i == 9 then [New(0, 1)]
            else if i == 2 || 7 <= i <= 8 then [New(0, 1), Update(0, 0, true)]
            else [],
            if i >= 10 then [0] else [], if i >= 10 then 1 else 0,
            if i == 5 then Testing(0) else if 6 <= i <= 7 then Dropping(0, false) else if i == 10 then Evicting
            else Free,
            map[k := v], if i >= 8 then [0] else [], {}, if i >= 8 then {0} else {}, map[0 := 0], {})
  }

  lemma ZombieOvertaken(k: Key, v: Value)
    ensures Follows(ZombieState(k, v, 0), ZombieAction(k, v, 0), ZombieState(k, v, 1))
    ensures Follows(ZombieState(k, v, 1), ZombieAction(k, v, 1), ZombieState(k, v, 2))
  {
  }

  lemma ZombieScheduled(k: Key, v: Value)
    ensures Follows(ZombieState(k, v, 2), ZombieAction(k, v, 2), ZombieState(k, v, 3))
    ensures Follows(ZombieState(k, v, 3), ZombieAction(k, v, 3), ZombieState(k, v, 4))
  {
  }

  lemma ZombieTested(k: Key, v: Value)
    ensures Follows(ZombieState(k, v, 4), ZombieAction(k, v, 4), ZombieState(k, v, 5))
    ensures Follows(ZombieState(k, v, 5), ZombieAction(k, v, 5), ZombieState(k, v, 6))
  {
  }

  lemma ZombieRefreshed(k: Key, v: Value)
    ensures Follows(ZombieState(k, v, 6), ZombieAction(k, v, 6), ZombieState(k, v, 7))
    ensures Follows(ZombieState(k, v, 7), ZombieAction(k, v, 7), ZombieState(k, v, 8))
  {
  }

  lemma ZombieIgnored(k: Key, v: Value)
    ensures Follows(ZombieState(k, v, 8), ZombieAction(k, v, 8), ZombieState(k, v, 9))
  {
  }

  lemma ZombieLinked(k: Key, v: Value)
    ensures Follows(ZombieState(k, v, 9), ZombieAction(k, v, 9), ZombieState(k, v, 10))
    ensures Follows(ZombieState(k, v, 10), ZombieAction(k, v, 10), ZombieState(k, v, 11))
  {
  }

  lemma ZombieStep(k: Key, v: Value, i: nat)
    requires i < 11
    ensures Follows(ZombieState(k, v, i), ZombieAction(k, v, i), ZombieState(k, v, i + 1))
  {
    if i <= 1 {
      ZombieOvertaken(k, v);
    } else if i <= 3 {
      ZombieScheduled(k, v);
    } else if i <= 5 {
      ZombieTested(k, v);
    } else if i <= 7 {
      ZombieRefreshed(k, v);
    } else if i == 8 {
      ZombieIgnored(k, v);
    } else {
      ZombieLinked(k, v);
    }
  }

  /** The late NEW then links an entry that is in no map: the policy counts it although no key leads to it. */
  lemma RefreshedEntryDisagrees(k: Key, v: Value) returns (run: seq<State>, actions: seq<Action>)
    ensures IsRun(run, actions) && |actions| == 11 && run[11] == ZombieState(k, v, 11)
    ensures Quiescent(run[11]) && run[11].spared == {} && run[11].refreshed == {0}
    ensures !InMap(run[11], 0) && 0 in run[11].lru && run[11].weightedSize == 1 && !Agrees(run[11])
  {
    run, actions := seq(12, i requires 0 <= i => ZombieState(k, v, i)),
        seq(11, i requires 0 <= i => ZombieAction(k, v, i));
    forall i | 0 <= i < 11
      ensures Follows(run[i], actions[i], run[i + 1])
    {
      ZombieStep(k, v, i);
    }
    assert run[0] == ZombieState(k, v, 0);
  }
}
