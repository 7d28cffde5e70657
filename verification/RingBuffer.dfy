/**
 The lossy multi-producer ring of internal/buffer.go, as atomic steps of any number of producers.

 Every Add allocates its own item, so an item stands for one call. A producer that fills the last
 slot drains the ring into the policy buffer it took over, and gives that buffer back with Free.
 Counters are taken as unbounded; atomics as sequentially consistent.
 */
module RingBuffer {
  import opened Seqs

  type Tid = int
  type Item = int

  const CAPACITY: int := 16

  datatype Pc =
    | Idle
    | LoadTail(x: Item, h: int)                // head loaded as h
    | CasTail(x: Item, h: int, t: int)         // tail loaded as t
    | Publish(x: Item, h: int, t: int)         // slot t won, item not stored yet
    | TakeBuffer(h: int)                       // the last slot was won: try to take the policy buffer
    | Drain(h: int, i: int)                    // i slots drained
    | ClearSlot(h: int, i: int)                // slot i read and delivered, not cleared yet
    | Holding                                  // Add returned the policy buffer
    | GiveBack                                 // Free has emptied it, not returned it yet

  datatype State = State(
    head: int, tail: int, available: bool,
    slots: seq<Option<Item>>, batch: seq<Item>, pc: map<Tid, Pc>,
    added: set<Item>,       // items of all Add calls so far
    delivered: seq<Item>)   // history: everything ever put in a batch

  function At(s: State, t: Tid): Pc {
    if t in s.pc then s.pc[t] else Idle
  }

  function Go(s: State, t: Tid, p: Pc): State {
    s.(pc := s.pc[t := p])
  }

  ghost predicate Init(s: State) {
    && s.head == 0 && s.tail == 0 && s.available && s.batch == [] && s.pc == map[] && s.added == {} && s.delivered == []
    && |s.slots| == CAPACITY && forall j :: 0 <= j < CAPACITY ==> s.slots[j] == None
  }

  // ----- Steps -----

  /** Add reads the counters and tries once to move the tail. */
  ghost predicate EnterStep(s: State, t: Tid, s': State) {
    match At(s, t)
    case Idle => exists x :: x !in s.added && s' == Go(s, t, LoadTail(x, s.head)).(added := s.added + {x})
    case LoadTail(x, h) => s' == Go(s, t, if s.tail - h >= CAPACITY then Idle else CasTail(x, h, s.tail))
    case CasTail(x, h, tl) =>
      s' == if s.tail == tl then Go(s, t, Publish(x, h, tl)).(tail := tl + 1) else Go(s, t, Idle)
    case _ => false
  }

  ghost predicate PublishStep(s: State, t: Tid, s': State)
    requires |s.slots| == CAPACITY
  {
    match At(s, t)
    case Publish(x, h, tl) =>
      s' == Go(s, t, if tl - h == CAPACITY - 1 then TakeBuffer(h) else Idle)
        .(slots := s.slots[tl % CAPACITY := Some(x)])
    case TakeBuffer(h) => s' == if s.available then Go(s, t, Drain(h, 0)).(available := false) else Go(s, t, Idle)
    case _ => false
  }

  ghost predicate DrainStep(s: State, t: Tid, s': State)
    requires |s.slots| == CAPACITY
  {
    match At(s, t)
    case Drain(h, i) =>
      if i < CAPACITY then
        match s.slots[(h + i) % CAPACITY]
        case None => s' == Go(s, t, Drain(h, i + 1))
        case Some(x) => s' == Go(s, t, ClearSlot(h, i)).(batch := s.batch + [x], delivered := s.delivered + [x])
      else
        s' == Go(s, t, Holding).(head := h + CAPACITY)
    case ClearSlot(h, i) => s' == Go(s, t, Drain(h, i + 1)).(slots := s.slots[(h + i) % CAPACITY := None])
    case Holding => s' == Go(s, t, GiveBack).(batch := [])
    case GiveBack => s' == Go(s, t, Idle).(available := true)
    case _ => false
  }

  ghost predicate Step(s: State, t: Tid, s': State)
    requires |s.slots| == CAPACITY
  {
    EnterStep(s, t, s') || PublishStep(s, t, s') || DrainStep(s, t, s')
  }

  // ----- Counters: head and tail stay within one ring of each other -----

  /** The producer that won the last slot of the lap starting at `h`, until it has moved the head. */
  predicate Closes(p: Pc) {
    match p
    case Publish(_, h, tl) => tl - h == CAPACITY - 1
    case TakeBuffer(_) => true
    case Drain(_, _) => true
    case ClearSlot(_, _) => true
    case _ => false
  }

  /** What a producer's local copies of the counters are worth. */
  predicate Fresh(s: State, p: Pc) {
    match p
    case LoadTail(_, h) => h <= s.head && h % CAPACITY == 0
    case CasTail(_, h, tl) => h <= s.head && h % CAPACITY == 0 && h <= tl <= s.tail && tl - h < CAPACITY
    case Publish(_, h, tl) => 0 <= tl < s.tail && (Closes(p) ==> h == s.head)
    case TakeBuffer(h) => h == s.head
    case Drain(h, i) => h == s.head && 0 <= i <= CAPACITY
    case ClearSlot(h, i) => h == s.head && 0 <= i < CAPACITY
    case _ => true
  }

  ghost predicate Counters(s: State) {
    && |s.slots| == CAPACITY
    && 0 <= s.head <= s.tail <= s.head + CAPACITY && s.head % CAPACITY == 0
    && (forall t :: t in s.pc ==> Fresh(s, s.pc[t]))
    && (forall t :: t in s.pc && Closes(s.pc[t]) ==> s.tail == s.head + CAPACITY)
    && (forall t, u :: t in s.pc && u in s.pc && Closes(s.pc[t]) && Closes(s.pc[u]) ==> t == u)
  }

  lemma EnterCounters(s: State, t: Tid, s': State)
    requires Counters(s) && EnterStep(s, t, s')
    ensures Counters(s')
  {
  }

  lemma PublishCounters(s: State, t: Tid, s': State)
    requires Counters(s) && PublishStep(s, t, s')
    ensures Counters(s')
  {
  }

  lemma DrainCounters(s: State, t: Tid, s': State)
    requires Counters(s) && DrainStep(s, t, s')
    ensures Counters(s')
  {
  }

  // ----- Ownership: at most one goroutine has the policy buffer -----

  predicate Owns(p: Pc) {
    p.Drain? || p.ClearSlot? || p.Holding? || p.GiveBack?
  }

  /** How full the batch may be. */
  predicate BatchFits(p: Pc, batch: seq<Item>) {
    match p
    case Drain(_, i) => |batch| <= i <= CAPACITY
    case ClearSlot(_, i) => |batch| <= i + 1 <= CAPACITY
    case Holding => |batch| <= CAPACITY
    case GiveBack => batch == []
    case _ => true
  }

  ghost predicate Ownership(s: State) {
    && (forall t :: t in s.pc && Owns(s.pc[t]) ==> !s.available && BatchFits(s.pc[t], s.batch))
    && (forall t, u :: t in s.pc && u in s.pc && Owns(s.pc[t]) && Owns(s.pc[u]) ==> t == u)
    && (s.available ==> s.batch == [])
  }

  lemma StepOwnership(s: State, t: Tid, s': State)
    requires Counters(s) && Ownership(s) && Step(s, t, s')
    ensures Ownership(s')
  {
    assert s'.pc == s.pc[t := s'.pc[t]];
  }

  // ----- Items: delivered once, and only if added -----

  predicate Carries(p: Pc, x: Item) {
    match p
    case LoadTail(y, _) => x == y
    case CasTail(y, _, _) => x == y
    case Publish(y, _, _) => x == y
    case _ => false
  }

  predicate Clears(p: Pc, j: int) {
    p.ClearSlot? && (p.h + p.i) % CAPACITY == j
  }

  ghost predicate BeingCleared(pc: map<Tid, Pc>, j: int) {
    exists t :: t in pc && Clears(pc[t], j)
  }

  ghost predicate InSlots(s: State, x: Item) {
    Some(x) in s.slots
  }

  /** An item still with its producer is nowhere else. */
  ghost predicate Carried(s: State) {
    && (forall t, x :: t in s.pc && Carries(s.pc[t], x) ==> x in s.added && !InSlots(s, x) && x !in s.delivered)
    && (forall t, u, x :: t in s.pc && u in s.pc && Carries(s.pc[t], x) && Carries(s.pc[u], x) ==> t == u)
  }

  /** An item in a slot is in that slot only, and delivered only if the slot is about to be cleared. */
  ghost predicate Stored(s: State) {
    && |s.slots| == CAPACITY
    && (forall j :: 0 <= j < CAPACITY && s.slots[j].Some? ==> s.slots[j].value in s.added)
    && (forall j, k :: 0 <= j < k < CAPACITY && s.slots[j].Some? ==> s.slots[j] != s.slots[k])
    && (forall j :: 0 <= j < CAPACITY && s.slots[j].Some? && s.slots[j].value in s.delivered ==> BeingCleared(s.pc, j))
  }

  ghost predicate Delivered(s: State) {
    NoDup(s.delivered) && forall x :: x in s.delivered ==> x in s.added
  }

  ghost predicate Inv(s: State) {
    Counters(s) && Ownership(s) && Carried(s) && Stored(s) && Delivered(s)
  }

  /** A slot being cleared by someone else is still being cleared after thread t moves. */
  lemma StillClears(s: State, t: Tid, p: Pc, j: int)
    requires !At(s, t).ClearSlot? && BeingCleared(s.pc, j)
    ensures BeingCleared(s.pc[t := p], j)
  {
    var u :| u in s.pc && Clears(s.pc[u], j);
    assert u in s.pc[t := p] && Clears(s.pc[t := p][u], j);
  }

  /** Whoever has an item after the step had it before, or has just made it. */
  lemma EnterCarries(s: State, t: Tid, s': State, u: Tid, y: Item)
    requires EnterStep(s, t, s') && u in s'.pc && Carries(s'.pc[u], y)
    ensures (u in s.pc && Carries(s.pc[u], y)) || (u == t && y !in s.added && y in s'.added)
  {
  }

  lemma EnterCarried(s: State, t: Tid, s': State)
    requires Carried(s) && Stored(s) && Delivered(s) && EnterStep(s, t, s')
    ensures Carried(s')
  {
    assert s'.slots == s.slots && s'.delivered == s.delivered && s.added <= s'.added;
    forall u, y | u in s'.pc && Carries(s'.pc[u], y)
      ensures y in s'.added && !InSlots(s', y) && y !in s'.delivered
    {
      EnterCarries(s, t, s', u, y);
    }
    forall u, v, y | u in s'.pc && v in s'.pc && Carries(s'.pc[u], y) && Carries(s'.pc[v], y)
      ensures u == v
    {
      EnterCarries(s, t, s', u, y);
      EnterCarries(s, t, s', v, y);
    }
  }

  lemma EnterStored(s: State, t: Tid, s': State)
    requires Stored(s) && Delivered(s) && EnterStep(s, t, s')
    ensures Stored(s') && Delivered(s')
  {
    var p := s'.pc[t];
    assert s'.pc == s.pc[t := p] && s'.slots == s.slots && s'.delivered == s.delivered && s.added <= s'.added;
    forall j | 0 <= j < CAPACITY && s.slots[j].Some? && s.slots[j].value in s.delivered
      ensures BeingCleared(s'.pc, j)
    {
      StillClears(s, t, p, j);
    }
  }

  lemma PublishCarried(s: State, t: Tid, s': State)
    requires Carried(s) && |s.slots| == CAPACITY && PublishStep(s, t, s')
    ensures Carried(s')
  {
    assert s'.pc == s.pc[t := s'.pc[t]] && s'.added == s.added && s'.delivered == s.delivered;
    forall u, y | u in s'.pc && Carries(s'.pc[u], y)
      ensures y in s.added && !InSlots(s', y) && y !in s.delivered
    {
      assert u != t && Carries(s.pc[u], y);
      if At(s, t).Publish? {
        var x := At(s, t).x;
        assert Carries(s.pc[t], x);
        assert InSlots(s', y) ==> InSlots(s, y) || y == x;
      }
    }
  }

  lemma PublishStored(s: State, t: Tid, s': State)
    requires Carried(s) && Stored(s) && PublishStep(s, t, s')
    ensures Stored(s')
  {
    var p := s'.pc[t];
    assert s'.pc == s.pc[t := p];
    forall j | 0 <= j < CAPACITY && s'.slots[j].Some? && s'.slots[j].value in s.delivered
      ensures BeingCleared(s'.pc, j)
    {
      assert s'.slots[j] == s.slots[j] by {
        if At(s, t).Publish? {
          assert Carries(s.pc[t], At(s, t).x);
        }
      }
      StillClears(s, t, p, j);
    }
    if At(s, t).Publish? {
      assert Carries(s.pc[t], At(s, t).x) && !InSlots(s, At(s, t).x);
    }
  }

  /** To the owner of the buffer, only the slot it is clearing can hold something delivered before. */
  lemma OnlyOwnSlotStale(s: State, t: Tid, j: int)
    requires Ownership(s) && Stored(s) && t in s.pc && Owns(s.pc[t]) && 0 <= j < CAPACITY && s.slots[j].Some?
    ensures s.slots[j].value in s.delivered ==> Clears(s.pc[t], j)
  {
  }

  /** Draining brings nothing into a slot, and delivers only what was in one. */
  lemma DrainMoves(s: State, t: Tid, s': State, y: Item)
    requires |s.slots| == CAPACITY && DrainStep(s, t, s')
    ensures |s'.slots| == CAPACITY
    ensures InSlots(s', y) ==> InSlots(s, y)
    ensures y in s'.delivered ==> y in s.delivered || InSlots(s, y)
  {
  }

  lemma DrainCarried(s: State, t: Tid, s': State)
    requires Carried(s) && Stored(s) && DrainStep(s, t, s')
    ensures Carried(s')
  {
    assert s'.pc == s.pc[t := s'.pc[t]] && s'.added == s.added;
    forall u, y | u in s'.pc && Carries(s'.pc[u], y)
      ensures u in s.pc && Carries(s.pc[u], y) && y in s.added && !InSlots(s', y) && y !in s'.delivered
    {
      assert u != t;
      DrainMoves(s, t, s', y);
    }
  }

  lemma DrainStored(s: State, t: Tid, s': State)
    requires Ownership(s) && Stored(s) && DrainStep(s, t, s')
    ensures Stored(s')
  {
    var p := s'.pc[t];
    assert s'.pc == s.pc[t := p];
    forall j | 0 <= j < CAPACITY && s'.slots[j].Some? && s'.slots[j].value in s'.delivered
      ensures BeingCleared(s'.pc, j)
    {
      OnlyOwnSlotStale(s, t, j);
      assert Clears(p, j);
    }
  }

  lemma DrainDelivered(s: State, t: Tid, s': State)
    requires Ownership(s) && Stored(s) && Delivered(s) && DrainStep(s, t, s')
    ensures Delivered(s')
  {
    if At(s, t).Drain? && s'.delivered != s.delivered {
      OnlyOwnSlotStale(s, t, (At(s, t).h + At(s, t).i) % CAPACITY);
    }
  }

  lemma StepKeeps(s: State, t: Tid, s': State)
    requires Inv(s) && Step(s, t, s')
    ensures Inv(s')
  {
    StepOwnership(s, t, s');
    if EnterStep(s, t, s') {
      EnterCounters(s, t, s');
      EnterCarried(s, t, s');
      EnterStored(s, t, s');
    } else if PublishStep(s, t, s') {
      PublishCounters(s, t, s');
      PublishCarried(s, t, s');
      PublishStored(s, t, s');
    } else {
      DrainCounters(s, t, s');
      DrainCarried(s, t, s');
      DrainStored(s, t, s');
      DrainDelivered(s, t, s');
    }
  }

  // ----- What the ring promises -----

  ghost predicate Follows(s: State, t: Tid, s': State) {
    |s.slots| == CAPACITY && Step(s, t, s')
  }

  ghost predicate IsRun(run: seq<State>, schedule: seq<Tid>) {
    && |run| == |schedule| + 1
    && Init(run[0])
    && forall i :: 0 <= i < |schedule| ==> Follows(run[i], schedule[i], run[i + 1])
  }

  lemma {:induction false} RunInv(run: seq<State>, schedule: seq<Tid>, n: nat)
    requires IsRun(run, schedule) && n < |run|
    ensures Inv(run[n])
  {
    if n > 0 {
      RunInv(run, schedule, n - 1);
      assert Follows(run[n - 1], schedule[n - 1], run[n - 1 + 1]);
      StepKeeps(run[n - 1], schedule[n - 1], run[n]);
    }
  }

  /** In every interleaving of any number of producers: the counters stay within one ring, at most one
      goroutine has the policy buffer, a batch holds at most 16 items, no item is delivered twice and
      every delivered item was added. */
  lemma RingSafety(run: seq<State>, schedule: seq<Tid>, n: nat)
    requires IsRun(run, schedule) && n < |run|
    ensures run[n].head <= run[n].tail <= run[n].head + 16
    ensures forall t, u :: Owns(At(run[n], t)) && Owns(At(run[n], u)) ==> t == u
    ensures forall t :: At(run[n], t) == Holding ==> |run[n].batch| <= 16
    ensures NoDup(run[n].delivered) && forall x :: x in run[n].delivered ==> x in run[n].added
  {
    RunInv(run, schedule, n);
  }

  // ----- A drain delivers everything it finds -----

  /** The step stores an item in slot `j`. */
  ghost predicate StoresIn(s: State, u: Tid, j: int) {
    At(s, u).Publish? && At(s, u).t % CAPACITY == j
  }

  ghost predicate Stores(s: State, u: Tid) {
    At(s, u).Publish?
  }

  /** The items in some slots, in slot order. */
  function Contents(slots: seq<Option<Item>>): seq<Item> {
    if slots == [] then []
    else
      var n := |slots| - 1;
      Contents(slots[..n]) + (match slots[n] case None => [] case Some(x) => [x])
  }

  predicate Drains(p: Pc) {
    p.Drain? || p.ClearSlot?
  }

  /** How many slots a drainer is through with. */
  function Progress(p: Pc): int {
    if p.Drain? then p.i else if p.ClearSlot? then p.i + 1 else CAPACITY
  }

  /** What was in slot `j` when the drain began has been delivered or is still there. */
  ghost predicate OnItsWay(s: State, t: Tid, j: int, x: Item) {
    if j < Progress(At(s, t)) then x in s.batch else 0 <= j < |s.slots| && s.slots[j] == Some(x)
  }

  /** While a goroutine has the policy buffer, nobody else touches the batch or clears a slot. */
  lemma OwnerAlone(s: State, t: Tid, u: Tid, s': State)
    requires Inv(s) && Step(s, u, s') && t in s.pc && Owns(s.pc[t]) && u != t
    ensures s'.batch == s.batch && At(s', t) == At(s, t)
    ensures s'.slots ==
      if At(s, u).Publish? then s.slots[At(s, u).t % CAPACITY := Some(At(s, u).x)] else s.slots
  {
  }

  /** The batch and the slots still to come, from progress k to progress n. */
  ghost predicate Moves(s: State, s': State, k: int, n: int) {
    && 0 <= k <= n <= CAPACITY && |s.slots| == |s'.slots| == CAPACITY
    && s'.batch == s.batch + Contents(s.slots[k..n])
    && forall j :: n <= j < CAPACITY ==> s'.slots[j] == s.slots[j]
  }

  lemma SlotOf(head: int, i: int)
    requires head % CAPACITY == 0 && 0 <= i < CAPACITY
    ensures (head + i) % CAPACITY == i
  {
  }

  lemma ClearMoves(s: State, t: Tid, s': State)
    requires Inv(s) && Step(s, t, s') && At(s, t).ClearSlot?
    ensures Drains(At(s', t)) && Moves(s, s', Progress(At(s, t)), Progress(At(s', t)))
  {
    var i := At(s, t).i;
    SlotOf(s.head, i);
    assert s.slots[i + 1..i + 1] == [];
  }

  lemma DrainMovesOn(s: State, t: Tid, s': State)
    requires Inv(s) && Step(s, t, s') && At(s, t).Drain?
    ensures (Drains(At(s', t)) || At(s', t) == Holding) && Moves(s, s', Progress(At(s, t)), Progress(At(s', t)))
  {
    var i := At(s, t).i;
    if i < CAPACITY {
      SlotOf(s.head, i);
      assert s.slots[i..i + 1] == [s.slots[i]];
      ContentsOne(s.slots[i]);
    } else {
      assert s.slots[i..i] == [];
    }
  }

  /** One step of the drainer: on to the next slot, whose item, if any, it appends to the batch. */
  lemma DrainerStep(s: State, t: Tid, s': State)
    requires Inv(s) && Step(s, t, s') && Drains(At(s, t))
    ensures (Drains(At(s', t)) || At(s', t) == Holding) && Moves(s, s', Progress(At(s, t)), Progress(At(s', t)))
  {
    if At(s, t).Drain? {
      DrainMovesOn(s, t, s');
    } else {
      ClearMoves(s, t, s');
    }
  }

  lemma ContentsOne(o: Option<Item>)
    ensures Contents([o]) == match o case None => [] case Some(x) => [x]
  {
    assert [o][..0] == [];
  }

  lemma {:induction false} ContentsConcat(a: seq<Option<Item>>, b: seq<Option<Item>>)
    ensures Contents(a + b) == Contents(a) + Contents(b)
  {
    if b == [] {
      assert a + b == a;
    } else {
      var n := |b| - 1;
      assert (a + b)[..|a + b| - 1] == a + b[..n];
      ContentsConcat(a, b[..n]);
    }
  }

  lemma {:induction false} ContentsHas(slots: seq<Option<Item>>, j: nat)
    requires j < |slots| && slots[j].Some?
    ensures slots[j].value in Contents(slots)
  {
    if j < |slots| - 1 {
      ContentsHas(slots[..|slots| - 1], j);
    }
  }

  lemma DrainStepOnItsWay(s: State, t: Tid, u: Tid, s': State, j: int, x: Item)
    requires Inv(s) && Step(s, u, s') && Drains(At(s, t)) && !StoresIn(s, u, j) && 0 <= j < CAPACITY
    requires OnItsWay(s, t, j, x)
    ensures OnItsWay(s', t, j, x)
  {
    if u == t {
      DrainerStep(s, t, s');
      var k, n := Progress(At(s, t)), Progress(At(s', t));
      if k <= j < n {
        ContentsHas(s.slots[k..n], j - k);
      }
    } else {
      OwnerAlone(s, t, u, s');
    }
  }

  /** Goroutine `t` takes the policy buffer in step m and drains until it holds the batch in state n. */
  ghost predicate DrainRun(run: seq<State>, schedule: seq<Tid>, m: nat, n: nat, t: Tid) {
    && IsRun(run, schedule) && m < n < |run| && schedule[m] == t
    && At(run[m], t).TakeBuffer? && run[m].available
    && forall i :: m < i < n ==> Drains(At(run[i], t))
  }

  lemma TakeStarts(run: seq<State>, schedule: seq<Tid>, m: nat, t: Tid)
    requires IsRun(run, schedule) && m < |schedule| && schedule[m] == t && At(run[m], t).TakeBuffer? && run[m].available
    ensures |run[m].slots| == CAPACITY && Drains(At(run[m + 1], t)) && Progress(At(run[m + 1], t)) == 0
    ensures run[m + 1].batch == [] && run[m + 1].slots == run[m].slots
  {
    RunInv(run, schedule, m);
    assert Follows(run[m], schedule[m], run[m + 1]);
  }

  lemma {:induction false} DrainKeepsAll(run: seq<State>, schedule: seq<Tid>, m: nat, n: nat, t: Tid, j: int)
    requires DrainRun(run, schedule, m, n, t) && 0 <= j < CAPACITY
    requires |run[m].slots| == CAPACITY && run[m].slots[j].Some?
    requires forall i :: m < i < n ==> !StoresIn(run[i], schedule[i], j)
    ensures OnItsWay(run[n], t, j, run[m].slots[j].value)
  {
    if n == m + 1 {
      TakeStarts(run, schedule, m, t);
    } else {
      DrainKeepsAll(run, schedule, m, n - 1, t, j);
      RunInv(run, schedule, n - 1);
      assert Follows(run[n - 1], schedule[n - 1], run[n - 1 + 1]);
      DrainStepOnItsWay(run[n - 1], t, schedule[n - 1], run[n], j, run[m].slots[j].value);
    }
  }

  /** In every run, a drain delivers every item that was in the ring when it took the policy buffer, except from a
      slot that a late producer overwrote meanwhile. */
  lemma DrainTakesAll(run: seq<State>, schedule: seq<Tid>, m: nat, n: nat, t: Tid, j: int)
    requires DrainRun(run, schedule, m, n, t) && At(run[n], t) == Holding && 0 <= j < CAPACITY
    requires |run[m].slots| == CAPACITY && run[m].slots[j].Some?
    requires forall i :: m < i < n ==> !StoresIn(run[i], schedule[i], j)
    ensures run[m].slots[j].value in run[n].batch
  {
    DrainKeepsAll(run, schedule, m, n, t, j);
  }

  /** The batch holds what the first slots held, and the others are as they were. */
  ghost predicate InOrder(slots: seq<Option<Item>>, s: State, t: Tid) {
    && |slots| == |s.slots| == CAPACITY && (Drains(At(s, t)) || At(s, t) == Holding)
    && var k := Progress(At(s, t));
       && 0 <= k <= CAPACITY && s.batch == Contents(slots[..k])
       && forall j :: k <= j < CAPACITY ==> s.slots[j] == slots[j]
  }

  lemma InOrderStep(slots: seq<Option<Item>>, s: State, t: Tid, u: Tid, s': State)
    requires Inv(s) && Step(s, u, s') && Drains(At(s, t)) && !Stores(s, u) && InOrder(slots, s, t)
    ensures InOrder(slots, s', t)
  {
    if u == t {
      DrainerStep(s, t, s');
      var k, l := Progress(At(s, t)), Progress(At(s', t));
      assert s.slots[k..l] == slots[k..l];
      assert slots[..l] == slots[..k] + slots[k..l];
      ContentsConcat(slots[..k], slots[k..l]);
    } else {
      OwnerAlone(s, t, u, s');
    }
  }

  lemma {:induction false} DrainInOrder(run: seq<State>, schedule: seq<Tid>, m: nat, n: nat, t: Tid)
    requires DrainRun(run, schedule, m, n, t)
    requires forall i :: m < i < n ==> !Stores(run[i], schedule[i])
    ensures InOrder(run[m].slots, run[n], t)
  {
    if n == m + 1 {
      TakeStarts(run, schedule, m, t);
    } else {
      DrainInOrder(run, schedule, m, n - 1, t);
      RunInv(run, schedule, n - 1);
      assert Follows(run[n - 1], schedule[n - 1], run[n - 1 + 1]);
      InOrderStep(run[m].slots, run[n - 1], t, schedule[n - 1], run[n]);
    }
  }

  /** When no producer stores an item meanwhile, the batch is exactly what was in the ring, in order. */
  lemma DrainExact(run: seq<State>, schedule: seq<Tid>, m: nat, n: nat, t: Tid)
    requires DrainRun(run, schedule, m, n, t) && At(run[n], t) == Holding
    requires forall i :: m < i < n ==> !Stores(run[i], schedule[i])
    ensures run[n].batch == Contents(run[m].slots)
  {
    DrainInOrder(run, schedule, m, n, t);
    assert run[m].slots[..CAPACITY] == run[m].slots;
  }

  /** The ring is full and nobody is left to drain it. */
  ghost predicate Stuck(s: State) {
    s.tail == s.head + CAPACITY && forall t :: t in s.pc ==> !Closes(s.pc[t])
  }

  /** The step in which a producer that filled the last slot finds the policy buffer taken. */
  ghost predicate LosesRace(s: State, t: Tid) {
    At(s, t).TakeBuffer? && !s.available
  }

  /** A ring becomes stuck in the step that loses the race for the policy buffer, and in no other ... */
  lemma StuckByRace(s: State, t: Tid, s': State)
    requires Inv(s) && Step(s, t, s') && !Stuck(s)
    ensures Stuck(s') <==> LosesRace(s, t)
  {
    assert s'.pc == s.pc[t := s'.pc[t]];
    if LosesRace(s, t) {
      assert Closes(s.pc[t]);
    } else {
      StillClosed(s, t, s');
    }
  }

  /** A ring that is full has someone to drain it, who stays until the head has moved or the race is lost. */
  lemma StillClosed(s: State, t: Tid, s': State)
    requires Inv(s) && Step(s, t, s') && !Stuck(s) && !LosesRace(s, t)
    ensures !Stuck(s')
  {
    var p := s'.pc[t];
    assert s'.pc == s.pc[t := p];
    if s'.tail == s'.head + CAPACITY {
      if s.tail == s.head + CAPACITY {
        var u :| u in s.pc && Closes(s.pc[u]);
        assert Closes(s'.pc[u]);
      } else {
        assert Closes(p);
      }
    }
  }

  /** ... and a stuck ring stays stuck: its counters never move and nothing is delivered again. So
      only safety can be promised of the ring, not that added items are eventually delivered. */
  lemma StuckStep(s: State, t: Tid, s': State)
    requires Inv(s) && Stuck(s) && Step(s, t, s')
    ensures Stuck(s') && s'.head == s.head && s'.tail == s.tail && s'.delivered == s.delivered
  {
  }

  lemma StuckNext(run: seq<State>, schedule: seq<Tid>, n: nat)
    requires IsRun(run, schedule) && n < |schedule|
    ensures Stuck(run[n]) ==> Stuck(run[n + 1]) && run[n + 1].delivered == run[n].delivered
    ensures !Stuck(run[n]) ==> (Stuck(run[n + 1]) <==> LosesRace(run[n], schedule[n]))
  {
    RunInv(run, schedule, n);
    assert Follows(run[n], schedule[n], run[n + 1]);
    if Stuck(run[n]) {
      StuckStep(run[n], schedule[n], run[n + 1]);
    } else {
      StuckByRace(run[n], schedule[n], run[n + 1]);
    }
  }

  lemma {:induction false} StuckForever(run: seq<State>, schedule: seq<Tid>, m: nat, n: nat)
    requires IsRun(run, schedule) && m <= n < |run| && Stuck(run[m])
    ensures Stuck(run[n]) && run[n].delivered == run[m].delivered
  {
    if m < n {
      StuckForever(run, schedule, m, n - 1);
      StuckNext(run, schedule, n - 1);
    }
  }

  ghost predicate RaceLost(run: seq<State>, schedule: seq<Tid>, n: nat)
    requires |run| == |schedule| + 1 && n < |run|
  {
    exists m: nat :: m < n && LosesRace(run[m], schedule[m])
  }

  lemma RaceLostNext(run: seq<State>, schedule: seq<Tid>, n: nat)
    requires |run| == |schedule| + 1 && n < |schedule|
    ensures RaceLost(run, schedule, n + 1) <==> RaceLost(run, schedule, n) || LosesRace(run[n], schedule[n])
  {
  }

  /** In every run, the ring is stuck if and only if some producer has lost the race for the policy buffer. */
  lemma {:induction false} StuckIff(run: seq<State>, schedule: seq<Tid>, n: nat)
    requires IsRun(run, schedule) && n < |run|
    ensures Stuck(run[n]) <==> RaceLost(run, schedule, n)
  {
    if n > 0 {
      StuckIff(run, schedule, n - 1);
      StuckNext(run, schedule, n - 1);
      RaceLostNext(run, schedule, n - 1);
    }
  }

  // ----- Continuing a run -----

  /** A run and the threads that made its steps. */
  datatype History = History(run: seq<State>, schedule: seq<Tid>) {
    ghost predicate Valid() {
      IsRun(run, schedule)
    }

    ghost function Last(): State
      requires Valid()
    {
      run[|run| - 1]
    }

    /** Let thread `t` take a step. */
    ghost function Then(t: Tid, s: State): (h: History)
      requires Valid() && |Last().slots| == CAPACITY && Step(Last(), t, s)
      ensures h.Valid() && h.Last() == s && Continues(h)
    {
      History(run + [s], schedule + [t])
    }

    /** The other history goes on from this one. */
    ghost predicate Continues(h: History) {
      h.Valid() && run <= h.run
    }
  }

  lemma {:induction false} UnusedItem(items: set<int>) returns (x: int)
    ensures forall y :: y in items ==> y < x
    decreases |items|
  {
    x := 0;
    if y :| y in items {
      var rest := items - {y};
      var z := UnusedItem(rest);
      x := if z <= y then y + 1 else z;
      forall w | w in items
        ensures w < x
      {
        assert w == y || w in rest;
      }
    }
  }

  /** Thread `t` is idle, the head is at `head`, and `k` slots after it are taken. */
  ghost predicate Filled(s: State, t: Tid, head: int, k: int, available: bool) {
    && |s.slots| == CAPACITY && At(s, t) == Idle && s.head == head && s.tail == head + k && s.available == available
  }

  /** One whole Add by `t`, up to its publication of slot `k`. */
  lemma AddOne(g: History, t: Tid, head: int, k: int, available: bool) returns (h: History, x: Item)
    requires g.Valid() && 0 <= k < CAPACITY && Filled(g.Last(), t, head, k, available)
    ensures g.Continues(h) && |h.Last().slots| == CAPACITY
    ensures h.Last().head == head && h.Last().tail == head + k + 1 && h.Last().available == available
    ensures x !in g.Last().added && h.Last().added == g.Last().added + {x} && h.Last().batch == g.Last().batch
    ensures h.Last().slots == g.Last().slots[(head + k) % CAPACITY := Some(x)]
    ensures h.schedule == g.schedule + [t, t, t, t]
    ensures At(h.Last(), t) == if k == CAPACITY - 1 then TakeBuffer(head) else Idle
    ensures forall u :: u != t ==> At(h.Last(), u) == At(g.Last(), u)
  {
    var s := g.Last();
    x := UnusedItem(s.added);
    var s1 := Go(s, t, LoadTail(x, head)).(added := s.added + {x});
    var h1 := g.Then(t, s1);
    var s2 := Go(s1, t, CasTail(x, head, s1.tail));
    var h2 := h1.Then(t, s2);
    var s3 := Go(s2, t, Publish(x, head, s2.tail)).(tail := s2.tail + 1);
    var h3 := h2.Then(t, s3);
    var tl := s2.tail;
    var s4 := Go(s3, t, if tl - head == CAPACITY - 1 then TakeBuffer(head) else Idle)
      .(slots := s3.slots[tl % CAPACITY := Some(x)]);
    h := h3.Then(t, s4);
  }

  /** Adds by `t` until the ring is full: the last one is about to ask for the policy buffer. */
  lemma {:induction false} Fill(g: History, t: Tid, head: int, k: int, available: bool)
      returns (h: History, items: seq<Item>)
    requires g.Valid() && 0 <= k < CAPACITY && Filled(g.Last(), t, head, k, available)
    ensures g.Continues(h) && |h.Last().slots| == CAPACITY && h.Last().batch == g.Last().batch
    ensures h.Last().head == head && h.Last().tail == head + CAPACITY && h.Last().available == available
    ensures At(h.Last(), t) == TakeBuffer(head)
    ensures forall u :: u != t ==> At(h.Last(), u) == At(g.Last(), u)
    ensures |items| == CAPACITY - k && NoDup(items) && forall x :: x in items ==> x !in g.Last().added
    ensures head % CAPACITY == 0 ==>
      (forall i :: k <= i < CAPACITY ==> h.Last().slots[i] == Some(items[i - k])) &&
      forall i :: 0 <= i < k ==> h.Last().slots[i] == g.Last().slots[i]
    decreases CAPACITY - k
  {
    var f, x := AddOne(g, t, head, k, available);
    h, items := f, [x];
    if k < CAPACITY - 1 {
      var rest: seq<Item>;
      h, rest := Fill(f, t, head, k + 1, available);
      items := [x] + rest;
    }
    if head % CAPACITY == 0 {
      SlotOf(head, k);
    }
  }

  ghost predicate Draining(s: State, t: Tid, head: int, i: int) {
    && |s.slots| == CAPACITY && At(s, t) == Drain(head, i) && s.head == head && s.tail == head + CAPACITY &&
      !s.available
  }

  lemma OneThenRest(slots: seq<Option<Item>>, later: seq<Option<Item>>, i: int)
    requires 0 <= i < |slots| == |later| && forall j :: i < j < |slots| ==> later[j] == slots[j]
    ensures Contents(slots[i..]) ==
      (match slots[i] case None => [] case Some(x) => [x]) + Contents(later[i + 1..])
  {
    assert slots[i..] == [slots[i]] + slots[i + 1..];
    assert later[i + 1..] == slots[i + 1..];
    ContentsConcat([slots[i]], slots[i + 1..]);
    ContentsOne(slots[i]);
  }

  /** The drainer empties slots `i` and on. */
  lemma {:induction false} DrainRest(g: History, t: Tid, head: int, i: int) returns (h: History)
    requires g.Valid() && 0 <= i <= CAPACITY && Draining(g.Last(), t, head, i)
    ensures g.Continues(h) && Draining(h.Last(), t, head, CAPACITY)
    ensures forall u :: u != t ==> At(h.Last(), u) == At(g.Last(), u)
    ensures head % CAPACITY == 0 ==> h.Last().batch == g.Last().batch + Contents(g.Last().slots[i..])
    decreases CAPACITY - i
  {
    h := g;
    var slots := g.Last().slots;
    if i < CAPACITY {
      var f := DrainSlot(g, t, head, i);
      h := DrainRest(f, t, head, i + 1);
      if head % CAPACITY == 0 {
        OneThenRest(slots, f.Last().slots, i);
      }
    } else {
      assert slots[i..] == [];
    }
  }

  lemma DrainSlot(g: History, t: Tid, head: int, i: int) returns (h: History)
    requires g.Valid() && 0 <= i < CAPACITY && Draining(g.Last(), t, head, i)
    ensures g.Continues(h) && Draining(h.Last(), t, head, i + 1)
    ensures forall u :: u != t ==> At(h.Last(), u) == At(g.Last(), u)
    ensures head % CAPACITY == 0 ==>
      && h.Last().batch == g.Last().batch + (match g.Last().slots[i] case None => [] case Some(x) => [x])
      && forall j :: i < j < CAPACITY ==> h.Last().slots[j] == g.Last().slots[j]
  {
    var s := g.Last();
    if head % CAPACITY == 0 {
      SlotOf(head, i);
    }
    var j := (head + i) % CAPACITY;
    if s.slots[j].None? {
      h := g.Then(t, Go(s, t, Drain(head, i + 1)));
    } else {
      var x := s.slots[j].value;
      var s1 := Go(s, t, ClearSlot(head, i)).(batch := s.batch + [x], delivered := s.delivered + [x]);
      var h1 := g.Then(t, s1);
      h := h1.Then(t, Go(s1, t, Drain(head, i + 1)).(slots := s1.slots[j := None]));
    }
  }

  lemma {:induction false} ContentsFull(slots: seq<Option<Item>>, items: seq<Item>)
    requires |slots| == |items| && forall i :: 0 <= i < |items| ==> slots[i] == Some(items[i])
    ensures Contents(slots) == items
  {
    if slots != [] {
      var n := |slots| - 1;
      ContentsFull(slots[..n], items[..n]);
    }
  }

  /** Sixteen Adds by one goroutine on an empty ring deliver exactly those sixteen items, in order. */
  lemma SixteenAdds(g: History, t: Tid) returns (h: History, items: seq<Item>)
    requires g.Valid() && At(g.Last(), t) == Idle && g.Last().tail == g.Last().head && g.Last().available
    ensures g.Continues(h) && At(h.Last(), t) == Holding && h.Last().batch == items
    ensures |items| == 16 && NoDup(items) && forall x :: x in items ==> x !in g.Last().added
  {
    EmptyBatch(g);
    var head := g.Last().head;
    var f: History;
    f, items := Fill(g, t, head, 0, true);
    ContentsFull(f.Last().slots, items);
    h := TakeAndDrain(f, t, head);
  }

  lemma EmptyBatch(g: History)
    requires g.Valid()
    ensures |g.Last().slots| == CAPACITY && g.Last().head % CAPACITY == 0
    ensures g.Last().available ==> g.Last().batch == []
  {
    RunInv(g.run, g.schedule, |g.run| - 1);
  }

  lemma TakeAndDrain(g: History, t: Tid, head: int) returns (h: History)
    requires g.Valid() && |g.Last().slots| == CAPACITY && g.Last().available && head % CAPACITY == 0
    requires At(g.Last(), t) == TakeBuffer(head) && g.Last().head == head && g.Last().tail == head + CAPACITY
    ensures g.Continues(h) && At(h.Last(), t) == Holding
    ensures h.Last().batch == g.Last().batch + Contents(g.Last().slots)
  {
    var e := g.Then(t, Go(g.Last(), t, Drain(head, 0)).(available := false));
    assert e.Last().slots[0..] == e.Last().slots;
    var d := DrainRest(e, t, head, 0);
    h := d.Then(t, Go(d.Last(), t, Holding).(head := head + CAPACITY));
  }

  // ----- A run that loses the race -----

  /** Thread 0 fills the ring, drains it and keeps the policy buffer. */
  lemma HoldBuffer() returns (h: History)
    ensures h.Valid() && Filled(h.Last(), 1, CAPACITY, 0, false) && At(h.Last(), 0) == Holding
  {
    var s := State(0, 0, true, seq(CAPACITY, j => None), [], map[], {}, []);
    var f, _ := Fill(History([s], []), 0, 0, 0, true);
    h := f;
    assert At(h.Last(), 1) == Idle;
    h := h.Then(0, Go(h.Last(), 0, Drain(0, 0)).(available := false));
    assert At(h.Last(), 1) == Idle;
    h := DrainRest(h, 0, 0, 0);
    assert At(h.Last(), 1) == Idle;
    h := h.Then(0, Go(h.Last(), 0, Holding).(head := CAPACITY));
  }

  /** The race can be lost: while thread 0 still holds the policy buffer, thread 1 fills the ring again and
      finds the buffer taken. From then on the ring is stuck. */
  lemma RingGetsStuck() returns (run: seq<State>, schedule: seq<Tid>)
    ensures IsRun(run, schedule) && |run| >= 2 && LosesRace(run[|run| - 2], schedule[|run| - 2])
    ensures Stuck(run[|run| - 1]) && At(run[|run| - 1], 0) == Holding
  {
    var h := HoldBuffer();
    var f, _ := Fill(h, 1, CAPACITY, 0, false);
    var s := f.Last();
    var g := f.Then(1, Go(s, 1, Idle));
    run, schedule := g.run, g.schedule;
    StuckIff(run, schedule, |run| - 1);
  }

  // ----- A ring that has not lost the race can still deliver -----

  /** The producer has drained nothing of the last slot yet. */
  predicate Loaded(p: Pc) {
    p.TakeBuffer? || p.ClearSlot? || (p.Drain? && p.i < CAPACITY)
  }

  ghost predicate Owned(pc: map<Tid, Pc>) {
    exists t :: t in pc && Owns(pc[t])
  }

  /** A policy buffer that is gone is with someone, and a producer about to drain has its own item to find. */
  ghost predicate Served(s: State) {
    && |s.slots| == CAPACITY && (!s.available ==> Owned(s.pc))
    && (forall t :: t in s.pc && Loaded(s.pc[t]) ==> s.slots[CAPACITY - 1].Some?)
  }

  lemma StillOwned(s: State, t: Tid, p: Pc)
    requires Owned(s.pc) && (Owns(At(s, t)) ==> Owns(p))
    ensures Owned(s.pc[t := p])
  {
    var u :| u in s.pc && Owns(s.pc[u]);
    assert u in s.pc[t := p] && Owns(s.pc[t := p][u]);
  }

  lemma EnterServed(s: State, t: Tid, s': State)
    requires Inv(s) && Served(s) && EnterStep(s, t, s')
    ensures Served(s')
  {
    var p := s'.pc[t];
    assert s'.pc == s.pc[t := p];
    if !s.available {
      StillOwned(s, t, p);
    }
  }

  lemma PublishServed(s: State, t: Tid, s': State)
    requires Inv(s) && Served(s) && PublishStep(s, t, s')
    ensures Served(s')
  {
    var p := s'.pc[t];
    assert s'.pc == s.pc[t := p];
    if !s.available {
      StillOwned(s, t, p);
    } else if !s'.available {
      assert Owns(s'.pc[t]);
    }
  }

  lemma DrainServed(s: State, t: Tid, s': State)
    requires Inv(s) && Served(s) && DrainStep(s, t, s')
    ensures Served(s')
  {
    var p := s'.pc[t];
    assert s'.pc == s.pc[t := p];
    if !s'.available {
      assert Owns(s'.pc[t]);
    }
    forall u | u in s'.pc && Loaded(s'.pc[u])
      ensures s'.slots[CAPACITY - 1].Some?
    {
      assert u != t ==> !Closes(At(s, t));
    }
  }

  lemma {:induction false} RunServed(run: seq<State>, schedule: seq<Tid>, n: nat)
    requires IsRun(run, schedule) && n < |run|
    ensures Inv(run[n]) && Served(run[n])
  {
    RunInv(run, schedule, n);
    if n > 0 {
      RunServed(run, schedule, n - 1);
      assert Follows(run[n - 1], schedule[n - 1], run[n - 1 + 1]);
      StepServed(run[n - 1], schedule[n - 1], run[n]);
    }
  }

  lemma StepServed(s: State, t: Tid, s': State)
    requires Inv(s) && Served(s) && Step(s, t, s')
    ensures Served(s')
  {
    if EnterStep(s, t, s') {
      EnterServed(s, t, s');
    } else if PublishStep(s, t, s') {
      PublishServed(s, t, s');
    } else {
      DrainServed(s, t, s');
    }
  }

  /** Nothing delivered is taken back. */
  lemma {:induction false} DeliveredGrows(run: seq<State>, schedule: seq<Tid>, m: nat, n: nat)
    requires IsRun(run, schedule) && m <= n < |run|
    ensures |run[m].delivered| <= |run[n].delivered|
  {
    if m < n {
      DeliveredGrows(run, schedule, m, n - 1);
      assert Follows(run[n - 1], schedule[n - 1], run[n - 1 + 1]);
    }
  }

  /** The longer history has delivered more. */
  ghost predicate DeliversMore(g: History, h: History)
    requires g.Valid()
  {
    g.Continues(h) && |h.Last().delivered| > |g.Last().delivered|
  }

  lemma MoreAfter(g: History, f: History, h: History)
    requires g.Valid() && g.Continues(f) && DeliversMore(f, h)
    ensures DeliversMore(g, h)
  {
    DeliveredGrows(f.run, f.schedule, |g.run| - 1, |f.run| - 1);
  }

  /** The drainer goes on to the next item, which is at the latest the one it put in the last slot itself. */
  lemma {:induction false} DrainToItem(g: History, t: Tid, head: int, i: int) returns (h: History)
    requires g.Valid() && 0 <= i < CAPACITY && At(g.Last(), t) == Drain(head, i)
    ensures DeliversMore(g, h)
    decreases CAPACITY - i
  {
    RunServed(g.run, g.schedule, |g.run| - 1);
    var s := g.Last();
    var j := (head + i) % CAPACITY;
    if s.slots[j].Some? {
      var x := s.slots[j].value;
      h := g.Then(t, Go(s, t, ClearSlot(head, i)).(batch := s.batch + [x], delivered := s.delivered + [x]));
    } else {
      var f := g.Then(t, Go(s, t, Drain(head, i + 1)));
      h := DrainToItem(f, t, head, i + 1);
      MoreAfter(g, f, h);
    }
  }

  /** Whoever has the policy buffer while the ring waits for it can give it back. */
  lemma GetBuffer(g: History, t: Tid) returns (h: History)
    requires g.Valid() && At(g.Last(), t).TakeBuffer?
    ensures g.Continues(h) && h.Last().available && At(h.Last(), t) == At(g.Last(), t)
  {
    RunServed(g.run, g.schedule, |g.run| - 1);
    var s := g.Last();
    h := g;
    if !s.available {
      var w :| w in s.pc && Owns(s.pc[w]);
      assert w != t && Closes(s.pc[t]) && !Closes(s.pc[w]);
      if s.pc[w].Holding? {
        h := h.Then(w, Go(s, w, GiveBack).(batch := []));
      }
      var s1 := h.Last();
      assert At(s1, w) == GiveBack;
      h := h.Then(w, Go(s1, w, Idle).(available := true));
    }
  }

  lemma TakeToItem(g: History, t: Tid) returns (h: History)
    requires g.Valid() && At(g.Last(), t).TakeBuffer?
    ensures DeliversMore(g, h)
  {
    RunServed(g.run, g.schedule, |g.run| - 1);
    var f := GetBuffer(g, t);
    RunServed(f.run, f.schedule, |f.run| - 1);
    var head := At(f.Last(), t).h;
    var e := f.Then(t, Go(f.Last(), t, Drain(head, 0)).(available := false));
    h := DrainToItem(e, t, head, 0);
    MoreAfter(f, e, h);
    MoreAfter(g, f, h);
  }

  /** While the ring has room, a new producer can fill it. */
  lemma FillToItem(g: History) returns (h: History)
    requires g.Valid() && g.Last().tail < g.Last().head + CAPACITY
    ensures DeliversMore(g, h)
  {
    RunServed(g.run, g.schedule, |g.run| - 1);
    var s := g.Last();
    var t := UnusedItem(s.pc.Keys);
    var f, _ := Fill(g, t, s.head, s.tail - s.head, s.available);
    h := TakeToItem(f, t);
    MoreAfter(g, f, h);
  }

  /** A full ring with someone to drain it goes on. */
  lemma CloserToItem(g: History, t: Tid) returns (h: History)
    requires g.Valid() && t in g.Last().pc && Closes(g.Last().pc[t])
    ensures DeliversMore(g, h)
  {
    RunServed(g.run, g.schedule, |g.run| - 1);
    var s := g.Last();
    match s.pc[t]
    case Publish(x, head, tl) =>
      var f := g.Then(t, Go(s, t, TakeBuffer(head)).(slots := s.slots[tl % CAPACITY := Some(x)]));
      h := TakeToItem(f, t);
      MoreAfter(g, f, h);
    case TakeBuffer(_) =>
      h := TakeToItem(g, t);
    case ClearSlot(head, i) =>
      var f := g.Then(t, Go(s, t, Drain(head, i + 1)).(slots := s.slots[(head + i) % CAPACITY := None]));
      h := DrainerToItem(f, t);
      MoreAfter(g, f, h);
    case Drain(_, _) =>
      h := DrainerToItem(g, t);
  }

  lemma DrainerToItem(g: History, t: Tid) returns (h: History)
    requires g.Valid() && At(g.Last(), t).Drain?
    ensures DeliversMore(g, h)
  {
    RunServed(g.run, g.schedule, |g.run| - 1);
    var s := g.Last();
    var head, i := s.pc[t].h, s.pc[t].i;
    if i < CAPACITY {
      h := DrainToItem(g, t, head, i);
    } else {
      var f := g.Then(t, Go(s, t, Holding).(head := head + CAPACITY));
      h := FillToItem(f);
      MoreAfter(g, f, h);
    }
  }

  /** Exactly when the ring stops delivering: a run can be continued so that something more is delivered if
      and only if no producer has lost the race for the policy buffer in it. */
  lemma DeliversIff(g: History)
    requires g.Valid()
    ensures (exists h: History :: DeliversMore(g, h)) <==> !RaceLost(g.run, g.schedule, |g.run| - 1)
  {
    var n := |g.run| - 1;
    StuckIff(g.run, g.schedule, n);
    RunServed(g.run, g.schedule, n);
    if Stuck(g.Last()) {
      forall h: History | g.Continues(h)
        ensures h.Last().delivered == g.Last().delivered
      {
        assert h.run[n] == g.run[n];
        StuckForever(h.run, h.schedule, n, |h.run| - 1);
      }
    } else if g.Last().tail == g.Last().head + CAPACITY {
      var t :| t in g.Last().pc && Closes(g.Last().pc[t]);
      var h := CloserToItem(g, t);
    } else {
      var h := FillToItem(g);
    }
  }
}
