/**
 The hierarchical timer wheel of internal/timerwheel.go.

 `Timing` is what a caller can observe of the wheel: the clock it was last
 advanced to, the bucket every scheduled entry sits in, every entry's expire
 field, and the expire value each entry had when it was last placed. The class
 keeps the bucket lists themselves and is proved against functions on `Timing`;
 everything the wheel promises is then proved about those functions.
 */
module TimerWheel {
  import opened Seqs

  type Id = int

  datatype Loc = Loc(level: int, slot: int)

  const LEVELS: nat := 5

  function Buckets(level: nat): nat
    requires level < LEVELS
  {
    if level <= 1 then 64 else if level == 2 then 32 else if level == 3 then 4 else 1
  }

  /** Powers of two just above 1s, 1m, 1h and 1d in nanoseconds, then four of the last, twice. */
  function Span(level: nat): nat
    requires level <= LEVELS
  {
    if level == 0 then 0x4000_0000
    else if level == 1 then 0x10_0000_0000
    else if level == 2 then 0x400_0000_0000
    else if level == 3 then 0x8000_0000_0000
    else 0x2_0000_0000_0000
  }

  /** The source shifts right, which floors, as does division by a positive span. */
  function Tick(level: nat, t: int): int
    requires level < LEVELS
  {
    t / Span(level)
  }

  predicate ValidLoc(loc: Loc) {
    0 <= loc.level < LEVELS && 0 <= loc.slot < Buckets(loc.level)
  }

  /** The bucket chosen for an entry expiring at `t` when the wheel stands at `nanos`. */
  function Target(nanos: int, t: int): (loc: Loc)
    ensures ValidLoc(loc)
  {
    var d := t - nanos;
    var level := if d < Span(1) then 0 else if d < Span(2) then 1 else if d < Span(3) then 2 else if d < Span(4) then 3
      else 4;
    Loc(level, Tick(level, t) % Buckets(level))
  }

  // ----- What the wheel does, as functions on its observable state -----

  datatype Timing = Timing(nanos: int, place: map<Id, Loc>, expire: map<Id, int>, at: map<Id, int>)

  ghost predicate WellFormed(w: Timing) {
    && w.place.Keys == w.at.Keys
    && w.place.Keys <= w.expire.Keys
    && forall x :: x in w.place ==> ValidLoc(w.place[x])
  }

  ghost function Scheduled(w: Timing, x: Id): Timing
    requires x in w.expire
  {
    w.(place := w.place[x := Target(w.nanos, w.expire[x])], at := w.at[x := w.expire[x]])
  }

  ghost function Descheduled(w: Timing, x: Id): Timing {
    w.(place := w.place - {x}, at := w.at - {x})
  }

  /** Descheduling first makes no difference to where scheduling puts an entry. */
  lemma RescheduleAbsorbs(w: Timing, x: Id)
    requires x in w.expire
    ensures Scheduled(Descheduled(w, x), x) == Scheduled(w, x)
  {
    var loc := Target(w.nanos, w.expire[x]);
    assert (w.place - {x})[x := loc] == w.place[x := loc];
    assert (w.at - {x})[x := w.expire[x]] == w.at[x := w.expire[x]];
  }

  ghost function Retimed(w: Timing, x: Id, t: int): Timing {
    w.(expire := w.expire[x := t])
  }

  /** Does moving the clock from `prev` to `now` visit this bucket? A level is
      visited only when its own tick moves, and then at most once around. */
  predicate Swept(prev: int, now: int, loc: Loc)
    requires ValidLoc(loc)
  {
    var b := Buckets(loc.level);
    var delta := Tick(loc.level, now) - Tick(loc.level, prev);
    delta > 0 && (loc.slot - Tick(loc.level, prev)) % b < Min(1 + delta, b)
  }

  /** Entries of `place` that survive when those in `done` have been looked at. */
  ghost function Kept(place: map<Id, Loc>, done: set<Id>, now: int, expire: map<Id, int>): map<Id, Loc>
    requires place.Keys <= expire.Keys
  {
    map x | x in place && !(x in done && expire[x] <= now) :: if x in done then Target(now, expire[x]) else place[x]
  }

  ghost function KeptAt(at: map<Id, int>, done: set<Id>, now: int, expire: map<Id, int>): map<Id, int>
    requires at.Keys <= expire.Keys
  {
    map x | x in at && !(x in done && expire[x] <= now) :: if x in done then expire[x] else at[x]
  }

  ghost function SweptIds(w: Timing, now: int): set<Id>
    requires WellFormed(w)
  {
    set x | x in w.place && Swept(w.nanos, now, w.place[x])
  }

  ghost function Advanced(w: Timing, now: int): Timing
    requires WellFormed(w)
  {
    var done := SweptIds(w, now);
    Timing(now, Kept(w.place, done, now, w.expire), w.expire, KeptAt(w.at, done, now, w.expire))
  }

  /** The entries an advance hands to the removal callback. */
  ghost function Removed(w: Timing, now: int): set<Id>
    requires WellFormed(w)
  {
    set x | x in SweptIds(w, now) && w.expire[x] <= now
  }

  // ----- Placement: the invariant behind the lateness bound -----

  /** An entry placed for time `t` is in the bucket of its own tick, and that tick is still
      ahead (level 0: not behind) and at most one turn of the level away. */
  predicate Fits(nanos: int, loc: Loc, t: int) {
    && ValidLoc(loc)
    && loc.slot == Tick(loc.level, t) % Buckets(loc.level)
    && var p, q := Tick(loc.level, nanos), Tick(loc.level, t);
       match loc.level
       case 0 => p <= q <= p + Buckets(0)
       case 4 => p < q
       case _ => p < q <= p + Buckets(loc.level)
  }

  ghost predicate Timely(w: Timing) {
    && WellFormed(w)
    && forall x :: x in w.place ==> Fits(w.nanos, w.place[x], w.at[x])
  }

  /** A new placement fits whenever its level-0 tick is not already in the past. */
  lemma TargetFits(nanos: int, t: int)
    requires Tick(0, t) >= Tick(0, nanos)
    ensures Fits(nanos, Target(nanos, t), t)
  {
  }

  /** An entry whose bucket is not visited still fits after the clock moves. */
  lemma UnsweptFits(prev: int, now: int, loc: Loc, t: int)
    requires prev <= now && Fits(prev, loc, t) && !Swept(prev, now, loc)
    ensures Fits(now, loc, t)
    ensures t <= now ==> loc.level == 0 && Tick(0, t) == Tick(0, now) == Tick(0, prev)
  {
    var b := Buckets(loc.level);
    var p, q, c := Tick(loc.level, prev), Tick(loc.level, t), Tick(loc.level, now);
    SlotDistance(b, p, q);
  }

  /** Within one turn, the distance between two slots is the distance between their ticks. */
  lemma SlotDistance(b: nat, p: int, q: int)
    requires b in {1, 4, 32, 64}
    ensures p <= q < p + b ==> (q % b - p) % b == q - p
    ensures q == p + b ==> (q % b - p) % b == 0
    ensures b == 1 ==> (q % b - p) % b == 0
  {
    assert (q % b - p) % b == (q - p) % b by {
      assert q % b - p == b * ((q - p) / b - q / b) + (q - p) % b by {
        assert q == b * (q / b) + q % b;
        assert q - p == b * ((q - p) / b) + (q - p) % b;
      }
      RemainderUnique(q % b - p, b, (q - p) / b - q / b, (q - p) % b);
    }
  }

  // ----- The promises -----

  /** What an expired entry still in the wheel looks like: level 0, in the very tick of the clock. */
  ghost predicate OnTime(w: Timing) {
    && WellFormed(w)
    && forall x :: x in w.place && w.at[x] <= w.nanos ==>
      w.place[x].level == 0 && Tick(0, w.at[x]) == Tick(0, w.nanos) && w.nanos - w.at[x] < Span(0)
  }

  lemma TimelyIsOnTime(w: Timing)
    requires Timely(w)
    ensures OnTime(w)
  {
    forall x | x in w.place && w.at[x] <= w.nanos
      ensures w.place[x].level == 0 && Tick(0, w.at[x]) == Tick(0, w.nanos) && w.nanos - w.at[x] < Span(0)
    {
      assert Fits(w.nanos, w.place[x], w.at[x]);
    }
  }

  /** An advance keeps every remaining entry placed; once the level-0 tick has moved, nothing that
      was due stays behind at any level. */
  lemma AdvanceTimely(w: Timing, now: int)
    requires Timely(w) && w.nanos <= now
    ensures Timely(Advanced(w, now))
    ensures Tick(0, w.nanos) < Tick(0, now) ==> forall x :: x in Advanced(w, now).place ==> Advanced(w, now).at[x] > now
  {
    var w' := Advanced(w, now);
    forall x | x in w'.place
      ensures Fits(now, w'.place[x], w'.at[x])
      ensures Tick(0, w.nanos) < Tick(0, now) ==> w'.at[x] > now
    {
      if Swept(w.nanos, now, w.place[x]) {
        TargetFits(now, w.expire[x]);
      } else {
        UnsweptFits(w.nanos, now, w.place[x], w.at[x]);
      }
    }
  }

  /** A visited entry that is not due is placed again, never at a higher level than it had. */
  lemma SweptGoesDown(prev: int, now: int, loc: Loc, t: int)
    requires prev <= now && Fits(prev, loc, t) && Swept(prev, now, loc)
    ensures Target(now, t).level <= loc.level
  {
  }

  /** An advance loses nothing: each entry is removed because it is due, or stays in one bucket
      (the map gives one place per entry), at a level no higher unless its expiry was changed meanwhile. */
  lemma AdvanceConserves(w: Timing, now: int, x: Id)
    requires Timely(w) && w.nanos <= now && x in w.place
    ensures x in Removed(w, now) <==> x !in Advanced(w, now).place
    ensures x in Removed(w, now) ==> w.expire[x] <= now
    ensures x in Advanced(w, now).place && w.expire[x] == w.at[x] ==>
      Advanced(w, now).place[x].level <= w.place[x].level && Advanced(w, now).at[x] == w.at[x]
    ensures Advanced(w, now).place.Keys == w.place.Keys - Removed(w, now)
  {
    if Swept(w.nanos, now, w.place[x]) {
      SweptGoesDown(w.nanos, now, w.place[x], w.at[x]);
    }
  }

  datatype Op = Schedule(x: Id) | Deschedule(x: Id) | SetExpire(x: Id, t: int) | Advance(now: int)

  /** What an operation needs to make sense: a known or scheduled entry, and a monotone clock. */
  ghost predicate Possible(w: Timing, op: Op) {
    match op
    case Schedule(x) => x in w.expire
    case Deschedule(x) => x in w.place
    case SetExpire(x, t) => true
    case Advance(now) => w.nanos <= now
  }

  /** What the wheel asks of its caller besides: no scheduling into a past tick. */
  ghost predicate Legal(w: Timing, op: Op) {
    Possible(w, op) && (op.Schedule? ==> Tick(0, w.expire[op.x]) >= Tick(0, w.nanos))
  }

  ghost function Apply(w: Timing, op: Op): Timing
    requires WellFormed(w) && Possible(w, op)
  {
    match op
    case Schedule(x) => Scheduled(w, x)
    case Deschedule(x) => Descheduled(w, x)
    case SetExpire(x, t) => Retimed(w, x, t)
    case Advance(now) => Advanced(w, now)
  }

  /** `run` is a run of the wheel: each state follows from the one before by a legal operation. */
  ghost predicate IsRun(run: seq<Timing>, ops: seq<Op>) {
    && |run| == |ops| + 1
    && Timely(run[0])
    && forall i :: 0 <= i < |ops| ==> WellFormed(run[i]) && Legal(run[i], ops[i]) && run[i + 1] == Apply(run[i], ops[i])
  }

  lemma ApplyTimely(w: Timing, op: Op)
    requires Timely(w) && Legal(w, op)
    ensures Timely(Apply(w, op))
  {
    match op
    case Schedule(x) => TargetFits(w.nanos, w.expire[x]);
    case Deschedule(x) =>
    case SetExpire(x, t) =>
    case Advance(now) => AdvanceTimely(w, now);
  }

  lemma {:induction false} RunTimely(run: seq<Timing>, ops: seq<Op>, n: nat)
    requires IsRun(run, ops) && n <= |ops|
    ensures Timely(run[n])
  {
    if n > 0 {
      RunTimely(run, ops, n - 1);
      ApplyTimely(run[n - 1], ops[n - 1]);
    }
  }

  /** The lateness bound, over every run: after any operation an overdue entry is at level 0 and
      less than one level-0 span late; right after an advance that moved the level-0 tick there is none. */
  lemma LatenessBound(run: seq<Timing>, ops: seq<Op>, n: nat, x: Id)
    requires IsRun(run, ops) && n < |ops| && x in run[n + 1].place
    ensures Timely(run[n + 1])
    ensures run[n + 1].at[x] <= run[n + 1].nanos ==>
      && run[n + 1].place[x].level == 0
      && Tick(0, run[n + 1].at[x]) == Tick(0, run[n + 1].nanos)
      && run[n + 1].nanos - run[n + 1].at[x] < 0x4000_0000
    ensures ops[n].Advance? && Tick(0, run[n].nanos) < Tick(0, ops[n].now) ==> run[n + 1].at[x] > ops[n].now
  {
    RunTimely(run, ops, n);
    ApplyTimely(run[n], ops[n]);
    TimelyIsOnTime(run[n + 1]);
    if ops[n].Advance? {
      AdvanceTimely(run[n], ops[n].now);
    }
  }

  /** The caller's obligation is exact: scheduling keeps the bound if and only if the entry's
      level-0 tick is not behind the wheel's. */
  lemma ScheduleOnTimeIff(w: Timing, x: Id)
    requires Timely(w) && x in w.expire
    ensures OnTime(Scheduled(w, x)) <==> Tick(0, w.expire[x]) >= Tick(0, w.nanos)
  {
    if Tick(0, w.expire[x]) >= Tick(0, w.nanos) {
      ApplyTimely(w, Schedule(x));
      TimelyIsOnTime(Scheduled(w, x));
    } else {
      assert x in Scheduled(w, x).place;
    }
  }

  /** A concrete late entry: scheduled one tick behind, it survives the next tick's advance. */
  lemma ScheduledBehindSurvives()
    ensures var w := Timing(0x10_0000_0000, map[], map[0 := 0xF_C000_0000], map[]);
      Timely(w) && 0 in Advanced(Scheduled(w, 0), w.nanos + 0x4000_0000).place &&
          !OnTime(Advanced(Scheduled(w, 0), w.nanos + 0x4000_0000))
  {
    var w := Timing(0x10_0000_0000, map[], map[0 := 0xF_C000_0000], map[]);
    var w1 := Scheduled(w, 0);
    assert w1.place[0] == Loc(0, 63);
    assert !Swept(w.nanos, w.nanos + 0x4000_0000, w1.place[0]);
    assert 0 in Advanced(w1, w.nanos + 0x4000_0000).place;
  }

  // ----- How late an entry scheduled behind can get -----

  /** Any run at all, also one that schedules into past ticks. */
  ghost predicate IsAnyRun(run: seq<Timing>, ops: seq<Op>) {
    && |run| == |ops| + 1
    && forall i :: 0 <= i < |ops| ==> Follows(run[i], ops[i], run[i + 1])
  }

  ghost predicate Follows(w: Timing, op: Op, w': Timing) {
    WellFormed(w) && Possible(w, op) && w' == Apply(w, op)
  }

  predicate Concerns(op: Op, x: Id) {
    !op.Advance? && op.x == x
  }

  /** The first level-0 tick from `p` on that falls in the bucket of tick `q`. */
  function NextTurn(p: int, q: int): (r: int)
    ensures p <= r < p + 64 && r % 64 == q % 64
  {
    SameSlot(p, q);
    p + (q - p) % 64
  }

  lemma SameSlot(p: int, q: int)
    ensures (p + (q - p) % 64) % 64 == q % 64
  {
    var d := (q - p) / 64;
    assert q == (p + (q - p) % 64) + 64 * d;
  }

  /** Whether the clock has yet to reach the bucket of tick `r`, for an entry put there at tick `p`. */
  predicate Ahead(nanos: int, p: int, r: int) {
    Tick(0, nanos) == p || Tick(0, nanos) < r
  }

  /** A due entry put in the bucket of tick `r` at tick `p` is there exactly until the clock reaches `r`. */
  ghost predicate Lingers(w: Timing, x: Id, p: int, r: int) {
    && x in w.expire && w.expire[x] <= w.nanos && p <= Tick(0, w.nanos)
    && (x in w.place <==> Ahead(w.nanos, p, r))
    && (x in w.place ==> w.place[x] == Loc(0, r % 64))
  }

  lemma SweptAtTurn(prev: int, now: int, p: int, r: int)
    requires prev <= now && p <= Tick(0, prev) && p <= r < p + 64 && Ahead(prev, p, r)
    ensures Swept(prev, now, Loc(0, r % 64)) <==> !Ahead(now, p, r)
  {
    TickMonotone(0, prev, now);
    SlotDistance(64, Tick(0, prev), r);
  }

  lemma LingersStep(w: Timing, op: Op, x: Id, p: int, r: int)
    requires WellFormed(w) && Possible(w, op) && !Concerns(op, x)
    requires Lingers(w, x, p, r) && p <= r < p + 64
    ensures Lingers(Apply(w, op), x, p, r)
  {
    if op.Advance? {
      TickMonotone(0, w.nanos, op.now);
      if x in w.place {
        SweptAtTurn(w.nanos, op.now, p, r);
      }
    }
  }

  lemma {:induction false} LingersOn(run: seq<Timing>, ops: seq<Op>, m: nat, n: nat, x: Id, p: int, r: int)
    requires IsAnyRun(run, ops) && m <= n < |run| && Lingers(run[m], x, p, r) && p <= r < p + 64
    requires forall i :: m <= i < n ==> !Concerns(ops[i], x)
    ensures Lingers(run[n], x, p, r)
  {
    if m < n {
      LingersOn(run, ops, m, n - 1, x, p, r);
      assert Follows(run[n - 1], ops[n - 1], run[n - 1 + 1]);
      LingersStep(run[n - 1], ops[n - 1], x, p, r);
    }
  }

  /** In every run, an entry scheduled behind the clock and then left alone stays in the wheel exactly until
      the clock's level-0 tick comes round to its bucket, which is less than one turn after the scheduling. */
  lemma ScheduledBehindLingers(run: seq<Timing>, ops: seq<Op>, m: nat, n: nat, x: Id)
    requires IsAnyRun(run, ops) && m < n < |run| && ops[m] == Schedule(x)
    requires x in run[m].expire && Tick(0, run[m].expire[x]) < Tick(0, run[m].nanos)
    requires forall i :: m < i < n ==> !Concerns(ops[i], x)
    ensures var p := Tick(0, run[m].nanos);
      x in run[n].place <==> Ahead(run[n].nanos, p, NextTurn(p, Tick(0, run[m].expire[x])))
    ensures x in run[n].place ==> Tick(0, run[n].nanos) < Tick(0, run[m].nanos) + 63
  {
    var p, q := Tick(0, run[m].nanos), Tick(0, run[m].expire[x]);
    assert Follows(run[m], ops[m], run[m + 1]);
    assert Lingers(run[m + 1], x, p, NextTurn(p, q));
    LingersOn(run, ops, m + 1, n, x, p, NextTurn(p, q));
  }

  // ----- The wheel itself -----

  /** Bucket lists and places describe the same thing. */
  ghost predicate Consistent(wheel: map<Loc, seq<Id>>, place: map<Id, Loc>) {
    && (forall loc :: loc in wheel <==> ValidLoc(loc))
    && (forall loc :: loc in wheel ==> NoDup(wheel[loc]))
    && (forall loc, x :: loc in wheel && x in wheel[loc] ==> x in place && place[x] == loc)
    && (forall x :: x in place ==> place[x] in wheel && x in wheel[place[x]])
  }

  /** deschedule: unlink `x` from the bucket holding it. */
  function UnlinkFrom(wheel: map<Loc, seq<Id>>, place: map<Id, Loc>, x: Id): map<Loc, seq<Id>>
    requires x in place && place[x] in wheel && x in wheel[place[x]]
  {
    wheel[place[x] := Without(wheel[place[x]], x)]
  }

  function PushTo(wheel: map<Loc, seq<Id>>, loc: Loc, x: Id): map<Loc, seq<Id>>
    requires loc in wheel
  {
    wheel[loc := [x] + wheel[loc]]
  }

  lemma UnlinkConsistent(wheel: map<Loc, seq<Id>>, place: map<Id, Loc>, x: Id)
    requires Consistent(wheel, place) && x in place
    ensures Consistent(UnlinkFrom(wheel, place, x), place - {x})
  {
    WithoutKeeps(wheel[place[x]], x);
  }

  lemma PushConsistent(wheel: map<Loc, seq<Id>>, place: map<Id, Loc>, x: Id, loc: Loc)
    requires Consistent(wheel, place) && x !in place && ValidLoc(loc)
    ensures Consistent(PushTo(wheel, loc, x), place[x := loc])
  {
    var b := [x] + wheel[loc];
    assert forall y :: y in b <==> y == x || y in wheel[loc];
    assert NoDup(b);
  }

  /** A wheel part-way through an advance: the entries in `done` have been looked at. */
  ghost function Partial(w: Timing, now: int, done: set<Id>): Timing
    requires WellFormed(w)
  {
    Timing(now, Kept(w.place, done, now, w.expire), w.expire, KeptAt(w.at, done, now, w.expire))
  }

  /** Looking at one more entry either drops it or places it again. Looking at an entry that was
      already placed again in this advance changes nothing. */
  lemma LookAt(w: Timing, now: int, done: set<Id>, x: Id)
    requires WellFormed(w) && x in Partial(w, now, done).place
    ensures w.expire[x] <= now ==> x !in done && Descheduled(Partial(w, now, done), x) == Partial(w, now, done + {x})
    ensures w.expire[x] > now ==> Scheduled(Partial(w, now, done), x) == Partial(w, now, done + {x})
  {
    var p, q := Partial(w, now, done), Partial(w, now, done + {x});
    if w.expire[x] <= now {
      assert Descheduled(p, x).place == q.place;
      assert Descheduled(p, x).at == q.at;
    } else {
      assert Scheduled(p, x).place == q.place;
      assert Scheduled(p, x).at == q.at;
    }
  }

  lemma NotYetMoved(w: Timing, now: int, done: set<Id>, x: Id)
    requires WellFormed(w) && x in Partial(w, now, done).place
    ensures x in done || (x in w.place && Partial(w, now, done).place[x] == w.place[x])
  {
  }

  /** The callback log holds exactly the due entries looked at, each once. */
  ghost predicate Logged(log: seq<Id>, w: Timing, now: int, done: set<Id>)
    requires done <= w.expire.Keys
  {
    NoDup(log) && forall x :: x in log <==> x in done && w.expire[x] <= now
  }

  lemma LogOne(log: seq<Id>, w: Timing, now: int, done: set<Id>, x: Id)
    requires done + {x} <= w.expire.Keys && Logged(log, w, now, done) && x !in done && w.expire[x] <= now
    ensures Logged(log + [x], w, now, done + {x})
  {
  }

  function NextIn(s: seq<Id>, x: Id): Option<Id>
    requires x in s
  {
    var i := IndexOf(s, x);
    if i + 1 < |s| then Some(s[i + 1]) else None
  }

  function Front(s: seq<Id>): Option<Id> {
    if s == [] then None else Some(s[0])
  }

  lemma AtSeam(pushed: seq<Id>, rest: seq<Id>)
    requires NoDup(pushed + rest) && rest != []
    ensures Without(pushed + rest, rest[0]) == pushed + rest[1..]
    ensures NextIn(pushed + rest, rest[0]) == Front(rest[1..])
    ensures rest[0] in pushed + rest
    ensures [rest[0]] + (pushed + rest[1..]) == ([rest[0]] + pushed) + rest[1..]
  {
    var s := pushed + rest;
    assert s[|pushed|] == rest[0];
    assert IndexOf(s, rest[0]) == |pushed|;
  }

  ghost function AtLoc(w: Timing, loc: Loc): set<Id> {
    set x | x in w.place && w.place[x] == loc
  }

  lemma StepOver(done: set<Id>, seen: seq<Id>, rest: seq<Id>)
    requires rest != []
    ensures done + Elements(seen + [rest[0]]) == done + Elements(seen) + {rest[0]}
    ensures seen + [rest[0]] + rest[1..] == seen + rest
  {
  }

  /** A bucket holds the entries that started there, and entries already placed again. */
  lemma BucketHolds(wheel: map<Loc, seq<Id>>, w: Timing, now: int, done: set<Id>, loc: Loc)
    requires WellFormed(w) && ValidLoc(loc) && done <= w.place.Keys
    requires Consistent(wheel, Partial(w, now, done).place)
    ensures done + Elements(wheel[loc]) == done + AtLoc(w, loc)
  {
    var p := Partial(w, now, done).place;
    forall x
      ensures x in done + Elements(wheel[loc]) <==> x in done + AtLoc(w, loc)
    {
      if x in wheel[loc] {
        NotYetMoved(w, now, done, x);
      }
      if x in AtLoc(w, loc) && x !in done {
        assert x in p && p[x] == loc;
      }
    }
  }

  /** Entries of one level in the first `steps` buckets from tick `start` on. */
  ghost function InTurn(w: Timing, level: nat, start: int, steps: int): set<Id>
    requires WellFormed(w) && level < LEVELS
  {
    set x | x in w.place && w.place[x].level == level && (w.place[x].slot - start) % Buckets(level) < steps
  }

  function TurnLoc(level: nat, start: int, k: nat): (loc: Loc)
    requires level < LEVELS
    ensures ValidLoc(loc)
  {
    Loc(level, (start % Buckets(level) + k) % Buckets(level))
  }

  lemma NextInTurn(w: Timing, level: nat, start: int, k: nat)
    requires WellFormed(w) && level < LEVELS && k < Buckets(level)
    ensures InTurn(w, level, start, k + 1) == InTurn(w, level, start, k) + AtLoc(w, TurnLoc(level, start, k))
  {
    forall x | x in w.place && w.place[x].level == level
      ensures x in InTurn(w, level, start, k + 1) <==>
        x in InTurn(w, level, start, k) || x in AtLoc(w, TurnLoc(level, start, k))
    {
      TurnSlot(Buckets(level), start, w.place[x].slot, k);
    }
  }

  lemma TurnSlot(b: nat, start: int, slot: nat, k: nat)
    requires b in {1, 4, 32, 64} && slot < b && k < b
    ensures (slot - start) % b == k <==> slot == (start % b + k) % b
  {
    ShiftWithin(b, slot, start);
    var r := start % b;
    assert (slot - r) % b == if slot < r then slot - r + b else slot - r;
    assert (r + k) % b == if r + k < b then r + k else r + k - b;
  }

  lemma ShiftWithin(b: nat, a: int, start: int)
    requires b in {1, 4, 32, 64}
    ensures (a - start) % b == (a - start % b) % b
  {
    var m, q := a - start % b, start / b;
    assert a - start == b * (m / b - q) + m % b by {
      assert m == b * (m / b) + m % b;
      assert start == b * q + start % b;
    }
    RemainderUnique(a - start, b, m / b - q, m % b);
  }

  lemma RemainderUnique(x: int, b: int, k: int, r: int)
    requires b > 0 && x == b * k + r && 0 <= r < b
    ensures x % b == r
  {
    var d := x / b - k;
    assert b * d == r - x % b;
    assert d >= 1 ==> b * d >= b;
    assert d <= -1 ==> b * d <= -b;
  }

  lemma CoarserTick(level: nat, t: int)
    requires level + 1 < LEVELS
    ensures Tick(level + 1, t) == Tick(level, t) / Buckets(level)
  {
    if level == 0 { } else if level == 1 { } else if level == 2 { } else { }
  }

  /** When a level's tick stands still, so do all coarser ticks. */
  lemma {:induction false} StillAbove(prev: int, now: int, level: nat, above: nat)
    requires level <= above < LEVELS && Tick(level, now) == Tick(level, prev)
    ensures Tick(above, now) == Tick(above, prev)
    decreases above - level
  {
    if level < above {
      CoarserTick(level, prev);
      CoarserTick(level, now);
      StillAbove(prev, now, level + 1, above);
    }
  }

  lemma StillNotSwept(prev: int, now: int, level: nat, loc: Loc)
    requires prev <= now && ValidLoc(loc) && level <= loc.level && Tick(level, now) <= Tick(level, prev)
    ensures !Swept(prev, now, loc)
  {
    TickMonotone(level, prev, now);
    StillAbove(prev, now, level, loc.level);
  }

  lemma TickMonotone(level: nat, prev: int, now: int)
    requires level < LEVELS && prev <= now
    ensures Tick(level, prev) <= Tick(level, now)
  {
    if level == 0 { } else if level == 1 { } else if level == 2 { } else if level == 3 { } else { }
  }

  /** The swept entries of the levels below `level`. */
  ghost function SweptBelow(w: Timing, now: int, level: nat): set<Id>
    requires WellFormed(w)
  {
    set x | x in w.place && w.place[x].level < level && Swept(w.nanos, now, w.place[x])
  }

  lemma NextLevel(w: Timing, now: int, level: nat)
    requires WellFormed(w) && level < LEVELS && Tick(level, w.nanos) < Tick(level, now)
    ensures SweptBelow(w, now, level + 1) ==
      SweptBelow(w, now, level)
      + InTurn(w, level, Tick(level, w.nanos), Min(1 + (Tick(level, now) - Tick(level, w.nanos)), Buckets(level)))
  {
    var turn := InTurn(w, level, Tick(level, w.nanos),
        Min(1 + (Tick(level, now) - Tick(level, w.nanos)), Buckets(level)));
    forall x | x in w.place
      ensures x in SweptBelow(w, now, level + 1) <==> x in SweptBelow(w, now, level) + turn
    {
      assert ValidLoc(w.place[x]);
    }
  }

  lemma NoMoreLevels(w: Timing, now: int, level: nat)
    requires WellFormed(w) && w.nanos <= now && level <= LEVELS
    requires level < LEVELS ==> Tick(level, now) <= Tick(level, w.nanos)
    ensures SweptBelow(w, now, level) == SweptIds(w, now)
  {
    forall x | x in w.place
      ensures x in SweptBelow(w, now, level) <==> x in SweptIds(w, now)
    {
      assert ValidLoc(w.place[x]);
      if level <= w.place[x].level {
        StillNotSwept(w.nanos, now, level, w.place[x]);
      }
    }
  }

  class TimerWheel {
    var nanos: int
    var wheel: map<Loc, seq<Id>>  // every bucket's list, front first
    var place: map<Id, Loc>       // the bucket whose links hold the entry; absent when wheelPrev is nil
    var expire: map<Id, int>      // the entries' expire fields
    ghost var at: map<Id, int>

    ghost predicate Valid()
      reads this
    {
      Consistent(wheel, place) && WellFormed(Model())
    }

    ghost function Model(): Timing
      reads this
    {
      Timing(nanos, place, expire, at)
    }

    /** Part-way through an advance that began in `w`. */
    ghost predicate Midway(w: Timing, done: set<Id>, log: seq<Id>)
      reads this
    {
      && Valid() && WellFormed(w) && done <= w.place.Keys
      && Model() == Partial(w, nanos, done)
      && Logged(log, w, nanos, done)
    }

    constructor (now: int)
      ensures Valid() && Model() == Timing(now, map[], map[], map[])
      ensures Timely(Model())
    {
      nanos := now;
      wheel := map level, slot | 0 <= level < 5 && 0 <= slot < Buckets(level) :: Loc(level, slot) := [];
      place, expire, at := map[], map[], map[];
    }

    method FindIndex(t: int) returns (loc: Loc)
      ensures loc == Target(nanos, t)
      ensures 0 < loc.level ==> t - nanos >= Span(loc.level)
      ensures loc.level < 4 ==> t - nanos < Span(loc.level + 1)
      ensures loc.slot == t / Span(loc.level) % Buckets(loc.level)
    {
      var duration := t - nanos;
      for i := 0 to 5
        invariant forall k :: 1 <= k <= i ==> duration >= Span(k)
      {
        if duration < Span(i + 1) {
          return Loc(i, Tick(i, t) % Buckets(i));
        }
      }
      return Loc(4, 0);
    }

    method Deschedule(x: Id)
      requires Valid() && x in place
      modifies this
      ensures Valid() && Model() == Descheduled(old(Model()), x)
      ensures wheel == old(UnlinkFrom(wheel, place, x))
      ensures wheel[old(place[x])] == old(Without(wheel[place[x]], x))
    {
      UnlinkConsistent(wheel, place, x);
      wheel := UnlinkFrom(wheel, place, x);
      place := place - {x};
      at := at - {x};
    }

    /** PushFront on the bucket `x` belongs to. */
    method Push(x: Id)
      requires Valid() && x in expire && x !in place
      modifies this
      ensures Valid() && Model() == Scheduled(old(Model()), x)
      ensures place[x] in old(wheel) && wheel == PushTo(old(wheel), place[x], x)
    {
      var loc := FindIndex(expire[x]);
      PushConsistent(wheel, place, x, loc);
      wheel := PushTo(wheel, loc, x);
      place := place[x := loc];
      at := at[x := expire[x]];
    }

    method Schedule(x: Id)
      requires Valid() && x in expire
      modifies this
      ensures Valid() && Model() == Scheduled(old(Model()), x)
      ensures x in old(place) ==>
        var loc, left := old(place[x]), old(Without(wheel[place[x]], x));
        loc in wheel && wheel[loc] == if place[x] == loc then [x] + left else left
    {
      if x in place {
        Deschedule(x);
      }
      Push(x);
      RescheduleAbsorbs(old(Model()), x);
    }

    /** The store swaps an entry's expire field without telling the wheel. */
    method SetExpire(x: Id, t: int)
      requires Valid()
      modifies this`expire
      ensures Valid() && Model() == Retimed(old(Model()), x, t)
    {
      expire := expire[x := t];
    }

    /** The body of the inner scan: a due entry is unlinked and handed to the callback, any other
        is placed again. */
    method Visit(x: Id, ghost w: Timing, ghost done: set<Id>, log: seq<Id>)
      returns (log': seq<Id>, ghost done': set<Id>)
      requires Midway(w, done, log) && x in place
      modifies this
      ensures done' == done + {x} && nanos == old(nanos) && Midway(w, done', log')
      ensures
        var left := old(Without(wheel[place[x]], x));
        old(place[x]) in wheel && (wheel[old(place[x])] == left || wheel[old(place[x])] == [x] + left)
    {
      LookAt(w, nanos, done, x);
      done' := done + {x};
      if expire[x] <= nanos {
        LogOne(log, w, nanos, done, x);
        Deschedule(x);
        log' := log + [x];
      } else {
        Schedule(x);
        log' := log;
      }
    }

    /** The inner scan of expire: walk one bucket, front to back. Entries placed again may be
        pushed onto the front of this very list; the walk never meets them. */
    method ExpireBucket(loc: Loc, ghost w: Timing, ghost done: set<Id>, log: seq<Id>)
      returns (log': seq<Id>, ghost done': set<Id>)
      requires Midway(w, done, log) && ValidLoc(loc)
      modifies this
      ensures done' == done + AtLoc(w, loc) && nanos == old(nanos) && Midway(w, done', log')
    {
      log', done' := log, done;
      ghost var pushed, seen, rest := [], [], wheel[loc];
      var entry := Front(wheel[loc]);
      BucketHolds(wheel, w, nanos, done, loc);
      while entry.Some?
        invariant nanos == old(nanos) && Midway(w, done', log')
        invariant wheel[loc] == pushed + rest && entry == Front(rest)
        invariant done' == done + Elements(seen) && old(wheel[loc]) == seen + rest
        decreases |rest|
      {
        var x := entry.value;
        AtSeam(pushed, rest);
        assert place[x] == loc by { assert x in wheel[loc]; }
        StepOver(done, seen, rest);
        var next := NextIn(wheel[loc], x);
        ghost var left := pushed + rest[1..];
        log', done' := Visit(x, w, done', log');
        pushed := if wheel[loc] == left then pushed else [x] + pushed;
        seen, rest := seen + [x], rest[1..];
        entry := next;
      }
      assert seen + rest == seen;
    }

    method Expire(level: nat, prevTicks: int, delta: int, ghost w: Timing, ghost done: set<Id>, log: seq<Id>)
      returns (log': seq<Id>, ghost done': set<Id>)
      requires Midway(w, done, log) && level < LEVELS && delta > 0
      modifies this
      ensures done' == done + InTurn(w, level, prevTicks, Min(1 + delta, Buckets(level)))
      ensures nanos == old(nanos) && Midway(w, done', log')
    {
      var b := Buckets(level);
      var steps := Min(1 + delta, b);
      var start := prevTicks % b;
      log', done' := log, done;
      assert InTurn(w, level, prevTicks, 0) == {};
      for i := start to start + steps
        invariant nanos == old(nanos) && Midway(w, done', log')
        invariant done' == done + InTurn(w, level, prevTicks, i - start)
      {
        NextInTurn(w, level, prevTicks, i - start);
        var loc := Loc(level, i % b);
        assert loc == TurnLoc(level, prevTicks, i - start);
        log', done' := ExpireBucket(loc, w, done', log');
      }
    }

    /** Move the clock to `now` (0 asks for `clock`, the current time), expiring level by level
        until a level's tick does not move. `expired` is what the removal callback received. */
    method Advance(now: int, clock: int) returns (expired: seq<Id>)
      requires Valid() && nanos <= (if now == 0 then clock else now)
      modifies this
      ensures Valid()
      ensures Model() == Advanced(old(Model()), if now == 0 then clock else now)
      ensures NoDup(expired)
      ensures forall x :: x in expired <==> x in Removed(old(Model()), nanos)
    {
      ghost var w := Model();
      var previous := nanos;
      nanos := if now == 0 then clock else now;
      expired := [];
      ghost var done: set<Id> := {};
      assert Kept(place, {}, nanos, expire) == place && KeptAt(at, {}, nanos, expire) == at;
      assert SweptBelow(w, nanos, 0) == {} by { assert forall x :: x in w.place ==> ValidLoc(w.place[x]); }
      var i := 0;
      while i < 5
        invariant 0 <= i <= 5 && previous == w.nanos <= nanos == (if now == 0 then clock else now)
        invariant Midway(w, done, expired) && done == SweptBelow(w, nanos, i)
      {
        var prevTicks := Tick(i, previous);
        var currentTicks := Tick(i, nanos);
        if currentTicks <= prevTicks {
          break;
        }
        NextLevel(w, nanos, i);
        expired, done := Expire(i, prevTicks, currentTicks - prevTicks, w, done, expired);
        i := i + 1;
      }
      NoMoreLevels(w, nanos, i);
    }
  }
}
