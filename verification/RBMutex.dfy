/**
 The reader-biased lock of internal/rbmutex.go, as atomic steps of any number of threads.

 A thread is one acquisition in progress or one held lock; a token handed to another goroutine
 changes nothing. Atomics are sequentially consistent, and sync.RWMutex is taken by its contract: a
 set of read holders or one write holder. Each constructor of `Pc` names the atomic operation the
 thread performs next.
 */
module RBMutex {
  import opened Seqs

  type Tid = int

  datatype Pc =
    | Idle
    // RLock and TryRLock
    | LoadBias(try: bool)                                 // fastRlock: first load of rbias
    | LoadSlot(try: bool, start: int, i: int)             // load of the i-th slot from a random start
    | CasSlot(try: bool, start: int, i: int, seen: int)   // compare-and-swap it to seen + 1
    | RecheckBias(try: bool, slot: int)                   // slot counted; second load of rbias
    | UndoSlot(try: bool, slot: int)                      // bias gone: take the count back
    | SlowLock(try: bool)                                 // rw.RLock or rw.TryRLock
    | SlowLoadBias                                        // read lock held; look at rbias
    | SlowSetBias                                         // turn the bias back on
    | FastHeld(slot: int)
    | SlowHeld
    // Lock and TryLock
    | WriteLock(try: bool)                                // rw.Lock or rw.TryLock
    | WriteLoadBias(try: bool)
    | ClearBias(try: bool)
    | Scan(try: bool, i: int)                             // wait for slot i, or give up on it
    | RestoreBias                                         // TryLock saw a reader: roll back
    | ReleaseWrite
    | WriteHeld

  datatype State = State(slots: seq<int>, bias: bool, readers: set<Tid>, writer: Option<Tid>, pc: map<Tid, Pc>)

  function At(s: State, t: Tid): Pc {
    if t in s.pc then s.pc[t] else Idle
  }

  function Go(s: State, t: Tid, p: Pc): State {
    s.(pc := s.pc[t := p])
  }

  ghost predicate Init(s: State) {
    |s.slots| > 0 && (forall j :: 0 <= j < |s.slots| ==> s.slots[j] == 0) && s.bias && s.readers == {} &&
        s.writer == None && s.pc == map[]
  }

  // ----- Steps: s' is a state thread t can reach from s by its next atomic operation -----

  ghost predicate StartStep(s: State, t: Tid, s': State) {
    At(s, t) == Idle && exists try :: s' == Go(s, t, LoadBias(try)) || s' == Go(s, t, WriteLock(try))
  }

  ghost predicate FastStep(s: State, t: Tid, s': State)
    requires |s.slots| > 0
  {
    var n := |s.slots|;
    match At(s, t)
    case LoadBias(try) =>
      if s.bias then exists start: int :: s' == Go(s, t, LoadSlot(try, start, 0)) else s' == Go(s, t, SlowLock(try))
    case LoadSlot(try, start, i) =>
      s' == Go(s, t, if i < n then CasSlot(try, start, i, s.slots[(start + i) % n]) else SlowLock(try))
    case CasSlot(try, start, i, seen) =>
      var j := (start + i) % n;
      if s.slots[j] == seen then
        s' == Go(s, t, RecheckBias(try, j)).(slots := s.slots[j := seen + 1])
      else
        s' == Go(s, t, LoadSlot(try, start, i + 1))
    case RecheckBias(try, j) => s' == Go(s, t, if s.bias then FastHeld(j) else UndoSlot(try, j))
    case UndoSlot(try, j) => 0 <= j < n && s' == Go(s, t, SlowLock(try)).(slots := s.slots[j := s.slots[j] - 1])
    case FastHeld(j) => 0 <= j < n && s' == Go(s, t, Idle).(slots := s.slots[j := s.slots[j] - 1])
    case _ => false
  }

  /** rw.RLock waits for the writer to leave; rw.TryRLock gives up. The bias is turned back on only
      once the inhibition time has passed, which is left open. */
  ghost predicate SlowStep(s: State, t: Tid, s': State) {
    match At(s, t)
    case SlowLock(try) =>
      || (s.writer.None? && s' == Go(s, t, SlowLoadBias).(readers := s.readers + {t}))
      || (try && s' == Go(s, t, Idle))
    case SlowLoadBias => s' == Go(s, t, SlowHeld) || (!s.bias && s' == Go(s, t, SlowSetBias))
    case SlowSetBias => s' == Go(s, t, SlowHeld).(bias := true)
    case SlowHeld => s' == Go(s, t, Idle).(readers := s.readers - {t})
    case _ => false
  }

  ghost predicate WriteStep(s: State, t: Tid, s': State) {
    var n := |s.slots|;
    match At(s, t)
    case WriteLock(try) =>
      || (s.writer.None? && s.readers == {} && s' == Go(s, t, WriteLoadBias(try)).(writer := Some(t)))
      || (try && s' == Go(s, t, Idle))
    case WriteLoadBias(try) => s' == Go(s, t, if s.bias then ClearBias(try) else WriteHeld)
    case ClearBias(try) => s' == Go(s, t, Scan(try, 0)).(bias := false)
    case Scan(try, i) =>
      if 0 <= i < n then
        if s.slots[i] > 0 then s' == Go(s, t, if try then RestoreBias else Scan(try, i))
        else s' == Go(s, t, Scan(try, i + 1))
      else
        s' == Go(s, t, WriteHeld)
    case RestoreBias => s' == Go(s, t, ReleaseWrite).(bias := true)
    case ReleaseWrite => s' == Go(s, t, Idle).(writer := None)
    case WriteHeld => s' == Go(s, t, Idle).(writer := None)
    case _ => false
  }

  ghost predicate Step(s: State, t: Tid, s': State)
    requires |s.slots| > 0
  {
    StartStep(s, t, s') || FastStep(s, t, s') || SlowStep(s, t, s') || WriteStep(s, t, s')
  }

  // ----- The invariant -----

  /** The slot a thread is counted in, if any. */
  predicate CountedIn(p: Pc, j: int) {
    match p
    case RecheckBias(_, slot) => slot == j
    case UndoSlot(_, slot) => slot == j
    case FastHeld(slot) => slot == j
    case _ => false
  }

  predicate HoldsRead(p: Pc) {
    p.SlowLoadBias? || p.SlowSetBias? || p.SlowHeld?
  }

  predicate HoldsWrite(p: Pc) {
    p.WriteLoadBias? || p.ClearBias? || p.Scan? || p.RestoreBias? || p.ReleaseWrite? || p.WriteHeld?
  }

  ghost function Counted(pc: map<Tid, Pc>, j: int): set<Tid> {
    set t | t in pc && CountedIn(pc[t], j)
  }

  predicate SlotInRange(p: Pc, n: int) {
    match p
    case RecheckBias(_, slot) => 0 <= slot < n
    case UndoSlot(_, slot) => 0 <= slot < n
    case FastHeld(slot) => 0 <= slot < n
    case Scan(_, i) => 0 <= i <= n
    case _ => true
  }

  /** Slot counters count exactly the threads in them. */
  ghost predicate Counting(s: State) {
    && |s.slots| > 0
    && (forall t :: t in s.pc ==> SlotInRange(s.pc[t], |s.slots|))
    && (forall j :: 0 <= j < |s.slots| ==> s.slots[j] == |Counted(s.pc, j)|)
  }

  /** The underlying read-write lock is held by the threads that say so. */
  ghost predicate Holding(s: State) {
    && (forall t :: t in s.readers <==> t in s.pc && HoldsRead(s.pc[t]))
    && (forall t :: s.writer == Some(t) <==> t in s.pc && HoldsWrite(s.pc[t]))
    && (s.writer.Some? ==> s.readers == {})
  }

  /** How far the bias protocol of the current writer has got past a confirmed fast reader. */
  predicate MayCoexist(p: Pc, slot: int) {
    match p
    case Scan(_, i) => i <= slot
    case RestoreBias => true
    case _ => false
  }

  /** Without bias, a confirmed fast reader is still ahead of the scan of some writer, or that
      writer is about to give up; a writer past its clearing of the bias has it cleared. */
  ghost predicate Biasing(s: State) {
    && (forall t :: t in s.pc && s.pc[t].FastHeld? && !s.bias ==>
      s.writer.Some? && MayCoexist(At(s, s.writer.value), s.pc[t].slot))
    && (forall t :: t in s.pc && (s.pc[t].Scan? || s.pc[t].RestoreBias? || s.pc[t].WriteHeld?) ==> !s.bias)
  }

  ghost predicate Inv(s: State) {
    Counting(s) && Holding(s) && Biasing(s)
  }

  // ----- Each kind of step keeps it -----

  /** Moving one thread changes only the counts of the slots it enters or leaves. */
  lemma MoveCounted(pc: map<Tid, Pc>, t: Tid, p: Pc, j: int)
    ensures var was := t in pc && CountedIn(pc[t], j);
      |Counted(pc[t := p], j)| ==
        |Counted(pc, j)| - (if was then 1 else 0) + (if CountedIn(p, j) then 1 else 0)
  {
    var a, b := Counted(pc, j), Counted(pc[t := p], j);
    if CountedIn(p, j) {
      assert b == a + {t};
    } else {
      assert b == a - {t};
    }
  }

  lemma FastCounting(s: State, t: Tid, s': State)
    requires Counting(s) && FastStep(s, t, s')
    ensures Counting(s')
  {
    forall j | 0 <= j < |s'.slots|
      ensures s'.slots[j] == |Counted(s'.pc, j)|
    {
      MoveCounted(s.pc, t, s'.pc[t], j);
    }
  }

  /** A step between two uncounted places leaves every counter right. */
  lemma UncountedMove(s: State, t: Tid, s': State, p: Pc)
    requires Counting(s) && s'.pc == s.pc[t := p] && s'.slots == s.slots && SlotInRange(p, |s.slots|)
    requires forall j :: !CountedIn(p, j) && !CountedIn(At(s, t), j)
    ensures Counting(s')
  {
    forall j | 0 <= j < |s'.slots|
      ensures s'.slots[j] == |Counted(s'.pc, j)|
    {
      MoveCounted(s.pc, t, p, j);
    }
  }

  lemma StartHolding(s: State, t: Tid, s': State)
    requires Holding(s) && StartStep(s, t, s')
    ensures Holding(s')
  {
  }

  lemma FastHolding(s: State, t: Tid, s': State)
    requires |s.slots| > 0 && Holding(s) && FastStep(s, t, s')
    ensures Holding(s')
  {
    assert s'.readers == s.readers && s'.writer == s.writer && s'.pc == s.pc[t := s'.pc[t]];
    assert !HoldsRead(s'.pc[t]) && !HoldsWrite(s'.pc[t]) && t in s.pc && !HoldsRead(s.pc[t]) && !HoldsWrite(s.pc[t]);
  }

  lemma SlowHolding(s: State, t: Tid, s': State)
    requires Holding(s) && SlowStep(s, t, s')
    ensures Holding(s')
  {
    var p := s'.pc[t];
    assert s'.writer == s.writer && s'.pc == s.pc[t := p];
    assert !HoldsWrite(p) && !HoldsWrite(s.pc[t]);
    assert s'.readers == if HoldsRead(p) then s.readers + {t} else s.readers - {t};
  }

  lemma WriteHolding(s: State, t: Tid, s': State)
    requires Holding(s) && WriteStep(s, t, s')
    ensures Holding(s')
  {
    var p := s'.pc[t];
    assert s'.readers == s.readers && s'.pc == s.pc[t := p];
    assert !HoldsRead(p) && !HoldsRead(s.pc[t]);
    assert s'.writer == if HoldsWrite(p) then Some(t) else if HoldsWrite(s.pc[t]) then None else s.writer;
  }

  lemma CountedSlot(s: State, t: Tid, j: int)
    requires Counting(s) && t in s.pc && CountedIn(s.pc[t], j)
    ensures 0 <= j < |s.slots| && s.slots[j] >= 1
  {
    assert t in Counted(s.pc, j);
  }

  /** A reader is confirmed only under bias. */
  lemma ReadBiasing(s: State, t: Tid, s': State)
    requires |s.slots| > 0 && Biasing(s) && Holding(s) && (StartStep(s, t, s') || FastStep(s, t, s'))
    ensures Biasing(s')
  {
    var p := s'.pc[t];
    assert s'.bias == s.bias && s'.writer == s.writer && s'.pc == s.pc[t := p];
    assert p.FastHeld? ==> s.bias;
    assert !HoldsWrite(p) && s.writer != Some(t);
  }

  /** The bias comes back only while a read lock is held, so while there is no writer. */
  lemma SlowBiasing(s: State, t: Tid, s': State)
    requires Biasing(s) && Holding(s) && SlowStep(s, t, s')
    ensures Biasing(s')
  {
    var p := s'.pc[t];
    assert s'.writer == s.writer && s'.pc == s.pc[t := p] && !p.FastHeld?;
    assert s'.bias != s.bias ==> t in s.readers;
  }

  /** The scan passes a slot only when nobody is counted in it. */
  lemma WriteBiasing(s: State, t: Tid, s': State)
    requires Inv(s) && WriteStep(s, t, s')
    ensures Biasing(s')
  {
    forall u | u in s.pc && s.pc[u].FastHeld?
      ensures 0 <= s.pc[u].slot < |s.slots| && s.slots[s.pc[u].slot] >= 1
    {
      CountedSlot(s, u, s.pc[u].slot);
    }
  }

  lemma StepKeeps(s: State, t: Tid, s': State)
    requires Inv(s) && Step(s, t, s')
    ensures Inv(s')
  {
    if StartStep(s, t, s') {
      UncountedMove(s, t, s', s'.pc[t]);
      StartHolding(s, t, s');
      ReadBiasing(s, t, s');
    } else if FastStep(s, t, s') {
      FastCounting(s, t, s');
      FastHolding(s, t, s');
      ReadBiasing(s, t, s');
    } else if SlowStep(s, t, s') {
      UncountedMove(s, t, s', s'.pc[t]);
      SlowHolding(s, t, s');
      SlowBiasing(s, t, s');
    } else {
      UncountedMove(s, t, s', s'.pc[t]);
      WriteHolding(s, t, s');
      WriteBiasing(s, t, s');
    }
  }

  // ----- What the lock promises -----

  ghost predicate IsRun(run: seq<State>, schedule: seq<Tid>) {
    && |run| == |schedule| + 1
    && Init(run[0])
    && forall i :: 0 <= i < |schedule| ==> |run[i].slots| > 0 && Step(run[i], schedule[i], run[i + 1])
  }

  lemma {:induction false} RunInv(run: seq<State>, schedule: seq<Tid>, n: nat)
    requires IsRun(run, schedule) && n < |run|
    ensures Inv(run[n])
  {
    if n == 0 {
      assert forall j :: Counted(run[0].pc, j) == {};
    } else {
      RunInv(run, schedule, n - 1);
      StepKeeps(run[n - 1], schedule[n - 1], run[n]);
    }
  }

  /** Mutual exclusion, in every interleaving of any number of threads: while a writer holds the lock
      there is no other writer and no reader, confirmed fast or slow. */
  lemma MutualExclusion(run: seq<State>, schedule: seq<Tid>, n: nat, w: Tid, u: Tid)
    requires IsRun(run, schedule) && n < |run|
    requires At(run[n], w).WriteHeld? && u != w
    ensures !At(run[n], u).WriteHeld? && !At(run[n], u).FastHeld? && !At(run[n], u).SlowHeld?
  {
    RunInv(run, schedule, n);
  }

  /** Slot counters are never negative, and a holder's own counter is positive, so releasing a fast
      read lock never reaches the panic of RUnlock. */
  lemma SlotsNonNegative(run: seq<State>, schedule: seq<Tid>, n: nat, j: int)
    requires IsRun(run, schedule) && n < |run| && 0 <= j < |run[n].slots|
    ensures run[n].slots[j] >= 0
    ensures forall t :: At(run[n], t) == FastHeld(j) ==> run[n].slots[j] - 1 >= 0
  {
    RunInv(run, schedule, n);
    forall t | At(run[n], t) == FastHeld(j)
      ensures run[n].slots[j] >= 1
    {
      CountedSlot(run[n], t, j);
    }
  }

  /** When every thread is idle, the lock is as free as it was at first: nothing counted, nothing held. */
  lemma IdleMeansFree(run: seq<State>, schedule: seq<Tid>, n: nat)
    requires IsRun(run, schedule) && n < |run| && forall t :: At(run[n], t) == Idle
    ensures run[n].writer == None && run[n].readers == {}
    ensures forall j :: 0 <= j < |run[n].slots| ==> run[n].slots[j] == 0
  {
    var s := run[n];
    RunInv(run, schedule, n);
    forall t | t in s.pc
      ensures s.pc[t] == Idle
    {
      assert At(s, t) == Idle;
    }
    assert forall t :: s.writer != Some(t);
    NoElements(s.readers);
    forall j | 0 <= j < |s.slots|
      ensures s.slots[j] == 0
    {
      NoElements(Counted(s.pc, j));
    }
  }

  /** In every run, a writer is held up at a slot, or a TryLock rolls back, only because another thread is counted
      in that slot; and a Lock never rolls back. */
  lemma HeldUpByReader(run: seq<State>, schedule: seq<Tid>, n: nat, t: Tid) returns (u: Tid)
    requires IsRun(run, schedule) && n < |schedule| && schedule[n] == t && At(run[n], t).Scan?
    requires At(run[n + 1], t) == RestoreBias || At(run[n + 1], t) == At(run[n], t)
    ensures u != t && CountedIn(At(run[n], u), At(run[n], t).i)
    ensures At(run[n + 1], t) == RestoreBias ==> At(run[n], t).try
  {
    RunInv(run, schedule, n);
    var s, i := run[n], At(run[n], t).i;
    assert s.slots[i] > 0;
    u := Member(s.pc, i);
  }

  lemma Member(pc: map<Tid, Pc>, j: int) returns (u: Tid)
    requires |Counted(pc, j)| > 0
    ensures u in Counted(pc, j)
  {
    u := Witness(Counted(pc, j));
  }

  /** The thread takes every step. */
  ghost predicate Solo(states: seq<State>, t: Tid) {
    forall i :: 0 <= i < |states| - 1 ==> SoloStep(states[i], t, states[i + 1])
  }

  ghost predicate SoloStep(s: State, t: Tid, s': State) {
    |s.slots| > 0 && Step(s, t, s')
  }

  /** A reader that is alone while the bias is on has the lock, on the fast path, after four steps. */
  lemma SoloReader(s0: State, s1: State, s2: State, s3: State, s4: State, t: Tid)
    requires SoloStep(s0, t, s1) && SoloStep(s1, t, s2) && SoloStep(s2, t, s3) && SoloStep(s3, t, s4)
    requires At(s0, t).LoadBias? && s0.bias
    ensures At(s4, t).FastHeld?
  {
    assert At(s1, t).LoadSlot? && At(s1, t).i == 0 && s1.slots == s0.slots && s1.bias;
    assert At(s2, t).CasSlot? && s2.slots == s1.slots && s2.bias;
    assert At(s3, t).RecheckBias? && s3.bias;
  }

  lemma {:induction false} SoloScan(states: seq<State>, t: Tid, k: nat)
    requires Solo(states, t) && k < |states| && At(states[0], t).Scan? && 0 <= At(states[0], t).i
    requires forall j :: 0 <= j < |states[0].slots| ==> states[0].slots[j] == 0
    requires At(states[0], t).i + k <= |states[0].slots|
    ensures At(states[k], t) == Scan(At(states[0], t).try, At(states[0], t).i + k) && states[k].slots == states[0].slots
  {
    if k > 0 {
      SoloScan(states, t, k - 1);
      assert SoloStep(states[k - 1], t, states[k - 1 + 1]);
    }
  }

  /** A writer that has the inner lock and is alone, with nobody counted in a slot, has the lock after at most three
      steps more than there are slots; a TryLock too. */
  lemma SoloWriter(states: seq<State>, t: Tid)
    requires states != [] && Solo(states, t) && |states| == |states[0].slots| + 4 && At(states[0], t).WriteLoadBias?
    requires forall j :: 0 <= j < |states[0].slots| ==> states[0].slots[j] == 0
    ensures At(states[if states[0].bias then |states[0].slots| + 3 else 1], t) == WriteHeld
  {
    var n := |states[0].slots|;
    assert SoloStep(states[0], t, states[0 + 1]);
    if states[0].bias {
      assert SoloStep(states[1], t, states[1 + 1]);
      var rest := states[2..];
      forall i | 0 <= i < |rest| - 1
        ensures SoloStep(rest[i], t, rest[i + 1])
      {
        assert SoloStep(states[i + 2], t, states[i + 2 + 1]);
      }
      SoloScan(rest, t, n);
      assert SoloStep(states[n + 2], t, states[n + 2 + 1]);
    }
  }
}
