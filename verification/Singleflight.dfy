/**
 Duplicate call suppression with pooled call objects, internal/singleflight.go, as atomic steps of
 any number of goroutines. A section under the group mutex is one step.

 sync.Pool may drop or create objects at will, so Get returns any object that is in the pool or has
 never been used. `exec` numbers executions of the caller's function; `outcome` and `results` are
 history.
 */
module Singleflight {
  import opened Seqs

  type Tid = int
  type Key = int
  type CallId = int
  type Exec = int

  /** How the caller's function ended: a value and an error, a panic, or runtime.Goexit. */
  datatype Outcome = Returned(val: int, err: int) | Panicked(cause: int) | Exited

  /** The err field of a call object. */
  datatype Err = Plain(err: int) | PanicErr(cause: int) | GoexitErr

  datatype Call = Call(val: int, err: Err, waiting: int, dups: int)

  datatype Pc =
    | Idle
    // the goroutine that runs the function
    | Leading(c: CallId, key: Key, exec: Exec)     // call object is in the map
    | Ran(c: CallId, key: Key, exec: Exec)         // result stored in the call object
    | Finished(c: CallId, key: Key, exec: Exec)    // woke the joiners, call out of the map
    | LeaderRead(c: CallId, key: Key, exec: Exec, val: int, err: int)
    | Unwinding(c: CallId, key: Key, exec: Exec)   // panic or Goexit going up, deferred release still due
    // a goroutine that joined it
    | Joined(c: CallId, key: Key, exec: Exec)      // waiting
    | Woken(c: CallId, key: Key, exec: Exec)
    | JoinerRead(c: CallId, key: Key, exec: Exec, val: int, err: int)
    | Leaked(c: CallId, key: Key, exec: Exec)      // panicked or exited without releasing
    // either, after the last release
    | Putting(c: CallId)

  /** What a Do that returned gave its caller, and the execution it came from. */
  datatype Answer = Answer(key: Key, exec: Exec, val: int, err: int)

  datatype State = State(
    m: map<Key, CallId>, calls: map<CallId, Call>, pool: set<CallId>, pc: map<Tid, Pc>,
    nextExec: Exec, current: map<CallId, Exec>,   // history: the execution a call object serves
    asked: map<Exec, Key>,                        // history: the key each execution was started for
    outcome: map<Exec, Outcome>,                  // history: how each execution ended
    results: seq<Answer>)                         // history: what each Do that returned gave

  function At(s: State, t: Tid): Pc {
    if t in s.pc then s.pc[t] else Idle
  }

  function Go(s: State, t: Tid, p: Pc): State {
    s.(pc := s.pc[t := p])
  }

  function Set(s: State, c: CallId, call: Call): State {
    s.(calls := s.calls[c := call])
  }

  ghost predicate Init(s: State) {
    && s.m == map[] && s.calls == map[] && s.pool == {} && s.pc == map[]
    && s.nextExec == 0 && s.current == map[] && s.asked == map[] && s.outcome == map[] && s.results == []
  }

  // ----- Steps -----

  datatype Move =
    | StartJoin(key: Key)            // Do finds a call in flight and joins it
    | StartLead(key: Key, c: CallId) // Do finds none and starts one
    | Run(o: Outcome)                // the function ends
    | Finish                         // doCall's deferred part, under the mutex
    | LeadRead                       // the leader reads its own result
    | Wake                           // the joiner's wait returns
    | JoinRead                       // the joiner reads the result, or panics or exits over it
    | Release                        // drop one reference
    | Put                            // the last reference was dropped: back to the pool

  ghost predicate Enabled(s: State, t: Tid, a: Move) {
    var p := At(s, t);
    match a
    case StartJoin(key) => p.Idle? && key in s.m && s.m[key] in s.calls && s.m[key] in s.current
    case StartLead(key, c) => p.Idle? && key !in s.m && (c in s.pool || c !in s.calls)
    case Run(o) => p.Leading? && p.c in s.calls
    case Finish => p.Ran? && p.c in s.calls && p.exec in s.outcome
    case LeadRead => p.Finished? && p.c in s.calls && s.calls[p.c].err.Plain?
    case Wake => p.Joined? && p.c in s.calls && s.calls[p.c].waiting == 0
    case JoinRead => p.Woken? && p.c in s.calls
    case Release => (p.LeaderRead? || p.JoinerRead? || p.Unwinding?) && p.c in s.calls
    case Put => p.Putting?
  }

  /** The call object after the function ended: a panic or Goexit leaves the value field alone. */
  function Store(call: Call, o: Outcome): Call {
    match o
    case Returned(v, e) => call.(val := v, err := Plain(e))
    case Panicked(cause) => call.(err := PanicErr(cause))
    case Exited => call.(err := GoexitErr)
  }

  function PooledOrNew(s: State, c: CallId): Call {
    if c in s.calls then s.calls[c] else Call(0, Plain(0), 0, 0)
  }

  function DoStartJoin(s: State, t: Tid, key: Key, c: CallId): State
    requires c in s.calls && c in s.current
  {
    Set(Go(s, t, Joined(c, key, s.current[c])), c, s.calls[c].(dups := s.calls[c].dups + 1))
  }

  function DoStartLead(s: State, t: Tid, key: Key, c: CallId): State {
    var call := PooledOrNew(s, c);
    Set(Go(s, t, Leading(c, key, s.nextExec)), c, call.(dups := call.dups + 1, waiting := call.waiting + 1))
      .(m := s.m[key := c], pool := s.pool - {c}, nextExec := s.nextExec + 1,
        current := s.current[c := s.nextExec], asked := s.asked[s.nextExec := key])
  }

  function DoRun(s: State, t: Tid, c: CallId, key: Key, x: Exec, o: Outcome): State
    requires c in s.calls
  {
    Set(Go(s, t, Ran(c, key, x)), c, Store(s.calls[c], o)).(outcome := s.outcome[x := o])
  }

  function DoFinish(s: State, t: Tid, c: CallId, key: Key, x: Exec): State
    requires c in s.calls && x in s.outcome
  {
    var next := if s.outcome[x].Returned? then Finished(c, key, x) else Unwinding(c, key, x);
    Set(Go(s, t, next), c, s.calls[c].(waiting := s.calls[c].waiting - 1))
      .(m := if key in s.m && s.m[key] == c then s.m - {key} else s.m)
  }

  function DoJoinRead(s: State, t: Tid, c: CallId, key: Key, x: Exec): State
    requires c in s.calls
  {
    Go(s, t, match s.calls[c].err
      case Plain(e) => JoinerRead(c, key, x, s.calls[c].val, e)
      case _ => Leaked(c, key, x))
  }

  function DoRelease(s: State, t: Tid, p: Pc): State
    requires (p.LeaderRead? || p.JoinerRead? || p.Unwinding?) && p.c in s.calls
  {
    var n := s.calls[p.c].dups - 1;
    Set(Go(s, t, if n == 0 then Putting(p.c) else Idle), p.c, s.calls[p.c].(dups := n))
      .(results := if p.Unwinding? then s.results else s.results + [Answer(p.key, p.exec, p.val, p.err)])
  }

  ghost function Do(s: State, t: Tid, a: Move): State
    requires Enabled(s, t, a)
  {
    var p := At(s, t);
    match a
    case StartJoin(key) => DoStartJoin(s, t, key, s.m[key])
    case StartLead(key, c) => DoStartLead(s, t, key, c)
    case Run(o) => DoRun(s, t, p.c, p.key, p.exec, o)
    case Finish => DoFinish(s, t, p.c, p.key, p.exec)
    case LeadRead => Go(s, t, LeaderRead(p.c, p.key, p.exec, s.calls[p.c].val, s.calls[p.c].err.err))
    case Wake => Go(s, t, Woken(p.c, p.key, p.exec))
    case JoinRead => DoJoinRead(s, t, p.c, p.key, p.exec)
    case Release => DoRelease(s, t, p)
    case Put => Go(s, t, Idle).(pool := s.pool + {p.c})
  }

  // ----- References -----

  /** The goroutine will still touch call object c. */
  predicate Refs(p: Pc, c: CallId) {
    match p
    case Idle => false
    case Putting(_) => false
    case _ => p.c == c
  }

  /** The goroutine is executing the function, with c in the map. */
  predicate Flies(p: Pc, c: CallId) {
    (p.Leading? || p.Ran?) && p.c == c
  }

  ghost function Referrers(pc: map<Tid, Pc>, c: CallId): set<Tid> {
    set t | t in pc && Refs(pc[t], c)
  }

  ghost function Flyers(pc: map<Tid, Pc>, c: CallId): set<Tid> {
    set t | t in pc && Flies(pc[t], c)
  }

  /** dups counts the goroutines that hold a reference, the wait group those that joiners wait for. */
  ghost predicate Counting(s: State) {
    && (forall t, c :: t in s.pc && Refs(s.pc[t], c) ==> c in s.calls)
    && (forall c :: c in s.calls ==> s.calls[c].dups == |Referrers(s.pc, c)| && s.calls[c].waiting == |Flyers(s.pc, c)|)
  }

  lemma MoveReferrers(pc: map<Tid, Pc>, t: Tid, p: Pc, c: CallId)
    ensures var was := t in pc && Refs(pc[t], c);
      |Referrers(pc[t := p], c)| == |Referrers(pc, c)| - (if was then 1 else 0) + (if Refs(p, c) then 1 else 0)
  {
    var a, b := Referrers(pc, c), Referrers(pc[t := p], c);
    if Refs(p, c) {
      assert b == a + {t};
    } else {
      assert b == a - {t};
    }
  }

  lemma MoveFlyers(pc: map<Tid, Pc>, t: Tid, p: Pc, c: CallId)
    ensures var was := t in pc && Flies(pc[t], c);
      |Flyers(pc[t := p], c)| == |Flyers(pc, c)| - (if was then 1 else 0) + (if Flies(p, c) then 1 else 0)
  {
    var a, b := Flyers(pc, c), Flyers(pc[t := p], c);
    if Flies(p, c) {
      assert b == a + {t};
    } else {
      assert b == a - {t};
    }
  }

  lemma NoReferrers(s: State, c: CallId)
    requires c !in s.calls && Counting(s)
    ensures Referrers(s.pc, c) == {} && Flyers(s.pc, c) == {}
  {
    assert forall t :: t in s.pc ==> !Refs(s.pc[t], c) && (Flies(s.pc[t], c) ==> Refs(s.pc[t], c));
  }

  /** A step that moves one goroutine and rewrites one call object keeps the counts, if it adds what it
      must to the object's own counters. */
  ghost predicate Balanced(s: State, s': State, t: Tid, p: Pc, c: CallId) {
    && s'.pc == s.pc[t := p]
    && c in s'.calls && s'.calls == s.calls[c := s'.calls[c]]
    && (forall d :: d != c ==> !Refs(p, d) && !Refs(At(s, t), d))
    && s'.calls[c].dups == PooledOrNew(s, c).dups - (if Refs(At(s, t), c) then 1 else 0) + (if Refs(p, c) then 1 else 0)
    && s'.calls[c].waiting ==
      PooledOrNew(s, c).waiting - (if Flies(At(s, t), c) then 1 else 0) + (if Flies(p, c) then 1 else 0)
  }

  lemma BalancedCounting(s: State, s': State, t: Tid, p: Pc, c: CallId)
    requires Counting(s) && Balanced(s, s', t, p, c)
    ensures Counting(s')
  {
    forall d | d in s'.calls
      ensures s'.calls[d].dups == |Referrers(s'.pc, d)| && s'.calls[d].waiting == |Flyers(s'.pc, d)|
    {
      MoveReferrers(s.pc, t, p, d);
      MoveFlyers(s.pc, t, p, d);
      if d !in s.calls {
        NoReferrers(s, d);
      }
    }
  }

  lemma StepBalanced(s: State, t: Tid, a: Move)
    requires Enabled(s, t, a) && !a.Put?
    ensures var s' := Do(s, t, a); t in s'.pc && exists c :: Balanced(s, s', t, s'.pc[t], c)
  {
    var s' := Do(s, t, a);
    var p := s'.pc[t];
    var c := if p.Idle? then At(s, t).c else p.c;
    assert Balanced(s, s', t, p, c);
  }

  lemma StepCounting(s: State, t: Tid, a: Move)
    requires Counting(s) && Enabled(s, t, a)
    ensures Counting(Do(s, t, a))
  {
    var s' := Do(s, t, a);
    if a.Put? {
      forall d | d in s'.calls
        ensures s'.calls[d].dups == |Referrers(s'.pc, d)| && s'.calls[d].waiting == |Flyers(s'.pc, d)|
      {
        MoveReferrers(s.pc, t, Idle, d);
        MoveFlyers(s.pc, t, Idle, d);
      }
    } else {
      StepBalanced(s, t, a);
      var c :| Balanced(s, s', t, s'.pc[t], c);
      BalancedCounting(s, s', t, s'.pc[t], c);
    }
  }

  /** Zero counts mean nobody is there. */
  lemma Unreferenced(s: State, c: CallId)
    requires Counting(s) && c in s.calls
    ensures s.calls[c].dups == 0 ==> forall t :: !Refs(At(s, t), c)
    ensures s.calls[c].waiting == 0 ==> forall t :: !Flies(At(s, t), c)
    ensures forall t :: Refs(At(s, t), c) ==> s.calls[c].dups >= 1
    ensures forall t :: Flies(At(s, t), c) ==> s.calls[c].waiting >= 1
  {
    forall t | t in s.pc && Refs(s.pc[t], c)
      ensures s.calls[c].dups >= 1
    {
      assert t in Referrers(s.pc, c);
    }
    forall t | t in s.pc && Flies(s.pc[t], c)
      ensures s.calls[c].waiting >= 1
    {
      assert t in Flyers(s.pc, c);
    }
  }

  // ----- One execution per key -----

  ghost predicate HasLeader(pc: map<Tid, Pc>, c: CallId, key: Key) {
    exists t :: t in pc && Flies(pc[t], c) && pc[t].key == key
  }

  ghost predicate Mapped(s: State) {
    && (forall t :: t in s.pc && (s.pc[t].Leading? || s.pc[t].Ran?) ==>
      s.pc[t].key in s.m && s.m[s.pc[t].key] == s.pc[t].c)
    && (forall key :: key in s.m ==> HasLeader(s.pc, s.m[key], key))
    && (forall t, u, c :: t in s.pc && u in s.pc && Flies(s.pc[t], c) && Flies(s.pc[u], c) ==> t == u)
  }

  /** Call objects in the pool, or on their way into it, are nobody's. */
  ghost predicate Pooled(s: State) {
    && (forall c :: c in s.pool ==> c in s.calls && s.calls[c].dups == 0)
    && (forall t :: t in s.pc && s.pc[t].Putting? ==>
      s.pc[t].c in s.calls && s.calls[s.pc[t].c].dups == 0 && s.pc[t].c !in s.pool)
    && (forall t, u :: t in s.pc && u in s.pc && s.pc[t].Putting? && s.pc[u].Putting? && s.pc[t].c == s.pc[u].c ==>
      t == u)
  }

  /** A mapped call is referenced, so it is not in the pool. */
  lemma MappedBusy(s: State, key: Key)
    requires Counting(s) && Mapped(s) && key in s.m
    ensures s.m[key] in s.calls && s.calls[s.m[key]].dups >= 1 && s.calls[s.m[key]].waiting >= 1
  {
    var t :| t in s.pc && Flies(s.pc[t], s.m[key]) && s.pc[t].key == key;
    assert Refs(s.pc[t], s.m[key]);
    Unreferenced(s, s.m[key]);
    assert Flies(At(s, t), s.m[key]);
  }

  lemma StillLed(pc: map<Tid, Pc>, t: Tid, p: Pc, c: CallId, key: Key)
    requires HasLeader(pc, c, key) && (t in pc && Flies(pc[t], c) && pc[t].key == key ==> Flies(p, c) && p.key == key)
    ensures HasLeader(pc[t := p], c, key)
  {
    var u :| u in pc && Flies(pc[u], c) && pc[u].key == key;
    assert u in pc[t := p] && Flies(pc[t := p][u], c) && pc[t := p][u].key == key;
  }

  /** A step that leaves the map alone and its goroutine flying as before keeps one leader per key. */
  lemma SameMapped(s: State, s': State, t: Tid, p: Pc)
    requires Mapped(s) && s'.pc == s.pc[t := p] && s'.m == s.m
    requires (At(s, t).Leading? || At(s, t).Ran?) <==> (p.Leading? || p.Ran?)
    requires p.Leading? || p.Ran? ==> p.c == At(s, t).c && p.key == At(s, t).key
    ensures Mapped(s')
  {
    forall key | key in s'.m
      ensures HasLeader(s'.pc, s'.m[key], key)
    {
      StillLed(s.pc, t, p, s.m[key], key);
    }
  }

  lemma StartLeadMapped(s: State, t: Tid, key: Key, c: CallId)
    requires Counting(s) && Mapped(s) && Pooled(s) && Enabled(s, t, StartLead(key, c))
    ensures Mapped(DoStartLead(s, t, key, c))
  {
    var s' := DoStartLead(s, t, key, c);
    var p := s'.pc[t];
    forall k | k in s'.m
      ensures HasLeader(s'.pc, s'.m[k], k)
    {
      if k == key {
        assert Flies(s'.pc[t], c) && s'.pc[t].key == k;
      } else {
        StillLed(s.pc, t, p, s.m[k], k);
      }
    }
    forall u | u in s.pc
      ensures !Flies(s.pc[u], c)
    {
      NoFlyers(s, c, u);
    }
  }

  lemma NoFlyers(s: State, c: CallId, u: Tid)
    requires Counting(s) && Pooled(s) && (c in s.pool || c !in s.calls) && u in s.pc
    ensures !Refs(s.pc[u], c) && !Flies(s.pc[u], c)
  {
    if c in s.calls {
      Unreferenced(s, c);
      assert !Refs(At(s, u), c);
    }
  }

  lemma FinishMapped(s: State, t: Tid)
    requires Mapped(s) && Enabled(s, t, Finish)
    ensures Mapped(Do(s, t, Finish))
  {
    var s' := Do(s, t, Finish);
    forall k | k in s'.m
      ensures HasLeader(s'.pc, s'.m[k], k)
    {
      StillLed(s.pc, t, s'.pc[t], s.m[k], k);
    }
  }

  lemma StepMapped(s: State, t: Tid, a: Move)
    requires Counting(s) && Mapped(s) && Pooled(s) && Enabled(s, t, a)
    ensures Mapped(Do(s, t, a))
  {
    match a
    case StartLead(key, c) => StartLeadMapped(s, t, key, c);
    case Finish => FinishMapped(s, t);
    case _ => SameMapped(s, Do(s, t, a), t, Do(s, t, a).pc[t]);
  }

  /** A step on a referenced call object, away from the pool, leaves the pool alone. */
  lemma BusyPooled(s: State, s': State, t: Tid, p: Pc, c: CallId)
    requires Pooled(s) && s'.pc == s.pc[t := p] && s'.pool == s.pool && c in s.calls && s.calls[c].dups >= 1
    requires c in s'.calls && s'.calls == s.calls[c := s'.calls[c]] && !At(s, t).Putting?
    requires p.Putting? ==> p.c == c && s'.calls[c].dups == 0
    ensures Pooled(s')
  {
  }

  lemma StartLeadPooled(s: State, t: Tid, key: Key, c: CallId)
    requires Pooled(s) && Enabled(s, t, StartLead(key, c))
    ensures Pooled(DoStartLead(s, t, key, c))
  {
  }

  lemma PutPooled(s: State, t: Tid)
    requires Pooled(s) && Enabled(s, t, Put)
    ensures Pooled(Do(s, t, Put))
  {
  }

  lemma StepPooled(s: State, t: Tid, a: Move)
    requires Counting(s) && Mapped(s) && Pooled(s) && Enabled(s, t, a)
    ensures Pooled(Do(s, t, a))
  {
    match a
    case StartLead(key, c) => StartLeadPooled(s, t, key, c);
    case Put => PutPooled(s, t);
    case StartJoin(key) =>
      MappedBusy(s, key);
      BusyPooled(s, Do(s, t, a), t, Do(s, t, a).pc[t], s.m[key]);
    case _ =>
      var c := At(s, t).c;
      Unreferenced(s, c);
      assert Refs(At(s, t), c);
      BusyPooled(s, Do(s, t, a), t, Do(s, t, a).pc[t], c);
  }

  // ----- Every return is the result of the execution joined -----

  /** Executions are numbered once; a call object serves the execution its holders joined. */
  ghost predicate Numbered(s: State) {
    && (forall t :: t in s.pc && !s.pc[t].Idle? && !s.pc[t].Putting? ==>
      s.pc[t].c in s.current && s.current[s.pc[t].c] == s.pc[t].exec)
    && (forall c, d :: c in s.current && d in s.current && s.current[c] == s.current[d] ==> c == d)
    && (forall c :: c in s.current ==> s.current[c] < s.nextExec)
    && (forall x :: x in s.outcome ==> x < s.nextExec)
    && (forall t :: t in s.pc && s.pc[t].Leading? ==> s.pc[t].exec !in s.outcome)
  }

  /** An execution that is led, joined or answered was started for that very key. */
  ghost predicate Keyed(s: State) {
    && (forall x :: x in s.asked ==> x < s.nextExec)
    && (forall t :: t in s.pc && !s.pc[t].Idle? && !s.pc[t].Putting? ==> AskedFor(s.asked, s.pc[t].exec, s.pc[t].key))
    && (forall i :: 0 <= i < |s.results| ==> AskedFor(s.asked, s.results[i].exec, s.results[i].key))
  }

  predicate AskedFor(asked: map<Exec, Key>, x: Exec, key: Key) {
    x in asked && asked[x] == key
  }

  /** A mapped call object serves an execution of its key. */
  lemma MappedKey(s: State, key: Key)
    requires Mapped(s) && Numbered(s) && Keyed(s) && key in s.m
    ensures s.m[key] in s.current && AskedFor(s.asked, s.current[s.m[key]], key)
  {
    var u :| u in s.pc && Flies(s.pc[u], s.m[key]) && s.pc[u].key == key;
    assert AskedFor(s.asked, s.pc[u].exec, s.pc[u].key);
  }

  predicate Holds(call: Call, o: Outcome) {
    match o
    case Returned(v, e) => call.val == v && call.err == Plain(e)
    case Panicked(cause) => call.err == PanicErr(cause)
    case Exited => call.err == GoexitErr
  }

  /** The call object holds the outcome of the execution it serves. */
  ghost predicate Settled(s: State, c: CallId) {
    c in s.calls && c in s.current && s.current[c] in s.outcome && Holds(s.calls[c], s.outcome[s.current[c]])
  }

  /** What each goroutine knows of the outcome. */
  ghost predicate Knows(s: State, p: Pc) {
    match p
    case Ran(c, _, _) => Settled(s, c)
    case Finished(c, _, x) => Settled(s, c) && x in s.outcome && s.outcome[x].Returned?
    case Joined(c, _, _) => c in s.calls && (s.calls[c].waiting == 0 ==> Settled(s, c))
    case Woken(c, _, _) => Settled(s, c)
    case LeaderRead(_, _, x, v, e) => x in s.outcome && s.outcome[x] == Returned(v, e)
    case JoinerRead(_, _, x, v, e) => x in s.outcome && s.outcome[x] == Returned(v, e)
    case Unwinding(_, _, x) => x in s.outcome && !s.outcome[x].Returned?
    case Leaked(_, _, x) => x in s.outcome && !s.outcome[x].Returned?
    case _ => true
  }

  /** Goroutines that read the call object after the function ended. */
  predicate Reads(p: Pc) {
    p.Ran? || p.Finished? || p.Woken?
  }

  predicate Answers(a: Answer, outcome: map<Exec, Outcome>) {
    a.exec in outcome && outcome[a.exec] == Returned(a.val, a.err)
  }

  ghost predicate Outcomes(s: State) {
    && (forall t :: t in s.pc ==> Knows(s, s.pc[t]))
    && (forall t, u :: t in s.pc && u in s.pc && s.pc[t].Leading? && Reads(s.pc[u]) ==> s.pc[t].c != s.pc[u].c)
    && (forall i :: 0 <= i < |s.results| ==> Answers(s.results[i], s.outcome))
  }

  ghost predicate Inv(s: State) {
    Counting(s) && Mapped(s) && Pooled(s) && Numbered(s) && Keyed(s) && Outcomes(s)
  }

  lemma StartLeadNumbered(s: State, t: Tid, key: Key, c: CallId)
    requires Counting(s) && Pooled(s) && Numbered(s) && Enabled(s, t, StartLead(key, c))
    ensures Numbered(DoStartLead(s, t, key, c))
  {
    forall u | u in s.pc
      ensures !Refs(s.pc[u], c)
    {
      NoFlyers(s, c, u);
    }
  }

  /** The goroutine goes on with the execution it had, or is done with it. */
  predicate GoesOn(p: Pc, q: Pc) {
    q.Idle? || q.Putting? ||
        (!q.Leading? && !p.Idle? && !p.Putting? && q.c == p.c && q.key == p.key && q.exec == p.exec)
  }

  lemma SameNumbered(s: State, s': State, t: Tid, p: Pc)
    requires Numbered(s) && s'.pc == s.pc[t := p] && GoesOn(At(s, t), p)
    requires s'.current == s.current && s'.outcome == s.outcome && s'.nextExec == s.nextExec
    ensures Numbered(s')
  {
  }

  lemma RunNumbered(s: State, t: Tid, o: Outcome)
    requires Mapped(s) && Numbered(s) && Enabled(s, t, Run(o))
    ensures Numbered(Do(s, t, Run(o)))
  {
    var p := At(s, t);
    forall u | u in s.pc && u != t && s.pc[u].Leading?
      ensures s.pc[u].exec != p.exec
    {
      OneFlyer(s, t, u);
    }
  }

  lemma StepGoesOn(s: State, t: Tid, a: Move)
    requires Enabled(s, t, a) && !a.StartLead? && !a.StartJoin?
    ensures var s' := Do(s, t, a); t in s'.pc && s'.pc == s.pc[t := s'.pc[t]] && GoesOn(At(s, t), s'.pc[t])
  {
  }

  lemma StepNumbered(s: State, t: Tid, a: Move)
    requires Counting(s) && Mapped(s) && Pooled(s) && Numbered(s) && Enabled(s, t, a)
    ensures Numbered(Do(s, t, a))
  {
    match a
    case StartLead(key, c) => StartLeadNumbered(s, t, key, c);
    case StartJoin(key) =>
    case Run(o) => RunNumbered(s, t, o);
    case _ =>
      StepGoesOn(s, t, a);
      SameNumbered(s, Do(s, t, a), t, Do(s, t, a).pc[t]);
  }

  lemma SameKeyed(s: State, s': State, t: Tid, p: Pc)
    requires Keyed(s) && s'.pc == s.pc[t := p] && s'.asked == s.asked && s'.nextExec == s.nextExec &&
      s'.results == s.results
    requires GoesOn(At(s, t), p) || (p.Joined? && AskedFor(s.asked, p.exec, p.key))
    ensures Keyed(s')
  {
    assert At(s, t).Idle? || At(s, t).Putting? || AskedFor(s.asked, s.pc[t].exec, s.pc[t].key);
  }

  lemma StartLeadKeyed(s: State, t: Tid, key: Key, c: CallId)
    requires Keyed(s)
    ensures Keyed(DoStartLead(s, t, key, c))
  {
  }

  lemma ReleaseKeyed(s: State, t: Tid)
    requires Keyed(s) && Enabled(s, t, Release)
    ensures Keyed(Do(s, t, Release))
  {
    assert AskedFor(s.asked, s.pc[t].exec, s.pc[t].key);
  }

  lemma StepKeyed(s: State, t: Tid, a: Move)
    requires Mapped(s) && Numbered(s) && Keyed(s) && Enabled(s, t, a)
    ensures Keyed(Do(s, t, a))
  {
    match a
    case StartLead(key, c) => StartLeadKeyed(s, t, key, c);
    case StartJoin(key) =>
      MappedKey(s, key);
      SameKeyed(s, Do(s, t, a), t, Do(s, t, a).pc[t]);
    case Release => ReleaseKeyed(s, t);
    case _ =>
      StepGoesOn(s, t, a);
      SameKeyed(s, Do(s, t, a), t, Do(s, t, a).pc[t]);
  }

  lemma OneFlyer(s: State, t: Tid, u: Tid)
    requires Mapped(s) && Numbered(s) && t in s.pc && u in s.pc && s.pc[t].Leading? && s.pc[u].Leading? && t != u
    ensures s.pc[t].exec != s.pc[u].exec && s.pc[t].c != s.pc[u].c
  {
    if s.pc[t].c == s.pc[u].c {
      assert Flies(s.pc[t], s.pc[t].c) && Flies(s.pc[u], s.pc[t].c);
    }
  }

  /** Steps that change no result: knowledge carries over for everyone else. */
  lemma QuietOutcomes(s: State, s': State, t: Tid, p: Pc)
    requires Outcomes(s) && s'.pc == s.pc[t := p] && s'.outcome == s.outcome && s'.current == s.current
    requires s'.calls.Keys == s.calls.Keys
    requires forall c :: c in s.calls ==> s'.calls[c] == s.calls[c].(dups := s'.calls[c].dups)
    requires s'.results == s.results && Knows(s', p) && !p.Leading?
    requires Reads(p) ==> forall u :: u in s.pc && u != t && s.pc[u].Leading? ==> s.pc[u].c != p.c
    ensures Outcomes(s')
  {
    forall u | u in s.pc && u != t
      ensures Knows(s', s.pc[u])
    {
      assert Knows(s, s.pc[u]);
    }
  }

  lemma StartLeadOutcomes(s: State, t: Tid, key: Key, c: CallId)
    requires Inv(s) && Enabled(s, t, StartLead(key, c))
    ensures Outcomes(DoStartLead(s, t, key, c))
  {
    var s' := DoStartLead(s, t, key, c);
    forall u | u in s.pc && u != t
      ensures Knows(s', s.pc[u]) && !Refs(s.pc[u], c)
    {
      assert Knows(s, s.pc[u]);
      NoFlyers(s, c, u);
    }
  }

  lemma RunOutcomes(s: State, t: Tid, o: Outcome)
    requires Inv(s) && Enabled(s, t, Run(o))
    ensures Outcomes(Do(s, t, Run(o)))
  {
    var s' := Do(s, t, Run(o));
    var p := At(s, t);
    Unreferenced(s, p.c);
    assert Flies(At(s, t), p.c);
    forall u | u in s.pc && u != t
      ensures Knows(s', s.pc[u])
      ensures s.pc[u].Leading? ==> s.pc[u].c != p.c
    {
      assert Knows(s, s.pc[u]);
      if s.pc[u].Leading? {
        OneFlyer(s, t, u);
      }
    }
  }

  lemma FinishOutcomes(s: State, t: Tid)
    requires Inv(s) && Enabled(s, t, Finish)
    ensures Outcomes(Do(s, t, Finish))
  {
    var s' := Do(s, t, Finish);
    assert Knows(s, s.pc[t]);
    assert Settled(s, s.pc[t].c);
    forall u | u in s.pc && u != t
      ensures Knows(s', s.pc[u])
    {
      assert Knows(s, s.pc[u]);
    }
  }

  lemma ReleaseOutcomes(s: State, t: Tid)
    requires Outcomes(s) && Enabled(s, t, Release)
    ensures Outcomes(Do(s, t, Release))
  {
    var s' := Do(s, t, Release);
    assert Knows(s, s.pc[t]);
    QuietOutcomes(s, s'.(results := s.results), t, s'.pc[t]);
    forall u | u in s'.pc
      ensures Knows(s', s'.pc[u])
    {
      assert Knows(s'.(results := s.results), s'.pc[u]);
    }
  }

  lemma ReadOutcomes(s: State, t: Tid, a: Move)
    requires Inv(s) && Enabled(s, t, a) && (a.StartJoin? || a.LeadRead? || a.Wake? || a.JoinRead? || a.Put?)
    ensures Outcomes(Do(s, t, a))
  {
    var s' := Do(s, t, a);
    if a.StartJoin? {
      MappedBusy(s, a.key);
    } else {
      assert Knows(s, s.pc[t]);
    }
    if a.Wake? {
      Unreferenced(s, s.pc[t].c);
      forall u | u in s.pc && s.pc[u].Leading?
        ensures s.pc[u].c != s.pc[t].c
      {
        assert !Flies(At(s, u), s.pc[t].c);
      }
    }
    QuietOutcomes(s, s', t, s'.pc[t]);
  }

  lemma StepKeeps(s: State, t: Tid, a: Move)
    requires Inv(s) && Enabled(s, t, a)
    ensures Inv(Do(s, t, a))
  {
    StepCounting(s, t, a);
    StepMapped(s, t, a);
    StepPooled(s, t, a);
    StepNumbered(s, t, a);
    StepKeyed(s, t, a);
    match a
    case StartLead(key, c) => StartLeadOutcomes(s, t, key, c);
    case Run(o) => RunOutcomes(s, t, o);
    case Finish => FinishOutcomes(s, t);
    case Release => ReleaseOutcomes(s, t);
    case _ => ReadOutcomes(s, t, a);
  }

  // ----- What the group promises -----

  ghost predicate Follows(s: State, t: Tid, a: Move, s': State) {
    Enabled(s, t, a) && s' == Do(s, t, a)
  }

  ghost predicate IsRun(run: seq<State>, schedule: seq<(Tid, Move)>) {
    && |run| == |schedule| + 1
    && Init(run[0])
    && forall i :: 0 <= i < |schedule| ==> Follows(run[i], schedule[i].0, schedule[i].1, run[i + 1])
  }

  lemma {:induction false} RunInv(run: seq<State>, schedule: seq<(Tid, Move)>, n: nat)
    requires IsRun(run, schedule) && n < |run|
    ensures Inv(run[n])
  {
    if n > 0 {
      RunInv(run, schedule, n - 1);
      assert Follows(run[n - 1], schedule[n - 1].0, schedule[n - 1].1, run[n - 1 + 1]);
      StepKeeps(run[n - 1], schedule[n - 1].0, schedule[n - 1].1);
    }
  }

  /** In every interleaving, at most one goroutine is executing the function for a key. */
  lemma OneExecutionPerKey(run: seq<State>, schedule: seq<(Tid, Move)>, n: nat, t: Tid, u: Tid)
    requires IsRun(run, schedule) && n < |run|
    requires At(run[n], t).Leading? && At(run[n], u).Leading? && At(run[n], t).key == At(run[n], u).key
    ensures t == u
  {
    RunInv(run, schedule, n);
    assert Flies(run[n].pc[t], run[n].pc[t].c) && Flies(run[n].pc[u], run[n].pc[t].c);
  }

  /** Whatever Do returned for a key, to leader or joiner, is the result of an execution started for that
      key, the one that call led or joined. */
  lemma ReturnsItsExecution(run: seq<State>, schedule: seq<(Tid, Move)>, n: nat, i: nat)
    requires IsRun(run, schedule) && n < |run| && i < |run[n].results|
    ensures var a := run[n].results[i];
      AskedFor(run[n].asked, a.exec, a.key) && a.exec in run[n].outcome &&
          run[n].outcome[a.exec] == Returned(a.val, a.err)
  {
    RunInv(run, schedule, n);
    assert Answers(run[n].results[i], run[n].outcome);
  }

  /** A joiner that is about to return holds the outcome of the execution of its key that it joined, even
      though the call object may serve others later. */
  lemma JoinerHasItsResult(run: seq<State>, schedule: seq<(Tid, Move)>, n: nat, t: Tid)
    requires IsRun(run, schedule) && n < |run| && At(run[n], t).JoinerRead?
    ensures var p := At(run[n], t);
      AskedFor(run[n].asked, p.exec, p.key) && p.exec in run[n].outcome &&
          run[n].outcome[p.exec] == Returned(p.val, p.err)
  {
    RunInv(run, schedule, n);
    assert Knows(run[n], run[n].pc[t]);
  }

  /** A call object in the pool, or being put there, is out of the map and no goroutine will touch it. */
  lemma PooledIsFree(run: seq<State>, schedule: seq<(Tid, Move)>, n: nat, c: CallId, t: Tid)
    requires IsRun(run, schedule) && n < |run|
    requires c in run[n].pool || (exists u :: u in run[n].pc && run[n].pc[u] == Putting(c))
    ensures !Refs(At(run[n], t), c) && forall key :: key in run[n].m ==> run[n].m[key] != c
  {
    var s := run[n];
    RunInv(run, schedule, n);
    assert c in s.calls && s.calls[c].dups == 0;
    Unreferenced(s, c);
    forall key | key in s.m
      ensures s.m[key] != c
    {
      MappedBusy(s, key);
    }
  }

  // ----- Which result a caller gets -----

  /** The goroutine is serving this execution of the key. */
  predicate Serves(p: Pc, key: Key, x: Exec) {
    !p.Idle? && !p.Putting? && p.key == key && p.exec == x
  }

  /** Goroutine `t` starts no other call between steps `m` and `n`. */
  ghost predicate NoStart(schedule: seq<(Tid, Move)>, t: Tid, m: nat, n: nat)
    requires n <= |schedule|
  {
    forall i :: m < i < n && schedule[i].0 == t ==> !schedule[i].1.StartJoin? && !schedule[i].1.StartLead?
  }

  /** The execution was ended by this outcome of the function, as its leader ran it. */
  ghost predicate EndedAt(run: seq<State>, schedule: seq<(Tid, Move)>, j: nat, u: Tid, key: Key, x: Exec, o: Outcome)
    requires |run| == |schedule| + 1 && j < |schedule|
  {
    schedule[j] == (u, Run(o)) && At(run[j], u).Leading? && Serves(At(run[j], u), key, x)
  }

  lemma StepServes(s: State, t: Tid, a: Move, u: Tid, key: Key, x: Exec)
    requires Enabled(s, t, a) && (t == u ==> !a.StartJoin? && !a.StartLead?)
    requires Serves(At(s, u), key, x) || At(s, u).Idle? || At(s, u).Putting?
    ensures var p := At(Do(s, t, a), u); Serves(p, key, x) || p.Idle? || p.Putting?
  {
    if t == u {
      StepGoesOn(s, t, a);
    }
  }

  lemma {:induction false} KeepsServing(run: seq<State>, schedule: seq<(Tid, Move)>, t: Tid, m: nat, n: nat,
      key: Key, x: Exec)
    requires IsRun(run, schedule) && m < n < |run| && NoStart(schedule, t, m, n)
    requires Serves(At(run[m + 1], t), key, x)
    ensures var p := At(run[n], t); Serves(p, key, x) || p.Idle? || p.Putting?
  {
    if n > m + 1 {
      KeepsServing(run, schedule, t, m, n - 1, key, x);
      assert Follows(run[n - 1], schedule[n - 1].0, schedule[n - 1].1, run[n - 1 + 1]);
      StepServes(run[n - 1], schedule[n - 1].0, schedule[n - 1].1, t, key, x);
    }
  }

  /** Every recorded outcome is what the function returned to a leader of that execution. */
  lemma {:induction false} OutcomeEnded(run: seq<State>, schedule: seq<(Tid, Move)>, n: nat, x: Exec)
      returns (j: nat, u: Tid, key: Key)
    requires IsRun(run, schedule) && n < |run| && x in run[n].outcome
    ensures j < n && EndedAt(run, schedule, j, u, key, x, run[n].outcome[x])
    ensures AskedFor(run[n].asked, x, key)
  {
    assert Follows(run[n - 1], schedule[n - 1].0, schedule[n - 1].1, run[n - 1 + 1]);
    RunInv(run, schedule, n - 1);
    var s, t, a := run[n - 1], schedule[n - 1].0, schedule[n - 1].1;
    if a.Run? && At(s, t).exec == x {
      j, u, key := n - 1, t, At(s, t).key;
      assert AskedFor(s.asked, s.pc[t].exec, s.pc[t].key);
    } else {
      j, u, key := OutcomeEnded(run, schedule, n - 1, x);
    }
  }

  /** A call that starts while another goroutine is executing the function of its key joins that
      execution; otherwise it starts one of its own. */
  lemma StartsServing(s: State, t: Tid, a: Move, key: Key) returns (u: Tid)
    requires Inv(s) && Enabled(s, t, a) && (a == StartJoin(key) || (a.StartLead? && a.key == key))
    ensures Serves(At(Do(s, t, a), t), key, At(Do(s, t, a), t).exec)
    ensures a.StartJoin? ==> var p := At(s, u); (p.Leading? || p.Ran?) && Serves(p, key, At(Do(s, t, a), t).exec)
    ensures a.StartLead? ==> forall v :: !((At(s, v).Leading? || At(s, v).Ran?) && At(s, v).key == key)
    ensures a.StartLead? ==> At(Do(s, t, a), t).exec == s.nextExec && s.nextExec !in s.outcome
  {
    u := t;
    if a.StartJoin? {
      u :| u in s.pc && Flies(s.pc[u], s.m[key]) && s.pc[u].key == key;
    }
  }

  /** Do returns to its caller the value and error that the function returned in the execution that was in
      flight for the key when it came, or in the one it started itself. */
  lemma DoAnswers(run: seq<State>, schedule: seq<(Tid, Move)>, t: Tid, m: nat, n: nat, key: Key)
      returns (j: nat, u: Tid, x: Exec, v: int, e: int)
    requires IsRun(run, schedule) && m < n < |schedule| && NoStart(schedule, t, m, n)
    requires schedule[m].0 == t && schedule[n] == (t, Release)
    requires schedule[m].1 == StartJoin(key) || (schedule[m].1.StartLead? && schedule[m].1.key == key)
    requires !At(run[n], t).Unwinding?
    ensures j < n && EndedAt(run, schedule, j, u, key, x, Returned(v, e)) && x == At(run[m + 1], t).exec
    ensures run[n + 1].results == run[n].results + [Answer(key, x, v, e)]
    ensures schedule[m].1.StartJoin? ==>
      exists w :: var p := At(run[m], w); (p.Leading? || p.Ran?) && Serves(p, key, x)
    ensures schedule[m].1.StartLead? ==> u == t && j > m
  {
    RunInv(run, schedule, m);
    RunInv(run, schedule, n);
    assert Follows(run[m], t, schedule[m].1, run[m + 1]);
    assert Follows(run[n], t, Release, run[n + 1]);
    var w := StartsServing(run[m], t, schedule[m].1, key);
    x := At(run[m + 1], t).exec;
    KeepsServing(run, schedule, t, m, n, key, x);
    assert Knows(run[n], run[n].pc[t]);
    v, e := At(run[n], t).val, At(run[n], t).err;
    var k;
    j, u, k := OutcomeEnded(run, schedule, n, x);
    assert AskedFor(run[n].asked, run[n].pc[t].exec, run[n].pc[t].key);
    if schedule[m].1.StartLead? {
      OwnRun(run, schedule, t, m, j, u, x);
    }
  }

  /** The goroutine that started an execution is still leading it, or the execution has ended. */
  lemma {:induction false} LeadsUntilEnded(run: seq<State>, schedule: seq<(Tid, Move)>, t: Tid, m: nat, n: nat, x: Exec)
    requires IsRun(run, schedule) && m < n < |run|
    requires At(run[m + 1], t).Leading? && At(run[m + 1], t).exec == x
    ensures x in run[n].outcome || (At(run[n], t).Leading? && At(run[n], t).exec == x)
  {
    if n > m + 1 {
      LeadsUntilEnded(run, schedule, t, m, n - 1, x);
      assert Follows(run[n - 1], schedule[n - 1].0, schedule[n - 1].1, run[n - 1 + 1]);
    }
  }

  lemma OwnRun(run: seq<State>, schedule: seq<(Tid, Move)>, t: Tid, m: nat, j: nat, u: Tid, x: Exec)
    requires IsRun(run, schedule) && m < |schedule| && j < |schedule|
    requires schedule[m].0 == t && schedule[m].1.StartLead? && x == run[m].nextExec
    requires At(run[j], u).Leading? && At(run[j], u).exec == x
    ensures j > m && u == t
  {
    assert Follows(run[m], t, schedule[m].1, run[m + 1]);
    RunInv(run, schedule, j);
    if j <= m {
      ExecsGrow(run, schedule, j, m);
    } else {
      LeadsUntilEnded(run, schedule, t, m, j, x);
      if u != t {
        OneFlyer(run[j], t, u);
      }
    }
  }

  lemma {:induction false} ExecsGrow(run: seq<State>, schedule: seq<(Tid, Move)>, m: nat, n: nat)
    requires IsRun(run, schedule) && m <= n < |run|
    ensures run[m].nextExec <= run[n].nextExec
  {
    if n > m {
      ExecsGrow(run, schedule, m, n - 1);
      assert Follows(run[n - 1], schedule[n - 1].0, schedule[n - 1].1, run[n - 1 + 1]);
    }
  }

  /** A caller fails, by panic or exit, exactly when the function did in the execution it led or joined. */
  lemma FailsIff(run: seq<State>, schedule: seq<(Tid, Move)>, n: nat, t: Tid)
    requires IsRun(run, schedule) && n < |run|
    ensures var p := At(run[n], t);
      p.LeaderRead? || p.JoinerRead? ==> p.exec in run[n].outcome && run[n].outcome[p.exec] == Returned(p.val, p.err)
    ensures var p := At(run[n], t);
      p.Unwinding? || p.Leaked? ==> p.exec in run[n].outcome && !run[n].outcome[p.exec].Returned?
  {
    RunInv(run, schedule, n);
    if t in run[n].pc {
      assert Knows(run[n], run[n].pc[t]);
    }
  }

  // ----- Nobody waits for nothing -----

  /** The next step of a goroutine inside Do, if it has one. */
  function Next(p: Pc): Move
    requires !p.Idle? && !p.Leaked?
  {
    match p
    case Leading(_, _, _) => Run(Exited)
    case Ran(_, _, _) => Finish
    case Finished(_, _, _) => LeadRead
    case Joined(_, _, _) => Wake
    case Woken(_, _, _) => JoinRead
    case Putting(_) => Put
    case _ => Release
  }

  /** Inside Do a goroutine can always go on, except a joiner while the execution it joined is in flight;
      and its leader can go on. */
  lemma WaitsIff(run: seq<State>, schedule: seq<(Tid, Move)>, n: nat, t: Tid)
    requires IsRun(run, schedule) && n < |run| && !At(run[n], t).Idle? && !At(run[n], t).Leaked?
    ensures var p := At(run[n], t);
      !Enabled(run[n], t, Next(p)) <==>
        p.Joined? && exists u :: (At(run[n], u).Leading? || At(run[n], u).Ran?) && Serves(At(run[n], u), p.key, p.exec)
  {
    var s, p := run[n], At(run[n], t);
    RunInv(run, schedule, n);
    assert Knows(s, s.pc[t]);
    if p.Joined? {
      WaitsForLeader(s, t);
    }
  }

  lemma WaitsForLeader(s: State, t: Tid)
    requires Inv(s) && At(s, t).Joined?
    ensures var p := At(s, t);
      p.c in s.calls && (s.calls[p.c].waiting != 0 <==>
        exists u :: (At(s, u).Leading? || At(s, u).Ran?) && Serves(At(s, u), p.key, p.exec))
  {
    var p := At(s, t);
    assert Refs(s.pc[t], p.c);
    Unreferenced(s, p.c);
    if s.calls[p.c].waiting != 0 {
      var u := Witness(Flyers(s.pc, p.c));
      assert AskedFor(s.asked, s.pc[u].exec, s.pc[u].key) && AskedFor(s.asked, p.exec, p.key);
      assert Serves(At(s, u), p.key, p.exec);
    } else {
      forall u | At(s, u).Leading? || At(s, u).Ran?
        ensures !Serves(At(s, u), p.key, p.exec)
      {
        assert !Flies(At(s, u), p.c);
      }
    }
  }

  /** An idle goroutine can call Do for any key: it joins exactly when the key is in flight. */
  lemma JoinsIff(run: seq<State>, schedule: seq<(Tid, Move)>, n: nat, t: Tid, key: Key, c: CallId)
    requires IsRun(run, schedule) && n < |run| && At(run[n], t).Idle?
    requires c in run[n].pool || c !in run[n].calls
    ensures Enabled(run[n], t, StartJoin(key)) <==>
      exists u :: (At(run[n], u).Leading? || At(run[n], u).Ran?) && At(run[n], u).key == key
    ensures Enabled(run[n], t, StartLead(key, c)) <==> !Enabled(run[n], t, StartJoin(key))
  {
    var s := run[n];
    RunInv(run, schedule, n);
    if key in s.m {
      MappedBusy(s, key);
      MappedKey(s, key);
      var u :| u in s.pc && Flies(s.pc[u], s.m[key]) && s.pc[u].key == key;
      assert (At(s, u).Leading? || At(s, u).Ran?) && At(s, u).key == key;
    }
  }
}
