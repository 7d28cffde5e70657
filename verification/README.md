# Theine: a verified model

Theine is an in-memory W-TinyLFU cache for Go. This project models the state machinery at its core and
proves what it promises. Everything is Dafny 4.11; `dafny verify dfyconfig.toml` checks the whole project.

| file | what it models |
|---|---|
| `TimerWheel.dfy`, `Bits.dfy` | the hierarchical timer wheel and its power-of-two spans |
| `StoreProtocol.dfy` | the NEW / UPDATE / REMOVE event protocol between the shard maps and the policy |
| `TinyLfu.dfy`, `LruList.dfy` | the three-list eviction policy, its window resize and its two-cursor eviction loop |
| `LinkedList.dfy` | the intrusive circular list over two link chains, refining a sequence |
| `PolicyLists.dfy` | three linked lists and the entries' fields realizing one policy |
| `RBMutex.dfy`, `RingBuffer.dfy`, `Singleflight.dfy` | three concurrent protocols, as atomic steps of any number of threads |
| `Nibbles.dfy`, `Sketch.dfy`, `PackedSketch.dfy` | the 4-bit count-min sketch: words, counters, and the packed table refining the counters |
| `Bloom.dfy` | the doorkeeper Bloom filter |
| `Recover.dfy` | the insertion rules for restoring a saved cache |
| `Seqs.dfy` | sequence vocabulary shared by the others |

Each imperative component is a class proved against functions on a value (`Timing`, `Policy`, `LruList`,
`Counts`, bits, `Contents`); the promises are lemmas about those functions. Each protocol is a transition
system whose runs interleave any number of participants; the promises hold in every state of every run.

Three promises turned out to be false of the code as it stands, and are stated with the condition under
which they hold; a fourth point is a guard that never acts:

- Lateness of the timer wheel. An entry scheduled when its level-0 tick is already behind the wheel is late
  (`ScheduledBehindSurvives`), until the clock comes round to its bucket, within 63 ticks
  (`ScheduledBehindLingers`). The bound survives a schedule if and only if the tick is not behind
  (`ScheduleOnTimeIff`). `internal/store.go:666` checks this for NEW events; `internal/store.go:693-695` does
  not for UPDATE events.
- Agreement of map and policy with expiries. `removeEntry` sets the removed flag before it re-reads the
  expiry and may then return early (`internal/store.go:559-568`), and the map is changed later than the
  expiry is read. Three concrete runs end in disagreement (`SparedEntryDisagrees`, `DeletedEntryDisagrees`,
  `RefreshedEntryDisagrees`). `AgreementIff` gives the exact condition, entry by entry, in terms of what the
  guards of `sinkWrite` did in the run. A caller keeps agreement by not giving a later expiry to an entry that
  is due but still there (`UnrevivedAgreement`), or by using no expiries (`UntimedAgreement`). The comment at
  `internal/store.go:365-367` states order independence without that exception.
- Delivery by the read buffer. A producer that loses the race at `internal/buffer.go:102` leaves the ring
  full for good (`RingGetsStuck`, `StuckForever`). Until then, and only until then, the ring can still deliver
  (`DeliversIff`), so without more only safety is promised.
- The guard against an oversized candidate at `internal/tlfu.go:329` can never be met while weights are
  non-negative and the accounting is right (`WeightWithinTotal`); the policy is safe without it.

## Model

| member | source | states |
|---|---|---|
| `TimerWheel.LatenessBound` | internal/timerwheel.go:70-133 | Over every run of schedule, deschedule, expiry changes and advances with a monotone clock and no scheduling into a past tick: an entry still in the wheel whose placed expiry is not after the clock is at level 0, in the clock's own 2^30 ns tick, so less than 2^30 ns late; right after an advance that moved the level-0 tick no due entry is left at any level. |
| `TimerWheel.ScheduleOnTimeIff` | internal/timerwheel.go:89-95 | From any timely wheel, scheduling an entry keeps the lateness bound if and only if the entry's level-0 tick is not behind the wheel's; the NEW path checks this, the UPDATE path does not. |
| `TimerWheel.ScheduledBehindSurvives` | internal/timerwheel.go:97-112 | A concrete entry scheduled one tick behind the clock survives the next tick's advance and is late: without the caller's check the bound is false. |
| `TimerWheel.ScheduledBehindLingers` | internal/timerwheel.go:97-133 | In every run, an entry scheduled behind the clock and then left alone stays in the wheel exactly until the clock's level-0 tick comes round to its bucket, always within 63 ticks of the scheduling. |
| `TimerWheel.TargetFits` | internal/timerwheel.go:70-80 | The bucket chosen for a time whose tick is not past satisfies the placement invariant: right slot, and its tick ahead by at most one turn of its level (level 0 may be the current tick, level 4 has no upper bound). |
| `TimerWheel.UnsweptFits` | internal/timerwheel.go:97-112 | An entry in a bucket the advance does not visit still satisfies the placement invariant, and is overdue only at level 0 within an unmoved tick. |
| `TimerWheel.AdvanceTimely` | internal/timerwheel.go:97-133 | An advance keeps every remaining entry placed; if the level-0 tick moved, everything that was due is gone. |
| `TimerWheel.AdvanceConserves` | internal/timerwheel.go:114-133 | Each entry is either handed to remove, because it is due, or stays in exactly one bucket; unless its expiry was changed meanwhile its level does not rise. |
| `TimerWheel.ApplyTimely` | internal/timerwheel.go:82-112 | Every legal operation keeps the placement invariant of every scheduled entry. |
| `TimerWheel.StillAbove` | internal/timerwheel.go:102-109 | When a level's tick stands still so do all coarser ticks, so stopping at the first level that did not move misses nothing. |
| `TimerWheel.BucketHolds` | internal/timerwheel.go:119-131 | In the middle of an advance a bucket list holds exactly the entries that started there plus entries already placed again. |
| `TimerWheel.LookAt` | internal/timerwheel.go:121-129 | Visiting an entry drops it if due and otherwise places it again; visiting one already placed again in this advance changes nothing. |
| `TimerWheel.TimerWheel.FindIndex` | internal/timerwheel.go:70-80 | The loop over the spans returns the bucket of the specification: the lowest level whose next span exceeds the time to go (level 4 beyond all), and the slot of the entry's own tick there. |
| `TimerWheel.TimerWheel.Deschedule` | internal/timerwheel.go:82-87 | Exactly the entry leaves its bucket, the order of the others kept. |
| `TimerWheel.TimerWheel.Schedule` | internal/timerwheel.go:89-95 | The entry is in exactly the chosen bucket, whether or not it was scheduled before. |
| `TimerWheel.TimerWheel.ExpireBucket` | internal/timerwheel.go:121-130 | Scanning one bucket while rescheduled entries are pushed onto the same list visits every entry that started there once and terminates. |
| `TimerWheel.TimerWheel.Expire` | internal/timerwheel.go:114-133 | One level's scan visits exactly the buckets of the passed ticks, at most one turn. |
| `TimerWheel.TimerWheel.Advance` | internal/timerwheel.go:97-112 | The new wheel is the specification's, and the removal callback receives exactly the due visited entries, each once. |
| `Bits.Next2PowerIsLeast` | internal/timerwheel.go:10-20 | For every size from 1 to 2^63 the result is the least power of two not below it: it has a single one bit, is not below the size, and its half is. |
| `Bits.WheelSpans` | internal/timerwheel.go:34-41 | The wheel's spans are 2^30, 2^36, 2^42 and 2^47 nanoseconds. |
| `StoreProtocol.StepKeeps` | internal/store.go:389-459 | Every atomic step of an API call, the clock, event application, expiry or eviction keeps the per-entry invariant of the protocol and the word-wrapped accounting. |
| `StoreProtocol.LiveWeight` | internal/store.go:636-708 | In every reachable state a live entry's weight is its policy weight plus the cost changes still pending, under any delivery order; a difference exists only for an entry that is being expired or that an expiry raced with. |
| `StoreProtocol.QuiescentMember` | internal/store.go:636-708 | With nothing pending, exactly which entries are live and linked: an entry is in the map if and only if no REMOVE was applied to it and its removal was not announced, and a live entry is linked if and only if it was not already due when its NEW was applied. |
| `StoreProtocol.LinkedDeadIff` | internal/store.go:644-669 | In every run, a linked entry is dead (deleted, or announced as removed) if and only if one of two steps happened to it earlier: its REMOVE was ignored because its removed flag was set, or its NEW was applied after its removal. |
| `StoreProtocol.AgreementIff` | cache_correctness_test.go:66-76 | In every quiescent state of every run, the policy lists hold exactly the map's entries, each once and at its current weight, with weightedSize their wrapped total, if and only if no guard of sinkWrite came between an entry and the policy: no live entry was due when its NEW was applied or had weight changes dropped that do not cancel, and to no linked entry did an ignored REMOVE or a late NEW happen. |
| `StoreProtocol.UnrevivedAgreement` | internal/store.go:389-447 | What a caller can do: in every run in which no Set gives a later expiry to an entry that is due but still in the map, every quiescent state has map and policy in agreement and every live entry with an expiry in the wheel, scheduled for that expiry. |
| `StoreProtocol.QuiescentScheduled` | internal/store.go:664-672 | With nothing pending, a live entry with an expiry is in the timer wheel, scheduled for its current expiry, unless an expiry raced with it and spared it; SparedEntryDisagrees ends with such an entry. |
| `StoreProtocol.QuiescentWeightIff` | internal/store.go:666-700 | With nothing pending, a live entry's policy weight equals its weight if and only if the cost changes dropped on it sum to zero, and only an entry spared by a raced expiry has any. |
| `StoreProtocol.UntimedAgreement` | internal/store.go:636-708 | A cache whose Sets carry no expiry satisfies that agreement in every quiescent state of every run. |
| `StoreProtocol.SubMap` | internal/store.go:389-447 | In every reachable state the map is part of what the accepted Sets and Deletes alone would leave. |
| `StoreProtocol.SetHolds` | internal/store.go:389-416 | What a Set means, over every run: while its key stays in the map, the entry has the value and weight of the last Set of the key and the expiry of the last Set that gave one; a Set without an expiry keeps the old one. |
| `StoreProtocol.LinkedIff` | internal/store.go:636-708 | Exactly which steps change the policy lists: an entry is linked after a step if and only if the step applies its NEW while it is neither deleted nor due, or it was linked before and the step is not its eviction, an expiry test that finds it due, or its REMOVE while it is not flagged removed. |
| `StoreProtocol.ScheduledIff` | internal/store.go:664-695 | Exactly which steps put an entry in the timer wheel (the NEW that links it with an expiry, an UPDATE that moved the expiry while it is not flagged removed), always for its expiry at that moment, and which take it out. |
| `StoreProtocol.AnnouncedIff` | internal/store.go:575-615 | Exactly which steps announce a removal: taking the entry itself out of the map for the policy, or applying its REMOVE while it is not flagged removed; once each. |
| `StoreProtocol.KeyLeaves` | internal/store.go:102-113 | In every run a key leaves the map in a step if and only if that is a Delete of the key or the removal of the very entry it maps to, and no step makes it lead to another entry: removing an old entry never touches a newer one. |
| `StoreProtocol.NoticedOnce` | internal/store.go:547-615 | Each entry is announced to the removal listener at most once, never while it is live. |
| `StoreProtocol.DeletedStaysOut` | internal/store.go:636-655 | An entry whose REMOVE was applied while it was unlinked, for instance before its NEW, never enters the policy afterwards. |
| `StoreProtocol.SparedEntryDisagrees` | internal/store.go:558-568 | A concrete run: a Set between the removed flag and the expiry re-read leaves a live entry flagged removed, whose weight update is dropped, so map and policy disagree. |
| `StoreProtocol.FrozenForGood` | internal/store.go:655-659 | In every run, once an entry is flagged removed and its NEW has been applied, the flag is never taken back and its policy weight never changes again. |
| `StoreProtocol.DeletedEntryDisagrees` | internal/store.go:655-659 | The same run continued: deleting the entry does not help, as its REMOVE is ignored too and the policy goes on counting an entry that is in no map. |
| `StoreProtocol.RefreshedEntryDisagrees` | internal/store.go:566-600 | A concrete run: a Set between the expiry test and the map removal, with NEW still pending, leaves the policy counting an entry that is in no map. |
| `RBMutex.StepKeeps` | internal/rbmutex.go:87-205 | Every atomic step of readers and writers keeps the invariant tying slot counters, bias and the inner lock to the threads' positions. |
| `RBMutex.MutualExclusion` | internal/rbmutex.go:87-205 | For any number of threads and every interleaving, while a writer holds the lock there is no other writer and no reader, fast or slow. |
| `RBMutex.SlotsNonNegative` | internal/rbmutex.go:151-161 | Slot counters are never negative and a fast reader's own counter is positive, so RUnlock never reaches its panic. |
| `RBMutex.IdleMeansFree` | internal/rbmutex.go:87-205 | In every run, whenever all threads are idle the lock is free: every slot is 0 and the inner lock is held by nobody. |
| `RBMutex.HeldUpByReader` | internal/rbmutex.go:163-201 | In every run a writer is held up at a slot, or a TryLock rolls back, only because another thread is counted in that slot; a Lock never rolls back. |
| `RBMutex.SoloReader` | internal/rbmutex.go:118-145 | A reader that runs alone while the bias is on holds the lock on the fast path after four steps. |
| `RBMutex.SoloWriter` | internal/rbmutex.go:163-201 | A writer with the inner lock that runs alone with no slot counted holds the lock after at most three steps more than there are slots, by Lock and by TryLock. |
| `RingBuffer.StepKeeps` | internal/buffer.go:85-127 | Every atomic step of a producer keeps the ring invariant on counters, slots, carried items and ownership. |
| `RingBuffer.RingSafety` | internal/buffer.go:85-127 | In every interleaving head <= tail <= head + 16, at most one goroutine has the policy buffer between a successful drain and Free, a batch has at most 16 items, nothing is delivered twice and everything delivered was added. |
| `RingBuffer.DrainTakesAll` | internal/buffer.go:100-118 | In every run a drain delivers every item that was in the ring when it took the policy buffer, except from a slot that a late producer overwrote meanwhile. |
| `RingBuffer.DrainExact` | internal/buffer.go:100-118 | In every run in which no producer stores an item during a drain, the batch is exactly what was in the ring, in order. |
| `RingBuffer.SixteenAdds` | internal/buffer.go:85-118 | From any reachable state with an empty ring and the policy buffer free, sixteen Adds by one goroutine deliver exactly those sixteen new items, in order. |
| `RingBuffer.StuckByRace` | internal/buffer.go:100-106 | A ring becomes stuck, full with nobody to drain it, in a step if and only if that step loses the compare-and-swap for the policy buffer. |
| `RingBuffer.StuckIff` | internal/buffer.go:85-127 | In every state of every run the ring is stuck if and only if some producer has lost that race. |
| `RingBuffer.DeliversIff` | internal/buffer.go:85-155 | Exactly when the ring stops delivering: a run can be continued so that something more is delivered if and only if no producer has lost the race in it. |
| `RingBuffer.RingGetsStuck` | internal/buffer.go:85-127 | A concrete run: one goroutine fills and drains the ring and keeps the policy buffer, another fills it again and loses the race. |
| `RingBuffer.StuckForever` | internal/buffer.go:85-155 | A ring in that state delivers nothing ever again: only safety can be promised. |
| `Singleflight.StepKeeps` | internal/singleflight.go:93-181 | Every step of leaders and joiners, including panics and Goexit, keeps the invariant on references, map, pool and outcomes. |
| `Singleflight.OneExecutionPerKey` | internal/singleflight.go:93-131 | In every interleaving at most one goroutine executes the function of a key. |
| `Singleflight.ReturnsItsExecution` | internal/singleflight.go:93-131 | Whatever Do returned for a key, to leader or joiner, is the result of an execution started for that key, the one the call led or joined. |
| `Singleflight.JoinerHasItsResult` | internal/singleflight.go:98-116 | A joiner about to return holds the outcome of the execution of its own key that it joined, even though the call object may be reused later. |
| `Singleflight.PooledIsFree` | internal/singleflight.go:110-130 | A call object in the pool, or being put there, is out of the map and no goroutine will touch it again. |
| `Singleflight.DoAnswers` | internal/singleflight.go:93-131 | In every run a Do that returns gives its caller exactly the value and error that the function returned in the execution in flight for the key when the call came, or, if there was none, in the execution the caller itself then ran. |
| `Singleflight.FailsIff` | internal/singleflight.go:103-108 | Of the callers that are past waiting, those whose execution did not return panic or exit, and those whose execution returned hold exactly its value and error. |
| `Singleflight.JoinsIff` | internal/singleflight.go:98-129 | In every state of every run an idle goroutine that calls Do for a key joins if and only if some goroutine is executing the function for that key, and otherwise starts an execution. |
| `Singleflight.WaitsIff` | internal/singleflight.go:98-131 | In every run a goroutine inside Do can take its next step, except a joiner exactly while the execution it joined is in flight: nobody waits for nothing, and no object it needs is gone. |
| `LinkedList.List.Insert` | internal/list.go:99-116 | Linking in after the k-th node inserts into the sequence at k, adds weight and count, sets the list's flag, and leaves the other link chain alone. |
| `LinkedList.List.Remove` | internal/list.go:129-141 | Linking out removes exactly that element, subtracts weight and count, clears links and flags, and leaves the other chain alone. |
| `LinkedList.List.PushFront` | internal/list.go:119-121 | The sequence gains the entry at the front. |
| `LinkedList.List.PushBack` | internal/list.go:124-126 | The sequence gains the entry at the back. |
| `LinkedList.List.PopTail` | internal/list.go:192-199 | Returns and removes the last element, or nil when empty. |
| `LinkedList.List.Move` | internal/list.go:144-158 | The ring with one node moved is the sequence with one element moved, len and count untouched. |
| `LinkedList.List.MoveToFront` | internal/list.go:167-172 | The entry becomes the first, the others keep their order. |
| `LinkedList.List.MoveToBack` | internal/list.go:174-179 | The entry becomes the last, the others keep their order. |
| `LinkedList.List.MoveBefore` | internal/list.go:181-186 | The entry stands just before the mark, the others keep their order. |
| `LinkedList.List.MoveAfter` | internal/list.go:188-190 | The entry stands just after the mark, the others keep their order. |
| `LinkedList.List.Contains` | internal/list.go:201-208 | The walk answers membership in the sequence. |
| `LinkedList.List.Entries` | internal/list.go:58-64 | Walking forward from the sentinel meets exactly the sequence. |
| `LinkedList.List.EntriesBackward` | internal/list.go:72-79 | Walking backward meets exactly its reverse. |
| `LinkedList.List.Before` | internal/entry.go:93-98 | PrevPolicy is the previous element, nil at the sentinel. |
| `LinkedList.RingInsert` | internal/list.go:110-113 | The four link writes of an insertion turn the ring of a sequence into the ring of the sequence with the element inserted. |
| `LinkedList.RingRemove` | internal/list.go:130-133 | Taking a node out of the ring takes it out of the sequence. |
| `LinkedList.OtherListKept` | internal/entry.go:121-157 | Any operation on one chain leaves every list on the other chain intact and with the same entries, whatever entries they share. |
| `PolicyLists.PolicyLists.PushFront` | internal/list.go:119-121 | On three linked lists that realize a policy, linking an unlinked entry at the front of a list realizes the policy with the entry linked there: lists, counters, flags, weights and the non-nilness of the previous link all agree, and the other lists are untouched. |
| `PolicyLists.PolicyLists.Unlink` | internal/tlfu.go:205-210 | Taking a linked entry out of the list its flag names realizes the policy with the entry unlinked. |
| `PolicyLists.PolicyLists.FlagsDecide` | internal/list.go:99-141 | In every state that realizes a policy, a list holds an entry if and only if the entry has that list's flag, and an entry is in some list if and only if its previous link is not nil. |
| `TinyLfu.TinyLfu.Set` | internal/tlfu.go:160-174 | From any consistent state, adding an unlinked entry keeps the policy invariant and ends with weightedSize, window and protected each within capacity. The lists arise from the old ones by the resize if a sample was full, pushing the entry onto the window, demoting the shortest needed tail of protected, then that of the window, then evicting what the cursors of each round decide, starting with the first entry pushed out of the window, the last eviction needed; the sample counters restart when a sample is full. |
| `TinyLfu.TinyLfu.EvictFromMain` | internal/tlfu.go:285-347 | Terminates from any consistent state with weightedSize <= capacity. Every eviction happened while the cache was too heavy and hit exactly the entry its two cursors decide by frequency and draw. The first candidate is the entry pushed out of the window, or else the window's back; the cursors of every later round follow from the round before: the candidate before it, none when it met the victim, once the back of the window when those are used up, and the victim the back of the queue whose turn it is. Protected is touched only once probation is empty; everything not evicted stays where it was, in order. |
| `TinyLfu.TinyLfu.EvictNext` | internal/tlfu.go:309-345 | One eviction: the entry evicted is the one the frequencies choose, the victim is still the back of its queue, and the candidate cursor moves to the entry before it, or ends when it met the victim. |
| `TinyLfu.TinyLfu.EvictRound` | internal/tlfu.go:309-345 | Each round keeps the loop invariant: proper cursors that follow from the round before, every eviction so far decided by its own cursors, protected untouched while probation lasts; and one entry fewer is linked. |
| `TinyLfu.TinyLfu.Pass` | internal/tlfu.go:290-345 | One pass through the loop, with the refill of the candidates from the window and the move to the next victim queue, keeps the same invariant, and makes progress unless nothing is left to evict, when the total already fits. |
| `TinyLfu.VictimGone` | internal/tlfu.go:316-318 | After evicting the victim, the entry before it is the new back of its queue, so the cursor is never stale. |
| `TinyLfu.CandidateGone` | internal/tlfu.go:310-313 | After evicting the candidate, the victim is still the back of its queue and the entry before the candidate is still linked. |
| `TinyLfu.CursorsNextQueue` | internal/tlfu.go:296-307 | A victim queue is left only when empty; after the last one nothing is linked and weightedSize is 0. |
| `TinyLfu.WeightWithinTotal` | internal/tlfu.go:329-334 | No linked entry outweighs weightedSize: the branch for an oversized candidate is never taken with non-negative weights. |
| `TinyLfu.TinyLfu.EvictEntries` | internal/tlfu.go:349-352 | Makes window and total fit: first the shortest needed tail of the window moves to probation, then the entries its cursors decide are evicted; the entries are the old ones less the evicted, each once. |
| `TinyLfu.TinyLfu.EvictFromWindow` | internal/tlfu.go:254-265 | Moves exactly the shortest needed tail of the window to probation, in order, and terminates; returns the first entry moved. |
| `TinyLfu.TinyLfu.DemoteFromProtected` | internal/tlfu.go:247-252 | Moves exactly the shortest needed tail of protected to probation, and terminates. |
| `TinyLfu.TinyLfu.Admit` | internal/tlfu.go:267-280 | Admitted if and only if more frequent than the victim, or of frequency at least 6 with a random draw that is a multiple of 128. |
| `TinyLfu.TinyLfu.IncreaseWindow` | internal/tlfu.go:53-79 | Moves entries to the front of the window while they fit, in order, from the back of probation until that does not fit and only then from the back of protected; ends when neither back fits, conserves the entries, and terminates even with zero weights. |
| `TinyLfu.TinyLfu.DecreaseWindow` | internal/tlfu.go:81-97 | Moves entries from the back of the window to probation while they fit, likewise. |
| `TinyLfu.TinyLfu.Climb` | internal/tlfu.go:148-157 | The amount is the one nearest to the proposal that leaves the window a capacity of at least 1 and protected one of at least 0; the sample counters restart. |
| `TinyLfu.TinyLfu.ResizeWindow` | internal/tlfu.go:99-116 | Protected is demoted to its new capacity by the shortest needed tail, then entries are moved as far as whole entries allow, and both capacities change by what was moved. So window.capacity + protected.capacity, window.capacity - window.len and the set of entries are kept; window.capacity stays at least 1 and protected.capacity non-negative; protected fits its capacity up to the amount that could not be moved. |
| `TinyLfu.TinyLfu.Resample` | internal/tlfu.go:161-164 | If and only if a sample is full, climb and resize: the policy is the old one resized by the clamped proposal, with the same conservation laws; otherwise nothing changes. |
| `TinyLfu.TinyLfu.Access` | internal/tlfu.go:182-203 | Keeps the policy invariant and the set of entries. After the resize if a sample was full, an entry of the window or of protected goes to the front of its own list, one of probation to the front of protected, and no other entry moves; an unlinked one changes nothing. |
| `TinyLfu.TinyLfu.Remove` | internal/tlfu.go:205-215 | Exactly that entry leaves its list, the other lists and the order of the rest unchanged, and weightedSize drops by its weight. |
| `TinyLfu.TinyLfu.UpdateCost` | internal/tlfu.go:217-244 | After a weight change of a linked entry the accounting catches up, and the entry is taken out if it can never fit, or else goes to the front of the window or of protected as an access would move it; if the total then fits nothing else moves, otherwise every eviction is decided by the cursors of its round, starting with the first entry pushed out of the window, the last one needed, and the total fits again. |
| `TinyLfu.TouchSound` | internal/slru.go:22-29 | An accessed entry of the window or of protected goes to the front of that list, one of probation to the front of protected, and no other entry moves; every list's len, count and flags stay right. |
| `TinyLfu.ReweighSound` | internal/slru.go:39-45 | Adding the change to the right list and to the total restores the policy invariant after a weight was changed first. |
| `TinyLfu.RemoveSoundly` | internal/tlfu.go:205-211 | Removing a linked entry keeps the policy invariant. |
| `Nibbles.IncCounters` | internal/sketch.go:33-42 | The masked addition is a saturating increment of one 4-bit counter; no carry reaches the other fifteen; the word changes exactly when the counter was below 15. |
| `Nibbles.HalveCounters` | internal/sketch.go:92-92 | Shift and mask halve each of the sixteen counters, rounding down. |
| `Nibbles.OddCount` | internal/sketch.go:90-90 | The population count of the masked word is the number of odd counters. |
| `Sketch.Index` | internal/sketch.go:26-31 | Row k of a hash is one of words 2k and 2k+1 of its block and within the table, so the four rows are in distinct words. |
| `Sketch.BlocksSpread` | internal/sketch.go:44-51 | Two hashes share a block exactly when they agree modulo the number of blocks, and every block is some hash's. |
| `Sketch.SharedIff` | internal/sketch.go:26-51 | Two hashes share the counter of a row if and only if they share the block and choose the same word and position in that row. |
| `Sketch.BumpRow` | internal/sketch.go:44-56 | An addition increments, up to 15, exactly the counters that a row of the hash shares; row j is touched only by row j. |
| `Sketch.RecordExact` | internal/sketch.go:44-66 | Add, counter by counter: with all four counters at 15 nothing happens; before the sample is full exactly the four counters of the hash go up by one, up to 15, and the additions by one; when it fills, every counter ends at half of that. |
| `Sketch.BumpEstimate` | internal/sketch.go:44-57 | Without ageing, adding a hash makes its estimate exactly min(15, old + 1), and some counter changed if and only if the estimate was below 15. |
| `Sketch.BumpGrows` | internal/sketch.go:44-57 | Adding any hash lowers no estimate and raises none by more than one. |
| `Sketch.HalveEstimate` | internal/sketch.go:86-93 | An ageing halves every estimate, rounding down. |
| `Sketch.HalveConserves` | internal/sketch.go:86-94 | The number of odd counters is exactly what halving all counters rounds away. |
| `Sketch.Aged` | internal/sketch.go:86-95 | The unsigned subtraction never goes below zero: an ageing leaves between 3 and 5 additions per word, below the sample size. |
| `Sketch.Step` | internal/sketch.go:44-66 | Every operation keeps additions between 0 and the sample size, so the equality test that starts an ageing is never jumped over. |
| `Sketch.NextPower` | internal/sketch.go:143-147 | Table sizes are the least power of two not below the request. |
| `Sketch.NeverUnder` | internal/sketch.go:44-151 | Over every run of additions, repeated additions and growth, the estimate is at least the ideal aged count: +1 up to 15 per addition, halved at each ageing, zero on growth. |
| `Sketch.ExactWhenPrivate` | internal/sketch.go:44-151 | The estimate equals the ideal aged count as long as one of the four rows is shared with no other added hash. |
| `Sketch.BumpNEstimate` | internal/sketch.go:69-84 | n repeated additions make the estimate exactly min(15, old + n), or leave it for n <= 0. |
| `PackedSketch.HoldsInc` | internal/sketch.go:33-42 | Incrementing one position of a packed word is incrementing that element of its sixteen counters. |
| `PackedSketch.PacksHalf` | internal/sketch.go:88-93 | Halving word by word is halving every counter of the table. |
| `PackedSketch.PickOnto` | internal/sketch.go:26-31 | Every word and every counter of a row can be chosen. |
| `PackedSketch.RowsFree` | internal/sketch.go:44-51 | The four rows choose independently of each other: any four choices come from some rehashed hash. |
| `PackedSketch.RehashUndone` | internal/sketch.go:153-157 | Rehashing can be undone, so no two hashes are rehashed alike. |
| `PackedSketch.Locate` | internal/sketch.go:26-51 | The shifts and masks of the rehashed hash select exactly the four counters of the specification. |
| `PackedSketch.CountMinSketch.Add` | internal/sketch.go:44-66 | The packed sketch does to its counters what the specification says, and returns whether it aged: exactly when the estimate was below 15 and this addition filled the sample of ten per word. |
| `PackedSketch.CountMinSketch.Addn` | internal/sketch.go:69-84 | The loop is the n-fold addition, without touching the addition counter. |
| `PackedSketch.CountMinSketch.Reset` | internal/sketch.go:86-95 | The in-place loop halves every counter and corrects the additions by the odd ones counted. |
| `PackedSketch.CountMinSketch.EstimateOf` | internal/sketch.go:97-137 | Returns the least of the four counters. |
| `PackedSketch.CountMinSketch.EnsureCapacity` | internal/sketch.go:139-151 | Keeps a table that is large enough, and otherwise starts a blank one of the right size. |
| `Bloom.InsertedBits` | internal/bf/bf.go:65-72 | An insertion sets exactly the probed bits, however the probes collide. |
| `Bloom.ProbeSteps` | internal/bf/bf.go:54-72 | The probes of a hash start at its low word and step by its high word, modulo the number of bits, for any power-of-two number of bits. |
| `Bloom.NoFalseNegatives` | internal/bf/bf.go:54-72 | A hash inserted anywhere in a run of insertions is found at its end. |
| `Bloom.FoundIff` | internal/bf/bf.go:54-72 | From a cleared filter, a hash is found if and only if every one of its probes was made for some inserted hash. |
| `Bloom.SetBits` | internal/bf/bf.go:97-104 | Setting a bit of a word sets that bit and no other. |
| `Bloom.Bloomfilter.Insert` | internal/bf/bf.go:65-72 | Returns exactly what Exist would have returned just before, even when probes of the same insertion collide, and inserts the hash. |
| `Bloom.Bloomfilter.Exist` | internal/bf/bf.go:54-61 | Answers whether every probe hits a set bit. |
| `Bloom.Bloomfilter.Reset` | internal/bf/bf.go:75-79 | Clears every bit. |
| `Recover.KeepsPrefix` | internal/store.go:981-1059 | With non-negative weights each list receives exactly a prefix, in saved order, of the unexpired entries saved for it; one is left out only if its list is full even at the end, whatever the order of the blocks. |
| `Recover.RestoredExactly` | internal/store.go:981-1059 | Exactly which saved entries are restored: entry i if and only if it had not expired when decoded and, at that point, window.len < window.capacity, or protected.len + probation.len < maxsize, or protected.len < protected.capacity, for its list. |
| `Recover.RestoredIff` | internal/store.go:992-1059 | One entry: kept under that condition on the fields, and otherwise nothing changes. |
| `Recover.KeptFields` | internal/store.go:992-1059 | A kept entry goes to the back of its list and under its key with all its saved fields, its weight is counted, and it is scheduled if and only if it expires; the other lists stay. |
| `Recover.KeptFrequency` | internal/store.go:992-1004 | Keeping an entry adds exactly its saved frequency to its estimate, up to 15. |
| `Recover.NoneExpired` | internal/store.go:992-1059 | Everything restored is a saved entry that had not expired when it was decoded. |
| `Recover.RestoredWithinBounds` | internal/store.go:981-1059 | When protected is saved before probation, as Persist writes them, every restored list less its last entry is below its bound. |
| `Recover.RestoredGood` | internal/store.go:981-1059 | Restoring entries with distinct keys leaves the policy accounting right, map and lists holding the same entries, the wheel holding those that expire, and every entry's estimate at least its saved frequency (up to 15). |
| `Recover.RecoveredStore` | internal/store.go:945-1060 | KeepsPrefix and RestoredGood, for recovery into an empty store of any capacity. |
| `Recover.RestoresSaved` | internal/store.go:899-905 | Nothing is restored that was not saved. |
| `Recover.Store.Recover` | internal/store.go:945-1060 | The nested loops over blocks and entries restore what the specification says; with a different version nothing changes. |
| `Recover.Store.RecoverEntry` | internal/store.go:992-1004 | One decoded entry: skipped if expired or its list is full, otherwise appended, mapped, scheduled and counted in the sketch. |

## Left out

- Machine integers in the policy and the wheel: sizes, weights and times are unbounded integers, with
  non-negative weights required where the source's unsigned words would otherwise wrap. `StoreProtocol`
  keeps weightedSize as a wrapping 64-bit word, because reordered changes can make it wrap for a moment.
- The float arithmetic of `climb`, `NewTinyLfu` and the Bloom filter's sizing: the proposed amount and the
  sizes are arbitrary integers; only the clamps are modelled.
- The `len` and `count` fields of the wheel's bucket lists: `deschedule` does not maintain them
  (`internal/timerwheel.go:82-87`), so nothing is claimed of them.
- The policy's own algorithms work on identifiers and list values; `PolicyLists` proves that linked lists
  realize the two list operations they are made of, and the algorithms are not repeated on pointers.
- Update in place of the shard maps, entries and locks in `StoreProtocol`, `RBMutex`, `RingBuffer` and
  `Singleflight`: these are transition systems over values, one atomic step at a time, because the claims
  are about interleavings. Atomics are sequentially consistent and counters unbounded.
- PackedSketch.Locate: the mask with `size / 8 - 1` is written as a remainder by `size / 8`, which is the same
  for the power-of-two sizes the table has; the same holds for the Bloom filter's mask.
- PackedSketch.CountMinSketch.EnsureCapacity: rounds up by doubling; that the source's bit smearing gives the
  least power of two is `Bits.Next2PowerIsLeast`.
- The random numbers that let a warm candidate in: a parameter, one draw for each eviction.
- TinyLfu.TinyLfu.Set: requires an entry that is not linked, as line 166 adds its weight unconditionally, and
  whose policy weight is not negative; reordered changes can make it negative for a moment, and then neither
  the size bound nor the termination of the PopTail loops is promised, as an empty list could weigh too much.
  The growth of the sketch at its end is `PackedSketch.CountMinSketch.EnsureCapacity`.
- TinyLfu.TinyLfu.UpdateCost: requires a new weight that is not negative, for the same reason.
- Recover.Store.Recover: starts from decoded blocks with the metadata first, as Persist writes them; decoding
  errors and checksum mismatches are not modelled.
- Encoding, checksums and block framing of saved caches; the secondary cache; entry-pool reuse; loading caches.
- Hashing of keys (any function), the clock (a parameter), statistics and hit counters.
- Goroutines, tickers, channels and Close: replaced by steps that may happen at any time.
- `Buffer.Clear`, `Buffer.items`, debug and display helpers.
