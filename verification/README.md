# hypertimer in Dafny

A model of the core of hypertimer, a JavaScript timer library. It runs a
virtual clock at a chosen rate relative to real time, or in discrete time
where the clock jumps from event to event. On that clock it schedules
timeouts, triggers and intervals.

The project has these parts:

- **`Scheduler`** (scheduler.dfy) is the complete scheduler of
  `dist/hypertimer.js`, written as a pure state machine.
  - Its state holds the variables of the factory's closure: the rate, the running flag, the
    reference pair `hyperTime`/`realTime`, the time-sorted queue, the in-flight set `current`
    and the id counter `idSeq`.
  - The host timer is one `armed` slot. It holds the head time the host timer was armed for,
    and the real delay handed to the host.
  - Two parts of the host's call stack are also in the state. `sweep` holds the entries a
    paced drain (`expired.forEach`) has not yet started. `executing` holds the callbacks that
    have started and not finished. For a discrete drain, each callback also carries the rest
    of its batch, which its `next()` continues with.
  - A callback is never run. `_execTimeout` becomes a start event and a later finish event,
    and any other operation may happen in between, as a re-entrant or asynchronous callback
    allows.
  - Real time (`nowReal`) is a parameter of every operation.
- **`TimerQueue`** (timer_queue.dfy) covers the queue itself.
  - `_queueTimeout` is the stable sorted insert.
  - The id search and `splice` of `clearTimeout`.
  - The expired-prefix split of `onTimeout`.
- **`SchedulerInvariants`** (scheduler_invariants.dfy) collects every input the scheduler
  reacts to as one `Step` function. `Step` drives the corrected operations (`Config`,
  `SetTime`, `Finish`; see "## Findings"), and the module proves that every step keeps this
  corrected scheduler well formed:
  - the queue is sorted;
  - no time is NaN;
  - every entry the scheduler still knows of is held exactly once, under an id below
    `idSeq`, whether it is queued, waiting in a drain, or in a running callback;
  - ids are unique across all those places.

  The as-written `setTime` breaks this (`Findings.InvalidDatePoisonsClock`).
- **`SchedulerProperties`** (scheduler_properties.dfy) holds the properties the operations
  promise:
  - in the corrected scheduler the host timer is armed for the queue's head whenever the
    timer runs with something queued, no paced drain is in progress, and `_schedule` may arm:
    always in paced time, and in discrete time once no callback is in flight. The as-written
    `finish()` breaks this (`Findings.FinishAsWrittenStallsInterval`);
  - the armed real delay reaches the head's time;
  - `list()` has no duplicates;
  - cancelling removes exactly one entry, or suppresses an interval's re-queue;
  - firing takes exactly the due prefix, and a discrete drain runs its batch in order;
  - clock continuity across `config`, `pause` and `continue`.
- **`Findings`** (findings.dfy) holds the runs that show where the source departs from its
  evident intent. See "## Findings".
- **`LegacyClock`** (legacy_clock.dfy) is the clock of the two early prototypes,
  `lib/hypertimer.js` (closure style) and `lib/HyperTimer.js` (prototype style). They keep
  the same four fields and apply the same rules, so one pure record models both.
- **`Shuffle`** (shuffle.dfy) is the in-place Fisher-Yates loop of `lib/util.js`.
  `Math.random()` is replaced by a sequence of draws in [0, 1).
- **`JsNumber`** (js_number.dfy) models JavaScript numbers as `NaN`, `-Infinity`,
  `+Infinity` or an exact real. It gives the IEEE rules for the special values. It also gives
  `Number()` coercion for numbers, Dates, strings, booleans, `null` and `undefined`.
- **`Outcome`** (outcome.dfy) models a thrown `TypeError` or `SyntaxError` as an error
  result.

## Model

| member | source | states |
|---|---|---|
| Scheduler.Schedule | dist/hypertimer.js:496-561 | `_schedule` changes only the armed slot. It does nothing while a discrete drain has callbacks in flight. Otherwise the host timer is armed exactly when the timer runs with a non-empty queue, and it is armed for the head's time. In discrete time the real delay is 0. |
| Scheduler.ParseRateAsWritten | dist/hypertimer.js:141-146 | The rate check as written accepts exactly the string 'discrete' or a number greater than 0, +Infinity included. Anything else is a TypeError. |
| Scheduler.ParseRate | dist/hypertimer.js:141-146 | The corrected rate check accepts exactly 'discrete' or a finite number greater than 0. A rejection is a TypeError. |
| Scheduler.ApplyRate | dist/hypertimer.js:147-159 | A rejected rate leaves the state as it was. An accepted one is reported back as the rate the timer now has. |
| Scheduler.ConfigAsWritten | dist/hypertimer.js:140-160 | `config` as written fails exactly when the as-written check fails, so an infinite rate is applied and reported. |
| Scheduler.Config | dist/hypertimer.js:140-160 | `config` throws exactly for a rejected rate, and then changes nothing. It returns the applied rate. Without a rate only the host timer is rescheduled. `now()` reads the same just before and just after a rate change, and the queue and running flag are kept. |
| Scheduler.ParseTimeAsWritten | dist/hypertimer.js:166-176 | `setTime` as written takes any Date's timestamp unchecked, NaN included. For other values it fails exactly when `Number(time)` is NaN. |
| Scheduler.ParseTime | dist/hypertimer.js:166-176 | The corrected check accepts exactly the values whose number is not NaN. |
| Scheduler.ApplyTime | dist/hypertimer.js:175-179 | An accepted time replaces `hyperTime`, and nothing else changes apart from the host timer. A rejected one changes nothing. |
| Scheduler.SetTimeAsWritten | dist/hypertimer.js:166-180 | Every Date is accepted and its timestamp stored, an invalid Date included. |
| Scheduler.SetTime | dist/hypertimer.js:166-180 | `setTime` fails exactly for a NaN time, and then changes nothing. Otherwise it stores the time and leaves `realTime`, `running`, the queue and the rate as they were. |
| Scheduler.Pause | dist/hypertimer.js:218-225 | After `pause`, `now()` reads the value it read at the pause, at every later real time. The timer is stopped and the host timer disarmed, unless a discrete drain is in progress. |
| Scheduler.Continue | dist/hypertimer.js:207-213 | `continue` re-anchors real time to now and runs, keeping `hyperTime`. It arms the host timer when something is queued, unless a discrete drain is in progress. |
| Scheduler.Submit | dist/hypertimer.js:269-277 | Queueing then rescheduling changes only the queue, by the sorted insert, and the armed slot. |
| Scheduler.SetTimeout | dist/hypertimer.js:261-280 | The id is consumed even when the call throws. It throws exactly when `now() + delay` is NaN. On success it returns the old counter and queues a TIMEOUT due at `now() + delay`. |
| Scheduler.SetTrigger | dist/hypertimer.js:293-312 | The id is consumed even when the call throws. It throws exactly when `Number(time)` is NaN. On success it queues a TRIGGER due at that time. |
| Scheduler.ClampPeriod | dist/hypertimer.js:337-339 | A negative or infinite interval becomes 0. Any other interval is kept, so the period is always finite and non-negative. |
| Scheduler.SetInterval | dist/hypertimer.js:330-368 | The id is consumed even when the call throws. It throws exactly for a NaN interval, or a NaN `firstTime` that is not null or undefined. The first due time is `firstTime`, or else `now()` plus the clamped period. |
| Scheduler.ClearTimeout | dist/hypertimer.js:374-392 | An in-flight id is only removed from `current`. Otherwise the first queued entry with that id is spliced out and the timer rescheduled. An id that is neither in flight nor queued changes nothing, not even the armed slot. |
| Scheduler.Clear | dist/hypertimer.js:415-422 | After `clear()` the queue, `list()` and the in-flight set are empty and the host timer is disarmed. |
| Scheduler.Start | dist/hypertimer.js:457-460 | Starting a callback adds its id to `current` and its entry to the running callbacks, and changes nothing else. |
| Scheduler.Next | dist/hypertimer.js:538-548 | `next()` of a discrete drain never changes the queue. With entries left in the batch it starts the first one, carrying the rest of the batch, and adds its id to `current`. With none left it reschedules: when no drain is busy, the host timer is then armed exactly when the timer runs with something queued, and for the head's time. |
| Scheduler.Fire | dist/hypertimer.js:518-557 | `onTimeout` removes the expired prefix from the queue. In discrete time the clock jumps to the armed head time, the host timer is left unarmed, and the first expired entry starts with the rest of the batch as its continuation: it joins the running callbacks and its id joins `current`. In paced time the whole batch goes to the sweep and the clock is untouched. |
| Scheduler.SweepStep | dist/hypertimer.js:553-556 | The paced drain starts its entries one by one, detached. Once all have started it ends and reschedules: when no drain is busy, the host timer is then armed exactly when the timer runs with something queued, and for the head's time. |
| Scheduler.Rearmed | dist/hypertimer.js:466 | A re-queued interval keeps its id and kind, and its time grows by exactly its interval. |
| Scheduler.Complete | dist/hypertimer.js:462-474 | A finishing callback re-queues its entry exactly when it is an interval still in `current`. The callback leaves `executing` and its id leaves `current`. A discrete drain with entries left starts the next one in its place. Nothing else changes apart from the host timer. |
| Scheduler.FinishAsWritten | dist/hypertimer.js:462-474 | `finish()` as written re-queues such an interval and retires the callback the same way, but for a detached callback it leaves the armed slot as it was. |
| Scheduler.Finish | dist/hypertimer.js:462-474 | Timeouts, triggers and intervals cancelled in flight are never re-queued. An interval still in flight is re-queued one interval later. The callback is retired as in `Complete`. Unless a discrete drain moves on to its next entry, the host timer is afterwards armed for the head whenever `_schedule` may arm. |
| Scheduler.CreateAsWritten | dist/hypertimer.js:570-574 | The factory as written fails exactly when the as-written rate check fails. Otherwise the new timer has the rate option as that check reads it (rate 1 by default), so `rate: Infinity` gives a running timer with an infinite rate. |
| Scheduler.Create | dist/hypertimer.js:570-574 | The factory with the corrected `config` fails exactly for a rejected rate, `rate: Infinity` included. Otherwise the timer runs, reads the current real time, has nothing queued or in flight, and has the rate option as the corrected check reads it, or rate 1 by default. |
| TimerQueue.Ids | dist/hypertimer.js:406-410 | `list()` gives the ids of the queued entries, in queue order. |
| TimerQueue.InsertPos | dist/hypertimer.js:432-436 | The backward scan stops right after the last entry whose time is not later than the new one. Every entry from the insert position on is later. On a sorted queue, every entry before it is not later (see `EnqueueSplicesAfterTies`). |
| TimerQueue.Enqueue | dist/hypertimer.js:430-447 | The insert adds exactly the new entry. |
| TimerQueue.EnqueueSplicesAfterTies | dist/hypertimer.js:430-447 | On a sorted queue the new entry is spliced in after every entry of equal or earlier time and before every later one. Nothing else moves, and the queue stays sorted. |
| TimerQueue.IndexOf | dist/hypertimer.js:382-383 | The search finds the first entry with the id, or reports that none has it. |
| TimerQueue.RemoveAt | dist/hypertimer.js:385 | `splice(i, 1)` removes exactly one occurrence of the entry at `i`. |
| TimerQueue.RemoveKeepsOrder | dist/hypertimer.js:385 | Removing an entry keeps the queue sorted and the others in their relative order. |
| TimerQueue.ExpiredCount | dist/hypertimer.js:526-529 | The scan stops at the first entry that is neither due nor infinite. |
| TimerQueue.ExpiredSplit | dist/hypertimer.js:526-531 | On a sorted queue, every entry left after the batch is due strictly later than the firing time, and a due head is in the batch. |
| SchedulerInvariants.StepKeepsWellFormed | dist/hypertimer.js:140-561 | Every event the application or the host can deliver keeps the corrected scheduler well formed. |
| SchedulerInvariants.CreateIsWellFormed | dist/hypertimer.js:570-574 | A new timer is well formed. |
| SchedulerInvariants.FireKeepsWF | dist/hypertimer.js:518-557 | Firing keeps every entry held exactly once. The batch moves from the queue into the drain or into the running callbacks. |
| SchedulerInvariants.FinishKeepsWF | dist/hypertimer.js:462-474 | Finishing a callback keeps every entry held exactly once: its entry is dropped, or replaced by its re-queued successor under the same id. |
| SchedulerInvariants.ClearTimeoutKeepsWF | dist/hypertimer.js:374-392 | Cancelling keeps the scheduler well formed. |
| SchedulerInvariants.SetIntervalKeepsWF | dist/hypertimer.js:330-368 | Setting an interval keeps the scheduler well formed. |
| SchedulerInvariants.NowIsNumber | dist/hypertimer.js:187-202 | On a well-formed timer `now()` is never NaN. |
| SchedulerInvariants.FinishRetiresId | dist/hypertimer.js:462-474 | On a well-formed timer, the id of a finished callback is no longer in `current`, even when its discrete drain starts the next entry. So a later `clearTimeout` of a re-queued interval finds it in the queue. `executing` shrinks by one, or keeps its length when the drain moves on. |
| SchedulerProperties.StepKeepsArmedOnHead | dist/hypertimer.js:496-561 | In the corrected scheduler, the host timer is armed for the head's time whenever the timer runs with something queued and no paced drain is in progress. This holds always in paced time, and in discrete time once no callback is in flight, which is when the comment at lines 497-499 promises `_schedule` runs again. Every event keeps this true. |
| SchedulerProperties.ScheduleArmsHead | dist/hypertimer.js:504-514 | Every reschedule leaves the host timer armed for the head, in paced and in discrete time. |
| SchedulerProperties.FinishArmsHead | dist/hypertimer.js:462-474 | The corrected `finish()` keeps the host timer armed for the head, in paced time and, once no callback is in flight, in discrete time. |
| SchedulerProperties.CreateArmsHead | dist/hypertimer.js:570-574 | A new timer starts with the host timer following the head. |
| SchedulerProperties.FinishMovesDrainOn | dist/hypertimer.js:538-548 | A discrete drain runs its batch serially and in order. When a callback finishes, the next entry of the batch starts with the rest behind it, and the finished id is no longer in flight. When the batch is done and nothing else is in flight, the host timer is armed for the head. |
| SchedulerProperties.ArmedDelayReachesTarget | dist/hypertimer.js:514-516 | In paced time, `now()` read after the armed real delay has passed equals the head's time. |
| SchedulerProperties.ListHasNoDuplicates | dist/hypertimer.js:406-410 | `list()` never repeats an id. |
| SchedulerProperties.SetTimeoutReturnsFreshId | dist/hypertimer.js:261-280 | The id `setTimeout` returns was not listed before the call, and is listed after it. |
| SchedulerProperties.CancelQueuedRemovesIt | dist/hypertimer.js:381-391 | Cancelling a queued id removes it from `list()` and removes exactly one entry. Every other entry stays, and the queue stays sorted. |
| SchedulerProperties.CancelHeadRetargets | dist/hypertimer.js:385-388 | Cancelling the head of a running paced timer re-arms the host timer for the next entry, also in the middle of a paced drain. |
| SchedulerProperties.CancelInFlightSuppressesRearm | dist/hypertimer.js:376-379 | Cancelling an in-flight id leaves the queue untouched, and the later finish does not re-queue it. |
| SchedulerProperties.FinishRearmsInterval | dist/hypertimer.js:465-468 | An interval still in flight is found in the queue after it finishes, due one interval later, and the queue stays sorted. |
| SchedulerProperties.FireTakesDuePrefix | dist/hypertimer.js:526-531 | Firing for the head's time takes a non-empty prefix that contains the head. Batch ++ remainder is the old queue, and everything left is due later. |
| SchedulerProperties.PauseThenContinueResumes | dist/hypertimer.js:207-225 | Continuing after a pause resumes from the value read at the pause. |
| SchedulerProperties.DiscreteClockStandsStill | dist/hypertimer.js:188-189 | In discrete time `now()` is `hyperTime` at every real time. |
| SchedulerProperties.ConfigReportsAppliedRate | dist/hypertimer.js:156-159 | A later `config()` without options reports the rate last applied. |
| SchedulerProperties.SetTimeKeepsRealAnchor | dist/hypertimer.js:166-180 | While running at a rate, `now()` right after `setTime(t)` is `t` only when no real time has passed since the last re-anchor. |
| Findings.FinishAsWrittenStallsInterval | dist/hypertimer.js:462-471 | On a reachable, well-formed state, `finish()` as written re-queues an interval with no host timer armed. The corrected `Finish` arms it. |
| Findings.FinishAsWrittenStallsDiscreteInterval | dist/hypertimer.js:462-474 | The same state after `config({rate: 'discrete'})` is well formed. There, `finish()` as written leaves the interval queued with nothing in flight and nothing armed. The corrected `Finish` arms the host timer for it. |
| Findings.StalledIsReachable | dist/hypertimer.js:330-368 | That state is what `setInterval`, one firing and its drain produce on a new timer. |
| Findings.InfiniteRateMakesNowNaN | dist/hypertimer.js:143-149 | `config` as written accepts an infinite rate, after which `now()` read at the same real time is NaN. The corrected `Config` refuses it and keeps the timer. |
| Findings.CreateAsWrittenTakesInfiniteRate | dist/hypertimer.js:570-574 | The factory as written accepts `rate: Infinity` and returns a timer whose `now()` is NaN at its creation instant. The corrected factory refuses it. |
| Findings.InvalidDatePoisonsClock | dist/hypertimer.js:167-168 | `setTime` as written accepts an invalid Date. `now()` is then NaN, `setTimeout` throws, and `setInterval` queues a NaN entry that breaks well-formedness. The corrected `SetTime` refuses it. |
| LegacyClock.Config | lib/hypertimer.js:46-62 | `config` throws TypeError exactly for a rate whose number is NaN. Otherwise it sets that rate, 0, negatives and infinities included, and changes nothing else. Without a rate it changes nothing. |
| LegacyClock.Set | lib/hypertimer.js:68-80 | `set` accepts only a Date or a number and stores its value. `realTime` and `running` are untouched, and any other type throws TypeError. |
| LegacyClock.Continue | lib/hypertimer.js:85-90 | `continue` re-anchors real time and runs. |
| LegacyClock.Pause | lib/hypertimer.js:95-101 | After `pause` the clock is stopped and reads the captured time at every later real time. |
| LegacyClock.SetTimeoutDelay | lib/hypertimer.js:178-194 | A delay is accepted exactly when it is a number or a Date. Any other type throws TypeError. For a finite non-zero rate, the real delay is the number divided by the rate, or the Date's distance from the stored `hyperTime` divided by the rate. A NaN delay gives NaN. |
| LegacyClock.SetTimeoutDelayInverts | lib/hypertimer.js:183-190 | Multiplying the real delay by a finite non-zero rate gives back the hyper-time delay. For a Date, this is the distance from the stored `hyperTime`. |
| LegacyClock.Create | lib/hypertimer.js:129-134 | The options are applied first, then the time is set to now, then the clock runs. The rate defaults to 1, and a finite-rate clock reads the current real time. |
| LegacyClock.Construct | lib/HyperTimer.js:11-29 | Calling the constructor without `new` throws SyntaxError. Otherwise it builds the same clock as the factory. |
| LegacyClock.RunningTimeIsLinear | lib/HyperTimer.js:119-125 | While running, the reading advances by exactly `rate` times the elapsed real time, for any finite rate, 0 and negatives included. |
| LegacyClock.PausedTimeIsFrozen | lib/HyperTimer.js:126-128 | A paused clock reads its stored `hyperTime` at every real time. |
| LegacyClock.ContinueResumesFromPause | lib/HyperTimer.js:96-112 | `continue` after `pause` runs and resumes from exactly the paused value. |
| LegacyClock.ConfigIsRetroactive | lib/hypertimer.js:46-55 | A rate change does not re-anchor. A running clock's reading jumps unless the rate is the same, or no real time has passed. |
| Shuffle.Pick | lib/util.js:32 | `Math.floor(Math.random() * i)` is an index below `i`. |
| Shuffle.Swap | lib/util.js:32 | The exchange moves the two elements and nothing else. |
| Shuffle.ShuffleInPlace | lib/util.js:31-34 | `shuffle` returns the very array it was given, which now holds the reference shuffle of its old contents. |
| Shuffle.ShuffleCopy | lib/util.js:31-34 | The shuffled array has the same length and the same multiset of elements. |
| Shuffle.ShufflePermutes | lib/util.js:32 | Every run of the loop is a permutation. |
| Shuffle.ShuffleFixesTail | lib/util.js:32 | Once the counter is at `i`, the positions from `i` on are never touched again. |
| Shuffle.LastPositionTakesFirstPick | lib/util.js:32 | The last position receives the element the first draw picks, from the whole array. |
| Shuffle.ShortArrayUnchanged | lib/util.js:32 | An empty or one-element array comes back unchanged. |

## Left out

- Floating point. Numbers are exact reals with IEEE special values, so rounding, signed zero
  and the sign of the infinity from dividing by -0 are not modelled.
- Date objects and their conversions. This covers `getTime()`, `toString()`, `valueOf()` and
  the legacy `now()`. Each of these only wraps `now()` (or `time()`/`get()`) in a `Date`, so
  the model's `Now`/`Time` is the value they carry. A Date argument is its timestamp.
- String-to-number parsing. A string argument carries the number `Number()` gives it.
- Objects other than Dates, such as plain objects, arrays and functions. `Number()` of an
  object goes through its `valueOf`/`toString`, which is not modelled. Such an argument can
  only be stood in for by its number, e.g. a string whose number is NaN for `setTime({})`.
- The real clock `nowReal` is a parameter of every operation, and `Math.random()` is a
  sequence of draws.
- The host `setTimeout`/`clearTimeout` become the armed slot, which holds the computed delay.
  The host's clamping of long or infinite delays is not modelled.
- Callbacks are not run. The arity check, the try/catch that swallows a throwing callback,
  and the callbacks' own effects are out. A callback is only its start and finish events.
- The delay of `setTimeout` in the scheduler is a number. A non-number delay would make `+`
  concatenate strings, which is not modelled.
- The legacy prototypes' `setTimeout` arms a host timer and returns its handle, and their
  `clearTimeout` cancels it. Only the delay they compute is modelled, because both pass
  straight through to the host.
- The synchronization modules, the webpack bootstrap and the examples are not part of this
  model.
- LegacyClock.RunningTimeIsLinear: stated only for finite rate and timestamps. An infinite
  rate makes the reading NaN or infinite, and `Time` computes that, but no lemma states it.
- LegacyClock.ContinueResumesFromPause: stated for a finite rate only. With an infinite
  rate, the first reading after `continue` is `hyperTime + 0 * Infinity`, which is NaN.
- LegacyClock.SetTimeoutDelayInverts: stated for a finite non-zero rate only. With rate 0
  the delay is infinite or NaN.
- SchedulerProperties.ArmedDelayReachesTarget: stated for finite times only. An infinite
  head is armed with an infinite delay.
- `finish()` running twice for one start. A one-argument callback that calls `done()` and
  then throws reaches `finish()` again through the `catch`. In discrete time that calls
  `next()` twice. The model lets each start finish exactly once, because the callback's own
  behaviour is not modelled.

## Findings

| source | as written | input that shows it | evidently intended | confidence | as-written member | corrected member |
|---|---|---|---|---|---|---|
| dist/hypertimer.js:465-471 | `finish()` re-queues an interval still in flight but does not call `_schedule()`. In paced time, when the callback finishes after the drain has already rescheduled (an asynchronous callback), the host timer stays unarmed with the interval queued, so it never fires again until some unrelated call reschedules. The same happens in discrete time when such a callback finishes after a switch to discrete time: nothing is then in flight, yet nothing is armed. | On a new timer at real time t: `setInterval(cb, p)` with p > 0 and an asynchronous cb; the host timer fires at t + p; cb finishes later, optionally after `config({rate: 'discrete'})`. The queue then holds the interval due at t + 2p and nothing is armed. | Reschedule after the re-queue, as every other queue change does. A callback that is not part of a discrete drain reschedules once its id has left `current`, so that, as the comment at lines 497-499 says, `_schedule` runs again when the callbacks in flight are finished. | not executed | Scheduler.FinishAsWritten, shown by Findings.FinishAsWrittenStallsInterval and Findings.FinishAsWrittenStallsDiscreteInterval | Scheduler.Finish, with SchedulerProperties.FinishArmsHead and SchedulerProperties.StepKeepsArmedOnHead |
| dist/hypertimer.js:143-149 | `config` accepts `rate: Infinity`, because its guard only rejects NaN and numbers up to 0. A `now()` in the same real millisecond computes `hyperTime + 0 * Infinity`, which is NaN; any later one is +Infinity. Either way the clock no longer reads a time. The factory passes its options through the same `config`. | `config({rate: Infinity})` on a new timer, or `hypertimer({rate: Infinity})`. | Accept only finite positive rates, so the clock stays a number. | not executed | Scheduler.ConfigAsWritten and Scheduler.CreateAsWritten, shown by Findings.InfiniteRateMakesNowNaN and Findings.CreateAsWrittenTakesInfiniteRate | Scheduler.Config and Scheduler.Create, with SchedulerInvariants.StepKeepsWellFormed |
| dist/hypertimer.js:167-168 | `setTime` takes any Date's timestamp unchecked. An invalid Date sets `hyperTime` to NaN, after which `now()` is NaN and every `setTimeout` throws. | `setTime(new Date(NaN))` on a new timer, then `setTimeout(cb, p)` or `setInterval(cb, p)`. | Reject an invalid Date with the same TypeError as a NaN number. | not executed | Scheduler.SetTimeAsWritten, shown by Findings.InvalidDatePoisonsClock | Scheduler.SetTime, with SchedulerInvariants.StepKeepsWellFormed |
