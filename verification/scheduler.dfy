/** The virtual-clock scheduler of dist/hypertimer.js (the `hypertimer`
    factory of its module 1), as a state machine over immutable states.

    Every public operation is a function from a state, its arguments and the
    current real time (`nowReal`, the host clock) to a new state. The host
    timer is a single `armed` slot. A callback is not run: `_execTimeout` is
    split into a start event, which puts the entry in flight, and a finish
    event, which may come at any later point, after any other event, as a
    re-entrant or asynchronous callback allows.

    Three operations differ from the source as written, each kept beside its
    as-written twin (`FinishAsWritten`, `ConfigAsWritten`, `SetTimeAsWritten`):
    see the module Findings for the inputs that tell them apart. */
module Scheduler {
  import opened JsNumber
  import opened Outcome
  import opened TimerQueue

  /** The `rate` option: hyper-milliseconds per real millisecond, or
      'discrete' to jump from event to event. */
  datatype Rate = Discrete | Paced(perMs: Num)

  /** The armed host timer: `target` is the head time captured when it was
      armed (the `time` closed over by `onTimeout`), `realDelay` the delay in
      real milliseconds handed to the host `setTimeout`. */
  datatype Wait = Wait(target: Num, realDelay: Num)

  /** What runs when a started callback finishes: nothing, for callbacks the
      paced drain starts, or `next()` of a discrete drain over the entries of
      its batch that have not started yet. */
  datatype Continuation = Detached | Serial(rest: seq<Entry>)

  /** A callback that has started and not finished. */
  datatype Exec = Exec(entry: Entry, cont: Continuation)

  /** The variables of the factory's closure, plus two parts of the host's
      stack that the source keeps in local variables: `sweep`, the entries a
      paced drain (`expired.forEach`) has yet to start, present only while it
      runs; and `executing`, the callbacks started and not finished. */
  datatype State = State(
    rate: Rate,
    running: bool,
    hyperTime: Num,
    realTime: Num,
    queue: seq<Entry>,
    current: set<int>,
    idSeq: nat,
    armed: Option<Wait>,
    sweep: Option<seq<Entry>>,
    executing: seq<Exec>)

  /** A public operation that can throw returns its new state either way. */
  datatype Reply<T> = Reply(state: State, result: Result<T>)

  /** JavaScript `null` as arithmetic coerces it: the reference real time
      while paused, and both timestamps until construction ends. */
  const Null: Num := Fin(0.0)

  /** The closure's variables before the options are applied. */
  const Initial: State := State(Paced(Fin(1.0)), false, Null, Null, [], {}, 0, None, None, [])

  /** `now()` */
  function Now(s: State, nowReal: real): Num {
    if s.rate.Discrete? then s.hyperTime
    else if s.running then Add(s.hyperTime, Mul(Sub(Fin(nowReal), s.realTime), s.rate.perMs))
    else s.hyperTime
  }

  /** `list()` */
  function List(s: State): seq<nat> {
    Ids(s.queue)
  }

  /** A discrete drain is in progress: `_schedule` must not arm. */
  predicate Busy(s: State) {
    s.rate.Discrete? && s.current != {}
  }

  /** `_schedule()`: cancel the host timer and, when running with a non-empty
      queue, re-arm it for the head entry. Only the armed slot changes. */
  function Schedule(s: State, nowReal: real): (r: State)
    ensures r.(armed := s.armed) == s
    ensures Busy(s) ==> r == s
    ensures !Busy(s) ==> (r.armed.Some? <==> s.running && |s.queue| > 0)
    ensures !Busy(s) && r.armed.Some? ==> r.armed.value.target == s.queue[0].time
    ensures !Busy(s) && r.armed.Some? && s.rate.Discrete? ==> r.armed.value.realDelay == Fin(0.0)
  {
    if Busy(s) then s
    else if s.running && |s.queue| > 0 then
      var time := s.queue[0].time;
      var delay := Sub(time, Now(s, nowReal));
      var realDelay := if s.rate.Discrete? then Fin(0.0) else Div(delay, s.rate.perMs);
      s.(armed := Some(Wait(time, realDelay)))
    else
      s.(armed := None)
  }

  predicate IsDiscreteString(v: Value) {
    v.StrV? && v.text == "discrete"
  }

  /** The rate check of `config` as written: 'discrete', or any number
      greater than zero, infinity included. */
  function ParseRateAsWritten(v: Value): (r: Result<Rate>)
    ensures r.Ok? <==> IsDiscreteString(v) || Less(Fin(0.0), ToNumber(v))
    ensures r.Ok? && !IsDiscreteString(v) ==> r.value == Paced(ToNumber(v))
    ensures r.Err? ==> r.error.TypeError?
  {
    if IsDiscreteString(v) then Ok(Discrete)
    else
      var n := ToNumber(v);
      if n.NaN? || AtMost(n, Fin(0.0)) then Err(TypeError("rate must be a positive number or the string \"discrete\""))
      else Ok(Paced(n))
  }

  /** The rate check of `config`, also refusing an infinite rate. */
  function ParseRate(v: Value): (r: Result<Rate>)
    ensures r.Ok? <==> IsDiscreteString(v) || (ToNumber(v).Fin? && ToNumber(v).val > 0.0)
    ensures r.Ok? && IsDiscreteString(v) ==> r.value == Discrete
    ensures r.Ok? && !IsDiscreteString(v) ==> r.value == Paced(ToNumber(v))
    ensures r.Err? ==> r.error.TypeError?
  {
    var checked := ParseRateAsWritten(v);
    if checked.Ok? && checked.value.Paced? && !checked.value.perMs.Fin? then
      Err(TypeError("rate must be a positive number or the string \"discrete\""))
    else checked
  }

  /** The body of `config` once its rate option is checked: snapshot `now()`
      under the old rate, re-anchor real time, switch rate, reschedule. */
  function ApplyRate(s: State, checked: Option<Result<Rate>>, nowReal: real): (r: Reply<Rate>)
    ensures r.result.Err? <==> checked.Some? && checked.value.Err?
    ensures r.result.Err? ==> r.state == s
    ensures r.result.Ok? ==> r.result.value == r.state.rate
  {
    match checked
    case None =>
      var t := Schedule(s, nowReal);
      Reply(t, Ok(t.rate))
    case Some(Err(e)) =>
      Reply(s, Err(e))
    case Some(Ok(rate)) =>
      var t := Schedule(s.(hyperTime := Now(s, nowReal), realTime := Fin(nowReal), rate := rate), nowReal);
      Reply(t, Ok(t.rate))
  }

  /** `config(options)` as written: an infinite rate is accepted. */
  function ConfigAsWritten(s: State, rate: Option<Value>, nowReal: real): (r: Reply<Rate>)
    ensures r.result.Err? <==> rate.Some? && ParseRateAsWritten(rate.value).Err?
    ensures rate.Some? && !IsDiscreteString(rate.value) && ToNumber(rate.value) == PosInf ==>
      r.result == Ok(Paced(PosInf))
  {
    ApplyRate(s, if rate.Some? then Some(ParseRateAsWritten(rate.value)) else None, nowReal)
  }

  /** `config(options)`, where `rate` is the value of the `rate` key (None when
      there are no options or no such key). It returns the applied rate; on a
      rejected rate it throws before changing anything; and the hyper-time
      does not jump at the instant the rate changes. */
  function Config(s: State, rate: Option<Value>, nowReal: real): (r: Reply<Rate>)
    ensures r.result.Err? <==> rate.Some? && ParseRate(rate.value).Err?
    ensures r.result.Err? ==> r.state == s && r.result.error.TypeError?
    ensures r.result.Ok? ==> r.result.value == r.state.rate
    ensures r.result.Ok? && rate.Some? ==> r.state.rate == ParseRate(rate.value).value
    ensures rate.None? ==> r.state.(armed := s.armed) == s
    ensures r.result.Ok? ==> Now(r.state, nowReal) == Now(s, nowReal)
    ensures r.result.Ok? ==> r.state.queue == s.queue && r.state.running == s.running
  {
    var t := ApplyRate(s, if rate.Some? then Some(ParseRate(rate.value)) else None, nowReal);
    AddZero(Now(s, nowReal));
    t
  }

  /** The time check of `setTime` as written: a Date is taken as it is, even
      an invalid one (whose timestamp is NaN); anything else must coerce to a
      number other than NaN. */
  function ParseTimeAsWritten(v: Value): (r: Result<Num>)
    ensures v.DateV? ==> r == Ok(v.stamp)
    ensures !v.DateV? ==> (r.Ok? <==> !ToNumber(v).NaN?)
    ensures r.Ok? ==> r.value == ToNumber(v)
  {
    if v.DateV? then Ok(v.stamp)
    else
      var n := ToNumber(v);
      if n.NaN? then Err(TypeError("time must be a Date or number")) else Ok(n)
  }

  /** The time check of `setTime`, also refusing an invalid Date. */
  function ParseTime(v: Value): (r: Result<Num>)
    ensures r.Ok? <==> !ToNumber(v).NaN?
    ensures r.Ok? ==> r.value == ToNumber(v)
    ensures r.Err? ==> r.error.TypeError?
  {
    var n := ToNumber(v);
    if n.NaN? then Err(TypeError("time must be a Date or number")) else Ok(n)
  }

  /** The body of `setTime` once its argument is checked: replace the
      hyper-time, keep the reference real time, reschedule. */
  function ApplyTime(s: State, checked: Result<Num>, nowReal: real): (r: Reply<()>)
    ensures checked.Err? ==> r.state == s && r.result.Err?
    ensures checked.Ok? ==> r.result.Ok? && r.state.hyperTime == checked.value
    ensures checked.Ok? ==> r.state.(hyperTime := s.hyperTime, armed := s.armed) == s
  {
    match checked
    case Err(e) => Reply(s, Err(e))
    case Ok(t) => Reply(Schedule(s.(hyperTime := t), nowReal), Ok(()))
  }

  /** `setTime(time)` as written: every Date is accepted, an invalid one
      (timestamp NaN) included. */
  function SetTimeAsWritten(s: State, time: Value, nowReal: real): (r: Reply<()>)
    ensures time.DateV? ==> r.result.Ok? && r.state.hyperTime == time.stamp
    ensures !time.DateV? ==> (r.result.Err? <==> ToNumber(time).NaN?)
  {
    ApplyTime(s, ParseTimeAsWritten(time), nowReal)
  }

  /** `setTime(time)`: the new hyper-time is the argument's numeric value;
      because the reference real time is not reset, while running at a rate
      `now()` reads it plus the real time elapsed since the last re-anchor,
      times the rate. */
  function SetTime(s: State, time: Value, nowReal: real): (r: Reply<()>)
    ensures r.result.Err? <==> ToNumber(time).NaN?
    ensures r.result.Err? ==> r.state == s
    ensures r.result.Ok? ==> r.state.hyperTime == ToNumber(time)
    ensures r.result.Ok? ==> r.state.realTime == s.realTime && r.state.running == s.running
    ensures r.result.Ok? ==> r.state.queue == s.queue && r.state.rate == s.rate
  {
    ApplyTime(s, ParseTime(time), nowReal)
  }

  /** `pause()`: freeze `now()` at its current value, then reschedule, which
      disarms the host timer unless a discrete drain is in progress. */
  function Pause(s: State, nowReal: real): (r: State)
    ensures !r.running && r.rate == s.rate && r.queue == s.queue
    ensures forall later: real :: Now(r, later) == Now(s, nowReal)
    ensures !Busy(s) ==> r.armed.None?
  {
    Schedule(s.(hyperTime := Now(s, nowReal), realTime := Null, running := false), nowReal)
  }

  /** `continue()`: re-anchor real time, run, reschedule. */
  function Continue(s: State, nowReal: real): (r: State)
    ensures r.running && r.rate == s.rate && r.queue == s.queue && r.hyperTime == s.hyperTime
    ensures r.realTime == Fin(nowReal)
    ensures !Busy(s) && |s.queue| > 0 ==> r.armed.Some?
  {
    Schedule(s.(realTime := Fin(nowReal), running := true), nowReal)
  }

  /** Queue an entry built from the reserved id and reschedule. */
  function Submit(s: State, e: Entry, nowReal: real): (r: State)
    ensures r.(armed := s.armed, queue := s.queue) == s
    ensures r.queue == Enqueue(s.queue, e)
  {
    Schedule(s.(queue := Enqueue(s.queue, e)), nowReal)
  }

  /** `setTimeout(callback, delay)`: the id is taken before the check, so a
      rejected call still consumes one. The entry is due at `now() + delay`. */
  function SetTimeout(s: State, delay: Num, nowReal: real): (r: Reply<nat>)
    ensures r.state.idSeq == s.idSeq + 1
    ensures r.result.Err? <==> Add(Now(s, nowReal), delay).NaN?
    ensures r.result.Err? ==> r.state == s.(idSeq := s.idSeq + 1) && r.result.error.TypeError?
    ensures r.result.Ok? ==> r.result.value == s.idSeq
    ensures r.result.Ok? ==> r.state.queue == Enqueue(s.queue, Entry(s.idSeq, Timeout, Add(Now(s, nowReal), delay)))
  {
    var id := s.idSeq;
    var reserved := s.(idSeq := s.idSeq + 1);
    var timestamp := Add(Now(s, nowReal), delay);
    if timestamp.NaN? then Reply(reserved, Err(TypeError("delay must be a number")))
    else Reply(Submit(reserved, Entry(id, Timeout, timestamp), nowReal), Ok(id))
  }

  /** `setTrigger(callback, time)`: due at the absolute time `Number(time)`. */
  function SetTrigger(s: State, time: Value, nowReal: real): (r: Reply<nat>)
    ensures r.state.idSeq == s.idSeq + 1
    ensures r.result.Err? <==> ToNumber(time).NaN?
    ensures r.result.Err? ==> r.state == s.(idSeq := s.idSeq + 1) && r.result.error.TypeError?
    ensures r.result.Ok? ==> r.result.value == s.idSeq
    ensures r.result.Ok? ==> r.state.queue == Enqueue(s.queue, Entry(s.idSeq, Trigger, ToNumber(time)))
  {
    var id := s.idSeq;
    var reserved := s.(idSeq := s.idSeq + 1);
    var timestamp := ToNumber(time);
    if timestamp.NaN? then Reply(reserved, Err(TypeError("time must be a Date or number")))
    else Reply(Submit(reserved, Entry(id, Trigger, timestamp), nowReal), Ok(id))
  }

  /** The period `setInterval` uses: a negative or infinite interval becomes
      zero. */
  function ClampPeriod(interval: Num): (p: Num)
    requires !interval.NaN?
    ensures p.Fin? && p.val >= 0.0
    ensures interval.Fin? && interval.val >= 0.0 ==> p == interval
    ensures !(interval.Fin? && interval.val >= 0.0) ==> p == Fin(0.0)
  {
    if Less(interval, Fin(0.0)) || !interval.IsFinite() then Fin(0.0) else interval
  }

  /** Whether `firstTime != undefined` is false: null or undefined. */
  predicate Absent(v: Value) {
    v.NullV? || v.UndefinedV?
  }

  /** `setInterval(callback, interval, firstTime)`: the first due time is
      `firstTime` when given, else `now()` plus the clamped period. */
  function SetInterval(s: State, interval: Value, firstTime: Value, nowReal: real): (r: Reply<nat>)
    ensures r.state.idSeq == s.idSeq + 1
    ensures r.result.Err? <==> ToNumber(interval).NaN? || (!Absent(firstTime) && ToNumber(firstTime).NaN?)
    ensures r.result.Err? ==> r.state == s.(idSeq := s.idSeq + 1) && r.result.error.TypeError?
    ensures r.result.Ok? ==> r.result.value == s.idSeq
    ensures r.result.Ok? ==>
      var period := ClampPeriod(ToNumber(interval));
      var first := if Absent(firstTime) then Add(Now(s, nowReal), period) else ToNumber(firstTime);
      r.state.queue == Enqueue(s.queue, Entry(s.idSeq, Interval(period), first))
  {
    var id := s.idSeq;
    var reserved := s.(idSeq := s.idSeq + 1);
    var i := ToNumber(interval);
    if i.NaN? then Reply(reserved, Err(TypeError("interval must be a number")))
    else
      var period := ClampPeriod(i);
      if Absent(firstTime) then
        Reply(Submit(reserved, Entry(id, Interval(period), Add(Now(s, nowReal), period)), nowReal), Ok(id))
      else
        var timestamp := ToNumber(firstTime);
        if timestamp.NaN? then Reply(reserved, Err(TypeError("firstTime must be a Date or number")))
        else Reply(Submit(reserved, Entry(id, Interval(period), timestamp), nowReal), Ok(id))
  }

  /** `clearTimeout(id)` (also `clearTrigger` and `clearInterval`): an id in
      flight is only dropped from `current`; otherwise the first queued entry
      with that id is removed and the timer rescheduled; an unknown id
      changes nothing at all. */
  function ClearTimeout(s: State, id: int, nowReal: real): (r: State)
    ensures id in s.current ==> r == s.(current := s.current - {id})
    ensures id !in s.current && IndexOf(s.queue, id) == |s.queue| ==> r == s
    ensures id !in s.current && IndexOf(s.queue, id) < |s.queue| ==>
      && r.queue == RemoveAt(s.queue, IndexOf(s.queue, id))
      && r.(armed := s.armed, queue := s.queue) == s
  {
    if id in s.current then s.(current := s.current - {id})
    else
      var i := IndexOf(s.queue, id);
      if i < |s.queue| then Schedule(s.(queue := RemoveAt(s.queue, i)), nowReal)
      else s
  }

  /** `clear()`: empty the queue and the in-flight set, then reschedule,
      which disarms the host timer. */
  function Clear(s: State, nowReal: real): (r: State)
    ensures r.queue == [] && r.current == {} && List(r) == []
    ensures r.armed.None?
    ensures r.executing == s.executing && r.idSeq == s.idSeq
  {
    Schedule(s.(queue := [], current := {}), nowReal)
  }

  /** The start half of `_execTimeout`: the entry goes in flight. */
  function Start(s: State, e: Entry, cont: Continuation): (r: State)
    ensures r.current == s.current + {e.id}
    ensures r.executing == s.executing + [Exec(e, cont)]
    ensures r.(current := s.current, executing := s.executing) == s
  {
    s.(current := s.current + {e.id}, executing := s.executing + [Exec(e, cont)])
  }

  /** `next()` of a discrete drain: start the next entry of the batch or,
      when the batch is done, reschedule. */
  function Next(s: State, rest: seq<Entry>, nowReal: real): (r: State)
    ensures r.queue == s.queue && r.sweep == s.sweep && r.idSeq == s.idSeq
    ensures |rest| > 0 ==>
      && r.executing == s.executing + [Exec(rest[0], Serial(rest[1..]))]
      && r.current == s.current + {rest[0].id}
      && r.armed == s.armed
    ensures |rest| == 0 ==> r.executing == s.executing && r.current == s.current
    ensures |rest| == 0 && !Busy(s) ==>
      (r.armed.Some? <==> s.running && |s.queue| > 0)
      && (r.armed.Some? ==> r.armed.value.target == s.queue[0].time)
  {
    if |rest| == 0 then Schedule(s, nowReal)
    else Start(s, rest[0], Serial(rest[1..]))
  }

  /** `onTimeout`: the armed host timer fires. In discrete time the clock
      jumps to the captured head time; then the expired prefix is split off
      the queue and drained, serially in discrete time (the first entry starts
      at once), by a sweep that starts every entry otherwise. The host runs
      this only between two synchronous runs, never during a sweep. */
  function Fire(s: State, nowReal: real): (r: State)
    requires s.armed.Some? && s.sweep.None?
    ensures var t, n := s.armed.value.target, ExpiredCount(s.queue, s.armed.value.target);
      && r.queue == s.queue[n..]
      && (s.rate.Paced? ==> r.sweep == Some(s.queue[..n]) && r.hyperTime == s.hyperTime && r.armed.None?)
      && (s.rate.Discrete? ==> r.hyperTime == t && r.sweep.None?)
      && (s.rate.Discrete? && 0 < n ==>
            && r.executing == s.executing + [Exec(s.queue[0], Serial(s.queue[1..n]))]
            && r.current == s.current + {s.queue[0].id}
            && r.armed.None?)
  {
    var t := s.armed.value.target;
    var n := ExpiredCount(s.queue, t);
    var fired := s.(armed := None, hyperTime := if s.rate.Discrete? then t else s.hyperTime);
    var expired := s.queue[..n];
    var left := fired.(queue := s.queue[n..]);
    if s.rate.Discrete? then
      assert n > 0 ==> expired[1..] == s.queue[1..n];
      Next(left, expired, nowReal)
    else left.(sweep := Some(expired))
  }

  /** One step of the paced drain `expired.forEach(_execTimeout)` followed by
      `_schedule()`: start the next entry, or reschedule once all started. */
  function SweepStep(s: State, nowReal: real): (r: State)
    requires s.sweep.Some?
    ensures r.queue == s.queue
    ensures |s.sweep.value| == 0 ==> r.sweep.None? && r.executing == s.executing && r.current == s.current
    ensures |s.sweep.value| == 0 && !Busy(s) ==>
      (r.armed.Some? <==> s.running && |s.queue| > 0)
      && (r.armed.Some? ==> r.armed.value.target == s.queue[0].time)
    ensures 0 < |s.sweep.value| ==>
      r == Start(s.(sweep := Some(s.sweep.value[1..])), s.sweep.value[0], Detached)
  {
    var rest := s.sweep.value;
    if |rest| == 0 then Schedule(s.(sweep := None), nowReal)
    else Start(s.(sweep := Some(rest[1..])), rest[0], Detached)
  }

  /** The entry an interval is re-queued as: `time += interval`. */
  function Rearmed(e: Entry): (r: Entry)
    requires e.kind.Interval?
    ensures r.id == e.id && r.kind == e.kind
    ensures r.time == Add(e.time, e.kind.period)
  {
    e.(time := Add(e.time, e.kind.period))
  }

  /** The callback bookkeeping of `finish()` for `executing[k]`: the callback
      is gone and its id has left `current`; when it belongs to a discrete
      drain with entries left, the next of them has started, carrying the
      rest of the batch. */
  predicate Retires(s: State, k: nat, r: State)
    requires k < |s.executing|
  {
    var x := s.executing[k];
    if x.cont.Serial? && |x.cont.rest| > 0 then
      var next := x.cont.rest[0];
      && r.executing == RemoveAt(s.executing, k) + [Exec(next, Serial(x.cont.rest[1..]))]
      && r.current == s.current - {x.entry.id} + {next.id}
    else
      && r.executing == RemoveAt(s.executing, k)
      && r.current == s.current - {x.entry.id}
  }

  /** The finish half of `_execTimeout` for the callback `executing[k]`: an
      interval still in flight is re-queued one period later; the entry
      leaves `current`; a discrete drain continues with `next()`. With
      `corrected`, `_schedule` also runs once the callback is done: for a
      callback of a discrete drain right after the re-queue, while its id
      still holds the drain busy, so that the drain is not interrupted; for
      any other callback once its id has left `current`, so that the last of
      them to finish in discrete time arms the host timer. */
  function Complete(s: State, k: nat, nowReal: real, corrected: bool): (r: State)
    requires k < |s.executing|
    ensures var e := s.executing[k].entry;
      r.queue == if e.kind.Interval? && e.id in s.current then Enqueue(s.queue, Rearmed(e)) else s.queue
    ensures Retires(s, k, r)
    ensures r.(armed := s.armed, queue := s.queue, current := s.current, executing := s.executing) == s
  {
    var x := s.executing[k];
    var e := x.entry;
    var finished := s.(executing := RemoveAt(s.executing, k));
    var rearmed :=
      if e.kind.Interval? && e.id in s.current then
        var queued := finished.(queue := Enqueue(finished.queue, Rearmed(e)));
        if corrected && x.cont.Serial? then Schedule(queued, nowReal) else queued
      else finished;
    var done := rearmed.(current := rearmed.current - {e.id});
    match x.cont
    case Detached => if corrected then Schedule(done, nowReal) else done
    case Serial(rest) => Next(done, rest, nowReal)
  }

  /** `finish()` as written: the re-queued interval is not rescheduled. */
  function FinishAsWritten(s: State, k: nat, nowReal: real): (r: State)
    requires k < |s.executing|
    ensures var e := s.executing[k].entry;
      r.queue == if e.kind.Interval? && e.id in s.current then Enqueue(s.queue, Rearmed(e)) else s.queue
    ensures Retires(s, k, r)
    ensures s.executing[k].cont.Detached? ==> r.armed == s.armed
  {
    Complete(s, k, nowReal, false)
  }

  /** `finish()`, rescheduling once the callback is done. Timeouts and
      triggers are never re-queued, nor is an interval cancelled while in
      flight. Unless a discrete drain moves on to the next entry of its
      batch, the host timer afterwards is armed for the head whenever
      `_schedule` may arm. */
  function Finish(s: State, k: nat, nowReal: real): (r: State)
    requires k < |s.executing|
    ensures var e := s.executing[k].entry;
      r.queue == if e.kind.Interval? && e.id in s.current then Enqueue(s.queue, Rearmed(e)) else s.queue
    ensures !s.executing[k].entry.kind.Interval? ==> r.queue == s.queue
    ensures s.executing[k].entry.id !in s.current ==> r.queue == s.queue
    ensures Retires(s, k, r)
    ensures var x := s.executing[k];
      !(x.cont.Serial? && |x.cont.rest| > 0) && !Busy(r) && r.running && |r.queue| > 0 ==>
      r.armed.Some? && r.armed.value.target == r.queue[0].time
  {
    Complete(s, k, nowReal, true)
  }

  /** The rest of the factory once `config` has applied the options: set
      the time to the current real time and start running. */
  function Launch(configured: Reply<Rate>, nowReal: real): Result<State> {
    if configured.result.Err? then Err(configured.result.error)
    else
      var timed := SetTime(configured.state, NumV(Fin(nowReal)), nowReal).state;
      Ok(Continue(timed, nowReal))
  }

  /** The factory `hypertimer(options)` as written: its `config` accepts an
      infinite rate. */
  function CreateAsWritten(rate: Option<Value>, nowReal: real): (r: Result<State>)
    ensures r.Err? <==> rate.Some? && ParseRateAsWritten(rate.value).Err?
    ensures r.Ok? ==> r.value.running && r.value.queue == [] && r.value.idSeq == 0
    ensures r.Ok? ==> r.value.hyperTime == Fin(nowReal) && r.value.realTime == Fin(nowReal) && r.value.armed.None?
    ensures r.Ok? && rate.Some? ==> r.value.rate == ParseRateAsWritten(rate.value).value
    ensures r.Ok? && rate.None? ==> r.value.rate == Paced(Fin(1.0))
    ensures rate.Some? && !IsDiscreteString(rate.value) && ToNumber(rate.value) == PosInf ==>
      r.Ok? && r.value.rate == Paced(PosInf)
  {
    Launch(ConfigAsWritten(Initial, rate, nowReal), nowReal)
  }

  /** The factory `hypertimer(options)`, with the corrected `config`: apply
      the options, set the time to the current real time, start running. */
  function Create(rate: Option<Value>, nowReal: real): (r: Result<State>)
    ensures r.Err? <==> rate.Some? && ParseRate(rate.value).Err?
    ensures r.Ok? ==> r.value.running && r.value.queue == [] && r.value.idSeq == 0
    ensures r.Ok? ==> r.value.current == {} && r.value.executing == [] && r.value.sweep.None?
    ensures r.Ok? && rate.Some? ==> r.value.rate == ParseRate(rate.value).value
    ensures r.Ok? && rate.None? ==> r.value.rate == Paced(Fin(1.0))
    ensures r.Ok? ==> Now(r.value, nowReal) == Fin(nowReal)
    ensures r.Ok? ==> r.value.hyperTime == Fin(nowReal) && r.value.realTime == Fin(nowReal) && r.value.armed.None?
  {
    AddZero(Fin(nowReal));
    Launch(Config(Initial, rate, nowReal), nowReal)
  }
}
