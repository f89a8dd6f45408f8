/** The clock of the two early prototypes, lib/hypertimer.js (closure style)
    and lib/HyperTimer.js (prototype style). Both keep the same four fields and
    apply the same rules to them; neither keeps a queue of timeouts, so their
    `setTimeout` only computes a real-time delay for the host timer.

    Unlike the later scheduler, these clocks accept any rate that is not NaN
    (zero, negative and infinite rates included) and change the rate without
    re-anchoring the reference pair. */
module LegacyClock {
  import opened JsNumber
  import opened Outcome

  datatype Clock = Clock(rate: Num, running: bool, hyperTime: Num, realTime: Num)

  /** JavaScript `null`, as the clock's arithmetic coerces it: `realTime` holds
      it while paused, and both timestamps hold it until construction ends. */
  const Null: Num := Fin(0.0)

  /** The fields as both constructors initialise them, before the options. */
  const Initial: Clock := Clock(Fin(1.0), false, Null, Null)

  /** `time()` (closure style) and `get()` (prototype style): the current
      hyper-time, interpolated from the reference pair while running. */
  function Time(c: Clock, nowReal: real): Num {
    if c.running then Add(c.hyperTime, Mul(Sub(Fin(nowReal), c.realTime), c.rate))
    else c.hyperTime
  }

  /** `config(options)`, where `rate` is the value of the `rate` key (None when
      there are no options or no such key). The configuration it returns,
      `{rate}`, is the rate of the resulting clock. */
  function Config(c: Clock, rate: Option<Value>): (r: Result<Clock>)
    ensures r.Err? <==> rate.Some? && ToNumber(rate.value).NaN?
    ensures r.Err? ==> r.error.TypeError?
    ensures r.Ok? ==> r.value.(rate := c.rate) == c
    ensures r.Ok? && rate.Some? ==> r.value.rate == ToNumber(rate.value)
    ensures rate.None? ==> r == Ok(c)
  {
    match rate
    case None => Ok(c)
    case Some(v) =>
      var n := ToNumber(v);
      if n.NaN? then Err(TypeError("Rate must be a number")) else Ok(c.(rate := n))
  }

  /** `set(time)`: a Date or any value of type number (NaN included) becomes
      the new hyper-time; the reference real time and the running flag stay. */
  function Set(c: Clock, time: Value): (r: Result<Clock>)
    ensures r.Ok? <==> time.NumV? || time.DateV?
    ensures r.Err? ==> r.error.TypeError?
    ensures r.Ok? ==> r.value == c.(hyperTime := ToNumber(time))
  {
    match time
    case DateV(t) => Ok(c.(hyperTime := t))
    case NumV(n) => Ok(c.(hyperTime := n))
    case _ => Err(TypeError("Time must be a Date or number"))
  }

  /** `continue()`: re-anchor real time and run. */
  function Continue(c: Clock, nowReal: real): (r: Clock)
    ensures r.running && r.rate == c.rate && r.hyperTime == c.hyperTime
    ensures r.realTime == Fin(nowReal)
  {
    c.(realTime := Fin(nowReal), running := true)
  }

  /** `pause()`: freeze the hyper-time at its current value. */
  function Pause(c: Clock, nowReal: real): (r: Clock)
    ensures !r.running && r.rate == c.rate
    ensures forall later: real :: Time(r, later) == Time(c, nowReal)
  {
    c.(hyperTime := Time(c, nowReal), realTime := Null, running := false)
  }

  /** The real-time delay `setTimeout(callback, delay)` hands to the host
      timer: a number is a hyper-time delay, a Date an absolute hyper-time that
      is measured from the stored `hyperTime` (not from `time()`). */
  function SetTimeoutDelay(c: Clock, delay: Value): (r: Result<Num>)
    ensures r.Ok? <==> delay.NumV? || delay.DateV?
    ensures r.Err? ==> r.error.TypeError?
    ensures delay.NumV? && delay.n.Fin? && c.rate.Fin? && c.rate.val != 0.0 ==>
      r == Ok(Fin(delay.n.val / c.rate.val))
    ensures delay.DateV? && delay.stamp.Fin? && c.hyperTime.Fin? && c.rate.Fin? && c.rate.val != 0.0 ==>
      r == Ok(Fin((delay.stamp.val - c.hyperTime.val) / c.rate.val))
    ensures (delay.NumV? && delay.n.NaN?) || (delay.DateV? && delay.stamp.NaN?) ==> r == Ok(NaN)
  {
    match delay
    case NumV(d) => Ok(Div(d, c.rate))
    case DateV(t) => Ok(Div(Sub(t, c.hyperTime), c.rate))
    case _ => Err(TypeError("Delay must be a number or Date"))
  }

  /** The closure-style factory `hypertimer(options)`: apply the options, set
      the time to the current real time, then start running. */
  function Create(rate: Option<Value>, nowReal: real): (r: Result<Clock>)
    ensures r.Err? <==> rate.Some? && ToNumber(rate.value).NaN?
    ensures r.Err? ==> r.error.TypeError?
    ensures r.Ok? ==> r.value.running && r.value.hyperTime == Fin(nowReal) && r.value.realTime == Fin(nowReal)
    ensures r.Ok? ==> r.value.rate == (if rate.Some? then ToNumber(rate.value) else Fin(1.0))
    ensures r.Ok? && r.value.rate.Fin? ==> Time(r.value, nowReal) == Fin(nowReal)
  {
    var configured :- Config(Initial, rate);
    var timed := Set(configured, NumV(Fin(nowReal))).value;
    Ok(Continue(timed, nowReal))
  }

  /** The prototype-style constructor `new HyperTimer(options)`; `withNew`
      tells whether it was invoked with `new`. */
  function Construct(withNew: bool, rate: Option<Value>, nowReal: real): (r: Result<Clock>)
    ensures !withNew ==> r.Err? && r.error.SyntaxError?
    ensures withNew ==> r == Create(rate, nowReal)
  {
    if !withNew then Err(SyntaxError("Constructor must be called with the new operator"))
    else Create(rate, nowReal)
  }

  /** While running with finite fields, hyper-time advances by exactly
      `rate` times the real time elapsed, whatever the sign of the rate. */
  lemma RunningTimeIsLinear(c: Clock, t1: real, t2: real)
    requires c.running && c.rate.Fin? && c.hyperTime.Fin? && c.realTime.Fin?
    ensures Time(c, t1).Fin? && Time(c, t2).Fin?
    ensures Time(c, t2) == Add(Time(c, t1), Mul(Fin(t2 - t1), c.rate))
  {
    var h, r0, k := c.hyperTime.val, c.realTime.val, c.rate.val;
    assert h + (t2 - r0) * k == (h + (t1 - r0) * k) + (t2 - t1) * k;
  }

  /** A paused clock reads the same at every real time. */
  lemma PausedTimeIsFrozen(c: Clock, t1: real, t2: real)
    requires !c.running
    ensures Time(c, t1) == Time(c, t2) == c.hyperTime
  {
  }

  /** Continuing after a pause resumes from exactly the value captured at the
      pause, however much real time passed in between, for any finite rate. */
  lemma ContinueResumesFromPause(c: Clock, pausedAt: real, resumedAt: real)
    requires c.rate.Fin?
    ensures Continue(Pause(c, pausedAt), resumedAt).running
    ensures Time(Continue(Pause(c, pausedAt), resumedAt), resumedAt) == Time(c, pausedAt)
  {
    AddZero(Time(c, pausedAt));
  }

  /** `config` does not re-anchor: the new rate applies to all real time since
      the last `continue`, so a running clock's reading changes unless the rate
      is the same or no real time has passed. */
  lemma ConfigIsRetroactive(c: Clock, k: real, now: real)
    requires c.running && c.rate.Fin? && c.hyperTime.Fin? && c.realTime.Fin?
    ensures Config(c, Some(NumV(Fin(k)))).Ok?
    ensures Time(Config(c, Some(NumV(Fin(k)))).value, now) == Time(c, now)
        <==> k == c.rate.val || now == c.realTime.val
  {
    var h, r0, k0 := c.hyperTime.val, c.realTime.val, c.rate.val;
    assert (now - r0) * k - (now - r0) * k0 == (now - r0) * (k - k0);
    if (now - r0) * k == (now - r0) * k0 {
      assert (now - r0) * (k - k0) == 0.0;
    }
  }

  /** The delay handed to the host timer, converted back through the rate,
      is the hyper-time delay that was asked for (finite non-zero rate). */
  lemma SetTimeoutDelayInverts(c: Clock, delay: Value)
    requires c.rate.Fin? && c.rate.val != 0.0
    requires (delay.NumV? && delay.n.Fin?) || (delay.DateV? && delay.stamp.Fin? && c.hyperTime.Fin?)
    ensures SetTimeoutDelay(c, delay).Ok?
    ensures delay.NumV? ==> Mul(SetTimeoutDelay(c, delay).value, c.rate) == delay.n
    ensures delay.DateV? ==> Add(c.hyperTime, Mul(SetTimeoutDelay(c, delay).value, c.rate)) == delay.stamp
  {
    var k := c.rate.val;
    var d := if delay.NumV? then delay.n.val else delay.stamp.val - c.hyperTime.val;
    DivFin(d, k);
    assert (d / k) * k == d;
  }
}
