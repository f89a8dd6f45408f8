/** The three places where dist/hypertimer.js as written departs from what
    its design promises, each shown on a run of the scheduler from a fresh
    timer, next to what the corrected operation does on the same run. The
    runs are stated for any creation time `t` and any positive period `p`. */
module Findings {
  import opened JsNumber
  import opened Outcome
  import opened TimerQueue
  import opened Scheduler
  import opened SchedulerInvariants
  import opened SchedulerProperties

  /** A timer created at real time `t` with the default options. */
  function FreshAt(t: real): State {
    State(Paced(Fin(1.0)), true, Fin(t), Fin(t), [], {}, 0, None, None, [])
  }

  /** `hypertimer()` at real time `t` gives `FreshAt(t)`, a well-formed
      timer that reads `t`. */
  lemma CreateIsFresh(t: real)
    ensures Create(None, t) == Ok(FreshAt(t))
    ensures WellFormed(FreshAt(t)) && Now(FreshAt(t), t) == Fin(t)
  {
    assert Bag(FreshAt(t)) == multiset{};
  }

  // ---------------------------------------------------------------------
  // `finish()` re-queues an interval without rescheduling

  /** The interval `setInterval(cb, p)` queues on `FreshAt(t)`. */
  function IntervalEntry(t: real, p: real): Entry {
    Entry(0, Interval(Fin(p)), Fin(t + p))
  }

  /** After `setInterval(cb, p)`: queued, host timer armed for `t + p`. */
  function ArmedAt(t: real, p: real): State {
    FreshAt(t).(idSeq := 1, queue := [IntervalEntry(t, p)], armed := Some(Wait(Fin(t + p), Fin(p))))
  }

  /** After the drain of the host timer's firing has started the callback and
      ended: the callback (asynchronous) has not finished, the queue is empty
      and the host timer is not armed. */
  function StalledAt(t: real, p: real): State {
    FreshAt(t).(idSeq := 1, current := {0}, executing := [Exec(IntervalEntry(t, p), Detached)])
  }

  lemma SetIntervalArms(t: real, p: real)
    requires p > 0.0
    ensures SetInterval(FreshAt(t), NumV(Fin(p)), UndefinedV, t) == Reply(ArmedAt(t, p), Ok(0))
  {
    var e := IntervalEntry(t, p);
    var reserved := FreshAt(t).(idSeq := 1);
    SetIntervalSubmits(t, p);
    SubmitToEmpty(reserved, e, t);
    ArmsFor(reserved.(queue := [e]), t, p);
  }

  lemma SetIntervalSubmits(t: real, p: real)
    requires p > 0.0
    ensures SetInterval(FreshAt(t), NumV(Fin(p)), UndefinedV, t)
      == Reply(Submit(FreshAt(t).(idSeq := 1), IntervalEntry(t, p), t), Ok(0))
  {
    IntervalDueOnePeriodLater(t, p);
    SetIntervalWithoutFirstTime(FreshAt(t), p, t);
  }

  lemma IntervalDueOnePeriodLater(t: real, p: real)
    ensures Entry(0, Interval(Fin(p)), Add(Now(FreshAt(t), t), Fin(p))) == IntervalEntry(t, p)
  {
    FreshReadsCreation(t);
  }

  lemma FreshReadsCreation(t: real)
    ensures Now(FreshAt(t), t) == Fin(t)
  {
    NowAtAnchor(FreshAt(t), t, t, 1.0);
  }

  /** A running paced timer read at its real anchor shows its hyper anchor. */
  lemma NowAtAnchor(s: State, h: real, r: real, v: real)
    requires s.rate == Paced(Fin(v)) && s.running && s.hyperTime == Fin(h) && s.realTime == Fin(r)
    ensures Now(s, r) == Fin(h)
  {
    var z := Sub(Fin(r), Fin(r));
    assert z == Fin(0.0);
    var m := Mul(z, Fin(v));
    assert m == Fin(0.0);
    assert Add(Fin(h), m) == Fin(h);
  }

  /** `setInterval(cb, p)` without a first time, for a period `p >= 0`. */
  lemma SetIntervalWithoutFirstTime(s: State, p: real, nowReal: real)
    requires p >= 0.0
    ensures SetInterval(s, NumV(Fin(p)), UndefinedV, nowReal)
      == Reply(Submit(s.(idSeq := s.idSeq + 1), Entry(s.idSeq, Interval(Fin(p)), Add(Now(s, nowReal), Fin(p))), nowReal), Ok(s.idSeq))
  {
    assert ClampPeriod(Fin(p)) == Fin(p);
  }

  lemma SubmitToEmpty(s: State, e: Entry, t: real)
    requires s.queue == []
    ensures Submit(s, e, t) == Schedule(s.(queue := [e]), t)
  {
    assert Enqueue([], e) == [e];
  }

  /** Scheduling a fresh timer's single entry due `p` later arms the host
      timer `p` real milliseconds ahead. */
  lemma ArmsFor(s: State, t: real, p: real)
    requires s.rate == Paced(Fin(1.0)) && s.running && |s.queue| > 0
    requires s.queue[0].time == Fin(t + p) && s.hyperTime == Fin(t) && s.realTime == Fin(t)
    ensures Schedule(s, t) == s.(armed := Some(Wait(Fin(t + p), Fin(p))))
  {
    NowAtAnchor(s, t, t, 1.0);
    assert Sub(Fin(t + p), Fin(t)) == Fin(p);
    DivFin(p, 1.0);
  }

  lemma FireStartsDrain(t: real, p: real)
    ensures Fire(ArmedAt(t, p), t + p) == ArmedAt(t, p).(queue := [], armed := None, sweep := Some([IntervalEntry(t, p)]))
  {
    var q := [IntervalEntry(t, p)];
    assert q[1..] == [] && q[..1] == q;
    assert ExpiredCount(q[1..], Fin(t + p)) == 0;
    assert ExpiredCount(q, Fin(t + p)) == 1;
  }

  lemma DrainStartsAndEnds(t: real, p: real)
    ensures var draining := ArmedAt(t, p).(queue := [], armed := None, sweep := Some([IntervalEntry(t, p)]));
      SweepStep(SweepStep(draining, t + p), t + p) == StalledAt(t, p)
  {
    var e := IntervalEntry(t, p);
    assert [e][1..] == [];
    assert [] + [Exec(e, Detached)] == [Exec(e, Detached)];
  }

  /** How the source reaches `StalledAt(t, p)` from a fresh timer: set the
      interval, let the host timer fire at `t + p`, let its drain run. */
  lemma StalledIsReachable(t: real, p: real)
    requires p > 0.0
    ensures Create(None, t) == Ok(FreshAt(t))
    ensures var s1 := SetInterval(FreshAt(t), NumV(Fin(p)), UndefinedV, t).state;
      var s2 := Fire(s1, t + p);
      s2.sweep.Some? && SweepStep(SweepStep(s2, t + p), t + p) == StalledAt(t, p)
  {
    CreateIsFresh(t);
    SetIntervalArms(t, p);
    FireStartsDrain(t, p);
    DrainStartsAndEnds(t, p);
  }

  lemma StalledIsWellFormed(t: real, p: real)
    requires p > 0.0
    ensures WellFormed(StalledAt(t, p)) && ArmedOnHead(StalledAt(t, p))
  {
    var s := StalledAt(t, p);
    assert Bag(s) == multiset{IntervalEntry(t, p)} by {
      assert ExecBag(s.executing[1..]) == multiset{};
    }
    assert ExecIds(s.executing) == {0};
  }

  /** `finish()` as written, for a callback ending at real time `tf`,
      re-queues the interval one period later without rescheduling: the timer
      runs with an entry queued and no host timer armed, so the interval does
      not fire again until some other call reschedules. The corrected `Finish`
      arms the host timer for the re-queued entry. */
  lemma FinishAsWrittenStallsInterval(t: real, p: real, tf: real)
    requires p > 0.0
    ensures WellFormed(StalledAt(t, p)) && ArmedOnHead(StalledAt(t, p))
    ensures var r := FinishAsWritten(StalledAt(t, p), 0, tf);
      && r.running && r.queue == [Entry(0, Interval(Fin(p)), Fin(t + p + p))] && r.armed.None?
      && !ArmedOnHead(r)
    ensures var r := Finish(StalledAt(t, p), 0, tf);
      r.queue == [Entry(0, Interval(Fin(p)), Fin(t + p + p))]
      && r.armed.Some? && r.armed.value.target == Fin(t + p + p)
  {
    StalledIsWellFormed(t, p);
    var e := IntervalEntry(t, p);
    assert Enqueue([], Rearmed(e)) == [Entry(0, Interval(Fin(p)), Fin(t + p + p))];
  }

  /** The discrete rate as `config({rate: 'discrete'})` passes it. */
  const DiscreteRate: Value := StrV("discrete", NaN)

  /** The stalled timer after a switch to discrete time. */
  function DiscreteStalledAt(t: real, p: real): State {
    StalledAt(t, p).(rate := Discrete)
  }

  /** Switching the stalled timer to discrete time at its creation instant
      changes only the rate: the callback in flight holds the drain busy, so
      `_schedule` does not arm. */
  lemma SwitchToDiscrete(t: real, p: real)
    ensures Config(StalledAt(t, p), Some(DiscreteRate), t).state == DiscreteStalledAt(t, p)
  {
    FreshReadsCreation(t);
    assert Now(StalledAt(t, p), t) == Now(FreshAt(t), t);
  }

  lemma DiscreteStalledIsWellFormed(t: real, p: real)
    requires p > 0.0
    ensures WellFormed(DiscreteStalledAt(t, p)) && ArmedOnHead(DiscreteStalledAt(t, p))
  {
    StalledIsWellFormed(t, p);
    assert Bag(DiscreteStalledAt(t, p)) == Bag(StalledAt(t, p));
  }

  lemma DiscreteFinishAsWritten(t: real, p: real, tf: real)
    ensures var r := FinishAsWritten(DiscreteStalledAt(t, p), 0, tf);
      && r.running && r.current == {} && r.executing == []
      && r.queue == [Entry(0, Interval(Fin(p)), Fin(t + p + p))] && r.armed.None?
  {
    assert Enqueue([], Rearmed(IntervalEntry(t, p))) == [Entry(0, Interval(Fin(p)), Fin(t + p + p))];
  }

  lemma DiscreteFinish(t: real, p: real, tf: real)
    ensures var r := Finish(DiscreteStalledAt(t, p), 0, tf);
      r.queue == [Entry(0, Interval(Fin(p)), Fin(t + p + p))]
      && r.armed == Some(Wait(Fin(t + p + p), Fin(0.0)))
  {
    assert Enqueue([], Rearmed(IntervalEntry(t, p))) == [Entry(0, Interval(Fin(p)), Fin(t + p + p))];
  }

  /** The same stall in discrete time: the interval's callback, started by a
      paced drain, finishes after a switch to discrete time. As written,
      `finish()` re-queues it with nothing in flight and nothing armed, so
      the timer never fires again. The corrected `Finish` reschedules once the
      id has left `current`, which then arms the host timer. */
  lemma FinishAsWrittenStallsDiscreteInterval(t: real, p: real, tf: real)
    requires p > 0.0
    ensures var d := Config(StalledAt(t, p), Some(DiscreteRate), t).state;
      && WellFormed(d) && ArmedOnHead(d)
      && var r := FinishAsWritten(d, 0, tf);
         && r.running && r.current == {} && r.executing == []
         && r.queue == [Entry(0, Interval(Fin(p)), Fin(t + p + p))] && r.armed.None?
         && !ArmedOnHead(r)
    ensures var r := Finish(Config(StalledAt(t, p), Some(DiscreteRate), t).state, 0, tf);
      r.queue == [Entry(0, Interval(Fin(p)), Fin(t + p + p))]
      && r.armed == Some(Wait(Fin(t + p + p), Fin(0.0)))
  {
    SwitchToDiscrete(t, p);
    DiscreteStalledIsWellFormed(t, p);
    DiscreteFinishAsWritten(t, p, tf);
    DiscreteFinish(t, p, tf);
  }

  // ---------------------------------------------------------------------
  // `config` accepts an infinite rate

  /** `config` as written accepts an infinite rate, after which `now()` is
      NaN at once; the corrected `Config` refuses it and keeps the timer. */
  lemma InfiniteRateMakesNowNaN(t: real)
    ensures Now(FreshAt(t), t) == Fin(t)
    ensures var r := ConfigAsWritten(FreshAt(t), Some(NumV(PosInf)), t);
      r.result == Ok(Paced(PosInf)) && Now(r.state, t).NaN?
    ensures var r := Config(FreshAt(t), Some(NumV(PosInf)), t);
      r.result.Err? && r.state == FreshAt(t)
  {
  }

  /** The factory as written takes the infinite rate too: the timer it
      returns reads NaN at its creation instant. The factory with the
      corrected `config` refuses it. */
  lemma CreateAsWrittenTakesInfiniteRate(t: real)
    ensures var r := CreateAsWritten(Some(NumV(PosInf)), t);
      r.Ok? && r.value.rate == Paced(PosInf) && Now(r.value, t).NaN?
    ensures Create(Some(NumV(PosInf)), t).Err?
  {
  }

  // ---------------------------------------------------------------------
  // `setTime` accepts an invalid Date

  /** The timer after `setTime(new Date(NaN))` as written. */
  function PoisonedAt(t: real): State {
    FreshAt(t).(hyperTime := NaN)
  }

  /** `setTime` as written accepts an invalid Date: `now()` becomes NaN, a
      later `setTimeout` with a finite delay throws, and a `setInterval`
      without a first time queues an entry whose time is NaN, leaving the
      timer ill formed. The corrected `SetTime` refuses the invalid Date. */
  lemma InvalidDatePoisonsClock(t: real, p: real)
    requires p > 0.0
    ensures WellFormed(FreshAt(t))
    ensures SetTimeAsWritten(FreshAt(t), DateV(NaN), t) == Reply(PoisonedAt(t), Ok(()))
    ensures Now(PoisonedAt(t), t).NaN?
    ensures SetTimeout(PoisonedAt(t), Fin(p), t).result.Err?
    ensures var r := SetInterval(PoisonedAt(t), NumV(Fin(p)), UndefinedV, t);
      r.result.Ok? && r.state.queue == [Entry(0, Interval(Fin(p)), NaN)] && !WellFormed(r.state)
    ensures var r := SetTime(FreshAt(t), DateV(NaN), t);
      r.result.Err? && r.state == FreshAt(t)
  {
    CreateIsFresh(t);
    var r := SetInterval(PoisonedAt(t), NumV(Fin(p)), UndefinedV, t);
    assert r.state.queue == Enqueue([], Entry(0, Interval(Fin(p)), NaN));
    assert r.state.queue[0] in Bag(r.state);
  }
}
