/** Properties of the scheduler of dist/hypertimer.js that relate several
    operations: the host timer stays armed for the queue head, cancelling and
    firing act on exactly the entries they should, and the clock reads what
    its design promises across pauses, rate changes and `setTime`. */
module SchedulerProperties {
  import opened JsNumber
  import opened Outcome
  import opened TimerQueue
  import opened Scheduler
  import opened SchedulerInvariants

  // ---------------------------------------------------------------------
  // The host timer follows the head of the queue

  /** Whenever the timer runs with something queued, no paced drain is in
      progress and `_schedule` may arm (always in paced time; in discrete
      time once every started callback has finished), the host timer is
      armed for the head's time. */
  predicate ArmedOnHead(s: State) {
    s.running && s.sweep.None? && |s.queue| > 0 && (s.rate.Paced? || s.executing == []) ==>
      s.armed.Some? && s.armed.value.target == s.queue[0].time
  }

  /** Every id in flight belongs to a started callback (part of
      well-formedness). */
  predicate InFlightStarted(s: State) {
    s.current <= ExecIds(s.executing)
  }

  lemma NoneInFlight(s: State)
    requires InFlightStarted(s) && s.executing == []
    ensures s.current == {}
  {
    assert ExecIds(s.executing) == {};
  }

  lemma ScheduleArmsHead(s: State, nowReal: real)
    requires s.rate.Paced? || InFlightStarted(s)
    ensures ArmedOnHead(Schedule(s, nowReal))
  {
    if s.rate.Discrete? && s.executing == [] {
      NoneInFlight(s);
    }
  }

  /** The corrected `finish()` leaves the host timer armed for the head, in
      discrete time as soon as the last started callback has finished. */
  lemma FinishArmsHead(s: State, k: nat, nowReal: real)
    requires ArmedOnHead(s) && InFlightStarted(s) && k < |s.executing|
    ensures ArmedOnHead(Finish(s, k, nowReal))
  {
    var x := s.executing[k];
    var e := x.entry;
    var done := FinishDone(s, k, nowReal);
    FinishDoneFields(s, k, nowReal);
    FinishIsDoneThenNext(s, k, nowReal);
    RemoveIds(s.executing, k, s.current);
    assert InFlightStarted(done);
    if x.cont.Detached? || |x.cont.rest| == 0 {
      ScheduleArmsHead(done, nowReal);
    } else if s.rate.Paced? {
      var finished := s.(executing := RemoveAt(s.executing, k));
      if Requeued(s, k) {
        ScheduleArmsHead(finished.(queue := Enqueue(finished.queue, Rearmed(e))), nowReal);
      }
      assert ArmedOnHead(done);
    }
  }

  lemma ConfigArmsHead(s: State, rate: Option<Value>, nowReal: real)
    requires ArmedOnHead(s) && InFlightStarted(s)
    ensures ArmedOnHead(Config(s, rate, nowReal).state)
  {
    if rate.Some? && ParseRate(rate.value).Ok? {
      ScheduleArmsHead(s.(hyperTime := Now(s, nowReal), realTime := Fin(nowReal), rate := ParseRate(rate.value).value), nowReal);
    } else if rate.None? {
      ScheduleArmsHead(s, nowReal);
    }
  }

  lemma SetTimeArmsHead(s: State, time: Value, nowReal: real)
    requires ArmedOnHead(s) && InFlightStarted(s)
    ensures ArmedOnHead(SetTime(s, time, nowReal).state)
  {
    if !ToNumber(time).NaN? {
      ScheduleArmsHead(s.(hyperTime := ToNumber(time)), nowReal);
    }
  }

  lemma SubmitArmsHead(s: State, e: Entry, nowReal: real)
    requires InFlightStarted(s)
    ensures ArmedOnHead(Submit(s, e, nowReal))
  {
    ScheduleArmsHead(s.(queue := Enqueue(s.queue, e)), nowReal);
  }

  lemma SetTimeoutArmsHead(s: State, delay: Num, nowReal: real)
    requires ArmedOnHead(s) && InFlightStarted(s)
    ensures ArmedOnHead(SetTimeout(s, delay, nowReal).state)
  {
    var timestamp := Add(Now(s, nowReal), delay);
    if !timestamp.NaN? {
      SubmitArmsHead(s.(idSeq := s.idSeq + 1), Entry(s.idSeq, Timeout, timestamp), nowReal);
    }
  }

  lemma SetTriggerArmsHead(s: State, time: Value, nowReal: real)
    requires ArmedOnHead(s) && InFlightStarted(s)
    ensures ArmedOnHead(SetTrigger(s, time, nowReal).state)
  {
    if !ToNumber(time).NaN? {
      SubmitArmsHead(s.(idSeq := s.idSeq + 1), Entry(s.idSeq, Trigger, ToNumber(time)), nowReal);
    }
  }

  lemma SetIntervalArmsHead(s: State, interval: Value, firstTime: Value, nowReal: real)
    requires ArmedOnHead(s) && InFlightStarted(s)
    ensures ArmedOnHead(SetInterval(s, interval, firstTime, nowReal).state)
  {
    var r := SetInterval(s, interval, firstTime, nowReal);
    if r.result.Ok? {
      var period := ClampPeriod(ToNumber(interval));
      var first := if Absent(firstTime) then Add(Now(s, nowReal), period) else ToNumber(firstTime);
      var e := Entry(s.idSeq, Interval(period), first);
      assert r.state == Submit(s.(idSeq := s.idSeq + 1), e, nowReal);
      SubmitArmsHead(s.(idSeq := s.idSeq + 1), e, nowReal);
    }
  }

  lemma ClearTimeoutArmsHead(s: State, id: int, nowReal: real)
    requires ArmedOnHead(s) && InFlightStarted(s)
    ensures ArmedOnHead(ClearTimeout(s, id, nowReal))
  {
    if id in s.current {
      if s.executing == [] {
        NoneInFlight(s);
      }
    } else if IndexOf(s.queue, id) < |s.queue| {
      ScheduleArmsHead(s.(queue := RemoveAt(s.queue, IndexOf(s.queue, id))), nowReal);
    }
  }

  /** A discrete firing that finds nothing due reschedules; any other firing
      starts a callback or a paced drain. */
  lemma FireArmsHead(s: State, nowReal: real)
    requires InFlightStarted(s) && s.armed.Some? && s.sweep.None?
    ensures ArmedOnHead(Fire(s, nowReal))
  {
    var n := ExpiredCount(s.queue, s.armed.value.target);
    if s.rate.Discrete? && n == 0 {
      var left := FireLeft(s);
      assert Fire(s, nowReal) == Schedule(left, nowReal);
      ScheduleArmsHead(left, nowReal);
    }
  }

  lemma SweepStepArmsHead(s: State, nowReal: real)
    requires ArmedOnHead(s) && InFlightStarted(s) && s.sweep.Some?
    ensures ArmedOnHead(SweepStep(s, nowReal))
  {
    if |s.sweep.value| == 0 {
      ScheduleArmsHead(s.(sweep := None), nowReal);
    }
  }

  /** Every event keeps the host timer armed for the head of the queue
      whenever `_schedule` may arm it: the corrected scheduler never waits
      on a host timer that is not set. */
  lemma StepKeepsArmedOnHead(s: State, ev: Event, nowReal: real)
    requires WellFormed(s) && ArmedOnHead(s) && Enabled(s, ev)
    ensures ArmedOnHead(Step(s, ev, nowReal))
  {
    match ev
    case ConfigCall(rate) => ConfigArmsHead(s, rate, nowReal);
    case SetTimeCall(time) => SetTimeArmsHead(s, time, nowReal);
    case PauseCall =>
    case ContinueCall => ScheduleArmsHead(s.(realTime := Fin(nowReal), running := true), nowReal);
    case SetTimeoutCall(delay) => SetTimeoutArmsHead(s, delay, nowReal);
    case SetTriggerCall(time) => SetTriggerArmsHead(s, time, nowReal);
    case SetIntervalCall(interval, firstTime) => SetIntervalArmsHead(s, interval, firstTime, nowReal);
    case ClearTimeoutCall(id) => ClearTimeoutArmsHead(s, id, nowReal);
    case ClearCall =>
    case HostTimerFires => FireArmsHead(s, nowReal);
    case SweepContinues => SweepStepArmsHead(s, nowReal);
    case CallbackFinishes(k) => FinishArmsHead(s, k, nowReal);
  }

  /** A newly created timer starts with the host timer following the head. */
  lemma CreateArmsHead(rate: Option<Value>, nowReal: real)
    ensures Create(rate, nowReal).Ok? ==> ArmedOnHead(Create(rate, nowReal).value)
  {
  }

  /** In paced time the real delay handed to the host is the one after which
      `now()` reads exactly the head's time. */
  lemma ArmedDelayReachesTarget(s: State, nowReal: real)
    requires WellFormed(s) && s.rate.Paced? && s.running && s.hyperTime.Fin?
    requires |s.queue| > 0 && s.queue[0].time.Fin?
    ensures var w := Schedule(s, nowReal).armed;
      && w.Some? && w.value.target == s.queue[0].time && w.value.realDelay.Fin?
      && Now(s, nowReal + w.value.realDelay.val) == s.queue[0].time
  {
    var h, r0, k := s.hyperTime.val, s.realTime.val, s.rate.perMs.val;
    var now := h + (nowReal - r0) * k;
    var d := (s.queue[0].time.val - now) / k;
    assert d * k == s.queue[0].time.val - now;
    assert h + (nowReal + d - r0) * k == now + d * k;
  }

  // ---------------------------------------------------------------------
  // Ids

  /** No two queued entries share an id, so `list()` has no duplicates. */
  lemma ListHasNoDuplicates(s: State)
    requires WellFormed(s)
    ensures forall i, j :: 0 <= i < j < |List(s)| ==> List(s)[i] != List(s)[j]
  {
    var q := s.queue;
    forall i, j | 0 <= i < j < |q|
      ensures q[i].id != q[j].id
    {
      assert q == q[..j] + q[j..];
      assert q[i] in multiset(q[..j]) && q[j] in multiset(q[j..]);
      assert q[i] in Bag(s) && q[j] in Bag(s);
      assert q[i] != q[j];
    }
  }

  /** `setTimeout` returns an id no queued entry has, and queues it. */
  lemma SetTimeoutReturnsFreshId(s: State, delay: Num, nowReal: real)
    requires WellFormed(s)
    requires SetTimeout(s, delay, nowReal).result.Ok?
    ensures var r := SetTimeout(s, delay, nowReal);
      && r.result.value !in List(s)
      && r.result.value in List(r.state)
  {
    var r := SetTimeout(s, delay, nowReal);
    var e := Entry(s.idSeq, Timeout, Add(Now(s, nowReal), delay));
    QueueWellTimed(s);
    assert e in multiset(r.state.queue);
    var i :| 0 <= i < |r.state.queue| && r.state.queue[i] == e;
    assert List(r.state)[i] == s.idSeq;
  }

  // ---------------------------------------------------------------------
  // Cancelling

  /** Cancelling a queued id removes its entry, and only it: afterwards no
      entry has that id and the others keep their order. */
  lemma CancelQueuedRemovesIt(s: State, id: int, nowReal: real)
    requires WellFormed(s) && id !in s.current && id in List(s)
    ensures var r := ClearTimeout(s, id, nowReal);
      && id !in List(r)
      && |r.queue| == |s.queue| - 1
      && (forall e :: e in s.queue && e.id != id ==> e in r.queue)
      && Sorted(r.queue)
  {
    var i := IndexOf(s.queue, id);
    assert i < |s.queue|;
    var r := ClearTimeout(s, id, nowReal);
    assert r.queue == RemoveAt(s.queue, i);
    ListHasNoDuplicates(s);
    RemoveKeepsOrder(s.queue, i);
    RemoveOnlyId(s.queue, i);
  }

  /** Removing the entry at `i` from a queue whose ids are distinct leaves no
      entry with its id and keeps every entry with another id. */
  lemma RemoveOnlyId(q: seq<Entry>, i: nat)
    requires i < |q|
    requires forall a, b :: 0 <= a < b < |q| ==> q[a].id != q[b].id
    ensures q[i].id !in Ids(RemoveAt(q, i))
    ensures forall e :: e in q && e.id != q[i].id ==> e in RemoveAt(q, i)
  {
    var r := RemoveAt(q, i);
    forall j | 0 <= j < |r|
      ensures r[j].id != q[i].id
    {
      if j < i {
        assert r[j] == q[j];
      } else {
        assert r[j] == q[j + 1];
      }
    }
    forall e | e in q && e.id != q[i].id
      ensures e in r
    {
      var j :| 0 <= j < |q| && q[j] == e;
      if j < i {
        assert r[j] == e;
      } else {
        assert j != i && r[j - 1] == e;
      }
    }
  }

  /** Cancelling the head moves the host timer on to the next entry. */
  lemma CancelHeadRetargets(s: State, nowReal: real)
    requires s.rate.Paced? && s.running
    requires |s.queue| >= 2 && s.queue[0].id !in s.current
    ensures var r := ClearTimeout(s, s.queue[0].id, nowReal);
      r.armed.Some? && r.armed.value.target == s.queue[1].time
  {
    RemoveAtSplits(s.queue, 0);
  }

  /** Cancelling an interval while its callback runs keeps it from being
      re-queued when the callback finishes. */
  lemma CancelInFlightSuppressesRearm(s: State, k: nat, nowReal: real, laterReal: real)
    requires k < |s.executing| && s.executing[k].entry.id in s.current
    ensures var e := s.executing[k].entry;
      var r := ClearTimeout(s, e.id, nowReal);
      && r.queue == s.queue
      && Finish(r, k, laterReal).queue == s.queue
  {
  }

  /** An interval still in flight when its callback finishes is queued again,
      one period after its previous due time. */
  lemma FinishRearmsInterval(s: State, k: nat, nowReal: real)
    requires WellFormed(s) && k < |s.executing|
    requires s.executing[k].entry.kind.Interval? && s.executing[k].entry.id in s.current
    ensures var e := s.executing[k].entry;
      var r := Finish(s, k, nowReal);
      && Add(e.time, e.kind.period) != NaN
      && (exists i :: 0 <= i < |r.queue| && r.queue[i] == Entry(e.id, e.kind, Add(e.time, e.kind.period)))
      && Sorted(r.queue)
  {
    var e := s.executing[k].entry;
    ExecEntryInBag(s, k);
    var r := Finish(s, k, nowReal);
    assert Rearmed(e) in multiset(r.queue);
    FinishKeepsWF(s, k, nowReal);
  }

  /** A discrete drain runs its batch serially, in queue order: when the
      callback of one entry finishes, the next entry of the batch starts
      with the rest behind it; when the batch is done, the timer is
      rescheduled, and once nothing is in flight the host timer is armed for
      the head. */
  lemma FinishMovesDrainOn(s: State, k: nat, nowReal: real)
    requires WellFormed(s) && k < |s.executing| && s.executing[k].cont.Serial?
    ensures var x, r := s.executing[k], Finish(s, k, nowReal);
      var rest := x.cont.rest;
      && x.entry.id !in r.current
      && (|rest| > 0 ==>
            && r.executing[|r.executing| - 1] == Exec(rest[0], Serial(rest[1..]))
            && rest[0].id in r.current)
      && (|rest| == 0 && s.rate.Discrete? && |s.executing| == 1 && r.running && |r.queue| > 0 ==>
            r.armed.Some? && r.armed.value.target == r.queue[0].time)
  {
    var x := s.executing[k];
    var r := Finish(s, k, nowReal);
    FinishRetiresId(s, k, nowReal);
    if |x.cont.rest| == 0 && s.rate.Discrete? && |s.executing| == 1 {
      assert r.executing == [];
      NoneInFlight(r);
    }
  }

  // ---------------------------------------------------------------------
  // Firing

  /** When the host timer fires for the head's time, the batch it takes is
      the due prefix of the queue, head included, and every entry left is due
      strictly later. */
  lemma FireTakesDuePrefix(s: State, nowReal: real)
    requires WellFormed(s) && s.armed.Some? && s.sweep.None?
    requires |s.queue| > 0 && s.armed.value.target == s.queue[0].time
    ensures var t, n := s.armed.value.target, ExpiredCount(s.queue, s.armed.value.target);
      && 0 < n
      && s.queue[..n] + Fire(s, nowReal).queue == s.queue
      && (forall j :: 0 <= j < |Fire(s, nowReal).queue| ==> Less(t, Fire(s, nowReal).queue[j].time))
      && (s.rate.Paced? ==> Fire(s, nowReal).sweep == Some(s.queue[..n]) && s.queue[..n][0] == s.queue[0])
      && (s.rate.Discrete? ==>
            Fire(s, nowReal).hyperTime == t && Fire(s, nowReal).executing[|s.executing|].entry == s.queue[0])
  {
    var t := s.armed.value.target;
    QueueWellTimed(s);
    OrderFacts(t, t, t);
    ExpiredSplit(s.queue, t);
    SplitJoin(s.queue, ExpiredCount(s.queue, t));
  }

  // ---------------------------------------------------------------------
  // The clock

  /** Pausing then continuing resumes from the value read at the pause. */
  lemma PauseThenContinueResumes(s: State, pausedAt: real, resumedAt: real)
    requires WellFormed(s)
    ensures Now(Continue(Pause(s, pausedAt), resumedAt), resumedAt) == Now(s, pausedAt)
  {
    NowIsNumber(s, pausedAt);
    AddZero(Now(s, pausedAt));
  }

  /** In discrete time the clock only moves when an event sets it: `now()`
      reads `hyperTime` at every real time, running or not. */
  lemma DiscreteClockStandsStill(s: State, t1: real, t2: real)
    requires s.rate.Discrete?
    ensures Now(s, t1) == Now(s, t2) == s.hyperTime
  {
  }

  /** `config()` without a rate reports the rate last applied. */
  lemma ConfigReportsAppliedRate(s: State, v: Value, nowReal: real, laterReal: real)
    requires Config(s, Some(v), nowReal).result.Ok?
    ensures Config(Config(s, Some(v), nowReal).state, None, laterReal).result == Ok(ParseRate(v).value)
  {
  }

  /** `setTime` does not re-anchor real time: while running at a rate, the
      value read right after `setTime(t)` is `t` only if no real time has
      passed since the last re-anchor. */
  lemma SetTimeKeepsRealAnchor(s: State, t: real, nowReal: real)
    requires WellFormed(s) && s.rate.Paced? && s.running
    ensures var r := SetTime(s, NumV(Fin(t)), nowReal);
      && r.result.Ok?
      && (Now(r.state, nowReal) == Fin(t) <==> nowReal == s.realTime.val)
  {
    var k := s.rate.perMs.val;
    var r := SetTime(s, NumV(Fin(t)), nowReal);
    assert Now(r.state, nowReal) == Fin(t + (nowReal - s.realTime.val) * k);
    if (nowReal - s.realTime.val) * k == 0.0 {
      assert nowReal - s.realTime.val == 0.0;
    }
  }
}
