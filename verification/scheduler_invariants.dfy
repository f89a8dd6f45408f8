/** What stays true of the scheduler of dist/hypertimer.js under every event
    the application or the host can deliver, and the properties that relate
    its operations to one another. */
module SchedulerInvariants {
  import opened JsNumber
  import opened Outcome
  import opened TimerQueue
  import opened Scheduler

  /** Every input the scheduler reacts to: the public operations, the host
      timer firing, the paced drain moving on, and a callback finishing. */
  datatype Event =
    | ConfigCall(rate: Option<Value>)
    | SetTimeCall(time: Value)
    | PauseCall
    | ContinueCall
    | SetTimeoutCall(delay: Num)
    | SetTriggerCall(time: Value)
    | SetIntervalCall(interval: Value, firstTime: Value)
    | ClearTimeoutCall(id: int)
    | ClearCall
    | HostTimerFires
    | SweepContinues
    | CallbackFinishes(k: nat)

  /** When the host can deliver an event: the host timer fires only when
      armed and never in the middle of a paced drain; only a running drain
      moves on; only a started callback finishes. */
  predicate Enabled(s: State, ev: Event) {
    match ev
    case HostTimerFires => s.armed.Some? && s.sweep.None?
    case SweepContinues => s.sweep.Some?
    case CallbackFinishes(k) => k < |s.executing|
    case _ => true
  }

  function Step(s: State, ev: Event, nowReal: real): State
    requires Enabled(s, ev)
  {
    match ev
    case ConfigCall(rate) => Config(s, rate, nowReal).state
    case SetTimeCall(time) => SetTime(s, time, nowReal).state
    case PauseCall => Pause(s, nowReal)
    case ContinueCall => Continue(s, nowReal)
    case SetTimeoutCall(delay) => SetTimeout(s, delay, nowReal).state
    case SetTriggerCall(time) => SetTrigger(s, time, nowReal).state
    case SetIntervalCall(interval, firstTime) => SetInterval(s, interval, firstTime, nowReal).state
    case ClearTimeoutCall(id) => ClearTimeout(s, id, nowReal)
    case ClearCall => Clear(s, nowReal)
    case HostTimerFires => Fire(s, nowReal)
    case SweepContinues => SweepStep(s, nowReal)
    case CallbackFinishes(k) => Finish(s, k, nowReal)
  }

  // ---------------------------------------------------------------------
  // Where the entries are

  function ContBag(c: Continuation): multiset<Entry> {
    if c.Serial? then multiset(c.rest) else multiset{}
  }

  /** The entries of the started callbacks and of the batches their discrete
      drains have yet to start. */
  function ExecBag(xs: seq<Exec>): multiset<Entry>
    decreases |xs|
  {
    if |xs| == 0 then multiset{}
    else multiset{xs[0].entry} + ContBag(xs[0].cont) + ExecBag(xs[1..])
  }

  function SweepBag(s: State): multiset<Entry> {
    if s.sweep.Some? then multiset(s.sweep.value) else multiset{}
  }

  /** Every entry the scheduler still knows of: queued, waiting in a drain,
      or in a callback that has not finished. */
  function Bag(s: State): multiset<Entry> {
    multiset(s.queue) + SweepBag(s) + ExecBag(s.executing)
  }

  function ExecIds(xs: seq<Exec>): set<int> {
    set i | 0 <= i < |xs| :: xs[i].entry.id
  }

  /** Every entry is well timed and has an id below the counter, and no two
      entries share an id. */
  ghost predicate BagOK(b: multiset<Entry>, idSeq: nat) {
    && (forall e :: e in b ==> WellTimed(e) && e.id < idSeq)
    && (forall e :: b[e] <= 1)
    && (forall e1, e2 :: e1 in b && e2 in b && e1.id == e2.id ==> e1 == e2)
  }

  /** Everything well-formedness asks of a state apart from its entries. */
  ghost predicate Shape(s: State) {
    && Sorted(s.queue)
    && s.current <= ExecIds(s.executing)
    && !s.hyperTime.NaN?
    && s.realTime.Fin?
    && (s.rate.Paced? ==> s.rate.perMs.Fin? && s.rate.perMs.val > 0.0)
    && (s.armed.Some? ==> !s.armed.value.target.NaN?)
  }

  ghost predicate WellFormed(s: State) {
    Shape(s) && BagOK(Bag(s), s.idSeq)
  }

  lemma {:induction false} ExecBagConcat(a: seq<Exec>, b: seq<Exec>)
    ensures ExecBag(a + b) == ExecBag(a) + ExecBag(b)
    decreases |a|
  {
    if |a| == 0 {
      assert a + b == b;
    } else {
      assert (a + b)[1..] == a[1..] + b;
      ExecBagConcat(a[1..], b);
    }
  }

  lemma ExecBagAppend(xs: seq<Exec>, x: Exec)
    ensures ExecBag(xs + [x]) == ExecBag(xs) + multiset{x.entry} + ContBag(x.cont)
  {
    ExecBagConcat(xs, [x]);
    assert ExecBag([x]) == multiset{x.entry} + ContBag(x.cont) + ExecBag([]);
  }

  lemma ExecBagCons(x: Exec, rest: seq<Exec>)
    ensures ExecBag([x] + rest) == multiset{x.entry} + ContBag(x.cont) + ExecBag(rest)
  {
    assert ([x] + rest)[0] == x;
    assert ([x] + rest)[1..] == rest;
  }

  lemma ExecBagRemove(xs: seq<Exec>, k: nat)
    requires k < |xs|
    ensures ExecBag(xs) == ExecBag(RemoveAt(xs, k)) + multiset{xs[k].entry} + ContBag(xs[k].cont)
  {
    var front, back := xs[..k], xs[k + 1..];
    var x := xs[k];
    RemoveAtSplits(xs, k);
    ExecBagConcat(front, [x] + back);
    ExecBagCons(x, back);
    ExecBagConcat(front, back);
    Regroup(ExecBag(front), multiset{x.entry}, ContBag(x.cont), ExecBag(back));
  }

  lemma Regroup(f: multiset<Entry>, m: multiset<Entry>, c: multiset<Entry>, b: multiset<Entry>)
    ensures f + (m + c + b) == f + b + m + c
  {
  }

  lemma BagSub(b: multiset<Entry>, b': multiset<Entry>, n: nat, n': nat)
    requires BagOK(b, n) && b' <= b && n <= n'
    ensures BagOK(b', n')
  {
    forall e
      ensures b'[e] <= 1
    {
      assert b'[e] <= b[e];
    }
  }

  lemma BagFresh(b: multiset<Entry>, n: nat, e: Entry)
    requires BagOK(b, n) && WellTimed(e) && e.id == n
    ensures BagOK(b + multiset{e}, n + 1)
  {
    assert e !in b;
  }

  lemma BagReplace(b: multiset<Entry>, n: nat, e: Entry, e': Entry)
    requires BagOK(b, n) && e in b && e'.id == e.id && WellTimed(e')
    ensures BagOK(b - multiset{e} + multiset{e'}, n)
  {
    var c := b - multiset{e};
    assert c[e] == 0;
    forall x | x in c
      ensures x.id != e.id
    {
      assert x in b;
    }
    assert e' !in c;
  }

  /** The queue lies inside the bag, so it inherits its good shape. */
  lemma QueueWellTimed(s: State)
    requires WellFormed(s)
    ensures AllWellTimed(s.queue)
    ensures forall i :: 0 <= i < |s.queue| ==> s.queue[i].id < s.idSeq
  {
    forall i | 0 <= i < |s.queue|
      ensures WellTimed(s.queue[i]) && s.queue[i].id < s.idSeq
    {
      assert s.queue[i] in multiset(s.queue);
    }
  }

  /** With a finite rate and a numeric reference pair, `now()` is a number. */
  lemma NowIsNumber(s: State, nowReal: real)
    requires WellFormed(s)
    ensures !Now(s, nowReal).NaN?
  {
  }

  // ---------------------------------------------------------------------
  // Well-formedness under each event

  lemma ScheduleKeepsWF(s: State, nowReal: real)
    requires WellFormed(s)
    ensures WellFormed(Schedule(s, nowReal))
  {
    var r := Schedule(s, nowReal);
    assert Bag(r) == Bag(s);
    if !Busy(s) && r.armed.Some? {
      QueueWellTimed(s);
    }
  }

  lemma ConfigKeepsWF(s: State, rate: Option<Value>, nowReal: real)
    requires WellFormed(s)
    ensures WellFormed(Config(s, rate, nowReal).state)
  {
    NowIsNumber(s, nowReal);
    if rate.Some? && ParseRate(rate.value).Ok? {
      var mid := s.(hyperTime := Now(s, nowReal), realTime := Fin(nowReal), rate := ParseRate(rate.value).value);
      assert Bag(mid) == Bag(s);
      ScheduleKeepsWF(mid, nowReal);
    } else if rate.None? {
      ScheduleKeepsWF(s, nowReal);
    }
  }

  lemma SetTimeKeepsWF(s: State, time: Value, nowReal: real)
    requires WellFormed(s)
    ensures WellFormed(SetTime(s, time, nowReal).state)
  {
    if !ToNumber(time).NaN? {
      var mid := s.(hyperTime := ToNumber(time));
      assert Bag(mid) == Bag(s);
      ScheduleKeepsWF(mid, nowReal);
    }
  }

  lemma PauseKeepsWF(s: State, nowReal: real)
    requires WellFormed(s)
    ensures WellFormed(Pause(s, nowReal))
  {
    NowIsNumber(s, nowReal);
    var mid := s.(hyperTime := Now(s, nowReal), realTime := Null, running := false);
    assert Bag(mid) == Bag(s);
    ScheduleKeepsWF(mid, nowReal);
  }

  lemma ContinueKeepsWF(s: State, nowReal: real)
    requires WellFormed(s)
    ensures WellFormed(Continue(s, nowReal))
  {
    var mid := s.(realTime := Fin(nowReal), running := true);
    assert Bag(mid) == Bag(s);
    ScheduleKeepsWF(mid, nowReal);
  }

  /** Reserving an id keeps the state well formed. */
  lemma ReserveKeepsWF(s: State)
    requires WellFormed(s)
    ensures WellFormed(s.(idSeq := s.idSeq + 1))
  {
    assert Bag(s.(idSeq := s.idSeq + 1)) == Bag(s);
    BagSub(Bag(s), Bag(s), s.idSeq, s.idSeq + 1);
  }

  lemma EnqueueKeepsWF(s: State, e: Entry)
    requires WellFormed(s) && WellTimed(e) && e.id == s.idSeq
    ensures WellFormed(s.(idSeq := s.idSeq + 1, queue := Enqueue(s.queue, e)))
  {
    var mid := s.(idSeq := s.idSeq + 1, queue := Enqueue(s.queue, e));
    assert Sorted(mid.queue) by {
      QueueWellTimed(s);
      var _ := EnqueueSplicesAfterTies(s.queue, e);
    }
    assert BagOK(Bag(mid), mid.idSeq) by {
      assert Bag(mid) == Bag(s) + multiset{e};
      BagFresh(Bag(s), s.idSeq, e);
    }
  }

  lemma SubmitKeepsWF(s: State, e: Entry, nowReal: real)
    requires WellFormed(s) && WellTimed(e) && e.id == s.idSeq
    ensures WellFormed(Submit(s.(idSeq := s.idSeq + 1), e, nowReal))
  {
    EnqueueKeepsWF(s, e);
    ScheduleKeepsWF(s.(idSeq := s.idSeq + 1, queue := Enqueue(s.queue, e)), nowReal);
  }

  lemma SetTimeoutKeepsWF(s: State, delay: Num, nowReal: real)
    requires WellFormed(s)
    ensures WellFormed(SetTimeout(s, delay, nowReal).state)
  {
    var timestamp := Add(Now(s, nowReal), delay);
    if timestamp.NaN? {
      ReserveKeepsWF(s);
    } else {
      var e := Entry(s.idSeq, Timeout, timestamp);
      assert SetTimeout(s, delay, nowReal).state == Submit(s.(idSeq := s.idSeq + 1), e, nowReal);
      SubmitKeepsWF(s, e, nowReal);
    }
  }

  lemma SetTriggerKeepsWF(s: State, time: Value, nowReal: real)
    requires WellFormed(s)
    ensures WellFormed(SetTrigger(s, time, nowReal).state)
  {
    if ToNumber(time).NaN? {
      ReserveKeepsWF(s);
    } else {
      var e := Entry(s.idSeq, Trigger, ToNumber(time));
      assert SetTrigger(s, time, nowReal).state == Submit(s.(idSeq := s.idSeq + 1), e, nowReal);
      SubmitKeepsWF(s, e, nowReal);
    }
  }

  lemma SetIntervalKeepsWF(s: State, interval: Value, firstTime: Value, nowReal: real)
    requires WellFormed(s)
    ensures WellFormed(SetInterval(s, interval, firstTime, nowReal).state)
  {
    var r := SetInterval(s, interval, firstTime, nowReal);
    var i := ToNumber(interval);
    if r.result.Err? {
      ReserveKeepsWF(s);
    } else {
      var period := ClampPeriod(i);
      var first := if Absent(firstTime) then Add(Now(s, nowReal), period) else ToNumber(firstTime);
      var e := Entry(s.idSeq, Interval(period), first);
      assert WellTimed(e) by {
        NowIsNumber(s, nowReal);
      }
      assert r.state == Submit(s.(idSeq := s.idSeq + 1), e, nowReal);
      SubmitKeepsWF(s, e, nowReal);
    }
  }

  lemma ClearTimeoutKeepsWF(s: State, id: int, nowReal: real)
    requires WellFormed(s)
    ensures WellFormed(ClearTimeout(s, id, nowReal))
  {
    if id in s.current {
      DropCurrentKeepsWF(s, id);
    } else {
      var i := IndexOf(s.queue, id);
      if i < |s.queue| {
        var mid := s.(queue := RemoveAt(s.queue, i));
        assert ClearTimeout(s, id, nowReal) == Schedule(mid, nowReal);
        RemoveKeepsWF(s, i);
        ScheduleKeepsWF(mid, nowReal);
      }
    }
  }

  lemma DropCurrentKeepsWF(s: State, id: int)
    requires WellFormed(s)
    ensures WellFormed(s.(current := s.current - {id}))
  {
    assert Bag(s.(current := s.current - {id})) == Bag(s);
  }

  lemma RemoveKeepsWF(s: State, i: nat)
    requires WellFormed(s) && i < |s.queue|
    ensures WellFormed(s.(queue := RemoveAt(s.queue, i)))
  {
    var mid := s.(queue := RemoveAt(s.queue, i));
    RemoveKeepsShape(s, i);
    RemoveShrinksBag(s, i);
    BagSub(Bag(s), Bag(mid), s.idSeq, s.idSeq);
  }

  lemma RemoveKeepsShape(s: State, i: nat)
    requires Shape(s) && i < |s.queue|
    ensures Shape(s.(queue := RemoveAt(s.queue, i)))
  {
    RemoveKeepsOrder(s.queue, i);
  }

  lemma RemoveShrinksBag(s: State, i: nat)
    requires i < |s.queue|
    ensures Bag(s.(queue := RemoveAt(s.queue, i))) <= Bag(s)
  {
    var q := RemoveAt(s.queue, i);
    assert multiset(q) <= multiset(s.queue);
    QueueBagShrinks(s, q);
  }

  /** Replacing the queue by one holding fewer entries shrinks the bag. */
  lemma QueueBagShrinks(s: State, q: seq<Entry>)
    requires multiset(q) <= multiset(s.queue)
    ensures Bag(s.(queue := q)) <= Bag(s)
  {
    var rest := SweepBag(s) + ExecBag(s.executing);
    assert Bag(s.(queue := q)) == multiset(q) + rest;
    assert Bag(s) == multiset(s.queue) + rest;
  }

  lemma ClearKeepsWF(s: State, nowReal: real)
    requires WellFormed(s)
    ensures WellFormed(Clear(s, nowReal))
  {
    var mid := s.(queue := [], current := {});
    assert Bag(mid) <= Bag(s);
    BagSub(Bag(s), Bag(mid), s.idSeq, s.idSeq);
    ScheduleKeepsWF(mid, nowReal);
  }

  /** Starting an entry that moves out of some part of the state into the
      started callbacks keeps the in-flight ids among the started ones. */
  lemma StartIds(xs: seq<Exec>, x: Exec)
    ensures ExecIds(xs + [x]) == ExecIds(xs) + {x.entry.id}
  {
    var ys := xs + [x];
    assert ys[|xs|] == x;
    forall i | 0 <= i < |xs|
      ensures ys[i] == xs[i]
    {
    }
  }

  /** Starting an entry taken out of the state, with the batch behind it,
      restores a well-formed state when putting them back would. */
  lemma StartKeepsWF(s: State, e: Entry, cont: Continuation)
    requires Shape(s) && BagOK(Bag(s) + multiset{e} + ContBag(cont), s.idSeq)
    ensures WellFormed(Start(s, e, cont))
  {
    var r := Start(s, e, cont);
    assert Bag(r) == Bag(s) + multiset{e} + ContBag(cont) by {
      ExecBagAppend(s.executing, Exec(e, cont));
    }
    StartIds(s.executing, Exec(e, cont));
  }

  /** What `onTimeout` leaves once the expired prefix is split off. */
  ghost function FireLeft(s: State): State
    requires s.armed.Some?
  {
    var t := s.armed.value.target;
    s.(armed := None, hyperTime := if s.rate.Discrete? then t else s.hyperTime,
       queue := s.queue[ExpiredCount(s.queue, t)..])
  }

  lemma FireLeftShape(s: State)
    requires Shape(s) && s.armed.Some? && s.sweep.None?
    ensures Shape(FireLeft(s))
    ensures Bag(FireLeft(s)) + multiset(s.queue[..ExpiredCount(s.queue, s.armed.value.target)]) == Bag(s)
  {
    var q, n := s.queue, ExpiredCount(s.queue, s.armed.value.target);
    assert q == q[..n] + q[n..];
  }

  lemma FireKeepsWF(s: State, nowReal: real)
    requires WellFormed(s) && s.armed.Some? && s.sweep.None?
    ensures WellFormed(Fire(s, nowReal))
  {
    var q, n := s.queue, ExpiredCount(s.queue, s.armed.value.target);
    FireLeftShape(s);
    if s.rate.Discrete? && n == 0 {
      FireNothingKeepsWF(s, nowReal);
    } else if s.rate.Discrete? {
      FireSerialKeepsWF(s, nowReal);
    } else {
      FireSweepKeepsWF(s, nowReal);
    }
  }

  lemma FireNothingKeepsWF(s: State, nowReal: real)
    requires WellFormed(s) && s.armed.Some? && s.sweep.None?
    requires s.rate.Discrete? && ExpiredCount(s.queue, s.armed.value.target) == 0
    ensures WellFormed(Fire(s, nowReal))
  {
    var left := FireLeft(s);
    FireLeftShape(s);
    ScheduleKeepsWF(left, nowReal);
    assert Fire(s, nowReal) == Schedule(left, nowReal);
  }

  lemma FireSerialKeepsWF(s: State, nowReal: real)
    requires WellFormed(s) && s.armed.Some? && s.sweep.None?
    requires s.rate.Discrete? && 0 < ExpiredCount(s.queue, s.armed.value.target)
    ensures WellFormed(Fire(s, nowReal))
  {
    var q, n := s.queue, ExpiredCount(s.queue, s.armed.value.target);
    var left := FireLeft(s);
    FireSerialBag(s);
    StartKeepsWF(left, q[0], Serial(q[1..n]));
    assert Fire(s, nowReal) == Start(left, q[0], Serial(q[1..n]));
  }

  lemma FireSerialBag(s: State)
    requires Shape(s) && s.armed.Some? && s.sweep.None?
    requires 0 < ExpiredCount(s.queue, s.armed.value.target)
    ensures Shape(FireLeft(s))
    ensures var q, n := s.queue, ExpiredCount(s.queue, s.armed.value.target);
      Bag(FireLeft(s)) + multiset{q[0]} + ContBag(Serial(q[1..n])) == Bag(s)
  {
    var q, n := s.queue, ExpiredCount(s.queue, s.armed.value.target);
    FireLeftShape(s);
    HeadSplit(q[..n]);
    assert q[..n][1..] == q[1..n];
  }

  lemma HeadSplit(p: seq<Entry>)
    requires |p| > 0
    ensures multiset(p) == multiset{p[0]} + multiset(p[1..])
  {
    assert p == [p[0]] + p[1..];
  }

  lemma FireSweepKeepsWF(s: State, nowReal: real)
    requires WellFormed(s) && s.armed.Some? && s.sweep.None? && s.rate.Paced?
    ensures WellFormed(Fire(s, nowReal))
  {
    var q, n := s.queue, ExpiredCount(s.queue, s.armed.value.target);
    var left := FireLeft(s);
    FireLeftShape(s);
    assert Bag(left.(sweep := Some(q[..n]))) == Bag(s);
    assert Fire(s, nowReal) == left.(sweep := Some(q[..n]));
  }

  lemma SweepStepKeepsWF(s: State, nowReal: real)
    requires WellFormed(s) && s.sweep.Some?
    ensures WellFormed(SweepStep(s, nowReal))
  {
    var rest := s.sweep.value;
    if |rest| == 0 {
      assert Bag(s.(sweep := None)) == Bag(s);
      ScheduleKeepsWF(s.(sweep := None), nowReal);
    } else {
      var mid := s.(sweep := Some(rest[1..]));
      assert multiset(rest) == multiset{rest[0]} + multiset(rest[1..]) by {
        assert rest == [rest[0]] + rest[1..];
      }
      assert Bag(mid) + multiset{rest[0]} + ContBag(Detached) == Bag(s);
      StartKeepsWF(mid, rest[0], Detached);
    }
  }

  /** The in-flight ids other than the finished entry's stay among the
      callbacks left. */
  lemma RemoveIds(xs: seq<Exec>, k: nat, current: set<int>)
    requires k < |xs| && current <= ExecIds(xs)
    ensures current - {xs[k].entry.id} <= ExecIds(RemoveAt(xs, k))
  {
    var ys := RemoveAt(xs, k);
    forall id | id in current - {xs[k].entry.id}
      ensures id in ExecIds(ys)
    {
      var j :| 0 <= j < |xs| && xs[j].entry.id == id;
      if j < k {
        assert ys[j] == xs[j];
      } else {
        assert ys[j - 1] == xs[j];
      }
    }
  }

  /** The state `finish()` reaches before it reschedules or its discrete
      drain moves on: the callback is gone, an interval in flight is
      re-queued (and, in a discrete drain, rescheduled at once), and the id
      has left `current`. */
  ghost function FinishDone(s: State, k: nat, nowReal: real): State
    requires k < |s.executing|
  {
    var x := s.executing[k];
    var e := x.entry;
    var finished := s.(executing := RemoveAt(s.executing, k));
    var rearmed :=
      if e.kind.Interval? && e.id in s.current then
        var queued := finished.(queue := Enqueue(finished.queue, Rearmed(e)));
        if x.cont.Serial? then Schedule(queued, nowReal) else queued
      else finished;
    rearmed.(current := rearmed.current - {e.id})
  }

  ghost predicate Requeued(s: State, k: nat)
    requires k < |s.executing|
  {
    s.executing[k].entry.kind.Interval? && s.executing[k].entry.id in s.current
  }

  lemma FinishDoneShape(s: State, k: nat, nowReal: real)
    requires Shape(s) && k < |s.executing| && AllWellTimed(s.queue)
    requires Requeued(s, k) ==> WellTimed(s.executing[k].entry)
    ensures Shape(FinishDone(s, k, nowReal))
  {
    var e := s.executing[k].entry;
    RemoveIds(s.executing, k, s.current);
    if Requeued(s, k) {
      var _ := EnqueueSplicesAfterTies(s.queue, Rearmed(e));
      var _ := Enqueue(s.queue, Rearmed(e));
    }
  }

  /** The entry `finish()` puts back in the queue, if any. */
  ghost function RequeuedBag(s: State, k: nat): multiset<Entry>
    requires k < |s.executing|
  {
    if Requeued(s, k) then multiset{Rearmed(s.executing[k].entry)} else multiset{}
  }

  lemma FinishDoneBag(s: State, k: nat, nowReal: real)
    requires k < |s.executing|
    ensures var x := s.executing[k];
      Bag(FinishDone(s, k, nowReal)) + ContBag(x.cont) + multiset{x.entry} == Bag(s) + RequeuedBag(s, k)
  {
    var x := s.executing[k];
    var done := FinishDone(s, k, nowReal);
    FinishDoneFields(s, k, nowReal);
    ExecBagRemove(s.executing, k);
    assert multiset(done.queue) == multiset(s.queue) + RequeuedBag(s, k);
    assert Bag(done) == multiset(done.queue) + SweepBag(s) + ExecBag(done.executing);
    BagAlgebra(multiset(s.queue), multiset(done.queue), SweepBag(s), ExecBag(s.executing),
      ExecBag(done.executing), multiset{x.entry}, ContBag(x.cont), RequeuedBag(s, k));
  }

  lemma BagAlgebra(q: multiset<Entry>, q': multiset<Entry>, w: multiset<Entry>, x: multiset<Entry>,
                   x': multiset<Entry>, m: multiset<Entry>, c: multiset<Entry>, extra: multiset<Entry>)
    requires x == x' + m + c && q' == q + extra
    ensures q' + w + x' + c + m == q + w + x + extra
  {
  }

  lemma FinishDoneFields(s: State, k: nat, nowReal: real)
    requires k < |s.executing|
    ensures FinishDone(s, k, nowReal).executing == RemoveAt(s.executing, k)
    ensures FinishDone(s, k, nowReal).sweep == s.sweep
    ensures FinishDone(s, k, nowReal).current == s.current - {s.executing[k].entry.id}
    ensures FinishDone(s, k, nowReal).queue ==
      if Requeued(s, k) then Enqueue(s.queue, Rearmed(s.executing[k].entry)) else s.queue
  {
  }

  /** The entries left once a finished callback's entry is dropped stay well
      formed, and so do they when its re-queued successor replaces it. */
  lemma Drop(b: multiset<Entry>, n: nat, rest: multiset<Entry>, e: Entry)
    requires BagOK(b, n) && rest + multiset{e} == b
    ensures BagOK(rest, n)
  {
    assert rest == b - multiset{e};
    BagSub(b, rest, n, n);
  }

  lemma Replace(b: multiset<Entry>, n: nat, rest: multiset<Entry>, e: Entry, e': Entry)
    requires BagOK(b, n) && e in b && e'.id == e.id && WellTimed(e')
    requires rest + multiset{e} == b + multiset{e'}
    ensures BagOK(rest, n)
  {
    BagReplace(b, n, e, e');
    forall x
      ensures rest[x] == (b - multiset{e} + multiset{e'})[x]
    {
      assert (rest + multiset{e})[x] == (b + multiset{e'})[x];
    }
    assert rest == b - multiset{e} + multiset{e'};
  }

  lemma DropOrReplace(b: multiset<Entry>, n: nat, rest: multiset<Entry>, e: Entry,
                      extra: multiset<Entry>, requeued: bool)
    requires BagOK(b, n) && e in b && rest + multiset{e} == b + extra
    requires extra == if requeued && e.kind.Interval? then multiset{Rearmed(e)} else multiset{}
    ensures BagOK(rest, n)
  {
    if requeued && e.kind.Interval? {
      Replace(b, n, rest, e, Rearmed(e));
    } else {
      assert b + extra == b;
      Drop(b, n, rest, e);
    }
  }

  lemma ExecEntryInBag(s: State, k: nat)
    requires k < |s.executing|
    ensures s.executing[k].entry in Bag(s)
  {
    ExecBagRemove(s.executing, k);
  }

  lemma FinishDoneWF(s: State, k: nat, nowReal: real)
    requires WellFormed(s) && k < |s.executing|
    ensures Shape(FinishDone(s, k, nowReal))
  {
    ExecEntryInBag(s, k);
    QueueWellTimed(s);
    FinishDoneShape(s, k, nowReal);
  }

  lemma FinishDoneBagOK(s: State, k: nat, nowReal: real)
    requires BagOK(Bag(s), s.idSeq) && k < |s.executing|
    ensures BagOK(Bag(FinishDone(s, k, nowReal)) + ContBag(s.executing[k].cont), s.idSeq)
  {
    var e := s.executing[k].entry;
    var rest := Bag(FinishDone(s, k, nowReal)) + ContBag(s.executing[k].cont);
    FinishDoneBag(s, k, nowReal);
    ExecEntryInBag(s, k);
    DropOrReplace(Bag(s), s.idSeq, rest, e, RequeuedBag(s, k), Requeued(s, k));
  }

  lemma FinishDoneIdSeq(s: State, k: nat, nowReal: real)
    requires k < |s.executing|
    ensures FinishDone(s, k, nowReal).idSeq == s.idSeq
  {
    var e := s.executing[k].entry;
    var finished := s.(executing := RemoveAt(s.executing, k));
    if Requeued(s, k) {
      var queued := finished.(queue := Enqueue(finished.queue, Rearmed(e)));
      assert Schedule(queued, nowReal).idSeq == s.idSeq;
    }
  }

  /** `finish()` is its first stage followed by `_schedule()` or by the
      drain's `next()`. */
  lemma FinishIsDoneThenNext(s: State, k: nat, nowReal: real)
    requires k < |s.executing|
    ensures s.executing[k].cont.Detached? ==> Finish(s, k, nowReal) == Schedule(FinishDone(s, k, nowReal), nowReal)
    ensures s.executing[k].cont.Serial? ==>
      Finish(s, k, nowReal) == Next(FinishDone(s, k, nowReal), s.executing[k].cont.rest, nowReal)
  {
  }

  lemma FinishKeepsWF(s: State, k: nat, nowReal: real)
    requires WellFormed(s) && k < |s.executing|
    ensures WellFormed(Finish(s, k, nowReal))
  {
    FinishDoneWF(s, k, nowReal);
    FinishDoneBagOK(s, k, nowReal);
    FinishDoneIdSeq(s, k, nowReal);
    FinishIsDoneThenNext(s, k, nowReal);
    NextKeepsWF(FinishDone(s, k, nowReal), s.executing[k].cont, nowReal);
    if s.executing[k].cont.Detached? {
      ScheduleKeepsWF(FinishDone(s, k, nowReal), nowReal);
    }
  }

  /** Once a callback finishes, its id is no longer in flight, so a later
      `clearTimeout` of an interval it re-queued finds the entry in the
      queue; the callback leaves `executing`, and a discrete drain that moves
      on puts the next entry of its batch in its place. */
  lemma FinishRetiresId(s: State, k: nat, nowReal: real)
    requires WellFormed(s) && k < |s.executing|
    ensures var x, r := s.executing[k], Finish(s, k, nowReal);
      && x.entry.id !in r.current
      && |r.executing| == if x.cont.Serial? && |x.cont.rest| > 0 then |s.executing| else |s.executing| - 1
  {
    var x := s.executing[k];
    if x.cont.Serial? && |x.cont.rest| > 0 {
      BatchHeadIsAnother(Bag(s), s.idSeq, s.executing, k);
    }
  }

  /** The next entry of a discrete drain's batch is not the entry whose
      callback is running: both are held once in the bag, under distinct
      ids. */
  lemma BatchHeadIsAnother(b: multiset<Entry>, n: nat, xs: seq<Exec>, k: nat)
    requires k < |xs| && xs[k].cont.Serial? && |xs[k].cont.rest| > 0
    requires BagOK(b, n) && ExecBag(xs) <= b
    ensures xs[k].cont.rest[0].id != xs[k].entry.id
  {
    var x := xs[k];
    var rest := x.cont.rest;
    ExecBagRemove(xs, k);
    assert rest[0] in multiset(rest);
    var pair := multiset{x.entry} + multiset(rest);
    assert pair <= b;
    assert pair[rest[0]] <= 1;
  }

  /** A drain that moves on from a state whose entries, with the batch still
      to start, are well formed, reaches a well-formed state. */
  lemma NextKeepsWF(done: State, cont: Continuation, nowReal: real)
    requires Shape(done) && BagOK(Bag(done) + ContBag(cont), done.idSeq)
    ensures cont.Detached? ==> WellFormed(done)
    ensures cont.Serial? ==> WellFormed(Next(done, cont.rest, nowReal))
  {
    if cont.Serial? {
      var rest := cont.rest;
      if |rest| == 0 {
        assert Bag(done) + ContBag(cont) == Bag(done);
        ScheduleKeepsWF(done, nowReal);
      } else {
        assert Bag(done) + multiset{rest[0]} + ContBag(Serial(rest[1..])) == Bag(done) + ContBag(cont) by {
          assert rest == [rest[0]] + rest[1..];
        }
        StartKeepsWF(done, rest[0], Serial(rest[1..]));
      }
    } else {
      assert Bag(done) + ContBag(cont) == Bag(done);
    }
  }

  /** Every event keeps the state well formed: the queue stays sorted by
      time, no entry time is NaN, periods stay finite and non-negative, ids
      stay unique and below the counter, and every in-flight id belongs to a
      started callback. */
  lemma StepKeepsWellFormed(s: State, ev: Event, nowReal: real)
    requires WellFormed(s) && Enabled(s, ev)
    ensures WellFormed(Step(s, ev, nowReal))
  {
    match ev
    case ConfigCall(rate) => ConfigKeepsWF(s, rate, nowReal);
    case SetTimeCall(time) => SetTimeKeepsWF(s, time, nowReal);
    case PauseCall => PauseKeepsWF(s, nowReal);
    case ContinueCall => ContinueKeepsWF(s, nowReal);
    case SetTimeoutCall(delay) => SetTimeoutKeepsWF(s, delay, nowReal);
    case SetTriggerCall(time) => SetTriggerKeepsWF(s, time, nowReal);
    case SetIntervalCall(interval, firstTime) => SetIntervalKeepsWF(s, interval, firstTime, nowReal);
    case ClearTimeoutCall(id) => ClearTimeoutKeepsWF(s, id, nowReal);
    case ClearCall => ClearKeepsWF(s, nowReal);
    case HostTimerFires => FireKeepsWF(s, nowReal);
    case SweepContinues => SweepStepKeepsWF(s, nowReal);
    case CallbackFinishes(k) => FinishKeepsWF(s, k, nowReal);
  }

  /** A newly created timer is well formed. */
  lemma CreateIsWellFormed(rate: Option<Value>, nowReal: real)
    ensures Create(rate, nowReal).Ok? ==> WellFormed(Create(rate, nowReal).value)
  {
    if Create(rate, nowReal).Ok? {
      var r := Create(rate, nowReal).value;
      assert Bag(r) == multiset{};
    }
  }
}
