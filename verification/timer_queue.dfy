/** The time-sorted queue of scheduled entries kept by the scheduler of
    dist/hypertimer.js (its `timeouts` array), with the three operations the
    scheduler performs on it: the stable sorted insert `_queueTimeout`, the
    removal of one entry by id in `clearTimeout`, and the split of the expired
    prefix in `onTimeout`. */
module TimerQueue {
  import opened JsNumber

  /** `TYPE.TIMEOUT`, `TYPE.INTERVAL` (with its period) and `TYPE.TRIGGER`. */
  datatype Kind = Timeout | Interval(period: Num) | Trigger

  /** A scheduled entry; its callback is not part of the model. */
  datatype Entry = Entry(id: nat, kind: Kind, time: Num)

  /** The shape every entry the scheduler creates has: a time that is not
      NaN (it may be infinite), and for an interval a finite period >= 0. */
  predicate WellTimed(e: Entry) {
    && !e.time.NaN?
    && (e.kind.Interval? ==> e.kind.period.Fin? && e.kind.period.val >= 0.0)
  }

  predicate AllWellTimed(q: seq<Entry>) {
    forall i :: 0 <= i < |q| ==> WellTimed(q[i])
  }

  /** Ascending by time; ties may appear in any order. */
  predicate Sorted(q: seq<Entry>) {
    forall i, j :: 0 <= i < j < |q| ==> AtMost(q[i].time, q[j].time)
  }

  /** `list()`: the ids of the queued entries, in queue order. */
  function Ids(q: seq<Entry>): (r: seq<nat>)
    ensures |r| == |q|
    ensures forall i :: 0 <= i < |q| ==> r[i] == q[i].id
  {
    seq(|q|, i requires 0 <= i < |q| => q[i].id)
  }

  /** The position `_queueTimeout` inserts an entry of time `t` at. Like the
      loop of the source it scans from the back and stops at the first entry
      whose time is not greater than `t`; the entry goes right after it. */
  function InsertPos(q: seq<Entry>, t: Num): (k: nat)
    ensures k <= |q|
    ensures forall j :: k <= j < |q| ==> Less(t, q[j].time)
    ensures 0 < k ==> !Less(t, q[k - 1].time)
    decreases |q|
  {
    if |q| == 0 || !Less(t, q[|q| - 1].time) then |q|
    else InsertPos(q[..|q| - 1], t)
  }

  /** `_queueTimeout(timeout)`: splice the entry in at `InsertPos`. */
  function Enqueue(q: seq<Entry>, e: Entry): (r: seq<Entry>)
    ensures |r| == |q| + 1
    ensures multiset(r) == multiset(q) + multiset{e}
  {
    var k := InsertPos(q, e.time);
    assert q == q[..k] + q[k..];
    q[..k] + [e] + q[k..]
  }

  /** On a sorted queue, the new entry lands immediately after every entry of
      equal or smaller time and before every entry of greater time, nothing
      else moves, and the queue stays sorted. */
  lemma EnqueueSplicesAfterTies(q: seq<Entry>, e: Entry) returns (k: nat)
    requires Sorted(q) && AllWellTimed(q) && WellTimed(e)
    ensures k <= |q|
    ensures Enqueue(q, e) == q[..k] + [e] + q[k..]
    ensures forall j :: 0 <= j < k ==> AtMost(q[j].time, e.time)
    ensures forall j :: k <= j < |q| ==> Less(e.time, q[j].time)
    ensures Sorted(Enqueue(q, e))
  {
    k := InsertPos(q, e.time);
    forall j | 0 <= j < k
      ensures AtMost(q[j].time, e.time)
    {
      OrderFacts(q[j].time, q[k - 1].time, e.time);
      OrderFacts(q[k - 1].time, e.time, e.time);
    }
    SpliceSorted(q, e, k);
  }

  /** Splicing an entry into a sorted queue between the entries no later
      than it and the entries later than it keeps the queue sorted. */
  lemma SpliceSorted(q: seq<Entry>, e: Entry, k: nat)
    requires Sorted(q) && AllWellTimed(q) && WellTimed(e) && k <= |q|
    requires forall j :: 0 <= j < k ==> AtMost(q[j].time, e.time)
    requires forall j :: k <= j < |q| ==> Less(e.time, q[j].time)
    ensures Sorted(q[..k] + [e] + q[k..])
  {
    var r := q[..k] + [e] + q[k..];
    forall i, j | 0 <= i < j < |r|
      ensures AtMost(r[i].time, r[j].time)
    {
      if j == k {
        assert r[i] == q[i];
      } else if i == k {
        assert r[j] == q[j - 1];
        OrderFacts(e.time, q[j - 1].time, q[j - 1].time);
      } else {
        var qi := if i < k then i else i - 1;
        var qj := if j < k then j else j - 1;
        assert r[i] == q[qi] && r[j] == q[qj];
      }
    }
  }

  /** The index of the first entry with id `id`, or `|q|` when there is none:
      the search loop of `clearTimeout`. */
  function IndexOf(q: seq<Entry>, id: int): (i: nat)
    ensures i <= |q|
    ensures i < |q| ==> q[i].id == id
    ensures forall j :: 0 <= j < i ==> q[j].id != id
  {
    if |q| == 0 then 0
    else if q[0].id == id then 0
    else 1 + IndexOf(q[1..], id)
  }

  /** `splice(i, 1)` */
  function RemoveAt<T>(q: seq<T>, i: nat): (r: seq<T>)
    requires i < |q|
    ensures |r| == |q| - 1
    ensures multiset(r) == multiset(q) - multiset{q[i]}
  {
    assert q == q[..i] + [q[i]] + q[i + 1..];
    q[..i] + q[i + 1..]
  }

  lemma RemoveAtSplits<T>(q: seq<T>, i: nat)
    requires i < |q|
    ensures q == q[..i] + ([q[i]] + q[i + 1..])
    ensures RemoveAt(q, i) == q[..i] + q[i + 1..]
  {
  }

  /** Removing an entry from a sorted queue keeps it sorted and keeps the
      other entries in their relative order. */
  lemma RemoveKeepsOrder(q: seq<Entry>, i: nat)
    requires i < |q| && Sorted(q)
    ensures Sorted(RemoveAt(q, i))
    ensures forall j :: 0 <= j < |q| - 1 ==> RemoveAt(q, i)[j] == q[if j < i then j else j + 1]
  {
  }

  /** Whether `onTimeout`, fired for the time `t`, takes an entry of time
      `x`: its time is at most `t`, or it is not finite. */
  predicate Expired(x: Num, t: Num) {
    AtMost(x, t) || !x.IsFinite()
  }

  /** The length of the prefix `onTimeout` splices off the queue: its loop
      advances while the entry under the index is expired. */
  function ExpiredCount(q: seq<Entry>, t: Num): (n: nat)
    ensures n <= |q|
    ensures forall j :: 0 <= j < n ==> Expired(q[j].time, t)
    ensures n < |q| ==> !Expired(q[n].time, t)
  {
    if |q| == 0 || !Expired(q[0].time, t) then 0
    else 1 + ExpiredCount(q[1..], t)
  }

  /** On a sorted queue the split is exact: the batch and the remainder make
      up the old queue, every entry left is due strictly after `t`, and the
      batch contains the head whenever the head is due. */
  lemma ExpiredSplit(q: seq<Entry>, t: Num)
    requires Sorted(q) && AllWellTimed(q) && !t.NaN?
    ensures forall j :: ExpiredCount(q, t) <= j < |q| ==> Less(t, q[j].time)
    ensures 0 < |q| && Expired(q[0].time, t) ==> 0 < ExpiredCount(q, t)
  {
    var n := ExpiredCount(q, t);
    SplitJoin(q, n);
    forall j | n <= j < |q|
      ensures Less(t, q[j].time)
    {
      assert WellTimed(q[n]) && WellTimed(q[j]);
      assert n == j || AtMost(q[n].time, q[j].time);
      NotExpiredIsLater(q[n].time, q[j].time, t);
    }
  }

  lemma SplitJoin<T>(q: seq<T>, n: nat)
    requires n <= |q|
    ensures q[..n] + q[n..] == q
  {
  }

  /** An entry of time `x` at or after one of time `h` that is not expired
      for `t` is due strictly after `t`. */
  lemma NotExpiredIsLater(h: Num, x: Num, t: Num)
    requires !h.NaN? && !x.NaN? && !t.NaN?
    requires !Expired(h, t) && (h == x || AtMost(h, x))
    ensures Less(t, x)
  {
    OrderFacts(h, t, t);
    OrderFacts(t, h, x);
  }
}
