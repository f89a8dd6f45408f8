/** `shuffle(o)` of lib/util.js: the in-place Fisher-Yates shuffle. Its
    source of randomness, `Math.random()`, becomes a sequence of draws in
    [0, 1), consumed one per step. */
module Shuffle {

  /** A draw for every step of shuffling `n` elements, each as
      `Math.random()` returns it. */
  predicate ValidDraws(draws: seq<real>, n: nat) {
    |draws| >= n && forall k :: 0 <= k < |draws| ==> 0.0 <= draws[k] < 1.0
  }

  /** `Math.floor(Math.random() * i)`: an index below `i`. */
  function Pick(d: real, i: nat): (j: nat)
    requires 0.0 <= d < 1.0 && i > 0
    ensures j < i
  {
    var x := d * i as real;
    assert x < i as real;
    x.Floor
  }

  /** Exchange the elements at `x` and `y`. */
  function Swap<T>(a: seq<T>, x: nat, y: nat): (r: seq<T>)
    requires x < |a| && y < |a|
    ensures |r| == |a|
    ensures r[x] == a[y] && r[y] == a[x]
    ensures forall k :: 0 <= k < |a| && k != x && k != y ==> r[k] == a[k]
  {
    a[x := a[y]][y := a[x]]
  }

  /** An exchange keeps the elements and their multiplicities. */
  lemma SwapPermutes<T>(a: seq<T>, x: nat, y: nat)
    requires x < |a| && y < |a|
    ensures multiset(Swap(a, x, y)) == multiset(a)
  {
  }

  /** The steps of the loop still to run when its counter is `i`: pick `j`
      below `i`, decrement `i`, exchange the elements at `i` and `j`. The
      step for counter `i` uses draw number `|a| - i`. */
  function ShuffleFrom<T>(a: seq<T>, draws: seq<real>, i: nat): (r: seq<T>)
    requires i <= |a| && ValidDraws(draws, |a|)
    ensures |r| == |a|
    decreases i
  {
    if i == 0 then a
    else
      var j := Pick(draws[|a| - i], i);
      ShuffleFrom(Swap(a, i - 1, j), draws, i - 1)
  }

  /** The whole shuffle, as a reference for the loop. */
  function Shuffled<T>(o: seq<T>, draws: seq<real>): seq<T>
    requires ValidDraws(draws, |o|)
  {
    ShuffleFrom(o, draws, |o|)
  }

  /** `shuffle(o)`: the loop runs on the array itself, which is also what
      the function returns. */
  method ShuffleInPlace<T>(o: array<T>, draws: seq<real>) returns (r: array<T>)
    requires ValidDraws(draws, o.Length)
    modifies o
    ensures r == o
    ensures o[..] == Shuffled(old(o[..]), draws)
  {
    ghost var original := o[..];
    var n := o.Length;
    var i := n;
    while i != 0
      invariant 0 <= i <= n
      invariant ShuffleFrom(o[..], draws, i) == Shuffled(original, draws)
      decreases i
    {
      var j := Pick(draws[n - i], i);
      ghost var before := o[..];
      assert ShuffleFrom(before, draws, i) == ShuffleFrom(Swap(before, i - 1, j), draws, i - 1);
      i := i - 1;
      var x := o[i];
      o[i] := o[j];
      o[j] := x;
      assert o[..] == Swap(before, i, j);
    }
    r := o;
  }

  /** Shuffling an array that holds `o` leaves it holding a permutation of
      `o`: the shuffle of the reference, with the same elements. */
  method ShuffleCopy<T>(o: seq<T>, draws: seq<real>) returns (r: seq<T>)
    requires ValidDraws(draws, |o|)
    ensures r == Shuffled(o, draws)
    ensures |r| == |o| && multiset(r) == multiset(o)
  {
    var a := new T[|o|](k requires 0 <= k < |o| => o[k]);
    assert a[..] == o;
    var same := ShuffleInPlace(a, draws);
    r := a[..];
    ShufflePermutes(o, draws, |o|);
  }

  /** The shuffle is a permutation of its input. */
  lemma {:induction false} ShufflePermutes<T>(a: seq<T>, draws: seq<real>, i: nat)
    requires i <= |a| && ValidDraws(draws, |a|)
    ensures multiset(ShuffleFrom(a, draws, i)) == multiset(a)
    decreases i
  {
    if i > 0 {
      var j := Pick(draws[|a| - i], i);
      SwapPermutes(a, i - 1, j);
      ShufflePermutes(Swap(a, i - 1, j), draws, i - 1);
    }
  }

  /** Once the counter has come down to `i`, the positions from `i` on are
      final: the remaining steps exchange only elements below `i`. */
  lemma {:induction false} ShuffleFixesTail<T>(a: seq<T>, draws: seq<real>, i: nat)
    requires i <= |a| && ValidDraws(draws, |a|)
    ensures forall k :: i <= k < |a| ==> ShuffleFrom(a, draws, i)[k] == a[k]
    decreases i
  {
    if i > 0 {
      var j := Pick(draws[|a| - i], i);
      var b := Swap(a, i - 1, j);
      ShuffleFixesTail(b, draws, i - 1);
      forall k | i <= k < |a|
        ensures ShuffleFrom(a, draws, i)[k] == a[k]
      {
        assert b[k] == a[k];
      }
    }
  }

  /** The last position receives the element the first draw picks, from
      anywhere in the array, itself included. */
  lemma LastPositionTakesFirstPick<T>(o: seq<T>, draws: seq<real>)
    requires |o| > 0 && ValidDraws(draws, |o|)
    ensures Shuffled(o, draws)[|o| - 1] == o[Pick(draws[0], |o|)]
  {
    var n := |o|;
    var j := Pick(draws[0], n);
    var b := Swap(o, n - 1, j);
    ShuffleFixesTail(b, draws, n - 1);
  }

  /** Arrays of fewer than two elements come back unchanged. */
  lemma ShortArrayUnchanged<T>(o: seq<T>, draws: seq<real>)
    requires |o| <= 1 && ValidDraws(draws, |o|)
    ensures Shuffled(o, draws) == o
  {
    if |o| == 1 {
      assert Swap(o, 0, Pick(draws[0], 1)) == o;
    }
  }
}
