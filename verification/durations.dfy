/** Reference definitions over sequences of successful probe delays and the
    facts that the engine's statistics fold relies on. A delay is a Go
    time.Duration (nanoseconds), modelled as an unbounded int. */
module Durations {

  function Max(a: int, b: int): (r: int) { if a < b then b else a }

  function Min(a: int, b: int): (r: int) { if a < b then a else b }

  ghost predicate NonNegative(ds: seq<int>) {
    forall i :: 0 <= i < |ds| ==> ds[i] >= 0
  }

  /** The total of the delays. */
  function Sum(ds: seq<int>): (r: int)
  {
    if ds == [] then 0 else ds[0] + Sum(ds[1..])
  }

  lemma {:induction false} SumAppend(ds: seq<int>, d: int)
    ensures Sum(ds + [d]) == Sum(ds) + d
  {
    if ds != [] {
      assert (ds + [d])[1..] == ds[1..] + [d];
      SumAppend(ds[1..], d);
    }
  }

  /** The largest of 0 and the delays (0 when there are none). */
  function MaxOf(ds: seq<int>): (r: int)
    ensures r >= 0
  {
    if ds == [] then 0 else Max(ds[0], MaxOf(ds[1..]))
  }

  /** MaxOf is the maximum of 0 and the delays: an upper bound of every delay
      that is either 0 or one of them. */
  lemma {:induction false} MaxOfIsMaximum(ds: seq<int>)
    ensures forall i :: 0 <= i < |ds| ==> ds[i] <= MaxOf(ds)
    ensures MaxOf(ds) == 0 || MaxOf(ds) in ds
  {
    if ds != [] {
      MaxOfIsMaximum(ds[1..]);
      forall i | 1 <= i < |ds|
        ensures ds[i] <= MaxOf(ds)
      {
        assert ds[i] == ds[1..][i - 1];
      }
    }
  }

  lemma {:induction false} MaxOfAppend(ds: seq<int>, d: int)
    ensures MaxOf(ds + [d]) == Max(MaxOf(ds), d)
  {
    if ds != [] {
      assert (ds + [d])[1..] == ds[1..] + [d];
      MaxOfAppend(ds[1..], d);
    }
  }

  /** The smallest delay, or 0 when there are none. */
  function MinOrZero(ds: seq<int>): (r: int)
  {
    if ds == [] then 0
    else if |ds| == 1 then ds[0]
    else Min(ds[0], MinOrZero(ds[1..]))
  }

  /** MinOrZero of a non-empty sequence is one of its delays and a lower bound
      of all of them. */
  lemma {:induction false} MinOrZeroIsMinimum(ds: seq<int>)
    requires ds != []
    ensures MinOrZero(ds) in ds
    ensures forall i :: 0 <= i < |ds| ==> MinOrZero(ds) <= ds[i]
  {
    if |ds| > 1 {
      MinOrZeroIsMinimum(ds[1..]);
      forall i | 1 <= i < |ds|
        ensures MinOrZero(ds) <= ds[i]
      {
        assert ds[i] == ds[1..][i - 1];
      }
    }
  }

  lemma {:induction false} MinOrZeroAppend(ds: seq<int>, d: int)
    ensures MinOrZero(ds + [d]) == if ds == [] then d else Min(MinOrZero(ds), d)
  {
    if |ds| == 1 {
      assert (ds + [d])[1..] == [d];
    } else if |ds| > 1 {
      assert (ds + [d])[1..] == ds[1..] + [d];
      MinOrZeroAppend(ds[1..], d);
    }
  }

  /** The delays recorded after the last zero delay. */
  function SinceLastZero(ds: seq<int>): (r: seq<int>)
    ensures |r| <= |ds|
  {
    if ds == [] then []
    else if ds[|ds| - 1] == 0 then []
    else SinceLastZero(ds[..|ds| - 1]) + [ds[|ds| - 1]]
  }

  /** SinceLastZero is the longest suffix of ds that holds no zero: it ends ds,
      has no zero in it, and is preceded by a zero unless it is all of ds. */
  lemma {:induction false} SinceLastZeroIsSuffix(ds: seq<int>)
    ensures var r := SinceLastZero(ds);
      (forall i :: 0 <= i < |r| ==> r[i] == ds[|ds| - |r| + i] && r[i] != 0) &&
      (|r| < |ds| ==> ds[|ds| - |r| - 1] == 0)
  {
    if ds != [] && ds[|ds| - 1] != 0 {
      var init := ds[..|ds| - 1];
      SinceLastZeroIsSuffix(init);
      var r := SinceLastZero(init);
      assert SinceLastZero(ds) == r + [ds[|ds| - 1]];
      forall i | 0 <= i < |r|
        ensures r[i] == ds[|ds| - |r| - 1 + i]
      {
        assert init[|init| - |r| + i] == ds[|ds| - |r| - 1 + i];
      }
    }
  }

  lemma SinceLastZeroAppend(ds: seq<int>, d: int)
    ensures SinceLastZero(ds + [d]) == if d == 0 then [] else SinceLastZero(ds) + [d]
  {
  }

  /** The minimum the engine records: the smallest delay since the last zero
      delay, or 0 when no delay follows it. */
  function RecordedMin(ds: seq<int>): (r: int)
  {
    MinOrZero(SinceLastZero(ds))
  }

  /** Over non-negative delays, RecordedMin is 0 exactly when no delay follows
      the last zero, it is otherwise one of the delays since then and a lower
      bound of them, and it never exceeds the largest delay. */
  lemma {:induction false} RecordedMinBounds(ds: seq<int>)
    requires NonNegative(ds)
    ensures RecordedMin(ds) == 0 <==> SinceLastZero(ds) == []
    ensures 0 <= RecordedMin(ds) <= MaxOf(ds)
  {
    var s := SinceLastZero(ds);
    SinceLastZeroIsSuffix(ds);
    if s != [] {
      MinOrZeroIsMinimum(s);
      MaxOfIsMaximum(ds);
      var k :| 0 <= k < |s| && s[k] == MinOrZero(s);
      assert s[k] == ds[|ds| - |s| + k];
    }
  }

  /** The statistics the engine keeps for the successful delays ds: their
      number, their total, the largest of 0 and them, and the minimum recorded
      with 0 standing for "unset". */
  ghost predicate Summarises(ds: seq<int>, count: int, minD: int, maxD: int, total: int) {
    NonNegative(ds) &&
    count == |ds| && total == Sum(ds) && maxD == MaxOf(ds) && minD == RecordedMin(ds) &&
    0 <= minD <= maxD && 0 <= total
  }

  /** One successful delay d folded into the statistics of ds. The maximum
      grows to d; the minimum becomes d when d is 0 or the minimum was unset,
      and the smaller of the two otherwise. */
  lemma FoldSuccess(ds: seq<int>, count: int, minD: int, maxD: int, total: int, d: int)
    requires Summarises(ds, count, minD, maxD, total) && d >= 0
    ensures Summarises(ds + [d], count + 1,
      if d == 0 || minD == 0 then d else Min(minD, d), Max(maxD, d), total + d)
  {
    SumAppend(ds, d);
    MaxOfAppend(ds, d);
    SinceLastZeroAppend(ds, d);
    MinOrZeroAppend(SinceLastZero(ds), d);
    RecordedMinBounds(ds);
    RecordedMinBounds(ds + [d]);
  }
}
