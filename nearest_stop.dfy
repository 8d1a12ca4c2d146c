/**
 The nearest-stop search of the bottom sheet: `closestStopToPosition` runs
 Swift's `min(by:)` over the enumerated stops, ordered by "distance to the
 position is strictly smaller". `min(by:)` keeps its current candidate unless a
 later element is strictly nearer, so among equally near stops the one with the
 lowest index wins.
 */
module NearestStop {

  function Abs(x: real): (r: real)
    ensures r >= 0.0
    ensures r == x || r == -x
  {
    if x < 0.0 then -x else x
  }

  /** The distance `abs(stop - position)` that the comparison closure measures. */
  function Dist(stop: real, position: real): real
  {
    Abs(stop - position)
  }

  /** `k` is the index `min(by:)` returns: no stop is nearer than `stops[k]`,
      and every stop before `k` is strictly farther away. */
  ghost predicate IsFirstNearest(stops: seq<real>, position: real, k: int)
  {
    && 0 <= k < |stops|
    && (forall j :: 0 <= j < |stops| ==> Dist(stops[k], position) <= Dist(stops[j], position))
    && (forall j :: 0 <= j < k ==> Dist(stops[k], position) < Dist(stops[j], position))
  }

  /** The index `min(by:)` settles on, defined as the left fold it performs:
      the candidate for a prefix is replaced by the next stop only when that
      stop is strictly nearer. */
  function NearestIndex(stops: seq<real>, position: real): (k: nat)
    requires |stops| > 0
    ensures IsFirstNearest(stops, position, k)
    decreases |stops|
  {
    if |stops| == 1 then 0
    else
      var n := |stops| - 1;
      var k := NearestIndex(stops[..n], position);
      if Dist(stops[n], position) < Dist(stops[k], position) then n else k
  }

  /** The characterisation pins the index down: whatever satisfies it is the
      index the search returns. */
  lemma NearestIndexUnique(stops: seq<real>, position: real, k: int)
    requires IsFirstNearest(stops, position, k)
    ensures k == NearestIndex(stops, position)
  {
  }

  /** What `closestStopToPosition` produces: the value it stores in
      `currentPosition` and the constraint constant it returns. */
  datatype Choice = Choice(index: int, constant: real)

  /** `closestStopToPosition(position:)`: the first nearest stop, returned
      negated; with no stops, index 0 and the negated peek height. */
  function Closest(stops: seq<real>, position: real, peekHeight: real): (c: Choice)
    ensures |stops| == 0 ==> c == Choice(0, -peekHeight)
    ensures |stops| > 0 ==> IsFirstNearest(stops, position, c.index) && c.constant == -stops[c.index]
  {
    if |stops| == 0 then Choice(0, -peekHeight)
    else
      var k := NearestIndex(stops, position);
      Choice(k, -stops[k])
  }

  /** The two-stop case the sheet actually has: the full-height stop wins only
      when it is strictly nearer than the peek stop. */
  lemma ClosestOfTwoStops(peekHeight: real, sheetHeight: real, position: real)
    ensures Closest([peekHeight, sheetHeight], position, peekHeight).index
         == if Dist(sheetHeight, position) < Dist(peekHeight, position) then 1 else 0
  {
  }
}
