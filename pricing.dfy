/** The price statistics of an asset (storage/models.py, `Asset`): Python's
    `round` on a Decimal, quarter rounding, and the average and median of the
    price history. Prices are exact rationals (`real`), standing for Decimal
    values; the final `int / 4` of the source, a float there, is exact here. */
module Pricing {
  import opened Wrappers
  import Sorting

  /** `round(x)` of a Decimal with no digits argument: the nearest integer,
      ties going to the even neighbour (Decimal's default half-even rounding). */
  function RoundHalfEven(x: real): (n: int)
    ensures -0.5 <= x - n as real <= 0.5
    ensures (x - n as real == 0.5 || x - n as real == -0.5) ==> n % 2 == 0
  {
    var f := x.Floor;
    var d := x - f as real;
    if d < 0.5 then f
    else if d > 0.5 then f + 1
    else if f % 2 == 0 then f
    else f + 1
  }

  /** Any integer within 1/2 of `x`, and even when exactly 1/2 away, is the
      rounded value: together with the ensures of RoundHalfEven this pins it down. */
  lemma RoundHalfEvenUnique(x: real, m: int)
    requires -0.5 <= x - m as real <= 0.5
    requires (x - m as real == 0.5 || x - m as real == -0.5) ==> m % 2 == 0
    ensures RoundHalfEven(x) == m
  {
  }

  /** `value` is an exact multiple of 1/4. */
  predicate IsQuarter(value: real)
  {
    (value * 4.0).Floor as real == value * 4.0
  }

  lemma QuarterOf(n: int)
    ensures n as real / 4.0 * 4.0 == n as real
    ensures IsQuarter(n as real / 4.0)
  {
  }

  /** `round_to_nearest_quarter`: None stays None; otherwise `round(value * 4) / 4`. */
  function RoundToNearestQuarter(value: Option<real>): (r: Option<real>)
    ensures r.None? <==> value.None?
    ensures r.Some? ==> IsQuarter(r.value)
    ensures r.Some? ==> -0.125 <= r.value - value.value <= 0.125
  {
    match value
    case None => None
    case Some(v) =>
      var n := RoundHalfEven(v * 4.0);
      QuarterOf(n);
      Some(n as real / 4.0)
  }

  /** An exact tie between two quarters goes to the one that is an even number of quarters. */
  lemma QuarterTiesToEven(v: real)
    requires v * 4.0 - (v * 4.0).Floor as real == 0.5
    ensures RoundToNearestQuarter(Some(v)).value * 4.0 == ((v * 4.0).Floor + (v * 4.0).Floor % 2) as real
  {
    var x := v * 4.0;
    var f := x.Floor;
    var m := f + f % 2;
    assert x - m as real == 0.5 || x - m as real == -0.5;
    RoundHalfEvenUnique(x, m);
    QuarterOf(m);
  }

  /** `price` has at most two decimal places, as the `decimal_places=2` price
      field of an import item requires. */
  predicate HasTwoDecimals(price: real)
  {
    (price * 100.0).Floor as real == price * 100.0
  }

  lemma QuarterCents(n: int)
    ensures n as real / 4.0 * 100.0 == (25 * n) as real
  {
  }

  /** A quarter-rounded value is an amount with two decimal places. */
  lemma QuarterHasTwoDecimals(v: real)
    ensures HasTwoDecimals(RoundToNearestQuarter(Some(v)).value)
  {
    var n := RoundHalfEven(v * 4.0);
    QuarterCents(n);
    var cents := 25 * n;
    assert (cents as real).Floor == cents;
  }

  function Sum(s: seq<real>): real
  {
    if s == [] then 0.0 else s[0] + Sum(s[1..])
  }

  lemma {:induction false} SumRemove(s: seq<real>, j: nat)
    requires j < |s|
    ensures Sum(s) == s[j] + Sum(s[..j] + s[j + 1..])
  {
    if j > 0 {
      SumRemove(s[1..], j - 1);
      var rest := s[1..][..j - 1] + s[1..][j..];
      assert s[..j] + s[j + 1..] == [s[0]] + rest;
      assert ([s[0]] + rest)[1..] == rest;
    } else {
      assert s[..j] + s[j + 1..] == s[1..];
    }
  }

  /** Removing the price at `j` removes one copy of it from the multiset. */
  lemma MultisetRemove(b: seq<real>, j: nat)
    requires j < |b|
    ensures multiset(b[..j] + b[j + 1..]) == multiset(b) - multiset{b[j]}
  {
    assert b == b[..j] + [b[j]] + b[j + 1..];
  }

  /** The sum does not depend on the order of the prices. */
  lemma {:induction false} SumPermutation(a: seq<real>, b: seq<real>)
    requires multiset(a) == multiset(b)
    ensures Sum(a) == Sum(b)
  {
    if a != [] {
      assert a[0] in multiset(b);
      var j :| 0 <= j < |b| && b[j] == a[0];
      MultisetRemove(b, j);
      MultisetTail(a);
      SumPermutation(a[1..], b[..j] + b[j + 1..]);
      SumRemove(b, j);
    } else {
      assert |b| == |multiset(b)| == 0;
    }
  }

  lemma {:induction false} SumBounds(s: seq<real>, lo: real, hi: real)
    requires forall i :: 0 <= i < |s| ==> lo <= s[i] <= hi
    ensures |s| as real * lo <= Sum(s) <= |s| as real * hi
  {
    if s != [] {
      SumBounds(s[1..], lo, hi);
      assert |s| as real * lo == lo + (|s| - 1) as real * lo;
      assert |s| as real * hi == hi + (|s| - 1) as real * hi;
    }
  }

  lemma DivideBounds(s: real, n: real, lo: real, hi: real)
    requires n > 0.0 && n * lo <= s <= n * hi
    ensures lo <= s / n <= hi
  {
    assert s / n * n == s;
  }

  /** The exact arithmetic mean of a non-empty history. */
  function Mean(history: seq<real>): real
    requires history != []
  {
    Sum(history) / |history| as real
  }

  /** `average_price`: None on an empty history, otherwise the quarter-rounded mean. */
  function AveragePrice(history: seq<real>): (r: Option<real>)
    ensures r.None? <==> history == []
    ensures r.Some? ==> IsQuarter(r.value) && -0.125 <= r.value - Mean(history) <= 0.125
  {
    if history == [] then None
    else RoundToNearestQuarter(Some(Mean(history)))
  }

  /** The average lies between the cheapest and the dearest price, give or take
      the 1/8 of quarter rounding. */
  lemma AveragePriceBounds(history: seq<real>, lo: real, hi: real)
    requires history != []
    requires forall i :: 0 <= i < |history| ==> lo <= history[i] <= hi
    ensures lo - 0.125 <= AveragePrice(history).value <= hi + 0.125
  {
    var n := |history| as real;
    SumBounds(history, lo, hi);
    DivideBounds(Sum(history), n, lo, hi);
  }

  /** Reordering the history does not change the average. */
  lemma AveragePricePermutation(a: seq<real>, b: seq<real>)
    requires multiset(a) == multiset(b)
    ensures AveragePrice(a) == AveragePrice(b)
  {
    if a != [] {
      SumPermutation(a, b);
      assert |a| == |multiset(a)| == |multiset(b)| == |b|;
    }
  }

  /** The order `sorted` uses on Decimals. */
  predicate PriceLe(x: real, y: real)
  {
    x <= y
  }

  /** `sorted(map(Decimal, price_history))`. */
  function SortedPrices(history: seq<real>): seq<real>
  {
    Sorting.SortBy(history, PriceLe)
  }

  lemma PriceLeTotalPreorder()
    ensures Sorting.TotalPreorder(PriceLe)
  {
  }

  lemma SortedPricesSorted(history: seq<real>)
    ensures |SortedPrices(history)| == |history|
    ensures multiset(SortedPrices(history)) == multiset(history)
    ensures forall i, j :: 0 <= i < j < |history| ==> SortedPrices(history)[i] <= SortedPrices(history)[j]
  {
    PriceLeTotalPreorder();
    Sorting.SortBySorted(history, PriceLe);
  }

  /** Dropping the first price drops one copy of it from the multiset. */
  lemma MultisetTail(a: seq<real>)
    requires a != []
    ensures multiset(a[1..]) == multiset(a) - multiset{a[0]}
  {
    assert a == [a[0]] + a[1..];
  }

  /** Two sorted sequences holding the same prices start with the same price. */
  lemma SortedSameHead(a: seq<real>, b: seq<real>)
    requires a != [] && b != []
    requires forall i, j :: 0 <= i < j < |a| ==> a[i] <= a[j]
    requires forall i, j :: 0 <= i < j < |b| ==> b[i] <= b[j]
    requires multiset(a) == multiset(b)
    ensures a[0] == b[0]
  {
    assert a[0] in multiset(b);
    assert b[0] in multiset(a);
    var j :| 0 <= j < |b| && b[j] == a[0];
    var i :| 0 <= i < |a| && a[i] == b[0];
    assert b[0] <= b[j] && a[0] <= a[i];
  }

  /** Two sorted sequences holding the same prices are equal. */
  lemma {:induction false} SortedUnique(a: seq<real>, b: seq<real>)
    requires forall i, j :: 0 <= i < j < |a| ==> a[i] <= a[j]
    requires forall i, j :: 0 <= i < j < |b| ==> b[i] <= b[j]
    requires multiset(a) == multiset(b)
    ensures a == b
  {
    assert |a| == |multiset(a)| == |multiset(b)| == |b|;
    if a != [] {
      SortedSameHead(a, b);
      MultisetTail(a);
      MultisetTail(b);
      SortedUnique(a[1..], b[1..]);
      assert a == [a[0]] + a[1..] && b == [b[0]] + b[1..];
    }
  }

  /** The unrounded median: the middle element of the sorted history, or the
      mean of the two middle elements when the length is even. */
  function MedianValue(history: seq<real>): real
    requires history != []
  {
    var sorted := SortedPrices(history);
    var mid := |sorted| / 2;
    if |sorted| % 2 == 0 then (sorted[mid - 1] + sorted[mid]) / 2.0
    else sorted[mid]
  }

  /** `median_price`: None on an empty history, otherwise the quarter-rounded median. */
  function MedianPrice(history: seq<real>): (r: Option<real>)
    ensures r.None? <==> history == []
    ensures r.Some? ==> IsQuarter(r.value) && -0.125 <= r.value - MedianValue(history) <= 0.125
  {
    if history == [] then None
    else RoundToNearestQuarter(Some(MedianValue(history)))
  }

  /** One formula for both parities: the mean of the elements at (n-1)/2 and
      n/2 of the sorted history, which coincide when n is odd. */
  lemma MedianValueMiddle(history: seq<real>)
    requires history != []
    ensures MedianValue(history)
         == (SortedPrices(history)[(|history| - 1) / 2] + SortedPrices(history)[|history| / 2]) / 2.0
  {
  }

  /** Reordering the history does not change the median. */
  lemma MedianPricePermutation(a: seq<real>, b: seq<real>)
    requires multiset(a) == multiset(b)
    ensures MedianPrice(a) == MedianPrice(b)
  {
    SortedPricesSorted(a);
    SortedPricesSorted(b);
    SortedUnique(SortedPrices(a), SortedPrices(b));
    assert |a| == |multiset(a)| == |multiset(b)| == |b|;
  }

  /** The median lies between the cheapest and the dearest price, give or take
      the 1/8 of quarter rounding. */
  lemma MedianPriceBounds(history: seq<real>, lo: real, hi: real)
    requires history != []
    requires forall i :: 0 <= i < |history| ==> lo <= history[i] <= hi
    ensures lo - 0.125 <= MedianPrice(history).value <= hi + 0.125
  {
    SortedPricesSorted(history);
    var sorted := SortedPrices(history);
    forall k | 0 <= k < |sorted|
      ensures lo <= sorted[k] <= hi
    {
      assert sorted[k] in multiset(history);
    }
  }
}
