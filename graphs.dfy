/**
 * The data preparation of graphs.py: `submissions` buckets (day, rating, count) rows
 * and stacks the ratings into bands, one band per rating, each starting where the
 * previous rating's band ends; `users` splits (day, count) rows into three parallel
 * lists. Days are abstract integer keys; the plotting is not modelled.
 */
module Graphs {
  import opened Wrappers
  import opened Sorting
  import opened Buckets

  /** `RATINGS`, in stacking order. */
  const Ratings: seq<int> := [10, 20, 30, 40]

  /** A query row `(day, rating, count)`. */
  type SubmissionRow = Entry<int, int, int>

  /** `counts.get(rating, 0)`: the last count given for (day, rating), 0 when there is none. */
  function Count(input: seq<SubmissionRow>, day: int, rating: int): int {
    Last(input, day, rating).GetOr(0)
  }

  /** The day's counts summed over the first `k` ratings: the top of the k-th band. */
  function Stack(input: seq<SubmissionRow>, day: int, k: nat): int
    requires k <= |Ratings|
  {
    if k == 0 then 0 else Stack(input, day, k - 1) + Count(input, day, Ratings[k - 1])
  }

  /**
   * The band of rating `Ratings[k]` is complete for the first `len` days: its lower
   * bound is the stack of the ratings below it and its upper bound adds its own count.
   */
  ghost predicate Band(input: seq<SubmissionRow>, days: seq<int>, lower: map<int, seq<int>>, upper: map<int, seq<int>>,
                       k: nat, len: nat)
    requires k < |Ratings| && len <= |days|
  {
    && Ratings[k] in lower && Ratings[k] in upper
    && |lower[Ratings[k]]| == len && |upper[Ratings[k]]| == len
    && forall i :: 0 <= i < len ==>
         lower[Ratings[k]][i] == Stack(input, days[i], k) && upper[Ratings[k]][i] == Stack(input, days[i], k + 1)
  }

  /**
   * `days` lists each day once, ascending; every rating has a lower and an upper list as
   * long as `days`; the bands stack without gaps from 0, each is as wide as that day's
   * count for its rating (0 if none), and the top band ends at the day's total over
   * `Ratings`: rows for any other rating contribute nothing.
   */
  method Submissions(input: seq<SubmissionRow>) returns (days: seq<int>, lowerBounds: map<int, seq<int>>, upperBounds: map<int, seq<int>>)
    ensures StrictlySortedBy(days, Identity)
    ensures forall d :: d in days <==> d in Keys(input)
    ensures lowerBounds.Keys == upperBounds.Keys == {10, 20, 30, 40}
    ensures forall r :: r in Ratings ==> |lowerBounds[r]| == |days| && |upperBounds[r]| == |days|
    ensures forall i :: 0 <= i < |days| ==> lowerBounds[10][i] == 0
    ensures forall r, i :: r in {20, 30, 40} && 0 <= i < |days| ==> lowerBounds[r][i] == upperBounds[r - 10][i]
    ensures forall r, i :: r in Ratings && 0 <= i < |days| ==>
              upperBounds[r][i] - lowerBounds[r][i] == Count(input, days[i], r)
    ensures forall i :: 0 <= i < |days| ==>
              upperBounds[40][i] == Count(input, days[i], 10) + Count(input, days[i], 20)
                                  + Count(input, days[i], 30) + Count(input, days[i], 40)
  {
    var results, items := Days(input);
    days := [];
    lowerBounds := map[10 := [], 20 := [], 30 := [], 40 := []];
    upperBounds := map[10 := [], 20 := [], 30 := [], 40 := []];
    for n := 0 to |items|
      invariant days == items[..n]
      invariant lowerBounds.Keys == upperBounds.Keys == {10, 20, 30, 40}
      invariant forall k :: 0 <= k < |Ratings| ==> Band(input, days, lowerBounds, upperBounds, k, n)
    {
      var day := items[n];
      var counts := results[day];
      BandsGrow(input, days, day, lowerBounds, upperBounds);
      days := days + [day];
      lowerBounds, upperBounds := StackDay(input, days, n, counts, lowerBounds, upperBounds);
    }
    assert days == items;
    BandsStack(input, days, lowerBounds, upperBounds);
  }

  /**
   * `results` and `sorted(results)`: each day's counts by rating (the last row for the
   * pair wins), and the days in ascending order.
   */
  method Days(input: seq<SubmissionRow>) returns (results: map<int, map<int, int>>, items: seq<int>)
    ensures StrictlySortedBy(items, Identity)
    ensures forall d :: d in items <==> d in Keys(input)
    ensures forall d :: d in items ==> d in results
    ensures forall d, r :: d in results ==> Get(results[d], r) == Last(input, d, r)
  {
    var order;
    results, order := Group(input);
    assert DistinctKeys(order, Identity);
    SortByStrict(order, Identity);
    items := SortBy(order, Identity);
    forall d ensures d in items <==> d in order {
      InPermutation(order, items, d);
    }
  }

  /**
   * The inner loop over `RATINGS` for the last day of `days`: each rating appends, as
   * its lower bound, the upper bound the previous rating has just appended (0 for the
   * first), and as its upper bound that plus the day's count for the rating.
   */
  method StackDay(input: seq<SubmissionRow>, days: seq<int>, n: nat, counts: map<int, int>,
                  lower: map<int, seq<int>>, upper: map<int, seq<int>>)
      returns (lowerBounds: map<int, seq<int>>, upperBounds: map<int, seq<int>>)
    requires |days| == n + 1
    requires forall r :: Get(counts, r) == Last(input, days[n], r)
    requires lower.Keys == upper.Keys == {10, 20, 30, 40}
    requires forall k :: 0 <= k < |Ratings| ==> Band(input, days, lower, upper, k, n)
    ensures lowerBounds.Keys == upperBounds.Keys == {10, 20, 30, 40}
    ensures forall k :: 0 <= k < |Ratings| ==> Band(input, days, lowerBounds, upperBounds, k, |days|)
  {
    var day := days[n];
    lowerBounds, upperBounds := lower, upper;
    for k := 0 to |Ratings|
      invariant lowerBounds.Keys == upperBounds.Keys == {10, 20, 30, 40}
      invariant forall kk :: 0 <= kk < k ==> Band(input, days, lowerBounds, upperBounds, kk, |days|)
      invariant forall kk :: k <= kk < |Ratings| ==> Band(input, days, lowerBounds, upperBounds, kk, n)
    {
      var rating := Ratings[k];
      // the top of the band of the rating below, or 0 for the first rating
      var got := Get(upperBounds, rating - 10);
      var list := if got.None? || got.value == [] then [0] else got.value;
      var last := list[|list| - 1];
      assert last == Stack(input, day, k) by {
        if k > 0 {
          assert rating - 10 == Ratings[k - 1];
          assert Band(input, days, lowerBounds, upperBounds, k - 1, |days|);
        } else {
          assert rating - 10 !in upperBounds;
        }
      }
      var top := Get(counts, rating).GetOr(0) + last;
      ghost var (lower0, upper0) := (lowerBounds, upperBounds);
      lowerBounds := lowerBounds[rating := lowerBounds[rating] + [last]];
      upperBounds := upperBounds[rating := upperBounds[rating] + [top]];
      BandExtend(input, days, n, lower0, upper0, k, last, top);
      forall kk | 0 <= kk < k ensures Band(input, days, lowerBounds, upperBounds, kk, |days|) {
        BandOther(input, days, lower0, upper0, k, kk, |days|, last, top);
      }
      forall kk | k < kk < |Ratings| ensures Band(input, days, lowerBounds, upperBounds, kk, n) {
        BandOther(input, days, lower0, upper0, k, kk, n, last, top);
      }
    }
  }

  /** Bands complete for the days so far stay complete when a day is added after them. */
  lemma BandsGrow(input: seq<SubmissionRow>, days: seq<int>, day: int, lower: map<int, seq<int>>, upper: map<int, seq<int>>)
    requires forall k :: 0 <= k < |Ratings| ==> Band(input, days, lower, upper, k, |days|)
    ensures forall k :: 0 <= k < |Ratings| ==> Band(input, days + [day], lower, upper, k, |days|)
  {
    forall k | 0 <= k < |Ratings| ensures Band(input, days + [day], lower, upper, k, |days|) {
      assert Band(input, days, lower, upper, k, |days|);
      assert forall i :: 0 <= i < |days| ==> (days + [day])[i] == days[i];
    }
  }

  /** Appending the next day's bottom and top of band `k` completes it one day further. */
  lemma BandExtend(input: seq<SubmissionRow>, days: seq<int>, n: nat, lower: map<int, seq<int>>, upper: map<int, seq<int>>,
                   k: nat, bottom: int, top: int)
    requires k < |Ratings| && |days| == n + 1
    requires Band(input, days, lower, upper, k, n)
    requires bottom == Stack(input, days[n], k) && top == Stack(input, days[n], k + 1)
    ensures Band(input, days, lower[Ratings[k] := lower[Ratings[k]] + [bottom]],
                 upper[Ratings[k] := upper[Ratings[k]] + [top]], k, n + 1)
  {
  }

  /** Appending to band `k` leaves every other band as it was. */
  lemma BandOther(input: seq<SubmissionRow>, days: seq<int>, lower: map<int, seq<int>>, upper: map<int, seq<int>>,
                  k: nat, kk: nat, len: nat, bottom: int, top: int)
    requires k < |Ratings| && kk < |Ratings| && k != kk && len <= |days|
    requires Ratings[k] in lower && Ratings[k] in upper
    requires Band(input, days, lower, upper, kk, len)
    ensures Band(input, days, lower[Ratings[k] := lower[Ratings[k]] + [bottom]],
                 upper[Ratings[k] := upper[Ratings[k]] + [top]], kk, len)
  {
    assert Ratings[k] != Ratings[kk];
  }

  /** Complete bands for every rating stack without gaps, each as wide as its count. */
  lemma BandsStack(input: seq<SubmissionRow>, days: seq<int>, lower: map<int, seq<int>>, upper: map<int, seq<int>>)
    requires forall k :: 0 <= k < |Ratings| ==> Band(input, days, lower, upper, k, |days|)
    ensures forall r :: r in Ratings ==> r in lower && r in upper && |lower[r]| == |days| && |upper[r]| == |days|
    ensures forall i :: 0 <= i < |days| ==> lower[10][i] == 0
    ensures forall r, i :: r in {20, 30, 40} && 0 <= i < |days| ==> lower[r][i] == upper[r - 10][i]
    ensures forall r, i :: r in Ratings && 0 <= i < |days| ==> upper[r][i] - lower[r][i] == Count(input, days[i], r)
    ensures forall i :: 0 <= i < |days| ==>
              upper[40][i] == Count(input, days[i], 10) + Count(input, days[i], 20)
                            + Count(input, days[i], 30) + Count(input, days[i], 40)
  {
    assert Band(input, days, lower, upper, 0, |days|);
    assert Band(input, days, lower, upper, 1, |days|);
    assert Band(input, days, lower, upper, 2, |days|);
    assert Band(input, days, lower, upper, 3, |days|);
  }

  /** A row whose rating is not in `Ratings` leaves every band of every day unchanged. */
  lemma {:induction false} OtherRatingsIgnored(input: seq<SubmissionRow>, row: SubmissionRow, day: int, k: nat)
    requires row.column !in Ratings && k <= |Ratings|
    ensures Stack(input + [row], day, k) == Stack(input, day, k)
  {
    if k > 0 {
      OtherRatingsIgnored(input, row, day, k - 1);
      LastOfAppend(input, row, day, Ratings[k - 1]);
    }
  }

  /** A query row `(day, count)` of `users`. */
  datatype UserRow = UserRow(day: int, count: int)

  /** Three lists as long as the input, in input order: the days, zeroes, and the counts. */
  method Users(rows: seq<UserRow>) returns (days: seq<int>, zeroes: seq<int>, counts: seq<int>)
    ensures |days| == |rows| && |zeroes| == |rows| && |counts| == |rows|
    ensures forall i :: 0 <= i < |rows| ==> days[i] == rows[i].day && zeroes[i] == 0 && counts[i] == rows[i].count
  {
    days, zeroes, counts := [], [], [];
    for n := 0 to |rows|
      invariant |days| == n && |zeroes| == n && |counts| == n
      invariant forall i :: 0 <= i < n ==> days[i] == rows[i].day && zeroes[i] == 0 && counts[i] == rows[i].count
    {
      days := days + [rows[n].day];
      zeroes := zeroes + [0];
      counts := counts + [rows[n].count];
    }
  }
}
