/**
 * The reshaping in static/reports.js: the `tickets` handler pivots
 * (reporter, month, count) rows into one dense series per reporter over the sorted
 * list of all months, plus one total per reporter; `reports_by_day` sorts its rows by
 * date. Reporters and months are abstract integer keys.
 */
module Reports {
  import opened Wrappers
  import opened Sorting
  import opened Buckets

  /** A query row `{reporter, openedAt, count}`. */
  datatype Ticket = Ticket(reporter: int, openedAt: int, count: int)

  /** A `d3.nest` entry: a reporter and its tickets. */
  datatype Group = Group(key: int, values: seq<Ticket>)

  /** A chart point `{x: month, y: count}`. */
  datatype Point = Point(x: int, y: int)

  /** A chart series `{key: reporter, values: points}`. */
  datatype Series = Series(key: int, values: seq<Point>)

  /** A record of `countsByCloser`. */
  datatype CloserCount = CloserCount(closer: int, count: int)

  function OpenedAt(t: Ticket): int {
    t.openedAt
  }

  /** The key of `d3.descending(a.key, b.key)`. */
  function KeyDescending(s: Series): int {
    -s.key
  }

  // ---------------------------------------------------------------------------
  // d3.nest().key(reporter).sortValues(ascending openedAt)

  /** The reporters, each once, in order of first appearance. */
  function Reporters(input: seq<Ticket>): (r: seq<int>)
    ensures NoDuplicates(r)
    ensures forall k :: k in r <==> exists t :: t in input && t.reporter == k
  {
    if input == [] then []
    else
      var init, t := input[..|input| - 1], input[|input| - 1];
      assert input == init + [t];
      var p := Reporters(init);
      if t.reporter in p then p else p + [t.reporter]
  }

  /** The tickets of reporter `k`, in input order. */
  function OfReporter(input: seq<Ticket>, k: int): (r: seq<Ticket>)
    ensures forall t :: t in r <==> t in input && t.reporter == k
  {
    if input == [] then []
    else
      var rest := OfReporter(input[1..], k);
      assert input == [input[0]] + input[1..];
      if input[0].reporter == k then [input[0]] + rest else rest
  }

  /** The values of reporter `k`'s group: its tickets, sorted ascending by `openedAt`. */
  function GroupValues(input: seq<Ticket>, k: int): (r: seq<Ticket>)
    ensures multiset(r) == multiset(OfReporter(input, k))
    ensures SortedBy(r, OpenedAt)
  {
    SortBy(OfReporter(input, k), OpenedAt)
  }

  /** `d3.nest`'s entries: one group per reporter, in order of first appearance. */
  function Nest(input: seq<Ticket>): (r: seq<Group>)
    ensures |r| == |Reporters(input)|
    ensures forall i :: 0 <= i < |r| ==> r[i] == Group(Reporters(input)[i], GroupValues(input, Reporters(input)[i]))
  {
    var keys := Reporters(input);
    seq(|keys|, i requires 0 <= i < |keys| => Group(keys[i], GroupValues(input, keys[i])))
  }

  /** All the groups' values, one group after another. */
  function Flatten(nest: seq<Group>): (r: seq<Ticket>)
    ensures forall t :: t in r <==> exists i :: 0 <= i < |nest| && t in nest[i].values
  {
    if nest == [] then []
    else
      var init := nest[..|nest| - 1];
      assert nest == init + [nest[|nest| - 1]];
      Flatten(init) + nest[|nest| - 1].values
  }

  /** The months the tickets mention. */
  ghost function OpenedAts(s: seq<Ticket>): set<int> {
    set t | t in s :: t.openedAt
  }

  /** The groups hold every ticket of the input and nothing else. */
  lemma FlattenNest(input: seq<Ticket>)
    ensures forall t :: t in Flatten(Nest(input)) <==> t in input
  {
    var nest := Nest(input);
    forall t | t in input ensures t in Flatten(nest) {
      var keys := Reporters(input);
      assert t.reporter in keys;
      var i :| 0 <= i < |keys| && keys[i] == t.reporter;
      InPermutation(OfReporter(input, t.reporter), nest[i].values, t);
    }
    forall t | t in Flatten(nest) ensures t in input {
      var i :| 0 <= i < |nest| && t in nest[i].values;
      InPermutation(OfReporter(input, nest[i].key), nest[i].values, t);
    }
  }

  // ---------------------------------------------------------------------------
  // Specification of the pivot

  /** The sum of the counts. */
  function SumCounts(s: seq<Ticket>): int {
    if s == [] then 0 else s[0].count + SumCounts(s[1..])
  }

  /** The count of the last ticket for `month`, or `None` when there is none. */
  function MonthEntry(values: seq<Ticket>, month: int): (r: Option<int>)
    ensures r.Some? ==> exists t :: t in values && t.openedAt == month && t.count == r.value
    ensures r.None? ==> forall t :: t in values ==> t.openedAt != month
  {
    if values == [] then None
    else
      var init, t := values[..|values| - 1], values[|values| - 1];
      assert values == init + [t];
      if t.openedAt == month then Some(t.count) else MonthEntry(init, month)
  }

  /** `monthMap.get(month) || 0`. */
  function MonthCount(values: seq<Ticket>, month: int): int {
    MonthEntry(values, month).GetOr(0)
  }

  lemma {:induction false} SumCountsConcat(a: seq<Ticket>, b: seq<Ticket>)
    ensures SumCounts(a + b) == SumCounts(a) + SumCounts(b)
  {
    if a == [] {
      assert a + b == b;
    } else {
      assert (a + b)[0] == a[0];
      assert (a + b)[1..] == a[1..] + b;
      SumCountsConcat(a[1..], b);
    }
  }

  /** Taking the k-th ticket out of `b` takes one copy of it out of its multiset. */
  lemma RemoveAtMultiset(b: seq<Ticket>, k: nat)
    requires k < |b|
    ensures multiset(b[..k] + b[k + 1..]) == multiset(b) - multiset{b[k]}
  {
    var front, back := b[..k], b[k + 1..];
    assert b == front + [b[k]] + back;
    assert multiset(b) == multiset(front) + multiset{b[k]} + multiset(back);
  }

  /** Taking the k-th ticket out of `b` takes its count out of the total. */
  lemma {:induction false} RemoveAtSum(b: seq<Ticket>, k: nat)
    requires k < |b|
    ensures SumCounts(b) == b[k].count + SumCounts(b[..k] + b[k + 1..])
  {
    if k == 0 {
      assert b[..k] + b[k + 1..] == b[1..];
    } else {
      var tail := b[1..];
      RemoveAtSum(tail, k - 1);
      var rest := b[..k] + b[k + 1..];
      assert rest == [b[0]] + (tail[..k - 1] + tail[k..]);
      assert rest[0] == b[0] && rest[1..] == tail[..k - 1] + tail[k..];
    }
  }

  /** Reordering the tickets does not change their total. */
  lemma {:induction false} SumCountsPermutation(a: seq<Ticket>, b: seq<Ticket>)
    requires multiset(a) == multiset(b)
    ensures SumCounts(a) == SumCounts(b)
    decreases |a|
  {
    if a == [] {
      assert |b| == |multiset(b)| == 0;
    } else {
      assert a == [a[0]] + a[1..];
      assert a[0] in multiset(b);
      var k :| 0 <= k < |b| && b[k] == a[0];
      RemoveAtMultiset(b, k);
      RemoveAtSum(b, k);
      assert multiset(a[1..]) == multiset(a) - multiset{a[0]};
      SumCountsPermutation(a[1..], b[..k] + b[k + 1..]);
    }
  }

  /**
   * Appending a ticket sets the entry of its own month to its count and leaves the
   * entry of every other month as it was.
   */
  lemma MonthEntryAppend(values: seq<Ticket>, t: Ticket, month: int)
    ensures MonthEntry(values + [t], month) == if t.openedAt == month then Some(t.count) else MonthEntry(values, month)
  {
    assert (values + [t])[..|values|] == values;
  }

  /**
   * A second ticket for a month that already has one replaces that month's y value,
   * while the reporter's total adds both.
   */
  lemma LaterEntryWins(values: seq<Ticket>, t: Ticket)
    ensures MonthCount(values + [t], t.openedAt) == t.count
    ensures SumCounts(values + [t]) == SumCounts(values) + t.count
  {
    assert (values + [t])[..|values|] == values;
    SumCountsConcat(values, [t]);
  }

  /** The dense series over `times`: one point per month, 0 where the reporter has no ticket. */
  ghost function Dense(times: seq<int>, values: seq<Ticket>): (r: seq<Point>)
    ensures |r| == |times|
  {
    seq(|times|, i requires 0 <= i < |times| => Point(times[i], MonthCount(values, times[i])))
  }

  // ---------------------------------------------------------------------------
  // The tickets handler

  /** The nested loops that push each month not yet in `times`. */
  method CollectTimes(nest: seq<Group>) returns (times: seq<int>)
    ensures NoDuplicates(times)
    ensures forall x :: x in times <==> x in OpenedAts(Flatten(nest))
  {
    times := [];
    for g := 0 to |nest|
      invariant NoDuplicates(times)
      invariant forall x :: x in times <==> x in OpenedAts(Flatten(nest[..g]))
    {
      var values := nest[g].values;
      assert nest[..g + 1][..g] == nest[..g];
      assert Flatten(nest[..g + 1]) == Flatten(nest[..g]) + values;
      for v := 0 to |values|
        invariant NoDuplicates(times)
        invariant forall x :: x in times <==> x in OpenedAts(Flatten(nest[..g]) + values[..v])
      {
        assert values[..v + 1] == values[..v] + [values[v]];
        assert Flatten(nest[..g]) + values[..v + 1] == Flatten(nest[..g]) + values[..v] + [values[v]];
        if values[v].openedAt !in times {
          times := times + [values[v].openedAt];
        }
      }
      assert values[..|values|] == values;
    }
    assert nest[..|nest|] == nest;
  }

  /**
   * The function mapped over the nest: fill `monthMap` and the running `total` from
   * the group's values, then read one point per month of `times`.
   */
  method GroupSeries(times: seq<int>, group: Group) returns (series: Series, closer: CloserCount)
    ensures closer == CloserCount(group.key, SumCounts(group.values))
    ensures series.key == group.key && |series.values| == |times|
    ensures forall i :: 0 <= i < |times| ==> series.values[i] == Point(times[i], MonthCount(group.values, times[i]))
  {
    var values := group.values;
    var monthMap: map<int, int> := map[];
    var total := 0;
    for v := 0 to |values|
      invariant total == SumCounts(values[..v])
      invariant forall m :: Get(monthMap, m) == MonthEntry(values[..v], m)
    {
      assert values[..v + 1] == values[..v] + [values[v]];
      assert values[..v + 1][..v] == values[..v];
      SumCountsConcat(values[..v], [values[v]]);
      monthMap := monthMap[values[v].openedAt := values[v].count];
      total := total + values[v].count;
    }
    assert values[..|values|] == values;
    closer := CloserCount(group.key, total);
    series := Series(group.key, seq(|times|, i requires 0 <= i < |times| => Point(times[i], Get(monthMap, times[i]).GetOr(0))));
  }

  /** `nest.map(...)`, pushing each group's total onto `countsByCloser` as it goes. */
  method MapNest(times: seq<int>, nest: seq<Group>) returns (series: seq<Series>, countsByCloser: seq<CloserCount>)
    ensures |series| == |nest| && |countsByCloser| == |nest|
    ensures forall i :: 0 <= i < |nest| ==> countsByCloser[i] == CloserCount(nest[i].key, SumCounts(nest[i].values))
    ensures forall i :: 0 <= i < |nest| ==> series[i].key == nest[i].key && series[i].values == Dense(times, nest[i].values)
  {
    countsByCloser := [];
    series := [];
    for g := 0 to |nest|
      invariant |series| == g && |countsByCloser| == g
      invariant forall i :: 0 <= i < g ==> countsByCloser[i] == CloserCount(nest[i].key, SumCounts(nest[i].values))
      invariant forall i :: 0 <= i < g ==> series[i].key == nest[i].key && series[i].values == Dense(times, nest[i].values)
    {
      var s, c := GroupSeries(times, nest[g]);
      countsByCloser := countsByCloser + [c];
      series := series + [s];
    }
  }

  /**
   * `times` lists each month once, ascending; there is one series per reporter, in
   * descending reporter order, whose i-th point is at `times[i]` and holds the count of
   * that reporter's last ticket for the month (0 if none); `countsByCloser` has one
   * record per reporter, in nest order, holding the sum of all that reporter's counts.
   */
  method Tickets(input: seq<Ticket>) returns (times: seq<int>, data: seq<Series>, countsByCloser: seq<CloserCount>)
    ensures StrictlySortedBy(times, Identity)
    ensures forall x :: x in times <==> exists t :: t in input && t.openedAt == x
    ensures StrictlySortedBy(data, KeyDescending)
    ensures forall k :: (exists i :: 0 <= i < |data| && data[i].key == k) <==> k in Reporters(input)
    ensures forall i :: 0 <= i < |data| ==> |data[i].values| == |times|
    ensures forall i, j :: 0 <= i < |data| && 0 <= j < |times| ==>
              data[i].values[j] == Point(times[j], MonthCount(GroupValues(input, data[i].key), times[j]))
    ensures |countsByCloser| == |Reporters(input)|
    ensures forall i :: 0 <= i < |countsByCloser| ==>
              countsByCloser[i] == CloserCount(Reporters(input)[i], SumCounts(OfReporter(input, Reporters(input)[i])))
  {
    var nest := Nest(input);
    times := CollectTimes(nest);
    SortedTimes(input, times);
    times := SortBy(times, Identity);
    var series;
    series, countsByCloser := MapNest(times, nest);
    forall i | 0 <= i < |nest| ensures SumCounts(nest[i].values) == SumCounts(OfReporter(input, nest[i].key)) {
      SumCountsPermutation(nest[i].values, OfReporter(input, nest[i].key));
    }
    assert SeriesOfNest(input, times, series);
    SortedSeries(input, times, series);
    SortedSeriesKeys(Reporters(input), series);
    data := SortBy(series, KeyDescending);
  }

  /** Sorting the collected months gives each month of the input once, ascending. */
  lemma SortedTimes(input: seq<Ticket>, unsorted: seq<int>)
    requires NoDuplicates(unsorted)
    requires forall x :: x in unsorted <==> x in OpenedAts(Flatten(Nest(input)))
    ensures StrictlySortedBy(SortBy(unsorted, Identity), Identity)
    ensures forall x :: x in SortBy(unsorted, Identity) <==> exists t :: t in input && t.openedAt == x
  {
    FlattenNest(input);
    assert DistinctKeys(unsorted, Identity);
    SortByStrict(unsorted, Identity);
    forall x ensures x in SortBy(unsorted, Identity) <==> x in unsorted {
      InPermutation(unsorted, SortBy(unsorted, Identity), x);
    }
  }

  /** The series made from the nest, one per reporter in nest order. */
  ghost predicate SeriesOfNest(input: seq<Ticket>, times: seq<int>, series: seq<Series>) {
    && |series| == |Reporters(input)|
    && forall i :: 0 <= i < |series| ==>
         series[i].key == Reporters(input)[i] && series[i].values == Dense(times, GroupValues(input, Reporters(input)[i]))
  }

  /** Sorting the series by descending key keeps one series per reporter, each still dense. */
  lemma SortedSeries(input: seq<Ticket>, times: seq<int>, series: seq<Series>)
    requires SeriesOfNest(input, times, series)
    ensures forall i :: 0 <= i < |series| ==>
              SortBy(series, KeyDescending)[i].values == Dense(times, GroupValues(input, SortBy(series, KeyDescending)[i].key))
  {
    var keys := Reporters(input);
    var data := SortBy(series, KeyDescending);
    forall i | 0 <= i < |data| ensures data[i].values == Dense(times, GroupValues(input, data[i].key)) {
      InPermutation(series, data, data[i]);
      var g :| 0 <= g < |series| && series[g] == data[i];
    }
  }

  /** Sorting series with distinct keys orders them strictly and keeps exactly their keys. */
  lemma SortedSeriesKeys(keys: seq<int>, series: seq<Series>)
    requires NoDuplicates(keys)
    requires |series| == |keys| && forall i :: 0 <= i < |series| ==> series[i].key == keys[i]
    ensures StrictlySortedBy(SortBy(series, KeyDescending), KeyDescending)
    ensures forall k :: (exists i :: 0 <= i < |series| && SortBy(series, KeyDescending)[i].key == k) <==> k in keys
  {
    assert DistinctKeys(series, KeyDescending) by {
      forall i, j | 0 <= i < j < |series| ensures KeyDescending(series[i]) != KeyDescending(series[j]) {
        assert series[i].key == keys[i] && series[j].key == keys[j];
      }
    }
    SortByStrict(series, KeyDescending);
    var data := SortBy(series, KeyDescending);
    forall k | k in keys ensures exists i :: 0 <= i < |data| && data[i].key == k {
      KeyKept(keys, series, data, k);
    }
    forall i | 0 <= i < |data| ensures data[i].key in keys {
      KeyFrom(keys, series, data, i);
    }
    assert data == SortBy(series, KeyDescending);
  }

  lemma KeyKept(keys: seq<int>, series: seq<Series>, data: seq<Series>, k: int)
    requires |series| == |keys| && forall i :: 0 <= i < |series| ==> series[i].key == keys[i]
    requires multiset(data) == multiset(series) && k in keys
    ensures exists i :: 0 <= i < |data| && data[i].key == k
  {
    var g :| 0 <= g < |keys| && keys[g] == k;
    InPermutation(series, data, series[g]);
    var i :| 0 <= i < |data| && data[i] == series[g];
  }

  lemma KeyFrom(keys: seq<int>, series: seq<Series>, data: seq<Series>, i: nat)
    requires |series| == |keys| && forall i :: 0 <= i < |series| ==> series[i].key == keys[i]
    requires multiset(data) == multiset(series) && i < |data|
    ensures data[i].key in keys
  {
    InPermutation(series, data, data[i]);
    var g :| 0 <= g < |series| && series[g] == data[i];
    assert data[i].key == keys[g];
  }

  // ---------------------------------------------------------------------------
  // reports_by_day

  /** A chart row `[date, count]`. */
  datatype DayCount = DayCount(date: int, count: int)

  function DayDate(r: DayCount): int {
    r.date
  }

  /** The rows, one-to-one, sorted ascending by date. */
  method ReportsByDay(rows: seq<DayCount>) returns (data: seq<DayCount>)
    ensures multiset(data) == multiset(rows) && |data| == |rows|
    ensures forall i, j :: 0 <= i < j < |data| ==> data[i].date <= data[j].date
  {
    data := SortBy(rows, DayDate);
  }
}
