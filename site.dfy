/**
 * The reshaping done in static/site.js before data reaches the charting libraries:
 * the rating and submission-type code tables, the date-by-column pivot
 * `aggregateByDate`, the row normaliser `percentageOfTotal`, the flattening of the
 * rating-statistics query results into one record per (rating, category), and the
 * sort-and-slice of the tag popularity results. Dates are abstract integer keys.
 */
module Site {
  import opened Wrappers
  import opened Sorting
  import opened Buckets

  // ---------------------------------------------------------------------------
  // Code tables

  const Ratings: map<int, string> :=
    map[10 := "general", 20 := "moderate", 30 := "mature", 40 := "explicit"]
  const RatingOrder: seq<string> := ["general", "moderate", "mature", "explicit"]

  const SubmissionTypes: map<int, string> :=
    map[1 := "visual", 2 := "literary", 3 := "multimedia"]
  const SubmissionTypeOrder: seq<string> := ["visual", "literary", "multimedia"]

  /** `ratings.get(code)`: the i-th rating name belongs to code 10 * (i + 1); any other code is undefined. */
  function RatingName(code: int): (r: Option<string>)
    ensures r.Some? <==> code in {10, 20, 30, 40}
    ensures forall i :: 0 <= i < |RatingOrder| ==> (r == Some(RatingOrder[i]) <==> code == 10 * (i + 1))
  {
    Get(Ratings, code)
  }

  /** `submissionTypes.get(code)`: the i-th type name belongs to code i + 1; any other code is undefined. */
  function SubmissionTypeName(code: int): (r: Option<string>)
    ensures r.Some? <==> code in {1, 2, 3}
    ensures forall i :: 0 <= i < |SubmissionTypeOrder| ==> (r == Some(SubmissionTypeOrder[i]) <==> code == i + 1)
  {
    Get(SubmissionTypes, code)
  }

  // ---------------------------------------------------------------------------
  // aggregateByDate

  /** A chart row `[date, cell_1, ..., cell_n]`. */
  datatype Row<C> = Row(date: int, cells: seq<C>)

  function RowDate<C>(r: Row<C>): int {
    r.date
  }

  /** A tuple `[date, column, value]`; the column is undefined when its code had no name. */
  type Tuple<V> = Entry<int, Option<string>, V>

  /** `r` is the row for its date: its i-th cell is the last value given for `columnOrder[i]`. */
  ghost predicate IsRowFor<V>(input: seq<Tuple<V>>, columnOrder: seq<string>, r: Row<Option<V>>) {
    && |r.cells| == |columnOrder|
    && forall j :: 0 <= j < |columnOrder| ==> r.cells[j] == Last(input, r.date, Some(columnOrder[j]))
  }

  /**
   * One row per distinct date, in ascending date order; the cells follow
   * `columnOrder`, each holding the value of the last tuple for that (date, column),
   * undefined when there is none. Tuples whose column is not in `columnOrder`
   * fill no cell, but their date still has a row.
   */
  method AggregateByDate<V>(input: seq<Tuple<V>>, columnOrder: seq<string>) returns (data: seq<Row<Option<V>>>)
    ensures StrictlySortedBy(data, RowDate)
    ensures forall d :: d in Keys(input) <==> exists i :: 0 <= i < |data| && data[i].date == d
    ensures forall i :: 0 <= i < |data| ==> |data[i].cells| == |columnOrder|
    ensures forall i, j :: 0 <= i < |data| && 0 <= j < |columnOrder| ==>
              data[i].cells[j] == Last(input, data[i].date, Some(columnOrder[j]))
  {
    var dataByDate, dates := Group(input);
    var rows: seq<Row<Option<V>>> := [];
    for n := 0 to |dates|
      invariant |rows| == n
      invariant forall i :: 0 <= i < n ==> rows[i].date == dates[i] && IsRowFor(input, columnOrder, rows[i])
    {
      var row := RowOf(input, columnOrder, dates[n], dataByDate[dates[n]]);
      rows := rows + [row];
    }
    data := SortRows(input, columnOrder, dates, rows);
  }

  /** The inner loop: the cells of one date's row, one per column of `columnOrder`. */
  method RowOf<V>(input: seq<Tuple<V>>, columnOrder: seq<string>, date: int, target: map<Option<string>, V>)
      returns (row: Row<Option<V>>)
    requires forall c :: Get(target, c) == Last(input, date, c)
    ensures row.date == date && IsRowFor(input, columnOrder, row)
  {
    var cells: seq<Option<V>> := [];
    for j := 0 to |columnOrder|
      invariant |cells| == j
      invariant forall k :: 0 <= k < j ==> cells[k] == Last(input, date, Some(columnOrder[k]))
    {
      cells := cells + [Get(target, Some(columnOrder[j]))];
    }
    row := Row(date, cells);
  }

  /** `data.sort(...)` by date, over rows built for distinct dates. */
  method SortRows<V>(input: seq<Tuple<V>>, columnOrder: seq<string>, dates: seq<int>, rows: seq<Row<Option<V>>>)
      returns (data: seq<Row<Option<V>>>)
    requires NoDuplicates(dates) && forall d :: d in dates <==> d in Keys(input)
    requires |rows| == |dates|
    requires forall i :: 0 <= i < |rows| ==> rows[i].date == dates[i] && IsRowFor(input, columnOrder, rows[i])
    ensures StrictlySortedBy(data, RowDate)
    ensures forall d :: d in Keys(input) <==> exists i :: 0 <= i < |data| && data[i].date == d
    ensures forall i :: 0 <= i < |data| ==> IsRowFor(input, columnOrder, data[i])
  {
    assert DistinctKeys(rows, RowDate);
    SortByStrict(rows, RowDate);
    data := SortBy(rows, RowDate);
    forall i | 0 <= i < |data| ensures IsRowFor(input, columnOrder, data[i]) && data[i].date in Keys(input) {
      InPermutation(rows, data, data[i]);
    }
    forall d | d in Keys(input) ensures exists i :: 0 <= i < |data| && data[i].date == d {
      var n :| 0 <= n < |dates| && dates[n] == d;
      InPermutation(rows, data, rows[n]);
      var i :| 0 <= i < |data| && data[i] == rows[n];
    }
  }

  /** The tuples `[v[0], names.get(v[1]), v[2]]` made from the query rows `[date, code, value]`. */
  function Named<V>(rows: seq<Entry<int, int, V>>, names: map<int, string>): (r: seq<Tuple<V>>)
    ensures |r| == |rows|
    ensures forall i :: 0 <= i < |rows| ==> r[i] == Entry(rows[i].key, Get(names, rows[i].column), rows[i].value)
  {
    if rows == [] then []
    else Named(rows[..|rows| - 1], names) + [Entry(rows[|rows| - 1].key, Get(names, rows[|rows| - 1].column), rows[|rows| - 1].value)]
  }

  /** No two codes of the table share a name. */
  ghost predicate NamesDistinct(names: map<int, string>) {
    forall a, b :: a in names && b in names && a != b ==> names[a] != names[b]
  }

  /** Naming the codes neither adds nor loses a date. */
  lemma NamedKeys<V>(rows: seq<Entry<int, int, V>>, names: map<int, string>)
    ensures Keys(Named(rows, names)) == Keys(rows)
  {
    var r := Named(rows, names);
    forall d | d in Keys(rows) ensures d in Keys(r) {
      var e :| e in rows && e.key == d;
      var i :| 0 <= i < |rows| && rows[i] == e;
      assert r[i].key == d;
    }
  }

  /** The cell for a name holds the last value given for the code with that name. */
  lemma {:induction false} LastNamed<V>(rows: seq<Entry<int, int, V>>, names: map<int, string>, d: int, code: int)
    requires NamesDistinct(names) && code in names
    ensures Last(Named(rows, names), d, Some(names[code])) == Last(rows, d, code)
  {
    if rows != [] {
      var init, e := rows[..|rows| - 1], rows[|rows| - 1];
      assert rows == init + [e];
      LastNamed(init, names, d, code);
      LastOfAppend(Named(init, names), Entry(e.key, Get(names, e.column), e.value), d, Some(names[code]));
      LastOfAppend(init, e, d, code);
    }
  }

  /** A name no code has fills no cell. */
  lemma {:induction false} LastUnnamed<V>(rows: seq<Entry<int, int, V>>, names: map<int, string>, d: int, name: string)
    requires name !in names.Values
    ensures Last(Named(rows, names), d, Some(name)) == None
  {
    if rows != [] {
      var init, e := rows[..|rows| - 1], rows[|rows| - 1];
      assert rows == init + [e];
      LastUnnamed(init, names, d, name);
      LastOfAppend(Named(init, names), Entry(e.key, Get(names, e.column), e.value), d, Some(name));
    }
  }

  /**
   * The handlers for `submissions_by_day_and_rating` and `submissions_by_day_and_type`:
   * name the codes, then pivot. A column holds the last value given for its code; a
   * column whose name no code has stays undefined, and a row whose only codes are
   * unmapped still appears.
   */
  method AggregateCoded<V>(rows: seq<Entry<int, int, V>>, names: map<int, string>, columnOrder: seq<string>)
      returns (data: seq<Row<Option<V>>>)
    requires NamesDistinct(names)
    ensures StrictlySortedBy(data, RowDate)
    ensures forall d :: d in Keys(rows) <==> exists i :: 0 <= i < |data| && data[i].date == d
    ensures forall i :: 0 <= i < |data| ==> |data[i].cells| == |columnOrder|
    ensures forall i, j, code :: 0 <= i < |data| && 0 <= j < |columnOrder| && code in names && names[code] == columnOrder[j] ==>
              data[i].cells[j] == Last(rows, data[i].date, code)
    ensures forall i, j :: 0 <= i < |data| && 0 <= j < |columnOrder| && columnOrder[j] !in names.Values ==>
              data[i].cells[j] == None
  {
    NamedKeys(rows, names);
    data := AggregateByDate(Named(rows, names), columnOrder);
    forall i, j, code | 0 <= i < |data| && 0 <= j < |columnOrder| && code in names && names[code] == columnOrder[j]
      ensures data[i].cells[j] == Last(rows, data[i].date, code)
    {
      LastNamed(rows, names, data[i].date, code);
    }
    forall i, j | 0 <= i < |data| && 0 <= j < |columnOrder| && columnOrder[j] !in names.Values
      ensures data[i].cells[j] == None
    {
      LastUnnamed(rows, names, data[i].date, columnOrder[j]);
    }
  }

  lemma RatingNamesDistinct()
    ensures NamesDistinct(Ratings) && NamesDistinct(SubmissionTypes)
  {
  }

  // ---------------------------------------------------------------------------
  // percentageOfTotal

  /** The result of a JavaScript division: a number, or NaN/Infinity when dividing by zero. */
  datatype Quotient = Finite(value: real) | NonFinite

  function Divide(a: real, b: real): Quotient {
    if b == 0.0 then NonFinite else Finite(a / b)
  }

  /** `d3.sum`: the sum of the defined cells. */
  function Total(cells: seq<Option<real>>): real {
    if cells == [] then 0.0 else cells[0].GetOr(0.0) + Total(cells[1..])
  }

  /** Each cell, 0 when undefined, divided by the row total. */
  function NormalizeCells(cells: seq<Option<real>>, total: real): (r: seq<Quotient>)
    ensures |r| == |cells|
    ensures forall j :: 0 <= j < |cells| ==> r[j] == Divide(cells[j].GetOr(0.0), total)
  {
    if cells == [] then [] else [Divide(cells[0].GetOr(0.0), total)] + NormalizeCells(cells[1..], total)
  }

  function NormalizeRow(row: Row<Option<real>>): (r: Row<Quotient>)
    ensures r.date == row.date && |r.cells| == |row.cells|
  {
    Row(row.date, NormalizeCells(row.cells, Total(row.cells)))
  }

  /**
   * Keeps the number of rows, each row's length and its leading date; every other
   * cell becomes its value (undefined counting as 0) divided by the row's total.
   */
  function PercentageOfTotal(input: seq<Row<Option<real>>>): (r: seq<Row<Quotient>>)
    ensures |r| == |input|
    ensures forall i :: 0 <= i < |input| ==> r[i] == NormalizeRow(input[i])
    ensures forall i :: 0 <= i < |input| ==> r[i].date == input[i].date && |r[i].cells| == |input[i].cells|
    ensures forall i, j :: 0 <= i < |input| && 0 <= j < |input[i].cells| ==>
              r[i].cells[j] == Divide(input[i].cells[j].GetOr(0.0), Total(input[i].cells))
  {
    seq(|input|, i requires 0 <= i < |input| => NormalizeRow(input[i]))
  }

  /** The sum of the finite quotients. */
  function SumFinite(qs: seq<Quotient>): real {
    if qs == [] then 0.0 else (if qs[0].Finite? then qs[0].value else 0.0) + SumFinite(qs[1..])
  }

  lemma {:induction false} NormalizedSum(cells: seq<Option<real>>, total: real)
    requires total != 0.0
    ensures SumFinite(NormalizeCells(cells, total)) == Total(cells) / total
  {
    if cells != [] {
      NormalizedSum(cells[1..], total);
      var a, rest := cells[0].GetOr(0.0), Total(cells[1..]);
      assert a / total + rest / total == (a + rest) / total;
    }
  }

  /** A row with a non-zero total is normalised to finite fractions that sum to 1. */
  lemma PercentagesSumToOne(row: Row<Option<real>>)
    requires Total(row.cells) != 0.0
    ensures forall j :: 0 <= j < |row.cells| ==> NormalizeRow(row).cells[j].Finite?
    ensures SumFinite(NormalizeRow(row).cells) == 1.0
  {
    var t := Total(row.cells);
    NormalizedSum(row.cells, t);
    assert t / t == 1.0;
  }

  lemma {:induction false} CellAtMostTotal(cells: seq<Option<real>>, j: int)
    requires forall k :: 0 <= k < |cells| ==> cells[k].GetOr(0.0) >= 0.0
    requires 0 <= j < |cells|
    ensures 0.0 <= cells[j].GetOr(0.0) <= Total(cells)
    ensures Total(cells) >= 0.0
  {
    if j > 0 {
      CellAtMostTotal(cells[1..], j - 1);
    } else if |cells| > 1 {
      CellAtMostTotal(cells[1..], 0);
    }
  }

  /** With non-negative cells and a positive total, every fraction lies in [0, 1]. */
  lemma FractionsInUnitInterval(row: Row<Option<real>>)
    requires forall k :: 0 <= k < |row.cells| ==> row.cells[k].GetOr(0.0) >= 0.0
    requires Total(row.cells) > 0.0
    ensures forall j :: 0 <= j < |row.cells| ==>
              NormalizeRow(row).cells[j].Finite? && 0.0 <= NormalizeRow(row).cells[j].value <= 1.0
  {
    forall j | 0 <= j < |row.cells|
      ensures NormalizeRow(row).cells[j].Finite? && 0.0 <= NormalizeRow(row).cells[j].value <= 1.0
    {
      CellAtMostTotal(row.cells, j);
      QuotientInUnitInterval(row.cells[j].GetOr(0.0), Total(row.cells));
    }
  }

  lemma QuotientInUnitInterval(a: real, t: real)
    requires 0.0 <= a <= t && t > 0.0
    ensures 0.0 <= a / t <= 1.0
  {
    assert a / t * t == a;
  }

  /** A row whose total is zero has no finite fraction (JavaScript's NaN). */
  lemma ZeroTotalIsNonFinite(row: Row<Option<real>>)
    requires Total(row.cells) == 0.0
    ensures forall j :: 0 <= j < |row.cells| ==> NormalizeRow(row).cells[j] == NonFinite
  {
  }

  // ---------------------------------------------------------------------------
  // Rating statistics: one query row becomes several chart records

  /** A query row `[code, v[1], v[2], ...]`; `values[k]` is `v[k + 1]`. */
  datatype StatsRow = StatsRow(code: int, values: seq<real>)

  /** A chart record `{rating, category, count}` (or `percent`). */
  datatype Record = Record(rating: Option<string>, category: string, measure: Option<real>)

  function StatsCode(v: StatsRow): int {
    v.code
  }

  /** `v[n]` for n >= 1, undefined past the end of the row. */
  function Column(v: StatsRow, n: nat): (r: Option<real>)
    requires n >= 1
    ensures r.Some? <==> n <= |v.values|
  {
    if n <= |v.values| then Some(v.values[n - 1]) else None
  }

  /** The records `other_rating_statistics` draws from one row: page views (`v[3]`), then favorites (`v[4]`). */
  function ViewsAndFavorites(v: StatsRow): (r: seq<Record>)
    ensures |r| == 2
  {
    var rating := RatingName(v.code);
    [Record(rating, "page views", Column(v, 3)), Record(rating, "favorites", Column(v, 4))]
  }

  /** The records the percentage chart draws from one row, `v[1]` to `v[4]` in order. */
  function Percentages(v: StatsRow): (r: seq<Record>)
    ensures |r| == 4
  {
    var rating := RatingName(v.code);
    [Record(rating, "percent of total page views", Column(v, 1)),
     Record(rating, "percent of total favorites", Column(v, 2)),
     Record(rating, "percent of total comments", Column(v, 3)),
     Record(rating, "percent of all submissions", Column(v, 4))]
  }

  /** Appending a group leaves every slice of what was there before, and puts the group at the end. */
  lemma AppendGroup(before: seq<Record>, group: seq<Record>)
    ensures forall lo, hi :: 0 <= lo <= hi <= |before| ==> (before + group)[lo..hi] == before[lo..hi]
    ensures (before + group)[|before|..|before| + |group|] == group
  {
  }

  /**
   * The `other_rating_statistics` handler: rows sorted ascending by rating code, each
   * emitting exactly two records, page views (`v[3]`) then favorites (`v[4]`).
   */
  method OtherRatingStatistics(rows: seq<StatsRow>) returns (newData: seq<Record>)
    ensures |newData| == 2 * |rows|
    ensures forall i :: 0 <= i < |rows| ==> newData[2 * i..2 * i + 2] == ViewsAndFavorites(SortBy(rows, StatsCode)[i])
  {
    var data := SortBy(rows, StatsCode);
    newData := [];
    for i := 0 to |data|
      invariant |newData| == 2 * i
      invariant forall k :: 0 <= k < i ==> newData[2 * k..2 * k + 2] == ViewsAndFavorites(data[k])
    {
      AppendGroup(newData, ViewsAndFavorites(data[i]));
      newData := newData + ViewsAndFavorites(data[i]);
    }
  }

  /**
   * The `submission_pct_views_favorites_comments_submissions_by_rating` handler: rows
   * sorted ascending by rating code, each emitting exactly four records, `v[1]` to `v[4]`.
   */
  method PercentStatisticsByRating(rows: seq<StatsRow>) returns (newData: seq<Record>)
    ensures |newData| == 4 * |rows|
    ensures forall i :: 0 <= i < |rows| ==> newData[4 * i..4 * i + 4] == Percentages(SortBy(rows, StatsCode)[i])
  {
    var data := SortBy(rows, StatsCode);
    newData := [];
    for i := 0 to |data|
      invariant |newData| == 4 * i
      invariant forall k :: 0 <= k < i ==> newData[4 * k..4 * k + 4] == Percentages(data[k])
    {
      AppendGroup(newData, Percentages(data[i]));
      newData := newData + Percentages(data[i]);
    }
  }

  // ---------------------------------------------------------------------------
  // tag_popularity_favorites

  datatype TagRow = TagRow(tag: string, submissions: int, favorites: int)

  /** The key of `d3.descending(a.submissions, b.submissions)`. */
  function SubmissionsDescending(t: TagRow): int {
    -t.submissions
  }

  /**
   * The rows sorted by submissions, largest first, go to the full chart; the bubble
   * chart gets `data.slice(20)`, which drops the 20 tags with the most submissions
   * (all of them when there are at most 20) and keeps the rest in order.
   */
  method TagPopularityFavorites(rows: seq<TagRow>) returns (bubble: seq<TagRow>, full: seq<TagRow>)
    ensures multiset(full) == multiset(rows) && |full| == |rows|
    ensures forall i, j :: 0 <= i < j < |full| ==> full[i].submissions >= full[j].submissions
    ensures |bubble| == if |rows| <= 20 then 0 else |rows| - 20
    ensures forall i :: 0 <= i < |bubble| ==> bubble[i] == full[i + 20]
    ensures forall i, j :: 0 <= i < |bubble| && 0 <= j < 20 && j < |full| ==>
              bubble[i].submissions <= full[j].submissions
  {
    var data := SortBy(rows, SubmissionsDescending);
    full := data;
    bubble := if |data| <= 20 then [] else data[20..];
  }
}
