/**
 * The query endpoint of graphserver.py: `QueriesResource.render_GET` checks the query
 * name, serves a cached result while it is younger than a day, and otherwise fetches
 * the result (from the SQL text or a `query_<name>` method), replies with it as JSON
 * and caches it. `serializeOther` is the `default` hook of the JSON encoder.
 * The database, the HTTP plumbing and the clock are parameters: a fetch is a function
 * from the source to its outcome, and the two readings of `time.time()` are integers.
 */
module GraphServer {
  import opened Wrappers

  // ---------------------------------------------------------------------------
  // Python values and their JSON encoding
  // ---------------------------------------------------------------------------

  /** The fields of a `datetime.datetime`, without its time zone. */
  datatype DateFields = DateFields(year: nat, month: nat, day: nat, hour: nat, minute: nat, second: nat, microsecond: nat)

  /**
   * The values a query result holds: rows are lists (tuples) of these. `DateTime`
   * carries its zone as an optional UTC offset in minutes; `PyOther` is any value of a
   * type the encoder does not know (a set, a `datetime.date`, ...).
   */
  datatype PyValue =
    | PyNone
    | PyBool(b: bool)
    | PyInt(i: int)
    | PyFloat(f: real)
    | PyStr(s: string)
    | PyList(items: seq<PyValue>)
    | DateTime(fields: DateFields, tz: Option<int>)
    | TimeDelta(days: int, seconds: int, microseconds: int)
    | Decimal(d: real)
    | PyOther(typeName: string)

  /** A JSON document. */
  datatype Json =
    | JNull
    | JBool(b: bool)
    | JInt(i: int)
    | JFloat(f: real)
    | JString(s: string)
    | JArray(items: seq<Json>)
    | JObject(members: seq<(string, Json)>)

  /** The character of a decimal digit. */
  function DigitChar(d: nat): (c: char)
    requires d < 10
    ensures '0' <= c <= '9' && c as int - '0' as int == d
  {
    ('0' as int + d) as char
  }

  /** The shortest decimal numeral of `n`. */
  function Numeral(n: nat): (s: string)
    ensures |s| >= 1
    ensures forall i :: 0 <= i < |s| ==> '0' <= s[i] <= '9'
  {
    if n < 10 then [DigitChar(n)] else Numeral(n / 10) + [DigitChar(n % 10)]
  }

  function Pow10(w: nat): (p: nat)
    ensures p >= 1
  {
    if w == 0 then 1 else 10 * Pow10(w - 1)
  }

  /** `'%0*d' % (w, n)`: the numeral of `n`, padded on the left with zeros to width `w`. */
  function Padded(n: nat, w: nat): (s: string)
    ensures |s| == if |Numeral(n)| >= w then |Numeral(n)| else w
  {
    var digits := Numeral(n);
    if |digits| >= w then digits else Zeros(w - |digits|) + digits
  }

  function Zeros(k: nat): (s: string)
    ensures |s| == k
  {
    if k == 0 then "" else Zeros(k - 1) + "0"
  }

  /** The number a string of decimal digits denotes. */
  function Value(s: string): int {
    if s == [] then 0 else 10 * Value(s[..|s| - 1]) + (s[|s| - 1] as int - '0' as int)
  }

  /** `datetime.isoformat()` of a naive datetime: the microseconds only when they are not 0. */
  function IsoFormat(f: DateFields): string {
    IsoDate(f) + "T" + IsoTime(f) + (if f.microsecond != 0 then "." + Padded(f.microsecond, 6) else "")
  }

  /** `YYYY-MM-DD`. */
  function IsoDate(f: DateFields): string {
    Padded(f.year, 4) + "-" + Padded(f.month, 2) + "-" + Padded(f.day, 2)
  }

  /** `HH:MM:SS`. */
  function IsoTime(f: DateFields): string {
    Padded(f.hour, 2) + ":" + Padded(f.minute, 2) + ":" + Padded(f.second, 2)
  }

  /** Bounds every valid `datetime.datetime` meets (the day is not checked against the month's length). */
  ghost predicate ValidFields(f: DateFields) {
    && 1 <= f.year <= 9999 && 1 <= f.month <= 12 && 1 <= f.day <= 31
    && f.hour < 24 && f.minute < 60 && f.second < 60 && f.microsecond < 1000000
  }

  /** `timedelta.total_seconds()`, over the reals. */
  function TotalSeconds(days: int, seconds: int, microseconds: int): real {
    (days * 86400 + seconds) as real + microseconds as real / 1000000.0
  }

  /**
   * `serializeOther`: a datetime becomes its ISO text with the zone dropped, a timedelta
   * its length in seconds, a Decimal the float of its value; any other type raises
   * `TypeError`. It is only consulted for values the encoder cannot write itself.
   */
  function SerializeOther(obj: PyValue): (r: Result<PyValue>)
    ensures r.Ok? <==> obj.DateTime? || obj.TimeDelta? || obj.Decimal?
    ensures r.Ok? ==> r.value.PyStr? || r.value.PyFloat?
    ensures obj.DateTime? ==> r == Ok(PyStr(IsoFormat(obj.fields)))
    ensures obj.TimeDelta? ==> r == Ok(PyFloat(TotalSeconds(obj.days, obj.seconds, obj.microseconds)))
    ensures obj.Decimal? ==> r == Ok(PyFloat(obj.d))
    ensures r.Failure? ==> r.error == "can't serialize"
  {
    match obj
    case DateTime(fields, _) => Ok(PyStr(IsoFormat(fields)))
    case TimeDelta(days, seconds, microseconds) => Ok(PyFloat(TotalSeconds(days, seconds, microseconds)))
    case Decimal(d) => Ok(PyFloat(d))
    case _ => Failure("can't serialize")
  }

  /** The values `json.dumps` encodes without its `default` hook. */
  predicate Native(v: PyValue) {
    v.PyNone? || v.PyBool? || v.PyInt? || v.PyFloat? || v.PyStr? || v.PyList?
  }

  /** The encoding of what `serializeOther` returned, or its `TypeError`. */
  function EncodeOther(other: Result<PyValue>): (r: Result<Json>)
    requires other.Ok? ==> other.value.PyStr? || other.value.PyFloat?
  {
    match other
    case Failure(e) => Failure(e)
    case Ok(PyStr(s)) => Ok(JString(s))
    case Ok(PyFloat(f)) => Ok(JFloat(f))
  }

  /** A value every part of which the encoder can write, natively or through `serializeOther`. */
  ghost predicate Serializable(v: PyValue) {
    match v
    case PyList(items) => forall x :: x in items ==> Serializable(x)
    case PyOther(_) => false
    case _ => true
  }

  /**
   * `json.dumps(v, default=serializeOther)`: lists are encoded element by element,
   * other values the encoder knows directly, and the rest through `serializeOther`,
   * whose `TypeError` aborts the whole encoding.
   */
  function Serialize(v: PyValue): (r: Result<Json>)
    ensures r.Ok? <==> Serializable(v)
    ensures v.PyList? && r.Ok? ==>
              r.value.JArray? && |r.value.items| == |v.items|
              && forall i :: 0 <= i < |v.items| ==> Serialize(v.items[i]) == Ok(r.value.items[i])
    ensures !Native(v) && r.Ok? ==> 
              var p := SerializeOther(v).value; r.value == if p.PyStr? then JString(p.s) else JFloat(p.f)
    decreases v, 1
  {
    match v
    case PyList(items) =>
      var r := SerializeAll(items);
      if r.Ok? then Ok(JArray(r.value)) else Failure(r.error)
    case PyNone => Ok(JNull)
    case PyBool(b) => Ok(JBool(b))
    case PyInt(i) => Ok(JInt(i))
    case PyFloat(f) => Ok(JFloat(f))
    case PyStr(s) => Ok(JString(s))
    case _ => EncodeOther(SerializeOther(v))
  }

  /** The elements of a list, encoded in order; the first failure is the list's failure. */
  function SerializeAll(items: seq<PyValue>): (r: Result<seq<Json>>)
    ensures r.Ok? <==> forall x :: x in items ==> Serializable(x)
    ensures r.Ok? ==> |r.value| == |items| && forall i :: 0 <= i < |items| ==> Serialize(items[i]) == Ok(r.value[i])
    decreases items, 0
  {
    if items == [] then Ok([])
    else
      var head := Serialize(items[0]);
      if head.Failure? then
        assert items[0] in items;
        Failure(head.error)
      else
        var tail := SerializeAll(items[1..]);
        if tail.Failure? then
          assert forall x :: x in items[1..] ==> x in items;
          Failure(tail.error)
        else
          assert forall x :: x in items ==> x == items[0] || x in items[1..];
          Ok([head.value] + tail.value)
  }

  /** Dropping the zone keeps the wall-clock fields: two datetimes that differ only in zone encode alike. */
  lemma DateTimeIgnoresZone(f: DateFields, tz1: Option<int>, tz2: Option<int>)
    ensures Serialize(DateTime(f, tz1)) == Serialize(DateTime(f, tz2)) == Ok(JString(IsoFormat(f)))
  {
  }

  /** Leading zeros do not change the number a numeral denotes. */
  lemma {:induction false} LeadingZeros(k: nat, b: string)
    ensures Value(Zeros(k) + b) == Value(b)
    decreases |b|
  {
    if b == [] {
      assert Zeros(k) + b == Zeros(k);
      ZerosValue(k);
    } else {
      var init := b[..|b| - 1];
      assert (Zeros(k) + b)[..|Zeros(k) + b| - 1] == Zeros(k) + init;
      LeadingZeros(k, init);
    }
  }

  lemma {:induction false} NumeralValue(n: nat)
    ensures Value(Numeral(n)) == n
  {
    if n >= 10 {
      NumeralValue(n / 10);
      var s := Numeral(n / 10) + [DigitChar(n % 10)];
      assert s[..|s| - 1] == Numeral(n / 10);
    }
  }

  lemma {:induction false} NumeralLength(n: nat, w: nat)
    requires n < Pow10(w) && w >= 1
    ensures |Numeral(n)| <= w
  {
    if n >= 10 {
      assert w >= 2;
      NumeralLength(n / 10, w - 1);
    }
  }

  lemma {:induction false} ZerosValue(k: nat)
    ensures Value(Zeros(k)) == 0
  {
    if k > 0 {
      assert Zeros(k)[..k - 1] == Zeros(k - 1);
      ZerosValue(k - 1);
    }
  }

  /** Padding round-trips: the digits denote `n`. */
  lemma PaddedValue(n: nat, w: nat)
    ensures Value(Padded(n, w)) == n
  {
    var digits := Numeral(n);
    NumeralValue(n);
    if |digits| < w {
      LeadingZeros(w - |digits|, digits);
      assert Padded(n, w) == Zeros(w - |digits|) + digits;
    } else {
      assert Padded(n, w) == digits;
    }
  }

  /** A value below `10^w` fills exactly `w` places. */
  lemma PaddedLength(n: nat, w: nat)
    requires n < Pow10(w) && w >= 1
    ensures |Padded(n, w)| == w
  {
    NumeralLength(n, w);
  }

  /** Where the parts of `a sep b sep c` lie, for two-character `b` and `c`. */
  lemma Layout(a: string, b: string, c: string, sep: char)
    requires |b| == 2 && |c| == 2
    ensures var s := a + [sep] + b + [sep] + c;
      && |s| == |a| + 6 && s[|a|] == sep && s[|a| + 3] == sep
      && s[0..|a|] == a && s[|a| + 1..|a| + 3] == b && s[|a| + 4..|a| + 6] == c
  {
  }

  /**
   * The ISO text of a valid datetime has the fixed layout `YYYY-MM-DDTHH:MM:SS[.ffffff]`,
   * and each field reads back from its place: the encoding loses nothing but the zone.
   */
  lemma IsoFormatFields(f: DateFields)
    requires ValidFields(f)
    ensures var s := IsoFormat(f);
      && |s| == (if f.microsecond != 0 then 26 else 19)
      && s[4] == '-' && s[7] == '-' && s[10] == 'T' && s[13] == ':' && s[16] == ':'
      && Value(s[0..4]) == f.year && Value(s[5..7]) == f.month && Value(s[8..10]) == f.day
      && Value(s[11..13]) == f.hour && Value(s[14..16]) == f.minute && Value(s[17..19]) == f.second
      && (f.microsecond != 0 ==> s[19] == '.' && Value(s[20..26]) == f.microsecond)
  {
    var year, month, day := Padded(f.year, 4), Padded(f.month, 2), Padded(f.day, 2);
    var hour, minute, second := Padded(f.hour, 2), Padded(f.minute, 2), Padded(f.second, 2);
    var micro := Padded(f.microsecond, 6);
    PaddedValue(f.year, 4);
    PaddedValue(f.month, 2);
    PaddedValue(f.day, 2);
    PaddedValue(f.hour, 2);
    PaddedValue(f.minute, 2);
    PaddedValue(f.second, 2);
    PaddedValue(f.microsecond, 6);
    PaddedLength(f.year, 4);
    PaddedLength(f.month, 2);
    PaddedLength(f.day, 2);
    PaddedLength(f.hour, 2);
    PaddedLength(f.minute, 2);
    PaddedLength(f.second, 2);
    PaddedLength(f.microsecond, 6);
    var date, time := IsoDate(f), IsoTime(f);
    assert date == year + ['-'] + month + ['-'] + day;
    assert time == hour + [':'] + minute + [':'] + second;
    Layout(year, month, day, '-');
    Layout(hour, minute, second, ':');
    var tail := if f.microsecond != 0 then "." + micro else "";
    assert IsoFormat(f) == date + ['T'] + time + tail;
    Join(date, time, tail);
    if f.microsecond != 0 {
      Fraction(date + ['T'] + time, micro);
    }
  }

  /** The fraction follows the 19 characters of date and time. */
  lemma Fraction(head: string, micro: string)
    requires |head| == 19 && |micro| == 6
    ensures var s := head + ("." + micro); |s| == 26 && s[19] == '.' && s[20..26] == micro
  {
  }

  /** Where the date, the time and the fraction lie in the ISO text. */
  lemma Join(date: string, time: string, tail: string)
    requires |date| == 10 && |time| == 8
    ensures var s := date + ['T'] + time + tail;
      && |s| == 19 + |tail| && s[10] == 'T' && s[19..] == tail
      && s[0..4] == date[0..4] && s[5..7] == date[5..7] && s[8..10] == date[8..10]
      && s[4] == date[4] && s[7] == date[7]
      && s[11..13] == time[0..2] && s[14..16] == time[3..5] && s[17..19] == time[6..8]
      && s[13] == time[2] && s[16] == time[5]
  {
    var s := date + ['T'] + time + tail;
    assert s[0..10] == date && s[11..19] == time;
  }

  // ---------------------------------------------------------------------------
  // Dispatch and the cache
  // ---------------------------------------------------------------------------

  /** `cacheLength`: one day, in seconds. */
  const CacheLength: int := 60 * 60 * 24

  /** The names of `QUERIES`, each answered by its SQL text. */
  const QueryNames: set<string> := {
    "reports_by_day", "submissions_by_day_and_rating", "submissions_by_day_and_type",
    "users_by_day", "main_genders", "other_genders", "genders", "ages", "tickets",
    "tag_counts", "tag_popularity", "tag_favorites", "other_rating_statistics",
    "tag_popularity_favorites", "tag_interest",
    "submission_pct_views_favorites_comments_submissions_by_rating",
    "follows_vs_submissions", "follows_vs_submissions_clustered"
  }

  /** The names `n` for which `QueriesResource` has a method `query_<n>`. */
  const QueryMethods: set<string> := {"favorites_vs_view_time"}

  /** A name the resource can answer. */
  predicate Known(name: string) {
    name in QueryMethods || name in QueryNames
  }

  /** Where a query's result comes from. */
  datatype QuerySource = Sql(name: string) | Method(name: string)

  /** A `query_<name>` method is preferred to the SQL text of the same name. */
  function SourceFor(name: string): (r: QuerySource)
    requires Known(name)
    ensures r.name == name
    ensures r.Method? <==> name in QueryMethods
  {
    if name in QueryMethods then Method(name) else Sql(name)
  }

  /** The outcome of a fetch: the rows, or a failure (the Deferred's errback). */
  datatype FetchOutcome = Fetched(results: PyValue) | FetchFailed

  /** A cached result with the time it was stored. */
  datatype CacheEntry = CacheEntry(cachedAt: int, results: PyValue)

  /** What `render_GET` decides before any fetch. */
  datatype Plan = Reject | Serve(results: PyValue) | Fetch(source: QuerySource)

  /** The entry for `name` was cached less than `CacheLength` seconds before `now`. */
  predicate Fresh(cache: map<string, CacheEntry>, name: string, now: int) {
    name in cache && cache[name].cachedAt + CacheLength > now
  }

  /**
   * The decision on the `query` argument (`None` when it is absent): a missing, empty
   * or unknown name is rejected, a fresh cached entry is served, anything else is fetched.
   */
  function PlanRequest(cache: map<string, CacheEntry>, query: Option<string>, now: int): (r: Plan)
    ensures r.Reject? <==> query.None? || !Known(query.value)
    ensures r.Serve? <==> query.Some? && Known(query.value) && Fresh(cache, query.value, now)
    ensures r.Serve? ==> r.results == cache[query.value].results
    ensures r.Fetch? ==> r.source == SourceFor(query.value)
  {
    if query.None? || query.value == "" then Reject
    else if query.value !in QueryMethods && query.value !in QueryNames then Reject
    else if query.value in cache && cache[query.value].cachedAt + CacheLength > now then Serve(cache[query.value].results)
    else Fetch(SourceFor(query.value))
  }

  /** The body of a rejected request: `{"error": "bad query"}`. */
  const BadQueryBody: Json := JObject([("error", JString("bad query"))])

  /** What the client receives: a JSON body, or the failure page of `processingFailed`. */
  datatype Response = Body(json: Json) | ProcessingFailed

  /** `_reply`: `{"result": results}`, failing when the results cannot be encoded. */
  function ReplyBody(results: PyValue): (r: Result<Json>)
    ensures r.Ok? <==> Serializable(results)
    ensures r.Ok? ==> r.value == JObject([("result", Serialize(results).value)])
  {
    var encoded := Serialize(results);
    if encoded.Ok? then Ok(JObject([("result", encoded.value)])) else Failure(encoded.error)
  }

  /**
   * One request as a function of the cache before it: the response and the cache after
   * it. `now` is the time the freshness test reads; `later` the time `_cache` reads
   * once the fetch has been answered. A fetched result is cached only when the reply
   * with it was written; a failed fetch or reply leaves the cache alone.
   */
  function Step(cache: map<string, CacheEntry>, query: Option<string>, now: int, later: int,
                fetch: QuerySource -> FetchOutcome): (r: (Response, map<string, CacheEntry>))
    requires forall name :: name in cache ==> Serializable(cache[name].results)
  {
    match PlanRequest(cache, query, now)
    case Reject => (Body(BadQueryBody), cache)
    case Serve(results) => (Body(ReplyBody(results).value), cache)
    case Fetch(source) =>
      match fetch(source)
      case FetchFailed => (ProcessingFailed, cache)
      case Fetched(results) =>
        var body := ReplyBody(results);
        if body.Ok? then (Body(body.value), cache[query.value := CacheEntry(later, results)])
        else (ProcessingFailed, cache)
  }

  /** Every cached entry is stored under a known name and can be encoded. */
  ghost predicate CacheInvariant(cache: map<string, CacheEntry>) {
    forall name :: name in cache ==> Known(name) && Serializable(cache[name].results)
  }

  /**
   * A request keeps the cache invariant, never evicts, and changes at most the entry of
   * the query it was asked: to the fetched results stamped `later`, and only when the
   * fetch and the reply both succeeded.
   */
  lemma StepKeepsOthers(cache: map<string, CacheEntry>, query: Option<string>, now: int, later: int,
                        fetch: QuerySource -> FetchOutcome)
    requires CacheInvariant(cache)
    ensures var (resp, after) := Step(cache, query, now, later, fetch);
      && CacheInvariant(after)
      && cache.Keys <= after.Keys
      && (forall name :: name in cache && (query.None? || name != query.value) ==> after[name] == cache[name])
      && (after != cache ==>
            && query.Some? && Known(query.value) && !Fresh(cache, query.value, now)
            && resp.Body?
            && fetch(SourceFor(query.value)).Fetched?
            && after == cache[query.value := CacheEntry(later, fetch(SourceFor(query.value)).results)])
  {
  }

  /** A failed fetch caches nothing and answers with the failure page. */
  lemma FailedFetchCachesNothing(cache: map<string, CacheEntry>, name: string, now: int, later: int,
                                 fetch: QuerySource -> FetchOutcome)
    requires CacheInvariant(cache)
    requires Known(name) && !Fresh(cache, name, now)
    requires fetch(SourceFor(name)).FetchFailed?
    ensures Step(cache, Some(name), now, later, fetch) == (ProcessingFailed, cache)
  {
  }

  /** An unknown or missing name is rejected before the cache is looked at. */
  lemma BadQueryUntouched(cache: map<string, CacheEntry>, query: Option<string>, now: int, later: int,
                          fetch: QuerySource -> FetchOutcome)
    requires CacheInvariant(cache)
    requires query.None? || !Known(query.value)
    ensures Step(cache, query, now, later, fetch) == (Body(BadQueryBody), cache)
  {
  }

  /** `top_reporters`, which the front end asks for, has neither SQL nor a method. */
  lemma TopReportersRejected(cache: map<string, CacheEntry>, now: int)
    ensures PlanRequest(cache, Some("top_reporters"), now) == Reject
  {
  }

  /** An entry exactly `CacheLength` seconds old is no longer fresh: the test is strict. */
  lemma ExpiresAtCacheLength(cache: map<string, CacheEntry>, name: string, results: PyValue, t: int)
    requires Known(name) && cache == map[name := CacheEntry(t, results)]
    ensures PlanRequest(cache, Some(name), t + CacheLength - 1) == Serve(results)
    ensures PlanRequest(cache, Some(name), t + 86400) == Fetch(SourceFor(name))
  {
  }

  /** Freshness only wears off: an entry served at `now` is served at every earlier time. */
  lemma FreshEarlier(cache: map<string, CacheEntry>, query: Option<string>, now: int, earlier: int)
    requires PlanRequest(cache, query, now).Serve? && earlier <= now
    ensures PlanRequest(cache, query, earlier) == PlanRequest(cache, query, now)
  {
  }

  /** `favorites_vs_view_time` is answered by its method. */
  lemma MethodTakesPrecedence(cache: map<string, CacheEntry>, now: int)
    requires "favorites_vs_view_time" !in cache
    ensures PlanRequest(cache, Some("favorites_vs_view_time"), now) == Fetch(Method("favorites_vs_view_time"))
  {
  }

  /** `QueriesResource`: the query endpoint with its result cache. */
  class QueriesResource {
    var cache: map<string, CacheEntry>

    ghost predicate Valid()
      reads this
    {
      CacheInvariant(cache)
    }

    constructor ()
      ensures Valid() && cache == map[]
    {
      cache := map[];
    }

    /** `_cache`: stores the results under the query, stamped with the time. */
    method Cache(results: PyValue, query: string, now: int)
      modifies this
      ensures cache == old(cache)[query := CacheEntry(now, results)]
      ensures old(Valid()) && Known(query) && Serializable(results) ==> Valid()
    {
      cache := cache[query := CacheEntry(now, results)];
    }

    /**
     * `render_GET` for the `query` argument, with the fetch's outcome given by `fetch`.
     * Its response and the new cache are those of `Step`.
     */
    method RenderGet(query: Option<string>, now: int, later: int, fetch: QuerySource -> FetchOutcome)
        returns (resp: Response)
      requires Valid()
      modifies this
      ensures Valid()
      ensures (resp, cache) == Step(old(cache), query, now, later, fetch)
    {
      if query.None? || query.value == "" {
        return Body(BadQueryBody);
      }
      var name := query.value;
      var hasMethod := name in QueryMethods;
      if !hasMethod && name !in QueryNames {
        return Body(BadQueryBody);
      }
      if name in cache {
        var entry := cache[name];
        if entry.cachedAt + CacheLength > now {
          return Body(ReplyBody(entry.results).value);
        }
      }
      var source := if hasMethod then Method(name) else Sql(name);
      var outcome := fetch(source);
      if outcome.FetchFailed? {
        return ProcessingFailed;
      }
      var reply := ReplyBody(outcome.results);
      if reply.Failure? {
        return ProcessingFailed;
      }
      resp := Body(reply.value);
      Cache(outcome.results, name, later);
    }
  }
}
