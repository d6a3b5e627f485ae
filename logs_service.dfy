/** The query construction and result shaping of `NewRelicLogsService.queryLogs`
    (src/services/new-relic-logs-service.ts). The wall clock is the parameter
    `now` and the NerdGraph call is the function parameter `execute`. */
module LogsService {
  import opened Wrappers
  import opened Text

  /** `endTimestamp?: number | null`: omitted, explicitly `null`, or a time. */
  datatype EndTimestamp = Undefined | Null | At(millis: int)

  /** `LogsQueryOptions`: every field may be omitted. */
  datatype LogsQueryOptions = LogsQueryOptions(
    limit: Option<int>,
    startTimeRange: Option<int>,
    endTimeRange: Option<int>,
    startTimestamp: Option<int>,
    endTimestamp: EndTimestamp,
    whereConditions: Option<seq<string>>,
    selectFields: Option<seq<string>>)

  /** The argument of `queryLogs`: a raw NRQL string or an options record. */
  datatype LogsQuery = RawNrql(nrql: string) | Options(options: LogsQueryOptions)

  /** `LogEntry`; attribute values are kept as text. */
  datatype LogEntry = LogEntry(
    timestamp: string,
    message: string,
    level: Option<string>,
    attributes: map<string, string>)

  datatype LogsMetadata = LogsMetadata(totalCount: nat, elapsedTime: int)

  datatype LogsQueryResult = LogsQueryResult(logs: seq<LogEntry>, metadata: LogsMetadata)

  const DefaultLimit: int := 100
  const DefaultStartMinutesAgo: int := 60
  const DefaultEndMinutesAgo: int := 0
  const MillisPerMinute: int := 60 * 1000

  /** The resolved `timestamp > start AND timestamp <= end` bounds, in
      milliseconds since the epoch. */
  datatype TimeWindow = TimeWindow(start: int, end: int)

  /** Absolute mode whenever a start timestamp is given (a missing or null end
      means `now`); otherwise relative mode, minutes before `now`. */
  function ResolveWindow(o: LogsQueryOptions, now: int): TimeWindow
  {
    if o.startTimestamp.Some? then
      TimeWindow(o.startTimestamp.value, if o.endTimestamp.At? then o.endTimestamp.millis else now)
    else
      var startMinutes := o.startTimeRange.GetOr(DefaultStartMinutesAgo);
      var endMinutes := o.endTimeRange.GetOr(DefaultEndMinutesAgo);
      TimeWindow(now - startMinutes * MillisPerMinute, now - endMinutes * MillisPerMinute)
  }

  function TimestampAfter(t: int): string { "timestamp > " + IntToString(t) }

  function TimestampAtMost(t: int): string { "timestamp <= " + IntToString(t) }

  /** The WHERE clause: the window first, then the caller's conditions. */
  function WhereClause(w: TimeWindow, conditions: seq<string>): string
  {
    var clause := "WHERE " + TimestampAfter(w.start) + " AND " + TimestampAtMost(w.end);
    if |conditions| > 0 then clause + " AND " + Join(conditions, " AND ") else clause
  }

  /** The fields joined with ", ", or `*` when there are none. */
  function SelectClause(fields: seq<string>): string
  {
    if |fields| > 0 then Join(fields, ", ") else "*"
  }

  /** The WHERE clause is one conjunction: the two window bounds followed by
      every caller condition in order, with nothing appended for none. */
  lemma WhereClauseIsConjunction(w: TimeWindow, conditions: seq<string>)
    ensures WhereClause(w, conditions)
         == "WHERE " + Join([TimestampAfter(w.start), TimestampAtMost(w.end)] + conditions, " AND ")
  {
    var lower, upper := TimestampAfter(w.start), TimestampAtMost(w.end);
    JoinCons(lower, [upper] + conditions, " AND ");
    assert [lower, upper] + conditions == [lower] + ([upper] + conditions);
    if conditions == [] {
      assert [upper] + conditions == [upper];
    } else {
      JoinCons(upper, conditions, " AND ");
    }
  }

  /** The query built from an options record (lines 91-128). */
  function OptionsQuery(o: LogsQueryOptions, now: int): string
  {
    "SELECT " + SelectClause(o.selectFields.GetOr([])) + " FROM Log "
      + WhereClause(ResolveWindow(o, now), o.whereConditions.GetOr([]))
      + " LIMIT " + IntToString(o.limit.GetOr(DefaultLimit))
  }

  /** The NRQL text `queryLogs` sends upstream: a raw string verbatim. */
  function BuildQuery(q: LogsQuery, now: int): (query: string)
    ensures q.RawNrql? ==> query == q.nrql
    ensures q.Options? ==> query == OptionsQuery(q.options, now)
  {
    match q
    case RawNrql(nrql) => nrql
    case Options(o) => OptionsQuery(o, now)
  }

  /** The exact shape of a built query: `SELECT <fields or *> FROM Log WHERE`
      the conjunction of the window and the caller's conditions, then
      `LIMIT` with 100 by default. */
  lemma OptionsQueryShape(o: LogsQueryOptions, now: int)
    ensures var w := ResolveWindow(o, now);
      OptionsQuery(o, now)
      == "SELECT " + SelectClause(o.selectFields.GetOr([])) + " FROM Log WHERE "
         + Join([TimestampAfter(w.start), TimestampAtMost(w.end)] + o.whereConditions.GetOr([]), " AND ")
         + " LIMIT " + IntToString(o.limit.GetOr(DefaultLimit))
  {
    var w := ResolveWindow(o, now);
    var conditions := o.whereConditions.GetOr([]);
    WhereClauseIsConjunction(w, conditions);
    var j := Join([TimestampAfter(w.start), TimestampAtMost(w.end)] + conditions, " AND ");
    assert " FROM Log " + ("WHERE " + j) == " FROM Log WHERE " + j;
  }

  /** The service does not reject mixed modes: once a start timestamp is
      given, the relative-mode fields have no effect on the query. */
  lemma AbsoluteModeWins(o: LogsQueryOptions, startRange: Option<int>, endRange: Option<int>, now: int)
    requires o.startTimestamp.Some?
    ensures OptionsQuery(o.(startTimeRange := startRange, endTimeRange := endRange), now)
         == OptionsQuery(o, now)
  {
  }

  /** A missing or `null` end timestamp closes an absolute window at `now`. */
  lemma AbsoluteEndDefaultsToNow(o: LogsQueryOptions, now: int)
    requires o.startTimestamp.Some? && !o.endTimestamp.At?
    ensures ResolveWindow(o, now) == TimeWindow(o.startTimestamp.value, now)
  {
  }

  /** With no time field at all the window is the last hour, ending now. */
  lemma DefaultWindowIsLastHour(o: LogsQueryOptions, now: int)
    requires o.startTimestamp.None? && o.startTimeRange.None? && o.endTimeRange.None?
    ensures ResolveWindow(o, now) == TimeWindow(now - 3600000, now)
  {
  }

  /** The builder does not enforce start <= end: in relative mode the window
      is ordered exactly when the start lies at least as far back as the end. */
  lemma RelativeWindowOrder(o: LogsQueryOptions, now: int)
    requires o.startTimestamp.None?
    ensures var w := ResolveWindow(o, now);
      w.start <= w.end <==> o.endTimeRange.GetOr(0) <= o.startTimeRange.GetOr(60)
  {
  }

  /** The query text determines the window: two option records with the same
      selection that produce the same query resolve to the same window. */
  lemma QueryDeterminesWindow(o1: LogsQueryOptions, o2: LogsQueryOptions, now: int)
    requires SelectClause(o1.selectFields.GetOr([])) == SelectClause(o2.selectFields.GetOr([]))
    requires OptionsQuery(o1, now) == OptionsQuery(o2, now)
    ensures ResolveWindow(o1, now) == ResolveWindow(o2, now)
  {
    var w1, w2 := ResolveWindow(o1, now), ResolveWindow(o2, now);
    QueryShape(o1, now);
    QueryShape(o2, now);
    CancelPrefix("SELECT " + SelectClause(o1.selectFields.GetOr([])) + " FROM Log WHERE timestamp > ",
                 WindowTail(o1, now), WindowTail(o2, now));
    IntToStringHasNoSpace(w1.start);
    IntToStringHasNoSpace(w2.start);
    IntToStringHasNoSpace(w1.end);
    IntToStringHasNoSpace(w2.end);
    BoundsFromText(IntToString(w1.start), IntToString(w1.end), RestAfterEnd(o1),
                   IntToString(w2.start), IntToString(w2.end), RestAfterEnd(o2), " AND timestamp <= ");
    IntToStringInjective(w1.start, w2.start);
    IntToStringInjective(w1.end, w2.end);
  }

  /** Two space-free bounds are read back from the window text, whatever
      the separator between them, as long as it starts with a space. */
  lemma BoundsFromText(s1: string, e1: string, rest1: string, s2: string, e2: string, rest2: string, mid: string)
    requires ' ' !in s1 && ' ' !in s2 && ' ' !in e1 && ' ' !in e2
    requires |mid| > 0 && mid[0] == ' '
    requires |rest1| > 0 && rest1[0] == ' ' && |rest2| > 0 && rest2[0] == ' '
    requires s1 + mid + e1 + rest1 == s2 + mid + e2 + rest2
    ensures s1 == s2 && e1 == e2
  {
    var m := mid[1..];
    var t1, t2 := m + (e1 + rest1), m + (e2 + rest2);
    assert mid == [' '] + m;
    assert s1 + mid + e1 + rest1 == s1 + [' '] + t1;
    assert s2 + mid + e2 + rest2 == s2 + [' '] + t2;
    TokenBeforeDelimiter(s1, t1, s2, t2, ' ');
    CancelPrefix(m, e1 + rest1, e2 + rest2);
    assert e1 + rest1 == e1 + [' '] + rest1[1..];
    assert e2 + rest2 == e2 + [' '] + rest2[1..];
    TokenBeforeDelimiter(e1, rest1[1..], e2, rest2[1..], ' ');
  }

  /** What follows the end bound in a built query; it always starts with a
      space. */
  function RestAfterEnd(o: LogsQueryOptions): (rest: string)
    ensures |rest| > 0 && rest[0] == ' '
  {
    var conditions := o.whereConditions.GetOr([]);
    (if |conditions| > 0 then " AND " + Join(conditions, " AND ") else "")
      + " LIMIT " + IntToString(o.limit.GetOr(DefaultLimit))
  }

  function WindowTail(o: LogsQueryOptions, now: int): string
  {
    var w := ResolveWindow(o, now);
    IntToString(w.start) + " AND timestamp <= " + IntToString(w.end) + RestAfterEnd(o)
  }

  lemma QueryShape(o: LogsQueryOptions, now: int)
    ensures OptionsQuery(o, now)
         == "SELECT " + SelectClause(o.selectFields.GetOr([])) + " FROM Log WHERE timestamp > " + WindowTail(o, now)
  {
    var w := ResolveWindow(o, now);
    var conditions := o.whereConditions.GetOr([]);
    var sel, lim := SelectClause(o.selectFields.GetOr([])), IntToString(o.limit.GetOr(DefaultLimit));
    var s, e := IntToString(w.start), IntToString(w.end);
    var suffix := if |conditions| > 0 then " AND " + Join(conditions, " AND ") else "";
    WhereLiterals(s, e, suffix);
    QueryLiterals(sel, s, e, suffix, lim);
    assert WhereClause(w, conditions) == "WHERE timestamp > " + s + " AND timestamp <= " + e + suffix;
    assert RestAfterEnd(o) == suffix + " LIMIT " + lim;
  }

  lemma WhereLiterals(s: string, e: string, suffix: string)
    ensures "WHERE " + ("timestamp > " + s) + " AND " + ("timestamp <= " + e) + suffix
         == "WHERE timestamp > " + s + " AND timestamp <= " + e + suffix
  {
  }

  lemma QueryLiterals(sel: string, s: string, e: string, suffix: string, lim: string)
    ensures "SELECT " + sel + " FROM Log " + ("WHERE timestamp > " + s + " AND timestamp <= " + e + suffix) + " LIMIT " + lim
         == "SELECT " + sel + " FROM Log WHERE timestamp > " + (s + " AND timestamp <= " + e + (suffix + " LIMIT " + lim))
  {
  }

  /** `queryLogs`: the upstream rows become `logs`, `totalCount` is their
      number, and an upstream error is rethrown unchanged. */
  function QueryLogs(
    q: LogsQuery, now: int,
    execute: string -> Result<seq<LogEntry>, string>,
    elapsedTime: int): (r: Result<LogsQueryResult, string>)
    ensures r.Success? <==> execute(BuildQuery(q, now)).Success?
    ensures r.Success? ==>
      && r.value.logs == execute(BuildQuery(q, now)).value
      && r.value.metadata.totalCount == |r.value.logs|
      && r.value.metadata.elapsedTime == elapsedTime
    ensures r.Failure? ==> r.error == execute(BuildQuery(q, now)).error
  {
    match execute(BuildQuery(q, now))
    case Failure(e) => Failure(e)
    case Success(logs) => Success(LogsQueryResult(logs, LogsMetadata(|logs|, elapsedTime)))
  }

  /** The options example of the service tests, at any clock value: a
      30-minute relative window, two conditions, four fields, limit 50. */
  lemma OptionsExampleQuery(now: int)
    ensures OptionsQuery(LogsQueryOptions(
              Some(50), Some(30), Some(0), None, Undefined,
              Some(["level = \"error\"", "service = \"api\""]),
              Some(["timestamp", "message", "level", "service"])), now)
         == "SELECT " + "timestamp, message, level, service" + " FROM Log WHERE timestamp > " + IntToString(now - 30 * 60 * 1000)
            + " AND timestamp <= " + IntToString(now) + (" AND " + "level = \"error\"" + " AND " + "service = \"api\"") + " LIMIT " + "50"
  {
    var o := LogsQueryOptions(
      Some(50), Some(30), Some(0), None, Undefined,
      Some(["level = \"error\"", "service = \"api\""]),
      Some(["timestamp", "message", "level", "service"]));
    var conditions := (" AND " + "level = \"error\"" + " AND " + "service = \"api\"");
    var start, end := IntToString(now - 30 * 60 * 1000), IntToString(now);
    calc {
      OptionsQuery(o, now);
      == { QueryShape(o, now); }
      "SELECT " + SelectClause(["timestamp", "message", "level", "service"]) + " FROM Log WHERE timestamp > " + WindowTail(o, now);
      == { SelectExample(); }
      "SELECT " + "timestamp, message, level, service" + " FROM Log WHERE timestamp > " + WindowTail(o, now);
      == { assert ResolveWindow(o, now) == TimeWindow(now - 30 * 60 * 1000, now); }
      "SELECT " + "timestamp, message, level, service" + " FROM Log WHERE timestamp > "
        + (start + " AND timestamp <= " + end + RestAfterEnd(o));
      == { ConditionsExample(); }
      "SELECT " + "timestamp, message, level, service" + " FROM Log WHERE timestamp > "
        + (start + " AND timestamp <= " + end + (conditions + " LIMIT " + "50"));
      == { ExampleLiterals("timestamp, message, level, service", start, end, conditions, "50"); }
      "SELECT " + "timestamp, message, level, service" + " FROM Log WHERE timestamp > " + start
        + " AND timestamp <= " + end + conditions + " LIMIT " + "50";
    }
  }

  lemma SelectExample()
    ensures SelectClause(["timestamp", "message", "level", "service"]) == "timestamp, message, level, service"
  {
    var two, three, four := ["level", "service"], ["message", "level", "service"], ["timestamp", "message", "level", "service"];
    assert two[1..] == ["service"];
    assert three[1..] == two;
    assert four[1..] == three;
    assert Join(four, ", ") == "timestamp" + ", " + ("message" + ", " + ("level" + ", " + "service"));
  }

  lemma ConditionsExample()
    ensures RestAfterEnd(LogsQueryOptions(
              Some(50), Some(30), Some(0), None, Undefined,
              Some(["level = \"error\"", "service = \"api\""]),
              Some(["timestamp", "message", "level", "service"])))
         == (" AND " + "level = \"error\"" + " AND " + "service = \"api\"") + " LIMIT " + "50"
  {
    var conditions := ["level = \"error\"", "service = \"api\""];
    assert conditions[1..] == ["service = \"api\""];
    assert Join(conditions, " AND ") == "level = \"error\"" + " AND " + "service = \"api\"";
    FiftyText();
  }

  lemma HundredText()
    ensures IntToString(100) == "100"
  {
    assert NatToString(10) == NatToString(1) + [DigitChar(0)];
    assert NatToString(100) == NatToString(10) + [DigitChar(0)];
  }

  lemma FiftyText()
    ensures IntToString(50) == "50"
  {
    assert NatToString(50) == NatToString(5) + [DigitChar(0)];
  }

  /** The defaults example of the service tests, at any clock value:
      `SELECT *`, the last hour, `LIMIT 100`. */
  lemma DefaultsExampleQuery(now: int)
    ensures OptionsQuery(LogsQueryOptions(None, None, None, None, Undefined, None, None), now)
         == "SELECT " + "*" + " FROM Log WHERE timestamp > " + IntToString(now - 60 * 60 * 1000)
            + " AND timestamp <= " + IntToString(now) + " LIMIT " + "100"
  {
    var o := LogsQueryOptions(None, None, None, None, Undefined, None, None);
    assert ResolveWindow(o, now) == TimeWindow(now - 60 * 60 * 1000, now);
    HundredText();
    assert RestAfterEnd(o) == "" + " LIMIT " + "100";
    QueryShape(o, now);
    ExampleLiterals("*", IntToString(now - 60 * 60 * 1000), IntToString(now), "", "100");
  }

  lemma ExampleLiterals(sel: string, s: string, e: string, conditions: string, lim: string)
    ensures "SELECT " + sel + " FROM Log WHERE timestamp > " + (s + " AND timestamp <= " + e + (conditions + " LIMIT " + lim))
         == "SELECT " + sel + " FROM Log WHERE timestamp > " + s + " AND timestamp <= " + e + conditions + " LIMIT " + lim
  {
  }
}
