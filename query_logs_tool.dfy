/** The `query_logs` tool (src/tools/query-logs.ts): time-parameter
    validation, assembly of the options handed to the logs service, and the
    formatting of its answer. */
module QueryLogsTool {
  import opened Wrappers
  import opened Text
  import opened LogsService

  /** The four time fields `validateTimeParameters` looks at. */
  datatype TimeParameters = TimeParameters(
    startTimeRange: Option<int>,
    endTimeRange: Option<int>,
    startTimestamp: Option<int>,
    endTimestamp: EndTimestamp)

  /** The two errors `validateTimeParameters` throws. */
  datatype ValidationError = ParameterConflict | EndWithoutStart

  const ParameterConflictMessage: string :=
    "Invalid parameter combination: Cannot use both timestamp and time range parameters together. "
    + "Use either startTimestamp/endTimestamp OR startTimeRange/endTimeRange."

  const EndWithoutStartMessage: string :=
    "Invalid parameter: endTimestamp provided without startTimestamp. "
    + "When using timestamp-based queries, startTimestamp is required."

  function ErrorMessage(e: ValidationError): string
  {
    match e
    case ParameterConflict => ParameterConflictMessage
    case EndWithoutStart => EndWithoutStartMessage
  }

  /** `validateTimeParameters`: `None` when the parameters are accepted,
      otherwise the error it throws. An explicit `null` end timestamp counts
      as provided. */
  function ValidateTimeParameters(p: TimeParameters): (r: Option<ValidationError>)
    ensures r == Some(ParameterConflict)
        <==> p.startTimestamp.Some? && (p.startTimeRange.Some? || p.endTimeRange.Some?)
    ensures r == Some(EndWithoutStart) <==> p.startTimestamp.None? && !p.endTimestamp.Undefined?
  {
    var isUsingTimestamp := p.startTimestamp.Some?;
    var isUsingTimeRange := p.startTimeRange.Some? || p.endTimeRange.Some?;
    if isUsingTimestamp && isUsingTimeRange then Some(ParameterConflict)
    else if !p.endTimestamp.Undefined? && !isUsingTimestamp then Some(EndWithoutStart)
    else None
  }

  /** The accepted parameters are exactly those that use one mode: a start
      timestamp and no range field, or no timestamp field at all. */
  lemma AcceptedParametersUseOneMode(p: TimeParameters)
    ensures ValidateTimeParameters(p).None? <==>
      ((p.startTimestamp.Some? && p.startTimeRange.None? && p.endTimeRange.None?)
       || (p.startTimestamp.None? && p.endTimestamp.Undefined?))
  {
  }

  /** The arguments of the tool; every field but `queryValue` may be omitted. */
  datatype ToolArgs = ToolArgs(
    queryValue: string,
    queryField: Option<string>,
    startTimeRange: Option<int>,
    endTimeRange: Option<int>,
    startTimestamp: Option<int>,
    endTimestamp: EndTimestamp,
    limit: Option<int>,
    selectFields: Option<seq<string>>,
    additionalConditions: Option<seq<string>>)

  const DefaultQueryField: string := "trace.id"
  const DefaultToolLimit: int := 100
  const DefaultSelectFields: seq<string> := ["timestamp", "message", "tag", "userAgent"]

  function TimeParametersOf(args: ToolArgs): TimeParameters
  {
    TimeParameters(args.startTimeRange, args.endTimeRange, args.startTimestamp, args.endTimestamp)
  }

  function QueryFieldOf(args: ToolArgs): string { args.queryField.GetOr(DefaultQueryField) }

  /** The condition the tool adds: `<field> = '<value>'`. */
  function FieldCondition(field: string, value: string): string
  {
    field + " = '" + value + "'"
  }

  /** The options record the tool hands to the logs service. */
  function QueryOptionsFor(args: ToolArgs): LogsQueryOptions
  {
    var base := LogsQueryOptions(
      Some(args.limit.GetOr(DefaultToolLimit)), None, None, None, Undefined,
      Some(args.additionalConditions.GetOr([]) + [FieldCondition(QueryFieldOf(args), args.queryValue)]),
      Some(args.selectFields.GetOr(DefaultSelectFields)));
    if args.startTimestamp.Some? then
      base.(startTimestamp := args.startTimestamp, endTimestamp := args.endTimestamp)
    else
      base.(startTimeRange := args.startTimeRange, endTimeRange := args.endTimeRange)
  }

  /** Lines 104-143 of `queryLogsTool`: fill in the defaults, set the fields
      of exactly one time mode, copy the caller's conditions and push the
      field condition onto the copy. */
  method AssembleQueryOptions(args: ToolArgs) returns (options: LogsQueryOptions)
    ensures options == QueryOptionsFor(args)
    ensures options.limit == Some(args.limit.GetOr(100))
    ensures options.selectFields == Some(args.selectFields.GetOr(["timestamp", "message", "tag", "userAgent"]))
    ensures options.whereConditions
         == Some(args.additionalConditions.GetOr([]) + [FieldCondition(args.queryField.GetOr("trace.id"), args.queryValue)])
    ensures args.startTimestamp.Some? ==>
      && options.startTimestamp == args.startTimestamp && options.endTimestamp == args.endTimestamp
      && options.startTimeRange.None? && options.endTimeRange.None?
    ensures args.startTimestamp.None? ==>
      && options.startTimestamp.None? && options.endTimestamp.Undefined?
      && options.startTimeRange == args.startTimeRange && options.endTimeRange == args.endTimeRange
  {
    var queryField := args.queryField.GetOr(DefaultQueryField);
    var limit := args.limit.GetOr(DefaultToolLimit);
    var selectFields := args.selectFields.GetOr(DefaultSelectFields);
    var additionalConditions := args.additionalConditions.GetOr([]);
    var whereConditions := additionalConditions;
    options := LogsQueryOptions(Some(limit), None, None, None, Undefined, None, Some(selectFields));
    if args.startTimestamp.Some? {
      options := options.(startTimestamp := args.startTimestamp, endTimestamp := args.endTimestamp);
    } else {
      options := options.(startTimeRange := args.startTimeRange, endTimeRange := args.endTimeRange);
    }
    whereConditions := whereConditions + [FieldCondition(queryField, args.queryValue)];
    options := options.(whereConditions := Some(whereConditions));
  }

  /** On accepted parameters the service resolves the window from the mode
      the caller chose: the caller's timestamps, or the caller's ranges
      (60 and 0 minutes by default). */
  lemma ForwardedWindow(args: ToolArgs, now: int)
    requires ValidateTimeParameters(TimeParametersOf(args)).None?
    ensures var w := ResolveWindow(QueryOptionsFor(args), now);
      if args.startTimestamp.Some? then
        w == TimeWindow(args.startTimestamp.value, if args.endTimestamp.At? then args.endTimestamp.millis else now)
      else
        args.endTimestamp.Undefined?
        && w == TimeWindow(now - args.startTimeRange.GetOr(60) * 60000, now - args.endTimeRange.GetOr(0) * 60000)
  {
  }

  /** The query the service builds for the tool ends with the field
      condition as the last conjunct, right before the limit. */
  lemma {:induction false} FieldConditionIsLastConjunct(args: ToolArgs, now: int)
    ensures exists head: string ::
      OptionsQuery(QueryOptionsFor(args), now)
      == head + " AND " + FieldCondition(QueryFieldOf(args), args.queryValue)
         + " LIMIT " + IntToString(args.limit.GetOr(DefaultToolLimit))
  {
    var o := QueryOptionsFor(args);
    var w := ResolveWindow(o, now);
    var condition := FieldCondition(QueryFieldOf(args), args.queryValue);
    var conjuncts := [TimestampAfter(w.start), TimestampAtMost(w.end)] + args.additionalConditions.GetOr([]);
    OptionsQueryShape(o, now);
    assert o.whereConditions.GetOr([]) == args.additionalConditions.GetOr([]) + [condition];
    assert [TimestampAfter(w.start), TimestampAtMost(w.end)] + o.whereConditions.GetOr([]) == conjuncts + [condition];
    assert o.limit.GetOr(DefaultLimit) == args.limit.GetOr(DefaultToolLimit);
    var head := SplitLastConjunct(SelectClause(o.selectFields.GetOr([])), conjuncts, condition,
                                  IntToString(args.limit.GetOr(DefaultToolLimit)));
  }

  /** A query whose conjunction ends with `condition` splits before it. */
  lemma SplitLastConjunct(select: string, conjuncts: seq<string>, condition: string, limit: string) returns (head: string)
    requires conjuncts != []
    ensures "SELECT " + select + " FROM Log WHERE " + Join(conjuncts + [condition], " AND ") + " LIMIT " + limit
         == head + " AND " + condition + " LIMIT " + limit
  {
    JoinSnoc(conjuncts, condition, " AND ");
    head := "SELECT " + select + " FROM Log WHERE " + Join(conjuncts, " AND ");
  }

  /** The two kinds of content item: plain text, and the JSON document
      holding the summary and the log entries (its text rendering is not
      modelled). */
  datatype Content = TextItem(text: string) | JsonItem(summary: Summary, logs: seq<LogEntry>)

  datatype Summary = Summary(query: string, logsCount: nat, elapsedTime: string)

  datatype CallToolResult = CallToolResult(content: seq<Content>)

  const ErrorPrefix: string := "Error querying logs: "

  function ErrorResult(message: string): CallToolResult
  {
    CallToolResult([TextItem(ErrorPrefix + message)])
  }

  /** A result made of one text item that reports an error. */
  predicate IsErrorResult(r: CallToolResult)
  {
    |r.content| == 1 && r.content[0].TextItem? && ErrorPrefix <= r.content[0].text
  }

  /** `formatLogsQueryResult`: a headline and the summary document. */
  function FormatLogsQueryResult(result: LogsQueryResult, queryField: string, queryValue: string): (r: CallToolResult)
    ensures |r.content| == 2 && r.content[0].TextItem? && r.content[1].JsonItem?
    ensures r.content[1].summary.logsCount == |result.logs| && r.content[1].logs == result.logs
    ensures !IsErrorResult(r)
  {
    var elapsed := IntToString(result.metadata.elapsedTime);
    var summary := Summary(FieldCondition(queryField, queryValue), |result.logs|, elapsed + "ms");
    CallToolResult([
      TextItem("Successfully retrieved " + NatToString(|result.logs|) + " log entries where "
               + FieldCondition(queryField, queryValue) + " in " + elapsed + "ms."),
      JsonItem(summary, result.logs)])
  }

  /** The headline of a success states the same count as the summary, and
      that count is the number of log entries. */
  lemma HeadlineCountMatchesSummary(result: LogsQueryResult, queryField: string, queryValue: string)
    ensures var r := FormatLogsQueryResult(result, queryField, queryValue);
      "Successfully retrieved " + NatToString(r.content[1].summary.logsCount) + " log entries" <= r.content[0].text
      && r.content[1].summary.logsCount == |result.logs|
  {
    var r := FormatLogsQueryResult(result, queryField, queryValue);
    var p := "Successfully retrieved " + NatToString(|result.logs|) + " log entries";
    assert r.content[0].text == p + (" where " + FieldCondition(queryField, queryValue) + " in "
      + IntToString(result.metadata.elapsedTime) + "ms.");
  }

  /** With only `queryValue` given and two entries found in 100 ms, the
      headline names the default field and the summary repeats its parts. */
  lemma DefaultArgsHeadline(logs: seq<LogEntry>)
    requires |logs| == 2
    ensures var args := ToolArgs("abc123", None, None, None, None, Undefined, None, None, None);
      var r := FormatLogsQueryResult(LogsQueryResult(logs, LogsMetadata(2, 100)), QueryFieldOf(args), args.queryValue);
      && r.content[0].text
         == "Successfully retrieved " + "2" + " log entries where " + "trace.id = 'abc123'" + " in " + "100" + "ms."
      && r.content[1].summary == Summary("trace.id = 'abc123'", 2, "100" + "ms")
  {
    HundredText();
    assert NatToString(2) == "2";
    assert QueryFieldOf(ToolArgs("abc123", None, None, None, None, Undefined, None, None, None)) == "trace.id";
    assert FieldCondition("trace.id", "abc123") == "trace.id = 'abc123'";
  }

  /** `queryLogsTool`. `forwarded` is the options record handed to the logs
      service, `None` when the service is never called; `execute` stands for
      the upstream call the service makes. */
  method QueryLogs(
    args: ToolArgs, now: int,
    execute: string -> Result<seq<LogEntry>, string>,
    elapsedTime: int) returns (result: CallToolResult, forwarded: Option<LogsQueryOptions>)
    ensures forwarded.None? <==> ValidateTimeParameters(TimeParametersOf(args)).Some?
    ensures forwarded.None? ==>
      result == ErrorResult(ErrorMessage(ValidateTimeParameters(TimeParametersOf(args)).value))
    ensures forwarded.Some? ==> forwarded.value == QueryOptionsFor(args)
    ensures forwarded.Some? ==>
      var upstream := execute(OptionsQuery(QueryOptionsFor(args), now));
      && (upstream.Failure? ==> result == ErrorResult(upstream.error))
      && (upstream.Success? ==> |result.content| == 2 && result.content[1].JsonItem?
                                && result.content[1].logs == upstream.value
                                && result.content[1].summary.logsCount == |upstream.value|)
    ensures IsErrorResult(result)
        <==> forwarded.None? || execute(OptionsQuery(QueryOptionsFor(args), now)).Failure?
    ensures forwarded.Some? && execute(OptionsQuery(QueryOptionsFor(args), now)).Success? ==>
      var logs := execute(OptionsQuery(QueryOptionsFor(args), now)).value;
      result == FormatLogsQueryResult(LogsQueryResult(logs, LogsMetadata(|logs|, elapsedTime)),
                                      QueryFieldOf(args), args.queryValue)
  {
    var invalid := ValidateTimeParameters(TimeParametersOf(args));
    if invalid.Some? {
      result, forwarded := ErrorResult(ErrorMessage(invalid.value)), None;
      return;
    }
    var options := AssembleQueryOptions(args);
    forwarded := Some(options);
    var answer := LogsService.QueryLogs(Options(options), now, execute, elapsedTime);
    match answer
    case Failure(message) =>
      result := ErrorResult(message);
    case Success(logs) =>
      result := FormatLogsQueryResult(logs, QueryFieldOf(args), args.queryValue);
  }
}
