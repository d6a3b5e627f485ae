# nr-mcp core, modelled in Dafny

nr-mcp is an MCP server that lets an assistant query New Relic logs, tags and dashboard NRQL queries. It also ships a scaffolding script for new tools. This project models the deterministic logic of that server and proves properties of the model. The clock, the network and the file system are abstracted away.

- `logs_service.dfy`, module `LogsService`: the NRQL text `NewRelicLogsService.queryLogs` builds. It covers a raw string passed verbatim, or an options record with an absolute or a relative time window, the `WHERE` conjunction, the select clause and the `LIMIT`. It also covers the result shape and error propagation.
- `query_logs_tool.dfy`, module `QueryLogsTool`: the `query_logs` tool. It covers `validateTimeParameters` with its two error kinds, the assembly of the options record (defaults, exactly one time mode, the `field = 'value'` condition pushed last), `formatLogsQueryResult`, and the error result.
- `tags_service.dfy`, module `TagsService`: `parseTag`, which maps `newrelic.prod-X` and `newrelic.staging-X` to an environment and a service name, and the parse, filter and count pipeline of `queryTags`.
- `nrql_service.dfy`, module `NrqlService`: `extractNrqlsFromDashboard`, a page → widget → query traversal written as loops, and the failure-tolerant aggregation of `queryNrqlsByService`.
- `create_tool.dfy`, module `CreateTool`: from the scaffolding script, `toCamelCase`, the tool-name check and the snake-case registered name. It also covers the line editing of `updateToolsIndex`: insert the import after the last import line, find `return [` … `];`, and insert the entry before the closing line or fail.
- `only_error_logger.dfy`, module `OnlyErrorLogger`: `OnlyErrorLoggerStrategy.log`, as a class whose `Log` method appends to the list of error-console lines.
- `text.dfy` and `wrappers.dfy`: JavaScript string behaviour the core relies on, as modules `Text` and `Wrappers`. The string behaviour is `split`/`join` on one character, decimal rendering of integers, `trim` with the ECMAScript whitespace set, and ASCII case mapping. The wrappers are `Option` and `Result`.

The current time is a parameter `now` (milliseconds) and elapsed times are parameters. Every upstream call is a function parameter or a `Result` input:

- the NerdGraph query `execute`;
- the dashboard listing;
- each dashboard's detail fetch `fetch`;
- the tags query rows.

Two behaviours of the time window are worth knowing:

- Mixed time modes are rejected only by the tool's `validateTimeParameters` (src/tools/query-logs.ts:17-46). The logs service itself accepts them and lets the absolute mode win (`LogsService.AbsoluteModeWins`, src/services/new-relic-logs-service.ts:104-116).
- The service does not check that the start of a relative window precedes its end (`LogsService.RelativeWindowOrder`).

## Model

| member | source | states |
|---|---|---|
| LogsService.BuildQuery | src/services/new-relic-logs-service.ts:88-89 | A raw NRQL string is the query unchanged; an options record yields the query built from it |
| LogsService.WhereClauseIsConjunction | src/services/new-relic-logs-service.ts:118-121 | The WHERE clause is `WHERE` followed by the join with ` AND ` of the two window bounds and then the caller's conditions in order, nothing appended when there are none |
| LogsService.OptionsQueryShape | src/services/new-relic-logs-service.ts:91-128 | The built query is exactly `SELECT <fields joined by ", " or *> FROM Log WHERE <conjunction> LIMIT <limit, 100 by default>` |
| LogsService.AbsoluteModeWins | src/services/new-relic-logs-service.ts:104-116 | With a start timestamp, changing the relative range fields does not change the query |
| LogsService.AbsoluteEndDefaultsToNow | src/services/new-relic-logs-service.ts:104-109 | In absolute mode, an undefined or null end timestamp makes the window end at now |
| LogsService.DefaultWindowIsLastHour | src/services/new-relic-logs-service.ts:110-116 | With no time field the window is (now - 3600000, now] |
| LogsService.RelativeWindowOrder | src/services/new-relic-logs-service.ts:110-116 | In relative mode the window's start is at most its end iff the end range is at most the start range (defaults 60 and 0) |
| LogsService.QueryDeterminesWindow | src/services/new-relic-logs-service.ts:118-128 | Two option records with the same select clause that build the same query resolve to the same window: the bounds can be read back from the text |
| LogsService.BoundsFromText | src/services/new-relic-logs-service.ts:118 | Space-free start and end bounds are recovered uniquely from `<start><separator><end><rest>` when the separator (` AND timestamp <= ` in the query) and the rest both begin with a space |
| LogsService.RestAfterEnd | src/services/new-relic-logs-service.ts:119-128 | What follows the end bound in a query always begins with a space, so the end bound is delimited |
| LogsService.QueryLogs | src/services/new-relic-logs-service.ts:174-191 | Success iff the upstream call succeeds; then `logs` are the upstream rows, `totalCount` is their number and `elapsedTime` is the measured time; an upstream error is rethrown unchanged |
| LogsService.OptionsExampleQuery | tests/services/new-relic-services.test.ts:213-227 | The options example (30-minute window, two conditions, four fields, limit 50) builds the exact expected query at every clock value |
| LogsService.DefaultsExampleQuery | tests/services/new-relic-services.test.ts:247-255 | The empty options record builds `SELECT * FROM Log WHERE timestamp > now-3600000 AND timestamp <= now LIMIT 100` |
| QueryLogsTool.ValidateTimeParameters | src/tools/query-logs.ts:17-46 | The conflict error is returned iff a start timestamp is given together with a range field; the dependent-parameter error iff an end timestamp (null included) is given without a start timestamp |
| QueryLogsTool.AcceptedParametersUseOneMode | src/tools/query-logs.ts:28-45 | Parameters are accepted iff they use only the timestamp mode (start given, no range) or no timestamp field at all |
| QueryLogsTool.AssembleQueryOptions | src/tools/query-logs.ts:104-143 | The options carry limit (default 100), select fields (default timestamp, message, tag, userAgent), the caller's conditions followed by exactly one `<field> = '<value>'` (field default trace.id), and the fields of exactly one time mode |
| QueryLogsTool.ForwardedWindow | src/tools/query-logs.ts:116-145 | For accepted parameters the service's window is the caller's timestamps (end defaulting to now) or the caller's ranges (60 and 0 minutes by default) |
| QueryLogsTool.FieldConditionIsLastConjunct | src/tools/query-logs.ts:132-145 | The query built for the tool ends with ` AND <field> = '<value>' LIMIT <limit>` |
| QueryLogsTool.FormatLogsQueryResult | src/tools/query-logs.ts:171-198 | The result has a headline and a summary document whose `logsCount` is the number of entries, carries the entries, and is not an error result |
| QueryLogsTool.HeadlineCountMatchesSummary | src/tools/query-logs.ts:178-189 | The headline starts `Successfully retrieved <n> log entries` with the same n as the summary's `logsCount`, which is the number of entries |
| QueryLogsTool.QueryLogs | src/tools/query-logs.ts:100-162 | The service is called iff validation passes; a validation error or an upstream error becomes one text item `Error querying logs: <message>`; otherwise the result is exactly `formatLogsQueryResult` of the upstream rows, their count and the elapsed time, under the field and value of the call; the result is an error result iff one of those errors occurred |
| QueryLogsTool.DefaultArgsHeadline | tests/tools/query-logs.test.ts:60-84 | With only `queryValue: "abc123"` and two entries in 100 ms the headline is `Successfully retrieved 2 log entries where trace.id = 'abc123' in 100ms.` and the summary is (`trace.id = 'abc123'`, 2, `100ms`) |
| TagsService.ParseTag | src/services/new-relic-tags-service.ts:58-82 | A parsed tag keeps the original tag, and `newrelic.` + environment + `-` + service name rebuilds it |
| TagsService.ParseFormatted | src/services/new-relic-tags-service.ts:63-79 | `newrelic.prod-X` parses to (prod, X) and `newrelic.staging-X` to (staging, X) |
| TagsService.ParseTagAcceptsExactlyFormattedTags | src/services/new-relic-tags-service.ts:58-82 | A tag parses iff it is `newrelic.prod-` or `newrelic.staging-` followed by some name; every other tag gives null |
| TagsService.ParseAllAppend | src/services/new-relic-tags-service.ts:131-137 | Parsing a concatenation of raw tags parses each part in order |
| TagsService.ParseAllMembership | src/services/new-relic-tags-service.ts:131-137 | A parsed tag is collected iff its original tag is among the raw tags and parses to it |
| TagsService.ParseAllLength | src/services/new-relic-tags-service.ts:131-137 | At most one parsed tag per raw tag |
| TagsService.Selected | src/services/new-relic-tags-service.ts:139-143 | The environment filter keeps exactly the tags of the requested environment, and keeps every tag when none is requested |
| TagsService.QueryTags | src/services/new-relic-tags-service.ts:89-162 | A failed query is rethrown; otherwise the tags are the filtered parses of the first row's raw tags (none when there is no row) and `totalCount` is their number |
| TagsService.QueryTagsCharacterization | src/services/new-relic-tags-service.ts:126-143 | A tag is returned iff it parses from a raw tag of the first row and lies in the requested environment, if any |
| NrqlService.FlattenAppend | src/services/new-relic-nrql-service.ts:105 | Flattening a concatenation of lists of lists is the concatenation of the flattenings, so the order of the outer list is kept |
| NrqlService.FlattenAround | src/services/new-relic-nrql-service.ts:105 | One element's list sits in the flattening between the flattenings of the elements before and after it |
| NrqlService.FlattenSkipsEmpty | src/services/new-relic-nrql-service.ts:105 | An element whose list is empty leaves the flattening of the others unchanged |
| NrqlService.FlattenOrderIrrelevant | src/services/new-relic-nrql-service.ts:105 | Flattening any reordering of the elements gives the same multiset of entries |
| NrqlService.FlattenMembership | src/services/new-relic-nrql-service.ts:105 | An entry is in the flattening iff the list of some element holds it |
| NrqlService.EntriesOf | src/services/new-relic-nrql-service.ts:147-154 | A widget's query array yields one entry per query |
| NrqlService.PushWidgetQueries | src/services/new-relic-nrql-service.ts:143-155 | Appends the widget's entries, in query order, when its `nrqlQueries` is an array, and nothing otherwise |
| NrqlService.PushPageQueries | src/services/new-relic-nrql-service.ts:142-156 | Appends the entries of the page's widgets in widget order |
| NrqlService.ExtractNrqlsFromDashboard | src/services/new-relic-nrql-service.ts:135-164 | The loops produce the extraction: page order, then widget order, then query order |
| NrqlService.WidgetsQueriesLength | src/services/new-relic-nrql-service.ts:142-155 | A page contributes the total length of its widgets' query arrays |
| NrqlService.ExtractionCount | src/services/new-relic-nrql-service.ts:141-157 | The number of extracted queries is the sum over pages and widgets of the query-array lengths |
| NrqlService.PagesQueriesAppend | src/services/new-relic-nrql-service.ts:141-157 | Extraction over concatenated pages is the concatenation of the extractions, so page order is kept |
| NrqlService.WidgetsQueriesAppend | src/services/new-relic-nrql-service.ts:142-156 | Extraction over concatenated widgets is the concatenation, so widget order is kept |
| NrqlService.EntriesOfMembership | src/services/new-relic-nrql-service.ts:147-154 | An entry comes from a widget iff its query is in the widget's array and it carries that widget's title and the dashboard's name and guid |
| NrqlService.WidgetsQueriesMembership | src/services/new-relic-nrql-service.ts:142-155 | An entry comes from a page iff some widget of it with a query array holds its query and it carries that widget's title and the dashboard's name and guid |
| NrqlService.ExtractionMembership | src/services/new-relic-nrql-service.ts:141-157 | An entry is extracted iff some widget of the dashboard with a query array holds its query, and the entry is (query, widget title, dashboard name, dashboard guid) |
| NrqlService.NonArrayWidgetContributesNothing | src/services/new-relic-nrql-service.ts:143-146 | A widget with a missing or non-array `nrqlQueries` adds nothing wherever it sits |
| NrqlService.AggregateAppend | src/services/new-relic-nrql-service.ts:80-105 | Aggregating concatenated dashboard lists concatenates the results |
| NrqlService.FailedFetchContributesNothing | src/services/new-relic-nrql-service.ts:84-94 | A dashboard whose task throws, in the detail fetch or in extracting malformed details, contributes nothing and the dashboards on either side are still processed |
| NrqlService.AggregateOrderIrrelevant | src/services/new-relic-nrql-service.ts:80-105 | Any reordering of the dashboards yields the same multiset of queries |
| NrqlService.AggregateMembership | src/services/new-relic-nrql-service.ts:80-105 | A query is returned iff some listed dashboard was fetched and its extraction contains it |
| NrqlService.QueryNrqlsByService | src/services/new-relic-nrql-service.ts:58-128 | A failed listing is rethrown; otherwise the queries are the flattened per-dashboard extractions of some reordering of the listing (so, as a multiset, those of the listing), `totalCount` is their number and `serviceName` echoes the request |
| CreateTool.Lowered | scripts/create-tool.ts:18 | Lower-casing keeps the length |
| CreateTool.LoweredAt | scripts/create-tool.ts:18 | Each character is lower-cased on its own |
| CreateTool.ReplaceRuns | scripts/create-tool.ts:19 | Replacing runs leaves an empty string empty and makes it start with whitespace exactly when it started with a character outside `[a-z0-9]` |
| CreateTool.Runs | scripts/create-tool.ts:22 | Every field split off is non-empty and consists of characters of the field class |
| CreateTool.ReplaceRunsFields | scripts/create-tool.ts:19-22 | After replacing every run outside `[a-z0-9\s]` by a space, the whitespace-separated fields are exactly the maximal `[a-z0-9]` runs |
| CreateTool.TrimStartKeepsFields | scripts/create-tool.ts:20-22 | Dropping leading whitespace does not change the non-empty whitespace-separated fields |
| CreateTool.TrimEndKeepsFields | scripts/create-tool.ts:20-22 | Dropping trailing whitespace does not change them either |
| CreateTool.TrimKeepsFields | scripts/create-tool.ts:20-22 | `trim` does not change the non-empty whitespace-separated fields |
| CreateTool.WordsAreWordRuns | scripts/create-tool.ts:17-22 | The words are the maximal `[a-z0-9]` runs of the lower-cased input: every non-`[a-z0-9]` character is a separator |
| CreateTool.CamelCaseOfRuns | scripts/create-tool.ts:16-27 | The camel-cased name is empty when there are no words, and otherwise the first word as it is followed by every later word with its first character upper-cased |
| CreateTool.CapitalizeAll | scripts/create-tool.ts:26 | Each later word is replaced by its capitalized form, position by position |
| CreateTool.CapitalizeAlnum | scripts/create-tool.ts:26 | Capitalizing a word of letters and digits keeps it one |
| CreateTool.CamelCaseIsAlnum | scripts/create-tool.ts:16-27 | The camel-cased name contains only ASCII letters and digits |
| CreateTool.CamelCaseEmpty | scripts/create-tool.ts:22-23 | The camel-cased name is empty iff the input has no ASCII letter or digit |
| CreateTool.CheckToolName | scripts/create-tool.ts:102-108 | A name is accepted iff it is non-empty and matches `^[a-z][a-zA-Z0-9]*$`; the empty name gets the empty-name error and other rejected names the identifier error |
| CreateTool.CamelCaseAccepted | scripts/create-tool.ts:97-108 | A camel-cased input is accepted iff its first ASCII letter or digit is a letter, so a name that would start with a digit is rejected |
| CreateTool.SnakeNameIsLower | scripts/create-tool.ts:147 | The registered name has no upper-case letter |
| CreateTool.SnakeNameRoundTrip | scripts/create-tool.ts:147 | For alphanumeric names, upper-casing each letter after an underscore and dropping the underscore recovers the tool name |
| CreateTool.LastMatch | scripts/create-tool.ts:52-57 | The index of the last line satisfying the pattern, or -1, and no later line satisfies it |
| CreateTool.FirstFrom | scripts/create-tool.ts:70-78 | The first index at or after a position whose line satisfies the pattern, or -1 when none does |
| CreateTool.FindLastImport | scripts/create-tool.ts:52-57 | The loop finds the index of the last line whose trimmed text matches the import pattern, or -1 |
| CreateTool.LocateArray | scripts/create-tool.ts:68-78 | The loop finds the first `];` line at or after the first `return [` line, and no end without a start |
| CreateTool.SpliceImport | scripts/create-tool.ts:52-63 | The loop and the splice put the import line right after the last import line, or first |
| CreateTool.EditIndexLines | scripts/create-tool.ts:52-87 | Splicing the import, locating the array and splicing the entry produce the line edit, or the locate error |
| CreateTool.UpdateToolsIndex | scripts/create-tool.ts:29-91 | The contents are split on newlines, edited (import after the last import line, entry before `];`) and joined again; when the array is not found the locate error is returned and no contents are produced |
| CreateTool.InsertAfterLastMatch | scripts/create-tool.ts:52-63 | The line lands right after the last matching line, or first when none matches, and the other lines keep their order |
| CreateTool.ImportPlacement | scripts/create-tool.ts:52-63 | The import line lands right after the last import line, or first when there is none, every later line is not an import line, and the other lines keep their order |
| CreateTool.ArrayEndFound | scripts/create-tool.ts:65-85 | The array is found iff a `return [` line is followed, on it or later, by a `];` line; the end found is the first `];` at or after the first `return [` |
| CreateTool.TwoInsertions | scripts/create-tool.ts:60-87 | Two successive splices add exactly the two new lines: removing them gives back the original lines, in order |
| CreateTool.EditedShape | scripts/create-tool.ts:59-87 | A successful edit is the original lines with the import spliced in and then the entry spliced in |
| CreateTool.TwoLinesInserted | scripts/create-tool.ts:59-63 | On success the result is two lines longer: the import line and the entry, with every original line in its original order |
| CreateTool.ImportLineIsImport | scripts/create-tool.ts:43 | The generated import line itself matches the import pattern |
| CreateTool.ImportLineNeutral | scripts/create-tool.ts:43 | The generated import line matches neither `return [` nor `];` |
| CreateTool.InsertKeepsPair | scripts/create-tool.ts:59-78 | A `return [` line followed by a `];` line survives a splice |
| CreateTool.InsertAddsNoPair | scripts/create-tool.ts:59-78 | A spliced-in line matching neither pattern creates no such pair |
| CreateTool.InsertNeutral | scripts/create-tool.ts:59-78 | Inserting a line that matches neither pattern does not change whether the array can be found |
| CreateTool.EditSucceedsOnOriginalLines | scripts/create-tool.ts:59-87 | For an alphanumeric tool name the edit succeeds iff the original lines contain a `return [` line followed, on it or later, by a `];` line |
| OnlyErrorLogger.Label | src/utils/logger/strategies/only-error-logger-strategy.ts:15-45 | A level has a label iff it is ERROR or above, and every label is bracketed |
| OnlyErrorLogger.Emission | src/utils/logger/strategies/only-error-logger-strategy.ts:12-47 | A call writes at most one line, and writes one iff its level is ERROR, CRITICAL, ALERT or EMERGENCY |
| OnlyErrorLogger.ErrorConsole.Log | src/utils/logger/strategies/only-error-logger-strategy.ts:12-47 | The console receives what the call emits and nothing else |
| OnlyErrorLogger.EmittedLineLayout | src/utils/logger/strategies/only-error-logger-strategy.ts:22-45 | A written line is `<timestamp> <label> <message>`: it starts with the timestamp, ends with the message and keeps the extra arguments |
| OnlyErrorLogger.LabelsDistinct | src/utils/logger/strategies/only-error-logger-strategy.ts:22-45 | The four labels are pairwise different |
| OnlyErrorLogger.LineDeterminesCall | src/utils/logger/strategies/only-error-logger-strategy.ts:22-45 | Two lines written at the same instant are equal only if they come from the same level, message and arguments |
| OnlyErrorLogger.SessionLength | src/utils/logger/strategies/only-error-logger-strategy.ts:12-47 | Over a sequence of calls the console receives one line per call at ERROR or above |
| OnlyErrorLogger.QuietSession | src/utils/logger/strategies/only-error-logger-strategy.ts:16-20 | Calls at DEBUG, INFO, NOTICE and WARNING write nothing |
| OnlyErrorLogger.SessionAppend | src/utils/logger/strategies/only-error-logger-strategy.ts:12-47 | The output of a sequence of calls is the output of its first part followed by that of the rest |
| OnlyErrorLogger.SessionOfFour | src/utils/logger/strategies/only-error-logger-strategy.ts:12-47 | Four calls write what each writes, in call order |
| OnlyErrorLogger.EveryLevelOnce | src/utils/logger/strategies/only-error-logger-strategy.ts:12-47 | One call per level writes four lines, those of ERROR, CRITICAL, ALERT and EMERGENCY, in call order |
| Text.JoinSplit | scripts/create-tool.ts:50 | Joining the pieces of a split with the separator gives back the text |
| Text.SplitJoin | scripts/create-tool.ts:89 | Splitting the join of separator-free lines gives back the lines |
| Text.IntToStringInjective | src/services/new-relic-logs-service.ts:118 | Different integers render differently, so a rendered bound names one time |

## Left out

- NerdGraph and GraphQL transport (`executeNerdGraphQuery`, the GraphQL query texts): every upstream call is an abstract result-or-error input.
- `Date.now()` and elapsed times are parameters; the defaults logging (`defaultLogger.info`/`error`) is not modelled.
- Fractional minute values and `Math.floor` in the relative window: the model uses integer minutes and milliseconds.
- The `PromisePool` concurrency limit of 5 (`MAX_CONCURRENCY`): aggregation is a sequential fold, and only the multiset of queries is claimed, since results arrive in completion order.
- NrqlService.QueryNrqlsByService: states the returned queries only up to the order in which dashboards complete, because the pool's result order is not fixed.
- NrqlService.PerDashboard: looks each dashboard's outcome up by guid, so two listed dashboards with the same guid share one outcome; the guids of a listing are taken to be distinct.
- Malformed dashboard details (no `pages` or `widgets`, a widget without `rawConfiguration`, a null element in `nrqlQueries`; src/services/new-relic-nrql-service.ts:141-149) are not represented structurally: the `Malformed` fetch outcome stands for details whose extraction throws, which the per-dashboard `catch` turns into an empty list.
- LogsService.ResolveWindow: one `now` stands for the separate `Date.now()` reads at src/services/new-relic-logs-service.ts:109, 114 and 115; the source's start and end may differ by the milliseconds between those reads, so LogsService.DefaultWindowIsLastHour and LogsService.RelativeWindowOrder hold for a single clock reading.
- NrqlService.ExtractNrqlsFromDashboard: the three nested loops are split into three methods (one per loop level); the appended sequence is a value, not a shared array.
- `executeNrqlQuery`, the dashboards service itself, `new-relic-logs.ts` (a thin adapter whose `timeRange` is not read by `queryLogs`), the MCP server and transport wiring, tool registration, the service registry and the process entry point.
- The event bus subscription and schema-update handling in src/utils/server.ts:234-269 are outside this model, as is `NewRelicSchemaService` (registered at src/services/service-registry.ts:10 and 46-47), whose source is not part of this model.
- The tool's handling of a missing service in the container, and a thrown non-`Error` value, are folded into the upstream error string.
- `JSON.stringify` of the summary document: the second content item is kept as structured data.
- In the scaffolding script: readline prompts, `fs` reads, writes and directory creation, and the generated template file bodies.
- CreateTool.Lowered: models `toLowerCase` on ASCII only; characters such as the Kelvin sign, which JavaScript lowers to `k`, are left unchanged.
- Strings are sequences of Unicode scalar values rather than UTF-16 code units.
- Text.IntToString: numbers (timestamps, ranges, limits, elapsed times) are exact unbounded integers, while the source computes and renders IEEE doubles. The model agrees with JavaScript only for magnitudes up to `Number.MAX_SAFE_INTEGER` (2^53 - 1): rounding beyond that, shortest round-trip digit rendering (2^60 prints as 1152921504606847000), the exponent form from 1e21 on, and fractional values such as a fractional `limit` (accepted by `z.number()` at src/tools/query-logs.ts:79-82) are not modelled.
- CreateTool.SnakeNameRoundTrip: holds only for alphanumeric names, the only names the name check accepts.
- chalk colouring and the ISO timestamp of the logger: the timestamp is a parameter and colour codes are not part of the text.
- The extra `...args` of a log call are kept as already rendered strings.
- The `LogLevel` enum file (`src/utils/logger/types.ts`) is not part of this model; the eight levels are taken from the strategy's `switch`, ordered from DEBUG to EMERGENCY.
