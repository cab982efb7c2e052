# DynamoDB stream filter

A model of `Dynamo::DynamoFilter`, the per-stream HTTP filter that watches
DynamoDB API traffic and charges counters and timings to a metrics store.
The filter's implementation (`common/dynamo/dynamo_filter.h` and its `.cc`)
is not part of this model's sources: what is modelled is the behaviour that
`test/common/dynamo/dynamo_filter_test.cc` pins down call by call. Where that
file is silent, the model follows the filter's documented design, and the
choices are listed under "## Left out".

The filter:

- asks the runtime once, when it is built, whether `dynamodb.filter_enabled`
  (default 100) is on. When it is off, every callback returns `Continue` and
  nothing is charged;
- takes the operation from the `x-amz-target` request header: the text after
  its last `.`, none when there is no `.`;
- returns `StopIterationAndBuffer` for a data chunk that does not end the
  stream. At the final chunk, or at trailers, it reads the host's buffered
  body followed by that chunk once;
- learns the tables from the request body: `TableName`, else the keys of
  `RequestItems`. A body that does not parse counts `invalid_req_body`;
- reports when the response completes:
  - `upstream_rq_total` and `upstream_rq_time` for the operation and, with
    exactly one table, for the table, each unbucketed, by family (`2xx`) and
    by exact status (`200`);
  - `operation_missing`, `table_missing` or `multiple_tables` when those
    facts are absent or ambiguous;
  - from the response body: `invalid_resp_body` when it does not parse;
    `error.<table|no_table>.<name>` for a non-2xx whose `__type` names an
    error after its last `#`; `error.<table>.BatchFailureUnprocessedKeys`
    for each table under `UnprocessedKeys`.
  Every name is the configured prefix, then `dynamodb.`, then the relative
  name.

## Layout

| file | module | contents |
|---|---|---|
| `wrappers.dfy` | `Wrappers` | `Option` |
| `stat_names.dfy` | `StatNames` | last-separator split, decimal and family rendering of a status, the `Stat` datatype and its dotted names |
| `json_body.dfy` | `JsonBody` | the parsed-body datatype `Document`, the tables a request names, the error name of `__type` |
| `host.dfy` | `Host` | the metrics store, the runtime gate and the host's stream buffers, as classes whose methods record what they are asked |
| `dynamo_stats.dfy` | `DynamoStats` | the specification of a report (which stats a response charges) and the counting lemmas about it |
| `dynamo_filter.dfy` | `Dynamo` | the filter class and its six callbacks |
| `scenarios.dfy` | `Scenarios` | each unit test's stream driven through the filter, with the events it must produce |

The store is a sequence of `Counter(name)` and `Timing(name)` events. A test
expects every name a fixed number of times and in no particular order, so the
properties count occurrences (`Seen`, the multiplicity of an event) rather
than fix an order. Inside the model, the order is the one of the report
functions.

## Model

| member | source | states |
|---|---|---|
| StatNames.LastIndexOf | test/common/dynamo/dynamo_filter_test.cc:39 | the index found holds the separator and none follows it; none is found exactly when the separator does not occur |
| StatNames.AfterLastIff | test/common/dynamo/dynamo_filter_test.cc:39 | the split after the last separator yields `r` if and only if the text is some prefix, the separator, then `r`, and `r` holds no separator |
| StatNames.AfterLastOfJoin | test/common/dynamo/dynamo_filter_test.cc:39 | splitting `version.op` gives back `op` when `op` holds no `.` |
| StatNames.AfterLastAbsent | test/common/dynamo/dynamo_filter_test.cc:76 | without the separator there is no suffix, and only then |
| StatNames.AfterLast | test/common/dynamo/dynamo_filter_test.cc:39 | definition: the text after the last separator, none without one; `AfterLastIff` characterises it in both directions |
| StatNames.NatToString | test/common/dynamo/dynamo_filter_test.cc:47 | the decimal text of a status is non-empty, all digits, and has no leading zero |
| StatNames.DecimalRoundTrip | test/common/dynamo/dynamo_filter_test.cc:47 | reading the decimal text back gives the status |
| StatNames.NatToStringInjective | test/common/dynamo/dynamo_filter_test.cc:47 | different statuses have different exact-status suffixes |
| StatNames.ThreeDigits | test/common/dynamo/dynamo_filter_test.cc:136 | a three-digit status renders as three digits led by its hundreds |
| StatNames.StatusGroupIsLeadingDigit | test/common/dynamo/dynamo_filter_test.cc:46 | the family suffix of 200..599 is the leading digit followed by `xx`; other statuses have none |
| StatNames.StatusGroup | test/common/dynamo/dynamo_filter_test.cc:46 | definition: `2xx` to `5xx` by the status class, empty outside 200..599; `StatusGroupIsLeadingDigit` ties it to the decimal text |
| StatNames.BucketSuffix | test/common/dynamo/dynamo_filter_test.cc:46-48 | definition: nothing, `_` and the family, or `_` and the decimal status; `BucketSuffixInjective` shows the three differ |
| StatNames.Relative | test/common/dynamo/dynamo_filter_test.cc:43-54 | definition: each stat's name below the filter prefix; `FixedNameUnique`, `TableScopedIff`, `OperationScopedIff` and `UnprocessedNameInjective` say which names can coincide |
| StatNames.FilterPrefix | test/common/dynamo/dynamo_filter_test.cc:43 | definition: the configured prefix followed by the filter's own `dynamodb.`; `NamesUnderPrefix` shows every emitted name begins with it |
| StatNames.Render | test/common/dynamo/dynamo_filter_test.cc:43-54 | definition: the full name handed to the store, the filter prefix then the relative name; `NamesUnderPrefix`, `FixedNameUnique` and `PointNameUnique` say what the rendered names are and which can coincide |
| StatNames.FixedNameUnique | test/common/dynamo/dynamo_filter_test.cc:43-44 | `operation_missing`, `table_missing`, `multiple_tables`, `invalid_req_body` and `invalid_resp_body` are produced by that stat alone |
| StatNames.TableScopedIff | test/common/dynamo/dynamo_filter_test.cc:144-151 | a name lies below `table.` if and only if it is a table-scoped total or timing |
| StatNames.OperationScopedIff | test/common/dynamo/dynamo_filter_test.cc:134-142 | a name lies below `operation.` if and only if it is an operation-scoped total or timing |
| StatNames.UnprocessedNameInjective | test/common/dynamo/dynamo_filter_test.cc:245-246 | two batch-failure names are equal only for the same table |
| JsonBody.RequestTables | test/common/dynamo/dynamo_filter_test.cc:164-171 | a body that names tables names at least one; `TableName` gives exactly that table; otherwise the tables are exactly the keys of `RequestItems`; a malformed body, a body with neither field, or an empty `RequestItems` names none |
| JsonBody.ErrorNameOf | test/common/dynamo/dynamo_filter_test.cc:99-102 | the error name of `namespace#name` is `name` when `name` holds no `#` |
| JsonBody.ErrorNameNeedsSeparator | test/common/dynamo/dynamo_filter_test.cc:99-102 | a `__type` without `#` names no error |
| JsonBody.ErrorName | test/common/dynamo/dynamo_filter_test.cc:99-102 | definition: the text after the last `#` of `__type`; pinned by `ErrorNameOf` and `ErrorNameNeedsSeparator` |
| Host.Store.Increment | test/common/dynamo/dynamo_filter_test.cc:43-48 | a counter call appends exactly one counter event with that name |
| Host.Store.DeliverTiming | test/common/dynamo/dynamo_filter_test.cc:50-54 | a timing call appends exactly one timing event with that name |
| Host.Runtime.FeatureEnabled | test/common/dynamo/dynamo_filter_test.cc:18-20 | the gate answers as the rollout says and records the query |
| Host.StreamCallbacks.Add | test/common/dynamo/dynamo_filter_test.cc:105 | the host's buffer grows by the chunk |
| Host.StreamCallbacks.Buffer | test/common/dynamo/dynamo_filter_test.cc:247 | reading the host's buffer returns it unchanged and counts one fetch |
| DynamoStats.SixPoints | test/common/dynamo/dynamo_filter_test.cc:46-54 | definition: total, total by family, total by exact status, then the three timings of one key and status; `PointSeenOnceInSix` counts them |
| DynamoStats.OperationStats | test/common/dynamo/dynamo_filter_test.cc:43-54 | definition: the operation's six points, else `operation_missing` |
| DynamoStats.TableStats | test/common/dynamo/dynamo_filter_test.cc:144-151 | definition: `table_missing` with no table, the table's six points with one, `multiple_tables` with several |
| DynamoStats.ErrorTable | test/common/dynamo/dynamo_filter_test.cc:132 | definition: the table segment of an error counter, the single table, else none (`no_table`) |
| DynamoStats.ErrorStats | test/common/dynamo/dynamo_filter_test.cc:102 | definition: one error counter on a non-2xx whose `__type` yields an error name, else nothing |
| DynamoStats.BodyStats | test/common/dynamo/dynamo_filter_test.cc:108 | definition: nothing for an empty body, `invalid_resp_body` for a malformed one, else the error counter and the batch failures |
| DynamoStats.ResponseStats | test/common/dynamo/dynamo_filter_test.cc:132-153 | definition: the report at response completion, the operation part, the table part, then the body part; its counts are the lemmas below |
| DynamoStats.RequestStats | test/common/dynamo/dynamo_filter_test.cc:69-70 | definition: `invalid_req_body` for a malformed non-empty request body, else nothing |
| DynamoStats.NextTables | test/common/dynamo/dynamo_filter_test.cc:174-176 | definition: known tables stay; an empty body changes nothing; else the tables the body names; `TableNameCharged`, `RequestItemsBatch` and `NoTablesStayUnknown` follow it into the report |
| DynamoStats.UnprocessedStats | test/common/dynamo/dynamo_filter_test.cc:245-246 | definition: one batch failure per `UnprocessedKeys` key; `UnprocessedCount` and `UnprocessedKeysReported` count them in the report |
| DynamoStats.EventOf | test/common/dynamo/dynamo_filter_test.cc:46-54 | definition: a request time becomes a timing, every other stat a counter, named by `Render`; `EventsOfIndex` and the `Charge` row connect it to the store |
| DynamoStats.EventsOf | test/common/dynamo/dynamo_filter_test.cc:43-54 | one store event per charged stat |
| DynamoStats.EventsOfIndex | test/common/dynamo/dynamo_filter_test.cc:43-54 | the i-th event is the event of the i-th stat |
| DynamoStats.EventsOfAppend | test/common/dynamo/dynamo_filter_test.cc:43-54 | charging two lists in turn gives the events of their concatenation |
| DynamoStats.CountByUniqueName | test/common/dynamo/dynamo_filter_test.cc:43-54 | a stat no other stat shares a name with is seen as often as it is charged |
| DynamoStats.NamesUnderPrefix | test/common/dynamo/dynamo_filter_test.cc:44-54 | every event charged under the filter prefix is named by the configured prefix, then `dynamodb.`, then the relative name of one of the charged stats |
| DynamoStats.BucketSuffixInjective | test/common/dynamo/dynamo_filter_test.cc:46-48 | the unbucketed, family and exact suffixes of one status are pairwise distinct |
| DynamoStats.PointNameUnique | test/common/dynamo/dynamo_filter_test.cc:46-54 | the six totals and timings of one key and status have six different names |
| DynamoStats.ScopesApart | test/common/dynamo/dynamo_filter_test.cc:134-151 | a stat outside a scope never shares a name with a point of that scope |
| DynamoStats.PointApartFromErrors | test/common/dynamo/dynamo_filter_test.cc:132-134 | a total or timing never shares a name with an error counter |
| DynamoStats.PointSeenOnceInSix | test/common/dynamo/dynamo_filter_test.cc:46-54 | each of the six points of a key is charged exactly once by them |
| DynamoStats.OperationFixed | test/common/dynamo/dynamo_filter_test.cc:43 | the operation part charges `operation_missing` once exactly when there is no operation, and no other fixed name |
| DynamoStats.TableFixed | test/common/dynamo/dynamo_filter_test.cc:179 | the table part charges `table_missing` once with no tables, `multiple_tables` once with two or more, and no other fixed name |
| DynamoStats.BodyFixed | test/common/dynamo/dynamo_filter_test.cc:354 | the body part charges `invalid_resp_body` once exactly when a non-empty body does not parse, and no other fixed name |
| DynamoStats.MissingAndInvalidCounts | test/common/dynamo/dynamo_filter_test.cc:108-110 | a report sees each fixed name once when its condition holds and never otherwise: both directions, every fixed name |
| DynamoStats.OperationPointsOnce | test/common/dynamo/dynamo_filter_test.cc:134-142 | with an operation, each of its six totals and timings for the status is seen exactly once in the report |
| DynamoStats.TablePointsOnce | test/common/dynamo/dynamo_filter_test.cc:144-151 | with exactly one table, each of its six totals and timings is seen exactly once |
| DynamoStats.TableNameCharged | test/common/dynamo/dynamo_filter_test.cc:364-393 | a request body with `TableName t` makes `t` the one table, and the report then sees each of the six `table.t` points exactly once |
| DynamoStats.RequestItemsBatch | test/common/dynamo/dynamo_filter_test.cc:164-179 | a request body whose `RequestItems` lists two different tables makes the report see `multiple_tables` once and `table_missing` never |
| DynamoStats.NoTablesStayUnknown | test/common/dynamo/dynamo_filter_test.cc:79-80 | a request body naming no table, with neither field or an empty `RequestItems`, leaves the tables unknown so that a later body may name them, and the report sees `table_missing` once |
| DynamoStats.NoTableStatsUnlessSingle | test/common/dynamo/dynamo_filter_test.cc:179-190 | with no table or several, the report charges nothing table-scoped |
| DynamoStats.NoTableNamesUnlessSingle | test/common/dynamo/dynamo_filter_test.cc:179-190 | with no table or several, no reported name lies below `table.` |
| DynamoStats.NoOperationStatsWithoutOperation | test/common/dynamo/dynamo_filter_test.cc:76-80 | without an operation, the report charges nothing operation-scoped |
| DynamoStats.NoOperationNamesWithoutOperation | test/common/dynamo/dynamo_filter_test.cc:76-80 | without an operation (no target header, or no `.` in it), no reported name lies below `operation.` |
| DynamoStats.UnprocessedCount | test/common/dynamo/dynamo_filter_test.cc:245-246 | each table is charged a batch failure as often as it is listed |
| DynamoStats.UnprocessedKeysReported | test/common/dynamo/dynamo_filter_test.cc:245-248 | each unprocessed table's batch-failure name is seen at least once, and on a 2xx exactly as often as it is listed |
| DynamoStats.ErrorTypeReported | test/common/dynamo/dynamo_filter_test.cc:132 | a non-2xx whose body names an error charges `error.<table>.<name>` with the single table, else `no_table`; exactly once when no batch failure of the body renders to the same name |
| DynamoStats.NoErrorTypeOtherwise | test/common/dynamo/dynamo_filter_test.cc:245-248 | a 2xx, an empty or malformed body, or a body naming no error charges no error counter |
| Dynamo.OperationOfTarget | test/common/dynamo/dynamo_filter_test.cc:39 | `version.op` names `op`; a target without `.`, or no target header, names no operation |
| Dynamo.OperationOf | test/common/dynamo/dynamo_filter_test.cc:39 | definition: the text after the last `.` of `x-amz-target`, none without the header; `OperationOfTarget` pins both cases |
| Dynamo.DynamoFilter.constructor | test/common/dynamo/dynamo_filter_test.cc:17-22 | the runtime is asked once for `dynamodb.filter_enabled` with 100, and the answer is kept; nothing is known of the stream yet |
| Dynamo.DynamoFilter.DecodeHeaders | test/common/dynamo/dynamo_filter_test.cc:39-41 | returns `Continue`; records the target's operation when enabled, nothing else changes |
| Dynamo.DynamoFilter.DecodeData | test/common/dynamo/dynamo_filter_test.cc:371-372 | holds a non-final chunk; at the final chunk reads buffer plus chunk once, learns tables or counts `invalid_req_body`; a disabled filter passes everything |
| Dynamo.DynamoFilter.DecodeTrailers | test/common/dynamo/dynamo_filter_test.cc:175-176 | returns `Continue` and reads the buffered body once |
| Dynamo.DynamoFilter.OnDecodeComplete | test/common/dynamo/dynamo_filter_test.cc:174-176 | reads the host's buffer once; the tables become `NextTables` of buffer plus chunk and the events grow by `RequestStats` of it; nothing else changes |
| Dynamo.DynamoFilter.EncodeHeaders | test/common/dynamo/dynamo_filter_test.cc:56 | returns `Continue`; records the status; a header-only response is reported at once, otherwise nothing is charged yet |
| Dynamo.DynamoFilter.EncodeData | test/common/dynamo/dynamo_filter_test.cc:103-106 | holds a non-final chunk; at the final chunk fetches the buffer once and charges the full report over buffer plus chunk |
| Dynamo.DynamoFilter.EncodeTrailers | test/common/dynamo/dynamo_filter_test.cc:107-111 | returns `Continue`; reports again over the buffered body |
| Dynamo.DynamoFilter.OnEncodeComplete | test/common/dynamo/dynamo_filter_test.cc:355-356 | with a recorded status, one fetch and one report; without one, nothing |
| Dynamo.DynamoFilter.Report | test/common/dynamo/dynamo_filter_test.cc:132-153 | the events added are exactly those of the report of the stream's operation, tables, status and body |
| Dynamo.DynamoFilter.ChargeBasicStats | test/common/dynamo/dynamo_filter_test.cc:43-54 | appends the events of the operation part followed by the table part |
| Dynamo.DynamoFilter.ChargeOperationStats | test/common/dynamo/dynamo_filter_test.cc:46-54 | appends the events of the operation's six points, or of `operation_missing` |
| Dynamo.DynamoFilter.ChargeBody | test/common/dynamo/dynamo_filter_test.cc:354 | appends nothing for an empty body, `invalid_resp_body` for a malformed one, else the events of the parsed body |
| Dynamo.DynamoFilter.ChargeParsedBody | test/common/dynamo/dynamo_filter_test.cc:245-246 | appends the events of the error counter, then of one batch failure per unprocessed table |
| Dynamo.DynamoFilter.ChargeErrorType | test/common/dynamo/dynamo_filter_test.cc:102 | appends the error counter of a non-2xx whose `__type` names an error, against the single table or `no_table`, else nothing |
| Dynamo.DynamoFilter.ChargeSixPoints | test/common/dynamo/dynamo_filter_test.cc:46-54 | appends the events of the six points of one key and status, one point per loop step |
| Dynamo.DynamoFilter.Charge | test/common/dynamo/dynamo_filter_test.cc:43-54 | appends one event: a timing for a request time, a counter otherwise, named by the filter prefix and the relative name |
| Dynamo.DynamoFilter.ChargeUnprocessedKeys | test/common/dynamo/dynamo_filter_test.cc:245-246 | one batch-failure event per listed table, in order |
| Dynamo.DynamoFilter.ChargeTableStats | test/common/dynamo/dynamo_filter_test.cc:144-151 | charges the table part of the report |
| Scenarios.FixtureParserReadsFixtures | test/common/dynamo/dynamo_filter_test.cc:235-242 | a JSON reader exists that yields the documents the tests rely on |
| Scenarios.OperatorPresent | test/common/dynamo/dynamo_filter_test.cc:36-57 | both callbacks continue; the events are the six `operation.Get` points at 200 and `table_missing` |
| Scenarios.JsonBodyNotWellFormed | test/common/dynamo/dynamo_filter_test.cc:59-71 | both callbacks continue; the only event is `invalid_req_body` |
| Scenarios.BothOperationAndTableIncorrect | test/common/dynamo/dynamo_filter_test.cc:73-84 | the events are `operation_missing` and `table_missing` |
| Scenarios.HandleErrorTypeTableMissing | test/common/dynamo/dynamo_filter_test.cc:86-112 | the 400's error is charged against `no_table`; the trailer report charges `invalid_resp_body` and the missing facts again |
| Scenarios.HandleErrorTypeTablePresent | test/common/dynamo/dynamo_filter_test.cc:114-154 | the six `operation.GetItem` and six `table.locations` points at 400, and `error.locations.ValidationException` |
| Scenarios.BatchMultipleTables | test/common/dynamo/dynamo_filter_test.cc:156-193 | the request body is held, then read at the trailers; the events are the six `operation.BatchGetItem` points and `multiple_tables` |
| Scenarios.BatchMultipleTablesUnprocessedKeys | test/common/dynamo/dynamo_filter_test.cc:195-249 | additionally one batch failure for `table_1` and one for `table_2`; the response buffer is fetched once |
| Scenarios.BatchMultipleTablesNoUnprocessedKeys | test/common/dynamo/dynamo_filter_test.cc:251-301 | an empty `UnprocessedKeys` adds nothing; the response buffer is fetched once |
| Scenarios.BatchMultipleTablesInvalidResponseBody | test/common/dynamo/dynamo_filter_test.cc:303-357 | an unparsable response adds `invalid_resp_body` only; the response buffer is fetched once |
| Scenarios.BothOperationAndTableCorrect | test/common/dynamo/dynamo_filter_test.cc:359-397 | the buffered start and the last chunk make up the body naming `locations`; the events are the operation's and the table's six points at 200 |
| Scenarios.OperatorPresentRuntimeDisabled | test/common/dynamo/dynamo_filter_test.cc:399-411 | with the gate off every callback continues, no event is charged, and the gate was asked exactly once |
| Scenarios.OperationTotalName | test/common/dynamo/dynamo_filter_test.cc:48 | the unbucketed total of `Get` is `operation.Get.upstream_rq_total` |
| Scenarios.OperationFamilyName | test/common/dynamo/dynamo_filter_test.cc:46 | the family total of `Get` at 200 is `operation.Get.upstream_rq_total_2xx` |
| Scenarios.OperationExactTimeName | test/common/dynamo/dynamo_filter_test.cc:53 | the exact-status timing of `Get` at 200 is `operation.Get.upstream_rq_time_200` |
| Scenarios.TableFamilyName | test/common/dynamo/dynamo_filter_test.cc:144 | the family total of table `locations` at 400 is `table.locations.upstream_rq_total_4xx` |
| Scenarios.NoTableErrorName | test/common/dynamo/dynamo_filter_test.cc:102 | an error without a single table is `error.no_table.ValidationException` |
| Scenarios.BatchFailureName | test/common/dynamo/dynamo_filter_test.cc:245 | the batch failure of `table_1` is `error.table_1.BatchFailureUnprocessedKeys` |
| Scenarios.OperationTimeName | test/common/dynamo/dynamo_filter_test.cc:54 | the unbucketed timing of `Get` is `operation.Get.upstream_rq_time` |
| Scenarios.OperationFamilyTimeName | test/common/dynamo/dynamo_filter_test.cc:51 | the family timing of `Get` at 200 is `operation.Get.upstream_rq_time_2xx` |
| Scenarios.OperationExactTotalName | test/common/dynamo/dynamo_filter_test.cc:47 | the exact-status total of `Get` at 200 is `operation.Get.upstream_rq_total_200` |
| Scenarios.OperationFamily400Name | test/common/dynamo/dynamo_filter_test.cc:135 | the family total of `GetItem` at 400 is `operation.GetItem.upstream_rq_total_4xx` |
| Scenarios.OperationExact400Name | test/common/dynamo/dynamo_filter_test.cc:136 | the exact-status total of `GetItem` at 400 is `operation.GetItem.upstream_rq_total_400` |
| Scenarios.TableExactTimeName | test/common/dynamo/dynamo_filter_test.cc:150 | the exact-status timing of table `locations` at 400 is `table.locations.upstream_rq_time_400` |
| Scenarios.TableErrorName | test/common/dynamo/dynamo_filter_test.cc:132 | an error with the single table `locations` is `error.locations.ValidationException` |

## Left out

- The JSON parser is not modelled. The filter is handed a function from body text to `Document`, and the scenarios take any reader that yields the documents the tests rely on.
- Timing durations and the clock are not modelled. Only the name passed with a timing is recorded, because every test matches the duration with a wildcard.
- Header maps are not modelled beyond a map from names to values. The response status reaches `EncodeHeaders` as a number, because parsing `:status` belongs to the header map.
- The mock machinery is not modelled. The store mock becomes a sequence of events, and a test's expectations become a multiset of events. Because every test sets expectations on `counter`, the store mock rejects any counter name the test does not expect; timings are constrained only where a test expects them.
- Callbacks are given at construction. The source sets them after construction, through `setDecoderFilterCallbacks` and `setEncoderFilterCallbacks`.
- Event order is fixed inside a report but is not a promise. The scenarios state multisets, because the tests do not check order.
- An empty body is not parsed and counts nothing. Otherwise the store mock in `test/common/dynamo/dynamo_filter_test.cc:36-57`, which expects every counter it may see, would see an unexpected `invalid_resp_body`.
- A response body never sets the tables. No test needs it; `UnprocessedKeys` only charges batch failures.
- The error counter is charged only for a non-2xx status. The tests show only a 400 with an error; the 2xx cases come from the filter's design.
- Batch failures are charged at any status. The tests show only 200.
- Statuses outside 200..599 get an empty family suffix. The tests use only 200 and 400.
- A target ending in `.` gives an empty operation, not a missing one, because the split is taken literally.
- A request body that names no table, because it has neither `TableName` nor a non-empty `RequestItems`, leaves the tables unknown, and a later body may still name them.
- With two or more known tables, an error counter uses `no_table`. Neither the tests nor the filter's design decide that case; the single-table and no-table cases are as tested.
- `test/integration/server.cc` is server plumbing: threads, hot restart and the admin port. It is not part of this model.
- DynamoStats.UnprocessedKeysReported: on a non-2xx it promises at least one occurrence, not the exact count. An error literally named `BatchFailureUnprocessedKeys` would render to the same name.
- DynamoStats.ErrorTypeReported: it promises exactly one occurrence only when no batch failure of the same body renders to the same name. An error `X.BatchFailureUnprocessedKeys` and an unprocessed table `no_table.X` both render to `error.no_table.X.BatchFailureUnprocessedKeys`.
