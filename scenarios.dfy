/**
 * The filter driven through the streams its unit tests describe, with the
 * counters and timings each stream must produce. A test pins which names
 * reach the store and how often, not their order, so each outcome is stated
 * as a multiset of events. The lemmas at the end spell out, for the names
 * the tests mention, the text each stat renders to.
 */
module Scenarios {
  import opened Wrappers
  import opened StatNames
  import opened JsonBody
  import opened Host
  import opened DynamoStats
  import opened Dynamo

  /** The configured prefix of every test, and the filter prefix built from it. */
  const Configured: string := "prefix."
  const Prefix: string := "prefix.dynamodb."

  const ValidationType: string := "com.amazonaws.dynamodb.v20120810" + "#" + "ValidationException"
  const LocationsRequest: string := "{\"TableName\":\"locations\"}"
  const LocationsRequestStart: string := "{\"TableName\":\"locations\""
  const ValidationError: string := "{\"__type\":\"com.amazonaws.dynamodb.v20120810#ValidationException\"}"
  const BatchRequest: string :=
    "\n{\n  \"RequestItems\": {\n    \"table_1\": { \"test1\" : \"something\" },\n    \"table_2\": { \"test2\" : \"something\" }\n  }\n}\n"
  const UnprocessedResponse: string :=
    "\n{\n  \"UnprocessedKeys\": {\n    \"table_1\": { \"test1\" : \"something\" },\n    \"table_2\": { \"test2\" : \"something\" }\n  }\n}\n"
  const NoUnprocessedResponse: string := "\n{\n  \"UnprocessedKeys\": {\n  }\n}\n"

  /**
   * What the JSON reader yields on each body the tests send: the five
   * well-formed fixtures, and the three texts that are not JSON objects.
   */
  predicate ReadsFixtures(parse: string -> Document)
  {
    && parse(LocationsRequest) == Object(Some("locations"), None, None, None)
    && parse(ValidationError) == Object(None, None, None, Some(ValidationType))
    && parse(BatchRequest) == Object(None, Some(["table_1", "table_2"]), None, None)
    && parse(UnprocessedResponse) == Object(None, None, Some(["table_1", "table_2"]), None)
    && parse(NoUnprocessedResponse) == Object(None, None, Some([]), None)
    && parse("test" + "test2").Malformed?
    && parse(ValidationError + "}").Malformed?
    && parse(UnprocessedResponse + "}").Malformed?
  }

  /** A reader for exactly the fixtures, calling everything else malformed. */
  function FixtureParser(body: string): Document
  {
    if body == LocationsRequest then Object(Some("locations"), None, None, None)
    else if body == ValidationError then Object(None, None, None, Some(ValidationType))
    else if body == BatchRequest then Object(None, Some(["table_1", "table_2"]), None, None)
    else if body == UnprocessedResponse then Object(None, None, Some(["table_1", "table_2"]), None)
    else if body == NoUnprocessedResponse then Object(None, None, Some([]), None)
    else Malformed
  }

  /** Some reader meets the fixtures, so the scenarios below can be entered. */
  lemma FixtureParserReadsFixtures()
    ensures ReadsFixtures(FixtureParser)
  {
    assert |ValidationError + "}"| == |ValidationError| + 1;
    assert |UnprocessedResponse + "}"| == |UnprocessedResponse| + 1;
  }

  /** The target header of the tests without an operation holds no `.`. */
  lemma VersionHasNoDot()
    ensures '.' !in "version"
  {
  }

  /** Appending nothing, before or after, leaves a body as it is. */
  lemma AppendEmpty(body: string)
    ensures [] + body == body && body + [] == body
  {
  }

  function Rollout(on: bool): (string, nat) -> bool
  {
    (key: string, percent: nat) => on
  }

  lemma PrefixOfTests()
    ensures FilterPrefix(Configured) == Prefix
  {
  }

  /**
   * The fixture of every test: a runtime answering `on`, a fresh store and
   * fresh callbacks, and a filter built over them.
   */
  method Setup(on: bool, parse: string -> Document)
    returns (filter: DynamoFilter, runtime: Runtime, store: Store, decoder: StreamCallbacks, encoder: StreamCallbacks)
    ensures fresh(filter) && fresh(runtime) && fresh(store) && fresh(decoder) && fresh(encoder)
    ensures filter.Valid() && filter.enabled == on && filter.statPrefix == Prefix && filter.parse == parse
    ensures filter.stats == store && filter.decoder == decoder && filter.encoder == encoder
    ensures filter.operation.None? && filter.tables.None? && filter.responseStatus.None?
    ensures runtime.queries == [(FeatureKey, FeatureDefault)]
    ensures store.events == [] && decoder.buffered == [] && decoder.fetches == 0
    ensures encoder.buffered == [] && encoder.fetches == 0
  {
    runtime := new Runtime(Rollout(on));
    store := new Store();
    decoder := new StreamCallbacks();
    encoder := new StreamCallbacks();
    filter := new DynamoFilter(runtime, Configured, store, decoder, encoder, parse);
    PrefixOfTests();
  }

  // ---------------------------------------------------------------------
  // test/common/dynamo/dynamo_filter_test.cc:36-57
  // ---------------------------------------------------------------------

  lemma GetReport(parse: string -> Document)
    requires ReadsFixtures(parse)
    ensures ResponseStats(Some("Get"), {}, 200, "", parse) == SixPoints(Operation, "Get", 200) + [TableMissing]
  {
  }

  method OperatorPresent(parse: string -> Document) returns (statuses: seq<FilterStatus>, events: seq<Event>)
    requires ReadsFixtures(parse)
    ensures statuses == [Continue, Continue]
    ensures multiset(events) == multiset(EventsOf(Prefix, SixPoints(Operation, "Get", 200) + [TableMissing]))
  {
    var filter, runtime, store, decoder, encoder := Setup(true, parse);
    var headers := map[TargetHeader := "version" + "." + "Get", "random" := "random"];
    OperationOfTarget(headers, "version", "Get");
    var s1 := filter.DecodeHeaders(headers, true);
    assert filter.operation == Some("Get") && filter.tables == None && filter.responseStatus == None;
    var s2 := filter.EncodeHeaders(200, true);
    assert store.events == EventsOf(Prefix, ResponseStats(Some("Get"), {}, 200, "", parse));
    GetReport(parse);
    statuses := [s1, s2];
    events := store.events;
  }

  // ---------------------------------------------------------------------
  // test/common/dynamo/dynamo_filter_test.cc:59-71
  // ---------------------------------------------------------------------

  lemma MalformedRequest(parse: string -> Document)
    requires ReadsFixtures(parse)
    ensures RequestStats("test" + "test2", parse) == [InvalidReqBody]
  {
  }

  method JsonBodyNotWellFormed(parse: string -> Document) returns (statuses: seq<FilterStatus>, events: seq<Event>)
    requires ReadsFixtures(parse)
    ensures statuses == [Continue, Continue]
    ensures multiset(events) == multiset(EventsOf(Prefix, [InvalidReqBody]))
  {
    var filter, runtime, store, decoder, encoder := Setup(true, parse);
    var s1 := filter.DecodeHeaders(map[TargetHeader := "version" + "." + "GetItem", "random" := "random"], false);
    var s2 := filter.DecodeData("test" + "test2", true);
    AppendEmpty("test" + "test2");
    MalformedRequest(parse);
    assert store.events == EventsOf(Prefix, RequestStats("test" + "test2", parse));
    statuses := [s1, s2];
    events := store.events;
  }

  // ---------------------------------------------------------------------
  // test/common/dynamo/dynamo_filter_test.cc:73-84
  // ---------------------------------------------------------------------

  lemma NoTargetReport(parse: string -> Document)
    requires ReadsFixtures(parse)
    ensures ResponseStats(None, {}, 200, "", parse) == [OperationMissing, TableMissing]
  {
  }

  method BothOperationAndTableIncorrect(parse: string -> Document) returns (statuses: seq<FilterStatus>, events: seq<Event>)
    requires ReadsFixtures(parse)
    ensures statuses == [Continue, Continue]
    ensures multiset(events) == multiset(EventsOf(Prefix, [OperationMissing, TableMissing]))
  {
    var filter, runtime, store, decoder, encoder := Setup(true, parse);
    var headers := map[TargetHeader := "version", "random" := "random"];
    VersionHasNoDot();
    OperationOfTarget(headers, "", "");
    var s1 := filter.DecodeHeaders(headers, true);
    var s2 := filter.EncodeHeaders(200, true);
    assert store.events == EventsOf(Prefix, ResponseStats(None, {}, 200, "", parse));
    NoTargetReport(parse);
    statuses := [s1, s2];
    events := store.events;
  }

  // ---------------------------------------------------------------------
  // test/common/dynamo/dynamo_filter_test.cc:86-112
  // ---------------------------------------------------------------------

  lemma ValidationErrorName()
    ensures ErrorName(Some(ValidationType)) == Some("ValidationException")
  {
    ErrorNameOf("com.amazonaws.dynamodb.v20120810", "ValidationException");
  }

  lemma ErrorWithoutTableReport(parse: string -> Document)
    requires ReadsFixtures(parse)
    ensures ResponseStats(None, {}, 400, ValidationError, parse)
              == [OperationMissing, TableMissing, ErrorType(None, "ValidationException")]
  {
    ValidationErrorName();
  }

  lemma TruncatedErrorReport(parse: string -> Document)
    requires ReadsFixtures(parse)
    ensures ResponseStats(None, {}, 400, ValidationError + "}", parse)
              == [OperationMissing, TableMissing, InvalidRespBody]
  {
  }

  /** The first report of the test: a 400 without target header whose one body chunk names an error. */
  method ErrorWithoutTablePath(parse: string -> Document)
    returns (filter: DynamoFilter, store: Store, encoder: StreamCallbacks, statuses: seq<FilterStatus>)
    requires ReadsFixtures(parse)
    ensures fresh(filter) && fresh(store) && fresh(encoder)
    ensures filter.Valid() && filter.enabled && filter.statPrefix == Prefix && filter.parse == parse
    ensures filter.stats == store && filter.encoder == encoder
    ensures filter.operation.None? && filter.tables.None? && filter.responseStatus == Some(400)
    ensures store.events == EventsOf(Prefix, [OperationMissing, TableMissing, ErrorType(None, "ValidationException")])
    ensures encoder.buffered == []
    ensures statuses == [Continue, Continue, Continue]
  {
    var runtime, decoder;
    filter, runtime, store, decoder, encoder := Setup(true, parse);
    var headers := map[TargetHeader := "version", "random" := "random"];
    VersionHasNoDot();
    OperationOfTarget(headers, "", "");
    var s1 := filter.DecodeHeaders(headers, true);
    var s2 := filter.EncodeHeaders(400, false);
    var s3 := filter.EncodeData(ValidationError, true);
    AppendEmpty(ValidationError);
    ErrorWithoutTableReport(parse);
    statuses := [s1, s2, s3];
  }

  /**
   * A 400 whose body names an error reports it against no_table; a later
   * trailer over a body that no longer parses reports again, with
   * invalid_resp_body instead of the error.
   */
  method HandleErrorTypeTableMissing(parse: string -> Document) returns (statuses: seq<FilterStatus>, events: seq<Event>)
    requires ReadsFixtures(parse)
    ensures statuses == [Continue, Continue, Continue, StopIterationAndBuffer, Continue]
    ensures multiset(events) == multiset(EventsOf(Prefix,
              [OperationMissing, TableMissing, ErrorType(None, "ValidationException"),
               OperationMissing, TableMissing, InvalidRespBody]))
  {
    var filter, store, encoder, first := ErrorWithoutTablePath(parse);
    ghost var reported := store.events;
    var s4 := filter.EncodeData(ValidationError + "}", false);
    encoder.Add(ValidationError + "}");
    AppendEmpty(ValidationError + "}");
    assert encoder.buffered == ValidationError + "}";
    var s5 := filter.EncodeTrailers();
    TruncatedErrorReport(parse);
    assert store.events == reported + EventsOf(Prefix, [OperationMissing, TableMissing, InvalidRespBody]);
    EventsOfAppend(Prefix, [OperationMissing, TableMissing, ErrorType(None, "ValidationException")],
                   [OperationMissing, TableMissing, InvalidRespBody]);
    statuses := first + [s4, s5];
    events := store.events;
  }

  // ---------------------------------------------------------------------
  // test/common/dynamo/dynamo_filter_test.cc:114-154
  // ---------------------------------------------------------------------

  lemma LocationsTables(parse: string -> Document)
    requires ReadsFixtures(parse)
    ensures NextTables(None, LocationsRequest, parse) == Some({"locations"})
    ensures RequestStats(LocationsRequest, parse) == []
  {
  }

  lemma ErrorWithTableReport(parse: string -> Document)
    requires ReadsFixtures(parse)
    ensures ResponseStats(Some("GetItem"), {"locations"}, 400, ValidationError, parse)
              == SixPoints(Operation, "GetItem", 400) + SixPoints(Table, "locations", 400)
                 + [ErrorType(Some("locations"), "ValidationException")]
  {
    OnlyIsTheMember({"locations"}, "locations");
    ValidationErrorName();
  }

  /** The request path of the test: a GetItem whose one body chunk names the locations table. */
  method LocationsRequestPath(parse: string -> Document)
    returns (filter: DynamoFilter, store: Store, encoder: StreamCallbacks, statuses: seq<FilterStatus>)
    requires ReadsFixtures(parse)
    ensures fresh(filter) && fresh(store) && fresh(encoder)
    ensures filter.Valid() && filter.enabled && filter.statPrefix == Prefix && filter.parse == parse
    ensures filter.stats == store && filter.encoder == encoder
    ensures filter.operation == Some("GetItem") && filter.tables == Some({"locations"})
    ensures filter.responseStatus.None?
    ensures store.events == [] && encoder.buffered == [] && encoder.fetches == 0
    ensures statuses == [Continue, Continue]
  {
    var runtime, decoder;
    filter, runtime, store, decoder, encoder := Setup(true, parse);
    var headers := map[TargetHeader := "version" + "." + "GetItem", "random" := "random"];
    OperationOfTarget(headers, "version", "GetItem");
    var s1 := filter.DecodeHeaders(headers, false);
    var s2 := filter.DecodeData(LocationsRequest, true);
    AppendEmpty(LocationsRequest);
    LocationsTables(parse);
    statuses := [s1, s2];
  }

  /** With the table known from the request, a 400 charges both scopes and the error against the table. */
  method HandleErrorTypeTablePresent(parse: string -> Document) returns (statuses: seq<FilterStatus>, events: seq<Event>)
    requires ReadsFixtures(parse)
    ensures statuses == [Continue, Continue, Continue, Continue]
    ensures multiset(events) == multiset(EventsOf(Prefix,
              SixPoints(Operation, "GetItem", 400) + SixPoints(Table, "locations", 400)
              + [ErrorType(Some("locations"), "ValidationException")]))
  {
    var filter, store, encoder, request := LocationsRequestPath(parse);
    var s3 := filter.EncodeHeaders(400, false);
    var s4 := filter.EncodeData(ValidationError, true);
    AppendEmpty(ValidationError);
    ErrorWithTableReport(parse);
    assert store.events == EventsOf(Prefix, ResponseStats(Some("GetItem"), {"locations"}, 400, ValidationError, parse));
    statuses := request + [s3, s4];
    events := store.events;
  }

  // ---------------------------------------------------------------------
  // test/common/dynamo/dynamo_filter_test.cc:156-193, 195-249, 251-301, 303-357
  // ---------------------------------------------------------------------

  lemma BatchTables(parse: string -> Document)
    requires ReadsFixtures(parse)
    ensures NextTables(None, BatchRequest, parse) == Some({"table_1", "table_2"})
    ensures RequestStats(BatchRequest, parse) == []
  {
    assert KeySet(["table_1", "table_2"]) == {"table_1", "table_2"};
  }

  /**
   * The request path of the batch tests: the body is held back, then read
   * once at the trailers, naming two tables.
   */
  method BatchRequestPath(parse: string -> Document) returns (filter: DynamoFilter, store: Store, encoder: StreamCallbacks,
                                     statuses: seq<FilterStatus>)
    requires ReadsFixtures(parse)
    ensures fresh(filter) && fresh(store) && fresh(encoder)
    ensures filter.Valid() && filter.enabled && filter.statPrefix == Prefix && filter.parse == parse
    ensures filter.stats == store && filter.encoder == encoder
    ensures filter.operation == Some("BatchGetItem") && filter.tables == Some({"table_1", "table_2"})
    ensures filter.responseStatus.None?
    ensures store.events == [] && encoder.buffered == [] && encoder.fetches == 0
    ensures statuses == [Continue, StopIterationAndBuffer, Continue]
  {
    var runtime, decoder;
    filter, runtime, store, decoder, encoder := Setup(true, parse);
    var headers := map[TargetHeader := "version" + "." + "BatchGetItem", "random" := "random"];
    OperationOfTarget(headers, "version", "BatchGetItem");
    var s1 := filter.DecodeHeaders(headers, false);
    var s2 := filter.DecodeData(BatchRequest, false);
    decoder.Add(BatchRequest);
    AppendEmpty(BatchRequest);
    var s3 := filter.DecodeTrailers();
    BatchTables(parse);
    statuses := [s1, s2, s3];
  }

  lemma TwoTables()
    ensures |{"table_1", "table_2"}| == 2
  {
  }

  lemma BatchHeadersOnlyReport(parse: string -> Document)
    requires ReadsFixtures(parse)
    ensures ResponseStats(Some("BatchGetItem"), {"table_1", "table_2"}, 200, [], parse)
              == SixPoints(Operation, "BatchGetItem", 200) + [MultipleTables]
  {
    TwoTables();
  }

  method BatchMultipleTables(parse: string -> Document) returns (statuses: seq<FilterStatus>, events: seq<Event>)
    requires ReadsFixtures(parse)
    ensures statuses == [Continue, StopIterationAndBuffer, Continue, Continue]
    ensures multiset(events) == multiset(EventsOf(Prefix, SixPoints(Operation, "BatchGetItem", 200) + [MultipleTables]))
  {
    var filter, store, encoder, request := BatchRequestPath(parse);
    var s4 := filter.EncodeHeaders(200, true);
    assert store.events == EventsOf(Prefix, ResponseStats(Some("BatchGetItem"), {"table_1", "table_2"}, 200, [], parse));
    BatchHeadersOnlyReport(parse);
    statuses := request + [s4];
    events := store.events;
  }

  lemma UnprocessedReport(parse: string -> Document)
    requires ReadsFixtures(parse)
    ensures ResponseStats(Some("BatchGetItem"), {"table_1", "table_2"}, 200, UnprocessedResponse + [], parse)
              == SixPoints(Operation, "BatchGetItem", 200) + [MultipleTables]
                 + [UnprocessedKeys("table_1"), UnprocessedKeys("table_2")]
  {
    TwoTables();
    assert UnprocessedResponse + [] == UnprocessedResponse;
  }

  /** Each unprocessed table of a 200 is a batch failure; the response buffer is fetched once. */
  method BatchMultipleTablesUnprocessedKeys(parse: string -> Document) returns (statuses: seq<FilterStatus>, events: seq<Event>, fetches: nat)
    requires ReadsFixtures(parse)
    ensures statuses == [Continue, StopIterationAndBuffer, Continue, Continue, Continue]
    ensures multiset(events) == multiset(EventsOf(Prefix,
              SixPoints(Operation, "BatchGetItem", 200) + [MultipleTables]
              + [UnprocessedKeys("table_1"), UnprocessedKeys("table_2")]))
    ensures fetches == 1
  {
    var filter, store, encoder, request := BatchRequestPath(parse);
    var s4 := filter.EncodeHeaders(200, false);
    encoder.Add(UnprocessedResponse);
    AppendEmpty(UnprocessedResponse);
    assert encoder.buffered == UnprocessedResponse;
    var s5 := filter.EncodeData([], true);
    assert store.events == EventsOf(Prefix, ResponseStats(Some("BatchGetItem"), {"table_1", "table_2"}, 200,
                                                          UnprocessedResponse + [], parse));
    UnprocessedReport(parse);
    statuses := request + [s4, s5];
    events := store.events;
    fetches := encoder.fetches;
  }

  lemma NoUnprocessedReport(parse: string -> Document)
    requires ReadsFixtures(parse)
    ensures ResponseStats(Some("BatchGetItem"), {"table_1", "table_2"}, 200, NoUnprocessedResponse + [], parse)
              == SixPoints(Operation, "BatchGetItem", 200) + [MultipleTables]
  {
    TwoTables();
    assert NoUnprocessedResponse + [] == NoUnprocessedResponse;
  }

  /** An empty `UnprocessedKeys` object adds nothing to the basic stats. */
  method BatchMultipleTablesNoUnprocessedKeys(parse: string -> Document) returns (statuses: seq<FilterStatus>, events: seq<Event>, fetches: nat)
    requires ReadsFixtures(parse)
    ensures statuses == [Continue, StopIterationAndBuffer, Continue, Continue, Continue]
    ensures multiset(events) == multiset(EventsOf(Prefix, SixPoints(Operation, "BatchGetItem", 200) + [MultipleTables]))
    ensures fetches == 1
  {
    var filter, store, encoder, request := BatchRequestPath(parse);
    var s4 := filter.EncodeHeaders(200, false);
    encoder.Add(NoUnprocessedResponse);
    AppendEmpty(NoUnprocessedResponse);
    assert encoder.buffered == NoUnprocessedResponse;
    var s5 := filter.EncodeData([], true);
    assert store.events == EventsOf(Prefix, ResponseStats(Some("BatchGetItem"), {"table_1", "table_2"}, 200,
                                                          NoUnprocessedResponse + [], parse));
    NoUnprocessedReport(parse);
    statuses := request + [s4, s5];
    events := store.events;
    fetches := encoder.fetches;
  }

  lemma InvalidBatchResponseReport(parse: string -> Document)
    requires ReadsFixtures(parse)
    ensures ResponseStats(Some("BatchGetItem"), {"table_1", "table_2"}, 200, (UnprocessedResponse + "}") + [], parse)
              == SixPoints(Operation, "BatchGetItem", 200) + [MultipleTables] + [InvalidRespBody]
  {
    TwoTables();
    assert (UnprocessedResponse + "}") + [] == UnprocessedResponse + "}";
  }

  /** A response body that does not parse counts invalid_resp_body and no batch failure. */
  method BatchMultipleTablesInvalidResponseBody(parse: string -> Document) returns (statuses: seq<FilterStatus>, events: seq<Event>, fetches: nat)
    requires ReadsFixtures(parse)
    ensures statuses == [Continue, StopIterationAndBuffer, Continue, Continue, Continue]
    ensures multiset(events) == multiset(EventsOf(Prefix,
              SixPoints(Operation, "BatchGetItem", 200) + [MultipleTables] + [InvalidRespBody]))
    ensures fetches == 1
  {
    var filter, store, encoder, request := BatchRequestPath(parse);
    var s4 := filter.EncodeHeaders(200, false);
    encoder.Add(UnprocessedResponse + "}");
    AppendEmpty(UnprocessedResponse + "}");
    assert encoder.buffered == UnprocessedResponse + "}";
    var s5 := filter.EncodeData([], true);
    assert store.events == EventsOf(Prefix, ResponseStats(Some("BatchGetItem"), {"table_1", "table_2"}, 200,
                                                          UnprocessedResponse + "}" + [], parse));
    InvalidBatchResponseReport(parse);
    statuses := request + [s4, s5];
    events := store.events;
    fetches := encoder.fetches;
  }

  // ---------------------------------------------------------------------
  // test/common/dynamo/dynamo_filter_test.cc:359-397
  // ---------------------------------------------------------------------

  /** The held-back start of the request and its last chunk make up the whole body. */
  lemma LocationsRequestSplit()
    ensures LocationsRequestStart + "}" == LocationsRequest
  {
  }

  lemma BothScopesReport(parse: string -> Document)
    requires ReadsFixtures(parse)
    ensures ResponseStats(Some("GetItem"), {"locations"}, 200, [], parse)
              == SixPoints(Operation, "GetItem", 200) + SixPoints(Table, "locations", 200)
  {
    OnlyIsTheMember({"locations"}, "locations");
  }

  /** The request path of the test: the host holds the start of the body, the last chunk closes it. */
  method SplitRequestPath(parse: string -> Document) returns (filter: DynamoFilter, store: Store, statuses: seq<FilterStatus>)
    requires ReadsFixtures(parse)
    ensures fresh(filter) && fresh(store) && fresh(filter.encoder)
    ensures filter.Valid() && filter.enabled && filter.statPrefix == Prefix && filter.parse == parse
    ensures filter.stats == store
    ensures filter.operation == Some("GetItem") && filter.tables == Some({"locations"})
    ensures filter.responseStatus.None?
    ensures store.events == [] && filter.encoder.buffered == [] && filter.encoder.fetches == 0
    ensures statuses == [Continue, StopIterationAndBuffer, Continue]
  {
    var runtime, decoder, encoder;
    filter, runtime, store, decoder, encoder := Setup(true, parse);
    decoder.Add(LocationsRequestStart);
    AppendEmpty(LocationsRequestStart);
    var headers := map[TargetHeader := "version" + "." + "GetItem"];
    OperationOfTarget(headers, "version", "GetItem");
    var s1 := filter.DecodeHeaders(headers, false);
    var s2 := filter.DecodeData("}", false);
    var s3 := filter.DecodeData("}", true);
    LocationsRequestSplit();
    LocationsTables(parse);
    statuses := [s1, s2, s3];
  }

  /**
   * The request body arrives as the host's buffer plus a final chunk; the
   * table it names is charged beside the operation.
   */
  method BothOperationAndTableCorrect(parse: string -> Document) returns (statuses: seq<FilterStatus>, events: seq<Event>)
    requires ReadsFixtures(parse)
    ensures statuses == [Continue, StopIterationAndBuffer, Continue, Continue]
    ensures multiset(events) == multiset(EventsOf(Prefix,
              SixPoints(Operation, "GetItem", 200) + SixPoints(Table, "locations", 200)))
  {
    var filter, store, request := SplitRequestPath(parse);
    var s4 := filter.EncodeHeaders(200, true);
    BothScopesReport(parse);
    statuses := request + [s4];
    events := store.events;
  }

  // ---------------------------------------------------------------------
  // test/common/dynamo/dynamo_filter_test.cc:399-411
  // ---------------------------------------------------------------------

  /** With the feature flag off the filter passes everything through and charges nothing. */
  method OperatorPresentRuntimeDisabled() returns (statuses: seq<FilterStatus>, events: seq<Event>,
                                                   queries: seq<(string, nat)>)
    ensures statuses == [Continue, Continue, Continue]
    ensures events == []
    ensures queries == [("dynamodb.filter_enabled", 100)]
  {
    var filter, runtime, store, decoder, encoder := Setup(false, FixtureParser);
    var s1 := filter.DecodeHeaders(map[TargetHeader := "version" + "." + "operator", "random" := "random"], true);
    var s2 := filter.EncodeHeaders(200, true);
    var s3 := filter.EncodeTrailers();
    statuses := [s1, s2, s3];
    events := store.events;
    queries := runtime.queries;
  }

  // ---------------------------------------------------------------------
  // The names the tests expect below "prefix.dynamodb.", as rendered by the model
  // ---------------------------------------------------------------------

  /** The status 200 in decimal. */
  lemma Status200()
    ensures NatToString(200) == "200" && StatusGroup(200) == "2xx"
  {
    assert NatToString(20) == NatToString(2) + [DigitChar(0)];
  }

  lemma Status400()
    ensures NatToString(400) == "400" && StatusGroup(400) == "4xx"
  {
    assert NatToString(40) == NatToString(4) + [DigitChar(0)];
  }

  lemma OperationTotalName()
    ensures Relative(RqTotal(Operation, "Get", Overall, 200)) == "operation.Get.upstream_rq_total"
  {
  }

  lemma OperationFamilyName()
    ensures Relative(RqTotal(Operation, "Get", Family, 200)) == "operation.Get.upstream_rq_total_2xx"
  {
    Status200();
  }

  lemma OperationExactTimeName()
    ensures Relative(RqTime(Operation, "Get", Exact, 200)) == "operation.Get.upstream_rq_time_200"
  {
    Status200();
  }

  lemma TableFamilyName()
    ensures Relative(RqTotal(Table, "locations", Family, 400)) == "table.locations.upstream_rq_total_4xx"
  {
  }

  lemma NoTableErrorName()
    ensures Relative(ErrorType(None, "ValidationException")) == "error.no_table.ValidationException"
  {
  }

  lemma BatchFailureName()
    ensures Relative(UnprocessedKeys("table_1")) == "error.table_1.BatchFailureUnprocessedKeys"
  {
  }

  lemma OperationTimeName()
    ensures Relative(RqTime(Operation, "Get", Overall, 200)) == "operation.Get.upstream_rq_time"
  {
  }

  lemma OperationFamilyTimeName()
    ensures Relative(RqTime(Operation, "Get", Family, 200)) == "operation.Get.upstream_rq_time_2xx"
  {
    Status200();
  }

  lemma OperationExactTotalName()
    ensures Relative(RqTotal(Operation, "Get", Exact, 200)) == "operation.Get.upstream_rq_total_200"
  {
    Status200();
  }

  lemma OperationFamily400Name()
    ensures Relative(RqTotal(Operation, "GetItem", Family, 400)) == "operation.GetItem.upstream_rq_total_4xx"
  {
    Status400();
  }

  lemma OperationExact400Name()
    ensures Relative(RqTotal(Operation, "GetItem", Exact, 400)) == "operation.GetItem.upstream_rq_total_400"
  {
    Status400();
  }

  lemma TableExactTimeName()
    ensures Relative(RqTime(Table, "locations", Exact, 400)) == "table.locations.upstream_rq_time_400"
  {
    Status400();
  }

  lemma TableErrorName()
    ensures Relative(ErrorType(Some("locations"), "ValidationException")) == "error.locations.ValidationException"
  {
  }
}
