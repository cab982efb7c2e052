/**
 * The per-stream DynamoDB telemetry filter. It observes one request and its
 * response, and at response completion charges counters and timings named
 * after the operation, the table(s), the status and the errors it found.
 * It never alters or rejects traffic.
 */
module Dynamo {
  import opened Wrappers
  import opened StatNames
  import opened JsonBody
  import opened Host
  import opened DynamoStats

  /** The runtime flag consulted once per stream, and its default percentage. */
  const FeatureKey: string := "dynamodb.filter_enabled"
  const FeatureDefault: nat := 100

  /** The request header that carries `<version>.<Operation>`. */
  const TargetHeader: string := "x-amz-target"

  // ---------------------------------------------------------------------
  // Operation extraction
  // ---------------------------------------------------------------------

  /** The text after the last `.` of the target header; None without header or `.`. */
  function OperationOf(headers: map<string, string>): Option<string>
  {
    if TargetHeader in headers then AfterLast(headers[TargetHeader], '.') else None
  }

  /**
   * A target `<version>.<op>` whose `op` has no `.` names operation `op`; a
   * target without any `.`, or no target header, names no operation.
   */
  lemma OperationOfTarget(headers: map<string, string>, version: string, op: string)
    ensures TargetHeader in headers && headers[TargetHeader] == version + "." + op && '.' !in op ==>
              OperationOf(headers) == Some(op)
    ensures TargetHeader in headers && '.' !in headers[TargetHeader] ==> OperationOf(headers) == None
    ensures TargetHeader !in headers ==> OperationOf(headers) == None
  {
    if TargetHeader in headers && headers[TargetHeader] == version + "." + op && '.' !in op {
      AfterLastOfJoin(version, '.', op);
    }
  }

  // ---------------------------------------------------------------------
  // The filter
  // ---------------------------------------------------------------------

  /** The tables known so far; none until a request body named some. */
  function KnownTables(tables: Option<set<string>>): set<string>
  {
    tables.GetOr({})
  }

  class DynamoFilter {
    /** The configured prefix followed by "dynamodb.". */
    const statPrefix: string
    /** The cached answer of the runtime gate. */
    const enabled: bool
    /** The JSON reader applied to a complete body. */
    const parse: string -> Document
    const stats: Store
    const decoder: StreamCallbacks
    const encoder: StreamCallbacks

    /** Per-stream facts. */
    var operation: Option<string>
    var tables: Option<set<string>>
    var responseStatus: Option<nat>

    /** When disabled, the stream state carries nothing. */
    ghost predicate Valid()
      reads this
    {
      && decoder != encoder
      && (!enabled ==> operation.None? && tables.None? && responseStatus.None?)
    }

    /** Nothing the filter observes or owns changed. */
    twostate predicate Quiet()
      reads this, stats, decoder, encoder
    {
      && operation == old(operation) && tables == old(tables) && responseStatus == old(responseStatus)
      && stats.events == old(stats.events)
      && decoder.fetches == old(decoder.fetches) && encoder.fetches == old(encoder.fetches)
    }

    /**
     * One extraction pass over the request body: the host's buffer followed
     * by the last chunk `last`, fetched once.
     */
    twostate predicate RequestBodyRead(last: string)
      reads this, stats, decoder
    {
      var body := old(decoder.buffered) + last;
      && operation == old(operation) && responseStatus == old(responseStatus)
      && decoder.buffered == old(decoder.buffered) && decoder.fetches == old(decoder.fetches) + 1
      && tables == NextTables(old(tables), body, parse)
      && stats.events == old(stats.events) + EventsOf(statPrefix, RequestStats(body, parse))
    }

    /**
     * Response completion: with a recorded status, the host's buffer followed
     * by `last` is fetched once and the full report is charged; without one,
     * nothing happens.
     */
    twostate predicate ResponseReported(last: string)
      reads this, stats, encoder
    {
      var body := old(encoder.buffered) + last;
      && operation == old(operation) && tables == old(tables) && encoder.buffered == old(encoder.buffered)
      && (responseStatus.None? ==> encoder.fetches == old(encoder.fetches) && stats.events == old(stats.events))
      && (responseStatus.Some? ==>
            && encoder.fetches == old(encoder.fetches) + 1
            && stats.events == old(stats.events)
                 + EventsOf(statPrefix, ResponseStats(operation, KnownTables(tables), responseStatus.value, body, parse)))
    }

    /** Queries the runtime gate exactly once, here. */
    constructor (runtime: Runtime, prefix: string, stats: Store,
                 decoder: StreamCallbacks, encoder: StreamCallbacks, parse: string -> Document)
      requires decoder != encoder
      modifies runtime
      ensures Valid()
      ensures runtime.queries == old(runtime.queries) + [(FeatureKey, FeatureDefault)]
      ensures enabled == runtime.rollout(FeatureKey, FeatureDefault)
      ensures statPrefix == FilterPrefix(prefix) && this.parse == parse
      ensures this.stats == stats && this.decoder == decoder && this.encoder == encoder
      ensures operation.None? && tables.None? && responseStatus.None?
    {
      var on := runtime.FeatureEnabled(FeatureKey, FeatureDefault);
      statPrefix := FilterPrefix(prefix);
      enabled := on;
      this.parse := parse;
      this.stats := stats;
      this.decoder := decoder;
      this.encoder := encoder;
      operation := None;
      tables := None;
      responseStatus := None;
    }

    /** Records the operation; never holds up the headers. */
    method DecodeHeaders(headers: map<string, string>, endStream: bool) returns (status: FilterStatus)
      requires Valid()
      modifies this
      ensures Valid() && status == Continue
      ensures operation == (if enabled then OperationOf(headers) else None)
      ensures tables == old(tables) && responseStatus == old(responseStatus)
    {
      if enabled {
        operation := OperationOf(headers);
      }
      status := Continue;
    }

    /** Buffers until the final chunk, then reads the whole request body once. */
    method DecodeData(data: string, endStream: bool) returns (status: FilterStatus)
      requires Valid()
      modifies this, stats, decoder
      ensures Valid()
      ensures status == (if enabled && !endStream then StopIterationAndBuffer else Continue)
      ensures enabled && endStream ==> RequestBodyRead(data)
      ensures !(enabled && endStream) ==> Quiet() && decoder.buffered == old(decoder.buffered)
    {
      if enabled && endStream {
        OnDecodeComplete(data);
      }
      status := if enabled && !endStream then StopIterationAndBuffer else Continue;
    }

    /** Trailers end the request: the buffered body is read once. */
    method DecodeTrailers() returns (status: FilterStatus)
      requires Valid()
      modifies this, stats, decoder
      ensures Valid() && status == Continue
      ensures enabled ==> RequestBodyRead([])
      ensures !enabled ==> Quiet() && decoder.buffered == old(decoder.buffered)
    {
      if enabled {
        OnDecodeComplete([]);
      }
      status := Continue;
    }

    /** Records the status; a header-only response completes here. */
    method EncodeHeaders(code: nat, endStream: bool) returns (status: FilterStatus)
      requires Valid()
      modifies this, stats, encoder
      ensures Valid() && status == Continue
      ensures enabled ==> responseStatus == Some(code)
      ensures enabled && endStream ==> ResponseReported([])
      ensures enabled && !endStream ==>
                operation == old(operation) && tables == old(tables)
                && stats.events == old(stats.events) && encoder.fetches == old(encoder.fetches)
      ensures !enabled ==> Quiet()
      ensures encoder.buffered == old(encoder.buffered)
    {
      if enabled {
        responseStatus := Some(code);
        if endStream {
          OnEncodeComplete([]);
        }
      }
      status := Continue;
    }

    /** Buffers until the final chunk, then reports once. */
    method EncodeData(data: string, endStream: bool) returns (status: FilterStatus)
      requires Valid()
      modifies this, stats, encoder
      ensures Valid()
      ensures status == (if enabled && !endStream then StopIterationAndBuffer else Continue)
      ensures responseStatus == old(responseStatus)
      ensures enabled && endStream ==> ResponseReported(data)
      ensures !(enabled && endStream) ==> Quiet() && encoder.buffered == old(encoder.buffered)
    {
      if enabled && endStream {
        OnEncodeComplete(data);
      }
      status := if enabled && !endStream then StopIterationAndBuffer else Continue;
    }

    /** Trailers end the response: report once over the buffered body. */
    method EncodeTrailers() returns (status: FilterStatus)
      requires Valid()
      modifies this, stats, encoder
      ensures Valid() && status == Continue
      ensures responseStatus == old(responseStatus)
      ensures enabled ==> ResponseReported([])
      ensures !enabled ==> Quiet() && encoder.buffered == old(encoder.buffered)
    {
      if enabled {
        OnEncodeComplete([]);
      }
      status := Continue;
    }

    /** Parse the full request body once; learn the tables or count a malformed body. */
    method OnDecodeComplete(last: string)
      requires Valid() && enabled
      modifies this, stats, decoder
      ensures Valid() && RequestBodyRead(last)
    {
      var buffered := decoder.Buffer();
      var body := buffered + last;
      if body != [] {
        var doc := parse(body);
        if doc.Malformed? {
          Charge(InvalidReqBody);
        } else if tables.None? {
          tables := RequestTables(doc);
        }
      }
    }

    /** Report the stream: basic stats, then what the response body reveals. */
    method OnEncodeComplete(last: string)
      requires Valid() && enabled
      modifies stats, encoder
      ensures ResponseReported(last)
    {
      if responseStatus.None? {
        return;
      }
      var buffered := encoder.Buffer();
      Report(responseStatus.value, buffered + last);
    }

    /** The basic stats of the status, then what the complete response body reveals. */
    method Report(code: nat, body: string)
      modifies stats
      ensures stats.events
                == old(stats.events) + EventsOf(statPrefix, ResponseStats(operation, KnownTables(tables), code, body, parse))
    {
      ghost var before := stats.events;
      ChargeBasicStats(code);
      ChargeBody(code, body);
      ChargedBoth(statPrefix, before, OperationStats(operation, code) + TableStats(KnownTables(tables), code),
                  BodyStats(KnownTables(tables), code, body, parse), stats.events);
    }

    /** An empty body is not parsed; a malformed one is counted; else errors and batch failures. */
    method ChargeBody(code: nat, body: string)
      modifies stats
      ensures stats.events == old(stats.events) + EventsOf(statPrefix, BodyStats(KnownTables(tables), code, body, parse))
    {
      if body != [] {
        var doc := parse(body);
        if doc.Malformed? {
          Charge(InvalidRespBody);
        } else {
          ChargeParsedBody(code, doc);
        }
      }
    }

    method ChargeParsedBody(code: nat, doc: Document)
      requires doc.Object?
      modifies stats
      ensures stats.events == old(stats.events) + EventsOf(statPrefix, ErrorStats(KnownTables(tables), code, doc.errorType)
                                                                     + UnprocessedStats(doc.unprocessedKeys.GetOr([])))
    {
      ghost var before := stats.events;
      ChargeErrorType(code, doc.errorType);
      ChargeUnprocessedKeys(doc.unprocessedKeys.GetOr([]));
      ChargedBoth(statPrefix, before, ErrorStats(KnownTables(tables), code, doc.errorType),
                  UnprocessedStats(doc.unprocessedKeys.GetOr([])), stats.events);
    }

    /** The operation's points or operation_missing, then the table's points, table_missing or multiple_tables. */
    method ChargeBasicStats(code: nat)
      modifies stats
      ensures stats.events == old(stats.events)
                + EventsOf(statPrefix, OperationStats(operation, code) + TableStats(KnownTables(tables), code))
    {
      ghost var before := stats.events;
      ChargeOperationStats(code);
      ChargeTableStats(code);
      ChargedBoth(statPrefix, before, OperationStats(operation, code), TableStats(KnownTables(tables), code), stats.events);
    }

    method ChargeOperationStats(code: nat)
      modifies stats
      ensures stats.events == old(stats.events) + EventsOf(statPrefix, OperationStats(operation, code))
    {
      match operation {
        case Some(o) => ChargeSixPoints(Operation, o, code);
        case None => Charge(OperationMissing);
      }
    }

    method ChargeTableStats(code: nat)
      modifies stats
      ensures stats.events == old(stats.events) + EventsOf(statPrefix, TableStats(KnownTables(tables), code))
    {
      var known := KnownTables(tables);
      if |known| == 0 {
        Charge(TableMissing);
      } else if |known| == 1 {
        var t :| t in known;
        OnlyIsTheMember(known, t);
        ChargeSixPoints(Table, t, code);
      } else {
        Charge(MultipleTables);
      }
    }

    method ChargeErrorType(code: nat, errorType: Option<string>)
      modifies stats
      ensures stats.events == old(stats.events) + EventsOf(statPrefix, ErrorStats(KnownTables(tables), code, errorType))
    {
      var name := ErrorName(errorType);
      if !Is2xx(code) && name.Some? {
        var known := KnownTables(tables);
        var table: Option<string> := None;
        if |known| == 1 {
          var t :| t in known;
          OnlyIsTheMember(known, t);
          table := Some(t);
        }
        Charge(ErrorType(table, name.value));
      }
    }

    method ChargeUnprocessedKeys(keys: seq<string>)
      modifies stats
      ensures stats.events == old(stats.events) + EventsOf(statPrefix, UnprocessedStats(keys))
    {
      ghost var u := UnprocessedStats(keys);
      ghost var before := stats.events;
      assert u[..0] == [];
      for i := 0 to |keys|
        invariant stats.events == before + EventsOf(statPrefix, u[..i])
      {
        Charge(UnprocessedKeys(keys[i]));
        ChargedOneMore(statPrefix, before, u, i, stats.events);
      }
      assert u[..|keys|] == u;
    }

    method ChargeSixPoints(scope: Scope, key: string, code: nat)
      modifies stats
      ensures stats.events == old(stats.events) + EventsOf(statPrefix, SixPoints(scope, key, code))
    {
      var p := SixPoints(scope, key, code);
      ghost var before := stats.events;
      assert p[..0] == [];
      for k := 0 to |p|
        invariant stats.events == before + EventsOf(statPrefix, p[..k])
      {
        Charge(p[k]);
        ChargedOneMore(statPrefix, before, p, k, stats.events);
      }
      assert p[..|p|] == p;
    }

    /** Counters are incremented, timings delivered. */
    method Charge(st: Stat)
      modifies stats
      ensures stats.events == old(stats.events) + [EventOf(statPrefix, st)]
    {
      if st.IsTiming() {
        stats.DeliverTiming(Render(statPrefix, st));
      } else {
        stats.Increment(Render(statPrefix, st));
      }
    }
  }
}
