/**
 * What the DynamoDB filter charges at response completion, as a sequence of
 * stats computed from the facts of one stream, and the properties of that
 * report: which names appear, and how often.
 */
module DynamoStats {
  import opened Wrappers
  import opened StatNames
  import opened JsonBody
  import opened Host

  // ---------------------------------------------------------------------
  // The report
  // ---------------------------------------------------------------------

  /** The one table of a singleton set. */
  ghost function Only(s: set<string>): string
    requires |s| == 1
  {
    var t :| t in s; t
  }

  lemma OnlyIsTheMember(s: set<string>, t: string)
    requires |s| == 1 && t in s
    ensures s == {t} && Only(s) == t
  {
    var rest := s - {t};
    assert |rest| == 0;
    assert rest == {};
  }

  /** Total, total by family, total by exact code, then the three matching timings. */
  function SixPoints(scope: Scope, key: string, code: nat): seq<Stat>
  {
    [RqTotal(scope, key, Overall, code), RqTotal(scope, key, Family, code), RqTotal(scope, key, Exact, code),
     RqTime(scope, key, Overall, code), RqTime(scope, key, Family, code), RqTime(scope, key, Exact, code)]
  }

  /** The operation's six points, or operation_missing. */
  function OperationStats(op: Option<string>, code: nat): seq<Stat>
  {
    match op
    case Some(o) => SixPoints(Operation, o, code)
    case None => [OperationMissing]
  }

  /** No table: table_missing; one table: its six points; several: multiple_tables. */
  ghost function TableStats(tables: set<string>, code: nat): seq<Stat>
  {
    if |tables| == 0 then [TableMissing]
    else if |tables| == 1 then SixPoints(Table, Only(tables), code)
    else [MultipleTables]
  }

  /** The table named in an error counter: the single table, else none (`no_table`). */
  ghost function ErrorTable(tables: set<string>): Option<string>
  {
    if |tables| == 1 then Some(Only(tables)) else None
  }

  /** An error name found in a non-2xx response body is charged against the table. */
  ghost function ErrorStats(tables: set<string>, code: nat, errorType: Option<string>): seq<Stat>
  {
    if !Is2xx(code) && ErrorName(errorType).Some? then [ErrorType(ErrorTable(tables), ErrorName(errorType).value)]
    else []
  }

  /** One batch failure per key of `UnprocessedKeys`, in document order. */
  function UnprocessedStats(keys: seq<string>): (r: seq<Stat>)
    ensures |r| == |keys| && forall i :: 0 <= i < |keys| ==> r[i] == UnprocessedKeys(keys[i])
  {
    seq(|keys|, i requires 0 <= i < |keys| => UnprocessedKeys(keys[i]))
  }

  /**
   * What the complete response body adds: nothing for an empty body (it is
   * not parsed), invalid_resp_body for one that does not parse, else the
   * error type and the batch failures.
   */
  ghost function BodyStats(tables: set<string>, code: nat, body: string, parse: string -> Document): seq<Stat>
  {
    if body == [] then []
    else match parse(body)
      case Malformed => [InvalidRespBody]
      case Object(_, _, unprocessed, errorType) =>
        ErrorStats(tables, code, errorType) + UnprocessedStats(unprocessed.GetOr([]))
  }

  /**
   * Everything charged when a response completes with status `code`, given
   * the operation and tables learned on the request path and the complete
   * response body.
   */
  ghost function ResponseStats(op: Option<string>, tables: set<string>, code: nat,
                               body: string, parse: string -> Document): seq<Stat>
  {
    OperationStats(op, code) + TableStats(tables, code) + BodyStats(tables, code, body, parse)
  }

  /** What the request path charges: only a malformed non-empty body is counted. */
  function RequestStats(body: string, parse: string -> Document): seq<Stat>
  {
    if body != [] && parse(body).Malformed? then [InvalidReqBody] else []
  }

  /** The tables once the request body is read: the first body that names tables wins. */
  function NextTables(current: Option<set<string>>, body: string, parse: string -> Document): Option<set<string>>
  {
    if current.Some? || body == [] then current else RequestTables(parse(body))
  }

  // ---------------------------------------------------------------------
  // From stats to store events
  // ---------------------------------------------------------------------

  function EventOf(prefix: string, st: Stat): Event
  {
    if st.IsTiming() then Timing(Render(prefix, st)) else Counter(Render(prefix, st))
  }

  /** The store events of charging `stats` in order. */
  function EventsOf(prefix: string, stats: seq<Stat>): (r: seq<Event>)
    ensures |r| == |stats|
  {
    if stats == [] then [] else [EventOf(prefix, stats[0])] + EventsOf(prefix, stats[1..])
  }

  lemma {:induction false} EventsOfIndex(prefix: string, stats: seq<Stat>, i: nat)
    requires i < |stats|
    ensures EventsOf(prefix, stats)[i] == EventOf(prefix, stats[i])
  {
    if i > 0 {
      EventsOfIndex(prefix, stats[1..], i - 1);
    }
  }

  lemma {:induction false} EventsOfAppend(prefix: string, a: seq<Stat>, b: seq<Stat>)
    ensures EventsOf(prefix, a + b) == EventsOf(prefix, a) + EventsOf(prefix, b)
  {
    if a == [] {
      assert a + b == b;
    } else {
      assert (a + b)[0] == a[0] && (a + b)[1..] == a[1..] + b;
      EventsOfAppend(prefix, a[1..], b);
    }
  }

  lemma AppendAssociates<T>(a: seq<T>, b: seq<T>, c: seq<T>)
    ensures (a + b) + c == a + (b + c)
  {
  }

  /** Charging one more stat after a prefix of a list adds that stat's event. */
  lemma EventsOfSnoc(prefix: string, stats: seq<Stat>, k: nat)
    requires k < |stats|
    ensures EventsOf(prefix, stats[..k + 1]) == EventsOf(prefix, stats[..k]) + [EventOf(prefix, stats[k])]
  {
    assert stats[..k + 1] == stats[..k] + [stats[k]];
    EventsOfAppend(prefix, stats[..k], [stats[k]]);
  }

  /** Events that match a prefix of `p`, followed by the event of the next stat, match a longer prefix. */
  lemma ChargedOneMore(prefix: string, before: seq<Event>, p: seq<Stat>, k: nat, events: seq<Event>)
    requires k < |p|
    requires events == (before + EventsOf(prefix, p[..k])) + [EventOf(prefix, p[k])]
    ensures events == before + EventsOf(prefix, p[..k + 1])
  {
    EventsOfSnoc(prefix, p, k);
    AppendAssociates(before, EventsOf(prefix, p[..k]), [EventOf(prefix, p[k])]);
  }

  /** Charging one list and then another charges their concatenation. */
  lemma ChargedBoth(prefix: string, before: seq<Event>, a: seq<Stat>, b: seq<Stat>, events: seq<Event>)
    requires events == (before + EventsOf(prefix, a)) + EventsOf(prefix, b)
    ensures events == before + EventsOf(prefix, a + b)
  {
    EventsOfAppend(prefix, a, b);
    AppendAssociates(before, EventsOf(prefix, a), EventsOf(prefix, b));
  }

  /** Every event of a report comes from one of its stats. */
  lemma EventsOfMember(prefix: string, stats: seq<Stat>, e: Event)
    requires e in EventsOf(prefix, stats)
    ensures exists s :: s in stats && EventOf(prefix, s) == e
  {
    var i :| 0 <= i < |stats| && EventsOf(prefix, stats)[i] == e;
    EventsOfIndex(prefix, stats, i);
  }

  /** A sequence in which `s[k]` occurs only at `k` holds it once. */
  lemma {:induction false} OccursOnce<T>(s: seq<T>, k: nat)
    requires k < |s|
    requires forall i :: 0 <= i < |s| && s[i] == s[k] ==> i == k
    ensures multiset(s)[s[k]] == 1
  {
    var x := s[k];
    if k == |s| - 1 {
      assert s == s[..k] + [x];
      assert x !in s[..k];
    } else {
      var init := s[..|s| - 1];
      assert s == init + [s[|s| - 1]];
      assert init[k] == x;
      OccursOnce(init, k);
    }
  }

  /** How often the store sees `e` when `stats` are charged. */
  function Seen(prefix: string, stats: seq<Stat>, e: Event): nat
  {
    multiset(EventsOf(prefix, stats))[e]
  }

  lemma SeenAppend(prefix: string, a: seq<Stat>, b: seq<Stat>, e: Event)
    ensures Seen(prefix, a + b, e) == Seen(prefix, a, e) + Seen(prefix, b, e)
  {
    EventsOfAppend(prefix, a, b);
  }

  /**
   * When no other stat of `stats` is rendered to the same event as `st`, the
   * store sees that event exactly as often as `st` is charged.
   */
  lemma {:induction false} CountByUniqueName(prefix: string, stats: seq<Stat>, st: Stat)
    requires forall s :: s in stats && EventOf(prefix, s) == EventOf(prefix, st) ==> s == st
    ensures Seen(prefix, stats, EventOf(prefix, st)) == multiset(stats)[st]
  {
    if stats != [] {
      assert stats == [stats[0]] + stats[1..];
      CountByUniqueName(prefix, stats[1..], st);
    }
  }

  /** An event that no stat of `stats` renders to is not seen. */
  lemma NotSeen(prefix: string, stats: seq<Stat>, e: Event)
    requires forall s :: s in stats ==> EventOf(prefix, s) != e
    ensures Seen(prefix, stats, e) == 0
  {
    if e in EventsOf(prefix, stats) {
      EventsOfMember(prefix, stats, e);
    }
  }

  /**
   * Every name the filter hands the store is the configured prefix, then
   * `dynamodb.`, then the relative name of one of the charged stats.
   */
  lemma NamesUnderPrefix(configured: string, stats: seq<Stat>, e: Event)
    requires e in EventsOf(FilterPrefix(configured), stats)
    ensures configured + "dynamodb." <= e.name
    ensures exists s :: s in stats && e.name[|configured| + 9..] == Relative(s)
  {
    EventsOfMember(FilterPrefix(configured), stats, e);
    var s :| s in stats && EventOf(FilterPrefix(configured), s) == e;
    assert e.name == FilterPrefix(configured) + Relative(s);
  }

  // ---------------------------------------------------------------------
  // Names that cannot clash
  // ---------------------------------------------------------------------

  /** The bucket suffixes of one status are pairwise different. */
  lemma BucketSuffixInjective(a: Bucket, b: Bucket, code: nat)
    requires BucketSuffix(a, code) == BucketSuffix(b, code)
    ensures a == b
  {
    var g, n := BucketSuffix(Family, code), BucketSuffix(Exact, code);
    if 200 <= code < 600 {
      ThreeDigits(code);
      assert g[2] == 'x' && IsDigit(n[2]);
    } else {
      assert |g| == 1 && |n| >= 2;
    }
  }

  /** Two points of one scope, key and status render alike only if they are the same point. */
  lemma PointNameUnique(prefix: string, s: Stat, t: Stat)
    requires s.RqTotal? || s.RqTime?
    requires t.RqTotal? || t.RqTime?
    requires s.scope == t.scope && s.key == t.key && s.status == t.status
    requires EventOf(prefix, s) == EventOf(prefix, t)
    ensures s == t
  {
    assert s.IsTiming() == t.IsTiming();
    var head := ScopeName(s.scope) + "." + s.key;
    var rs, rt := Relative(s), Relative(t);
    assert rs == Render(prefix, s)[|prefix|..] && rt == Render(prefix, t)[|prefix|..];
    var tail := if s.IsTiming() then ".upstream_rq_time" else ".upstream_rq_total";
    assert rs == head + tail + BucketSuffix(s.bucket, s.status);
    assert rt == head + tail + BucketSuffix(t.bucket, t.status);
    assert rs[|head + tail|..] == BucketSuffix(s.bucket, s.status);
    assert rt[|head + tail|..] == BucketSuffix(t.bucket, t.status);
    BucketSuffixInjective(s.bucket, t.bucket, s.status);
  }

  predicate InScope(s: Stat, scope: Scope)
  {
    (s.RqTotal? || s.RqTime?) && s.scope == scope
  }

  /** Names of different scopes never coincide. */
  lemma ScopesApart(prefix: string, s: Stat, point: Stat)
    requires point.RqTotal? || point.RqTime?
    requires !InScope(s, point.scope)
    ensures EventOf(prefix, s) != EventOf(prefix, point)
  {
    if EventOf(prefix, s) == EventOf(prefix, point) {
      assert Relative(s) == Render(prefix, s)[|prefix|..];
      assert Relative(point) == Render(prefix, point)[|prefix|..];
      TableScopedIff(s);
      TableScopedIff(point);
      OperationScopedIff(s);
      OperationScopedIff(point);
    }
  }

  /** A total or timing never shares its name with an error counter. */
  lemma PointApartFromErrors(prefix: string, point: Stat, st: Stat)
    requires point.RqTotal? || point.RqTime?
    requires st.ErrorType? || st.UnprocessedKeys?
    ensures EventOf(prefix, point) != EventOf(prefix, st)
  {
    if EventOf(prefix, point) == EventOf(prefix, st) {
      assert Relative(point) == Render(prefix, point)[|prefix|..];
      assert Relative(st) == Render(prefix, st)[|prefix|..];
      RelativeShape(point);
      RelativeShape(st);
    }
  }

  /** A point is not seen among stats none of which is in its scope. */
  lemma NotSeenOutsideScope(prefix: string, stats: seq<Stat>, point: Stat)
    requires point.RqTotal? || point.RqTime?
    requires forall s :: s in stats ==> !InScope(s, point.scope)
    ensures Seen(prefix, stats, EventOf(prefix, point)) == 0
  {
    forall s | s in stats ensures EventOf(prefix, s) != EventOf(prefix, point) {
      ScopesApart(prefix, s, point);
    }
    NotSeen(prefix, stats, EventOf(prefix, point));
  }

  /** A fixed name is seen exactly as often as its stat is charged. */
  lemma FixedSeen(prefix: string, stats: seq<Stat>, f: Stat)
    requires f.IsFixed()
    ensures Seen(prefix, stats, EventOf(prefix, f)) == multiset(stats)[f]
  {
    forall s | s in stats && EventOf(prefix, s) == EventOf(prefix, f) ensures s == f {
      FixedNameUnique(prefix, s, f);
    }
    CountByUniqueName(prefix, stats, f);
  }

  /** Every member of a point's six shares its scope, key and status. */
  lemma SixPointsShape(scope: Scope, key: string, code: nat, s: Stat)
    requires s in SixPoints(scope, key, code)
    ensures (s.RqTotal? || s.RqTime?) && s.scope == scope && s.key == key && s.status == code
  {
  }

  /** Each point occurs once among its own six. */
  lemma PointOnceInSix(point: Stat)
    requires point.RqTotal? || point.RqTime?
    ensures multiset(SixPoints(point.scope, point.key, point.status))[point] == 1
  {
    var p := SixPoints(point.scope, point.key, point.status);
    var k: nat := (if point.RqTime? then 3 else 0) + (match point.bucket case Overall => 0 case Family => 1 case Exact => 2);
    assert p[k] == point;
    OccursOnce(p, k);
  }

  /** A point is seen in its own six exactly once. */
  lemma PointSeenOnceInSix(prefix: string, point: Stat)
    requires point.RqTotal? || point.RqTime?
    ensures Seen(prefix, SixPoints(point.scope, point.key, point.status), EventOf(prefix, point)) == 1
  {
    var p := SixPoints(point.scope, point.key, point.status);
    forall s | s in p && EventOf(prefix, s) == EventOf(prefix, point) ensures s == point {
      SixPointsShape(point.scope, point.key, point.status, s);
      PointNameUnique(prefix, s, point);
    }
    CountByUniqueName(prefix, p, point);
    PointOnceInSix(point);
  }

  // ---------------------------------------------------------------------
  // Where each kind of stat comes from
  // ---------------------------------------------------------------------

  lemma SixPointsInScope(scope: Scope, key: string, code: nat)
    ensures forall s :: s in SixPoints(scope, key, code) ==> InScope(s, scope) && !s.IsFixed()
  {
  }

  lemma UnprocessedOnly(keys: seq<string>)
    ensures forall s :: s in UnprocessedStats(keys) ==> s.UnprocessedKeys?
  {
  }

  /** The body part holds only invalid_resp_body, error types and batch failures. */
  lemma BodyKinds(tables: set<string>, code: nat, body: string, parse: string -> Document)
    ensures forall s :: s in BodyStats(tables, code, body, parse) ==>
              s == InvalidRespBody || s.ErrorType? || s.UnprocessedKeys?
  {
    if body != [] && parse(body).Object? {
      UnprocessedOnly(parse(body).unprocessedKeys.GetOr([]));
    }
  }

  lemma TableOutsideOperation(tables: set<string>, code: nat)
    ensures forall s :: s in TableStats(tables, code) ==> !InScope(s, Operation)
  {
    if |tables| == 1 {
      SixPointsInScope(Table, Only(tables), code);
    }
  }

  lemma OperationFixed(op: Option<string>, code: nat, f: Stat)
    requires f.IsFixed()
    ensures multiset(OperationStats(op, code))[f] == if op.None? && f == OperationMissing then 1 else 0
  {
    if op.Some? {
      SixPointsInScope(Operation, op.value, code);
    }
  }

  lemma TableFixed(tables: set<string>, code: nat, f: Stat)
    requires f.IsFixed()
    ensures multiset(TableStats(tables, code))[f]
              == if (|tables| == 0 && f == TableMissing) || (|tables| > 1 && f == MultipleTables) then 1 else 0
  {
    if |tables| == 1 {
      SixPointsInScope(Table, Only(tables), code);
    }
  }

  lemma BodyFixed(tables: set<string>, code: nat, body: string, parse: string -> Document, f: Stat)
    requires f.IsFixed()
    ensures multiset(BodyStats(tables, code, body, parse))[f]
              == if body != [] && parse(body).Malformed? && f == InvalidRespBody then 1 else 0
  {
    BodyKinds(tables, code, body, parse);
    if !(body != [] && parse(body).Malformed?) {
      assert f !in BodyStats(tables, code, body, parse);
    }
  }

  // ---------------------------------------------------------------------
  // From the request body to the report
  // ---------------------------------------------------------------------

  /**
   * A request body with a top-level `TableName` makes that the stream's one
   * table, and the report then charges each of its six points exactly once.
   */
  lemma TableNameCharged(prefix: string, op: Option<string>, request: string, code: nat,
                         body: string, parse: string -> Document, point: Stat)
    requires request != [] && parse(request).Object? && parse(request).tableName.Some?
    requires point.RqTotal? || point.RqTime?
    requires point.scope == Table && point.key == parse(request).tableName.value && point.status == code
    ensures NextTables(None, request, parse) == Some({point.key})
    ensures Seen(prefix, ResponseStats(op, NextTables(None, request, parse).value, code, body, parse), EventOf(prefix, point)) == 1
  {
    OnlyIsTheMember({point.key}, point.key);
    TablePointsOnce(prefix, op, {point.key}, code, body, parse, point);
  }

  /**
   * A request body whose `RequestItems` lists two different tables (and no
   * `TableName`) makes the stream a batch: the report charges
   * `multiple_tables` once, `table_missing` never.
   */
  lemma RequestItemsBatch(prefix: string, op: Option<string>, request: string, code: nat,
                          body: string, parse: string -> Document, a: string, b: string)
    requires request != [] && parse(request).Object? && parse(request).tableName.None?
    requires parse(request).requestItems.Some?
    requires a in parse(request).requestItems.value && b in parse(request).requestItems.value && a != b
    ensures NextTables(None, request, parse).Some?
    ensures var tables := NextTables(None, request, parse).value;
            Seen(prefix, ResponseStats(op, tables, code, body, parse), Counter(Render(prefix, MultipleTables))) == 1 &&
            Seen(prefix, ResponseStats(op, tables, code, body, parse), Counter(Render(prefix, TableMissing))) == 0
  {
    var tables := NextTables(None, request, parse).value;
    assert a in tables && b in tables;
    var rest := tables - {a};
    assert b in rest;
    assert tables == rest + {a} && a !in rest;
    MissingAndInvalidCounts(prefix, op, tables, code, body, parse, MultipleTables);
    MissingAndInvalidCounts(prefix, op, tables, code, body, parse, TableMissing);
  }

  /**
   * A request body that names no table, because it carries neither field or
   * an empty `RequestItems`, leaves the tables unknown, so that a later body
   * of the stream may still name them; until then the report charges
   * `table_missing` once.
   */
  lemma NoTablesStayUnknown(prefix: string, op: Option<string>, request: string, later: string, code: nat,
                            body: string, parse: string -> Document)
    requires request != [] && parse(request).Object? && parse(request).tableName.None?
    requires parse(request).requestItems.None? || parse(request).requestItems.value == []
    ensures NextTables(None, request, parse) == None
    ensures NextTables(NextTables(None, request, parse), later, parse) == NextTables(None, later, parse)
    ensures Seen(prefix, ResponseStats(op, {}, code, body, parse), Counter(Render(prefix, TableMissing))) == 1
  {
    MissingAndInvalidCounts(prefix, op, {}, code, body, parse, TableMissing);
  }

  // ---------------------------------------------------------------------
  // Properties of the report
  // ---------------------------------------------------------------------

  /**
   * operation_missing, table_missing, multiple_tables and invalid_resp_body
   * each reach the store exactly once when their condition holds and never
   * otherwise; invalid_req_body is never charged at response completion.
   */
  lemma MissingAndInvalidCounts(prefix: string, op: Option<string>, tables: set<string>, code: nat,
                                body: string, parse: string -> Document, f: Stat)
    requires f.IsFixed()
    ensures Seen(prefix, ResponseStats(op, tables, code, body, parse), Counter(Render(prefix, f))) ==
              if || (f == OperationMissing && op.None?)
                 || (f == TableMissing && |tables| == 0)
                 || (f == MultipleTables && |tables| > 1)
                 || (f == InvalidRespBody && body != [] && parse(body).Malformed?)
              then 1 else 0
  {
    var a, b, c := OperationStats(op, code), TableStats(tables, code), BodyStats(tables, code, body, parse);
    assert ResponseStats(op, tables, code, body, parse) == a + b + c;
    FixedSeen(prefix, a + b + c, f);
    OperationFixed(op, code, f);
    TableFixed(tables, code, f);
    BodyFixed(tables, code, body, parse, f);
  }

  /**
   * With a known operation, each of its six points reaches the store exactly
   * once, whatever else the stream charges.
   */
  lemma OperationPointsOnce(prefix: string, o: string, tables: set<string>, code: nat,
                            body: string, parse: string -> Document, point: Stat)
    requires point.RqTotal? || point.RqTime?
    requires point.scope == Operation && point.key == o && point.status == code
    ensures Seen(prefix, ResponseStats(Some(o), tables, code, body, parse), EventOf(prefix, point)) == 1
  {
    var p, b, c := SixPoints(Operation, o, code), TableStats(tables, code), BodyStats(tables, code, body, parse);
    assert ResponseStats(Some(o), tables, code, body, parse) == p + b + c;
    SeenAppend(prefix, p + b, c, EventOf(prefix, point));
    SeenAppend(prefix, p, b, EventOf(prefix, point));
    PointSeenOnceInSix(prefix, point);
    TableOutsideOperation(tables, code);
    NotSeenOutsideScope(prefix, b, point);
    BodyKinds(tables, code, body, parse);
    NotSeenOutsideScope(prefix, c, point);
  }

  /**
   * With exactly one table, each of its six points reaches the store exactly
   * once; they are the operation's six points in the table scope.
   */
  lemma TablePointsOnce(prefix: string, op: Option<string>, tables: set<string>, code: nat,
                        body: string, parse: string -> Document, point: Stat)
    requires |tables| == 1
    requires point.RqTotal? || point.RqTime?
    requires point.scope == Table && point.key == Only(tables) && point.status == code
    ensures Seen(prefix, ResponseStats(op, tables, code, body, parse), EventOf(prefix, point)) == 1
  {
    var a, p, c := OperationStats(op, code), SixPoints(Table, Only(tables), code), BodyStats(tables, code, body, parse);
    var e := EventOf(prefix, point);
    assert ResponseStats(op, tables, code, body, parse) == a + p + c;
    SeenAppend(prefix, a + p, c, e);
    SeenAppend(prefix, a, p, e);
    PointSeenOnceInSix(prefix, point);
    OperationPartApart(prefix, op, code, point);
    BodyPartApart(prefix, tables, code, body, parse, point);
  }

  /** The operation part charges no table-scoped point. */
  lemma OperationPartApart(prefix: string, op: Option<string>, code: nat, point: Stat)
    requires point.RqTotal? || point.RqTime?
    requires point.scope == Table
    ensures Seen(prefix, OperationStats(op, code), EventOf(prefix, point)) == 0
  {
    if op.Some? {
      SixPointsInScope(Operation, op.value, code);
    }
    NotSeenOutsideScope(prefix, OperationStats(op, code), point);
  }

  /** The body part charges no total or timing. */
  lemma BodyPartApart(prefix: string, tables: set<string>, code: nat, body: string, parse: string -> Document, point: Stat)
    requires point.RqTotal? || point.RqTime?
    ensures Seen(prefix, BodyStats(tables, code, body, parse), EventOf(prefix, point)) == 0
  {
    BodyKinds(tables, code, body, parse);
    NotSeenOutsideScope(prefix, BodyStats(tables, code, body, parse), point);
  }

  /** Only table-scoped totals and timings are named below "table.". */
  lemma NotTableName(prefix: string, s: Stat)
    requires !InScope(s, Table)
    ensures !(prefix + "table." <= Render(prefix, s))
  {
    TableScopedIff(s);
  }

  lemma NoTableStatsUnlessSingle(op: Option<string>, tables: set<string>, code: nat,
                                 body: string, parse: string -> Document, s: Stat)
    requires |tables| != 1
    requires s in ResponseStats(op, tables, code, body, parse)
    ensures !InScope(s, Table)
  {
    var a, b, c := OperationStats(op, code), TableStats(tables, code), BodyStats(tables, code, body, parse);
    assert ResponseStats(op, tables, code, body, parse) == a + b + c;
    if op.Some? {
      SixPointsInScope(Operation, op.value, code);
    }
    BodyKinds(tables, code, body, parse);
  }

  /** With no table or several (a batch), no charged name lies below "table.". */
  lemma NoTableNamesUnlessSingle(prefix: string, op: Option<string>, tables: set<string>, code: nat,
                                 body: string, parse: string -> Document, e: Event)
    requires |tables| != 1
    requires e in EventsOf(prefix, ResponseStats(op, tables, code, body, parse))
    ensures !(prefix + "table." <= e.name)
  {
    var r := ResponseStats(op, tables, code, body, parse);
    EventsOfMember(prefix, r, e);
    var s :| s in r && EventOf(prefix, s) == e;
    NoTableStatsUnlessSingle(op, tables, code, body, parse, s);
    NotTableName(prefix, s);
  }

  /** Without an operation, the report charges nothing operation-scoped. */
  lemma NoOperationStatsWithoutOperation(tables: set<string>, code: nat, body: string, parse: string -> Document, s: Stat)
    requires s in ResponseStats(None, tables, code, body, parse)
    ensures !InScope(s, Operation)
  {
    var b, c := TableStats(tables, code), BodyStats(tables, code, body, parse);
    assert ResponseStats(None, tables, code, body, parse) == [OperationMissing] + b + c;
    TableOutsideOperation(tables, code);
    BodyKinds(tables, code, body, parse);
  }

  /**
   * A target that names no operation (no header, or no `.` in it) makes the
   * report name nothing below "operation.".
   */
  lemma NoOperationNamesWithoutOperation(prefix: string, tables: set<string>, code: nat,
                                         body: string, parse: string -> Document, e: Event)
    requires e in EventsOf(prefix, ResponseStats(None, tables, code, body, parse))
    ensures !(prefix + "operation." <= e.name)
  {
    var r := ResponseStats(None, tables, code, body, parse);
    EventsOfMember(prefix, r, e);
    var s :| s in r && EventOf(prefix, s) == e;
    NoOperationStatsWithoutOperation(tables, code, body, parse, s);
    NotOperationName(prefix, s);
  }

  /** Only operation-scoped totals and timings are named below "operation.". */
  lemma NotOperationName(prefix: string, s: Stat)
    requires !InScope(s, Operation)
    ensures !(prefix + "operation." <= Render(prefix, s))
  {
    OperationScopedIff(s);
  }

  lemma {:induction false} UnprocessedCount(keys: seq<string>, k: string)
    ensures multiset(UnprocessedStats(keys))[UnprocessedKeys(k)] == multiset(keys)[k]
  {
    if keys != [] {
      var init := keys[..|keys| - 1];
      assert keys == init + [keys[|keys| - 1]];
      assert UnprocessedStats(keys) == UnprocessedStats(init) + [UnprocessedKeys(keys[|keys| - 1])];
      UnprocessedCount(init, k);
    }
  }

  /** Error counters and batch failures are named apart from every basic stat. */
  lemma BasicApartFromErrors(prefix: string, op: Option<string>, tables: set<string>, code: nat, st: Stat)
    requires st.ErrorType? || st.UnprocessedKeys?
    ensures Seen(prefix, OperationStats(op, code) + TableStats(tables, code), EventOf(prefix, st)) == 0
  {
    var front := OperationStats(op, code) + TableStats(tables, code);
    if op.Some? {
      SixPointsInScope(Operation, op.value, code);
    }
    if |tables| == 1 {
      SixPointsInScope(Table, Only(tables), code);
    }
    forall s | s in front ensures EventOf(prefix, s) != EventOf(prefix, st) {
      if s.IsFixed() {
        if EventOf(prefix, s) == EventOf(prefix, st) {
          FixedNameUnique(prefix, st, s);
        }
      } else {
        PointApartFromErrors(prefix, s, st);
      }
    }
    NotSeen(prefix, front, EventOf(prefix, st));
  }

  /** Batch failures are seen once per occurrence of their table among the keys. */
  lemma UnprocessedSeen(prefix: string, keys: seq<string>, k: string)
    ensures Seen(prefix, UnprocessedStats(keys), EventOf(prefix, UnprocessedKeys(k))) == multiset(keys)[k]
  {
    var u := UnprocessedStats(keys);
    var st := UnprocessedKeys(k);
    UnprocessedOnly(keys);
    forall s | s in u && EventOf(prefix, s) == EventOf(prefix, st) ensures s == st {
      UnprocessedNameInjective(prefix, s.table, k);
    }
    CountByUniqueName(prefix, u, st);
    UnprocessedCount(keys, k);
  }

  /** The report of a parsed body splits into basic stats, error type and batch failures. */
  lemma ReportOfParsedBody(op: Option<string>, tables: set<string>, code: nat, body: string, parse: string -> Document)
    requires body != [] && parse(body).Object?
    ensures ResponseStats(op, tables, code, body, parse)
              == (OperationStats(op, code) + TableStats(tables, code) + ErrorStats(tables, code, parse(body).errorType))
                 + UnprocessedStats(parse(body).unprocessedKeys.GetOr([]))
  {
  }

  /**
   * Each `UnprocessedKeys` key of a parsed response body is reported as a
   * batch failure against that table, whatever the status; on a 2xx response
   * exactly once per occurrence of the key.
   */
  lemma UnprocessedKeysReported(prefix: string, op: Option<string>, tables: set<string>, code: nat,
                                body: string, parse: string -> Document, k: string)
    requires body != [] && parse(body).Object? && parse(body).unprocessedKeys.Some?
    requires k in parse(body).unprocessedKeys.value
    ensures Seen(prefix, ResponseStats(op, tables, code, body, parse), Counter(Render(prefix, UnprocessedKeys(k)))) >= 1
    ensures Is2xx(code) ==>
              Seen(prefix, ResponseStats(op, tables, code, body, parse), Counter(Render(prefix, UnprocessedKeys(k))))
                == multiset(parse(body).unprocessedKeys.value)[k]
  {
    var keys := parse(body).unprocessedKeys.value;
    var basic := OperationStats(op, code) + TableStats(tables, code);
    var err := ErrorStats(tables, code, parse(body).errorType);
    var u := UnprocessedStats(keys);
    var e := EventOf(prefix, UnprocessedKeys(k));
    assert e == Counter(Render(prefix, UnprocessedKeys(k)));
    ReportOfParsedBody(op, tables, code, body, parse);
    SeenAppend(prefix, basic + err, u, e);
    SeenAppend(prefix, basic, err, e);
    UnprocessedSeen(prefix, keys, k);
    if Is2xx(code) {
      assert err == [];
      BasicApartFromErrors(prefix, op, tables, code, UnprocessedKeys(k));
    }
  }

  /** The error counter's name, with `no_table` unless exactly one table is known. */
  lemma ErrorEventName(prefix: string, tables: set<string>, name: string)
    ensures EventOf(prefix, ErrorType(ErrorTable(tables), name))
              == Counter(prefix + ("error." + (if |tables| == 1 then Only(tables) else "no_table") + "." + name))
  {
  }

  /**
   * A non-2xx response whose parsed body carries an error name charges
   * `error.<table>.<name>`, with `no_table` unless exactly one table is
   * known; exactly once unless a batch failure of the same body happens to
   * render to the same name.
   */
  lemma ErrorTypeReported(prefix: string, op: Option<string>, tables: set<string>, code: nat,
                          body: string, parse: string -> Document)
    requires body != [] && parse(body).Object? && !Is2xx(code) && ErrorName(parse(body).errorType).Some?
    ensures var segment := if |tables| == 1 then Only(tables) else "no_table";
              Counter(prefix + ("error." + segment + "." + ErrorName(parse(body).errorType).value))
                in EventsOf(prefix, ResponseStats(op, tables, code, body, parse))
    ensures var st := ErrorType(ErrorTable(tables), ErrorName(parse(body).errorType).value);
            (forall k :: k in parse(body).unprocessedKeys.GetOr([]) ==> Relative(UnprocessedKeys(k)) != Relative(st)) ==>
              Seen(prefix, ResponseStats(op, tables, code, body, parse), EventOf(prefix, st)) == 1
  {
    var doc := parse(body);
    var basic := OperationStats(op, code) + TableStats(tables, code);
    var keys := doc.unprocessedKeys.GetOr([]);
    var st := ErrorType(ErrorTable(tables), ErrorName(doc.errorType).value);
    ReportWithError(op, tables, code, body, parse);
    ErrorEventName(prefix, tables, ErrorName(doc.errorType).value);
    SeenAppend(prefix, basic, [st] + UnprocessedStats(keys), EventOf(prefix, st));
    BasicApartFromErrors(prefix, op, tables, code, st);
    ErrorFirstAmongBatchFailures(prefix, keys, st);
    if forall k :: k in keys ==> Relative(UnprocessedKeys(k)) != Relative(st) {
      ErrorOnceAmongBatchFailures(prefix, keys, st);
    }
  }

  /** With an error name on a non-2xx, the report is the basic stats, the error, then the batch failures. */
  lemma ReportWithError(op: Option<string>, tables: set<string>, code: nat, body: string, parse: string -> Document)
    requires body != [] && parse(body).Object? && !Is2xx(code) && ErrorName(parse(body).errorType).Some?
    ensures ResponseStats(op, tables, code, body, parse)
              == (OperationStats(op, code) + TableStats(tables, code))
                 + ([ErrorType(ErrorTable(tables), ErrorName(parse(body).errorType).value)]
                    + UnprocessedStats(parse(body).unprocessedKeys.GetOr([])))
  {
  }

  /** The error counter leading a list of batch failures is seen there at least once. */
  lemma ErrorFirstAmongBatchFailures(prefix: string, keys: seq<string>, st: Stat)
    ensures Seen(prefix, [st] + UnprocessedStats(keys), EventOf(prefix, st)) >= 1
  {
    SeenAppend(prefix, [st], UnprocessedStats(keys), EventOf(prefix, st));
    assert EventsOf(prefix, [st]) == [EventOf(prefix, st)];
  }

  /** An error counter followed by batch failures of other names is seen once. */
  lemma ErrorOnceAmongBatchFailures(prefix: string, keys: seq<string>, st: Stat)
    requires st.ErrorType?
    requires forall k :: k in keys ==> Relative(UnprocessedKeys(k)) != Relative(st)
    ensures Seen(prefix, [st] + UnprocessedStats(keys), EventOf(prefix, st)) == 1
  {
    var u := UnprocessedStats(keys);
    var e := EventOf(prefix, st);
    SeenAppend(prefix, [st], u, e);
    forall s | s in u ensures EventOf(prefix, s) != e {
      var i :| 0 <= i < |u| && u[i] == s;
      assert s == UnprocessedKeys(keys[i]);
      assert Relative(s) == Render(prefix, s)[|prefix|..];
      assert Relative(st) == Render(prefix, st)[|prefix|..];
    }
    NotSeen(prefix, u, e);
    assert EventsOf(prefix, [st]) == [e];
  }

  /** On a 2xx response, or without an error name in a parsed body, no error type is charged. */
  lemma NoErrorTypeOtherwise(op: Option<string>, tables: set<string>, code: nat,
                             body: string, parse: string -> Document)
    requires Is2xx(code) || body == [] || parse(body).Malformed? || ErrorName(parse(body).errorType).None?
    ensures forall s :: s in ResponseStats(op, tables, code, body, parse) ==> !s.ErrorType?
  {
    var a, b, c := OperationStats(op, code), TableStats(tables, code), BodyStats(tables, code, body, parse);
    assert ResponseStats(op, tables, code, body, parse) == a + b + c;
    if op.Some? {
      SixPointsInScope(Operation, op.value, code);
    }
    if |tables| == 1 {
      SixPointsInScope(Table, Only(tables), code);
    }
    if body != [] && parse(body).Object? {
      UnprocessedOnly(parse(body).unprocessedKeys.GetOr([]));
    }
  }
}
