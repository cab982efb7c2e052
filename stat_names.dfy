/**
 * Pure string pieces of the DynamoDB filter: the split after the last
 * separator (operation and error names), the decimal and family rendering
 * of a response status, and the dotted stat-name builder.
 */
module StatNames {
  import opened Wrappers

  // ---------------------------------------------------------------------
  // Last-separator split
  // ---------------------------------------------------------------------

  /** The index of the last occurrence of `c` in `s`, if it occurs. */
  function LastIndexOf(s: string, c: char): (r: Option<nat>)
    ensures r.Some? ==> r.value < |s| && s[r.value] == c && c !in s[r.value + 1..]
    ensures r.None? <==> c !in s
  {
    if |s| == 0 then None
    else if s[|s| - 1] == c then Some(|s| - 1)
    else
      assert s == s[..|s| - 1] + [s[|s| - 1]];
      var r := LastIndexOf(s[..|s| - 1], c);
      if r.Some? then
        assert s[r.value + 1..] == s[..|s| - 1][r.value + 1..] + [s[|s| - 1]];
        r
      else r
  }

  /** The text after the last `sep`; None when `sep` does not occur. */
  function AfterLast(s: string, sep: char): Option<string>
  {
    match LastIndexOf(s, sep)
    case Some(i) => Some(s[i + 1..])
    case None => None
  }

  /**
   * `AfterLast` yields `r` exactly when `s` is some text, then `sep`, then
   * `r`, and `r` itself holds no `sep`.
   */
  lemma AfterLastIff(s: string, sep: char, r: string)
    ensures AfterLast(s, sep) == Some(r) <==> (sep !in r && exists pre :: s == pre + [sep] + r)
  {
    if AfterLast(s, sep) == Some(r) {
      var i := LastIndexOf(s, sep).value;
      assert s == s[..i] + [sep] + r;
    }
    if sep !in r && exists pre :: s == pre + [sep] + r {
      var pre :| s == pre + [sep] + r;
      AfterLastOfJoin(pre, sep, r);
    }
  }

  /** Splitting `pre + sep + r` at the last `sep` recovers `r` when `r` holds no `sep`. */
  lemma AfterLastOfJoin(pre: string, sep: char, r: string)
    requires sep !in r
    ensures AfterLast(pre + [sep] + r, sep) == Some(r)
  {
    var s := pre + [sep] + r;
    assert s[|pre|] == sep;
    assert s[|pre| + 1..] == r;
  }

  /** No separator, no result. */
  lemma AfterLastAbsent(s: string, sep: char)
    ensures AfterLast(s, sep) == None <==> sep !in s
  {
  }

  // ---------------------------------------------------------------------
  // Decimal rendering of a status code
  // ---------------------------------------------------------------------

  predicate IsDigit(c: char) { '0' <= c <= '9' }

  predicate AllDigits(s: string) { forall i :: 0 <= i < |s| ==> IsDigit(s[i]) }

  function DigitChar(d: nat): (c: char)
    requires d < 10
    ensures IsDigit(c) && (c as int) - ('0' as int) == d
  {
    (('0' as int) + d) as char
  }

  /** The decimal digits of `n`, most significant first, without leading zeros. */
  function NatToString(n: nat): (s: string)
    ensures |s| >= 1 && AllDigits(s)
    ensures s[0] == '0' ==> n == 0
  {
    if n < 10 then [DigitChar(n)] else NatToString(n / 10) + [DigitChar(n % 10)]
  }

  /** The value of a string of decimal digits: the independent reading of `NatToString`. */
  function DecimalValue(s: string): nat
    requires AllDigits(s)
  {
    if |s| == 0 then 0
    else DecimalValue(s[..|s| - 1]) * 10 + ((s[|s| - 1] as int) - ('0' as int))
  }

  /** Reading back the rendered digits gives the number. */
  lemma {:induction false} DecimalRoundTrip(n: nat)
    ensures DecimalValue(NatToString(n)) == n
  {
    if n >= 10 {
      DecimalRoundTrip(n / 10);
      var s := NatToString(n);
      assert s[..|s| - 1] == NatToString(n / 10);
    }
  }

  /** Different numbers render differently. */
  lemma NatToStringInjective(m: nat, n: nat)
    requires NatToString(m) == NatToString(n)
    ensures m == n
  {
    DecimalRoundTrip(m);
    DecimalRoundTrip(n);
  }

  /** A three-digit code renders to exactly three digits, leading with its hundreds. */
  lemma ThreeDigits(code: nat)
    requires 100 <= code < 1000
    ensures |NatToString(code)| == 3 && NatToString(code)[0] == DigitChar(code / 100)
  {
    assert NatToString(code / 10) == NatToString(code / 100) + [DigitChar((code / 10) % 10)];
  }

  // ---------------------------------------------------------------------
  // Status family
  // ---------------------------------------------------------------------

  /** "2xx", "3xx", "4xx" or "5xx" by the status class; empty outside 200..599. */
  function StatusGroup(code: nat): string
  {
    if 200 <= code < 300 then "2xx"
    else if 300 <= code < 400 then "3xx"
    else if 400 <= code < 500 then "4xx"
    else if 500 <= code < 600 then "5xx"
    else ""
  }

  predicate Is2xx(code: nat) { 200 <= code < 300 }

  /**
   * The family of a status in 200..599 is its leading decimal digit followed
   * by "xx"; any other status has no family text.
   */
  lemma StatusGroupIsLeadingDigit(code: nat)
    ensures 200 <= code < 600 ==> StatusGroup(code) == [NatToString(code)[0]] + "xx"
    ensures !(200 <= code < 600) ==> StatusGroup(code) == ""
  {
    if 200 <= code < 600 {
      ThreeDigits(code);
    }
  }

  // ---------------------------------------------------------------------
  // Stat names
  // ---------------------------------------------------------------------

  /** The two entity namespaces that carry per-request totals and timings. */
  datatype Scope = Operation | Table

  /** Which bucket of a total or timing: unconditional, status family, exact status. */
  datatype Bucket = Overall | Family | Exact

  /** One metric the filter can charge, before it is rendered to a dotted name. */
  datatype Stat =
    | RqTotal(scope: Scope, key: string, bucket: Bucket, status: nat)
    | RqTime(scope: Scope, key: string, bucket: Bucket, status: nat)
    | OperationMissing
    | TableMissing
    | MultipleTables
    | InvalidReqBody
    | InvalidRespBody
    | ErrorType(errorTable: Option<string>, error: string)
    | UnprocessedKeys(table: string)
  {
    /** The names that never vary with the stream's facts. */
    predicate IsFixed() {
      OperationMissing? || TableMissing? || MultipleTables? || InvalidReqBody? || InvalidRespBody?
    }

    /** Totals and failures are counters; only request times are timings. */
    predicate IsTiming() { RqTime? }
  }

  function ScopeName(scope: Scope): string
  {
    match scope
    case Operation => "operation"
    case Table => "table"
  }

  function BucketSuffix(bucket: Bucket, status: nat): string
  {
    match bucket
    case Overall => ""
    case Family => "_" + StatusGroup(status)
    case Exact => "_" + NatToString(status)
  }

  /** The name below the filter's own prefix. */
  function Relative(st: Stat): string
  {
    match st
    case RqTotal(scope, key, bucket, status) =>
      ScopeName(scope) + "." + key + ".upstream_rq_total" + BucketSuffix(bucket, status)
    case RqTime(scope, key, bucket, status) =>
      ScopeName(scope) + "." + key + ".upstream_rq_time" + BucketSuffix(bucket, status)
    case OperationMissing => "operation_missing"
    case TableMissing => "table_missing"
    case MultipleTables => "multiple_tables"
    case InvalidReqBody => "invalid_req_body"
    case InvalidRespBody => "invalid_resp_body"
    case ErrorType(table, error) => "error." + table.GetOr("no_table") + "." + error
    case UnprocessedKeys(table) => "error." + table + ".BatchFailureUnprocessedKeys"
  }

  /** The filter's prefix: the configured prefix followed by "dynamodb.". */
  function FilterPrefix(configured: string): (p: string)
    ensures configured <= p && p[|configured|..] == "dynamodb."
  {
    configured + "dynamodb."
  }

  /** The full dotted name handed to the metrics store. */
  function Render(prefix: string, st: Stat): (name: string)
    ensures prefix <= name && name[|prefix|..] == Relative(st)
  {
    prefix + Relative(st)
  }

  /** The leading literal segment that tells the kinds of names apart. */
  function Head(st: Stat): string
  {
    match st
    case RqTotal(scope, _, _, _) => ScopeName(scope) + "."
    case RqTime(scope, _, _, _) => ScopeName(scope) + "."
    case ErrorType(_, _) => "error."
    case UnprocessedKeys(_) => "error."
    case _ => Relative(st)
  }

  lemma HeadIsPrefix(st: Stat)
    ensures Head(st) <= Relative(st)
  {
  }

  /**
   * The first character of a name, and for the two namespaces that share it
   * with a fixed name, the character that follows the namespace word.
   */
  lemma RelativeShape(st: Stat)
    ensures |Relative(st)| >= 7 && |Head(st)| >= 6
    ensures Relative(st)[0] == Head(st)[0]
    ensures (st.RqTotal? || st.RqTime?) && st.scope == Operation ==> Relative(st)[..10] == "operation."
    ensures (st.RqTotal? || st.RqTime?) && st.scope == Table ==> Relative(st)[..6] == "table."
    ensures st.ErrorType? || st.UnprocessedKeys? ==> Relative(st)[..6] == "error."
  {
    HeadIsPrefix(st);
  }

  /**
   * A fixed name (operation_missing, table_missing, multiple_tables,
   * invalid_req_body, invalid_resp_body) is produced by that stat alone,
   * whatever the keys, tables and statuses of the others.
   */
  lemma FixedNameUnique(prefix: string, st: Stat, fixed: Stat)
    requires fixed.IsFixed()
    requires Render(prefix, st) == Render(prefix, fixed)
    ensures st == fixed
  {
    var a, b := Relative(st), Relative(fixed);
    assert a == Render(prefix, st)[|prefix|..];
    RelativeShape(st);
    if st.IsFixed() {
      assert a[0] == b[0] && a[8] == b[8] && a[10] == b[10];
    }
  }

  /** Exactly the table-scoped totals and timings have names below "table.". */
  lemma TableScopedIff(st: Stat)
    ensures "table." <= Relative(st) <==> (st.RqTotal? || st.RqTime?) && st.scope == Table
  {
    RelativeShape(st);
    var r := Relative(st);
    if "table." <= r {
      assert r[0] == 't' && r[5] == '.';
    }
  }

  /** Exactly the operation-scoped totals and timings have names below "operation.". */
  lemma OperationScopedIff(st: Stat)
    ensures "operation." <= Relative(st) <==> (st.RqTotal? || st.RqTime?) && st.scope == Operation
  {
    RelativeShape(st);
    var r := Relative(st);
    if "operation." <= r {
      assert r[0] == 'o' && r[9] == '.';
    }
  }

  /** Batch-failure names tell their tables apart. */
  lemma UnprocessedNameInjective(prefix: string, a: string, b: string)
    requires Render(prefix, UnprocessedKeys(a)) == Render(prefix, UnprocessedKeys(b))
    ensures a == b
  {
    var ra, rb := Relative(UnprocessedKeys(a)), Relative(UnprocessedKeys(b));
    assert ra == Render(prefix, UnprocessedKeys(a))[|prefix|..];
    assert |a| == |b|;
    assert a == ra[6..6 + |a|];
    assert b == rb[6..6 + |b|];
  }
}
