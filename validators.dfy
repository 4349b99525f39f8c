/** The value constraints the SLO schema attaches to its fields: the two
    regular expressions, the compliance target range and size list, the
    cardinality of `queries`, and the three string enumerations. The regular
    languages are written out character by character. */
module Validators {

  import opened Wrappers

  predicate IsDigit(c: char) {
    '0' <= c <= '9'
  }

  predicate AllDigits(s: string) {
    forall k | 0 <= k < |s| :: IsDigit(s[k])
  }

  // ---------------------------------------------------------------------------
  // Aggregation: ^(Avg|Min|Max|Sum|(p[5-9][0-9])(\.\d{1,3})?$)$

  const AggregationFunctions: set<string> := {"Avg", "Min", "Max", "Sum"}

  /** The percentile branch: `p`, a digit 5-9, a digit, and optionally a dot
      followed by one to three digits. */
  predicate PercentileMatches(s: string) {
    && (|s| == 3 || 5 <= |s| <= 7)
    && s[0] == 'p'
    && '5' <= s[1] <= '9'
    && IsDigit(s[2])
    && (|s| > 3 ==> s[3] == '.' && AllDigits(s[4..]))
  }

  /** The aggregation validator. */
  predicate AggregationMatches(s: string) {
    s in AggregationFunctions || PercentileMatches(s)
  }

  /** The percentile spelled from its parts; an empty fraction means no
      fractional part. */
  function Percentile(tens: char, ones: char, fraction: string): string {
    ['p', tens, ones] + (if fraction == [] then [] else ['.'] + fraction)
  }

  predicate PercentileParts(tens: char, ones: char, fraction: string) {
    '5' <= tens <= '9' && IsDigit(ones) && |fraction| <= 3 && AllDigits(fraction)
  }

  /** The aggregation validator accepts exactly the four function names and the
      percentiles built from valid parts. */
  lemma AggregationLanguage(s: string)
    ensures AggregationMatches(s) <==>
              || s in AggregationFunctions
              || exists tens, ones, fraction :: PercentileParts(tens, ones, fraction) && s == Percentile(tens, ones, fraction)
  {
    if PercentileMatches(s) {
      var fraction := if |s| > 3 then s[4..] else [];
      assert s == Percentile(s[1], s[2], fraction);
      assert PercentileParts(s[1], s[2], fraction);
    }
    forall tens, ones, fraction | PercentileParts(tens, ones, fraction)
      ensures PercentileMatches(Percentile(tens, ones, fraction))
    {
      var p := Percentile(tens, ones, fraction);
      if fraction != [] {
        assert p[4..] == fraction;
      }
    }
  }

  lemma AggregationExamples()
    ensures AggregationMatches("p95") && AggregationMatches("p99.9") && AggregationMatches("p50.125")
    ensures AggregationMatches("Avg") && AggregationMatches("Sum")
    ensures !AggregationMatches("p42") && !AggregationMatches("p100") && !AggregationMatches("p99.")
    ensures !AggregationMatches("p99.1234") && !AggregationMatches("avg") && !AggregationMatches("P95")
  {
    assert "p99.9"[4..] == "9";
    assert "p50.125"[4..] == "125";
  }

  // ---------------------------------------------------------------------------
  // Aggregation window: ^[0-9]{1,2}(m|h)$

  /** The window validator: one or two digits, then `m` or `h`. */
  predicate WindowMatches(s: string) {
    && 2 <= |s| <= 3
    && AllDigits(s[..|s| - 1])
    && (s[|s| - 1] == 'm' || s[|s| - 1] == 'h')
  }

  function Window(count: string, unit: char): string {
    count + [unit]
  }

  /** The window validator accepts exactly a count of one or two digits followed
      by a unit of minutes or hours. */
  lemma WindowLanguage(s: string)
    ensures WindowMatches(s) <==>
              exists count, unit :: 1 <= |count| <= 2 && AllDigits(count) && (unit == 'm' || unit == 'h') && s == Window(count, unit)
  {
    if WindowMatches(s) {
      assert s == Window(s[..|s| - 1], s[|s| - 1]);
    }
    forall count, unit | 1 <= |count| <= 2 && AllDigits(count) && (unit == 'm' || unit == 'h')
      ensures WindowMatches(Window(count, unit))
    {
      assert Window(count, unit)[..|count|] == count;
    }
  }

  /** The pattern does not bound the window to 1m..1h: zero and 99 hours pass. */
  lemma WindowExamples()
    ensures WindowMatches("1m") && WindowMatches("5m") && WindowMatches("1h")
    ensures WindowMatches("0m") && WindowMatches("99h")
    ensures !WindowMatches("100m") && !WindowMatches("5d") && !WindowMatches("m") && !WindowMatches("5M")
  {
    assert "1m"[..1] == "1";
    assert "5m"[..1] == "5";
    assert "1h"[..1] == "1";
    assert "0m"[..1] == "0";
    assert "99h"[..2] == "99";
  }

  // ---------------------------------------------------------------------------
  // Compliance: target in 0..100, size one of "1d".."14d"

  /** `IntBetween(0, 100)`: both ends included. */
  predicate TargetValid(target: int) {
    0 <= target <= 100
  }

  const ComplianceSizes: seq<string> :=
    ["1d", "2d", "3d", "4d", "5d", "6d", "7d", "8d", "9d", "10d", "11d", "12d", "13d", "14d"]

  /** `StringInSlice(..., false)`: exact, case-sensitive membership. */
  predicate ComplianceSizeValid(size: string) {
    size in ComplianceSizes
  }

  function DecimalDigit(n: nat): char
    requires n < 10
  {
    (48 + n) as char
  }

  /** A count of days below 100 written in decimal followed by `d`. */
  function Days(n: nat): string
    requires n < 100
  {
    (if n < 10 then [DecimalDigit(n)] else [DecimalDigit(n / 10), DecimalDigit(n % 10)]) + "d"
  }

  lemma DaysListed(k: nat)
    requires k < 14
    ensures Days(k + 1) == ComplianceSizes[k]
  {
  }

  /** The compliance size validator accepts exactly one to fourteen days. */
  lemma ComplianceSizeLanguage(size: string)
    ensures ComplianceSizeValid(size) <==> exists n :: 1 <= n <= 14 && size == Days(n)
  {
    if ComplianceSizeValid(size) {
      var k :| 0 <= k < 14 && ComplianceSizes[k] == size;
      DaysListed(k);
    }
    forall n | 1 <= n <= 14
      ensures ComplianceSizeValid(Days(n))
    {
      DaysListed(n - 1);
    }
  }

  lemma ComplianceExamples()
    ensures TargetValid(0) && TargetValid(99) && TargetValid(100)
    ensures !TargetValid(-1) && !TargetValid(101)
    ensures ComplianceSizeValid("1d") && ComplianceSizeValid("7d") && ComplianceSizeValid("14d")
    ensures !ComplianceSizeValid("0d") && !ComplianceSizeValid("15d") && !ComplianceSizeValid("7D")
    ensures !ComplianceSizeValid("07d") && !ComplianceSizeValid("")
  {
  }

  // ---------------------------------------------------------------------------
  // Indicator: cardinality of queries and the three string enumerations

  /** `MinItems: 1, MaxItems: 2` on the `queries` list. */
  predicate QueriesCardinalityValid<T>(queries: seq<T>) {
    1 <= |queries| <= 2
  }

  const QueryGroupTypes: seq<string> := ["Successful", "Unsuccessful", "Total", "Threshold"]
  const Comparisons: seq<string> := ["LessThan", "GreaterThan", "LessThanOrEqual", "GreaterThanOrEqual"]
  const QueryTypes: seq<string> := ["Logs", "Metrics"]

  predicate QueryGroupTypeValid(s: string) {
    s in QueryGroupTypes
  }

  predicate OpValid(s: string) {
    s in Comparisons
  }

  predicate QueryTypeValid(s: string) {
    s in QueryTypes
  }

  /** The roles a query group can play, as tagged variants. */
  datatype QueryGroupType = Successful | Unsuccessful | Total | Threshold

  /** The comparisons an indicator can use, as tagged variants. */
  datatype Op = LessThan | GreaterThan | LessThanOrEqual | GreaterThanOrEqual

  /** The kinds of query an indicator can run, as tagged variants. */
  datatype QueryType = Logs | Metrics

  function QueryGroupTypeName(t: QueryGroupType): (s: string)
    ensures QueryGroupTypeValid(s)
  {
    match t
    case Successful => "Successful"
    case Unsuccessful => "Unsuccessful"
    case Total => "Total"
    case Threshold => "Threshold"
  }

  function OpName(op: Op): (s: string)
    ensures OpValid(s)
  {
    match op
    case LessThan => "LessThan"
    case GreaterThan => "GreaterThan"
    case LessThanOrEqual => "LessThanOrEqual"
    case GreaterThanOrEqual => "GreaterThanOrEqual"
  }

  function QueryTypeName(t: QueryType): (s: string)
    ensures QueryTypeValid(s)
  {
    match t
    case Logs => "Logs"
    case Metrics => "Metrics"
  }

  /** Reads a query group type back from its exact spelling. */
  function ParseQueryGroupType(s: string): (r: Option<QueryGroupType>)
    ensures r.Some? <==> QueryGroupTypeValid(s)
    ensures r.Some? ==> QueryGroupTypeName(r.value) == s
  {
    if s == "Successful" then Some(Successful)
    else if s == "Unsuccessful" then Some(Unsuccessful)
    else if s == "Total" then Some(Total)
    else if s == "Threshold" then Some(Threshold)
    else None
  }

  /** Reads a comparison back from its exact spelling. */
  function ParseOp(s: string): (r: Option<Op>)
    ensures r.Some? <==> OpValid(s)
    ensures r.Some? ==> OpName(r.value) == s
  {
    if s == "LessThan" then Some(LessThan)
    else if s == "GreaterThan" then Some(GreaterThan)
    else if s == "LessThanOrEqual" then Some(LessThanOrEqual)
    else if s == "GreaterThanOrEqual" then Some(GreaterThanOrEqual)
    else None
  }

  /** Reads a query type back from its exact spelling. */
  function ParseQueryType(s: string): (r: Option<QueryType>)
    ensures r.Some? <==> QueryTypeValid(s)
    ensures r.Some? ==> QueryTypeName(r.value) == s
  {
    if s == "Logs" then Some(Logs)
    else if s == "Metrics" then Some(Metrics)
    else None
  }

  /** Each enumeration validator accepts exactly the spellings of its variants,
      and distinct variants are spelled differently. */
  lemma EnumerationsExact()
    ensures forall t: QueryGroupType :: ParseQueryGroupType(QueryGroupTypeName(t)) == Some(t)
    ensures forall op: Op :: ParseOp(OpName(op)) == Some(op)
    ensures forall t: QueryType :: ParseQueryType(QueryTypeName(t)) == Some(t)
  {
  }

  lemma EnumerationExamples()
    ensures QueryGroupTypeValid("Threshold") && !QueryGroupTypeValid("threshold") && !QueryGroupTypeValid("Range")
    ensures OpValid("LessThanOrEqual") && !OpValid("Equal") && !OpValid("lessthan")
    ensures QueryTypeValid("Metrics") && !QueryTypeValid("metrics") && !QueryTypeValid("Traces")
    ensures QueriesCardinalityValid([1]) && QueriesCardinalityValid([1, 2])
    ensures !QueriesCardinalityValid<int>([]) && !QueriesCardinalityValid([1, 2, 3])
  {
  }
}
