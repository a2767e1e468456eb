/** datastate.go: the descriptor records, the DataState they are collected in,
    and the small helpers that derive keys, sort orders and aggregate
    expressions from a descriptor. */
module Descriptors {
  import opened Bson
  import GoStrings

  datatype SortDescriptor = SortDescriptor(dir: string, field: string)

  /** `aggregate` is the kind name as written by the client: "count", "sum",
      "average", "min" or "max" (not checked). */
  datatype AggregateDescriptor = AggregateDescriptor(aggregate: string, field: string)

  /** `aggregates` is carried by the record but never read by the compiler. */
  datatype GroupDescriptor = GroupDescriptor(aggregates: seq<AggregateDescriptor>, dir: string, field: string)

  /** `ignoreCase` is carried by the record but never read by the compiler. */
  datatype FilterDescriptor = FilterDescriptor(field: string, ignoreCase: bool, operator: string, value: Doc)

  datatype CompositeFilterDescriptor = CompositeFilterDescriptor(logic: string, filters: seq<FilterDescriptor>)

  /** `alias` is the source's `As`: the name the joined documents are stored
      under. */
  datatype LookupDescriptor = LookupDescriptor(from: string, localField: string, foreignField: string, alias: string, single: bool)

  /** The query state. `values` holds the first value of each query
      parameter (what url.Values.Get returns); `replacements` and
      `preprocessing` are set by the caller. */
  datatype DataState = DataState(
    page: int,
    pageSize: int,
    filter: CompositeFilterDescriptor,
    group: seq<GroupDescriptor>,
    sort: seq<SortDescriptor>,
    lookup: seq<LookupDescriptor>,
    aggregates: seq<AggregateDescriptor>,
    values: map<string, string>,
    replacements: map<string, string>,
    preprocessing: seq<Doc>)

  /** The zero FilterDescriptor Go's `make` fills a slice with. */
  const ZeroFilter: FilterDescriptor := FilterDescriptor("", false, "", Null)

  /** A DataState holding only the decoded query parameters, every other
      field at its Go zero value. */
  function FromValues(values: map<string, string>): (d: DataState)
    ensures d.values == values
    ensures d.page == 0 && d.pageSize == 0 && d.filter.filters == []
    ensures d.group == [] && d.sort == [] && d.lookup == [] && d.aggregates == []
    ensures d.filter.logic == "" && d.replacements == map[] && d.preprocessing == []
  {
    DataState(0, 0, CompositeFilterDescriptor("", []), [], [], [], [], values, map[], [])
  }

  /** sanitizeKey: the field path with every "." removed. */
  function SanitizeKey(s: string): (k: string)
    ensures '.' !in k
    ensures |k| == |s| - GoStrings.Count(s, '.')
    ensures '.' !in s ==> k == s
  {
    if |s| == 0 then ""
    else
      var rest := SanitizeKey(s[1..]);
      if s[0] == '.' then rest
      else
        assert s == [s[0]] + s[1..];
        [s[0]] + rest
  }

  /** Concatenation of a list of strings. */
  function Concat(parts: seq<string>): string
  {
    if |parts| == 0 then "" else parts[0] + Concat(parts[1..])
  }

  lemma {:induction false} SanitizeKeyAppend(a: string, b: string)
    ensures SanitizeKey(a + b) == SanitizeKey(a) + SanitizeKey(b)
  {
    if |a| == 0 {
      assert a + b == b;
    } else {
      assert (a + b)[1..] == a[1..] + b;
      SanitizeKeyAppend(a[1..], b);
    }
  }

  /** The sanitized key is the dot-separated segments of the path written
      one after the other: dots go, every other character keeps its place. */
  lemma SanitizeKeyIsSegments(s: string)
    ensures SanitizeKey(s) == Concat(GoStrings.Split(s, '.'))
  {
    SanitizeJoin(GoStrings.Split(s, '.'));
  }

  lemma {:induction false} SanitizeJoin(parts: seq<string>)
    requires forall k :: 0 <= k < |parts| ==> '.' !in parts[k]
    ensures SanitizeKey(GoStrings.Join(parts, '.')) == Concat(parts)
  {
    if |parts| == 1 {
      assert Concat(parts) == parts[0] + Concat([]);
    } else if |parts| > 1 {
      SanitizeJoin(parts[1..]);
      SanitizeKeyAppend(parts[0] + ".", GoStrings.Join(parts[1..], '.'));
      SanitizeKeyAppend(parts[0], ".");
    }
  }

  /** A two-segment path "a.b" has the key "ab". */
  lemma DottedPathKey(a: string, b: string)
    requires '.' !in a && '.' !in b
    ensures SanitizeKey(a + "." + b) == a + b
  {
    SanitizeKeyAppend(a, "." + b);
    assert a + "." + b == a + ("." + b);
    assert ("." + b)[1..] == b;
  }

  /** Sanitizing twice changes nothing. */
  lemma SanitizeKeyIdempotent(s: string)
    ensures SanitizeKey(SanitizeKey(s)) == SanitizeKey(s)
  {
  }

  /** Two different paths can share a key, so sanitizeKey is not injective. */
  lemma SanitizeKeyNotInjective()
    ensures SanitizeKey("a.b") == SanitizeKey("ab") && "a.b" != "ab"
  {
    assert SanitizeKey("b") == "b";
    assert SanitizeKey(".b") == "b";
  }

  /** GroupDescriptor.getKey. */
  function GroupKey(g: GroupDescriptor): (k: string)
    ensures '.' !in k
    ensures '.' !in g.field ==> k == g.field
  {
    SanitizeKey(g.field)
  }

  /** AggregateDescriptor.getKey. */
  function AggregateKey(a: AggregateDescriptor): (k: string)
    ensures '.' !in k
    ensures '.' !in a.field ==> k == a.field
  {
    SanitizeKey(a.field)
  }

  /** GroupDescriptor.getSort: -1 for "desc", 1 for every other direction. */
  function SortOrder(g: GroupDescriptor): (r: int)
    ensures r == 1 || r == -1
    ensures r == -1 <==> g.dir == "desc"
  {
    if g.dir == "desc" then -1 else 1
  }

  /** AggregateDescriptor.getAggregate: the engine operator for the kind,
      "$avg" for "average" and "$" + kind otherwise. */
  function AggregateOperator(a: AggregateDescriptor): (op: string)
    ensures |op| >= 1 && op[0] == '$'
    ensures a.aggregate == "average" ==> op == "$avg"
    ensures a.aggregate != "average" ==> op[1..] == a.aggregate
  {
    "$" + (if a.aggregate == "average" then "avg" else a.aggregate)
  }

  /** Two aggregate kinds lower to the same operator exactly when they are
      equal or are "average" and "avg". */
  lemma AggregateOperatorCollision(a: AggregateDescriptor, b: AggregateDescriptor)
    ensures AggregateOperator(a) == AggregateOperator(b)
        <==> a.aggregate == b.aggregate || {a.aggregate, b.aggregate} == {"average", "avg"}
  {
    if AggregateOperator(a) == AggregateOperator(b) && a.aggregate != b.aggregate {
      assert AggregateOperator(a)[1..] == AggregateOperator(b)[1..];
    }
    if {a.aggregate, b.aggregate} == {"average", "avg"} {
      assert a.aggregate in {"average", "avg"};
    }
  }

  /** AggregateDescriptor.getExpression: at the innermost level (`isRoot`) the
      aggregate reads the raw field of the pushed rows; above it, it reads
      the value of the same kind computed one level down. */
  function AggregateExpression(a: AggregateDescriptor, isRoot: bool): (e: string)
    ensures isRoot ==> e == "$items." + a.field
    ensures !isRoot ==> e == "$items.aggregates." + AggregateKey(a) + "." + a.aggregate
  {
    if isRoot then "$items." + a.field
    else "$items.aggregates." + AggregateKey(a) + "." + a.aggregate
  }
}
