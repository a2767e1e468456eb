/** filters.go: FilterDescriptor.Filter, which writes the predicate of one
    condition into the `$match` document under the condition's field. */
module Filters {
  import opened Wrappers
  import opened Bson
  import opened Descriptors
  import QuoteMeta

  /** The operators the switch recognises. Any other operator string is
      `Unsupported`, which the switch has no case for. */
  datatype Operator =
    | Eq | Ne | IsNull | IsNotNull
    | Lt | Lte | Gt | Gte
    | StartsWith | EndsWith | Contains | DoesNotContain
    | IsEmpty | IsNotEmpty
    | Unsupported

  /** The wire name of each recognised operator. */
  function OperatorName(op: Operator): string
    requires !op.Unsupported?
  {
    match op
    case Eq => "eq"
    case Ne => "ne"
    case IsNull => "isnull"
    case IsNotNull => "isnotnull"
    case Lt => "lt"
    case Lte => "lte"
    case Gt => "gt"
    case Gte => "gte"
    case StartsWith => "startswith"
    case EndsWith => "endswith"
    case Contains => "contains"
    case DoesNotContain => "doesnotcontain"
    case IsEmpty => "isempty"
    case IsNotEmpty => "isnotempty"
  }

  /** The case of the switch an operator string selects. */
  function ParseOperator(s: string): (op: Operator)
    ensures !op.Unsupported? ==> OperatorName(op) == s
  {
    match s
    case "eq" => Eq
    case "ne" => Ne
    case "isnull" => IsNull
    case "isnotnull" => IsNotNull
    case "lt" => Lt
    case "lte" => Lte
    case "gt" => Gt
    case "gte" => Gte
    case "startswith" => StartsWith
    case "endswith" => EndsWith
    case "contains" => Contains
    case "doesnotcontain" => DoesNotContain
    case "isempty" => IsEmpty
    case "isnotempty" => IsNotEmpty
    case _ => Unsupported
  }

  /** Every recognised operator is selected by its own name, so the operator
      strings and the recognised cases correspond one to one. */
  lemma ParseOperatorName(op: Operator)
    requires !op.Unsupported?
    ensures ParseOperator(OperatorName(op)) == op
  {
  }

  /** The escaped value used by the pattern operators: QuoteMeta of a string
      value, "" for any other value. */
  function EscapedValue(v: Doc): (e: string)
    ensures QuoteMeta.Literal(e)
    ensures v.Str? ==> QuoteMeta.Unquote(e) == v.s
  {
    if v.Str? then
      QuoteMeta.UnquoteQuoteMeta(v.s);
      QuoteMeta.QuoteMeta(v.s)
    else ""
  }

  function Single(k: string, v: Doc): Doc
  {
    Map(map[k := v])
  }

  /** The predicate fragment the switch stores for a condition, or None when
      the operator has no case. A non-string value of `doesnotcontain` is
      stored as it is (see README). */
  function Predicate(f: FilterDescriptor): (p: Option<Doc>)
    ensures p.None? <==> ParseOperator(f.operator).Unsupported?
  {
    var v := f.value;
    var esc := EscapedValue(v);
    match ParseOperator(f.operator)
    case Eq => Some(v)
    case Ne => Some(Single("$ne", v))
    case IsNull => Some(Null)
    case IsNotNull => Some(Single("$ne", Null))
    case Lt => Some(Single("$" + f.operator, v))
    case Lte => Some(Single("$" + f.operator, v))
    case Gt => Some(Single("$" + f.operator, v))
    case Gte => Some(Single("$" + f.operator, v))
    case StartsWith => Some(Map(map["$regex" := Str("^" + esc), "$options" := Str("i")]))
    case EndsWith => Some(Map(map["$regex" := Str(esc + "$"), "$options" := Str("i")]))
    case Contains => Some(Map(map["$regex" := Str(esc), "$options" := Str("i")]))
    case DoesNotContain => Some(Single("$not", if v.Str? then Str(v.s) else v))
    case IsEmpty => Some(Str(""))
    case IsNotEmpty => Some(Single("$ne", Str("")))
    case Unsupported => None
  }

  /** FilterDescriptor.Filter: a recognised operator writes exactly the entry
      of the condition's field; an unrecognised one leaves the document as it
      was. */
  function Filter(f: FilterDescriptor, m: map<string, Doc>): (r: map<string, Doc>)
    ensures ParseOperator(f.operator).Unsupported? ==> r == m
    ensures !ParseOperator(f.operator).Unsupported? ==> r.Keys == m.Keys + {f.field}
    ensures forall k :: k in m && k != f.field ==> k in r && r[k] == m[k]
    ensures f.field in r ==> r[f.field] == (if Predicate(f).Some? then Predicate(f).value else m[f.field])
  {
    match Predicate(f)
    case Some(p) => m[f.field := p]
    case None => m
  }

  /** The shape every pattern operator stores: a `$regex` text and the
      case-insensitive option, nothing else. */
  predicate IsPattern(p: Doc, re: string)
  {
    p == Map(map["$regex" := Str(re), "$options" := Str("i")])
  }

  /** The pattern a pattern operator stores, read off its case. */
  lemma PatternOf(f: FilterDescriptor)
    requires ParseOperator(f.operator) in {StartsWith, EndsWith, Contains}
    ensures var esc := EscapedValue(f.value);
      && (ParseOperator(f.operator) == StartsWith ==> IsPattern(Predicate(f).value, "^" + esc))
      && (ParseOperator(f.operator) == EndsWith ==> IsPattern(Predicate(f).value, esc + "$"))
      && (ParseOperator(f.operator) == Contains ==> IsPattern(Predicate(f).value, esc))
  {
  }

  /** startswith anchors a fully escaped literal at the start: dropping the
      anchor and unescaping gives the value back. */
  lemma StartsWithMatchesLiteral(f: FilterDescriptor)
    requires f.value.Str? && f.operator == "startswith"
    ensures exists re ::
      && IsPattern(Predicate(f).value, re)
      && |re| >= 1 && re[0] == '^' && QuoteMeta.Literal(re[1..]) && QuoteMeta.Unquote(re[1..]) == f.value.s
  {
    ParseOperatorName(StartsWith);
    PatternOf(f);
    AnchoredAtStart(Predicate(f).value, EscapedValue(f.value), f.value.s);
  }

  lemma AnchoredAtStart(p: Doc, esc: string, v: string)
    requires IsPattern(p, "^" + esc) && QuoteMeta.Literal(esc) && QuoteMeta.Unquote(esc) == v
    ensures exists re ::
      && IsPattern(p, re)
      && |re| >= 1 && re[0] == '^' && QuoteMeta.Literal(re[1..]) && QuoteMeta.Unquote(re[1..]) == v
  {
    var re := "^" + esc;
    assert re[1..] == esc;
  }

  /** endswith anchors a fully escaped literal at the end. */
  lemma EndsWithMatchesLiteral(f: FilterDescriptor)
    requires f.value.Str? && f.operator == "endswith"
    ensures exists re ::
      && IsPattern(Predicate(f).value, re)
      && |re| >= 1 && re[|re| - 1] == '$' && QuoteMeta.Literal(re[..|re| - 1])
      && QuoteMeta.Unquote(re[..|re| - 1]) == f.value.s
  {
    ParseOperatorName(EndsWith);
    PatternOf(f);
    AnchoredAtEnd(Predicate(f).value, EscapedValue(f.value), f.value.s);
  }

  lemma AnchoredAtEnd(p: Doc, esc: string, v: string)
    requires IsPattern(p, esc + "$") && QuoteMeta.Literal(esc) && QuoteMeta.Unquote(esc) == v
    ensures exists re ::
      && IsPattern(p, re)
      && |re| >= 1 && re[|re| - 1] == '$' && QuoteMeta.Literal(re[..|re| - 1])
      && QuoteMeta.Unquote(re[..|re| - 1]) == v
  {
    var re := esc + "$";
    assert re[..|re| - 1] == esc;
  }

  /** contains uses the escaped literal without anchors. */
  lemma ContainsMatchesLiteral(f: FilterDescriptor)
    requires f.value.Str? && f.operator == "contains"
    ensures exists re ::
      && IsPattern(Predicate(f).value, re)
      && QuoteMeta.Literal(re) && QuoteMeta.Unquote(re) == f.value.s
  {
    ParseOperatorName(Contains);
    PatternOf(f);
  }

  /** Whether a field value satisfies an equality-style fragment, as MongoDB
      reads one: `{$ne: v}` holds for every value other than v, and a plain
      value holds for itself only. */
  predicate Holds(p: Doc, x: Doc)
  {
    if p.Map? && p.m.Keys == {"$ne"} then x != p.m["$ne"] else x == p
  }

  /** The equality operators select exactly their value, null or "". The
      value is a decoded literal (string, number or time), never an operator
      document. */
  lemma EqualityOperators(f: FilterDescriptor, x: Doc)
    requires f.value.Str? || f.value.Num? || f.value.Time?
    ensures f.operator == "eq" ==> (Holds(Predicate(f).value, x) <==> x == f.value)
    ensures f.operator == "isnull" ==> (Holds(Predicate(f).value, x) <==> x == Null)
    ensures f.operator == "isempty" ==> (Holds(Predicate(f).value, x) <==> x == Str(""))
  {
    if f.operator == "eq" {
      ParseOperatorName(Eq);
    } else if f.operator == "isnull" {
      ParseOperatorName(IsNull);
    } else if f.operator == "isempty" {
      ParseOperatorName(IsEmpty);
    }
  }

  /** ne, isnotnull and isnotempty select exactly the values that eq,
      isnull and isempty reject. */
  lemma NegatedOperators(f: FilterDescriptor, x: Doc)
    requires f.value.Str? || f.value.Num? || f.value.Time?
    ensures f.operator == "ne" ==>
      (Holds(Predicate(f).value, x) <==> !Holds(Predicate(f.(operator := "eq")).value, x))
    ensures f.operator == "isnotnull" ==>
      (Holds(Predicate(f).value, x) <==> !Holds(Predicate(f.(operator := "isnull")).value, x))
    ensures f.operator == "isnotempty" ==>
      (Holds(Predicate(f).value, x) <==> !Holds(Predicate(f.(operator := "isempty")).value, x))
  {
    if f.operator == "ne" {
      ParseOperatorName(Ne);
      EqualityOperators(f.(operator := "eq"), x);
    } else if f.operator == "isnotnull" {
      ParseOperatorName(IsNotNull);
      EqualityOperators(f.(operator := "isnull"), x);
    } else if f.operator == "isnotempty" {
      ParseOperatorName(IsNotEmpty);
      EqualityOperators(f.(operator := "isempty"), x);
    }
  }

  /** The comparison operators store the value under the MongoDB operator of
      the same name; doesnotcontain stores a string value under `$not`, with
      no escaping and no options. */
  lemma OperatorDocuments(f: FilterDescriptor)
    ensures f.operator in {"lt", "lte", "gt", "gte"} ==>
      && Predicate(f).Some? && Predicate(f).value.Map?
      && Predicate(f).value.m.Keys == {"$" + f.operator}
      && Predicate(f).value.m["$" + f.operator] == f.value
    ensures f.operator == "doesnotcontain" && f.value.Str? ==>
      Predicate(f) == Some(Map(map["$not" := f.value]))
  {
  }
}
