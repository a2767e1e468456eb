/** Properties of the query-string decoder: the shape of the filter list for
    each token count, the order in which parse stops, the independence of
    its steps, and the literal forms toValue reads back. */
module DecoderProps {
  import opened Wrappers
  import opened GoStrings
  import StrConv
  import Timestamps
  import opened Bson
  import opened Descriptors
  import opened Decoder

  /** The descriptor a successful read of condition j holds: the renamed
      field token, the operator token verbatim and the decoded literal. The
      connective token 4 * j + 3 is never read. */
  lemma FilterAtFields(tokens: seq<string>, j: nat, replacements: map<string, string>)
    requires 4 * j + 2 < |tokens|
    ensures FilterAt(tokens, j, replacements).Ok? <==> ToValue(tokens[4 * j + 2]).Ok?
    ensures FilterAt(tokens, j, replacements).Ok? ==>
      FilterAt(tokens, j, replacements).value
        == FilterDescriptor(ReplaceField(replacements, tokens[4 * j]), false, tokens[4 * j + 1], ToValue(tokens[4 * j + 2]).value)
    ensures FilterAt(tokens, j, replacements).Err? ==> FilterAt(tokens, j, replacements).error == ToValue(tokens[4 * j + 2]).error
  {
  }

  /** With 4k + 3 tokens every slot is filled: k + 1 descriptors, one per
      condition, and decoding succeeds exactly when every literal does. */
  lemma FiltersOfCompleteConditions(tokens: seq<string>, k: nat, replacements: map<string, string>)
    requires |tokens| == 4 * k + 3
    ensures DecodeFilters(tokens, replacements).Ok?
        <==> forall j :: 0 <= j <= k ==> FilterAt(tokens, j, replacements).Ok?
    ensures DecodeFilters(tokens, replacements).Ok? ==>
      && |DecodeFilters(tokens, replacements).value| == k + 1
      && forall j :: 0 <= j <= k ==> FilterAt(tokens, j, replacements) == Ok(DecodeFilters(tokens, replacements).value[j])
  {
    assert Started(|tokens|) == k + 1;
    assert |tokens| / 4 + 1 == k + 1;
  }

  /** A literal that does not decode makes the whole filter fail. */
  lemma BadLiteralFailsFilter(tokens: seq<string>, j: nat, replacements: map<string, string>)
    requires 4 * j + 2 < |tokens|
    requires ToValue(tokens[4 * j + 2]).Err?
    ensures DecodeFilters(tokens, replacements).Err?
  {
    FilterAtFields(tokens, j, replacements);
    assert j < Started(|tokens|);
  }

  /** With 4k tokens (k >= 1) the k conditions fill the first k slots and
      the extra slot keeps the zero descriptor, whose empty operator writes
      nothing into the match document. */
  lemma FiltersOfTrailingConnective(tokens: seq<string>, k: nat, replacements: map<string, string>)
    requires |tokens| == 4 * k && k >= 1
    requires DecodeFilters(tokens, replacements).Ok?
    ensures |DecodeFilters(tokens, replacements).value| == k + 1
    ensures DecodeFilters(tokens, replacements).value[k] == ZeroFilter
    ensures forall j :: 0 <= j < k ==> FilterAt(tokens, j, replacements) == Ok(DecodeFilters(tokens, replacements).value[j])
  {
    assert Started(|tokens|) == k;
  }

  /** With 4k + 1 or 4k + 2 tokens the last condition has no literal token,
      so decoding never succeeds; when the earlier conditions decode, the
      failure is the out-of-range read. */
  lemma FiltersOfTruncatedCondition(tokens: seq<string>, k: nat, replacements: map<string, string>)
    requires |tokens| == 4 * k + 1 || |tokens| == 4 * k + 2
    ensures DecodeFilters(tokens, replacements).Err?
    ensures (forall j :: 0 <= j < k ==> FilterAt(tokens, j, replacements).Ok?) ==>
      DecodeFilters(tokens, replacements).error == Panic
  {
    assert Started(|tokens|) == k + 1;
    assert FilterAt(tokens, k, replacements) == Err(Panic);
  }

  /** After a successful filter step the connective is "and" exactly when
      the slot count exceeds one, i.e. when there are at least 4 tokens;
      otherwise the previous connective stays. */
  lemma FilterLogic(d: DataState)
    requires Get(d.values, "filter") != ""
    requires ParseFilterDescriptors(d).error.None?
    ensures Tokenize(Get(d.values, "filter"), '~').Ok?
    ensures var tokens := Tokenize(Get(d.values, "filter"), '~').value;
      && ParseFilterDescriptors(d).state.filter.filters == DecodeFilters(tokens, d.replacements).value
      && (ParseFilterDescriptors(d).state.filter.logic == "and" || ParseFilterDescriptors(d).state.filter.logic == d.filter.logic)
      && (|tokens| >= 4 ==> ParseFilterDescriptors(d).state.filter.logic == "and")
      && (|tokens| < 4 ==> ParseFilterDescriptors(d).state.filter.logic == d.filter.logic)
  {
  }

  /** A failed filter step assigns nothing: Filters and Logic stay. */
  lemma FilterFailureKeepsFilter(d: DataState)
    requires ParseFilterDescriptors(d).error.Some?
    ensures ParseFilterDescriptors(d).state.filter == d.filter
  {
  }

  /** Each step reads only `values`, `replacements` and the field it
      writes: two states that agree on those give the same field and the
      same error. */
  lemma StepsLocal(d: DataState, e: DataState)
    requires d.values == e.values && d.replacements == e.replacements
    ensures d.page == e.page ==> ParsePage(d).state.page == ParsePage(e).state.page && ParsePage(d).error == ParsePage(e).error
    ensures d.pageSize == e.pageSize ==> ParsePageSize(d).state.pageSize == ParsePageSize(e).state.pageSize && ParsePageSize(d).error == ParsePageSize(e).error
    ensures d.filter == e.filter ==> ParseFilterDescriptors(d).state.filter == ParseFilterDescriptors(e).state.filter && ParseFilterDescriptors(d).error == ParseFilterDescriptors(e).error
    ensures d.sort == e.sort ==> ParseSortDescriptors(d).state.sort == ParseSortDescriptors(e).state.sort && ParseSortDescriptors(d).error == ParseSortDescriptors(e).error
    ensures d.group == e.group ==> ParseGroupDescriptors(d).state.group == ParseGroupDescriptors(e).state.group && ParseGroupDescriptors(d).error == ParseGroupDescriptors(e).error
    ensures d.aggregates == e.aggregates ==> ParseAggregateDescriptors(d).state.aggregates == ParseAggregateDescriptors(e).state.aggregates && ParseAggregateDescriptors(d).error == ParseAggregateDescriptors(e).error
  {
    PagingStepsLocal(d, e);
    DescriptorStepsLocal(d, e);
  }

  lemma PagingStepsLocal(d: DataState, e: DataState)
    requires d.values == e.values && d.replacements == e.replacements
    ensures d.page == e.page ==> ParsePage(d).state.page == ParsePage(e).state.page && ParsePage(d).error == ParsePage(e).error
    ensures d.pageSize == e.pageSize ==> ParsePageSize(d).state.pageSize == ParsePageSize(e).state.pageSize && ParsePageSize(d).error == ParsePageSize(e).error
  {
  }

  lemma DescriptorStepsLocal(d: DataState, e: DataState)
    requires d.values == e.values && d.replacements == e.replacements
    ensures d.filter == e.filter ==> ParseFilterDescriptors(d).state.filter == ParseFilterDescriptors(e).state.filter && ParseFilterDescriptors(d).error == ParseFilterDescriptors(e).error
    ensures d.sort == e.sort ==> ParseSortDescriptors(d).state.sort == ParseSortDescriptors(e).state.sort && ParseSortDescriptors(d).error == ParseSortDescriptors(e).error
    ensures d.group == e.group ==> ParseGroupDescriptors(d).state.group == ParseGroupDescriptors(e).state.group && ParseGroupDescriptors(d).error == ParseGroupDescriptors(e).error
    ensures d.aggregates == e.aggregates ==> ParseAggregateDescriptors(d).state.aggregates == ParseAggregateDescriptors(e).state.aggregates && ParseAggregateDescriptors(d).error == ParseAggregateDescriptors(e).error
  {
  }

  /** The steps of parse write disjoint fields, so a successful parse holds
      in each field exactly what that step alone computes from the starting
      state: the order of the steps matters only for which error wins. */
  lemma ParseStepsIndependent(d: DataState)
    requires Parse(d).error.None?
    ensures Parse(d).state.page == ParsePage(d).state.page
    ensures Parse(d).state.pageSize == ParsePageSize(d).state.pageSize
    ensures Parse(d).state.filter == ParseFilterDescriptors(d).state.filter
    ensures Parse(d).state.sort == ParseSortDescriptors(d).state.sort
    ensures Parse(d).state.group == ParseGroupDescriptors(d).state.group
    ensures Parse(d).state.aggregates == ParseAggregateDescriptors(d).state.aggregates
  {
    var p := ParsePage(d);
    var ps := ParsePageSize(p.state);
    var f := ParseFilterDescriptors(ps.state);
    var s := ParseSortDescriptors(f.state);
    var g := ParseGroupDescriptors(s.state);
    StepsLocal(d, p.state);
    StepsLocal(d, ps.state);
    StepsLocal(d, f.state);
    StepsLocal(d, s.state);
    StepsLocal(d, g.state);
  }

  /** parse stops at a malformed page: Page becomes 0 and nothing else is
      decoded. */
  lemma ParseStopsAtPage(d: DataState)
    requires ParsePage(d).error.Some?
    ensures Parse(d) == Parsed(d.(page := 0), Some(AtoiSyntax(Get(d.values, "page"))))
  {
  }

  /** parse stops at a malformed page size, after decoding the page. */
  lemma ParseStopsAtPageSize(d: DataState)
    requires ParsePage(d).error.None? && ParsePageSize(d).error.Some?
    ensures Parse(d) == Parsed(ParsePage(d).state.(pageSize := 0), Some(AtoiSyntax(Get(d.values, "pageSize"))))
  {
    assert ParsePage(d).state.values == d.values;
  }

  /** parse stops at a failing filter: page and page size are decoded, sort,
      group and aggregates are not. */
  lemma ParseStopsAtFilter(d: DataState)
    requires ParsePage(d).error.None? && ParsePageSize(d).error.None?
    requires ParseFilterDescriptors(d).error.Some?
    ensures Parse(d).error == ParseFilterDescriptors(d).error
    ensures Parse(d).state == d.(page := ParsePage(d).state.page, pageSize := ParsePageSize(d).state.pageSize)
  {
    var p := ParsePage(d);
    assert p.state.values == d.values;
    var ps := ParsePageSize(p.state);
    assert ps.state.values == d.values && ps.state.replacements == d.replacements;
  }

  /** tokenize undoes a join when no part holds the separator and no "("
      appears. */
  lemma TokenizeJoin(parts: seq<string>, sep: char)
    requires |parts| >= 1 && sep != '('
    requires forall k :: 0 <= k < |parts| ==> sep !in parts[k] && '(' !in parts[k]
    ensures Tokenize(Join(parts, sep), sep) == Ok(parts)
  {
    JoinAvoids(parts, sep, '(');
    SplitJoin(parts, sep);
  }

  /** Any integer written as a page number becomes the page. */
  lemma PageOfItoa(d: DataState, n: int)
    requires Get(d.values, "page") == StrConv.Itoa(n)
    ensures ParsePage(d) == Parsed(d.(page := n), None)
  {
    ItoaUnquoted(n);
    StrConv.AtoiItoa(n);
  }

  /** Any integer written as a page size becomes the page size. */
  lemma PageSizeOfItoa(d: DataState, n: int)
    requires Get(d.values, "pageSize") == StrConv.Itoa(n)
    ensures ParsePageSize(d) == Parsed(d.(pageSize := n), None)
  {
    ItoaUnquoted(n);
    StrConv.AtoiItoa(n);
  }

  /** A sort parameter `field-dir` appends exactly one descriptor, the
      renamed field with the direction as written, and changes nothing else. */
  lemma SortAppendsPair(d: DataState, field: string, dir: string)
    requires Get(d.values, "sort") == field + "-" + dir
    requires '-' !in field && '-' !in dir && '(' !in field && '(' !in dir
    ensures ParseSortDescriptors(d)
      == Parsed(d.(sort := d.sort + [SortDescriptor(dir, ReplaceField(d.replacements, field))]), None)
  {
    assert Join([field, dir], '-') == field + "-" + dir;
    TokenizeJoin([field, dir], '-');
  }

  /** A sort parameter with no "-" splits into one piece, so it adds
      nothing. */
  lemma SortWithoutDash(d: DataState)
    requires '-' !in Get(d.values, "sort") && '(' !in Get(d.values, "sort")
    ensures ParseSortDescriptors(d) == Parsed(d, None)
  {
    TokenizeWithoutParen(Get(d.values, "sort"), '-');
    CountAbsent(Get(d.values, "sort"), '-');
  }

  /** A quoted literal is a string: toValue drops the closing quote, then the
      opening one. */
  lemma QuotedLiteral(v: string)
    ensures ToValue("'" + v + "'") == Ok(Str(v))
  {
    var s := "'" + v + "'";
    assert TrimSuffix(s, "'") == "'" + v;
    assert ("'" + v)[0] != "datetime'"[0];
  }

  /** A `datetime'...'` literal in the layout 2006-01-02T15-04-05 is the
      timestamp it spells. */
  lemma TimestampLiteral(t: Timestamps.TimeVal)
    requires Timestamps.Valid(t)
    ensures ToValue("datetime'" + Timestamps.Format(t) + "'") == Ok(Time(t))
  {
    var f := Timestamps.Format(t);
    var s := "datetime'" + f + "'";
    assert TrimSuffix(s, "'") == "datetime'" + f;
    assert TrimPrefix("datetime'" + f, "datetime'") == f;
    Timestamps.ParseFormat(t);
  }

  /** An unquoted decimal integer is the float with that value. */
  lemma IntegerLiteral(n: int)
    ensures ToValue(StrConv.Itoa(n)) == Ok(Num(StrConv.Finite(n as real)))
  {
    var s := StrConv.Itoa(n);
    StrConv.AtoiItoa(n);
    StrConv.ParseFloatOfInteger(s);
    ItoaUnquoted(n);
    PlainToken(s);
  }

  /** Itoa starts with a sign or a digit and ends with a digit. */
  lemma ItoaUnquoted(n: int)
    ensures |StrConv.Itoa(n)| >= 1
    ensures StrConv.Itoa(n)[0] == '-' || StrConv.IsDigit(StrConv.Itoa(n)[0])
    ensures StrConv.IsDigit(StrConv.Itoa(n)[|StrConv.Itoa(n)| - 1])
  {
    if n < 0 {
      var d := StrConv.NatToDigits(-n);
      assert StrConv.Itoa(n)[|StrConv.Itoa(n)| - 1] == d[|d| - 1];
    }
  }

  /** A token that neither carries quotes nor starts like a timestamp is
      whatever ParseFloat makes of it. */
  lemma PlainToken(s: string)
    requires |s| >= 1 && s[|s| - 1] != '\'' && s[0] != '\'' && s[0] != 'd'
    ensures ToValue(s) == if StrConv.ParseFloat(s).Some? then Ok(Num(StrConv.ParseFloat(s).value)) else Err(FloatSyntax(s))
  {
    assert !HasSuffix(s, "'") by {
      assert s[|s| - 1..] != "'";
    }
    assert !HasPrefix(s, "'") && !HasPrefix(s, "datetime'") by {
      assert s[..1] != "'";
    }
  }

  /** A `datetime'...'` literal whose timestamp text is not 18 or 19
      characters long is the model's TimeSyntax error naming that text.
      time.Parse itself also accepts a fractional-second suffix after the
      seconds field, which this length rule rejects (see Timestamps.Parse). */
  lemma MalformedTimestamp(d: string)
    requires |d| != 18 && |d| != 19
    ensures ToValue("datetime'" + d + "'") == Err(TimeSyntax(d))
  {
    var s := "datetime'" + d + "'";
    var t := TrimSuffix(s, "'");
    assert HasSuffix(s, "'") by { assert s[|s| - 1..] == "'"; }
    assert t == "datetime'" + d;
    assert HasPrefix(t, "datetime'") by { assert t[..9] == "datetime'"; }
    assert TrimPrefix(t, "datetime'") == d;
  }

  /** An unquoted word that starts with a letter other than d, i or n (in
      either case) is a ParseFloat error: it is neither "inf", "infinity"
      nor "nan", and no decimal starts with a letter. */
  lemma UnquotedWord(s: string)
    requires |s| >= 1 && s[|s| - 1] != '\''
    requires 'a' <= StrConv.Lower(s[0]) <= 'z' && s[0] != 'd'
    requires StrConv.Lower(s[0]) != 'i' && StrConv.Lower(s[0]) != 'n'
    ensures ToValue(s) == Err(FloatSyntax(s))
  {
    assert StrConv.MantissaEnd(s) == 0 by {
      assert !StrConv.IsDigit(s[0]) && s[0] != '.';
    }
    assert StrConv.Decimal(s).None?;
    assert !StrConv.EqualFold(s, "inf") && !StrConv.EqualFold(s, "infinity");
    assert !StrConv.EqualFold(s, "nan");
    PlainToken(s);
  }
}
