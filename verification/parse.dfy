/** parse.go: decoding the query parameters into a DataState.

    The Go methods update the DataState in place and return an error; here
    each step returns the updated state together with the error, if any. A
    Go runtime panic (a slice or index out of range) is the failure `Panic`;
    every step panics before it has assigned anything, so the state that
    comes with a panic is the state the step started from. */
module Decoder {
  import opened Wrappers
  import opened GoStrings
  import StrConv
  import Timestamps
  import opened Bson
  import opened Descriptors

  /** The errors decoding can end with. */
  datatype Failure =
    | AtoiSyntax(num: string)     // strconv.Atoi rejected `num`
    | FloatSyntax(num: string)    // strconv.ParseFloat rejected `num`
    | TimeSyntax(value: string)   // time.Parse rejected `value`
    | Panic                       // a slice or index out of range

  /** A DataState after a decoding step, and the error the step returned. */
  datatype Parsed = Parsed(state: DataState, error: Option<Failure>)

  const TimeLayout: string := Timestamps.Layout

  /** url.Values.Get: the value of a parameter, "" when it is absent. */
  function Get(values: map<string, string>, key: string): (v: string)
    ensures key !in values ==> v == ""
    ensures key in values ==> v == values[key]
  {
    if key in values then values[key] else ""
  }

  /** WithReplacements stores the map and changes nothing else. */
  function WithReplacements(d: DataState, replacements: map<string, string>): (d': DataState)
    ensures d'.replacements == replacements
    ensures d'.(replacements := d.replacements) == d
  {
    d.(replacements := replacements)
  }

  /** WithLookups stores the lookups and changes nothing else. */
  function WithLookups(d: DataState, lookups: seq<LookupDescriptor>): (d': DataState)
    ensures d'.lookup == lookups
    ensures d'.(lookup := d.lookup) == d
  {
    d.(lookup := lookups)
  }

  /** WithPreprocessing stores the stages and changes nothing else. */
  function WithPreprocessing(d: DataState, preprocessing: seq<Doc>): (d': DataState)
    ensures d'.preprocessing == preprocessing
    ensures d'.(preprocessing := d.preprocessing) == d
  {
    d.(preprocessing := preprocessing)
  }

  /** replaceField: one lookup in the rename map, never repeated. */
  function ReplaceField(replacements: map<string, string>, field: string): (r: string)
    ensures field in replacements ==> r == replacements[field]
    ensures field !in replacements ==> r == field
  {
    if field in replacements then replacements[field] else field
  }

  /** What strings.Index returns for the first ")": its byte offset, or -1
      when there is none. */
  function CloseOffset(s: string): (b: int)
    ensures b == -1 <==> ')' !in s
  {
    var j := Index(s, ')');
    if j == -1 then -1 else ByteOffset(s, j)
  }

  /** The guard of tokenize: there is a "(" and the byte offset of the
      first ")" is not 1. */
  predicate Strips(s: string)
  {
    Index(s, '(') != -1 && CloseOffset(s) != 1
  }

  /** The condition under which tokenize slices out of range: the guard
      holds and the first ")" does not come after the "(" (in particular,
      when there is no ")" at all). As "(" is one byte, comparing character
      positions here is comparing byte offsets. */
  predicate TokenizePanics(s: string)
  {
    Strips(s) && Index(s, ')') < Index(s, '(') + 1
  }

  /** tokenize: strips the text up to the first "(" and from the first ")"
      on, then splits on `sep`. The guard compares the byte offset of ")"
      with 1, so a ")" right after one ASCII character disables the
      stripping. */
  function Tokenize(s: string, sep: char): (r: Result<seq<string>, Failure>)
    ensures r.Err? <==> TokenizePanics(s)
    ensures r.Err? ==> r.error == Panic
    ensures r.Ok? ==> |r.value| >= 1 && forall k :: 0 <= k < |r.value| ==> sep !in r.value[k]
  {
    var i := Index(s, '(');
    var j := Index(s, ')');
    if Strips(s) then
      if j < i + 1 then Err(Panic) else Ok(Split(s[i + 1..j], sep))
    else Ok(Split(s, sep))
  }

  /** Without a "(" tokenize is strings.Split: joining the tokens gives the
      input back and there is one more token than separators. */
  lemma TokenizeWithoutParen(s: string, sep: char)
    requires '(' !in s
    ensures Tokenize(s, sep) == Ok(Split(s, sep))
    ensures Join(Tokenize(s, sep).value, sep) == s
    ensures |Tokenize(s, sep).value| == Count(s, sep) + 1
  {
  }

  /** With a "(" followed by a ")" (not at position 1), only the text
      between the first "(" and the first ")" is split. */
  lemma TokenizeBetweenParens(s: string, sep: char)
    requires Index(s, '(') != -1 && Index(s, ')') != -1
    requires Index(s, ')') != 1 || (s[0] as int) >= 0x80
    requires Index(s, '(') < Index(s, ')')
    ensures Tokenize(s, sep).Ok?
    ensures Join(Tokenize(s, sep).value, sep) == s[Index(s, '(') + 1..Index(s, ')')]
  {
    ByteOffsetOne(s, Index(s, ')'));
  }

  /** With ")" second and "(" third, the first character decides: an ASCII
      one puts ")" at byte offset 1, which switches the stripping off; a
      wider one puts it further on, and the slice then runs backwards. */
  lemma TokenizeCloseSecond(c: char, t: string, sep: char)
    requires c != '(' && c != ')'
    ensures Tokenize([c] + ")(" + t, sep).Err? <==> (c as int) >= 0x80
    ensures (c as int) < 0x80 ==> Tokenize([c] + ")(" + t, sep) == Ok(Split([c] + ")(" + t, sep))
  {
    var s := [c] + ")(" + t;
    assert s[0] == c && s[1] == ')' && s[2] == '(';
    IndexAt(s, ')', 1);
    IndexAt(s, '(', 2);
    ByteOffsetOne(s, 1);
  }

  /** "é)(a)" is such a case: "é" takes two bytes, so Go slices s[4:2]. */
  lemma TokenizeAccentPanics()
    ensures Tokenize("\U{e9})(a)", '~') == Err(Panic)
  {
    TokenizeCloseSecond('\U{e9}', "a)", '~');
    assert "\U{e9})(a)" == ['\U{e9}'] + ")(" + "a)";
  }

  /** A "(" without any ")" always makes tokenize slice out of range. */
  lemma TokenizeUnclosedParen(s: string, sep: char)
    requires '(' in s && ')' !in s
    ensures Tokenize(s, sep) == Err(Panic)
  {
  }

  /** toValue: a filter literal. One trailing quote is dropped; a
      `datetime'` prefix introduces a timestamp, an unquoted literal is a
      float, and a quoted one is a string without its leading quote. */
  function ToValue(s: string): (r: Result<Doc, Failure>)
    ensures r.Ok? ==> r.value.Str? || r.value.Num? || r.value.Time?
    ensures r.Ok? && r.value.Time? ==> HasPrefix(s, "datetime'")
    ensures r.Ok? && r.value.Str? ==> HasPrefix(s, "'")
    ensures r.Ok? && r.value.Num? ==> !HasPrefix(s, "'")
    ensures |s| >= 2 && s[0] == '\'' ==> r.Ok? && r.value.Str?
  {
    var t := TrimSuffix(s, "'");
    assert HasPrefix(s, t);
    var d := TrimPrefix(t, "datetime'");
    if d != t then
      assert HasPrefix(t, "datetime'");
      assert s[..|"datetime'"|] == t[..|"datetime'"|];
      match Timestamps.Parse(d)
      case Some(tv) => Ok(Time(tv))
      case None => Err(TimeSyntax(d))
    else if !HasPrefix(t, "'") then
      assert HasPrefix(s, "'") ==> |t| == 0;
      match StrConv.ParseFloat(t)
      case Some(n) => Ok(Num(n))
      case None => Err(FloatSyntax(t))
    else
      assert s[..1] == t[..1];
      Ok(Str(TrimPrefix(t, "'")))
  }

  /** The condition whose tokens start at position 4 * idx. Reading its
      literal token panics when the token list is too short for it. */
  function FilterAt(tokens: seq<string>, idx: nat, replacements: map<string, string>): (r: Result<FilterDescriptor, Failure>)
    requires 4 * idx < |tokens|
    ensures 4 * idx + 2 >= |tokens| ==> r == Err(Panic)
    ensures r.Ok? ==> (r.value.field == ReplaceField(replacements, tokens[4 * idx])
                       && r.value.operator == tokens[4 * idx + 1] && !r.value.ignoreCase)
  {
    var i := 4 * idx;
    if i + 2 >= |tokens| then Err(Panic)
    else
      var value :- ToValue(tokens[i + 2]);
      Ok(FilterDescriptor(ReplaceField(replacements, tokens[i]), false, tokens[i + 1], value))
  }

  /** The results of a loop that stops at its first failure: every value
      when all steps succeed, otherwise the error of the first failing step. */
  function Collect<T, E>(rs: seq<Result<T, E>>): (r: Result<seq<T>, E>)
    ensures r.Ok? <==> forall j :: 0 <= j < |rs| ==> rs[j].Ok?
    ensures r.Ok? ==> |r.value| == |rs| && forall j :: 0 <= j < |rs| ==> rs[j] == Ok(r.value[j])
    ensures r.Err? ==> exists j :: 0 <= j < |rs| && rs[j] == Err(r.error) && forall k :: 0 <= k < j ==> rs[k].Ok?
  {
    if |rs| == 0 then Ok([])
    else
      match rs[0]
      case Err(e) => Err(e)
      case Ok(v) =>
        var rest := Collect(rs[1..]);
        assert forall j :: 1 <= j < |rs| ==> rs[j] == rs[1..][j - 1];
        match rest
        case Err(e) => Err(e)
        case Ok(vs) => Ok([v] + vs)
  }

  /** The number of conditions the loop of parseFilterDescriptors starts:
      one for every `i = 0, 4, 8, ...` below the token count. */
  function Started(nbTokens: nat): (n: nat)
    ensures 4 * n >= nbTokens
    ensures n > 0 ==> 4 * (n - 1) < nbTokens
  {
    (nbTokens + 3) / 4
  }

  /** The loop of parseFilterDescriptors: the conditions it starts, read in
      order, stopping at the first failure. */
  function FiltersFrom(tokens: seq<string>, replacements: map<string, string>): (r: Result<seq<FilterDescriptor>, Failure>)
    ensures r.Ok? ==> |r.value| == Started(|tokens|)
    ensures r.Ok? ==> forall j :: 0 <= j < |r.value| ==> FilterAt(tokens, j, replacements) == Ok(r.value[j])
    ensures r.Err? ==> exists j :: 0 <= j < Started(|tokens|) && FilterAt(tokens, j, replacements) == Err(r.error)
  {
    Collect(seq(Started(|tokens|), j requires 0 <= j < Started(|tokens|) => FilterAt(tokens, j, replacements)))
  }

  /** The Filters slice parseFilterDescriptors builds: `nbTokens / 4 + 1`
      slots, of which the loop fills one per condition it starts; a slot the
      loop does not reach keeps the zero descriptor. */
  function DecodeFilters(tokens: seq<string>, replacements: map<string, string>): (r: Result<seq<FilterDescriptor>, Failure>)
    ensures r.Ok? ==> |r.value| == |tokens| / 4 + 1
    ensures r.Ok? ==> forall j :: Started(|tokens|) <= j < |r.value| ==> r.value[j] == ZeroFilter
  {
    var fs :- FiltersFrom(tokens, replacements);
    var nbFilters := |tokens| / 4 + 1;
    Ok(fs + seq(nbFilters - |fs|, _ => ZeroFilter))
  }

  /** parseFilterDescriptors. */
  function ParseFilterDescriptors(d: DataState): (r: Parsed)
    ensures r.state.(filter := d.filter) == d
    ensures r.error.Some? ==> r.state == d
  {
    var filter := Get(d.values, "filter");
    if filter == "" then Parsed(d, None)
    else
      match Tokenize(filter, '~')
      case Err(e) => Parsed(d, Some(e))
      case Ok(tokens) =>
        match DecodeFilters(tokens, d.replacements)
        case Err(e) => Parsed(d, Some(e))
        case Ok(filters) =>
          var nbFilters := |tokens| / 4 + 1;
          var logic := if nbFilters > 1 then "and" else d.filter.logic;
          Parsed(d.(filter := CompositeFilterDescriptor(logic, filters)), None)
  }

  /** The `field-dir` (or `field-kind`) pieces of one `~` token; reading the
      second piece panics when there is none. */
  function Pair(token: string): (r: Result<(string, string), Failure>)
    ensures r.Err? ==> r.error == Panic
    ensures r.Ok? ==> '-' !in r.value.0 && '-' !in r.value.1
  {
    var pieces :- Tokenize(token, '-');
    if |pieces| < 2 then Err(Panic) else Ok((pieces[0], pieces[1]))
  }

  /** One group descriptor from its `field-dir` token. */
  function GroupOf(token: string, replacements: map<string, string>): (r: Result<GroupDescriptor, Failure>)
    ensures r.Err? <==> Pair(token).Err?
    ensures r.Err? ==> r.error == Panic
    ensures r.Ok? ==> r.value == GroupDescriptor([], Pair(token).value.1, ReplaceField(replacements, Pair(token).value.0))
  {
    var p :- Pair(token);
    Ok(GroupDescriptor([], p.1, ReplaceField(replacements, p.0)))
  }

  /** One aggregate descriptor from its `field-kind` token. */
  function AggregateOf(token: string, replacements: map<string, string>): (r: Result<AggregateDescriptor, Failure>)
    ensures r.Err? <==> Pair(token).Err?
    ensures r.Err? ==> r.error == Panic
    ensures r.Ok? ==> r.value == AggregateDescriptor(Pair(token).value.1, ReplaceField(replacements, Pair(token).value.0))
  {
    var p :- Pair(token);
    Ok(AggregateDescriptor(p.1, ReplaceField(replacements, p.0)))
  }

  /** The loop of parseGroupDescriptors: one group per token, in order. */
  function DecodeGroups(tokens: seq<string>, replacements: map<string, string>): (r: Result<seq<GroupDescriptor>, Failure>)
    ensures r.Ok? ==> |r.value| == |tokens|
    ensures r.Ok? ==> forall k :: 0 <= k < |tokens| ==> GroupOf(tokens[k], replacements) == Ok(r.value[k])
    ensures r.Err? ==> r.error == Panic
  {
    Collect(seq(|tokens|, k requires 0 <= k < |tokens| => GroupOf(tokens[k], replacements)))
  }

  /** The loop of parseAggregateDescriptors: one aggregate per token, in
      order. */
  function DecodeAggregates(tokens: seq<string>, replacements: map<string, string>): (r: Result<seq<AggregateDescriptor>, Failure>)
    ensures r.Ok? ==> |r.value| == |tokens|
    ensures r.Ok? ==> forall k :: 0 <= k < |tokens| ==> AggregateOf(tokens[k], replacements) == Ok(r.value[k])
    ensures r.Err? ==> r.error == Panic
  {
    Collect(seq(|tokens|, k requires 0 <= k < |tokens| => AggregateOf(tokens[k], replacements)))
  }

  /** parseGroupDescriptors. */
  function ParseGroupDescriptors(d: DataState): (r: Parsed)
    ensures r.state.(group := d.group) == d
    ensures r.error.Some? ==> r.state == d && r.error.value == Panic
  {
    var group := Get(d.values, "group");
    if group == "" then Parsed(d, None)
    else
      match Tokenize(group, '~')
      case Err(e) => Parsed(d, Some(e))
      case Ok(tokens) =>
        match DecodeGroups(tokens, d.replacements)
        case Err(e) => Parsed(d, Some(e))
        case Ok(groups) => Parsed(d.(group := groups), None)
  }

  /** parseAggregateDescriptors. */
  function ParseAggregateDescriptors(d: DataState): (r: Parsed)
    ensures r.state.(aggregates := d.aggregates) == d
    ensures r.error.Some? ==> r.state == d && r.error.value == Panic
  {
    var aggregate := Get(d.values, "aggregate");
    if aggregate == "" then Parsed(d, None)
    else
      match Tokenize(aggregate, '~')
      case Err(e) => Parsed(d, Some(e))
      case Ok(tokens) =>
        match DecodeAggregates(tokens, d.replacements)
        case Err(e) => Parsed(d, Some(e))
        case Ok(aggregates) => Parsed(d.(aggregates := aggregates), None)
  }

  /** parseSortDescriptors: the whole parameter is split on "-" only, and at
      most one descriptor is appended. */
  function ParseSortDescriptors(d: DataState): (r: Parsed)
    ensures r.state.(sort := d.sort) == d
    ensures r.error.Some? ==> r.state == d && r.error.value == Panic
    ensures r.error.None? ==> |d.sort| <= |r.state.sort| <= |d.sort| + 1 && r.state.sort[..|d.sort|] == d.sort
  {
    var sort := Get(d.values, "sort");
    if sort == "" then Parsed(d, None)
    else
      match Tokenize(sort, '-')
      case Err(e) => Parsed(d, Some(e))
      case Ok(s) =>
        if |s| >= 2 then
          Parsed(d.(sort := d.sort + [SortDescriptor(s[1], ReplaceField(d.replacements, s[0]))]), None)
        else Parsed(d, None)
  }

  /** parsePage: an empty or missing parameter leaves Page alone; a
      malformed one sets it to 0 (what Atoi returns with its error). */
  function ParsePage(d: DataState): (r: Parsed)
    ensures r.state.(page := d.page) == d
    ensures Get(d.values, "page") == "" ==> r == Parsed(d, None)
    ensures r.error.Some? ==> r.error.value == AtoiSyntax(Get(d.values, "page")) && r.state.page == 0
    ensures Get(d.values, "page") != "" ==> (r.error.None? <==> StrConv.Atoi(Get(d.values, "page")).Some?)
    ensures Get(d.values, "page") != "" && r.error.None? ==> StrConv.Atoi(Get(d.values, "page")) == Some(r.state.page)
  {
    var page := Get(d.values, "page");
    if page == "" then Parsed(d, None)
    else
      match StrConv.Atoi(page)
      case Some(n) => Parsed(d.(page := n), None)
      case None => Parsed(d.(page := 0), Some(AtoiSyntax(page)))
  }

  /** parsePageSize, the same for PageSize. */
  function ParsePageSize(d: DataState): (r: Parsed)
    ensures r.state.(pageSize := d.pageSize) == d
    ensures Get(d.values, "pageSize") == "" ==> r == Parsed(d, None)
    ensures r.error.Some? ==> r.error.value == AtoiSyntax(Get(d.values, "pageSize")) && r.state.pageSize == 0
    ensures Get(d.values, "pageSize") != "" ==> (r.error.None? <==> StrConv.Atoi(Get(d.values, "pageSize")).Some?)
    ensures Get(d.values, "pageSize") != "" && r.error.None? ==> StrConv.Atoi(Get(d.values, "pageSize")) == Some(r.state.pageSize)
  {
    var size := Get(d.values, "pageSize");
    if size == "" then Parsed(d, None)
    else
      match StrConv.Atoi(size)
      case Some(n) => Parsed(d.(pageSize := n), None)
      case None => Parsed(d.(pageSize := 0), Some(AtoiSyntax(size)))
  }

  /** parse: page, page size and filter in that order, stopping at the first
      error; sort, group and aggregates are decoded only after all three
      succeeded. The caller-supplied fields are never touched. */
  function Parse(d: DataState): (r: Parsed)
    ensures r.state.lookup == d.lookup
    ensures r.state.values == d.values
    ensures r.state.replacements == d.replacements
    ensures r.state.preprocessing == d.preprocessing
  {
    var p := ParsePage(d);
    if p.error.Some? then p
    else
      var ps := ParsePageSize(p.state);
      if ps.error.Some? then ps
      else
        var f := ParseFilterDescriptors(ps.state);
        if f.error.Some? then f
        else
          var s := ParseSortDescriptors(f.state);
          if s.error.Some? then s
          else
            var g := ParseGroupDescriptors(s.state);
            if g.error.Some? then g
            else ParseAggregateDescriptors(g.state)
  }
}
