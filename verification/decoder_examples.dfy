/** The decoding cases of parse_test.go, stated as lemmas about the model. */
module DecoderExamples {
  import opened Wrappers
  import opened GoStrings
  import StrConv
  import opened Bson
  import opened Descriptors
  import opened Decoder
  import opened DecoderProps

  /** The three steps before sort do nothing when their parameters are
      absent. */
  lemma QuietPrefix(d: DataState)
    requires "page" !in d.values && "pageSize" !in d.values && "filter" !in d.values
    ensures ParsePage(d) == Parsed(d, None)
    ensures ParsePageSize(d) == Parsed(d, None)
    ensures ParseFilterDescriptors(d) == Parsed(d, None)
  {
  }

  /** The two steps after sort do nothing when their parameters are absent. */
  lemma QuietSuffix(d: DataState)
    requires "group" !in d.values && "aggregate" !in d.values
    ensures ParseGroupDescriptors(d) == Parsed(d, None)
    ensures ParseAggregateDescriptors(d) == Parsed(d, None)
  {
  }

  /** `page=5` sets Page to 5. */
  lemma PageFive()
    ensures Parse(FromValues(map["page" := "5"])) == Parsed(FromValues(map["page" := "5"]).(page := 5), None)
  {
    var d := FromValues(map["page" := "5"]);
    assert StrConv.Atoi("5") == Some(5);
    var d' := d.(page := 5);
    assert ParsePage(d) == Parsed(d', None);
    assert ParsePageSize(d') == Parsed(d', None);
    assert ParseFilterDescriptors(d') == Parsed(d', None);
    assert ParseSortDescriptors(d') == Parsed(d', None);
    assert ParseGroupDescriptors(d') == Parsed(d', None);
    assert ParseAggregateDescriptors(d') == Parsed(d', None);
  }

  /** `page=one` is an Atoi syntax error. */
  lemma PageWord()
    ensures Parse(FromValues(map["page" := "one"])).error == Some(AtoiSyntax("one"))
  {
    var d := FromValues(map["page" := "one"]);
    assert StrConv.Atoi("one").None? by {
      assert !StrConv.IsDigit('o');
    }
    ParseStopsAtPage(d);
  }

  /** `pageSize=5` sets PageSize to 5. */
  lemma PageSizeFive()
    ensures Parse(FromValues(map["pageSize" := "5"])) == Parsed(FromValues(map["pageSize" := "5"]).(pageSize := 5), None)
  {
    var d := FromValues(map["pageSize" := "5"]);
    assert StrConv.Atoi("5") == Some(5);
    var d' := d.(pageSize := 5);
    assert ParsePage(d) == Parsed(d, None);
    assert ParsePageSize(d) == Parsed(d', None);
    assert ParseFilterDescriptors(d') == Parsed(d', None);
    assert ParseSortDescriptors(d') == Parsed(d', None);
    assert ParseGroupDescriptors(d') == Parsed(d', None);
    assert ParseAggregateDescriptors(d') == Parsed(d', None);
  }

  /** `pageSize=one` is an Atoi syntax error. */
  lemma PageSizeWord()
    ensures Parse(FromValues(map["pageSize" := "one"])).error == Some(AtoiSyntax("one"))
  {
    var d := FromValues(map["pageSize" := "one"]);
    assert StrConv.Atoi("one").None? by {
      assert !StrConv.IsDigit('o');
    }
    assert ParsePage(d) == Parsed(d, None);
    ParseStopsAtPageSize(d);
  }

  /** parse succeeds with the state its six steps thread through when each
      step succeeds. */
  lemma ParseThrough(d: DataState, d1: DataState, d2: DataState, d3: DataState, d4: DataState, d5: DataState, d6: DataState)
    requires ParsePage(d) == Parsed(d1, None) && ParsePageSize(d1) == Parsed(d2, None)
    requires ParseFilterDescriptors(d2) == Parsed(d3, None) && ParseSortDescriptors(d3) == Parsed(d4, None)
    requires ParseGroupDescriptors(d4) == Parsed(d5, None) && ParseAggregateDescriptors(d5) == Parsed(d6, None)
    ensures Parse(d) == Parsed(d6, None)
  {
  }

  /** A `field-dir` token with no "(" and a single "-". */
  lemma PairOf(field: string, dir: string)
    requires '-' !in field && '-' !in dir && '(' !in field && '(' !in dir
    ensures Pair(field + "-" + dir) == Ok((field, dir))
  {
    TwoTokens(field, dir, '-');
  }

  /** Two tokens joined by the separator. */
  lemma TwoTokens(a: string, b: string, sep: char)
    requires sep != '(' && sep !in a && sep !in b && '(' !in a && '(' !in b
    ensures Tokenize(a + [sep] + b, sep) == Ok([a, b])
  {
    assert Join([a, b], sep) == a + [sep] + b;
    TokenizeJoin([a, b], sep);
  }

  /** The query-string literals of the examples, spelled as the pieces the
      decoder cuts them into. Kept apart from the examples: alone these
      facts are cheap, inside a proof that also unfolds the decoder they are
      not. */
  lemma Spellings()
    ensures "firstName-asc" == "firstName" + "-" + "asc"
    ensures "due-sum~total-sum" == "due-sum" + "~" + "total-sum"
    ensures "due-sum" == "due" + "-" + "sum" && "total-sum" == "total" + "-" + "sum"
    ensures "title-asc~due-desc" == "title-asc" + "~" + "due-desc"
    ensures "title-asc" == "title" + "-" + "asc" && "due-desc" == "due" + "-" + "desc"
    ensures "'hello'" == "'" + "hello" + "'" && "'world'" == "'" + "world" + "'"
    ensures "firstName" + "-" + "asc" == "firstName-asc"
  {
  }

  /** The pieces of the examples hold neither separator nor parenthesis. */
  lemma Avoids()
    ensures '-' !in "due" && '-' !in "sum" && '-' !in "total" && '-' !in "title" && '-' !in "asc" && '-' !in "desc"
    ensures '(' !in "due" && '(' !in "sum" && '(' !in "total" && '(' !in "title" && '(' !in "asc" && '(' !in "desc"
    ensures '~' !in "due-sum" && '~' !in "total-sum" && '~' !in "title-asc" && '~' !in "due-desc"
    ensures '(' !in "due-sum" && '(' !in "total-sum" && '(' !in "title-asc" && '(' !in "due-desc"
  {
  }

  /** `sort=firstName-asc`, with and without a rename of firstName. */
  lemma SortExample(replacements: map<string, string>)
    requires replacements == map[] || replacements == map["firstName" := "fName"]
    ensures var d := WithReplacements(FromValues(map["sort" := "firstName-asc"]), replacements);
      Parse(d).state.sort == [SortDescriptor("asc", ReplaceField(replacements, "firstName"))]
  {
    var d := WithReplacements(FromValues(map["sort" := "firstName-asc"]), replacements);
    OnlySort(d.values);
    QuietPrefix(d);
    var d' := d.(sort := [SortDescriptor("asc", ReplaceField(replacements, "firstName"))]);
    SortStep(d);
    QuietSuffix(d');
    ParseThrough(d, d, d, d, d', d', d');
  }

  /** The sort parameter is none of the others. */
  lemma OnlySort(values: map<string, string>)
    requires values == map["sort" := "firstName-asc"]
    ensures "page" !in values && "pageSize" !in values && "filter" !in values
    ensures "group" !in values && "aggregate" !in values
  {
    assert "page"[0] != "sort"[0] && "pageSize"[0] != "sort"[0] && "filter"[0] != "sort"[0];
    assert "group"[0] != "sort"[0] && "aggregate"[0] != "sort"[0];
  }

  lemma SortStep(d: DataState)
    requires d.values == map["sort" := "firstName-asc"] && d.sort == []
    ensures ParseSortDescriptors(d) == Parsed(d.(sort := [SortDescriptor("asc", ReplaceField(d.replacements, "firstName"))]), None)
  {
    SortTokens();
  }

  lemma SortTokens()
    ensures Tokenize("firstName-asc", '-') == Ok(["firstName", "asc"])
  {
    Spellings();
    TwoTokens("firstName", "asc", '-');
  }

  /** `aggregate=due-sum~total-sum`, with and without a rename of due. */
  lemma AggregateExample(replacements: map<string, string>)
    requires replacements == map[] || replacements == map["due" := "unpaid"]
    ensures var d := WithReplacements(FromValues(map["aggregate" := "due-sum~total-sum"]), replacements);
      Parse(d).state.aggregates == [AggregateDescriptor("sum", ReplaceField(replacements, "due")), AggregateDescriptor("sum", "total")]
  {
    var d := WithReplacements(FromValues(map["aggregate" := "due-sum~total-sum"]), replacements);
    QuietPrefix(d);
    assert ParseSortDescriptors(d) == Parsed(d, None);
    assert ParseGroupDescriptors(d) == Parsed(d, None);
    var aggs := [AggregateDescriptor("sum", ReplaceField(replacements, "due")), AggregateDescriptor("sum", "total")];
    assert "total" !in replacements by {
      assert "total"[0] != "due"[0];
    }
    AggregateStep(d);
    ParseThrough(d, d, d, d, d, d, d.(aggregates := aggs));
  }

  lemma AggregateStep(d: DataState)
    requires d.values == map["aggregate" := "due-sum~total-sum"]
    requires "total" !in d.replacements
    ensures ParseAggregateDescriptors(d)
      == Parsed(d.(aggregates := [AggregateDescriptor("sum", ReplaceField(d.replacements, "due")), AggregateDescriptor("sum", "total")]), None)
  {
    AggregateTokens();
    AggregateDecoding(d.replacements);
    assert Get(d.values, "aggregate") == "due-sum~total-sum";
    AggregatesRead(d, ["due-sum", "total-sum"],
      [AggregateDescriptor("sum", ReplaceField(d.replacements, "due")), AggregateDescriptor("sum", "total")]);
  }

  /** An aggregate parameter whose tokens all decode sets Aggregates to
      them. */
  lemma AggregatesRead(d: DataState, tokens: seq<string>, aggregates: seq<AggregateDescriptor>)
    requires Get(d.values, "aggregate") != "" && Tokenize(Get(d.values, "aggregate"), '~') == Ok(tokens)
    requires DecodeAggregates(tokens, d.replacements) == Ok(aggregates)
    ensures ParseAggregateDescriptors(d) == Parsed(d.(aggregates := aggregates), None)
  {
  }

  lemma AggregateTokens()
    ensures Tokenize("due-sum~total-sum", '~') == Ok(["due-sum", "total-sum"])
    ensures Pair("due-sum") == Ok(("due", "sum")) && Pair("total-sum") == Ok(("total", "sum"))
  {
    Spellings();
    Avoids();
    TwoTokens("due-sum", "total-sum", '~');
    PairOf("due", "sum");
    PairOf("total", "sum");
  }

  lemma AggregateDecoding(replacements: map<string, string>)
    requires Pair("due-sum") == Ok(("due", "sum")) && Pair("total-sum") == Ok(("total", "sum"))
    ensures DecodeAggregates(["due-sum", "total-sum"], replacements)
      == Ok([AggregateDescriptor("sum", ReplaceField(replacements, "due")), AggregateDescriptor("sum", ReplaceField(replacements, "total"))])
  {
    TwoAggregates("due-sum", "total-sum", replacements);
  }

  /** Two aggregate tokens whose pieces are known. */
  lemma TwoAggregates(a: string, b: string, replacements: map<string, string>)
    requires Pair(a).Ok? && Pair(b).Ok?
    ensures DecodeAggregates([a, b], replacements)
      == Ok([AggregateDescriptor(Pair(a).value.1, ReplaceField(replacements, Pair(a).value.0)),
             AggregateDescriptor(Pair(b).value.1, ReplaceField(replacements, Pair(b).value.0))])
  {
    var r := DecodeAggregates([a, b], replacements);
    assert AggregateOf([a, b][0], replacements).Ok? && AggregateOf([a, b][1], replacements).Ok?;
    assert r.Ok? && |r.value| == 2;
    assert AggregateOf([a, b][0], replacements) == Ok(r.value[0]) && AggregateOf([a, b][1], replacements) == Ok(r.value[1]);
    assert r.value == [r.value[0], r.value[1]];
  }

  /** Two group tokens whose pieces are known. */
  lemma TwoGroups(a: string, b: string, replacements: map<string, string>)
    requires Pair(a).Ok? && Pair(b).Ok?
    ensures DecodeGroups([a, b], replacements)
      == Ok([GroupDescriptor([], Pair(a).value.1, ReplaceField(replacements, Pair(a).value.0)),
             GroupDescriptor([], Pair(b).value.1, ReplaceField(replacements, Pair(b).value.0))])
  {
    var r := DecodeGroups([a, b], replacements);
    assert GroupOf([a, b][0], replacements).Ok? && GroupOf([a, b][1], replacements).Ok?;
    assert r.Ok? && |r.value| == 2;
    assert GroupOf([a, b][0], replacements) == Ok(r.value[0]) && GroupOf([a, b][1], replacements) == Ok(r.value[1]);
    assert r.value == [r.value[0], r.value[1]];
  }

  /** `group=title-asc~due-desc`, with and without a rename of due. */
  lemma GroupExample(replacements: map<string, string>)
    requires replacements == map[] || replacements == map["due" := "unpaid"]
    ensures var d := WithReplacements(FromValues(map["group" := "title-asc~due-desc"]), replacements);
      Parse(d).state.group == [GroupDescriptor([], "asc", "title"), GroupDescriptor([], "desc", ReplaceField(replacements, "due"))]
  {
    var d := WithReplacements(FromValues(map["group" := "title-asc~due-desc"]), replacements);
    QuietPrefix(d);
    assert ParseSortDescriptors(d) == Parsed(d, None);
    var groups := [GroupDescriptor([], "asc", "title"), GroupDescriptor([], "desc", ReplaceField(replacements, "due"))];
    var d' := d.(group := groups);
    assert "title" !in replacements by {
      assert "title"[0] != "due"[0];
    }
    GroupStep(d);
    assert ParseAggregateDescriptors(d') == Parsed(d', None);
    ParseThrough(d, d, d, d, d, d', d');
  }

  lemma GroupStep(d: DataState)
    requires d.values == map["group" := "title-asc~due-desc"]
    requires "title" !in d.replacements
    ensures ParseGroupDescriptors(d)
      == Parsed(d.(group := [GroupDescriptor([], "asc", "title"), GroupDescriptor([], "desc", ReplaceField(d.replacements, "due"))]), None)
  {
    GroupTokens();
    GroupDecoding(d.replacements);
    assert Get(d.values, "group") == "title-asc~due-desc";
    GroupsRead(d, ["title-asc", "due-desc"],
      [GroupDescriptor([], "asc", "title"), GroupDescriptor([], "desc", ReplaceField(d.replacements, "due"))]);
  }

  /** A group parameter whose tokens all decode sets Group to them. */
  lemma GroupsRead(d: DataState, tokens: seq<string>, groups: seq<GroupDescriptor>)
    requires Get(d.values, "group") != "" && Tokenize(Get(d.values, "group"), '~') == Ok(tokens)
    requires DecodeGroups(tokens, d.replacements) == Ok(groups)
    ensures ParseGroupDescriptors(d) == Parsed(d.(group := groups), None)
  {
  }

  lemma GroupTokens()
    ensures Tokenize("title-asc~due-desc", '~') == Ok(["title-asc", "due-desc"])
    ensures Pair("title-asc") == Ok(("title", "asc")) && Pair("due-desc") == Ok(("due", "desc"))
  {
    Spellings();
    Avoids();
    TwoTokens("title-asc", "due-desc", '~');
    PairOf("title", "asc");
    PairOf("due", "desc");
  }

  lemma GroupDecoding(replacements: map<string, string>)
    requires Pair("title-asc") == Ok(("title", "asc")) && Pair("due-desc") == Ok(("due", "desc"))
    ensures DecodeGroups(["title-asc", "due-desc"], replacements)
      == Ok([GroupDescriptor([], "asc", ReplaceField(replacements, "title")), GroupDescriptor([], "desc", ReplaceField(replacements, "due"))])
  {
    TwoGroups("title-asc", "due-desc", replacements);
  }

  /** The tokens of the parse_test.go filter
      `(title~contains~'hello'~and~firstName~eq~'world')`. */
  const FilterTokens: seq<string> := ["title", "contains", "'hello'", "and", "firstName", "eq", "'world'"]

  lemma FilterTokensPlain()
    ensures forall k :: 0 <= k < |FilterTokens| ==> '~' !in FilterTokens[k] && '(' !in FilterTokens[k] && ')' !in FilterTokens[k]
  {
  }

  /** tokenize strips the parentheses around the joined tokens and splits
      the rest back into them. */
  lemma FilterTokenize()
    ensures Tokenize("(" + Join(FilterTokens, '~') + ")", '~') == Ok(FilterTokens)
  {
    FilterTokensPlain();
    JoinAvoids(FilterTokens, '~', '(');
    JoinAvoids(FilterTokens, '~', ')');
    assert |Join(FilterTokens, '~')| >= 1 by {
      assert Join(FilterTokens, '~') == FilterTokens[0] + "~" + Join(FilterTokens[1..], '~');
    }
    ParenthesisedTokens(Join(FilterTokens, '~'), '~');
    SplitJoin(FilterTokens, '~');
  }

  /** tokenize keeps exactly the text between an outer pair of parentheses. */
  lemma ParenthesisedTokens(inner: string, sep: char)
    requires '(' !in inner && ')' !in inner && |inner| >= 1
    ensures Tokenize("(" + inner + ")", sep) == Ok(Split(inner, sep))
  {
    var s := "(" + inner + ")";
    IndexAt(s, '(', 0);
    assert s[..|s| - 1] == "(" + inner;
    IndexAt(s, ')', |s| - 1);
    assert s[1..|s| - 1] == inner;
  }

  /** `filter=(title~contains~'hello'~and~firstName~eq~'world')` gives two
      conditions joined by "and", with the quotes stripped from the values. */
  lemma FilterExample()
    ensures var d := FromValues(map["filter" := "(" + Join(FilterTokens, '~') + ")"]);
      && ParseFilterDescriptors(d).error.None?
      && ParseFilterDescriptors(d).state.filter == CompositeFilterDescriptor("and", [
        FilterDescriptor("title", false, "contains", Str("hello")),
        FilterDescriptor("firstName", false, "eq", Str("world"))])
  {
    FilterTokenize();
    FilterConditions();
  }

  lemma FilterConditions()
    ensures DecodeFilters(FilterTokens, map[])
      == Ok([FilterDescriptor("title", false, "contains", Str("hello")), FilterDescriptor("firstName", false, "eq", Str("world"))])
  {
    FirstCondition();
    SecondCondition();
    CollectTwo(FilterTokens, map[]);
  }

  lemma FirstCondition()
    ensures FilterAt(FilterTokens, 0, map[]) == Ok(FilterDescriptor("title", false, "contains", Str("hello")))
  {
    Spellings();
    QuotedLiteral("hello");
    FilterAtFields(FilterTokens, 0, map[]);
  }

  lemma SecondCondition()
    ensures FilterAt(FilterTokens, 1, map[]) == Ok(FilterDescriptor("firstName", false, "eq", Str("world")))
  {
    Spellings();
    QuotedLiteral("world");
    FilterAtFields(FilterTokens, 1, map[]);
  }

  /** Seven tokens whose two conditions read well decode to those two. */
  lemma CollectTwo(tokens: seq<string>, replacements: map<string, string>)
    requires |tokens| == 7 && FilterAt(tokens, 0, replacements).Ok? && FilterAt(tokens, 1, replacements).Ok?
    ensures DecodeFilters(tokens, replacements)
      == Ok([FilterAt(tokens, 0, replacements).value, FilterAt(tokens, 1, replacements).value])
  {
    var rs := [FilterAt(tokens, 0, replacements), FilterAt(tokens, 1, replacements)];
    forall j | 0 <= j <= 1
      ensures FilterAt(tokens, j, replacements) == rs[j]
    {
      if j == 0 {
      } else {
        assert j == 1;
      }
    }
    FiltersOfCompleteConditions(tokens, 1, replacements);
    var r := DecodeFilters(tokens, replacements);
    assert r.Ok?;
    assert |r.value| == 2;
    assert r.value == [rs[0].value, rs[1].value];
  }
}
