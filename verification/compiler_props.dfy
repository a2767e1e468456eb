/** Properties of the pipeline builders: where each join's stages sit, what
    the match document holds, which sort descriptor wins, what the paging
    window covers, and the shape of the data and total pipelines read as a
    sequence of stage operators. */
module CompilerProps {
  import opened Bson
  import opened Descriptors
  import Filters
  import GoStrings
  import Rollup
  import RollupProps
  import opened Compiler

  // ---------------------------------------------------------------------
  // Stage operators

  /** `ops` names the operator of every stage of `p`, in order. */
  predicate Ops(p: seq<Doc>, ops: seq<string>)
  {
    |p| == |ops| && forall k :: 0 <= k < |p| ==> IsStage(p[k], ops[k])
  }

  lemma OpsConcat(p: seq<Doc>, ops: seq<string>, q: seq<Doc>, ops': seq<string>)
    requires Ops(p, ops) && Ops(q, ops')
    ensures Ops(p + q, ops + ops')
  {
    forall k | 0 <= k < |p + q|
      ensures IsStage((p + q)[k], (ops + ops')[k])
    {
      if k >= |p| {
        assert (p + q)[k] == q[k - |p|];
      }
    }
  }

  /** A stage has one operator, so a pipeline holds a stage with operator
      `op` exactly when `op` is among its operators. */
  lemma OpsMember(p: seq<Doc>, ops: seq<string>, op: string)
    requires Ops(p, ops)
    ensures (exists k :: 0 <= k < |p| && IsStage(p[k], op)) <==> op in ops
  {
    if op in ops {
      var k :| 0 <= k < |ops| && ops[k] == op;
      assert IsStage(p[k], op);
    }
    if exists k :: 0 <= k < |p| && IsStage(p[k], op) {
      var k :| 0 <= k < |p| && IsStage(p[k], op);
      assert p[k].m.Keys == {ops[k]} == {op};
      assert ops[k] in {op};
    }
  }

  /** How often `x` occurs in `s`. */
  function Occurrences<T(==)>(s: seq<T>, x: T): (n: nat)
    ensures n <= |s|
  {
    if |s| == 0 then 0
    else Occurrences(s[..|s| - 1], x) + (if s[|s| - 1] == x then 1 else 0)
  }

  lemma {:induction false} OccurrencesConcat<T>(a: seq<T>, b: seq<T>, x: T)
    ensures Occurrences(a + b, x) == Occurrences(a, x) + Occurrences(b, x)
    decreases |b|
  {
    if |b| > 0 {
      assert (a + b)[..|a + b| - 1] == a + b[..|b| - 1];
      OccurrencesConcat(a, b[..|b| - 1], x);
    } else {
      assert a + b == a;
    }
  }

  lemma {:induction false} OccurrencesMember<T>(s: seq<T>, x: T)
    ensures Occurrences(s, x) > 0 <==> x in s
  {
    if |s| > 0 {
      OccurrencesMember(s[..|s| - 1], x);
      assert s == s[..|s| - 1] + [s[|s| - 1]];
    }
  }

  /** `n` copies of `x`. */
  function Repeat<T>(x: T, n: nat): (s: seq<T>)
    ensures |s| == n
    ensures forall k :: 0 <= k < n ==> s[k] == x
  {
    if n == 0 then [] else Repeat(x, n - 1) + [x]
  }

  lemma {:induction false} RepeatCount<T>(x: T, n: nat, y: T)
    ensures Occurrences(Repeat(x, n), y) == if x == y then n else 0
  {
    if n > 0 {
      RepeatCount(x, n - 1, y);
      assert Repeat(x, n)[..n - 1] == Repeat(x, n - 1);
    }
  }

  /** The stages from position b on hold operator `op` exactly when `op`
      occurs among their operators. */
  lemma SuffixHasStage(p: seq<Doc>, b: nat, ops: seq<string>, op: string)
    requires b <= |p| && Ops(p[b..], ops)
    ensures (exists k :: b <= k < |p| && IsStage(p[k], op)) <==> Occurrences(ops, op) > 0
  {
    var tail := p[b..];
    OpsMember(tail, ops, op);
    OccurrencesMember(ops, op);
    if exists k :: b <= k < |p| && IsStage(p[k], op) {
      var k :| b <= k < |p| && IsStage(p[k], op);
      assert tail[k - b] == p[k];
    }
    if exists k :: 0 <= k < |tail| && IsStage(tail[k], op) {
      var k :| 0 <= k < |tail| && IsStage(tail[k], op);
      assert tail[k] == p[k + b];
    }
  }

  /** Concatenation regrouped around its first part. */
  lemma Regroup<T>(a: seq<T>, b: seq<T>, c: seq<T>, d: seq<T>, e: seq<T>, f: seq<T>)
    ensures a + b + c + d + e + f == a + (b + c + d + e + f)
  {
  }

  // ---------------------------------------------------------------------
  // Lookups

  /** The operators of getLookups: "$lookup" per join, each single join
      followed by "$addFields". */
  function LookupOps(ls: seq<LookupDescriptor>): seq<string>
  {
    if |ls| == 0 then []
    else LookupOps(ls[..|ls| - 1]) + JoinOps(ls[|ls| - 1])
  }

  function JoinOps(l: LookupDescriptor): seq<string>
  {
    if l.single then ["$lookup", "$addFields"] else ["$lookup"]
  }

  lemma JoinOpsCount(l: LookupDescriptor, op: string)
    ensures Occurrences(JoinOps(l), op)
      == (if op == "$lookup" then 1 else 0) + (if op == "$addFields" && l.single then 1 else 0)
  {
    if l.single {
      assert JoinOps(l)[..1] == ["$lookup"];
    }
  }

  lemma {:induction false} LookupsOps(ls: seq<LookupDescriptor>)
    ensures Ops(Lookups(ls), LookupOps(ls))
  {
    if |ls| > 0 {
      var l := ls[|ls| - 1];
      LookupsOps(ls[..|ls| - 1]);
      assert Ops(JoinStages(l), JoinOps(l));
      OpsConcat(Lookups(ls[..|ls| - 1]), LookupOps(ls[..|ls| - 1]), JoinStages(l), JoinOps(l));
    }
  }

  /** getLookups emits a `$lookup` per join, an `$addFields` per single
      join, and nothing else. */
  lemma {:induction false} LookupOpsCount(ls: seq<LookupDescriptor>, op: string)
    ensures Occurrences(LookupOps(ls), op)
      == if op == "$lookup" then |ls| else if op == "$addFields" then CountSingle(ls) else 0
  {
    if |ls| > 0 {
      var l := ls[|ls| - 1];
      LookupOpsCount(ls[..|ls| - 1], op);
      JoinOpsCount(l, op);
      OccurrencesConcat(LookupOps(ls[..|ls| - 1]), JoinOps(l), op);
    }
  }

  /** Joins before position k together with the single ones among them. */
  lemma {:induction false} CountSingleBound(ls: seq<LookupDescriptor>, k: nat)
    requires k <= |ls|
    ensures k + CountSingle(ls[..k]) <= |ls| + CountSingle(ls)
  {
    if k < |ls| {
      var init := ls[..|ls| - 1];
      assert ls[..k] == init[..k];
      CountSingleBound(init, k);
    } else {
      assert ls[..k] == ls;
    }
  }

  /** Adding a join keeps the stages of the earlier ones. */
  lemma LookupsKeep(ls: seq<LookupDescriptor>, i: nat)
    requires |ls| > 0 && i < |Lookups(ls[..|ls| - 1])|
    ensures Lookups(ls)[i] == Lookups(ls[..|ls| - 1])[i]
  {
  }

  /** The stages of join k start after the stages of the joins before it. */
  lemma {:induction false} JoinStagesAt(ls: seq<LookupDescriptor>, k: nat, m: nat)
    requires k < |ls| && m < |JoinStages(ls[k])|
    ensures k + CountSingle(ls[..k]) + m < |Lookups(ls)|
    ensures Lookups(ls)[k + CountSingle(ls[..k]) + m] == JoinStages(ls[k])[m]
  {
    var init := ls[..|ls| - 1];
    if k == |ls| - 1 {
      assert ls[..k] == init;
    } else {
      assert ls[..k] == init[..k];
      assert init[k] == ls[k];
      assert init[..k + 1][..k] == init[..k];
      CountSingleBound(init, k + 1);
      JoinStagesAt(init, k, m);
      LookupsKeep(ls, k + CountSingle(ls[..k]) + m);
    }
  }

  /** Join k's `$lookup` stands after the stages of the joins before it,
      and a single join's collapse follows it directly. */
  lemma LookupsAt(ls: seq<LookupDescriptor>, k: nat)
    requires k < |ls|
    ensures var i := k + CountSingle(ls[..k]);
      && i < |Lookups(ls)|
      && Lookups(ls)[i] == LookupStage(ls[k])
      && (ls[k].single ==> i + 1 < |Lookups(ls)| && Lookups(ls)[i + 1] == CollapseStage(ls[k]))
  {
    JoinStagesAt(ls, k, 0);
    if ls[k].single {
      JoinStagesAt(ls, k, 1);
    }
  }

  // ---------------------------------------------------------------------
  // Match

  /** The condition's operator is one the switch knows. */
  predicate Recognised(f: FilterDescriptor)
  {
    !Filters.ParseOperator(f.operator).Unsupported?
  }

  /** The match document has an entry for a field exactly when some
      condition with a known operator names that field. */
  lemma {:induction false} MatchKeys(fs: seq<FilterDescriptor>, field: string)
    ensures field in MatchDoc(fs) <==> exists j :: 0 <= j < |fs| && fs[j].field == field && Recognised(fs[j])
  {
    if |fs| > 0 {
      var init := fs[..|fs| - 1];
      MatchKeys(init, field);
      assert forall j :: 0 <= j < |init| ==> init[j] == fs[j];
    }
  }

  /** The entry for a field is the predicate of the last condition with a
      known operator on that field: later conditions overwrite earlier ones. */
  lemma {:induction false} MatchLastWins(fs: seq<FilterDescriptor>, j: nat)
    requires j < |fs| && Recognised(fs[j])
    requires forall j' :: j < j' < |fs| && fs[j'].field == fs[j].field ==> !Recognised(fs[j'])
    ensures fs[j].field in MatchDoc(fs)
    ensures MatchDoc(fs)[fs[j].field] == Filters.Predicate(fs[j]).value
  {
    var init := fs[..|fs| - 1];
    if j < |fs| - 1 {
      assert init[j] == fs[j];
      forall j' | j < j' < |init| && init[j'].field == init[j].field
        ensures !Recognised(init[j'])
      {
        assert init[j'] == fs[j'];
      }
      MatchLastWins(init, j);
    }
  }

  // ---------------------------------------------------------------------
  // Sort

  /** Each pass of the loop replaces the document, so only the last
      descriptor survives. */
  lemma {:induction false} SortLoopLast(sort: seq<SortDescriptor>, j: nat, fields: Doc)
    requires j < |sort|
    ensures SortLoop(sort, j, fields)
      == Map(map[sort[|sort| - 1].field := Int(Direction(sort[|sort| - 1].dir))])
    decreases |sort| - j
  {
    if j + 1 < |sort| {
      SortLoopLast(sort, j + 1, Map(map[sort[j].field := Int(Direction(sort[j].dir))]));
    }
  }

  /** getSortFields sorts on the last descriptor alone, descending for
      "desc" and ascending otherwise; with no descriptor the stage holds
      null. */
  lemma SortFieldsLastWins(sort: seq<SortDescriptor>)
    ensures IsStage(SortFields(sort), "$sort")
    ensures |sort| == 0 ==> Body(SortFields(sort), "$sort") == Null
    ensures |sort| > 0 ==> var last := sort[|sort| - 1];
      && Body(SortFields(sort), "$sort").Map?
      && Body(SortFields(sort), "$sort").m.Keys == {last.field}
      && Body(SortFields(sort), "$sort").m[last.field] == Int(if last.dir == "desc" then -1 else 1)
  {
    if |sort| > 0 {
      SortLoopLast(sort, 0, Null);
    }
  }

  // ---------------------------------------------------------------------
  // Paging

  /** For a page counted from 1 the window starts after the records of the
      earlier pages and ends with the page's last record. */
  lemma PagingWindow(ds: DataState)
    requires ds.page >= 1 && ds.pageSize >= 0
    ensures Body(Paging(ds)[0], "$skip").Int? && Body(Paging(ds)[1], "$limit").Int?
    ensures var skip := Body(Paging(ds)[0], "$skip").i;
      && skip >= 0
      && skip + Body(Paging(ds)[1], "$limit").i == ds.page * ds.pageSize
    ensures Body(Paging(ds)[1], "$limit") == Int(ds.pageSize)
  {
  }

  /** getPaging for every state: a `$skip` of the rows on the pages before
      `page`, then a `$limit` of one page. */
  lemma PagingExact(ds: DataState)
    ensures IsStage(Paging(ds)[0], "$skip") && IsStage(Paging(ds)[1], "$limit")
    ensures Body(Paging(ds)[0], "$skip") == Int((ds.page - 1) * ds.pageSize)
    ensures Body(Paging(ds)[1], "$limit") == Int(ds.pageSize)
  {
  }

  /** Page 0, the value a request without a page leaves, asks for a
      negative skip of one page size. */
  lemma PageZeroSkip(ds: DataState)
    requires ds.page == 0 && ds.pageSize > 0
    ensures Body(Paging(ds)[0], "$skip") == Int(-ds.pageSize)
    ensures Body(Paging(ds)[0], "$skip").i < 0
  {
  }

  // ---------------------------------------------------------------------
  // The data pipeline

  /** Two operators per rollup level, `$group` then `$sort`. */
  function RollupOps(n: nat): (ops: seq<string>)
    ensures |ops| == 2 * n
  {
    if n == 0 then [] else RollupOps(n - 1) + ["$group", "$sort"]
  }

  lemma {:induction false} RollupOpsCount(n: nat, op: string)
    ensures Occurrences(RollupOps(n), op) == if op == "$group" || op == "$sort" then n else 0
  {
    if n > 0 {
      RollupOpsCount(n - 1, op);
      OccurrencesConcat(RollupOps(n - 1), ["$group", "$sort"], op);
    }
  }

  lemma {:induction false} InterleaveOps(groups: seq<Doc>, sorts: seq<Doc>, lo: nat)
    requires |groups| == |sorts| && lo <= |groups|
    requires forall i :: 0 <= i < |groups| ==> IsStage(groups[i], "$group") && IsStage(sorts[i], "$sort")
    ensures Ops(Rollup.Interleave(groups, sorts, lo), RollupOps(|groups| - lo))
    decreases |groups| - lo
  {
    if lo < |groups| {
      InterleaveOps(groups, sorts, lo + 1);
      OpsConcat(Rollup.Interleave(groups, sorts, lo + 1), RollupOps(|groups| - lo - 1), [groups[lo], sorts[lo]], ["$group", "$sort"]);
    }
  }

  /** getGroups emits `$group`, `$sort` for each level. */
  lemma StagesOps(ds: DataState)
    ensures Ops(Rollup.Stages(ds), RollupOps(|ds.group|))
  {
    var groups, sorts := Rollup.LevelGroups(ds), Rollup.LevelSorts(ds);
    forall i | 0 <= i < |ds.group|
      ensures IsStage(groups[i], "$group") && IsStage(sorts[i], "$sort")
    {
      RollupProps.LevelGroupIsGroup(ds, i);
      Rollup.LevelSortAt(ds, i);
    }
    InterleaveOps(groups, sorts, 0);
  }

  /** The operators of each part of getPipeline. */
  function LookupPartOps(ds: DataState): seq<string>
  {
    if |ds.lookup| > 0 then LookupOps(ds.lookup) else []
  }

  function MatchPartOps(fs: seq<FilterDescriptor>): seq<string>
  {
    if |fs| > 0 then ["$match"] else []
  }

  function GroupPartOps(ds: DataState): seq<string>
  {
    if |ds.group| > 0 then RollupOps(|ds.group|) + ["$project"] else []
  }

  function SortPartOps(ds: DataState): seq<string>
  {
    if |ds.sort| > 0 then ["$sort"] else []
  }

  function PagingPartOps(ds: DataState): seq<string>
  {
    if ds.pageSize > 0 then ["$skip", "$limit"] else []
  }

  /** The operators getPipeline emits after the base stages, part by part. */
  function PipelineOps(ds: DataState): seq<string>
  {
    LookupPartOps(ds) + MatchPartOps(ds.filter.filters) + GroupPartOps(ds) + SortPartOps(ds) + PagingPartOps(ds)
  }

  lemma GroupPartHasOps(ds: DataState)
    ensures Ops(GroupPart(ds), GroupPartOps(ds))
  {
    if |ds.group| > 0 {
      StagesOps(ds);
      RollupProps.ProjectFields(ds);
      OpsConcat(Rollup.Stages(ds), RollupOps(|ds.group|), [Rollup.Project(ds)], ["$project"]);
    }
  }

  lemma SmallPartsHaveOps(ds: DataState)
    ensures Ops(MatchPart(ds.filter.filters), MatchPartOps(ds.filter.filters))
    ensures Ops(SortPart(ds), SortPartOps(ds))
    ensures Ops(PagingPart(ds), PagingPartOps(ds))
  {
    if |ds.sort| > 0 {
      SortFieldsLastWins(ds.sort);
    }
  }

  /** The data pipeline is the base pipeline followed by stages with the
      operators above; paging, when asked for, comes last. */
  lemma PipelineLayout(ds: DataState)
    ensures |Pipeline(ds)| >= |BasePipeline(ds)|
    ensures Pipeline(ds)[..|BasePipeline(ds)|] == BasePipeline(ds)
    ensures Ops(Pipeline(ds)[|BasePipeline(ds)|..], PipelineOps(ds))
    ensures ds.pageSize > 0 ==> Pipeline(ds)[|Pipeline(ds)| - 2..] == Paging(ds)
  {
    var l, f, g, s, p := LookupPart(ds), MatchPart(ds.filter.filters), GroupPart(ds), SortPart(ds), PagingPart(ds);
    var lo, fo, go, so, po := LookupPartOps(ds), MatchPartOps(ds.filter.filters), GroupPartOps(ds), SortPartOps(ds), PagingPartOps(ds);
    LookupsOps(ds.lookup);
    assert Ops(l, lo);
    GroupPartHasOps(ds);
    SmallPartsHaveOps(ds);
    OpsConcat(l, lo, f, fo);
    OpsConcat(l + f, lo + fo, g, go);
    OpsConcat(l + f + g, lo + fo + go, s, so);
    OpsConcat(l + f + g + s, lo + fo + go + so, p, po);
    Regroup(BasePipeline(ds), l, f, g, s, p);
  }

  /** How often `op` occurs in the operators of the data pipeline, part by
      part. */
  lemma PipelineOpsCount(ds: DataState, op: string)
    ensures Occurrences(PipelineOps(ds), op) == Occurrences(LookupPartOps(ds), op) + Occurrences(MatchPartOps(ds.filter.filters), op)
      + Occurrences(GroupPartOps(ds), op) + Occurrences(SortPartOps(ds), op) + Occurrences(PagingPartOps(ds), op)
  {
    var lo, fo, go, so, po := LookupPartOps(ds), MatchPartOps(ds.filter.filters), GroupPartOps(ds), SortPartOps(ds), PagingPartOps(ds);
    OccurrencesConcat(lo, fo, op);
    OccurrencesConcat(lo + fo, go, op);
    OccurrencesConcat(lo + fo + go, so, op);
    OccurrencesConcat(lo + fo + go + so, po, op);
  }

  /** How often `op` occurs in the rollup part. */
  lemma GroupPartOpsCount(ds: DataState, op: string)
    ensures Occurrences(GroupPartOps(ds), op)
      == (if |ds.group| > 0 && (op == "$group" || op == "$sort") then |ds.group| else 0)
       + (if |ds.group| > 0 && op == "$project" then 1 else 0)
  {
    if |ds.group| > 0 {
      RollupOpsCount(|ds.group|, op);
      OccurrencesConcat(RollupOps(|ds.group|), ["$project"], op);
    }
  }

  /** How many stages with operator `op` getPipeline emits after the base:
      a `$lookup` per join and an `$addFields` per single join, one `$match`
      when there are filters, a `$group` and a `$sort` per group level and
      one `$project` when grouping, one more `$sort` when sorting, and one
      `$skip` and one `$limit` when paging. */
  lemma PipelineCounts(ds: DataState, op: string)
    ensures Occurrences(PipelineOps(ds), op)
      == (if op == "$lookup" then |ds.lookup| else 0)
       + (if op == "$addFields" then CountSingle(ds.lookup) else 0)
       + (if op == "$match" && |ds.filter.filters| > 0 then 1 else 0)
       + (if |ds.group| > 0 && (op == "$group" || op == "$sort") then |ds.group| else 0)
       + (if |ds.group| > 0 && op == "$project" then 1 else 0)
       + (if op == "$sort" && |ds.sort| > 0 then 1 else 0)
       + (if ds.pageSize > 0 && (op == "$skip" || op == "$limit") then 1 else 0)
  {
    PipelineOpsCount(ds, op);
    LookupOpsCount(ds.lookup, op);
    GroupPartOpsCount(ds, op);
    SmallPartsCount(ds, op);
  }

  lemma SmallPartsCount(ds: DataState, op: string)
    ensures Occurrences(MatchPartOps(ds.filter.filters), op) == (if op == "$match" && |ds.filter.filters| > 0 then 1 else 0)
    ensures Occurrences(SortPartOps(ds), op) == (if op == "$sort" && |ds.sort| > 0 then 1 else 0)
    ensures Occurrences(PagingPartOps(ds), op) == (if ds.pageSize > 0 && (op == "$skip" || op == "$limit") then 1 else 0)
  {
    if ds.pageSize > 0 {
      assert PagingPartOps(ds)[..1] == ["$skip"];
    }
  }

  /** After the base stages the data pipeline holds a stage with operator
      `op` exactly when the count above is positive. */
  lemma PipelineHasStage(ds: DataState, op: string)
    ensures (exists k :: |BasePipeline(ds)| <= k < |Pipeline(ds)| && IsStage(Pipeline(ds)[k], op))
      <==> Occurrences(PipelineOps(ds), op) > 0
  {
    PipelineLayout(ds);
    SuffixHasStage(Pipeline(ds), |BasePipeline(ds)|, PipelineOps(ds), op);
  }

  // ---------------------------------------------------------------------
  // The total pipeline

  /** RootKey is the first piece strings.Split cuts at ".". */
  lemma RootKeyIsSplit(field: string)
    ensures RootKey(field) == GoStrings.Split(field, '.')[0]
  {
    var r := RootKey(field);
    if r == field {
      assert GoStrings.Index(field, '.') == -1;
    } else {
      GoStrings.IndexAt(field, '.', |r|);
    }
  }

  /** Every alias of a declared join is a key of the alias table. */
  lemma {:induction false} LookupsByAliasKeys(ls: seq<LookupDescriptor>, alias: string)
    ensures alias in LookupsByAlias(ls) <==> exists k :: 0 <= k < |ls| && ls[k].alias == alias
  {
    if |ls| > 0 {
      var init := ls[..|ls| - 1];
      LookupsByAliasKeys(init, alias);
      assert forall k :: 0 <= k < |init| ==> init[k] == ls[k];
    }
  }

  /** The join kept under an alias is the last one declared with it. */
  lemma {:induction false} LookupsByAliasLastWins(ls: seq<LookupDescriptor>, k: nat)
    requires k < |ls|
    requires forall k' :: k < k' < |ls| ==> ls[k'].alias != ls[k].alias
    ensures ls[k].alias in LookupsByAlias(ls) && LookupsByAlias(ls)[ls[k].alias] == ls[k]
  {
    if k < |ls| - 1 {
      var init := ls[..|ls| - 1];
      assert init[k] == ls[k];
      forall k' | k < k' < |init|
        ensures init[k'].alias != init[k].alias
      {
        assert init[k'] == ls[k'];
      }
      LookupsByAliasLastWins(init, k);
    }
  }

  /** Some join is needed exactly when some filter's root segment is a key
      of the table. */
  lemma {:induction false} LookupsToApplyNonEmpty(fs: seq<FilterDescriptor>, byAlias: map<string, LookupDescriptor>)
    ensures |LookupsToApply(fs, byAlias)| > 0 <==> exists j :: 0 <= j < |fs| && RootKey(fs[j].field) in byAlias
  {
    if |fs| > 0 {
      var init := fs[..|fs| - 1];
      LookupsToApplyNonEmpty(init, byAlias);
      assert forall j :: 0 <= j < |init| ==> init[j] == fs[j];
    }
  }

  /** The count pipeline joins exactly when some filter's field starts with
      the alias of a declared join. */
  lemma JoinsNeeded(ds: DataState)
    ensures |LookupsToApply(ds.filter.filters, LookupsByAlias(ds.lookup))| > 0
      <==> exists j, k :: 0 <= j < |ds.filter.filters| && 0 <= k < |ds.lookup|
             && RootKey(ds.filter.filters[j].field) == ds.lookup[k].alias
  {
    var fs := ds.filter.filters;
    LookupsToApplyNonEmpty(fs, LookupsByAlias(ds.lookup));
    forall j | 0 <= j < |fs|
      ensures RootKey(fs[j].field) in LookupsByAlias(ds.lookup)
        <==> exists k :: 0 <= k < |ds.lookup| && ds.lookup[k].alias == RootKey(fs[j].field)
    {
      LookupsByAliasKeys(ds.lookup, RootKey(fs[j].field));
    }
  }

  lemma {:induction false} PlainLookupsAt(ls: seq<LookupDescriptor>, k: nat)
    requires k < |ls|
    ensures PlainLookups(ls)[k] == LookupStage(ls[k])
  {
    if k < |ls| - 1 {
      PlainLookupsAt(ls[..|ls| - 1], k);
    }
  }

  /** The operators of getTotalPipeline after the base stages: a bare
      `$lookup` per declared join when one is needed, the match, the count. */
  function TotalOps(ds: DataState): seq<string>
  {
    var needed := LookupsToApply(ds.filter.filters, LookupsByAlias(ds.lookup));
    (if |needed| > 0 then Repeat("$lookup", |ds.lookup|) else [])
    + (if |ds.filter.filters| > 0 then ["$match"] else [])
    + ["$count"]
  }

  lemma NeededLookupsOps(ds: DataState)
    ensures var needed := |LookupsToApply(ds.filter.filters, LookupsByAlias(ds.lookup))| > 0;
      Ops(NeededLookups(ds), if needed then Repeat("$lookup", |ds.lookup|) else [])
    ensures |LookupsToApply(ds.filter.filters, LookupsByAlias(ds.lookup))| > 0 ==>
      forall k :: 0 <= k < |ds.lookup| ==> NeededLookups(ds)[k] == LookupStage(ds.lookup[k])
  {
    if |LookupsToApply(ds.filter.filters, LookupsByAlias(ds.lookup))| > 0 {
      forall k | 0 <= k < |ds.lookup|
        ensures NeededLookups(ds)[k] == LookupStage(ds.lookup[k])
      {
        PlainLookupsAt(ds.lookup, k);
      }
    }
  }

  lemma TotalParts(ds: DataState)
    ensures TotalPipeline(ds) == BasePipeline(ds) + (NeededLookups(ds) + MatchPart(ds.filter.filters) + [CountStage])
  {
    Regroup(BasePipeline(ds), NeededLookups(ds), MatchPart(ds.filter.filters), [CountStage], [], []);
    assert NeededLookups(ds) + MatchPart(ds.filter.filters) + [CountStage] + [] + []
      == NeededLookups(ds) + MatchPart(ds.filter.filters) + [CountStage];
  }

  /** The count pipeline is the base pipeline followed by stages with the
      operators above. */
  lemma TotalLayout(ds: DataState)
    ensures |TotalPipeline(ds)| > |BasePipeline(ds)|
    ensures TotalPipeline(ds)[..|BasePipeline(ds)|] == BasePipeline(ds)
    ensures Ops(TotalPipeline(ds)[|BasePipeline(ds)|..], TotalOps(ds))
  {
    var l, f := NeededLookups(ds), MatchPart(ds.filter.filters);
    var lo: seq<string> := if |LookupsToApply(ds.filter.filters, LookupsByAlias(ds.lookup))| > 0 then Repeat("$lookup", |ds.lookup|) else [];
    var fo := MatchPartOps(ds.filter.filters);
    NeededLookupsOps(ds);
    SmallPartsHaveOps(ds);
    OpsConcat(l, lo, f, fo);
    OpsConcat(l + f, lo + fo, [CountStage], ["$count"]);
    TotalParts(ds);
  }

  /** The count is the last stage, and the match document, the one of the
      data pipeline, comes just before it. */
  lemma TotalEnds(ds: DataState)
    ensures |TotalPipeline(ds)| > |BasePipeline(ds)|
    ensures TotalPipeline(ds)[|TotalPipeline(ds)| - 1] == Stage("$count", Str("total"))
    ensures |ds.filter.filters| > 0 ==> TotalPipeline(ds)[|TotalPipeline(ds)| - 2] == MatchStage(ds.filter.filters)
  {
    TotalParts(ds);
  }

  /** When a join is needed every declared join follows the base stages in
      declaration order as a bare `$lookup`. */
  lemma TotalJoins(ds: DataState)
    requires |LookupsToApply(ds.filter.filters, LookupsByAlias(ds.lookup))| > 0
    ensures |TotalPipeline(ds)| > |BasePipeline(ds)| + |ds.lookup|
    ensures forall k :: 0 <= k < |ds.lookup| ==> TotalPipeline(ds)[|BasePipeline(ds)| + k] == LookupStage(ds.lookup[k])
  {
    NeededLookupsOps(ds);
    TotalParts(ds);
  }

  /** How often each operator occurs in the count pipeline after the base
      stages: a `$lookup` per declared join when one is needed, one `$match`
      when there are filters, one `$count`, and no `$addFields`, so a single
      join stays an array there. */
  lemma TotalCounts(ds: DataState, op: string)
    ensures Occurrences(TotalOps(ds), op)
      == (if op == "$lookup" && |LookupsToApply(ds.filter.filters, LookupsByAlias(ds.lookup))| > 0 then |ds.lookup| else 0)
       + (if op == "$match" && |ds.filter.filters| > 0 then 1 else 0)
       + (if op == "$count" then 1 else 0)
  {
    var needed := LookupsToApply(ds.filter.filters, LookupsByAlias(ds.lookup));
    var lo := if |needed| > 0 then Repeat("$lookup", |ds.lookup|) else [];
    var fo := MatchPartOps(ds.filter.filters);
    RepeatCount("$lookup", |ds.lookup|, op);
    OccurrencesConcat(lo, fo, op);
    OccurrencesConcat(lo + fo, ["$count"], op);
  }
}
