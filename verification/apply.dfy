/** apply.go: the builders that turn a DataState into aggregation stages
    (getBasePipeline, getLookups, getFilter, getSortFields, getPaging,
    getPipeline, getTotalPipeline). The rollup stages are in rollup.dfy. */
module Compiler {
  import opened Bson
  import opened Descriptors
  import Filters
  import Rollup

  // ---------------------------------------------------------------------
  // Base stages

  /** The id normalisation every pipeline starts with: copy `_id` to `id`,
      then drop `_id`. */
  const IdStages: seq<Doc> := [
    Stage("$addFields", Map(map["id" := Str("$_id")])),
    Stage("$project", Map(map["_id" := Int(0)]))
  ]

  /** getBasePipeline: the id stages, then the caller's preprocessing. */
  function BasePipeline(ds: DataState): (p: seq<Doc>)
    ensures |p| == |IdStages| + |ds.preprocessing|
    ensures p[..|IdStages|] == IdStages && p[|IdStages|..] == ds.preprocessing
  {
    IdStages + ds.preprocessing
  }

  // ---------------------------------------------------------------------
  // Lookups

  /** The `$lookup` stage of one join. */
  function LookupStage(l: LookupDescriptor): Doc
  {
    Stage("$lookup", Map(map[
      "from" := Str(l.from),
      "localField" := Str(l.localField),
      "foreignField" := Str(l.foreignField),
      "as" := Str(l.alias)]))
  }

  /** The stage that replaces the joined array by its first element, or
      null when it is empty. */
  function CollapseStage(l: LookupDescriptor): Doc
  {
    var first := Map(map["$arrayElemAt" := Arr([Str("$" + l.alias), Int(0)])]);
    Stage("$addFields", Map(map[l.alias := Map(map["$ifNull" := Arr([first, Null])])]))
  }

  /** The stages of one join: the `$lookup`, and the collapse when the join
      is declared single. */
  function JoinStages(l: LookupDescriptor): (stages: seq<Doc>)
    ensures |stages| == if l.single then 2 else 1
  {
    if l.single then [LookupStage(l), CollapseStage(l)] else [LookupStage(l)]
  }

  /** The number of joins declared single. */
  function CountSingle(ls: seq<LookupDescriptor>): (n: nat)
    ensures n <= |ls|
  {
    if |ls| == 0 then 0
    else CountSingle(ls[..|ls| - 1]) + (if ls[|ls| - 1].single then 1 else 0)
  }

  /** getLookups: the stages of each join, in declaration order. */
  function Lookups(ls: seq<LookupDescriptor>): (stages: seq<Doc>)
    ensures |stages| == |ls| + CountSingle(ls)
  {
    if |ls| == 0 then []
    else Lookups(ls[..|ls| - 1]) + JoinStages(ls[|ls| - 1])
  }

  // ---------------------------------------------------------------------
  // Match

  /** getFilter: the conditions written one after the other into one
      document. */
  function MatchDoc(fs: seq<FilterDescriptor>): map<string, Doc>
  {
    if |fs| == 0 then map[]
    else Filters.Filter(fs[|fs| - 1], MatchDoc(fs[..|fs| - 1]))
  }

  function MatchStage(fs: seq<FilterDescriptor>): Doc
  {
    Stage("$match", Map(MatchDoc(fs)))
  }

  // ---------------------------------------------------------------------
  // Sort

  /** The direction a sort descriptor asks for: -1 for "desc", 1 otherwise. */
  function Direction(dir: string): (r: int)
    ensures r == -1 <==> dir == "desc"
    ensures r == 1 || r == -1
  {
    if dir == "desc" then -1 else 1
  }

  /** The loop of getSortFields from descriptor j on, with `fields` the
      document built so far (null before the first descriptor): every
      descriptor replaces the whole document. */
  function SortLoop(sort: seq<SortDescriptor>, j: int, fields: Doc): (d: Doc)
    requires 0 <= j <= |sort|
    ensures j < |sort| ==> d.Map? && |d.m| == 1
    decreases |sort| - j
  {
    if j == |sort| then fields
    else SortLoop(sort, j + 1, Map(map[sort[j].field := Int(Direction(sort[j].dir))]))
  }

  /** getSortFields. */
  function SortFields(sort: seq<SortDescriptor>): (d: Doc)
    ensures IsStage(d, "$sort")
    ensures |sort| > 0 ==> Body(d, "$sort").Map? && |Body(d, "$sort").m| == 1
  {
    Stage("$sort", SortLoop(sort, 0, Null))
  }

  // ---------------------------------------------------------------------
  // Paging

  /** getPaging: skip the pages before `page` (counted from 1), then take
      one page. Nothing is clamped. */
  function Paging(ds: DataState): (stages: seq<Doc>)
    ensures |stages| == 2
  {
    [Stage("$skip", Int((ds.page - 1) * ds.pageSize)), Stage("$limit", Int(ds.pageSize))]
  }

  // ---------------------------------------------------------------------
  // Pipelines

  /** The join stages, when there are joins. */
  function LookupPart(ds: DataState): seq<Doc>
  {
    if |ds.lookup| > 0 then Lookups(ds.lookup) else []
  }

  /** The match stage, when there are filters. */
  function MatchPart(fs: seq<FilterDescriptor>): seq<Doc>
  {
    if |fs| > 0 then [MatchStage(fs)] else []
  }

  /** The rollup stages and the final projection, when grouping. */
  function GroupPart(ds: DataState): seq<Doc>
  {
    if |ds.group| > 0 then Rollup.Stages(ds) + [Rollup.Project(ds)] else []
  }

  /** The sort stage, when sorting. */
  function SortPart(ds: DataState): seq<Doc>
  {
    if |ds.sort| > 0 then [SortFields(ds.sort)] else []
  }

  /** The paging stages, when the page size is positive. */
  function PagingPart(ds: DataState): seq<Doc>
  {
    if ds.pageSize > 0 then Paging(ds) else []
  }

  /** getPipeline: each part appended, in this order, when the state asks
      for it. */
  function Pipeline(ds: DataState): seq<Doc>
  {
    BasePipeline(ds) + LookupPart(ds) + MatchPart(ds.filter.filters) + GroupPart(ds) + SortPart(ds) + PagingPart(ds)
  }

  /** The first segment of a field path, the first piece strings.Split
      gives for "." (see CompilerProps.RootKeyIsSplit): the whole path when
      it has no ".", otherwise what precedes its first ".". */
  function RootKey(field: string): (r: string)
    ensures '.' !in r
    ensures |r| <= |field| && field[..|r|] == r
    ensures r == field || field[|r|] == '.'
  {
    if |field| == 0 || field[0] == '.' then ""
    else [field[0]] + RootKey(field[1..])
  }

  /** The joins by alias; a later join with the same alias replaces the
      earlier one. */
  function LookupsByAlias(ls: seq<LookupDescriptor>): (m: map<string, LookupDescriptor>)
    ensures forall a :: a in m ==> m[a].alias == a
  {
    if |ls| == 0 then map[]
    else
      var l := ls[|ls| - 1];
      LookupsByAlias(ls[..|ls| - 1])[l.alias := l]
  }

  /** The joins some filter needs: one entry per filter whose root segment
      is a join alias. */
  function LookupsToApply(fs: seq<FilterDescriptor>, byAlias: map<string, LookupDescriptor>): (ls: seq<LookupDescriptor>)
    ensures |ls| <= |fs|
    ensures forall k :: 0 <= k < |ls| ==> ls[k] in byAlias.Values
  {
    if |fs| == 0 then []
    else
      var root := RootKey(fs[|fs| - 1].field);
      var rest := LookupsToApply(fs[..|fs| - 1], byAlias);
      if root in byAlias then rest + [byAlias[root]] else rest
  }

  /** Every declared join as a bare `$lookup`, never collapsed. */
  function PlainLookups(ls: seq<LookupDescriptor>): (stages: seq<Doc>)
    ensures |stages| == |ls|
  {
    if |ls| == 0 then []
    else PlainLookups(ls[..|ls| - 1]) + [LookupStage(ls[|ls| - 1])]
  }

  /** Every declared join as a bare `$lookup` when some filter needs a
      join, nothing otherwise. */
  function NeededLookups(ds: DataState): (stages: seq<Doc>)
    ensures |stages| == 0 || |stages| == |ds.lookup|
  {
    if |LookupsToApply(ds.filter.filters, LookupsByAlias(ds.lookup))| > 0 then PlainLookups(ds.lookup) else []
  }

  const CountStage: Doc := Stage("$count", Str("total"))

  /** getTotalPipeline: the joins only when some filter needs one, the
      match, and the count. */
  function TotalPipeline(ds: DataState): (p: seq<Doc>)
    ensures |p| > |BasePipeline(ds)| && p[|p| - 1] == CountStage
  {
    BasePipeline(ds) + NeededLookups(ds) + MatchPart(ds.filter.filters) + [CountStage]
  }
}
