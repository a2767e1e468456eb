/** apply.go: the multi-level `$group`/`$sort` rollup (getGroups,
    getFirstGrouping, getGroup, addAggregates, getProject).

    With groups g0 .. g(n-1), the innermost level n-1 groups the raw rows by
    the composite key of every group and pushes the rows; each outer level i
    regroups the documents of level i + 1 by the keys of g0 .. gi and pushes
    them, with their aggregates, as the items of level i. Level i is followed
    by a `$sort` on its own key. The final `$project` shapes level 0. */
module Rollup {
  import opened Bson
  import opened Descriptors
  import Util

  // ---------------------------------------------------------------------
  // Composite keys

  /** The set of keys of a list of groups. */
  function Keys(groups: seq<GroupDescriptor>): (ks: set<string>)
    ensures forall g :: 0 <= g < |groups| ==> GroupKey(groups[g]) in ks
  {
    if |groups| == 0 then {}
    else
      var init := groups[..|groups| - 1];
      assert forall g :: 0 <= g < |init| ==> init[g] == groups[g];
      Keys(init) + {GroupKey(groups[|groups| - 1])}
  }

  /** Every key in the set is the key of some group. */
  lemma {:induction false} KeysWitness(groups: seq<GroupDescriptor>, k: string)
    requires k in Keys(groups)
    ensures exists g :: 0 <= g < |groups| && GroupKey(groups[g]) == k
  {
    var init := groups[..|groups| - 1];
    if k != GroupKey(groups[|groups| - 1]) {
      KeysWitness(init, k);
      var g :| 0 <= g < |init| && GroupKey(init[g]) == k;
      assert groups[g] == init[g];
    }
  }

  /** The keys of a concatenation are the keys of its parts. */
  lemma {:induction false} KeysConcat(a: seq<GroupDescriptor>, b: seq<GroupDescriptor>)
    ensures Keys(a + b) == Keys(a) + Keys(b)
  {
    if |b| == 0 {
      assert a + b == a;
    } else {
      var c := a + b;
      assert c[..|c| - 1] == a + b[..|b| - 1];
      KeysConcat(a, b[..|b| - 1]);
    }
  }

  /** The keys of the levels deeper than i. */
  function DeeperKeys(groups: seq<GroupDescriptor>, i: int): set<string>
    requires -1 <= i < |groups|
  {
    Keys(groups[i + 1..])
  }

  /** Going one level out adds the key of the level just left behind. */
  lemma DeeperKeysStep(groups: seq<GroupDescriptor>, i: int)
    requires 0 <= i < |groups|
    ensures DeeperKeys(groups, i - 1) == DeeperKeys(groups, i) + {GroupKey(groups[i])}
  {
    assert groups[i..] == [groups[i]] + groups[i + 1..];
    KeysConcat([groups[i]], groups[i + 1..]);
    assert [groups[i]][..0] == [];
  }

  /** References to the components of the previous level's composite `_id`:
      each key k maps to "$_id.k". */
  function IdRefs(keys: set<string>): (m: map<string, Doc>)
    ensures m.Keys == keys
    ensures forall k :: k in m ==> m[k] == Ref("_id." + k)
  {
    map k | k in keys :: Ref("_id." + k)
  }

  /** Adding a key to the set adds its reference to the map. */
  lemma IdRefsInsert(keys: set<string>, k: string)
    ensures IdRefs(keys)[k := Ref("_id." + k)] == IdRefs(keys + {k})
  {
  }

  /** Removing a key from the set removes its reference from the map. */
  lemma IdRefsRemove(keys: set<string>, k: string)
    ensures IdRefs(keys) - {k} == IdRefs(keys - {k})
  {
  }

  /** The `_id` of a middle level i: the previous level's key components,
      minus the keys of every deeper level. */
  function TrimmedIds(groups: seq<GroupDescriptor>, i: int): map<string, Doc>
    requires 0 <= i < |groups|
  {
    IdRefs(Keys(groups) - DeeperKeys(groups, i))
  }

  /** The `_id` of the innermost level: every group key mapped to the field
      it groups by, the later group winning when two fields share a key
      (repeated assignment into a Go map). */
  function FirstIds(groups: seq<GroupDescriptor>): (m: map<string, Doc>)
    ensures m.Keys == Keys(groups)
  {
    if |groups| == 0 then map[]
    else
      var last := groups[|groups| - 1];
      FirstIds(groups[..|groups| - 1])[GroupKey(last) := Ref(last.field)]
  }

  /** Each key of the innermost `_id` refers to the field of the last group
      with that key. */
  lemma {:induction false} FirstIdsLastWins(groups: seq<GroupDescriptor>, i: int)
    requires 0 <= i < |groups| && LastWithKey(groups, i)
    ensures GroupKey(groups[i]) in FirstIds(groups)
    ensures FirstIds(groups)[GroupKey(groups[i])] == Ref(groups[i].field)
  {
    var init := groups[..|groups| - 1];
    if i < |groups| - 1 {
      assert init[i] == groups[i];
      assert LastWithKey(init, i) by {
        forall j | i < j < |init| ensures GroupKey(init[j]) != GroupKey(init[i]) {
          assert init[j] == groups[j];
        }
      }
      FirstIdsLastWins(init, i);
    }
  }

  /** No group after position i has the same key as group i. */
  predicate LastWithKey(groups: seq<GroupDescriptor>, i: int)
    requires 0 <= i < |groups|
  {
    forall j :: i < j < |groups| ==> GroupKey(groups[j]) != GroupKey(groups[i])
  }

  /** All group keys differ. */
  predicate DistinctKeys(groups: seq<GroupDescriptor>)
  {
    forall i, j :: 0 <= i < j < |groups| ==> GroupKey(groups[i]) != GroupKey(groups[j])
  }

  // ---------------------------------------------------------------------
  // Aggregates

  /** The accumulator of one aggregate, e.g. {"$sum": "$items.due"}. */
  function Accumulator(a: AggregateDescriptor, isRoot: bool): Doc
  {
    Map(map[AggregateOperator(a) := Str(AggregateExpression(a, isRoot))])
  }

  /** The accumulators keyed by sanitised field and then by the raw kind
      name, as addAggregates builds them: aggregates sharing a key merge into
      one entry, and a later aggregate with the same key and kind replaces
      the earlier one. */
  function Accumulators(aggs: seq<AggregateDescriptor>, isRoot: bool): (m: map<string, map<string, Doc>>)
    ensures |m| == 0 <==> |aggs| == 0
  {
    if |aggs| == 0 then map[]
    else
      var a := aggs[|aggs| - 1];
      var m := Accumulators(aggs[..|aggs| - 1], isRoot);
      var k := AggregateKey(a);
      var inner := if k in m then m[k] else map[];
      m[k := inner[a.aggregate := Accumulator(a, isRoot)]]
  }

  /** No aggregate after position j has the same key and kind as aggregate j. */
  predicate LastOfKind(aggs: seq<AggregateDescriptor>, j: int)
    requires 0 <= j < |aggs|
  {
    forall l :: j < l < |aggs| ==>
      AggregateKey(aggs[l]) != AggregateKey(aggs[j]) || aggs[l].aggregate != aggs[j].aggregate
  }

  /** Every aggregate has an entry under its key and kind, and the last one
      of each key and kind is the one that stays. */
  lemma {:induction false} AccumulatorsLastWins(aggs: seq<AggregateDescriptor>, isRoot: bool, j: int)
    requires 0 <= j < |aggs|
    ensures AggregateKey(aggs[j]) in Accumulators(aggs, isRoot)
    ensures aggs[j].aggregate in Accumulators(aggs, isRoot)[AggregateKey(aggs[j])]
    ensures LastOfKind(aggs, j) ==>
      Accumulators(aggs, isRoot)[AggregateKey(aggs[j])][aggs[j].aggregate] == Accumulator(aggs[j], isRoot)
  {
    var init := aggs[..|aggs| - 1];
    if j < |aggs| - 1 {
      assert init[j] == aggs[j];
      AccumulatorsLastWins(init, isRoot, j);
      if LastOfKind(aggs, j) {
        assert LastOfKind(init, j) by {
          forall l | j < l < |init|
            ensures AggregateKey(init[l]) != AggregateKey(init[j]) || init[l].aggregate != init[j].aggregate
          {
            assert init[l] == aggs[l];
          }
        }
      }
    }
  }

  /** Every entry comes from some aggregate with that key and kind. */
  lemma {:induction false} AccumulatorsOnly(aggs: seq<AggregateDescriptor>, isRoot: bool, k: string, kind: string)
    requires k in Accumulators(aggs, isRoot) && kind in Accumulators(aggs, isRoot)[k]
    ensures exists j :: 0 <= j < |aggs| && AggregateKey(aggs[j]) == k && aggs[j].aggregate == kind
  {
    var init := aggs[..|aggs| - 1];
    var a := aggs[|aggs| - 1];
    if AggregateKey(a) != k || a.aggregate != kind {
      AccumulatorsOnly(init, isRoot, k, kind);
      var j :| 0 <= j < |init| && AggregateKey(init[j]) == k && init[j].aggregate == kind;
      assert aggs[j] == init[j];
    }
  }

  /** The value of the `aggregates` entry: the accumulators, or {"_": null}
      when there are none (an empty document cannot be projected). */
  function AggregatesDoc(aggs: seq<AggregateDescriptor>, isRoot: bool): (d: Doc)
    ensures d.Map?
    ensures |aggs| == 0 <==> d == Map(map["_" := Null])
  {
    var m := Accumulators(aggs, isRoot);
    if |m| == 0 then Map(map["_" := Null])
    else
      var d := map k | k in m :: Map(m[k]);
      assert d != map["_" := Null] by {
        var k :| k in m;
        assert d[k].Map?;
      }
      Map(d)
  }

  /** addAggregates: the document with its `aggregates` entry set. */
  function AddAggregates(m: map<string, Doc>, aggs: seq<AggregateDescriptor>, isRoot: bool): map<string, Doc>
  {
    m["aggregates" := AggregatesDoc(aggs, isRoot)]
  }

  /** addAggregates sets exactly the `aggregates` entry: every other entry
      of the input stays as it was. */
  lemma AddAggregatesSetsOnlyAggregates(m: map<string, Doc>, aggs: seq<AggregateDescriptor>, isRoot: bool)
    ensures AddAggregates(m, aggs, isRoot).Keys == m.Keys + {"aggregates"}
    ensures forall k :: k in m && k != "aggregates" ==> AddAggregates(m, aggs, isRoot)[k] == m[k]
    ensures AddAggregates(m, aggs, isRoot)["aggregates"] == AggregatesDoc(aggs, isRoot)
  {
  }

  // ---------------------------------------------------------------------
  // Stages

  /** getFirstGrouping: the innermost `$group`. */
  function FirstGrouping(groups: seq<GroupDescriptor>): Doc
  {
    Stage("$group", Map(map["_id" := Map(FirstIds(groups)), "items" := Map(map["$push" := Str("$$ROOT")])]))
  }

  /** The document an outer level pushes for each group of the level below:
      the inner key component, its items, the field it grouped by, and its
      aggregates. */
  function Pushed(ds: DataState, value: string, field: string, depth: int): map<string, Doc>
  {
    AddAggregates(map["value" := Ref("_id." + value), "items" := Str("$items"), "field" := Str(field)],
                  ds.aggregates, |ds.group| - 2 == depth)
  }

  /** getGroup: the `$group` of an outer level. */
  function Grouping(ds: DataState, id: Doc, value: string, field: string, depth: int): Doc
  {
    Stage("$group", Map(map["_id" := id, "items" := Map(map["$push" := Map(Pushed(ds, value, field, depth))])]))
  }

  /** The fields getProject keeps before the aggregates are added. */
  function ProjectBase(ds: DataState): map<string, Doc>
    requires |ds.group| > 0
  {
    var first := ds.group[0];
    var value := if |ds.group| == 1 then "$_id." + GroupKey(first) else "$_id";
    map["_id" := Int(0), "value" := Str(value), "items" := Str("$items"), "field" := Str(first.field)]
  }

  /** getProject: the final shaping of level 0. */
  function Project(ds: DataState): Doc
    requires |ds.group| > 0
  {
    Stage("$project", Map(AddAggregates(ProjectBase(ds), ds.aggregates, |ds.group| == 1)))
  }

  function SortStage(key: string, order: int): Doc
  {
    Stage("$sort", Map(map[key := Int(order)]))
  }

  /** The `_id` of level i: the whole composite for the innermost level, the
      scalar "$_id.<key0>" for level 0 of a multi-level grouping, and the
      trimmed composite in between. */
  function LevelId(groups: seq<GroupDescriptor>, i: int): Doc
    requires 0 <= i < |groups|
  {
    if i == |groups| - 1 then Map(FirstIds(groups))
    else if i == 0 then Ref("_id." + GroupKey(groups[0]))
    else Map(TrimmedIds(groups, i))
  }

  /** The `$group` stage of level i. */
  function LevelGroup(ds: DataState, i: int): Doc
    requires 0 <= i < |ds.group|
  {
    if i == |ds.group| - 1 then FirstGrouping(ds.group)
    else Grouping(ds, LevelId(ds.group, i), GroupKey(ds.group[i + 1]), ds.group[i + 1].field, i)
  }

  /** The key the `$sort` after level i orders by. */
  function LevelSortKey(groups: seq<GroupDescriptor>, i: int): string
    requires 0 <= i < |groups|
  {
    if i == 0 && i != |groups| - 1 then "_id" else "_id." + GroupKey(groups[i])
  }

  /** The `$sort` stage of level i. */
  function LevelSort(ds: DataState, i: int): Doc
    requires 0 <= i < |ds.group|
  {
    SortStage(LevelSortKey(ds.group, i), SortOrder(ds.group[i]))
  }

  /** Stages listed level by level from the innermost (the last index) out
      to level lo: each level's `$group`, then its `$sort`. */
  function Interleave<T>(groups: seq<T>, sorts: seq<T>, lo: int): (stages: seq<T>)
    requires |groups| == |sorts| && 0 <= lo <= |groups|
    ensures |stages| == 2 * (|groups| - lo)
    decreases |groups| - lo
  {
    if lo == |groups| then []
    else Interleave(groups, sorts, lo + 1) + [groups[lo], sorts[lo]]
  }

  /** Level i sits at positions 2(n-1-i) and 2(n-1-i)+1. */
  lemma {:induction false} InterleaveAt<T>(groups: seq<T>, sorts: seq<T>, lo: int, i: int)
    requires |groups| == |sorts| && 0 <= lo <= i < |groups|
    ensures Interleave(groups, sorts, lo)[2 * (|groups| - 1 - i)] == groups[i]
    ensures Interleave(groups, sorts, lo)[2 * (|groups| - 1 - i) + 1] == sorts[i]
    decreases i - lo
  {
    if lo < i {
      InterleaveAt(groups, sorts, lo + 1, i);
    }
  }

  /** The `$group` stage of every level. */
  function LevelGroups(ds: DataState): (r: seq<Doc>)
    ensures |r| == |ds.group|
  {
    seq(|ds.group|, i requires 0 <= i < |ds.group| => LevelGroup(ds, i))
  }

  /** The `$sort` stage of every level. */
  function LevelSorts(ds: DataState): (r: seq<Doc>)
    ensures |r| == |ds.group|
  {
    seq(|ds.group|, i requires 0 <= i < |ds.group| => LevelSort(ds, i))
  }

  /** The stages getGroups emits. */
  function Stages(ds: DataState): (stages: seq<Doc>)
    ensures |stages| == 2 * |ds.group|
  {
    Interleave(LevelGroups(ds), LevelSorts(ds), 0)
  }

  /** The stages alternate `$group` and `$sort`, level by level from the
      innermost out. */
  lemma RollupAt(ds: DataState, i: int)
    requires 0 <= i < |ds.group|
    ensures Stages(ds)[2 * (|ds.group| - 1 - i)] == LevelGroups(ds)[i]
    ensures Stages(ds)[2 * (|ds.group| - 1 - i) + 1] == LevelSorts(ds)[i]
  {
    var groups, sorts := LevelGroups(ds), LevelSorts(ds);
    assert Stages(ds) == Interleave(groups, sorts, 0);
    InterleaveAt(groups, sorts, 0, i);
  }

  /** The innermost level groups the raw rows by every key and pushes them
      whole. */
  lemma InnermostLevel(ds: DataState)
    requires |ds.group| > 0
    ensures LevelGroups(ds)[|ds.group| - 1] == FirstGrouping(ds.group)
  {
  }

  /** Level 0 of a multi-level grouping groups by the scalar first key
      component and pushes the level-1 documents. */
  lemma OutermostLevel(ds: DataState)
    requires |ds.group| > 1
    ensures LevelGroups(ds)[0]
      == Grouping(ds, Ref("_id." + GroupKey(ds.group[0])), GroupKey(ds.group[1]), ds.group[1].field, 0)
  {
  }

  /** A middle level groups by the trimmed composite key and pushes the
      documents of the level below. */
  lemma MiddleLevel(ds: DataState, i: int)
    requires 0 < i < |ds.group| - 1
    ensures LevelGroups(ds)[i]
      == Grouping(ds, Map(TrimmedIds(ds.group, i)), GroupKey(ds.group[i + 1]), ds.group[i + 1].field, i)
  {
  }

  /** Level i sorts on its own key component ("_id" alone at level 0 of a
      multi-level grouping), in the direction of its group. */
  lemma LevelSortAt(ds: DataState, i: int)
    requires 0 <= i < |ds.group|
    ensures LevelSorts(ds)[i] == SortStage(LevelSortKey(ds.group, i), SortOrder(ds.group[i]))
  {
  }

  /** The `_id` map getGroups holds when it reaches level i: every key,
      minus the keys of the levels already deleted (those deeper than i + 1;
      nothing is deleted before the innermost level is left behind). */
  function IdsAt(groups: seq<GroupDescriptor>, i: int): map<string, Doc>
    requires -1 <= i < |groups|
  {
    if i >= |groups| - 2 then IdRefs(Keys(groups))
    else IdRefs(Keys(groups) - DeeperKeys(groups, i + 1))
  }

  /** The deletion getGroups makes at a middle level i: the key of level
      i + 1 leaves the map, which then holds exactly the trimmed `_id`. */
  method DropDeeperKey(groups: seq<GroupDescriptor>, i: int, ids: map<string, Doc>) returns (ids': map<string, Doc>)
    requires 0 < i < |groups| - 1
    requires ids == IdsAt(groups, i)
    ensures ids' == TrimmedIds(groups, i) == IdsAt(groups, i - 1)
  {
    var previousKey := GroupKey(groups[i + 1]);
    DeeperKeysStep(groups, i + 1);
    IdRefsRemove(Keys(groups) - DeeperKeys(groups, i + 1), previousKey);
    ids' := ids - {previousKey};
  }

  /** One pass of getGroups' main loop: the `$group` and `$sort` of level i,
      and the key map it leaves for level i - 1. */
  method GroupLevel(ds: DataState, i: int, ids: map<string, Doc>) returns (stage: Doc, sort: Doc, ids': map<string, Doc>)
    requires 0 <= i < |ds.group|
    requires ids == IdsAt(ds.group, i)
    ensures stage == LevelGroups(ds)[i] && sort == LevelSorts(ds)[i]
    ensures 0 < i ==> ids' == IdsAt(ds.group, i - 1)
  {
    var nbGroups := |ds.group| - 1;
    ids' := ids;
    var group := ds.group[i];
    var key := GroupKey(group);
    var sortKey := "_id." + key;
    if nbGroups == i {
      stage := FirstGrouping(ds.group);
      InnermostLevel(ds);
    } else {
      var previousGroup := ds.group[i + 1];
      var previousField := previousGroup.field;
      var previousKey := GroupKey(previousGroup);
      var groupKey: Doc;
      if i == 0 {
        sortKey := "_id";
        groupKey := Ref("_id." + key);
      } else {
        ids' := DropDeeperKey(ds.group, i, ids);
        groupKey := Map(Util.CopyM(ids'));
        assert Util.CopyM(ids') == ids';
      }
      stage := Grouping(ds, groupKey, previousKey, previousField, i);
      if i == 0 {
        OutermostLevel(ds);
      } else {
        MiddleLevel(ds, i);
      }
    }
    sort := SortStage(sortKey, SortOrder(group));
    LevelSortAt(ds, i);
  }

  /** The first loop of getGroups: every group key mapped to its component
      of the previous level's `_id`. */
  method KeyRefs(groups: seq<GroupDescriptor>) returns (ids: map<string, Doc>)
    ensures ids == IdRefs(Keys(groups))
  {
    ids := map[];
    var j := 0;
    while j < |groups|
      invariant 0 <= j <= |groups|
      invariant ids == IdRefs(Keys(groups[..j]))
    {
      var key := GroupKey(groups[j]);
      IdRefsInsert(Keys(groups[..j]), key);
      ids := ids[key := Ref("_id." + key)];
      assert groups[..j + 1][..j] == groups[..j];
      j := j + 1;
    }
    assert groups[..j] == groups;
  }

  /** getGroups, loop for loop: the composite key map is built once, and
      every middle level deletes the key of the level below it before
      taking a copy, so the deletions accumulate from the inside out. */
  method GetGroups(ds: DataState) returns (groups: seq<Doc>)
    ensures groups == Stages(ds)
  {
    groups := [];
    var ids := KeyRefs(ds.group);
    var i := |ds.group| - 1;
    while i >= 0
      invariant -1 <= i < |ds.group|
      invariant groups == Interleave(LevelGroups(ds), LevelSorts(ds), i + 1)
      invariant 0 <= i ==> ids == IdsAt(ds.group, i)
    {
      var stage, sort;
      stage, sort, ids := GroupLevel(ds, i, ids);
      groups := groups + [stage, sort];
      i := i - 1;
    }
    assert i + 1 == 0;
  }
}

/** Properties of the rollup: the shape of the stage list, the composite
    keys each level groups by, and which level reads raw fields. */
module RollupProps {
  import opened Bson
  import opened Descriptors
  import opened Rollup

  /** The document a level's `$group` pushes for each group. */
  function PushedOf(stage: Doc): Doc
  {
    Body(Body(Body(stage, "$group"), "items"), "$push")
  }

  /** Every level's first stage is a `$group`. */
  lemma LevelGroupIsGroup(ds: DataState, i: int)
    requires 0 <= i < |ds.group|
    ensures IsStage(LevelGroups(ds)[i], "$group")
  {
    if i == |ds.group| - 1 {
      InnermostLevel(ds);
    } else if i == 0 {
      OutermostLevel(ds);
    } else {
      MiddleLevel(ds, i);
    }
  }

  /** Exactly 2n stages: level i, counted from the innermost out, is a
      `$group` followed by a `$sort`. */
  lemma StagesAlternate(ds: DataState, i: int)
    requires 0 <= i < |ds.group|
    ensures |Stages(ds)| == 2 * |ds.group|
    ensures IsStage(Stages(ds)[2 * (|ds.group| - 1 - i)], "$group")
    ensures IsStage(Stages(ds)[2 * (|ds.group| - 1 - i) + 1], "$sort")
  {
    RollupAt(ds, i);
    LevelGroupIsGroup(ds, i);
    LevelSortAt(ds, i);
  }

  /** The `$sort` after level i orders by "_id" exactly at level 0 of a
      multi-level grouping, and by "_id.<key_i>" everywhere else. */
  lemma SortKeyShape(groups: seq<GroupDescriptor>, i: int)
    requires 0 <= i < |groups|
    ensures LevelSortKey(groups, i) == "_id" <==> i == 0 && |groups| > 1
    ensures !(i == 0 && |groups| > 1) ==> LevelSortKey(groups, i) == "_id." + GroupKey(groups[i])
  {
    if !(i == 0 && |groups| > 1) {
      assert |LevelSortKey(groups, i)| > |"_id"|;
    }
  }

  /** A key no group has is not among the keys. */
  lemma {:induction false} KeysExclude(groups: seq<GroupDescriptor>, k: string)
    requires forall g :: 0 <= g < |groups| ==> GroupKey(groups[g]) != k
    ensures k !in Keys(groups)
  {
    if |groups| > 0 {
      var init := groups[..|groups| - 1];
      assert forall g :: 0 <= g < |init| ==> init[g] == groups[g];
      KeysExclude(init, k);
    }
  }

  /** Groups whose keys pairwise differ have disjoint key sets. */
  lemma {:induction false} KeysDisjoint(a: seq<GroupDescriptor>, b: seq<GroupDescriptor>)
    requires forall x, y :: 0 <= x < |a| && 0 <= y < |b| ==> GroupKey(a[x]) != GroupKey(b[y])
    ensures Keys(a) !! Keys(b)
  {
    if |a| > 0 {
      var init := a[..|a| - 1];
      assert forall x :: 0 <= x < |init| ==> init[x] == a[x];
      KeysDisjoint(init, b);
      KeysExclude(b, GroupKey(a[|a| - 1]));
    }
  }

  /** With distinct keys, the trimmed `_id` of level i holds exactly the
      keys of groups 0 .. i. */
  lemma TrimmedIdsKeys(groups: seq<GroupDescriptor>, i: int)
    requires DistinctKeys(groups) && 0 <= i < |groups|
    ensures TrimmedIds(groups, i).Keys == Keys(groups[..i + 1])
  {
    var a, b := groups[..i + 1], groups[i + 1..];
    assert groups == a + b;
    KeysConcat(a, b);
    assert forall x :: 0 <= x < |a| ==> a[x] == groups[x];
    assert forall y :: 0 <= y < |b| ==> b[y] == groups[i + 1 + y];
    KeysDisjoint(a, b);
    SetMinusDisjoint(Keys(a), Keys(b));
  }

  lemma SetMinusDisjoint<T>(a: set<T>, b: set<T>)
    requires a !! b
    ensures (a + b) - b == a
  {
  }

  /** The `_id` of every level below 0 is a map, and with distinct keys it
      still holds the level's own key, so the value "$_id.<key_(i+1)>" that
      level i pushes names one of its entries. */
  lemma ValueResolves(ds: DataState, i: int)
    requires DistinctKeys(ds.group) && 0 <= i < |ds.group| - 1
    ensures LevelId(ds.group, i + 1).Map?
    ensures GroupKey(ds.group[i + 1]) in LevelId(ds.group, i + 1).m
  {
    var groups := ds.group;
    if i + 1 < |groups| - 1 {
      TrimmedIdsKeys(groups, i + 1);
      assert groups[..i + 2][i + 1] == groups[i + 1];
    }
  }

  /** The document an outer level i pushes: the key component of level
      i + 1, its items, its field, and its aggregates. */
  lemma PushedAt(ds: DataState, i: int)
    requires 0 <= i < |ds.group| - 1
    ensures PushedOf(LevelGroups(ds)[i]) == Map(Pushed(ds, GroupKey(ds.group[i + 1]), ds.group[i + 1].field, i))
  {
    if i == 0 {
      OutermostLevel(ds);
    } else {
      MiddleLevel(ds, i);
    }
  }

  /** The entries of a pushed document. */
  lemma PushedFields(ds: DataState, value: string, field: string, depth: int)
    ensures Pushed(ds, value, field, depth).Keys == {"value", "items", "field", "aggregates"}
    ensures Pushed(ds, value, field, depth)["value"] == Ref("_id." + value)
    ensures Pushed(ds, value, field, depth)["items"] == Str("$items")
    ensures Pushed(ds, value, field, depth)["field"] == Str(field)
    ensures Pushed(ds, value, field, depth)["aggregates"] == AggregatesDoc(ds.aggregates, depth == |ds.group| - 2)
  {
    AddAggregatesSetsOnlyAggregates(map["value" := Ref("_id." + value), "items" := Str("$items"), "field" := Str(field)],
                                    ds.aggregates, |ds.group| - 2 == depth);
  }

  /** Only the level just above the innermost reads the raw fields of the
      rows; every level further out reads the aggregates computed one level
      down. */
  lemma LevelReadsRaw(ds: DataState, i: int)
    requires 0 <= i < |ds.group| - 1
    ensures Body(PushedOf(LevelGroups(ds)[i]), "aggregates") == AggregatesDoc(ds.aggregates, i == |ds.group| - 2)
  {
    PushedAt(ds, i);
    PushedFields(ds, GroupKey(ds.group[i + 1]), ds.group[i + 1].field, i);
  }

  /** Every aggregate appears in the `aggregates` document under its
      sanitised key and raw kind name; the last of each key and kind holds
      the operator and the expression of that aggregate. */
  lemma AggregatesDocEntry(aggs: seq<AggregateDescriptor>, isRoot: bool, j: int)
    requires 0 <= j < |aggs|
    ensures AggregateKey(aggs[j]) in AggregatesDoc(aggs, isRoot).m
    ensures AggregatesDoc(aggs, isRoot).m[AggregateKey(aggs[j])].Map?
    ensures aggs[j].aggregate in AggregatesDoc(aggs, isRoot).m[AggregateKey(aggs[j])].m
    ensures LastOfKind(aggs, j) ==>
      AggregatesDoc(aggs, isRoot).m[AggregateKey(aggs[j])].m[aggs[j].aggregate]
        == Map(map[AggregateOperator(aggs[j]) := Str(AggregateExpression(aggs[j], isRoot))])
  {
    AccumulatorsLastWins(aggs, isRoot, j);
  }

  /** Every entry of a non-empty `aggregates` document comes from an
      aggregate with that key and kind. */
  lemma AggregatesDocOnly(aggs: seq<AggregateDescriptor>, isRoot: bool, k: string, kind: string)
    requires |aggs| > 0
    requires k in AggregatesDoc(aggs, isRoot).m
    requires AggregatesDoc(aggs, isRoot).m[k].Map? && kind in AggregatesDoc(aggs, isRoot).m[k].m
    ensures exists j :: 0 <= j < |aggs| && AggregateKey(aggs[j]) == k && aggs[j].aggregate == kind
  {
    AccumulatorsOnly(aggs, isRoot, k, kind);
  }

  /** An aggregate read above the raw level finds its input: level i reads
      "$items.aggregates.<key>.<kind>", and the documents level i + 1 pushes
      carry an `aggregates` entry under that key and kind. */
  lemma AggregatesResolve(ds: DataState, i: int, j: int)
    requires 0 <= i < |ds.group| - 2 && 0 <= j < |ds.aggregates|
    ensures AggregateExpression(ds.aggregates[j], false)
      == "$items.aggregates." + AggregateKey(ds.aggregates[j]) + "." + ds.aggregates[j].aggregate
    ensures var below := Body(PushedOf(LevelGroups(ds)[i + 1]), "aggregates");
      && AggregateKey(ds.aggregates[j]) in below.m
      && below.m[AggregateKey(ds.aggregates[j])].Map?
      && ds.aggregates[j].aggregate in below.m[AggregateKey(ds.aggregates[j])].m
  {
    LevelReadsRaw(ds, i + 1);
    AggregatesDocEntry(ds.aggregates, i + 1 == |ds.group| - 2, j);
  }

  /** The final `$project` of level 0: the scalar key component and raw
      aggregates when there is a single group, the whole `_id` and the
      aggregates of level 1 otherwise. */
  lemma ProjectFields(ds: DataState)
    requires |ds.group| > 0
    ensures IsStage(Project(ds), "$project") && Body(Project(ds), "$project").Map?
    ensures Body(Project(ds), "$project").m.Keys == {"_id", "value", "items", "field", "aggregates"}
    ensures Body(Project(ds), "$project").m["_id"] == Int(0)
    ensures Body(Project(ds), "$project").m["value"]
      == Str(if |ds.group| == 1 then "$_id." + GroupKey(ds.group[0]) else "$_id")
    ensures Body(Project(ds), "$project").m["items"] == Str("$items")
    ensures Body(Project(ds), "$project").m["field"] == Str(ds.group[0].field)
    ensures Body(Project(ds), "$project").m["aggregates"] == AggregatesDoc(ds.aggregates, |ds.group| == 1)
  {
    ProjectBaseFields(ds);
    AddAggregatesSetsOnlyAggregates(ProjectBase(ds), ds.aggregates, |ds.group| == 1);
  }

  lemma ProjectBaseFields(ds: DataState)
    requires |ds.group| > 0
    ensures ProjectBase(ds).Keys == {"_id", "value", "items", "field"}
    ensures ProjectBase(ds)["_id"] == Int(0)
    ensures ProjectBase(ds)["value"] == Str(if |ds.group| == 1 then "$_id." + GroupKey(ds.group[0]) else "$_id")
    ensures ProjectBase(ds)["items"] == Str("$items")
    ensures ProjectBase(ds)["field"] == Str(ds.group[0].field)
  {
  }

  /** Two group fields with the same sanitised key ("a.b" and "ab") leave a
      single `_id` entry in the innermost `$group`, holding the later field. */
  lemma CollidingKeys(g1: GroupDescriptor, g2: GroupDescriptor)
    requires g1.field == "a.b" && g2.field == "ab"
    ensures Keys([g1, g2]) == {"ab"}
    ensures FirstIds([g1, g2]) == map["ab" := Ref("ab")]
  {
    SanitizeKeyNotInjective();
    assert '.' !in "ab";
    assert GroupKey(g1) == "ab" && GroupKey(g2) == "ab";
    assert [g1, g2][..1] == [g1];
    assert [g1][..0] == [];
    assert FirstIds([g1]) == map["ab" := Ref("a.b")];
  }
}
