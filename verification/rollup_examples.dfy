/** The rollup of the GetPipeline case of apply_test.go: two groups
    ("data.email" ascending, then "vendor.email" descending) and two
    aggregates ("average" and "sum" of "commission.due"). Each level is
    established on its own, then the five stages together. */
module RollupExamples {
  import opened Bson
  import opened Descriptors
  import opened Rollup
  import Compiler

  // The dotted paths are written as their segments joined by ".", which
  // keeps the verifier from unfolding SanitizeKey over a whole literal.
  const DataEmail := GroupDescriptor([], "asc", "data" + "." + "email")
  const VendorEmail := GroupDescriptor([], "desc", "vendor" + "." + "email")
  const AverageDue := AggregateDescriptor("average", "commission" + "." + "due")
  const SumDue := AggregateDescriptor("sum", "commission" + "." + "due")
  const Groups := [DataEmail, VendorEmail]
  const Aggs := [AverageDue, SumDue]

  const Example: DataState := DataState(
    0, 0,
    CompositeFilterDescriptor("and", [FilterDescriptor("data.email", false, "contains", Str("a"))]),
    Groups,
    [],
    [LookupDescriptor("vendors", "vendorId", "_id", "vendor", true),
     LookupDescriptor("resellers", "vendor.resellerId", "_id", "reseller", true)],
    Aggs,
    map[], map[], [])

  // The stages the test expects, in its order.

  const InnerGroup: Doc := Stage("$group", Map(map[
    "_id" := Map(map["dataemail" := Str("$data.email"), "vendoremail" := Str("$vendor.email")]),
    "items" := Map(map["$push" := Str("$$ROOT")])]))

  const InnerSort: Doc := Stage("$sort", Map(map["_id.vendoremail" := Int(-1)]))

  const RawAggregates: Doc := Map(map["commissiondue" := Map(map[
    "average" := Map(map["$avg" := Str("$items.commission.due")]),
    "sum" := Map(map["$sum" := Str("$items.commission.due")])])])

  const OuterGroup: Doc := Stage("$group", Map(map[
    "_id" := Str("$_id.dataemail"),
    "items" := Map(map["$push" := Map(map[
      "value" := Str("$_id.vendoremail"),
      "items" := Str("$items"),
      "field" := Str("vendor.email"),
      "aggregates" := RawAggregates])])]))

  const OuterSort: Doc := Stage("$sort", Map(map["_id" := Int(1)]))

  const NestedAggregates: Doc := Map(map["commissiondue" := Map(map[
    "average" := Map(map["$avg" := Str("$items.aggregates.commissiondue.average")]),
    "sum" := Map(map["$sum" := Str("$items.aggregates.commissiondue.sum")])])])

  const FinalProject: Doc := Stage("$project", Map(map[
    "value" := Str("$_id"),
    "items" := Str("$items"),
    "field" := Str("data.email"),
    "aggregates" := NestedAggregates,
    "_id" := Int(0)]))

  /** The innermost `_id` of two groups with distinct keys. */
  lemma TwoFirstIds(g0: GroupDescriptor, g1: GroupDescriptor)
    ensures FirstIds([g0, g1]) == map[GroupKey(g0) := Ref(g0.field)][GroupKey(g1) := Ref(g1.field)]
  {
    assert [g0, g1][..1] == [g0];
    assert [g0][..0] == [];
  }

  /** Two aggregates of different kinds on the same key merge into one
      entry. */
  lemma TwoAccumulators(a0: AggregateDescriptor, a1: AggregateDescriptor, isRoot: bool)
    requires AggregateKey(a0) == AggregateKey(a1)
    ensures Accumulators([a0, a1], isRoot)
      == map[AggregateKey(a0) := map[a0.aggregate := Accumulator(a0, isRoot)][a1.aggregate := Accumulator(a1, isRoot)]]
  {
    assert [a0, a1][..1] == [a0];
    assert [a0][..0] == [];
  }

  /** With two groups the group part is the four rollup stages and the
      projection. */
  lemma TwoLevels(ds: DataState)
    requires |ds.group| == 2
    ensures var st := Stages(ds);
      Compiler.GroupPart(ds) == [st[0], st[1], st[2], st[3], Project(ds)]
  {
    var st := Stages(ds);
    assert Compiler.GroupPart(ds) == st + [Project(ds)];
    assert st + [Project(ds)] == [st[0], st[1], st[2], st[3], Project(ds)];
  }

  /** The keys of the example: the paths with their dots removed. */
  lemma ExampleKeys()
    ensures GroupKey(DataEmail) == "dataemail" && GroupKey(VendorEmail) == "vendoremail"
    ensures AggregateKey(AverageDue) == "commissiondue" && AggregateKey(SumDue) == "commissiondue"
  {
    assert "data" + "email" == "dataemail" && "vendor" + "email" == "vendoremail";
    assert "commission" + "due" == "commissiondue";
    DottedPathKey("data", "email");
    DottedPathKey("vendor", "email");
    DottedPathKey("commission", "due");
  }

  /** The operators of the two kinds. */
  lemma ExampleOperators()
    ensures AggregateOperator(AverageDue) == "$avg" && AggregateOperator(SumDue) == "$sum"
  {
    var op := AggregateOperator(SumDue);
    assert op == op[..1] + op[1..];
  }

  /** At the innermost level the accumulators read the raw rows. */
  lemma ExampleRawExpressions()
    ensures AggregateExpression(AverageDue, true) == "$items.commission.due"
    ensures AggregateExpression(SumDue, true) == "$items.commission.due"
  {
    assert "$items." + ("commission" + "." + "due") == "$items.commission.due";
  }

  /** Above it they read the aggregates of the level below. */
  lemma ExampleNestedExpressions()
    ensures AggregateExpression(AverageDue, false) == "$items.aggregates.commissiondue.average"
    ensures AggregateExpression(SumDue, false) == "$items.aggregates.commissiondue.sum"
  {
    assert "$items.aggregates." + "commissiondue" + "." + "average" == "$items.aggregates.commissiondue.average";
    assert "$items.aggregates." + "commissiondue" + "." + "sum" == "$items.aggregates.commissiondue.sum";
    ExampleKeys();
  }

  /** The accumulators of the two aggregates, reading the raw rows or the
      level below. */
  lemma ExampleAccumulators(isRoot: bool)
    ensures Accumulator(AverageDue, isRoot) == Map(map["$avg" := Str(
      if isRoot then "$items.commission.due" else "$items.aggregates.commissiondue.average")])
    ensures Accumulator(SumDue, isRoot) == Map(map["$sum" := Str(
      if isRoot then "$items.commission.due" else "$items.aggregates.commissiondue.sum")])
  {
    ExampleOperators();
    ExampleRawExpressions();
    ExampleNestedExpressions();
  }

  /** The level just above the innermost reads the raw item fields. */
  lemma ExampleRawAggregates()
    ensures AggregatesDoc(Aggs, true) == RawAggregates
  {
    ExampleKeys();
    TwoAccumulators(AverageDue, SumDue, true);
    ExampleAccumulators(true);
  }

  /** The projection reads the aggregates of the level below. */
  lemma ExampleNestedAggregates()
    ensures AggregatesDoc(Aggs, false) == NestedAggregates
  {
    ExampleKeys();
    TwoAccumulators(AverageDue, SumDue, false);
    ExampleAccumulators(false);
    assert Accumulators(Aggs, false) == map["commissiondue" := map[
      "average" := Map(map["$avg" := Str("$items.aggregates.commissiondue.average")]),
      "sum" := Map(map["$sum" := Str("$items.aggregates.commissiondue.sum")])]];
  }

  /** The fields of the example, as written and as `$` references. */
  lemma ExampleFields()
    ensures DataEmail.field == "data.email" && VendorEmail.field == "vendor.email"
    ensures Ref(DataEmail.field) == Str("$data.email") && Ref(VendorEmail.field) == Str("$vendor.email")
  {
    assert "data" + "." + "email" == "data.email" && "vendor" + "." + "email" == "vendor.email";
    assert "$" + ("data" + "." + "email") == "$data.email" && "$" + ("vendor" + "." + "email") == "$vendor.email";
  }

  /** The innermost `_id`: both keys, each referring to its field. */
  lemma ExampleFirstIds()
    ensures FirstIds(Groups) == map["dataemail" := Str("$data.email"), "vendoremail" := Str("$vendor.email")]
  {
    TwoFirstIds(DataEmail, VendorEmail);
    ExampleKeys();
    ExampleFields();
  }

  /** Level 1, the innermost: group by both keys and push the rows whole. */
  lemma ExampleInnerGroup(ds: DataState)
    requires ds.group == Groups
    ensures LevelGroups(ds)[1] == InnerGroup
  {
    InnermostLevel(ds);
    ExampleFirstIds();
  }

  /** After level 1, sort on the vendor key descending. */
  lemma ExampleInnerSort(ds: DataState)
    requires ds.group == Groups
    ensures LevelSorts(ds)[1] == InnerSort
  {
    assert "_id." + "vendoremail" == "_id.vendoremail";
    LevelSortAt(ds, 1);
    ExampleKeys();
  }

  /** After level 0, sort on `_id` ascending. */
  lemma ExampleOuterSort(ds: DataState)
    requires ds.group == Groups
    ensures LevelSorts(ds)[0] == OuterSort
  {
    LevelSortAt(ds, 0);
  }

  /** The document level 0 pushes: the vendor key as value, the items and
      field of level 1, and the aggregates over the raw rows. */
  lemma ExamplePushed(ds: DataState)
    requires ds.group == Groups && ds.aggregates == Aggs
    ensures Pushed(ds, "vendoremail", VendorEmail.field, 0) == map[
      "value" := Str("$_id.vendoremail"),
      "items" := Str("$items"),
      "field" := Str("vendor.email"),
      "aggregates" := RawAggregates]
  {
    assert "$" + ("_id." + "vendoremail") == "$_id.vendoremail";
    ExampleFields();
    ExampleRawAggregates();
  }

  /** Level 0: group by the scalar data key and push the level-1
      documents. */
  lemma ExampleOuterGroup(ds: DataState)
    requires ds.group == Groups && ds.aggregates == Aggs
    ensures LevelGroups(ds)[0] == OuterGroup
  {
    assert "$" + ("_id." + "dataemail") == "$_id.dataemail";
    OutermostLevel(ds);
    ExampleKeys();
    ExamplePushed(ds);
  }

  /** The final projection: the data key as value, the field of level 0,
      the aggregates of level 1 folded up, and no `_id`. */
  lemma ExampleProject(ds: DataState)
    requires ds.group == Groups && ds.aggregates == Aggs
    ensures Project(ds) == FinalProject
  {
    ExampleFields();
    var base := map["_id" := Int(0), "value" := Str("$_id"), "items" := Str("$items"), "field" := Str("data.email")];
    assert ProjectBase(ds) == base;
    ExampleNestedAggregates();
    assert AddAggregates(base, ds.aggregates, false) == base["aggregates" := NestedAggregates];
    assert Project(ds) == Stage("$project", Map(base["aggregates" := NestedAggregates]));
    assert base["aggregates" := NestedAggregates] == map["value" := Str("$_id"), "items" := Str("$items"), "field" := Str("data.email"), "aggregates" := NestedAggregates, "_id" := Int(0)];
  }

  /** The group part of the example's pipeline is the five stages the test
      expects, in its order. */
  lemma ExampleRollup()
    ensures Compiler.GroupPart(Example) == [InnerGroup, InnerSort, OuterGroup, OuterSort, FinalProject]
  {
    TwoLevels(Example);
    RollupAt(Example, 0);
    RollupAt(Example, 1);
    ExampleInnerGroup(Example);
    ExampleInnerSort(Example);
    ExampleOuterGroup(Example);
    ExampleOuterSort(Example);
    ExampleProject(Example);
  }
}
