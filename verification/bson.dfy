/** Documents as the aggregation engine sees them (`bson.M` and the scalar
    values stored in it). Two documents are equal exactly when
    `reflect.DeepEqual` would call the corresponding `bson.M` values equal:
    maps compare by key set and values, never by insertion order. */
module Bson {
  import opened StrConv
  import opened Timestamps

  datatype Doc =
    | Null
    | Bool(b: bool)
    | Str(s: string)
    | Int(i: int)
    | Num(n: NumVal)
    | Time(t: TimeVal)
    | Arr(items: seq<Doc>)
    | Map(m: map<string, Doc>)

  /** A one-stage document `{op: body}`. */
  function Stage(op: string, body: Doc): Doc
  {
    Map(map[op := body])
  }

  /** `d` is a stage document whose only key is `op`. */
  predicate IsStage(d: Doc, op: string)
  {
    d.Map? && d.m.Keys == {op}
  }

  /** The body of the stage `d` when its operator is `op`. */
  function Body(d: Doc, op: string): Doc
  {
    if d.Map? && op in d.m then d.m[op] else Null
  }

  /** A field path reference `"$path"`. */
  function Ref(path: string): Doc
  {
    Str("$" + path)
  }
}

/** util.go: copyM, the shallow copy taken of the composite key map. */
module Util {
  import opened Bson

  /** A fresh map with the same entries. Dafny maps are values, so a later
      removal from `m` can never reach the copy; this is the aliasing the
      Go code guards against with copyM. */
  function CopyM(m: map<string, Doc>): (c: map<string, Doc>)
    ensures c.Keys == m.Keys
    ensures forall k :: k in c ==> c[k] == m[k]
  {
    map k | k in m :: m[k]
  }
}
