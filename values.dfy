/**
 * The data a fetcher produces. In the source it is `unknown` (any JSON-like
 * JavaScript value, or `undefined`); here it is a tree of JSON values, so that
 * deep equality (lodash `isEqual`) is Dafny's structural `==`.
 */
module Values {

  datatype Value =
    | Undefined
    | Null
    | Bool(b: bool)
    | Num(n: int)
    | Str(s: string)
    | Arr(items: seq<Value>)
    | Obj(fields: map<string, Value>)

  /** lodash `isEqual`: deep structural equality. */
  predicate IsEqual(a: Value, b: Value)
  {
    a == b
  }

  /** `diff` of packages/core/src/utils.ts: true when the two values are deeply equal. */
  predicate Diff(currentData: Value, nextData: Value)
  {
    IsEqual(currentData, nextData)
  }

}
