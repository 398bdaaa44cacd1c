/** JavaScript value semantics that the rest of the model relies on:
    optional properties, the `||` default operator on strings, and
    untyped JSON-like values. */
module Js {

  /** An optional property: `None` stands for `undefined` (or `null`). */
  datatype Option<+T> = None | Some(value: T)

  /** `o || d` where `o` is an optional string: both `undefined` and the
      empty string are falsy, so both give way to the default. */
  function Or(o: Option<string>, d: string): (r: string)
    ensures o.Some? && o.value != "" ==> r == o.value
    ensures o.None? || o.value == "" ==> r == d
  {
    if o.Some? && o.value != "" then o.value else d
  }

  /** `s || d` where `s` is a string that is always present. */
  function OrString(s: string, d: string): (r: string)
    ensures s != "" ==> r == s
    ensures s == "" ==> r == d
  {
    if s != "" then s else d
  }

  /** An untyped JavaScript value as it travels through JSON: tool
      arguments, tool results, input schemas, request bodies. */
  datatype JsValue =
    | Undefined
    | Null
    | Bool(b: bool)
    | Number(n: real)
    | Str(s: string)
    | Array(items: seq<JsValue>)
    | Object(fields: seq<(string, JsValue)>)
}
