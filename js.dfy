/** Values as the JavaScript code sees them: optional values (`null` /
    `undefined`), truthiness of optional strings, and untyped inputs. */
module Js {

  /** `T | null | undefined`, and the return of a lookup that may miss. */
  datatype Option<T> = None | Some(value: T)

  /** A value of unknown type arriving from a caller: either a string or
      some other JavaScript value. A non-string value is identified by `id`,
      so that two such values can be told apart when they serve as map keys. */
  datatype Value = Str(s: string) | NonString(id: nat)

  /** JavaScript truthiness of a `string | undefined`: present and non-empty. */
  predicate Truthy(o: Option<string>)
  {
    o.Some? && o.value != ""
  }

  /** `a || b` on two values of type `string | undefined | null`. */
  function Or(a: Option<string>, b: Option<string>): (r: Option<string>)
    ensures Truthy(a) ==> r == a
    ensures !Truthy(a) ==> r == b
  {
    if Truthy(a) then a else b
  }

  /** Reading `process.env.NAME`: the variable's text, or nothing when unset. */
  function Lookup(vars: map<string, string>, name: string): (r: Option<string>)
    ensures r.Some? <==> name in vars
    ensures r.Some? ==> r.value == vars[name]
  {
    if name in vars then Some(vars[name]) else None
  }
}
