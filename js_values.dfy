/** JavaScript values as the Picnic client handles them: optional strings,
    JSON request bodies, and the truthiness tests (`x || d`, `x && {...}`,
    `if (x)`) the client uses to pick defaults and to include optional
    parts of a request. */
module JsValues {

  /** An optional value; `None` stands for JavaScript's `undefined` / `null`. */
  datatype Option<+T> = None | Some(value: T)

  /** A JSON value as axios serialises it into a request body.
      JavaScript numbers are modelled as integers. */
  datatype Json =
    | JNull
    | JBool(b: bool)
    | JNum(n: int)
    | JStr(s: string)
    | JArr(items: seq<Json>)
    | JObj(fields: seq<(string, Json)>)

  /** JavaScript truthiness of a JSON value: `null`, `false`, `0` and `""`
      are falsy; every array and every object, even an empty one, is truthy. */
  predicate Truthy(j: Json)
    ensures j.JArr? || j.JObj? ==> Truthy(j)
    ensures j.JNull? ==> !Truthy(j)
    ensures j.JStr? ==> (Truthy(j) <==> |j.s| > 0)
    ensures j.JNum? ==> (Truthy(j) <==> j.n != 0)
  {
    match j
    case JNull => false
    case JBool(b) => b
    case JNum(n) => n != 0
    case JStr(s) => s != ""
    case JArr(_) => true
    case JObj(_) => true
  }

  /** Truthiness of an optional string: `undefined`, `null` and `""` are falsy. */
  predicate Present(o: Option<string>) {
    o.Some? && o.value != ""
  }

  /** `o || fallback` on an optional string. */
  function OrElse(o: Option<string>, fallback: string): (r: string)
    ensures Present(o) ==> r == o.value
    ensures !Present(o) ==> r == fallback
    ensures fallback != "" ==> r != ""
  {
    if Present(o) then o.value else fallback
  }

  /** `o || null` on an optional string: an empty string becomes `null`. */
  function OrNull(o: Option<string>): (r: Option<string>)
    ensures r.Some? ==> r == o && r.value != ""
    ensures Present(o) ==> r == o
  {
    if Present(o) then o else None
  }

  /** A default parameter `p = d`: the default is taken only when the
      argument is left out (`None`, JavaScript's `undefined`); any value
      passed, even a falsy one, is kept. */
  function OrDefault<T>(o: Option<T>, d: T): (r: T)
    ensures o.Some? ==> r == o.value
    ensures o.None? ==> r == d
  {
    match o
    case Some(v) => v
    case None => d
  }
}
