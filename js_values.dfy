/** The JavaScript values the front end inspects: the results of
    `JSON.parse`, axios error objects and React state. Functions are not
    values here, and numbers are integers. The operators the pages rely on
    are written out: truthiness, `||`, `??`, `.key`, `?.key`, `===` on
    primitives and `String(v)`. */
module JsValues {
  import opened Text

  datatype JsValue =
    | Undefined
    | Null
    | Bool(b: bool)
    | Num(n: int)
    | Str(s: string)
    | Arr(elems: seq<JsValue>)
    | Obj(props: map<string, JsValue>)

  /** How a JavaScript expression finishes: with a value, or by throwing. */
  datatype Completion = Normal(value: JsValue) | Throw(exception: JsValue)

  /** How an awaited promise (an HTTP call, say) settles. */
  datatype Settled = Fulfilled(value: JsValue) | Rejected(reason: JsValue)

  /** JavaScript's ToBoolean: `undefined`, `null`, `false`, `0` and `''` are falsy. */
  predicate Truthy(v: JsValue) {
    match v
    case Undefined => false
    case Null => false
    case Bool(b) => b
    case Num(n) => n != 0
    case Str(s) => s != ""
    case Arr(_) => true
    case Obj(_) => true
  }

  predicate IsNullish(v: JsValue) {
    v.Undefined? || v.Null?
  }

  /** `a || b`: the first operand when it is truthy, else the second. */
  function Or(a: JsValue, b: JsValue): (r: JsValue)
    ensures Truthy(r) <==> Truthy(a) || Truthy(b)
  {
    if Truthy(a) then a else b
  }

  /** `a ?? b`: the first operand unless it is `null` or `undefined`. */
  function Coalesce(a: JsValue, b: JsValue): (r: JsValue)
    ensures IsNullish(r) ==> IsNullish(a) && r == b
  {
    if IsNullish(a) then b else a
  }

  /** `v.key` on a value that is not `null`/`undefined` (those throw a
      TypeError, which callers model). Primitives and arrays have none of the
      property names this model reads. */
  function Get(v: JsValue, key: string): JsValue
    requires !IsNullish(v)
  {
    if v.Obj? && key in v.props then v.props[key] else Undefined
  }

  /** `v?.key`. */
  function OptGet(v: JsValue, key: string): (r: JsValue)
    ensures IsNullish(v) ==> r == Undefined
  {
    if IsNullish(v) then Undefined else Get(v, key)
  }

  /** A TypeError object, as the engine throws it for `x.key` on
      `null`/`undefined` or for calling a value that is not a function. */
  function TypeError(message: string): JsValue {
    Obj(map["name" := Str("TypeError"), "message" := Str(message)])
  }

  /** The TypeError thrown by reading `key` from a nullish value. */
  function ReadError(v: JsValue, key: string): JsValue
    requires IsNullish(v)
  {
    TypeError("Cannot read properties of " + (if v.Null? then "null" else "undefined")
              + " (reading '" + key + "')")
  }

  /** `v.key` with its failure: reading from `null`/`undefined` throws. */
  function Read(v: JsValue, key: string): (c: Completion)
    ensures c.Throw? <==> IsNullish(v)
  {
    if IsNullish(v) then Throw(ReadError(v, key)) else Normal(Get(v, key))
  }

  /** `String(v)` / template-literal conversion. */
  function ToStr(v: JsValue): string
    decreases v, 0
  {
    match v
    case Undefined => "undefined"
    case Null => "null"
    case Bool(b) => if b then "true" else "false"
    case Num(n) => Decimal(n)
    case Str(s) => s
    case Arr(xs) => Join(seq(|xs|, i requires 0 <= i < |xs| => JoinPiece(xs[i])), ",")
    case Obj(_) => "[object Object]"
  }

  /** How `Array.prototype.join` writes one element: `null` and `undefined` as ''. */
  function JoinPiece(v: JsValue): string
    decreases v, 1
  {
    if IsNullish(v) then "" else ToStr(v)
  }

  /** Strings joined with a separator between consecutive ones. */
  function Join(parts: seq<string>, sep: string): (r: string)
    ensures parts == [] ==> r == ""
    ensures |parts| == 1 ==> r == parts[0]
  {
    if parts == [] then ""
    else if |parts| == 1 then parts[0]
    else Join(parts[..|parts| - 1], sep) + sep + parts[|parts| - 1]
  }

  /** `xs.join(sep)` on an array of values. */
  function JoinValues(xs: seq<JsValue>, sep: string): string {
    Join(seq(|xs|, i requires 0 <= i < |xs| => JoinPiece(xs[i])), sep)
  }

  /** `typeof v === 'string' ? v : fallback`, the guard every page puts on
      the error it is about to show. */
  function StringOr(v: JsValue, fallback: string): (r: string)
    ensures v.Str? ==> r == v.s
    ensures !v.Str? ==> r == fallback
  {
    if v.Str? then v.s else fallback
  }
}
