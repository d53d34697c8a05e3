/**
 * JSON values as the pipeline sees them after `json.load`, with the parts of
 * Python's dynamic behaviour the core depends on: truthiness, `str()`,
 * `dict.get` (which raises on anything that is not a dict) and `x or y`.
 * Also the exceptions the core can raise.
 */
module Json {
  import opened Wrappers
  import opened Strings

  /**
   * An IEEE double, kept opaque: only what the core observes of it is
   * recorded — its `repr`, whether `math.isfinite` holds, whether it is zero.
   */
  datatype Float = Float(repr: string, finite: bool, zero: bool)

  datatype Json =
    | JNull
    | JBool(b: bool)
    | JInt(i: int)
    | JFloat(f: Float)
    | JStr(s: string)
    | JArr(items: seq<Json>)
    | JObj(fields: map<string, Json>)

  /** The exceptions raised by the modelled code. */
  datatype Failure =
    /** AttributeError or TypeError: `.get` on a non-dict, iterating a
        non-iterable, a regex applied to a non-string. */
    | Malformed
    /** A zero batch size: ValueError from `range(0, n, 0)` in `embed_texts`,
        ZeroDivisionError from the batch count of `build_qdrant_points`. */
    | ZeroBatchSize
    /** ValueError("Inconsistent embedding dimension at index ...") */
    | InconsistentDimension(index: nat, expected: nat, got: nat)
    /** An exception raised by the embedding provider. */
    | ProviderFailed(error: ProviderError)

  /** What the embedding provider can raise. */
  datatype ProviderError =
    /** openai.RateLimitError, with its `code` attribute and its message. */
    | RateLimit(code: string, message: string)
    /** Any other provider or transport error. */
    | OtherError(message: string)

  const EmptyObj: Json := JObj(map[])

  /** Python truthiness of a JSON value. */
  predicate Truthy(v: Json) {
    match v
    case JNull => false
    case JBool(b) => b
    case JInt(i) => i != 0
    case JFloat(f) => !f.zero
    case JStr(s) => s != []
    case JArr(xs) => xs != []
    case JObj(m) => m != map[]
  }

  /** Python's `a or b`. */
  function Or(a: Json, b: Json): (r: Json)
    ensures Truthy(a) ==> r == a
    ensures !Truthy(a) ==> r == b
  {
    if Truthy(a) then a else b
  }

  /**
   * Python's `str(v)`. Containers are rendered as a fixed marker (their
   * exact `repr` is not part of this model); every other value as Python does.
   */
  function PyStr(v: Json): string {
    match v
    case JNull => "None"
    case JBool(b) => if b then "True" else "False"
    case JInt(i) => IntToString(i)
    case JFloat(f) => f.repr
    case JStr(s) => s
    case JArr(xs) => if xs == [] then "[]" else "[...]"
    case JObj(m) => if m == map[] then "{}" else "{...}"
  }

  /** `d.get(k)` on a dict known to be one: `None` (JSON null) when absent. */
  function Field(d: map<string, Json>, k: string): Json {
    if k in d then d[k] else JNull
  }

  /** `d.get(k, dflt)` on a value that may not be a dict. */
  function GetOr(d: Json, k: string, dflt: Json): (r: Result<Json, Failure>)
    ensures r.Ok? <==> d.JObj?
    ensures d.JObj? && k in d.fields ==> r == Ok(d.fields[k])
    ensures d.JObj? && k !in d.fields ==> r == Ok(dflt)
  {
    if d.JObj? then Ok(if k in d.fields then d.fields[k] else dflt) else Err(Malformed)
  }

  /** `d.get(k)` on a value that may not be a dict. */
  function Get(d: Json, k: string): (r: Result<Json, Failure>)
    ensures r.Ok? <==> d.JObj?
    ensures d.JObj? ==> r == Ok(Field(d.fields, k))
  {
    GetOr(d, k, JNull)
  }

  /** A Python `Optional[str]` as JSON. */
  function OptJson(o: Option<string>): (v: Json)
    ensures o.None? <==> v == JNull
  {
    if o.Some? then JStr(o.value) else JNull
  }

  function StrArray(xs: seq<string>): (v: Json)
    ensures v.JArr? && |v.items| == |xs|
    ensures forall i :: 0 <= i < |xs| ==> v.items[i] == JStr(xs[i])
  {
    JArr(seq(|xs|, i requires 0 <= i < |xs| => JStr(xs[i])))
  }
}
