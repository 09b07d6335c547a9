/** Decoded JSON values as the Python handlers see them, the exceptions the
    modelled code can raise, and the handful of Python operations on such
    values that the core relies on (`dict.get`, `in`, `str()` inside an f-string). */
module Json {
  import opened Seqs

  datatype Option<+T> = None | Some(value: T)

  /** A decoded JSON value. Objects are Python dicts with string keys; the key
      order of a dict is not modelled. Floats are kept as opaque text. */
  datatype Json =
    | JNull
    | JBool(b: bool)
    | JInt(i: int)
    | JFloat(text: string)
    | JStr(s: string)
    | JList(items: seq<Json>)
    | JObj(fields: map<string, Json>)

  /** The Python exceptions that the modelled code raises or lets through. */
  datatype Exc =
    | AttributeError(message: string)
    | TypeError(message: string)
    | ValidationError(model: string, field: string)
    | ClientError(message: string)
    | HttpException(status: int, detail: string)

  datatype Result<+T> = Ok(value: T) | Err(error: Exc) {
    predicate IsFailure() { Err? }
    function PropagateFailure<U>(): Result<U> requires Err? { Err(error) }
    function Extract(): T requires Ok? { value }
  }

  /** What an HTTP endpoint answers: a body, or an error status with its detail. */
  datatype Response<+T> = Ok200(body: T) | HttpError(status: int, detail: string)

  /** The Python class name of a value, as exception messages print it. */
  function TypeName(v: Json): string
  {
    match v
    case JNull => "NoneType"
    case JBool(_) => "bool"
    case JInt(_) => "int"
    case JFloat(_) => "float"
    case JStr(_) => "str"
    case JList(_) => "list"
    case JObj(_) => "dict"
  }

  /** Python's `v.get(key, default)`. Only a dict has `get`; a key that is present
      yields its value even when that value is null. */
  function Get(v: Json, key: string, default: Json): Result<Json>
  {
    match v
    case JObj(m) => Ok(if key in m then m[key] else default)
    case _ => Err(AttributeError("'" + TypeName(v) + "' object has no attribute 'get'"))
  }

  /** The chain `v.get(k0, {}).get(k1, {}) ... .get(kn, default)`. */
  function Lookup(v: Json, path: seq<string>, default: Json): Result<Json>
    requires path != []
    decreases |path|
  {
    if |path| == 1 then Get(v, path[0], default)
    else
      var next :- Get(v, path[0], JObj(map[]));
      Lookup(next, path[1..], default)
  }

  /** Python's `needle in haystack` for two strings. */
  predicate IsSubstring(needle: string, haystack: string)
    decreases |haystack|
  {
    needle <= haystack || (haystack != [] && IsSubstring(needle, haystack[1..]))
  }

  /** Python's `needle in container` for a string `needle`: a substring test on a
      string, element equality on a list, key membership on a dict; any other
      container raises TypeError. */
  function In(needle: string, container: Json): Result<bool>
  {
    match container
    case JStr(h) => Ok(IsSubstring(needle, h))
    case JList(items) => Ok(JStr(needle) in items)
    case JObj(m) => Ok(needle in m)
    case _ => Err(TypeError("argument of type '" + TypeName(container) + "' is not iterable"))
  }

  /** The decimal digits of a natural number. */
  function NatToString(n: nat): string
    decreases n
  {
    var digit := ["0", "1", "2", "3", "4", "5", "6", "7", "8", "9"][n % 10];
    if n < 10 then digit else NatToString(n / 10) + digit
  }

  function IntToString(i: int): string
  {
    if i < 0 then "-" + NatToString(-i) else NatToString(i)
  }

  /** `str(v)` as an f-string renders a scalar; lists and dicts get a fixed marker. */
  function Display(v: Json): string
  {
    match v
    case JNull => "None"
    case JBool(b) => if b then "True" else "False"
    case JInt(i) => IntToString(i)
    case JFloat(t) => t
    case JStr(s) => s
    case JList(_) => "[...]"
    case JObj(_) => "{...}"
  }

  /** `str(e)`: an HTTP exception prints as "<status>: <detail>", the others print
      their message. */
  function Describe(e: Exc): string
  {
    match e
    case AttributeError(m) => m
    case TypeError(m) => m
    case ValidationError(model, field) => model + "." + field  // pydantic's full report is not modelled
    case ClientError(m) => m
    case HttpException(status, detail) => IntToString(status) + ": " + detail
  }

  /** `needle` occurs in `haystack` starting at offset `k`. */
  predicate OccursAt(needle: string, haystack: string, k: int)
  {
    0 <= k && k + |needle| <= |haystack| && haystack[k..k + |needle|] == needle
  }

  /** Substring containment means occurring at some offset. */
  lemma {:induction false} IsSubstringAt(needle: string, haystack: string)
    ensures IsSubstring(needle, haystack) <==> exists k :: OccursAt(needle, haystack, k)
    decreases |haystack|
  {
    if needle <= haystack {
      assert OccursAt(needle, haystack, 0);
    } else if haystack == [] {
    } else {
      var tail := haystack[1..];
      IsSubstringAt(needle, tail);
      if exists k :: OccursAt(needle, haystack, k) {
        var k :| OccursAt(needle, haystack, k);
        assert k != 0;
        assert OccursAt(needle, tail, k - 1);
      }
      if IsSubstring(needle, tail) {
        var k :| OccursAt(needle, tail, k);
        assert haystack[k + 1..k + 1 + |needle|] == tail[k..k + |needle|];
        assert OccursAt(needle, haystack, k + 1);
      }
    }
  }

  /** `[x for x in items if test(x)]` where evaluating the condition may raise:
      the kept items in their order, or the exception of the first item whose
      test raises. */
  function TryFilter<T(!new)>(items: seq<T>, test: T -> Result<bool>): (r: Result<seq<T>>)
    ensures r.Ok? ==> IsSubsequence(r.value, items)
    ensures r.Ok? ==> KeepsExactly(r.value, items, x => test(x) == Ok(true))
    ensures r.Err? <==> exists i :: 0 <= i < |items| && test(items[i]).Err?
    ensures r.Err? ==>
      exists i :: 0 <= i < |items| && test(items[i]) == Err(r.error) && forall j :: 0 <= j < i ==> test(items[j]).Ok?
    ensures items == [] ==> r == Ok([])
  {
    if items == [] then Ok([])
    else
      SplitHead(items);
      var keep :- test(items[0]);
      var rest :- TryFilter(items[1..], test);
      assert forall i :: 1 <= i < |items| ==> items[i] == items[1..][i - 1];
      if keep then
        assert ([items[0]] + rest)[1..] == rest;
        Ok([items[0]] + rest)
      else Ok(rest)
  }
}
