/**
 * Values as Python's `json.load` returns them, with the few Python operations
 * the engine applies to them: truthiness, `dict.get`, the `in` operator and
 * `str()`. A failing operation yields the exception Python would raise.
 */
module Json {
  import opened Wrappers
  import opened Text

  /** A parsed JSON value: `None`, `bool`, `int`, `float`, `str`, `list` or `dict`. */
  datatype Json =
    | Null
    | Bool(b: bool)
    | Num(n: int)
    | Float(r: real)
    | Str(s: string)
    | Arr(items: seq<Json>)
    | Obj(fields: map<string, Json>)

  /**
   * The exceptions the modelled code can raise, and `DictKeyOrder`, which is
   * not one: it marks a value that hangs on the insertion order of a dict's
   * keys, which a `map` does not keep, so the model does not say what it is.
   */
  datatype PyError = TypeError | AttributeError | KeyError | ValueError | DictKeyOrder

  /** Python's truth value of a parsed value. */
  predicate Truthy(j: Json) {
    match j
    case Null => false
    case Bool(b) => b
    case Num(n) => n != 0
    case Float(r) => r != 0.0
    case Str(s) => s != ""
    case Arr(a) => a != []
    case Obj(m) => |m| != 0
  }

  /** `j.get(key, default)`: only a dict has `get`. */
  function Get(j: Json, key: string, default: Json): (r: Result<Json, PyError>)
    ensures r.Success? <==> j.Obj?
    ensures j.Obj? && key in j.fields ==> r.value == j.fields[key]
    ensures j.Obj? && key !in j.fields ==> r.value == default
  {
    match j
    case Obj(m) => Success(if key in m then m[key] else default)
    case _ => Failure(AttributeError)
  }

  /**
   * `x in container`: list membership, a dict key test (an unhashable list or
   * dict as the key raises), a substring test when both are strings, and a
   * TypeError for anything else.
   */
  function In(x: Json, container: Json): (r: Result<bool, PyError>)
    ensures container.Arr? ==> r == Success(x in container.items)
    ensures container.Obj? && x.Str? ==> r == Success(x.s in container.fields)
    ensures container.Str? && x.Str? ==> r == Success(ContainsSub(container.s, x.s))
    ensures !container.Arr? && !container.Obj? && !container.Str? ==> r == Failure(TypeError)
  {
    match container
    case Arr(items) => Success(x in items)
    case Obj(m) =>
      if x.Arr? || x.Obj? then Failure(TypeError)
      else Success(x.Str? && x.s in m)
    case Str(s) => if x.Str? then Success(ContainsSub(s, x.s)) else Failure(TypeError)
    case _ => Failure(TypeError)
  }

  /**
   * `str(j)` for the scalar values; the text Python prints for a float, a list
   * or a dict is not part of this model.
   */
  function PyStr(j: Json): (r: Option<string>)
    ensures r.Some? <==> j.Null? || j.Bool? || j.Num? || j.Str?
    ensures j.Str? ==> r == Some(j.s)
    ensures j.Num? ==> r == Some(IntToString(j.n))
  {
    match j
    case Null => Some("None")
    case Bool(b) => Some(if b then "True" else "False")
    case Num(n) => Some(IntToString(n))
    case Str(s) => Some(s)
    case _ => None
  }

  /** The string values of a list, or nothing when one of them is not a string. */
  function Strings(xs: seq<Json>): (r: Option<seq<string>>)
    ensures r.Some? <==> forall k :: 0 <= k < |xs| ==> xs[k].Str?
    ensures r.Some? ==> |r.value| == |xs| && forall k :: 0 <= k < |xs| ==> r.value[k] == xs[k].s
  {
    if xs == [] then Some([])
    else if !xs[0].Str? then None
    else match Strings(xs[1..])
      case None => None
      case Some(rest) => Some([xs[0].s] + rest)
  }

  /** A sequence of strings as a list value. */
  function StrArr(xs: seq<string>): (r: Json)
    ensures r.Arr? && |r.items| == |xs| && forall k :: 0 <= k < |xs| ==> r.items[k] == Str(xs[k])
  {
    Arr(seq(|xs|, k requires 0 <= k < |xs| => Str(xs[k])))
  }

  /** Turning strings into a list value and reading them back gives the same strings. */
  lemma StringsOfStrArr(xs: seq<string>)
    ensures Strings(StrArr(xs).items) == Some(xs)
  {
    var r := Strings(StrArr(xs).items);
    assert r.value == xs;
  }
}
