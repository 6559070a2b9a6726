/** JSON-like values as the search client hands them back (Python dicts, lists,
    strings, ints, booleans and None), and the few Python operations the
    search tools apply to them: `dict.get` with a default, slicing `v[:n]`,
    and iterating over the slice. An operation that would raise a Python
    exception returns `Raised(str(e))` instead. */
module Json {

  datatype Option<T> = None | Some(value: T)

  /** The outcome of a Python expression that may raise: its value, or the
      text `str(e)` of the exception it raised. */
  datatype Raises<T> = Ok(value: T) | Raised(message: string)

  /** A decoded JSON document. `Obj` is a Python dict keyed by strings. */
  datatype Json =
    | Null
    | Bool(b: bool)
    | Num(n: int)
    | Str(s: string)
    | Arr(items: seq<Json>)
    | Obj(fields: map<string, Json>)

  function Min(a: int, b: int): (m: int)
    ensures m <= a && m <= b && (m == a || m == b)
  {
    if a <= b then a else b
  }

  /** Python's `type(v).__name__` for a decoded JSON value. */
  function TypeName(v: Json): string
  {
    match v
    case Null => "NoneType"
    case Bool(_) => "bool"
    case Num(_) => "int"
    case Str(_) => "str"
    case Arr(_) => "list"
    case Obj(_) => "dict"
  }

  /** `d.get(key, default)` on a dict. */
  function Get(d: map<string, Json>, key: string, default: Json): Json
  {
    if key in d then d[key] else default
  }

  /** The text of the AttributeError raised by `v.get(...)` when `v` is not a dict. */
  function NoGetMessage(v: Json): string
  {
    "'" + TypeName(v) + "' object has no attribute 'get'"
  }

  /** The text of the TypeError raised by `v[:n]` when `v` is not a dict, list or string. */
  function NotSubscriptableMessage(v: Json): string
  {
    "'" + TypeName(v) + "' object is not subscriptable"
  }

  /** The text of the TypeError raised by `d[:n]` on a dict. */
  const UnhashableSliceMessage: string := "unhashable type: 'slice'"

  /** `v[:n]`: the first `n` characters of a string or the first `n` elements
      of a list, or whichever is shorter; any other value raises. */
  function Slice(v: Json, n: nat): Raises<Json>
  {
    match v
    case Str(s) => Ok(Str(s[..Min(n, |s|)]))
    case Arr(a) => Ok(Arr(a[..Min(n, |a|)]))
    case Obj(_) => Raised(UnhashableSliceMessage)
    case _ => Raised(NotSubscriptableMessage(v))
  }

  /** The elements a `for x in v[:n]` loop visits: the first `n` list elements,
      or the first `n` characters of a string, each as a one-character string. */
  function SliceItems(v: Json, n: nat): Raises<seq<Json>>
  {
    match v
    case Arr(a) => Ok(a[..Min(n, |a|)])
    case Str(s) =>
      var m := Min(n, |s|);
      Ok(seq(m, i requires 0 <= i < m => Str([s[i]])))
    case Obj(_) => Raised(UnhashableSliceMessage)
    case _ => Raised(NotSubscriptableMessage(v))
  }

  /** Slicing a string keeps a prefix of at most `n` characters, and the whole
      string when it is no longer than `n`. */
  lemma SliceString(s: string, n: nat)
    ensures Slice(Str(s), n).Ok? && Slice(Str(s), n).value.Str?
    ensures var t := Slice(Str(s), n).value.s;
      |t| <= n && t <= s && (|s| <= n ==> t == s) && (n < |s| ==> |t| == n)
  {
  }

  /** Iterating over a sliced list visits a prefix of the list, in order:
      `min(n, len)` elements, the whole list when it has at most `n`. */
  lemma SliceItemsList(a: seq<Json>, n: nat)
    ensures SliceItems(Arr(a), n).Ok?
    ensures var items := SliceItems(Arr(a), n).value;
      items <= a && |items| == Min(n, |a|) && (|a| <= n ==> items == a)
  {
  }

  /** Only lists and strings can be sliced and iterated; every other value raises. */
  lemma SliceItemsRaises(v: Json, n: nat)
    ensures SliceItems(v, n).Raised? <==> !(v.Arr? || v.Str?)
    ensures SliceItems(v, n).Ok? ==> |SliceItems(v, n).value| <= n
  {
  }
}
