/**
 * Decoded JSON documents, as the weather service's response body reaches the
 * client once it has been decoded, and the handful of Python operations the
 * client applies to them: subscripting (`v[key]`, `v[i]`), the membership
 * test `key in v`, and iteration by a `for` loop.
 */
module Json {
  import opened Wrappers

  datatype Json =
    | Null
    | Bool(b: bool)
    | Num(n: real)
    | Str(s: string)
    | Arr(items: seq<Json>)
    | Obj(fields: map<string, Json>)

  /** `v[key]`: defined on a dict that holds `key`. A missing key (KeyError)
      and any other kind of value (TypeError) give None. */
  function Member(v: Json, key: string): Option<Json>
  {
    if v.Obj? && key in v.fields then Some(v.fields[key]) else None
  }

  /** `v[i]` on a list; an index past the end (IndexError) and a dict
      (KeyError, since JSON keys are strings) give None. Indexing a string
      gives a one-character string, which no caller here can subscript by a
      key afterwards, so it gives None as well. */
  function Item(v: Json, i: nat): Option<Json>
  {
    if v.Arr? && i < |v.items| then Some(v.items[i]) else None
  }

  /** Whether `needle` occurs as a contiguous run in `hay`. */
  predicate IsSubstring(needle: string, hay: string)
  {
    needle <= hay || (hay != [] && IsSubstring(needle, hay[1..]))
  }

  /** Python's `key in container` for a string `key`: a dict tests its keys,
      a list its elements, a string its substrings; any other value raises
      TypeError, given as None. */
  function PyIn(key: string, container: Json): Option<bool>
  {
    match container
    case Obj(fields) => Some(key in fields)
    case Arr(items) => Some(Str(key) in items)
    case Str(s) => Some(IsSubstring(key, s))
    case _ => None
  }

  /** The elements a Python `for` loop over `v` visits, or None when the loop
      raises. A list visits its items and a string its one-character strings.
      A dict visits its keys; a map keeps no key order, and every loop in this
      model fails on its first element when that element is a string (a string
      has no `.get`), so a non-empty dict is given as the failing loop it
      causes, and an empty one as no elements. */
  function Iteration(v: Json): Option<seq<Json>>
  {
    match v
    case Arr(items) => Some(items)
    case Str(s) => Some(seq(|s|, i requires 0 <= i < |s| => Str([s[i]])))
    case Obj(fields) => if |fields| == 0 then Some([]) else None
    case _ => None
  }
}
