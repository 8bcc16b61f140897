/** The dynamically typed values the adapter receives from its callers
    (Python's `Any`), with Python's truthiness and `str()`. */
module Values {
  import opened Results
  import opened PyText

  /** A Python value, as far as the adapter can tell values apart:
      - VNone is `None`;
      - VDict holds a dict's entries in insertion order;
      - VOther is any other object (a float, a bool, a user object), known
        only by its truthiness and by the texts `str()` and `repr()` give
        for it, which may differ (`str(Fraction(1, 2))` is `1/2`, its
        `repr()` is `Fraction(1, 2)`). */
  datatype Value =
    | VNone
    | VStr(s: string)
    | VInt(i: int)
    | VList(items: seq<Value>)
    | VDict(entries: seq<(Value, Value)>)
    | VOther(truthy: bool, text: string, reprText: string)

  /** Python's `bool(v)`: empty strings and containers, zero and `None`
      are false. */
  predicate Truthy(v: Value) {
    match v
    case VNone => false
    case VStr(s) => |s| > 0
    case VInt(i) => i != 0
    case VList(items) => |items| > 0
    case VDict(entries) => |entries| > 0
    case VOther(t, _, _) => t
  }

  /** `key in d` followed by `d[key]`: the binding of `key`, the latest
      one when a key was assigned more than once. */
  function Lookup(entries: seq<(Value, Value)>, key: Value): (r: Option<Value>)
    ensures r.None? <==> forall i :: 0 <= i < |entries| ==> entries[i].0 != key
    ensures r.Some? ==> exists i :: 0 <= i < |entries| && entries[i] == (key, r.value)
  {
    if |entries| == 0 then None
    else if entries[|entries| - 1].0 == key then
      assert entries[|entries| - 1] == (key, entries[|entries| - 1].1);
      Some(entries[|entries| - 1].1)
    else
      var r := Lookup(entries[..|entries| - 1], key);
      assert forall i :: 0 <= i < |entries| - 1 ==> entries[..|entries| - 1][i] == entries[i];
      r
  }

  /** `str(v)`, as an f-string interpolates it: a string as it is, any
      other object by its own `str()` text, and containers, numbers and
      `None` as `repr()` spells them. */
  function Str(v: Value): string {
    match v
    case VStr(s) => s
    case VOther(_, text, _) => text
    case _ => Repr(v)
  }

  /** `repr(v)`, which is also how a list or dict shows its elements.
      String escaping is not modelled: a string is shown between single
      quotes as it is. */
  function Repr(v: Value): string
    decreases v
  {
    match v
    case VNone => "None"
    case VStr(s) => "'" + s + "'"
    case VInt(i) => IntText(i)
    case VList(items) =>
      "[" + Join(seq(|items|, k requires 0 <= k < |items| => Repr(items[k]))) + "]"
    case VDict(entries) =>
      "{" + Join(seq(|entries|, k requires 0 <= k < |entries| =>
                   Repr(entries[k].0) + ": " + Repr(entries[k].1))) + "}"
    case VOther(_, _, text) => text
  }

  /** `", ".join(parts)`. */
  function Join(parts: seq<string>): string {
    if |parts| == 0 then ""
    else if |parts| == 1 then parts[0]
    else parts[0] + ", " + Join(parts[1..])
  }
}
