/**
  A JSON document as `json.load` hands it to the extractor, and the few Python
  operations the extractor applies to it: the `in` test, subscripting by a
  string key and by an integer index, and `str()` as an f-string renders it.
 */
module Json {
  import opened Wrappers

  /**
    The Python value `json.load` returns. An object is a dict: its members in
    insertion order (the order `str()` of a dict shows them in), keys distinct.
    A float is carried by the text Python's `repr` gives it. A document that
    repeats a key is represented by the dict `json.load` builds from it: the
    last value wins, at the position of the key's first occurrence.
   */
  datatype JsonValue =
    | JNull
    | JBool(b: bool)
    | JInt(i: int)
    | JFloat(repr: string)
    | JString(s: string)
    | JArray(items: seq<JsonValue>)
    | JObject(members: seq<(string, JsonValue)>)

  /** The exceptions the extractor's expressions can raise on a parsed value. */
  datatype PyError = TypeError | KeyError | IndexError

  /** Dict lookup: the value stored under `key`, if any. */
  function Lookup(members: seq<(string, JsonValue)>, key: string): (r: Option<JsonValue>)
    ensures r.Some? <==> exists i :: 0 <= i < |members| && members[i].0 == key
    ensures r.Some? ==> exists i :: 0 <= i < |members| && members[i] == (key, r.value)
  {
    if members == [] then None
    else if members[0].0 == key then Some(members[0].1)
    else Lookup(members[1..], key)
  }

  /** `t` occurs in `s` as a contiguous piece (Python's `t in s` on two strings). */
  predicate IsSubstring(t: string, s: string) {
    (|t| <= |s| && s[..|t|] == t) || (s != [] && IsSubstring(t, s[1..]))
  }

  /**
    Python's `key in v` for a string `key`: a key test on a dict, an element
    test on a list, a substring test on a string; any other value is not a
    container and raises TypeError.
   */
  function Contains(v: JsonValue, key: string): Result<bool, PyError> {
    match v
    case JObject(members) => Ok(Lookup(members, key).Some?)
    case JArray(items) => Ok(JString(key) in items)
    case JString(s) => Ok(IsSubstring(key, s))
    case _ => Err(TypeError)
  }

  /**
    Python's `v[key]` for a string `key`: a dict lookup (KeyError when the key
    is absent); a list or string index must be an integer and every other
    value is not subscriptable, both TypeError.
   */
  function GetKey(v: JsonValue, key: string): Result<JsonValue, PyError> {
    match v
    case JObject(members) =>
      (match Lookup(members, key)
       case Some(x) => Ok(x)
       case None => Err(KeyError))
    case _ => Err(TypeError)
  }

  /**
    Python's `v[i]` for a non-negative integer `i`: the i-th element of a list,
    the i-th character (as a one-character string) of a string, IndexError
    past the end; a dict's keys are strings, so an integer is never one of
    them (KeyError); every other value is not subscriptable (TypeError).
   */
  function GetIndex(v: JsonValue, i: nat): Result<JsonValue, PyError> {
    match v
    case JArray(items) => if i < |items| then Ok(items[i]) else Err(IndexError)
    case JString(s) => if i < |s| then Ok(JString([s[i]])) else Err(IndexError)
    case JObject(_) => Err(KeyError)
    case _ => Err(TypeError)
  }

  /** Python's `str(v)`: a string stands for itself, anything else is its repr. */
  function PyStr(v: JsonValue): string {
    match v
    case JString(s) => s
    case _ => PyRepr(v)
  }

  /** Python's `repr(v)` for a value `json.load` can return. */
  function PyRepr(v: JsonValue): string {
    match v
    case JNull => "None"
    case JBool(b) => if b then "True" else "False"
    case JInt(i) => DecimalString(i)
    case JFloat(r) => r
    case JString(s) => ReprString(s)
    case JArray(items) => "[" + ReprItems(items) + "]"
    case JObject(members) => "{" + ReprMembers(members) + "}"
  }

  /** List elements, repr'd and separated by ", ". */
  function ReprItems(items: seq<JsonValue>): string {
    if items == [] then ""
    else if |items| == 1 then PyRepr(items[0])
    else PyRepr(items[0]) + ", " + ReprItems(items[1..])
  }

  /** Dict members as `'key': repr(value)`, separated by ", ". */
  function ReprMembers(members: seq<(string, JsonValue)>): string {
    if members == [] then ""
    else
      assert members[0].1 < members[0];
      var member := ReprString(members[0].0) + ": " + PyRepr(members[0].1);
      if |members| == 1 then member
      else member + ", " + ReprMembers(members[1..])
  }

  /** Decimal text of an integer, with a leading '-' when negative. */
  function DecimalString(i: int): string {
    if i < 0 then "-" + NatDigits(-i) else NatDigits(i)
  }

  function NatDigits(n: nat): (s: string)
    ensures |s| >= 1
  {
    if n < 10 then ["0123456789"[n]] else NatDigits(n / 10) + ["0123456789"[n % 10]]
  }

  /**
    Python's `repr` of a string: single quotes, unless the string holds a single
    quote and no double quote; backslash, the chosen quote, tab, newline and
    carriage return escaped; the other control characters of Latin-1 as `\xhh`.
   */
  function ReprString(s: string): string {
    var quote := if '\'' in s && '"' !in s then '"' else '\'';
    [quote] + EscapeAll(s, quote) + [quote]
  }

  function EscapeAll(s: string, quote: char): string {
    if s == [] then "" else Escape(s[0], quote) + EscapeAll(s[1..], quote)
  }

  function Escape(c: char, quote: char): string {
    var code := c as int;
    if c == quote || c == '\\' then ['\\', c]
    else if c == '\t' then "\\t"
    else if c == '\n' then "\\n"
    else if c == '\r' then "\\r"
    else if code < 0x20 || (0x7f <= code <= 0xa0) || code == 0xad then
      "\\x" + ["0123456789abcdef"[code / 16], "0123456789abcdef"[code % 16]]
    else [c]
  }
}
