/** The Python values that flow through readers and writers: records, field names, query filters. */
module PyValues {
  import opened Wrappers

  /** A Python value. A dict is the ordered list of its (key, value) pairs, as Python keeps insertion order. */
  datatype Value =
    | VNone
    | VBool(b: bool)
    | VInt(i: int)
    | VStr(s: string)
    | VList(items: seq<Value>)
    | VDict(entries: seq<(Value, Value)>)

  /** Python truthiness: `if v:`. */
  predicate Truthy(v: Value)
  {
    match v
    case VNone => false
    case VBool(b) => b
    case VInt(i) => i != 0
    case VStr(s) => s != ""
    case VList(xs) => xs != []
    case VDict(es) => es != []
  }

  /** Lists and dicts cannot be dict keys. */
  predicate Hashable(v: Value)
  {
    !v.VList? && !v.VDict?
  }

  /** The value a key is compared by: Python treats True as 1 and False as 0. */
  function HashKey(v: Value): Value
  {
    if v.VBool? then VInt(if v.b then 1 else 0) else v
  }

  /** Two dict keys name the same slot. */
  predicate SameKey(a: Value, b: Value)
  {
    HashKey(a) == HashKey(b)
  }

  /** `list(d.keys())`. */
  function Keys(entries: seq<(Value, Value)>): (ks: seq<Value>)
    ensures |ks| == |entries|
    ensures forall i :: 0 <= i < |entries| ==> ks[i] == entries[i].0
  {
    if entries == [] then [] else [entries[0].0] + Keys(entries[1..])
  }

  /** `d.get(k)`: the value of the first entry whose key names the same slot as `k`. */
  function Get(entries: seq<(Value, Value)>, k: Value): Option<Value>
  {
    if entries == [] then None
    else if SameKey(entries[0].0, k) then Some(entries[0].1)
    else Get(entries[1..], k)
  }

  /** `d[k] = v`: an existing slot keeps its place and its key object; a new key is appended. */
  function DictSet(entries: seq<(Value, Value)>, k: Value, v: Value): (r: seq<(Value, Value)>)
    ensures |r| == |entries| || r == entries + [(k, v)]
  {
    if entries == [] then [(k, v)]
    else if SameKey(entries[0].0, k) then [(entries[0].0, v)] + entries[1..]
    else
      var rest := DictSet(entries[1..], k, v);
      assert [entries[0]] + (entries[1..] + [(k, v)]) == entries + [(k, v)];
      [entries[0]] + rest
  }

  /** After `d[k] = v`, every key naming the slot of `k` finds `v`. */
  lemma {:induction false} DictSetHit(entries: seq<(Value, Value)>, k: Value, v: Value, f: Value)
    requires SameKey(k, f)
    ensures Get(DictSet(entries, k, v), f) == Some(v)
  {
    if entries != [] && !SameKey(entries[0].0, k) {
      DictSetHit(entries[1..], k, v, f);
    }
  }

  /** `d[k] = v` leaves every other slot as it was. */
  lemma {:induction false} DictSetMiss(entries: seq<(Value, Value)>, k: Value, v: Value, f: Value)
    requires !SameKey(k, f)
    ensures Get(DictSet(entries, k, v), f) == Get(entries, f)
  {
    if entries != [] && !SameKey(entries[0].0, k) {
      DictSetMiss(entries[1..], k, v, f);
    }
  }

  /** A key not yet present is appended at the end. */
  lemma {:induction false} DictSetNew(entries: seq<(Value, Value)>, k: Value, v: Value)
    requires Get(entries, k) == None
    ensures DictSet(entries, k, v) == entries + [(k, v)]
  {
    if entries != [] {
      DictSetNew(entries[1..], k, v);
      assert [entries[0]] + (entries[1..] + [(k, v)]) == entries + [(k, v)];
    }
  }

  /** Setting a slot to the value it already holds changes nothing. */
  lemma {:induction false} DictSetSame(entries: seq<(Value, Value)>, k: Value, v: Value)
    requires Get(entries, k) == Some(v)
    ensures DictSet(entries, k, v) == entries
  {
    if !SameKey(entries[0].0, k) {
      DictSetSame(entries[1..], k, v);
    }
  }

  // ---- str() and repr() ----

  function DigitChar(d: nat): char
    requires d < 10
  {
    "0123456789"[d]
  }

  function NatDecimal(n: nat): string
  {
    if n < 10 then [DigitChar(n)] else NatDecimal(n / 10) + [DigitChar(n % 10)]
  }

  /** `str(i)` for an int. */
  function IntDecimal(i: int): string
  {
    if i < 0 then "-" + NatDecimal(-i) else NatDecimal(i)
  }

  function HexDigit(d: nat): char
    requires d < 16
  {
    "0123456789abcdef"[d]
  }

  /** The escape `repr` writes for one character of a string quoted with `q`. */
  function EscapeChar(c: char, q: char): string
  {
    if c == q || c == '\\' then ['\\', c]
    else if c == '\t' then "\\t"
    else if c == '\n' then "\\n"
    else if c == '\r' then "\\r"
    else if c < ' ' || ('\U{7F}' <= c <= '\U{A0}') || c == '\U{AD}' then
      var n := c as int;
      ['\\', 'x', HexDigit(n / 16), HexDigit(n % 16)]
    else [c]
  }

  function EscapeString(s: string, q: char): string
  {
    if s == [] then [] else EscapeChar(s[0], q) + EscapeString(s[1..], q)
  }

  /** `repr(s)` for a str: single quotes unless the text holds a single quote and no double quote. */
  function QuoteString(s: string): string
  {
    var q := if '\'' in s && '"' !in s then '"' else '\'';
    [q] + EscapeString(s, q) + [q]
  }

  /** `repr(v)`. */
  function Repr(v: Value): string
    decreases v
  {
    match v
    case VNone => "None"
    case VBool(b) => if b then "True" else "False"
    case VInt(i) => IntDecimal(i)
    case VStr(s) => QuoteString(s)
    case VList(items) =>
      "[" + JoinComma(seq(|items|, k requires 0 <= k < |items| => Repr(items[k]))) + "]"
    case VDict(entries) =>
      "{" + JoinComma(seq(|entries|, k requires 0 <= k < |entries| =>
                            Repr(entries[k].0) + ": " + Repr(entries[k].1))) + "}"
  }

  function JoinComma(parts: seq<string>): string
  {
    if parts == [] then ""
    else if |parts| == 1 then parts[0]
    else parts[0] + ", " + JoinComma(parts[1..])
  }

  /** `str(v)`: a str is itself, everything else is its repr. */
  function Str(v: Value): (r: string)
    ensures v.VStr? ==> r == v.s
    ensures v.VInt? ==> r == IntDecimal(v.i)
  {
    if v.VStr? then v.s else Repr(v)
  }
}
