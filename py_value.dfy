/**
 * The part of Python's data model that the tool handlers touch: JSON values as
 * `json` decodes them, dictionary lookup with a default, truthiness, iteration,
 * `len`, `str` and `str.lower`, and the exceptions that ill-typed values raise.
 */
module PyValue {
  import opened Wrappers

  /** A decoded JSON value. Objects keep their keys in insertion order. */
  datatype Value =
    | VNull
    | VBool(b: bool)
    | VInt(i: int)
    | VStr(s: string)
    | VList(items: seq<Value>)
    | VObj(fields: seq<(string, Value)>)

  /** A Python dict with string keys, as an association list. */
  type Dict = seq<(string, Value)>

  /** The built-in exceptions that ill-typed input makes the handlers raise. */
  datatype PyError = TypeError | AttributeError

  /** `key in d` */
  predicate HasKey(d: Dict, key: string) {
    exists i :: 0 <= i < |d| && d[i].0 == key
  }

  /** `d[key]` when present: the first binding of `key`. */
  function Lookup(d: Dict, key: string): (r: Option<Value>)
    ensures r.Some? <==> HasKey(d, key)
    ensures r.Some? ==> exists i :: 0 <= i < |d| && d[i] == (key, r.value)
  {
    if d == [] then None
    else if d[0].0 == key then Some(d[0].1)
    else
      var r := Lookup(d[1..], key);
      assert HasKey(d, key) ==> HasKey(d[1..], key) by {
        if HasKey(d, key) {
          var i :| 0 <= i < |d| && d[i].0 == key;
          assert i > 0 && d[1..][i - 1].0 == key;
        }
      }
      assert r.Some? ==> exists i :: 0 <= i < |d| && d[i] == (key, r.value) by {
        if r.Some? {
          var i :| 0 <= i < |d[1..]| && d[1..][i] == (key, r.value);
          assert d[i + 1] == (key, r.value);
        }
      }
      r
  }

  /** `d.get(key, default)`: the default only when the key is absent, not when it is bound to null. */
  function Get(d: Dict, key: string, default: Value): Value {
    Lookup(d, key).GetOr(default)
  }

  /** Python truthiness: None, False, 0 and empty strings, lists and dicts are false. */
  predicate Truthy(v: Value) {
    match v
    case VNull => false
    case VBool(b) => b
    case VInt(i) => i != 0
    case VStr(s) => s != ""
    case VList(items) => items != []
    case VObj(fields) => fields != []
  }

  /** A string, list or dict is truthy exactly when it is not empty; a number exactly when it is not 0. */
  lemma TruthyIsNonEmpty(v: Value)
    ensures Iterate(v).Ok? ==> (Truthy(v) <==> Len(v).value > 0)
    ensures v.VInt? ==> (Truthy(v) <==> v.i != 0)
    ensures v.VBool? ==> (Truthy(v) <==> v.b)
    ensures v.VNull? ==> !Truthy(v)
  {
  }

  /** The items a `for` loop visits: list elements, the characters of a string, the keys of a dict. */
  function Iterate(v: Value): (r: Result<seq<Value>, PyError>)
    ensures r.Err? <==> v.VNull? || v.VBool? || v.VInt?
    ensures v.VList? ==> r == Ok(v.items)
    ensures v.VStr? ==> r.Ok? && |r.value| == |v.s|
                        && forall i :: 0 <= i < |v.s| ==> r.value[i] == VStr([v.s[i]])
    ensures v.VObj? ==> r.Ok? && |r.value| == |v.fields|
                        && forall i :: 0 <= i < |v.fields| ==> r.value[i] == VStr(v.fields[i].0)
  {
    match v
    case VList(items) => Ok(items)
    case VStr(s) => Ok(seq(|s|, i requires 0 <= i < |s| => VStr([s[i]])))
    case VObj(fields) => Ok(seq(|fields|, i requires 0 <= i < |fields| => VStr(fields[i].0)))
    case _ => Err(TypeError)
  }

  /** `len(v)`; numbers, booleans and None have no length. */
  function Len(v: Value): (r: Result<nat, PyError>)
    ensures r.Ok? <==> Iterate(v).Ok?
    ensures r.Ok? ==> r.value == |Iterate(v).value|
  {
    match v
    case VList(items) => Ok(|items|)
    case VStr(s) => Ok(|s|)
    case VObj(fields) => Ok(|fields|)
    case _ => Err(TypeError)
  }

  function LowerChar(c: char): char {
    if 'A' <= c <= 'Z' then (c as int + 32) as char else c
  }

  /** `s.lower()` on ASCII letters. */
  function Lower(s: string): (r: string)
    ensures |r| == |s|
    ensures forall i :: 0 <= i < |s| ==> r[i] == LowerChar(s[i])
  {
    if s == [] then [] else [LowerChar(s[0])] + Lower(s[1..])
  }

  /** Lower-casing twice is lower-casing once, so a key compared after `lower()` is case-insensitive. */
  lemma LowerIdempotent(s: string)
    ensures Lower(Lower(s)) == Lower(s)
  {
    var once := Lower(s);
    assert forall i :: 0 <= i < |s| ==> Lower(once)[i] == once[i];
  }

  /** A string without upper-case ASCII letters is its own lower-casing. */
  lemma LowerAsciiLower(s: string)
    requires forall i :: 0 <= i < |s| ==> !('A' <= s[i] <= 'Z')
    ensures Lower(s) == s
  {
  }

  /** The characters of all parts together. */
  function TotalLength(parts: seq<string>): nat {
    if parts == [] then 0 else |parts[0]| + TotalLength(parts[1..])
  }

  /**
   * `sep.join(parts)`: the parts in order with one separator between neighbours,
   * so the first part opens the text and the length is the parts' plus the separators'.
   */
  function Join(parts: seq<string>, sep: string): (r: string)
    ensures parts == [] ==> r == ""
    ensures |parts| == 1 ==> r == parts[0]
    ensures parts != [] ==> |parts[0]| <= |r| && r[..|parts[0]|] == parts[0]
    ensures parts != [] ==> |r| == TotalLength(parts) + (|parts| - 1) * |sep|
  {
    if parts == [] then ""
    else if |parts| == 1 then parts[0]
    else
      var r := parts[0] + sep + Join(parts[1..], sep);
      assert r[..|parts[0]|] == parts[0];
      r
  }

  /** Joining one more leading part puts the separator between it and the rest. */
  lemma JoinCons(first: string, rest: seq<string>, sep: string)
    requires rest != []
    ensures Join([first] + rest, sep) == first + sep + Join(rest, sep)
  {
    assert ([first] + rest)[1..] == rest;
  }

  function DigitChar(d: nat): (c: char)
    requires d < 10
    ensures '0' <= c <= '9' && c as int - '0' as int == d
  {
    ('0' as int + d) as char
  }

  /** The number a string of decimal digits denotes. */
  function DigitsValue(s: string): int {
    if s == [] then 0 else DigitsValue(s[..|s| - 1]) * 10 + (s[|s| - 1] as int - '0' as int)
  }

  /** Decimal digits without a leading zero, denoting `n`. */
  function NatToString(n: nat): (r: string)
    ensures |r| >= 1 && (r[0] != '0' || n == 0)
    ensures forall k :: 0 <= k < |r| ==> '0' <= r[k] <= '9'
    ensures DigitsValue(r) == n
  {
    if n < 10 then
      var r := [DigitChar(n)];
      assert r[..|r| - 1] == [];
      r
    else
      var high := NatToString(n / 10);
      var r := high + [DigitChar(n % 10)];
      assert r[..|r| - 1] == high;
      r
  }

  /** `str(n)` for an integer: a minus sign exactly for a negative number, then the digits of its magnitude. */
  function IntToString(n: int): (r: string)
    ensures |r| >= 1 && (r[0] == '-' <==> n < 0)
    ensures n < 0 ==> r == "-" + NatToString(-n)
    ensures n >= 0 ==> DigitsValue(r) == n
  {
    if n < 0 then "-" + NatToString(-n) else NatToString(n)
  }

  /** `str(v)`, which an f-string placeholder applies to its value. */
  function Str(v: Value): (r: string)
    ensures v.VNull? ==> r == "None"
    ensures v.VBool? ==> r == (if v.b then "True" else "False")
    ensures v.VInt? ==> r == IntToString(v.i)
    ensures v.VStr? ==> r == v.s
    ensures v.VList? ==> |r| >= 2 && r[0] == '[' && r[|r| - 1] == ']'
    ensures v.VObj? ==> |r| >= 2 && r[0] == '{' && r[|r| - 1] == '}'
    decreases v, 0
  {
    match v
    case VNull => "None"
    case VBool(b) => if b then "True" else "False"
    case VInt(i) => IntToString(i)
    case VStr(s) => s
    case VList(items) =>
      "[" + Join(seq(|items|, k requires 0 <= k < |items| => Repr(items[k])), ", ") + "]"
    case VObj(fields) =>
      "{" + Join(seq(|fields|, k requires 0 <= k < |fields| =>
                   "'" + fields[k].0 + "': " + Repr(fields[k].1)), ", ") + "}"
  }

  /** `repr(v)` inside a container: strings are single-quoted, everything else as `str`. */
  function Repr(v: Value): string
    decreases v, 1
  {
    if v.VStr? then "'" + v.s + "'" else Str(v)
  }
}
