/**
 The small part of the Python runtime that the modelled scripts rely on:
 optional values, the exceptions they raise, the truthiness rule used by
 `if x:` / `and`, and the ASCII behaviour of `str.lower()` / `str.upper()`.
 */
module Python {

  /** `T | None` */
  datatype Option<+T> = None | Some(value: T)

  /** The exception kinds the modelled code can raise. `IndexError` carries no
      message because its text depends on the container type. */
  datatype Exception =
    | ValueError(message: string)
    | AssertionError(message: string)
    | IndexError
    | TypeError(message: string)
    | AttributeError(name: string)
    | RuntimeError(message: string)

  /** A call either returns a value or raises. */
  datatype Result<+T> = Ok(value: T) | Raise(error: Exception)

  /** The dynamically typed values that appear in dictionaries and attributes. */
  datatype Value = NoneValue | Bool(b: bool) | Int(i: int) | Str(s: string)

  /** An object's `__dict__`: attribute names and their values. */
  type Attrs = map<string, Value>

  /** `obj.name`: the attribute, or AttributeError when it was never set. */
  function GetAttr(d: Attrs, name: string): (r: Result<Value>)
    ensures r.Ok? <==> name in d
    ensures r.Ok? ==> r.value == d[name]
    ensures r.Raise? ==> r.error == AttributeError(name)
  {
    if name in d then Ok(d[name]) else Raise(AttributeError(name))
  }

  /** Python's truth value: None, False, 0 and "" are false, the rest true. */
  function Truthy(v: Value): (b: bool)
    ensures !b <==> v in {NoneValue, Bool(false), Int(0), Str("")}
  {
    match v
    case NoneValue => false
    case Bool(t) => t
    case Int(i) => i != 0
    case Str(s) => s != ""
  }

  /** The falsy values, listed: every other value is truthy. */
  lemma FalsyValues(v: Value)
    ensures !Truthy(v) <==> v == NoneValue || v == Bool(false) || v == Int(0) || v == Str("")
  {
  }

  predicate IsUpper(c: char) {
    'A' <= c <= 'Z'
  }

  predicate IsLower(c: char) {
    'a' <= c <= 'z'
  }

  /** ASCII case mapping of one character; every other character is kept. */
  function LowerChar(c: char): (r: char)
    ensures !IsUpper(r)
    ensures !IsUpper(c) ==> r == c
    ensures IsUpper(c) ==> IsLower(r) && r as int - c as int == 32
  {
    if IsUpper(c) then (c as int + 32) as char else c
  }

  function UpperChar(c: char): (r: char)
    ensures !IsLower(r)
    ensures !IsLower(c) ==> r == c
    ensures IsLower(c) ==> IsUpper(r) && c as int - r as int == 32
  {
    if IsLower(c) then (c as int - 32) as char else c
  }

  /** `s.lower()` restricted to ASCII letters. */
  function Lower(s: string): (r: string)
    ensures |r| == |s|
    ensures forall i :: 0 <= i < |s| ==> r[i] == LowerChar(s[i])
  {
    if s == [] then [] else [LowerChar(s[0])] + Lower(s[1..])
  }

  /** `s.upper()` restricted to ASCII letters. */
  function Upper(s: string): (r: string)
    ensures |r| == |s|
    ensures forall i :: 0 <= i < |s| ==> r[i] == UpperChar(s[i])
  {
    if s == [] then [] else [UpperChar(s[0])] + Upper(s[1..])
  }

  predicate NoUpper(s: string) {
    forall i :: 0 <= i < |s| ==> !IsUpper(s[i])
  }

  predicate NoLower(s: string) {
    forall i :: 0 <= i < |s| ==> !IsLower(s[i])
  }

  /** A string without upper-case letters is its own lower-case form. */
  lemma LowerFixesNoUpper(s: string)
    requires NoUpper(s)
    ensures Lower(s) == s
  {
  }

  /** Lower-casing is decided character by character. */
  lemma LowerPointwise(s: string, t: string)
    requires |s| == |t| && forall i :: 0 <= i < |s| ==> LowerChar(s[i]) == t[i]
    ensures Lower(s) == t
  {
  }

  /** Upper-casing a string with no upper-case letters and lower-casing it back
      gives the string again. */
  lemma LowerUpperRoundTrip(s: string)
    requires NoUpper(s)
    ensures Lower(Upper(s)) == s
  {
    var u := Upper(s);
    forall i | 0 <= i < |s|
      ensures LowerChar(u[i]) == s[i]
    {
      assert u[i] == UpperChar(s[i]);
    }
    LowerPointwise(u, s);
  }

  /** `s.lower().lower() == s.lower()` */
  lemma LowerIdempotent(s: string)
    ensures NoUpper(Lower(s))
    ensures Lower(Lower(s)) == Lower(s)
  {
    LowerFixesNoUpper(Lower(s));
  }

  lemma UpperFixesNoLower(s: string)
    requires NoLower(s)
    ensures Upper(s) == s
  {
  }

  predicate EndsWith(s: string, suffix: string) {
    |suffix| <= |s| && s[|s| - |suffix|..] == suffix
  }

  predicate StartsWith(s: string, prefix: string) {
    |prefix| <= |s| && s[..|prefix|] == prefix
  }

  /** A concatenation starts with its first part, and the rest is the second. */
  lemma SplitAt(p: string, t: string)
    ensures StartsWith(p + t, p) && (p + t)[|p|..] == t
  {
    assert (p + t)[..|p|] == p;
  }
}
