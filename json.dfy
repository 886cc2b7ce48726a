/** The Option type shared by every module. */
module Wrappers {
  datatype Option<+T> = None | Some(value: T)
}

/** Decimal digits and substring search on strings. */
module Text {

  function DigitChar(d: nat): (c: char)
    requires d < 10
    ensures '0' <= c <= '9'
  {
    "0123456789"[d]
  }

  predicate IsDigit(c: char) {
    '0' <= c <= '9'
  }

  function DigitValue(c: char): (d: nat)
    requires IsDigit(c)
    ensures d < 10 && DigitChar(d) == c
  {
    (c as int - '0' as int) as nat
  }

  function Pow10(n: nat): (p: nat)
    ensures p >= 1
  {
    if n == 0 then 1 else 10 * Pow10(n - 1)
  }

  /** The last `width` decimal digits of n, zero-padded on the left. */
  function Digits(n: nat, width: nat): (s: string)
    ensures |s| == width
    ensures forall k :: 0 <= k < |s| ==> IsDigit(s[k])
  {
    if width == 0 then "" else Digits(n / 10, width - 1) + [DigitChar(n % 10)]
  }

  /** The number a string of decimal digits denotes. */
  function DigitsValue(s: string): nat
    requires forall k :: 0 <= k < |s| ==> IsDigit(s[k])
  {
    if s == [] then 0 else 10 * DigitsValue(s[..|s| - 1]) + DigitValue(s[|s| - 1])
  }

  /** Reading back a zero-padded field yields the number it was written from. */
  lemma {:induction false} DigitsRoundTrip(n: nat, width: nat)
    requires n < Pow10(width)
    ensures DigitsValue(Digits(n, width)) == n
  {
    if width > 0 {
      var s := Digits(n, width);
      assert s[..|s| - 1] == Digits(n / 10, width - 1);
      DigitsRoundTrip(n / 10, width - 1);
    }
  }

  /** Dropping the last three digits of a six-digit field is division by 1000
      (strftime's %f microseconds cut to milliseconds by `[:-3]`). */
  lemma MillisPrefix(us: nat)
    ensures Digits(us, 6)[..3] == Digits(us / 1000, 3)
  {
    var s := Digits(us, 6);
    assert s[..5] == Digits(us / 10, 5);
    assert Digits(us / 10, 5)[..4] == Digits(us / 10 / 10, 4);
    assert Digits(us / 10 / 10, 4)[..3] == Digits(us / 10 / 10 / 10, 3);
    assert s[..3] == s[..5][..4][..3];
    assert us / 10 / 10 / 10 == us / 1000;
  }

  /** Decimal rendering of a natural number, as Python's str() writes it. */
  function NatToDecimal(n: nat): (s: string)
    ensures |s| >= 1
    ensures forall k :: 0 <= k < |s| ==> IsDigit(s[k])
  {
    if n < 10 then [DigitChar(n)] else NatToDecimal(n / 10) + [DigitChar(n % 10)]
  }

  function IntToDecimal(n: int): string {
    if n < 0 then "-" + NatToDecimal(-n) else NatToDecimal(n)
  }

  /** t occurs in s starting at index i. */
  predicate OccursAt(t: string, s: string, i: int) {
    0 <= i && i + |t| <= |s| && s[i..i + |t|] == t
  }

  /** Python's `t in s` for two strings, scanning s from the left. */
  predicate IsSubstring(t: string, s: string)
    decreases |s|
  {
    OccursAt(t, s, 0) || (s != [] && IsSubstring(t, s[1..]))
  }

  /** The scan agrees with the declarative reading in both directions. */
  lemma {:induction false} IsSubstringIff(t: string, s: string)
    ensures IsSubstring(t, s) <==> exists i :: OccursAt(t, s, i)
    decreases |s|
  {
    if s != [] {
      IsSubstringIff(t, s[1..]);
      if exists i :: OccursAt(t, s, i) {
        var i :| OccursAt(t, s, i);
        if i > 0 {
          assert s[1..][i - 1..i - 1 + |t|] == s[i..i + |t|];
          assert OccursAt(t, s[1..], i - 1);
        }
      }
      if IsSubstring(t, s[1..]) {
        var i :| OccursAt(t, s[1..], i);
        assert s[i + 1..i + 1 + |t|] == s[1..][i..i + |t|];
        assert OccursAt(t, s, i + 1);
      }
    } else {
      if exists i :: OccursAt(t, s, i) {
        var i :| OccursAt(t, s, i);
        assert i == 0;
      }
    }
  }
}

/** A parsed JSON value, as `response.json()` and `json.load` produce it. */
module Json {
  import opened Wrappers
  import Text

  datatype Json =
    | JNull
    | JBool(b: bool)
    | JInt(i: int)
    | JStr(s: string)
    | JList(items: seq<Json>)
    | JDict(fields: map<string, Json>)

  /** Python truthiness: None, False, 0, "", [] and {} are falsy. */
  predicate Truthy(j: Json) {
    match j
    case JNull => false
    case JBool(b) => b
    case JInt(i) => i != 0
    case JStr(s) => s != ""
    case JList(items) => items != []
    case JDict(fields) => fields != map[]
  }

  /** `j[key]`: None exactly when the subscript raises (a KeyError on a dict without
      the key, a TypeError on a list, string, number or None). */
  function Get(j: Json, key: string): Option<Json> {
    if j.JDict? && key in j.fields then Some(j.fields[key]) else None
  }

  /** Python's `needle in j`: substring for strings, element for lists, key for dicts;
      None where Python raises a TypeError (None, booleans, numbers). */
  function Contains(j: Json, needle: string): Option<bool> {
    match j
    case JStr(s) => Some(Text.IsSubstring(needle, s))
    case JList(items) => Some(JStr(needle) in items)
    case JDict(fields) => Some(needle in fields)
    case _ => None
  }

  /** The text an f-string substitutes for a value: exact for strings, integers,
      booleans and None; lists and dicts are shown by a fixed placeholder. */
  function Display(j: Json): string {
    match j
    case JNull => "None"
    case JBool(b) => if b then "True" else "False"
    case JInt(i) => Text.IntToDecimal(i)
    case JStr(s) => s
    case JList(_) => "[...]"
    case JDict(_) => "{...}"
  }
}
