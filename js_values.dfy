/**
 * The small part of JavaScript's value semantics the application logic leans on:
 * truthiness of strings and numbers (`a || b`, `a ?? b`), `toLowerCase`, `includes`,
 * `slice(-n)`, number-to-text conversion, and what a `catch` block receives.
 */
module JsValues {
  import opened Wrappers

  /** Truthiness of an optional string: `null`, `undefined` and `""` are falsy. */
  predicate Truthy(s: Option<string>) {
    s.Some? && s.value != ""
  }

  /** `s || null` for a form field: the empty string becomes `null`. */
  function OrNull(s: string): (r: Option<string>)
    ensures Truthy(r) <==> s != ""
    ensures r.None? <==> s == ""
    ensures r.Some? ==> r.value == s
  {
    if s == "" then None else Some(s)
  }

  /** `a || b` where `a` may be null, undefined or empty. */
  function Or(a: Option<string>, b: string): (r: string)
    ensures Truthy(a) ==> r == a.value
    ensures !Truthy(a) ==> r == b
  {
    if Truthy(a) then a.value else b
  }

  /** `Math.abs`. */
  function Abs(x: real): (r: real)
    ensures r >= 0.0 && (r == x || r == -x)
  {
    if x < 0.0 then -x else x
  }

  /** `x || fallback` on a number that is never NaN: 0 is the only falsy value. */
  function OrNumber(x: real, fallback: real): (r: real)
    ensures x != 0.0 ==> r == x
    ensures x == 0.0 ==> r == fallback
  {
    if x != 0.0 then x else fallback
  }

  /** `a ?? b`: only `null`/`undefined` fall through; an empty string is kept. */
  function Coalesce<T>(a: Option<T>, b: T): (r: T)
    ensures a.Some? ==> r == a.value
    ensures a.None? ==> r == b
  {
    if a.Some? then a.value else b
  }

  /** Truthiness of a number: 0 is falsy (NaN is not modelled). */
  predicate TruthyNumber(n: Option<int>) {
    n.Some? && n.value != 0
  }

  /** Lower-casing of one character; only the ASCII letters A-Z are mapped. */
  function LowerChar(c: char): char {
    if 'A' <= c <= 'Z' then (c as int + 32) as char else c
  }

  /** `s.toLowerCase()`, restricted to ASCII letters. */
  function ToLower(s: string): (r: string)
    ensures |r| == |s|
    ensures forall i :: 0 <= i < |s| ==> r[i] == LowerChar(s[i])
  {
    seq(|s|, i requires 0 <= i < |s| => LowerChar(s[i]))
  }

  /** `s.includes(sub)`: `sub` starts at the first position of `s` or at a later one. */
  predicate Includes(s: string, sub: string)
    decreases |s|
  {
    (|sub| <= |s| && s[..|sub|] == sub) || (s != [] && Includes(s[1..], sub))
  }

  /** A string never includes a longer one. */
  lemma {:induction false} IncludesShorter(s: string, sub: string)
    requires |s| < |sub|
    ensures !Includes(s, sub)
    decreases |s|
  {
    if s != [] {
      IncludesShorter(s[1..], sub);
    }
  }

  /** Between strings of the same length, inclusion is equality. */
  lemma IncludesSameLength(s: string, sub: string)
    requires |s| == |sub|
    ensures Includes(s, sub) <==> s == sub
  {
    if s != [] {
      IncludesShorter(s[1..], sub);
    }
  }

  /** `s.slice(-n)` for n > 0: the last n characters, or all of `s` when it is shorter. */
  function SliceLast(s: string, n: nat): (r: string)
    requires n > 0
    ensures |r| == if |s| < n then |s| else n
    ensures s == s[..|s| - |r|] + r
  {
    if |s| < n then s else s[|s| - n..]
  }

  /** The decimal digit for d. */
  function DigitChar(d: nat): (c: char)
    requires d < 10
    ensures '0' <= c <= '9'
  {
    "0123456789"[d]
  }

  /** The decimal text of a natural number, as `toString()` writes it. */
  function NatToString(n: nat): (r: string)
    ensures |r| >= 1
    ensures forall i :: 0 <= i < |r| ==> '0' <= r[i] <= '9'
    decreases n
  {
    if n < 10 then [DigitChar(n)] else NatToString(n / 10) + [DigitChar(n % 10)]
  }

  /** The decimal text of an integer, with a leading minus sign when negative. */
  function IntToString(n: int): (r: string)
    ensures |r| >= 1
    ensures (r[0] == '-') <==> n < 0
  {
    if n < 0 then "-" + NatToString(-n) else NatToString(n)
  }

  /** What a `catch (error: unknown)` block receives. */
  datatype Thrown = ErrorThrown(message: string) | NonErrorThrown

  /** `error instanceof Error ? error.message : fallback`. */
  function ThrownMessage(e: Thrown, fallback: string): (r: string)
    ensures e.ErrorThrown? ==> r == e.message
    ensures e.NonErrorThrown? ==> r == fallback
  {
    match e
    case ErrorThrown(m) => m
    case NonErrorThrown => fallback
  }
}
