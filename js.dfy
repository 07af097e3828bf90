/**
 * The few JavaScript built-ins the components rely on, with the semantics
 * they have on the values the components pass them.
 */
module Js {

  /** `undefined` versus a present value (optional chaining, `Array.prototype.find`). */
  datatype Option<T> = None | Some(value: T)

  /** `s || fallback` on a string: the empty string is falsy. */
  function Or(s: string, fallback: string): string
  {
    if s == "" then fallback else s
  }

  /**
   * `s.slice(start, end)` for non-negative bounds: the elements from `start`
   * up to but not including `end`, both clamped to the length.
   */
  function Slice<T>(s: seq<T>, start: nat, end: nat): (r: seq<T>)
    ensures |r| == if end <= start || |s| <= start then 0 else (if end <= |s| then end else |s|) - start
    ensures forall i :: 0 <= i < |r| ==> r[i] == s[start + i]
  {
    if end <= start || |s| <= start then [] else s[start..if end <= |s| then end else |s|]
  }

  /** `sub` occurs in `s` starting at index `i`. */
  predicate OccursAt(s: string, sub: string, i: int)
  {
    0 <= i && i + |sub| <= |s| && s[i..i + |sub|] == sub
  }

  /** `s.includes(sub)`, as a scan from the front of `s`. */
  predicate Includes(s: string, sub: string)
    decreases |s|
  {
    OccursAt(s, sub, 0) || (|s| > 0 && Includes(s[1..], sub))
  }

  /** The scan finds `sub` exactly when `sub` occurs at some index of `s`. */
  lemma {:induction false} IncludesIffOccurs(s: string, sub: string)
    ensures Includes(s, sub) <==> exists i :: OccursAt(s, sub, i)
    decreases |s|
  {
    if |s| > 0 {
      var t := s[1..];
      IncludesIffOccurs(t, sub);
      forall i | OccursAt(t, sub, i)
        ensures OccursAt(s, sub, i + 1)
      {
        assert t[i..i + |sub|] == s[i + 1..i + 1 + |sub|];
      }
      forall i | OccursAt(s, sub, i) && i > 0
        ensures OccursAt(t, sub, i - 1)
      {
        assert t[i - 1..i - 1 + |sub|] == s[i..i + |sub|];
      }
    } else {
      forall i | OccursAt(s, sub, i)
        ensures i == 0
      {
      }
    }
  }

  /** Upper-casing of one character, for the ASCII letters. */
  function UpperChar(c: char): char
  {
    if 'a' <= c <= 'z' then (c as int - 32) as char else c
  }

  /** `s.toUpperCase()` restricted to ASCII letters; it keeps the length. */
  function ToUpperCase(s: string): (r: string)
    ensures |r| == |s|
    ensures forall i :: 0 <= i < |s| && !('a' <= s[i] <= 'z') ==> r[i] == s[i]
    ensures forall i :: 0 <= i < |s| && 'a' <= s[i] <= 'z' ==> 'A' <= r[i] <= 'Z' && r[i] as int == s[i] as int - 32
  {
    seq(|s|, i requires 0 <= i < |s| => UpperChar(s[i]))
  }

  function Digit(d: nat): char
    requires d < 10
  {
    "0123456789"[d]
  }

  /** The decimal text of a non-negative integer, as a template literal prints it. */
  function NatToString(n: nat): (r: string)
    ensures |r| >= 1
    ensures forall k :: 0 <= k < |r| ==> '0' <= r[k] <= '9'
    ensures n < 10 <==> |r| == 1
    ensures |r| > 1 ==> r[0] != '0'
    decreases n
  {
    if n < 10 then [Digit(n)] else NatToString(n / 10) + [Digit(n % 10)]
  }

  /** The decimal text of an integer, with a leading minus sign when negative. */
  function IntToString(i: int): (r: string)
    ensures |r| >= 1
    ensures r[0] == '-' <==> i < 0
  {
    if i < 0 then "-" + NatToString(-i) else NatToString(i)
  }

  /** The number a string of decimal digits denotes, most significant digit first. */
  function DigitsValue(s: string): int
    decreases |s|
  {
    if s == [] then 0 else 10 * DigitsValue(s[..|s| - 1]) + (s[|s| - 1] as int - '0' as int)
  }

  /** The number a decimal text with an optional leading minus sign denotes. */
  function TextValue(s: string): int
  {
    if |s| > 0 && s[0] == '-' then -DigitsValue(s[1..]) else DigitsValue(s)
  }

  /** A digit character denotes its digit. */
  lemma DigitDenotes(d: nat)
    requires d < 10
    ensures Digit(d) as int - '0' as int == d
  {
  }

  /** The digits `NatToString` prints denote the number itself. */
  lemma {:induction false} NatToStringValue(n: nat)
    ensures DigitsValue(NatToString(n)) == n
    decreases n
  {
    var r := NatToString(n);
    if n < 10 {
      DigitDenotes(n);
    } else {
      var q, d := n / 10, n % 10;
      NatToStringValue(q);
      DigitDenotes(d);
      assert r == NatToString(q) + [Digit(d)];
      assert r[..|r| - 1] == NatToString(q);
      assert DigitsValue(r) == 10 * q + d;
    }
  }

  /** The text `IntToString` prints denotes the integer itself. */
  lemma IntToStringValue(i: int)
    ensures TextValue(IntToString(i)) == i
  {
    if i < 0 {
      NatToStringValue(-i);
      assert IntToString(i)[1..] == NatToString(-i);
    } else {
      NatToStringValue(i);
    }
  }

  /** Different integers are printed as different texts. */
  lemma IntToStringInjective(a: int, b: int)
    ensures IntToString(a) == IntToString(b) <==> a == b
  {
    IntToStringValue(a);
    IntToStringValue(b);
  }
}
