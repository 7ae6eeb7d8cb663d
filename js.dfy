/**
 * The few pieces of JavaScript value semantics the CRM's pages rely on:
 * optional (null/undefined) values, truthiness of strings, the `x || y`
 * fallback idiom, ASCII case mapping, `String.prototype.includes`, and the
 * UTF-16 view of a string that `length` and `charCodeAt` expose.
 */
module Js {

  /** A value that may be `null` or `undefined` (both are `None`). */
  datatype Option<+T> = None | Some(value: T)

  /** JavaScript truthiness of an optional string: present and not "". */
  predicate Truthy(s: Option<string>)
  {
    s.Some? && s.value != ""
  }

  /** `s || null`: a falsy string becomes null, a truthy one is kept. */
  function OrNull(s: Option<string>): (r: Option<string>)
    ensures r.None? <==> !Truthy(s)
    ensures r.Some? ==> r == s && r.value != ""
  {
    if Truthy(s) then s else None
  }

  /** `s || fallback` for an optional string. */
  function OrElse(s: Option<string>, fallback: string): (r: string)
    ensures Truthy(s) ==> r == s.value
    ensures !Truthy(s) ==> r == fallback
  {
    if Truthy(s) then s.value else fallback
  }

  /** `n || null` for an optional number: absent and 0 both become null. */
  function NumberOrNull(n: Option<int>): (r: Option<int>)
    ensures r.None? <==> (n.None? || n.value == 0)
    ensures r.Some? ==> r == n
  {
    if n.Some? && n.value != 0 then n else None
  }

  // ---------------------------------------------------------------------
  // Case mapping (ASCII letters only)

  function LowerChar(c: char): char
  {
    if 'A' <= c <= 'Z' then (c as int + 32) as char else c
  }

  function UpperChar(c: char): char
  {
    if 'a' <= c <= 'z' then (c as int - 32) as char else c
  }

  /** `s.toLowerCase()`, restricted to ASCII letters. */
  function ToLowerCase(s: string): (r: string)
    ensures |r| == |s|
    ensures forall i :: 0 <= i < |s| ==> r[i] == LowerChar(s[i])
  {
    seq(|s|, i requires 0 <= i < |s| => LowerChar(s[i]))
  }

  /** `s.toUpperCase()`, restricted to ASCII letters. */
  function ToUpperCase(s: string): (r: string)
    ensures |r| == |s|
    ensures forall i :: 0 <= i < |s| ==> r[i] == UpperChar(s[i])
  {
    seq(|s|, i requires 0 <= i < |s| => UpperChar(s[i]))
  }

  /** Lowercasing forgets case: a term and its upper-cased form lower to the same string. */
  lemma LowerOfUpper(s: string)
    ensures ToLowerCase(ToUpperCase(s)) == ToLowerCase(s)
  {
    var a, b := ToLowerCase(ToUpperCase(s)), ToLowerCase(s);
    assert |a| == |b|;
    forall i | 0 <= i < |s| ensures a[i] == b[i] {
      var c := s[i];
      if 'a' <= c <= 'z' {
        assert UpperChar(c) as int == c as int - 32;
      }
    }
  }

  // ---------------------------------------------------------------------
  // Substring search

  /** `s.includes(t)`: `t` occurs in `s` as a contiguous block, scanning from the left. */
  predicate Includes(s: string, t: string)
    decreases |s|
  {
    t <= s || (|s| > 0 && Includes(s[1..], t))
  }

  /** The independent statement of `includes`: some position of `s` starts a copy of `t`. */
  ghost predicate OccursAt(s: string, t: string, i: int)
  {
    0 <= i && i + |t| <= |s| && s[i..i + |t|] == t
  }

  lemma {:induction false} IncludesIffOccurs(s: string, t: string)
    ensures Includes(s, t) <==> exists i :: OccursAt(s, t, i)
    decreases |s|
  {
    if t <= s {
      assert OccursAt(s, t, 0);
    } else if |s| > 0 {
      IncludesIffOccurs(s[1..], t);
      if Includes(s[1..], t) {
        var i :| OccursAt(s[1..], t, i);
        SliceOfTail(s, i, |t|);
        assert OccursAt(s, t, i + 1);
      }
      if exists i :: OccursAt(s, t, i) {
        var i :| OccursAt(s, t, i);
        assert i > 0;
        SliceOfTail(s, i - 1, |t|);
        assert OccursAt(s[1..], t, i - 1);
      }
    }
  }

  /** A slice of the tail is the slice of the whole one place further on. */
  lemma SliceOfTail(s: string, i: nat, n: nat)
    requires |s| > 0 && i + n <= |s| - 1
    ensures s[1..][i..i + n] == s[i + 1..i + 1 + n]
  {
    var a, b := s[1..][i..i + n], s[i + 1..i + 1 + n];
    forall k | 0 <= k < n ensures a[k] == b[k] {
      assert a[k] == s[i + 1 + k];
    }
  }

  // ---------------------------------------------------------------------
  // The UTF-16 view of a string

  /** Number of UTF-16 code units that encode `c`. */
  function Utf16Units(c: char): nat
  {
    if c as int < 0x1_0000 then 1 else 2
  }

  /** `s.length` in JavaScript: the number of UTF-16 code units. */
  function Utf16Length(s: string): (n: nat)
    ensures |s| <= n <= 2 * |s|
  {
    if s == [] then 0 else Utf16Units(s[0]) + Utf16Length(s[1..])
  }

  /** For text of the Basic Multilingual Plane, JavaScript's length is the character count. */
  lemma {:induction false} Utf16LengthBmp(s: string)
    requires forall i :: 0 <= i < |s| ==> s[i] as int < 0x1_0000
    ensures Utf16Length(s) == |s|
  {
    if s != [] {
      Utf16LengthBmp(s[1..]);
    }
  }

  /** The first UTF-16 code unit of `c`: the character code itself, or its high surrogate. */
  function FirstCodeUnit(c: char): (u: int)
    ensures 0 <= u < 0x1_0000
    ensures c as int < 0x1_0000 ==> u == c as int
    ensures c as int >= 0x1_0000 ==> 0xD800 <= u < 0xDC00
  {
    if c as int < 0x1_0000 then c as int else 0xD800 + (c as int - 0x1_0000) / 0x400
  }
}
