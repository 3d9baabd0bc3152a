/**
 * The string primitives the core relies on: JavaScript's `\s` and `\d`
 * character classes, `String.prototype.substring(0, n)`, substring search,
 * and the two case mappings used by the backend (Java's `toUpperCase` and
 * the SQL `UPPER` behind Spring Data's `IgnoreCase` queries).
 */
module Text {

  /** JavaScript's `\s`: the ECMAScript WhiteSpace and LineTerminator code points. */
  predicate IsWhitespace(c: char) {
    var n := c as int;
    (0x09 <= n <= 0x0D) || n == 0x20 || n == 0xA0 || n == 0x1680 || (0x2000 <= n <= 0x200A)
    || n == 0x2028 || n == 0x2029 || n == 0x202F || n == 0x205F || n == 0x3000 || n == 0xFEFF
  }

  predicate IsNotWhitespace(c: char) { !IsWhitespace(c) }

  /** JavaScript's `\d`: the ASCII digits only. */
  predicate IsDigit(c: char) { '0' <= c <= '9' }

  /** `s.replace(/[^p]/g, '')`: the characters of `s` satisfying `p`, in order. */
  function Keep(s: string, p: char -> bool): (r: string)
    ensures |r| <= |s|
    ensures forall i :: 0 <= i < |r| ==> p(r[i])
  {
    if s == [] then []
    else Keep(s[..|s| - 1], p) + (if p(s[|s| - 1]) then [s[|s| - 1]] else [])
  }

  /** `s.replace(/\s/g, '')` */
  function StripWhitespace(s: string): (r: string)
    ensures |r| <= |s|
    ensures forall i :: 0 <= i < |r| ==> !IsWhitespace(r[i])
  {
    Keep(s, IsNotWhitespace)
  }

  /** `s.replace(/\D/g, '')` */
  function DigitsOnly(s: string): (r: string)
    ensures |r| <= |s|
    ensures forall i :: 0 <= i < |r| ==> IsDigit(r[i])
  {
    Keep(s, IsDigit)
  }

  /** Filtering a string that already satisfies `p` changes nothing. */
  lemma {:induction false} KeepAll(s: string, p: char -> bool)
    requires forall i :: 0 <= i < |s| ==> p(s[i])
    ensures Keep(s, p) == s
  {
    if s != [] {
      KeepAll(s[..|s| - 1], p);
      assert s[..|s| - 1] + [s[|s| - 1]] == s;
    }
  }

  /** JavaScript's `s.substring(start, end)`: both ends clamped to `[0, |s|]`, then ordered. */
  function Substring(s: string, start: int, end: int): (r: string)
    ensures 0 <= start <= end <= |s| ==> r == s[start..end]
    ensures 0 <= start <= |s| <= end ==> r == s[start..]
  {
    var a := if start < 0 then 0 else if start > |s| then |s| else start;
    var b := if end < 0 then 0 else if end > |s| then |s| else end;
    if a <= b then s[a..b] else s[b..a]
  }

  /** `s.substring(0, n)`: at most the first `n` characters. */
  function Take(s: string, n: nat): (r: string)
    ensures |r| == if n <= |s| then n else |s|
    ensures r <= s
  {
    Substring(s, 0, n)
  }

  /** Filtering distributes over concatenation, so it keeps the order of what it keeps. */
  lemma {:induction false} KeepAppend(a: string, b: string, p: char -> bool)
    ensures Keep(a + b, p) == Keep(a, p) + Keep(b, p)
    decreases |b|
  {
    if b != [] {
      var b' := b[..|b| - 1];
      KeepAppend(a, b', p);
      assert (a + b)[..|a + b| - 1] == a + b';
    } else {
      assert a + b == a;
    }
  }

  /** Whether `needle` occurs in `haystack` starting at index `i`. */
  predicate OccursAt(haystack: string, needle: string, i: int) {
    0 <= i && i + |needle| <= |haystack| && haystack[i..i + |needle|] == needle
  }

  /** Substring containment (SQL `LIKE '%needle%'` with the wildcards escaped). */
  predicate Contains(haystack: string, needle: string) {
    exists i | 0 <= i <= |haystack| - |needle| :: OccursAt(haystack, needle, i)
  }

  /** ASCII upper-casing, the case folding assumed for the database's `UPPER`. */
  function AsciiUpper(c: char): (u: char)
    ensures 'a' <= c <= 'z' ==> 'A' <= u <= 'Z'
    ensures !('a' <= c <= 'z') ==> u == c
  {
    if 'a' <= c <= 'z' then (c as int - 32) as char else c
  }

  function AsciiUpperString(s: string): (r: string)
    ensures |r| == |s|
    ensures forall i :: 0 <= i < |r| ==> r[i] == AsciiUpper(s[i])
  {
    seq(|s|, i requires 0 <= i < |s| => AsciiUpper(s[i]))
  }

  /** Spring Data's `...ContainingIgnoreCase`: `UPPER(field) LIKE UPPER('%needle%')`. */
  predicate ContainsIgnoreCase(field: string, needle: string) {
    Contains(AsciiUpperString(field), AsciiUpperString(needle))
  }

  /**
   * Java's `Character.toUpperCase` on the characters whose upper case is an
   * ASCII letter: the ASCII lower-case letters, dotless i (U+0131) and long s
   * (U+017F). Every other character is kept as it is.
   */
  function JavaUpper(c: char): (u: char)
    ensures 'a' <= c <= 'z' ==> u == AsciiUpper(c)
    ensures c == '\U{0131}' ==> u == 'I'
  {
    if c == '\U{0131}' then 'I'
    else if c == '\U{017F}' then 'S'
    else AsciiUpper(c)
  }

  /** `s.toUpperCase()` in Java's root locale, as far as `JavaUpper` goes. */
  function JavaUpperString(s: string): (r: string)
    ensures |r| == |s|
    ensures forall i :: 0 <= i < |r| ==> r[i] == JavaUpper(s[i])
  {
    seq(|s|, i requires 0 <= i < |s| => JavaUpper(s[i]))
  }

  /** ASCII lower-casing, used to state case-insensitivity properties. */
  function AsciiLowerString(s: string): (r: string)
    ensures |r| == |s|
    ensures forall i :: 0 <= i < |r| ==> ('A' <= s[i] <= 'Z' ==> 'a' <= r[i] <= 'z')
  {
    seq(|s|, i requires 0 <= i < |s| => if 'A' <= s[i] <= 'Z' then (s[i] as int + 32) as char else s[i])
  }
}
