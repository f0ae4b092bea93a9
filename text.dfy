/**
 * The string operations the request handler relies on: `String.prototype.includes`
 * and `String.prototype.toUpperCase`, over strings as sequences of characters.
 */
module Text {

  /** `t` occurs in `s` starting at index `i`. */
  ghost predicate OccursAt(s: string, t: string, i: int)
  {
    0 <= i && i + |t| <= |s| && forall j :: 0 <= j < |t| ==> s[i + j] == t[j]
  }

  /** Declarative reading of "`s` contains `t`": some index where `t` occurs. */
  ghost predicate Mentions(s: string, t: string)
  {
    exists i :: OccursAt(s, t, i)
  }

  predicate StartsWith(s: string, t: string)
  {
    |t| <= |s| && s[..|t|] == t
  }

  /** `s.includes(t)`: a scan from position 0 that tries every starting index. */
  predicate Includes(s: string, t: string)
    ensures Includes(s, t) ==> |t| <= |s|
    decreases |s|
  {
    StartsWith(s, t) || (|s| > 0 && Includes(s[1..], t))
  }

  /** An occurrence in the tail of `s` is an occurrence in `s` one position later. */
  lemma OccursInTail(s: string, t: string, i: int)
    requires |s| > 0 && i >= 0
    ensures OccursAt(s[1..], t, i) <==> OccursAt(s, t, i + 1)
  {
  }

  /** `t` is a prefix of `s` exactly when it occurs at index 0. */
  lemma StartsWithIffOccursAtZero(s: string, t: string)
    ensures StartsWith(s, t) <==> OccursAt(s, t, 0)
  {
  }

  /** The scan finds `t` exactly when `t` occurs somewhere in `s`. */
  lemma {:induction false} IncludesIffMentions(s: string, t: string)
    ensures Includes(s, t) <==> Mentions(s, t)
    decreases |s|
  {
    StartsWithIffOccursAtZero(s, t);
    if !StartsWith(s, t) {
      if |s| > 0 {
        IncludesIffMentions(s[1..], t);
        if Mentions(s[1..], t) {
          var i :| OccursAt(s[1..], t, i);
          OccursInTail(s, t, i);
        }
      }
      if Mentions(s, t) {
        var i :| OccursAt(s, t, i);
        OccursInTail(s, t, i - 1);
      }
    }
  }

  predicate IsAsciiUpper(c: char) { 'A' <= c <= 'Z' }

  predicate IsAsciiLower(c: char) { 'a' <= c <= 'z' }

  /**
   * The upper-case mapping of one character, as `toUpperCase` applies it. The ASCII
   * letters, plus every non-ASCII character whose upper case is made of ASCII letters:
   * dotless i, long s, sharp s and the Latin ligatures ff, fi, fl, ffi, ffl, long-s t, st.
   * Any other character is kept as it is.
   */
  function UpperChar(c: char): (u: string)
    ensures 1 <= |u| <= 3
    ensures forall k :: 0 <= k < |u| ==> !IsAsciiLower(u[k])
  {
    if IsAsciiLower(c) then [(c as int - 32) as char]
    else if c == '\U{0131}' then "I"
    else if c == '\U{017F}' then "S"
    else if c == '\U{00DF}' then "SS"
    else if c == '\U{FB00}' then "FF"
    else if c == '\U{FB01}' then "FI"
    else if c == '\U{FB02}' then "FL"
    else if c == '\U{FB03}' then "FFI"
    else if c == '\U{FB04}' then "FFL"
    else if c == '\U{FB05}' then "ST"
    else if c == '\U{FB06}' then "ST"
    else [c]
  }

  /** `s.toUpperCase()`: each character replaced by its upper-case mapping. */
  function UpperCase(s: string): (u: string)
    ensures |s| <= |u| <= 3 * |s|
  {
    if s == [] then [] else UpperChar(s[0]) + UpperCase(s[1..])
  }

  lemma {:induction false} UpperCaseAppend(a: string, b: string)
    ensures UpperCase(a + b) == UpperCase(a) + UpperCase(b)
    decreases |a|
  {
    if a == [] {
      assert a + b == b;
    } else {
      assert (a + b)[0] == a[0];
      assert (a + b)[1..] == a[1..] + b;
      UpperCaseAppend(a[1..], b);
    }
  }

  /** A character that `UpperChar` produces is mapped to itself. */
  lemma UpperCharOutputFixed(c: char, k: int)
    requires 0 <= k < |UpperChar(c)|
    ensures UpperChar(UpperChar(c)[k]) == [UpperChar(c)[k]]
  {
  }

  /** Upper-casing a string made only of characters `UpperChar` keeps is the identity. */
  lemma {:induction false} UpperCaseOfFixed(s: string)
    requires forall k :: 0 <= k < |s| ==> UpperChar(s[k]) == [s[k]]
    ensures UpperCase(s) == s
    decreases |s|
  {
    if s != [] {
      UpperCaseOfFixed(s[1..]);
    }
  }

  /** `s.toUpperCase().toUpperCase() == s.toUpperCase()`. */
  lemma {:induction false} UpperCaseIdempotent(s: string)
    ensures UpperCase(UpperCase(s)) == UpperCase(s)
    decreases |s|
  {
    if s != [] {
      var head := UpperChar(s[0]);
      forall k | 0 <= k < |head|
        ensures UpperChar(head[k]) == [head[k]]
      {
        UpperCharOutputFixed(s[0], k);
      }
      UpperCaseOfFixed(head);
      UpperCaseAppend(head, UpperCase(s[1..]));
      UpperCaseIdempotent(s[1..]);
    }
  }

  /** Every character of `s` is an upper-case ASCII letter. */
  predicate AllAsciiUpper(s: string)
  {
    forall k :: 0 <= k < |s| ==> IsAsciiUpper(s[k])
  }

  /** `m` spells `word` (an upper-case ASCII word) in some mix of ASCII cases. */
  predicate AsciiCasingOf(m: string, word: string)
  {
    && |m| == |word|
    && forall k :: 0 <= k < |m| ==> m[k] == word[k] || m[k] as int == word[k] as int + 32
  }

  /** Any ASCII casing of an upper-case word upper-cases to that word. */
  lemma {:induction false} UpperCaseOfCasing(m: string, word: string)
    requires AllAsciiUpper(word)
    requires AsciiCasingOf(m, word)
    ensures UpperCase(m) == word
    decreases |m|
  {
    if m != [] {
      UpperCaseOfCasing(m[1..], word[1..]);
    }
  }

  /** ASCII lower case, used only to relate message texts to method names. */
  function LowerAscii(s: string): (l: string)
    ensures |l| == |s|
    ensures forall k :: 0 <= k < |s| ==> (IsAsciiUpper(s[k]) ==> l[k] as int == s[k] as int + 32)
    ensures forall k :: 0 <= k < |s| ==> (!IsAsciiUpper(s[k]) ==> l[k] == s[k])
  {
    if s == [] then []
    else [if IsAsciiUpper(s[0]) then (s[0] as int + 32) as char else s[0]] + LowerAscii(s[1..])
  }
}
