/**
 * The two string operations the extractor relies on: JavaScript's
 * `String.prototype.trim`, and the ASCII case-insensitive comparisons that
 * CSS attribute selectors with the `i` flag perform.
 */
module Text {

  /** WhiteSpace and LineTerminator in the ECMAScript grammar: what `trim` strips. */
  predicate IsSpace(c: char)
  {
    || '\t' <= c <= '\r'
    || c == ' ' || c == '\U{00A0}' || c == '\U{1680}'
    || '\U{2000}' <= c <= '\U{200A}'
    || c == '\U{2028}' || c == '\U{2029}' || c == '\U{202F}' || c == '\U{205F}'
    || c == '\U{3000}' || c == '\U{FEFF}'
  }

  predicate AllSpace(s: string)
  {
    forall i :: 0 <= i < |s| ==> IsSpace(s[i])
  }

  /** Neither end of `s` is white space. */
  predicate Tight(s: string)
  {
    s == [] || (!IsSpace(s[0]) && !IsSpace(s[|s| - 1]))
  }

  /**
   * `r` is what is left of `s` once white space is cut from both ends:
   * an infix of `s`, flanked by white space only, with no white space at
   * its own ends.
   */
  ghost predicate TrimmedFrom(r: string, s: string)
  {
    Tight(r) && exists i :: KeptWindow(r, s, i)
  }

  /** `r` sits at offset `i` of `s`, with only white space before and after it. */
  predicate KeptWindow(r: string, s: string, i: int)
  {
    && 0 <= i && i + |r| <= |s| && r == s[i..i + |r|]
    && AllSpace(s[..i]) && AllSpace(s[i + |r|..])
  }

  /** `s` with its leading white space cut off: a suffix of `s` that does not start with white space. */
  function TrimStart(s: string): (r: string)
    ensures |r| <= |s| && r == s[|s| - |r|..]
    ensures r == [] || !IsSpace(r[0])
  {
    if |s| > 0 && IsSpace(s[0]) then TrimStart(s[1..]) else s
  }

  /** Every character `TrimStart` cuts off is white space. */
  lemma {:induction false} TrimStartCutsSpace(s: string, k: int)
    requires 0 <= k < |s| - |TrimStart(s)|
    ensures IsSpace(s[k])
    decreases k
  {
    if k > 0 {
      var tail := s[1..];
      TrimStartCutsSpace(tail, k - 1);
      assert s[k] == tail[k - 1];
    }
  }

  /** `s` with its trailing white space cut off: a prefix of `s` that does not end with white space. */
  function TrimEnd(s: string): (r: string)
    ensures |r| <= |s| && r == s[..|r|]
    ensures r == [] || !IsSpace(r[|r| - 1])
  {
    if |s| > 0 && IsSpace(s[|s| - 1]) then TrimEnd(s[..|s| - 1]) else s
  }

  /** Every character `TrimEnd` cuts off is white space. */
  lemma {:induction false} TrimEndCutsSpace(s: string, k: int)
    requires |TrimEnd(s)| <= k < |s|
    ensures IsSpace(s[k])
    decreases |s|
  {
    if k < |s| - 1 {
      var init := s[..|s| - 1];
      TrimEndCutsSpace(init, k);
      assert s[k] == init[k];
    }
  }

  /** A prefix of a suffix of `s`, each cut leaving only white space, is a kept window of `s`. */
  lemma NestedWindow(s: string, t: string, r: string)
    requires |t| <= |s| && t == s[|s| - |t|..] && forall k :: 0 <= k < |s| - |t| ==> IsSpace(s[k])
    requires |r| <= |t| && r == t[..|r|] && forall k :: |r| <= k < |t| ==> IsSpace(t[k])
    ensures KeptWindow(r, s, |s| - |t|)
  {
    var i := |s| - |t|;
    assert AllSpace(s[..i]) by {
      forall k | 0 <= k < i
        ensures IsSpace(s[..i][k])
      {
        assert s[..i][k] == s[k];
      }
    }
    assert AllSpace(s[i + |r|..]) by {
      var after := s[i + |r|..];
      forall k | 0 <= k < |after|
        ensures IsSpace(after[k])
      {
        assert after[k] == t[|r| + k];
      }
    }
  }

  /** `TrimEnd(TrimStart(s))` is a window of `s` with white space only around it. */
  lemma TrimKeepsWindow(s: string)
    ensures KeptWindow(TrimEnd(TrimStart(s)), s, |s| - |TrimStart(s)|)
  {
    var t := TrimStart(s);
    forall k | 0 <= k < |s| - |t|
      ensures IsSpace(s[k])
    {
      TrimStartCutsSpace(s, k);
    }
    forall k | |TrimEnd(t)| <= k < |t|
      ensures IsSpace(t[k])
    {
      TrimEndCutsSpace(t, k);
    }
    NestedWindow(s, t, TrimEnd(t));
  }

  /** `TrimEnd(TrimStart(s))` has no white space at either end. */
  lemma TrimIsTight(s: string)
    ensures Tight(TrimEnd(TrimStart(s)))
  {
    var t := TrimStart(s);
    var r := TrimEnd(t);
    if r != [] {
      assert r[0] == t[0];
    }
  }

  /** `String.prototype.trim`. */
  function Trim(s: string): (r: string)
    ensures TrimmedFrom(r, s)
  {
    TrimKeepsWindow(s);
    TrimIsTight(s);
    TrimEnd(TrimStart(s))
  }

  /** The trimmed form of a string is unique, so `TrimmedFrom` pins `Trim` down completely. */
  lemma TrimmedFromIsUnique(r1: string, r2: string, s: string)
    requires TrimmedFrom(r1, s) && TrimmedFrom(r2, s)
    ensures r1 == r2
  {
    var i1 :| KeptWindow(r1, s, i1);
    var i2 :| KeptWindow(r2, s, i2);
    if r1 != [] {
      WindowEdges(r1, s, i1);
      OutsideIsSpace(r2, s, i2, i1);
      OutsideIsSpace(r2, s, i2, i1 + |r1| - 1);
    }
    if r2 != [] {
      WindowEdges(r2, s, i2);
      OutsideIsSpace(r1, s, i1, i2);
      OutsideIsSpace(r1, s, i1, i2 + |r2| - 1);
    }
    if r1 != [] && r2 != [] {
      assert i1 == i2 && |r1| == |r2|;
    }
  }

  /** The first and last characters of a non-empty kept window are not white space. */
  lemma WindowEdges(r: string, s: string, i: int)
    requires KeptWindow(r, s, i) && Tight(r) && r != []
    ensures !IsSpace(s[i]) && !IsSpace(s[i + |r| - 1])
  {
    assert s[i] == r[0];
    assert s[i + |r| - 1] == r[|r| - 1];
  }

  /** A position before or after a kept window holds white space. */
  lemma OutsideIsSpace(r: string, s: string, i: int, k: int)
    requires KeptWindow(r, s, i) && 0 <= k < |s|
    requires !IsSpace(s[k])
    ensures i <= k < i + |r|
  {
  }

  /** ASCII lower-casing of one character; every other character is kept. */
  function LowerChar(c: char): char
  {
    if 'A' <= c <= 'Z' then (c as int + 32) as char else c
  }

  function Lower(s: string): (r: string)
    ensures |r| == |s|
    ensures forall i :: 0 <= i < |s| ==> r[i] == LowerChar(s[i])
  {
    seq(|s|, i requires 0 <= i < |s| => LowerChar(s[i]))
  }

  lemma LowerConcat(a: string, b: string)
    ensures Lower(a + b) == Lower(a) + Lower(b)
  {
    assert forall i :: 0 <= i < |a + b| ==> Lower(a + b)[i] == (Lower(a) + Lower(b))[i];
  }

  predicate OccursAt(haystack: string, needle: string, i: int)
  {
    0 <= i && i + |needle| <= |haystack| && haystack[i..i + |needle|] == needle
  }

  predicate Contains(haystack: string, needle: string)
  {
    exists i | 0 <= i <= |haystack| - |needle| :: OccursAt(haystack, needle, i)
  }

  /** `[attr="value" i]`: equal up to ASCII case. */
  predicate EqualsIgnoringCase(a: string, b: string)
  {
    Lower(a) == Lower(b)
  }

  /**
   * `[attr*="value" i]`: the value occurs in the attribute up to ASCII case;
   * an empty value matches nothing.
   */
  predicate ContainsIgnoringCase(attr: string, value: string)
  {
    value != [] && Contains(Lower(attr), Lower(value))
  }

  /** Whatever contains `prefix + rest` (up to case) contains `prefix` (up to case). */
  lemma ContainsPrefixIgnoringCase(attr: string, prefix: string, rest: string)
    requires prefix != []
    requires ContainsIgnoringCase(attr, prefix + rest)
    ensures ContainsIgnoringCase(attr, prefix)
  {
    var h, p, q := Lower(attr), Lower(prefix), Lower(rest);
    LowerConcat(prefix, rest);
    assert Contains(h, p + q);
    var i :| 0 <= i <= |h| - |p + q| && OccursAt(h, p + q, i);
    assert h[i..i + |p|] == (p + q)[..|p|] == p;
    assert OccursAt(h, p, i);
  }
}
