/**
 * Text operations with the meaning Python gives them on `str`: `strip()` without
 * arguments, `startswith`, `endswith`, slicing with `[:n]` and the `in` test
 * between two strings. A string is a sequence of Unicode scalar values; a Python
 * `str` indexes code points, which may also be lone surrogates.
 */
module PyText {

  /** The characters `str.isspace()` accepts; `str.strip()` without arguments removes exactly these. */
  predicate IsWhitespace(c: char)
  {
    var n := c as int;
    (0x09 <= n <= 0x0D) || (0x1C <= n <= 0x20) || n == 0x85 || n == 0xA0 ||
    n == 0x1680 || (0x2000 <= n <= 0x200A) || n == 0x2028 || n == 0x2029 ||
    n == 0x202F || n == 0x205F || n == 0x3000
  }

  predicate AllWhitespace(s: string)
  {
    forall i :: 0 <= i < |s| ==> IsWhitespace(s[i])
  }

  /** Neither end is whitespace: the shape `strip()` leaves behind. */
  predicate Trimmed(s: string)
  {
    s == [] || (!IsWhitespace(s[0]) && !IsWhitespace(s[|s| - 1]))
  }

  /** `s.lstrip()`: the result does not start with whitespace. */
  function StripStart(s: string): (r: string)
    ensures |r| <= |s|
    ensures r == [] || !IsWhitespace(r[0])
  {
    if s == [] || !IsWhitespace(s[0]) then s else StripStart(s[1..])
  }

  /** `s.rstrip()`: the result does not end with whitespace. */
  function StripEnd(s: string): (r: string)
    ensures |r| <= |s|
    ensures r == [] || !IsWhitespace(r[|r| - 1])
    ensures r != [] ==> r[0] == s[0]
  {
    if s == [] || !IsWhitespace(s[|s| - 1]) then s else StripEnd(s[..|s| - 1])
  }

  /** `lstrip()` keeps a suffix and drops only whitespace. */
  lemma {:induction false} StripStartIsSuffix(s: string)
    ensures StripStart(s) == s[|s| - |StripStart(s)|..]
    ensures AllWhitespace(s[..|s| - |StripStart(s)|])
    decreases |s|
  {
    if s != [] && IsWhitespace(s[0]) {
      var t := s[1..];
      var r := StripStart(t);
      StripStartIsSuffix(t);
      assert StripStart(s) == r;
      var k := |s| - |r|;
      assert t[|t| - |r|..] == s[k..];
      assert s[..k] == [s[0]] + t[..|t| - |r|];
      AllWhitespaceConcat([s[0]], t[..|t| - |r|]);
    }
  }

  /** `rstrip()` keeps a prefix and drops only whitespace. */
  lemma {:induction false} StripEndIsPrefix(s: string)
    ensures StripEnd(s) == s[..|StripEnd(s)|]
    ensures AllWhitespace(s[|StripEnd(s)|..])
    decreases |s|
  {
    if s != [] && IsWhitespace(s[|s| - 1]) {
      var t := s[..|s| - 1];
      var r := StripEnd(t);
      StripEndIsPrefix(t);
      assert StripEnd(s) == r;
      assert t[..|r|] == s[..|r|];
      assert s[|r|..] == t[|r|..] + [s[|s| - 1]];
      AllWhitespaceConcat(t[|r|..], [s[|s| - 1]]);
    }
  }

  /** `s.strip()`: neither end of the result is whitespace, and it is never longer than `s`. */
  function Strip(s: string): (r: string)
    ensures Trimmed(r) && |r| <= |s|
  {
    StripEnd(StripStart(s))
  }

  /** What `strip()` keeps is one slice of `s`, and what it cuts off on either side is whitespace. */
  lemma StripCutsWhitespace(s: string) returns (lo: nat)
    ensures lo + |Strip(s)| <= |s| && Strip(s) == s[lo..lo + |Strip(s)|]
    ensures AllWhitespace(s[..lo]) && AllWhitespace(s[lo + |Strip(s)|..])
    ensures s == s[..lo] + Strip(s) + s[lo + |Strip(s)|..]
  {
    var t := StripStart(s);
    var r := StripEnd(t);
    StripStartIsSuffix(s);
    StripEndIsPrefix(t);
    lo := |s| - |t|;
    assert s[lo..] == t;
    assert s[lo..lo + |r|] == t[..|r|];
    assert s[lo + |r|..] == t[|r|..];
    SplitThree(s, lo, lo + |r|);
  }

  lemma SplitThree(s: string, i: nat, j: nat)
    requires i <= j <= |s|
    ensures s == s[..i] + s[i..j] + s[j..]
  {
  }

  /** A slice of a slice is a slice of the original. */
  lemma SliceOfSlice(whole: string, part: string, a: nat, piece: string, b: nat)
    requires a + |part| <= |whole| && part == whole[a..a + |part|]
    requires b + |piece| <= |part| && piece == part[b..b + |piece|]
    ensures a + b + |piece| <= |whole| && piece == whole[a + b..a + b + |piece|]
  {
    assert forall i :: 0 <= i < |piece| ==> piece[i] == whole[a + b + i];
  }

  lemma {:induction false} StripStartPadded(lead: string, rest: string)
    requires AllWhitespace(lead)
    requires rest == [] || !IsWhitespace(rest[0])
    ensures StripStart(lead + rest) == rest
    decreases |lead|
  {
    if lead == [] {
      assert lead + rest == rest;
    } else {
      assert (lead + rest)[1..] == lead[1..] + rest;
      StripStartPadded(lead[1..], rest);
    }
  }

  lemma {:induction false} StripEndPadded(rest: string, trail: string)
    requires AllWhitespace(trail)
    requires rest == [] || !IsWhitespace(rest[|rest| - 1])
    ensures StripEnd(rest + trail) == rest
    decreases |trail|
  {
    if trail == [] {
      assert rest + trail == rest;
    } else {
      var n := |trail| - 1;
      assert (rest + trail)[..|rest + trail| - 1] == rest + trail[..n];
      StripEndPadded(rest, trail[..n]);
    }
  }

  /** Three nested slices make one slice of the outermost text. */
  lemma SliceChain(whole: string, first: string, second: string, third: string, a: nat, b: nat, c: nat)
    returns (lo: nat, hi: nat)
    requires a + |first| <= |whole| && first == whole[a..a + |first|]
    requires b + |second| <= |first| && second == first[b..b + |second|]
    requires c + |third| <= |second| && third == second[c..c + |third|]
    ensures lo <= hi <= |whole| && third == whole[lo..hi]
  {
    lo, hi := a + b + c, a + b + c + |third|;
    SliceOfSlice(whole, first, a, second, b);
    SliceOfSlice(whole, second, a + b, third, c);
  }

  /** The characterisation of `strip()`: whitespace around a trimmed core is removed, and nothing else. */
  lemma StripUnique(lead: string, core: string, trail: string)
    requires AllWhitespace(lead) && AllWhitespace(trail) && Trimmed(core)
    ensures Strip(lead + core + trail) == core
  {
    if core == [] {
      assert lead + core + trail == lead + trail;
      assert AllWhitespace(lead + trail);
      assert lead + trail + [] == lead + trail;
      StripStartPadded(lead + trail, []);
    } else {
      assert lead + core + trail == lead + (core + trail);
      StripStartPadded(lead, core + trail);
      StripEndPadded(core, trail);
    }
  }

  /** A text with no whitespace at either end is left as it is. */
  lemma StripTrimmed(s: string)
    requires Trimmed(s)
    ensures Strip(s) == s
  {
    assert [] + s + [] == s;
    StripUnique([], s, []);
  }

  /** Stripping twice is stripping once. */
  lemma StripIdempotent(s: string)
    ensures Strip(Strip(s)) == Strip(s)
  {
    StripTrimmed(Strip(s));
  }

  lemma AllWhitespaceConcat(a: string, b: string)
    ensures AllWhitespace(a + b) <==> AllWhitespace(a) && AllWhitespace(b)
  {
    if AllWhitespace(a + b) {
      forall i | 0 <= i < |b| ensures IsWhitespace(b[i]) {
        assert b[i] == (a + b)[|a| + i];
      }
      forall i | 0 <= i < |a| ensures IsWhitespace(a[i]) {
        assert a[i] == (a + b)[i];
      }
    }
  }

  lemma Regroup(a: string, b: string, c: string, d: string, e: string)
    ensures a + (b + c + d) + e == (a + b) + c + (d + e)
  {
  }

  /** Extra whitespace on either side does not change what `strip()` returns. */
  lemma StripIgnoresPadding(lead: string, s: string, trail: string)
    requires AllWhitespace(lead) && AllWhitespace(trail)
    ensures Strip(lead + s + trail) == Strip(s)
  {
    var lo := StripCutsWhitespace(s);
    var r := Strip(s);
    var before, after := s[..lo], s[lo + |r|..];
    Regroup(lead, before, r, after, trail);
    AllWhitespaceConcat(lead, before);
    AllWhitespaceConcat(after, trail);
    StripUnique(lead + before, r, after + trail);
  }

  /** `not s.strip()` holds exactly when every character of `s` is whitespace. */
  lemma StripEmptyIff(s: string)
    ensures Strip(s) == [] <==> AllWhitespace(s)
  {
    if AllWhitespace(s) {
      assert s + [] + [] == s;
      StripUnique(s, [], []);
    } else {
      var lo := StripCutsWhitespace(s);
      var r := Strip(s);
      assert s[..lo] + r + s[lo + |r|..] == s[..lo] + (r + s[lo + |r|..]);
      AllWhitespaceConcat(s[..lo], r + s[lo + |r|..]);
      AllWhitespaceConcat(r, s[lo + |r|..]);
    }
  }

  predicate StartsWith(s: string, prefix: string)
  {
    |prefix| <= |s| && s[..|prefix|] == prefix
  }

  predicate EndsWith(s: string, suffix: string)
  {
    |suffix| <= |s| && s[|s| - |suffix|..] == suffix
  }

  /** `s[:n]`: the first `n` characters, or all of `s` when it is shorter. */
  function Take(s: string, n: nat): (r: string)
    ensures |r| <= n && StartsWith(s, r)
    ensures |s| <= n ==> r == s
    ensures |s| > n ==> |r| == n
  {
    if |s| <= n then s else s[..n]
  }

  /** `needle` occurs in `haystack` starting at position `i`. */
  predicate OccursAt(needle: string, haystack: string, i: int)
  {
    0 <= i && i + |needle| <= |haystack| && haystack[i..i + |needle|] == needle
  }

  /** An occurrence is at the front or, shifted by one, in the rest. */
  lemma OccurrenceStep(needle: string, haystack: string)
    ensures (exists i :: OccursAt(needle, haystack, i)) <==>
      StartsWith(haystack, needle) || (haystack != [] && exists i :: OccursAt(needle, haystack[1..], i))
  {
    if exists i :: OccursAt(needle, haystack, i) {
      var i :| OccursAt(needle, haystack, i);
      if i > 0 {
        assert haystack[1..][i - 1..i - 1 + |needle|] == haystack[i..i + |needle|];
        assert OccursAt(needle, haystack[1..], i - 1);
      } else {
        assert StartsWith(haystack, needle);
      }
    }
    if haystack != [] && exists i :: OccursAt(needle, haystack[1..], i) {
      var i :| OccursAt(needle, haystack[1..], i);
      assert haystack[1..][i..i + |needle|] == haystack[i + 1..i + 1 + |needle|];
      assert OccursAt(needle, haystack, i + 1);
    }
    if StartsWith(haystack, needle) {
      assert OccursAt(needle, haystack, 0);
    }
  }

  /** Python's `needle in haystack` on two strings: the needle occurs at some position. */
  predicate IsSubstring(needle: string, haystack: string)
    ensures IsSubstring(needle, haystack) <==> exists i :: OccursAt(needle, haystack, i)
    decreases |haystack|
  {
    OccurrenceStep(needle, haystack);
    StartsWith(haystack, needle) || (haystack != [] && IsSubstring(needle, haystack[1..]))
  }
}
