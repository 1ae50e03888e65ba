/**
 * The string operations the components rely on: `String.prototype.trim`,
 * `toLowerCase` and `includes`.
 */
module Text {

  /**
   * The characters `trim` removes: ECMAScript WhiteSpace (tab, vertical tab,
   * form feed, space, no-break space, the byte order mark and the Unicode
   * space separators) and LineTerminator (line feed, carriage return, line
   * and paragraph separators). Tab to carriage return are U+0009 to U+000D.
   */
  predicate IsWhitespace(c: char) {
    ('\t' <= c <= '\r') || c == ' ' || c == '\U{00A0}' || c == '\U{1680}' ||
    ('\U{2000}' <= c <= '\U{200A}') || c == '\U{2028}' || c == '\U{2029}' ||
    c == '\U{202F}' || c == '\U{205F}' || c == '\U{3000}' || c == '\U{FEFF}'
  }

  predicate AllWhitespace(s: string) {
    forall i :: 0 <= i < |s| ==> IsWhitespace(s[i])
  }

  /** The number of whitespace characters `s` starts with. */
  function LeadingWhitespace(s: string): (n: nat)
    ensures n <= |s|
  {
    if s != [] && IsWhitespace(s[0]) then 1 + LeadingWhitespace(s[1..]) else 0
  }

  /** The number of whitespace characters `s` ends with. */
  function TrailingWhitespace(s: string): (n: nat)
    ensures n <= |s|
  {
    if s != [] && IsWhitespace(s[|s| - 1]) then 1 + TrailingWhitespace(s[..|s| - 1]) else 0
  }

  /** `LeadingWhitespace` counts the longest run of whitespace at the start. */
  lemma {:induction false} LeadingWhitespaceIsLongest(s: string)
    ensures AllWhitespace(s[..LeadingWhitespace(s)])
    ensures LeadingWhitespace(s) < |s| ==> !IsWhitespace(s[LeadingWhitespace(s)])
  {
    if s != [] && IsWhitespace(s[0]) {
      LeadingWhitespaceIsLongest(s[1..]);
      var n := LeadingWhitespace(s[1..]);
      forall k | 1 <= k < n + 1 ensures IsWhitespace(s[k]) {
        assert s[k] == s[1..][..n][k - 1];
      }
    }
  }

  /** `TrailingWhitespace` counts the longest run of whitespace at the end. */
  lemma {:induction false} TrailingWhitespaceIsLongest(s: string)
    ensures AllWhitespace(s[|s| - TrailingWhitespace(s)..])
    ensures TrailingWhitespace(s) < |s| ==> !IsWhitespace(s[|s| - TrailingWhitespace(s) - 1])
  {
    if s != [] && IsWhitespace(s[|s| - 1]) {
      var init := s[..|s| - 1];
      TrailingWhitespaceIsLongest(init);
      var n := TrailingWhitespace(init);
      assert forall k :: |s| - (n + 1) <= k < |s| - 1 ==> s[k] == init[|init| - n..][k - (|init| - n)];
    }
  }

  /** `s.trim()`: `s` without the whitespace at either end. */
  function Trim(s: string): (r: string)
    ensures |r| <= |s|
    ensures r == [] || (!IsWhitespace(r[0]) && !IsWhitespace(r[|r| - 1]))
  {
    var t := s[LeadingWhitespace(s)..];
    LeadingWhitespaceIsLongest(s);
    TrailingWhitespaceIsLongest(t);
    t[..|t| - TrailingWhitespace(t)]
  }

  /**
   * What `trim` removes: `Trim(s)` is the middle of `s`, and everything cut
   * off before and after it is whitespace.
   */
  lemma TrimRemovesOnlyWhitespace(s: string)
    ensures LeadingWhitespace(s) + |Trim(s)| <= |s|
    ensures Trim(s) == s[LeadingWhitespace(s)..LeadingWhitespace(s) + |Trim(s)|]
    ensures AllWhitespace(s[..LeadingWhitespace(s)])
    ensures AllWhitespace(s[LeadingWhitespace(s) + |Trim(s)|..])
  {
    var i := LeadingWhitespace(s);
    var t := s[i..];
    var m := |t| - TrailingWhitespace(t);
    assert Trim(s) == t[..m];
    SliceOfSlice(s, i, m);
    LeadingWhitespaceIsLongest(s);
    TrailingWhitespaceIsLongest(t);
    assert s[i + m..] == t[m..];
  }

  lemma SliceOfSlice(s: string, i: nat, m: nat)
    requires i + m <= |s|
    ensures s[i..][..m] == s[i..i + m]
  {
  }

  /** `toLowerCase` on the letters A to Z; every other character is kept. */
  function LowerChar(c: char): (r: char)
    ensures IsWhitespace(r) <==> IsWhitespace(c)
    ensures !('A' <= r <= 'Z')
  {
    if 'A' <= c <= 'Z' then (c as int - 'A' as int + 'a' as int) as char else c
  }

  function Lower(s: string): (r: string)
    ensures |r| == |s|
    ensures forall i :: 0 <= i < |s| ==> r[i] == LowerChar(s[i])
  {
    if s == [] then [] else [LowerChar(s[0])] + Lower(s[1..])
  }

  /** `hay.includes(needle)`: `needle` occurs in `hay` as a contiguous block. */
  predicate Contains(hay: string, needle: string) {
    exists i :: 0 <= i <= |hay| && OccursAt(hay, needle, i)
  }

  /** `needle` occurs in `hay` starting at index `i`. */
  predicate OccursAt(hay: string, needle: string, i: nat) {
    i + |needle| <= |hay| && hay[i..i + |needle|] == needle
  }

  /** Whitespace added in front is counted as leading whitespace. */
  lemma {:induction false} LeadingOfPrefixed(w: string, s: string)
    requires AllWhitespace(w)
    ensures LeadingWhitespace(w + s) == |w| + LeadingWhitespace(s)
  {
    if w != [] {
      assert (w + s)[1..] == w[1..] + s;
      LeadingOfPrefixed(w[1..], s);
    } else {
      assert w + s == s;
    }
  }

  /** Whitespace added at the end counts only when `s` has nothing else. */
  lemma {:induction false} LeadingOfSuffixed(s: string, w: string)
    ensures LeadingWhitespace(s + w) == if AllWhitespace(s) then |s| + LeadingWhitespace(w) else LeadingWhitespace(s)
  {
    if s == [] {
      assert s + w == w;
    } else {
      assert (s + w)[0] == s[0];
      assert (s + w)[1..] == s[1..] + w;
      if IsWhitespace(s[0]) {
        LeadingOfSuffixed(s[1..], w);
        assert AllWhitespace(s) <==> AllWhitespace(s[1..]) by {
          if AllWhitespace(s[1..]) {
            forall k | 0 <= k < |s| ensures IsWhitespace(s[k]) {
              if k > 0 { assert s[k] == s[1..][k - 1]; }
            }
          }
        }
      }
    }
  }

  /** Whitespace added at the end is counted as trailing whitespace. */
  lemma {:induction false} TrailingOfSuffixed(s: string, w: string)
    requires AllWhitespace(w)
    ensures TrailingWhitespace(s + w) == TrailingWhitespace(s) + |w|
  {
    if w != [] {
      assert (s + w)[..|s + w| - 1] == s + w[..|w| - 1];
      TrailingOfSuffixed(s, w[..|w| - 1]);
    } else {
      assert s + w == s;
    }
  }

  /** A string of whitespace trims to the empty string. */
  lemma TrimOfWhitespace(s: string)
    requires AllWhitespace(s)
    ensures Trim(s) == []
  {
    LeadingWhitespaceIsLongest(s);
  }

  /** `trim` ignores whitespace around its argument. */
  lemma TrimIgnoresSurroundingWhitespace(before: string, s: string, after: string)
    requires AllWhitespace(before) && AllWhitespace(after)
    ensures Trim(before + s + after) == Trim(s)
  {
    var full := before + s + after;
    if AllWhitespace(s) {
      assert AllWhitespace(full) by {
        forall k | 0 <= k < |full| ensures IsWhitespace(full[k]) {
          if k < |before| {
            assert full[k] == before[k];
          } else if k < |before| + |s| {
            assert full[k] == s[k - |before|];
          } else {
            assert full[k] == after[k - |before| - |s|];
          }
        }
      }
      TrimOfWhitespace(full);
      TrimOfWhitespace(s);
    } else {
      TrimKeepsInner(before, s, after);
    }
  }

  lemma TrimKeepsInner(before: string, s: string, after: string)
    requires AllWhitespace(before) && AllWhitespace(after) && !AllWhitespace(s)
    ensures Trim(before + s + after) == Trim(s)
  {
    var full := before + s + after;
    var i := LeadingWhitespace(s);
    var t := s[i..];
    LeadingAfterPadding(before, s, after);
    SliceOfPadded(before, s, after, i);
    var u := full[LeadingWhitespace(full)..];
    assert u == t + after;
    TrailingOfSuffixed(t, after);
    var m := |t| - TrailingWhitespace(t);
    assert |u| - TrailingWhitespace(u) == m;
    PrefixOfAppend(t, after, m);
    assert Trim(full) == u[..m];
    assert Trim(s) == t[..m];
  }

  /** Cutting the padding and the first `k` characters off `before + s + after`. */
  lemma SliceOfPadded(before: string, s: string, after: string, k: nat)
    requires k <= |s|
    ensures (before + s + after)[|before| + k..] == s[k..] + after
  {
  }

  lemma PrefixOfAppend(t: string, after: string, m: nat)
    requires m <= |t|
    ensures (t + after)[..m] == t[..m]
  {
  }

  lemma LeadingAfterPadding(before: string, s: string, after: string)
    requires AllWhitespace(before) && !AllWhitespace(s)
    ensures LeadingWhitespace(before + s + after) == |before| + LeadingWhitespace(s)
  {
    assert before + s + after == before + (s + after);
    LeadingOfPrefixed(before, s + after);
    LeadingOfSuffixed(s, after);
  }

  /** Trimming twice is trimming once. */
  lemma TrimIdempotent(s: string)
    ensures Trim(Trim(s)) == Trim(s)
  {
    var r := Trim(s);
    if r != [] {
      assert LeadingWhitespace(r) == 0;
      assert TrailingWhitespace(r) == 0;
    }
  }
}
