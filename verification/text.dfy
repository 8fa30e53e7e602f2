/** The JavaScript string operations the editor relies on, over `string`
    (a sequence of characters). Case mapping is the ASCII part of
    toLowerCase/toUpperCase; the whitespace set is the one String.prototype.trim
    strips. */
module Text {

  predicate IsAsciiUpper(c: char) { 'A' <= c <= 'Z' }

  predicate IsAsciiLower(c: char) { 'a' <= c <= 'z' }

  function AsciiLower(c: char): (d: char)
    ensures !IsAsciiUpper(d)
    ensures IsAsciiUpper(c) ==> IsAsciiLower(d)
    ensures !IsAsciiUpper(c) ==> d == c
  {
    if IsAsciiUpper(c) then (c as int + 32) as char else c
  }

  function AsciiUpper(c: char): (d: char)
    ensures !IsAsciiLower(d)
    ensures IsAsciiLower(c) ==> IsAsciiUpper(d) && AsciiLower(d) == c
    ensures !IsAsciiLower(c) ==> d == c
  {
    if IsAsciiLower(c) then (c as int - 32) as char else c
  }

  /** String.prototype.toLowerCase restricted to ASCII letters. */
  function Lower(s: string): (r: string)
    ensures |r| == |s|
    ensures forall i :: 0 <= i < |s| ==> r[i] == AsciiLower(s[i])
    ensures forall i :: 0 <= i < |r| ==> !IsAsciiUpper(r[i])
  {
    seq(|s|, i requires 0 <= i < |s| => AsciiLower(s[i]))
  }

  /** The characters String.prototype.trim removes: WhiteSpace and LineTerminator. */
  predicate IsJsWhitespace(c: char)
  {
    || ('\U{0009}' <= c <= '\U{000D}')
    || c == ' ' || c == '\U{00A0}' || c == '\U{1680}'
    || ('\U{2000}' <= c <= '\U{200A}')
    || c == '\U{2028}' || c == '\U{2029}' || c == '\U{202F}' || c == '\U{205F}'
    || c == '\U{3000}' || c == '\U{FEFF}'
  }

  function TrimStart(s: string): (r: string)
    ensures |r| <= |s| && r == s[|s| - |r|..]
    ensures AllWhitespace(s, 0, |s| - |r|)
    ensures |r| == 0 || !IsJsWhitespace(r[0])
  {
    if |s| > 0 && IsJsWhitespace(s[0]) then TrimStart(s[1..]) else s
  }

  function TrimEnd(s: string): (r: string)
    ensures |r| <= |s| && r == s[..|r|]
    ensures AllWhitespace(s, |r|, |s|)
    ensures |r| == 0 || !IsJsWhitespace(r[|r| - 1])
  {
    if |s| > 0 && IsJsWhitespace(s[|s| - 1]) then TrimEnd(s[..|s| - 1]) else s
  }

  lemma SliceMembers(s: string, i: nat, j: nat)
    requires i <= j <= |s|
    ensures forall c :: c in s[i..j] ==> c in s
  {
    forall c | c in s[i..j]
      ensures c in s
    {
      var k :| 0 <= k < j - i && s[i..j][k] == c;
      assert s[i + k] == c;
    }
  }

  /** Only whitespace in `s[i..j]`. */
  predicate AllWhitespace(s: string, i: int, j: int)
    requires 0 <= i <= j <= |s|
  {
    forall k :: i <= k < j ==> IsJsWhitespace(s[k])
  }

  /** `r` is the slice of `s` from `i` with only whitespace around it. */
  predicate IsTrimSlice(s: string, r: string, i: int)
  {
    && 0 <= i <= |s| - |r| && r == s[i..i + |r|]
    && AllWhitespace(s, 0, i) && AllWhitespace(s, i + |r|, |s|)
  }

  /** Cutting leading whitespace and then trailing whitespace leaves a
      slice with only whitespace around it. */
  lemma TrimSliceOf(s: string, t: string, r: string)
    requires |t| <= |s| && t == s[|s| - |t|..] && AllWhitespace(s, 0, |s| - |t|)
    requires |r| <= |t| && r == t[..|r|] && AllWhitespace(t, |r|, |t|)
    ensures IsTrimSlice(s, r, |s| - |t|)
  {
    var i := |s| - |t|;
    forall k | i + |r| <= k < |s| ensures IsJsWhitespace(s[k]) {
      assert s[k] == t[k - i];
    }
  }

  lemma TrimEndOfTrimStart(s: string)
    ensures IsTrimSlice(s, TrimEnd(TrimStart(s)), |s| - |TrimStart(s)|)
  {
    var t := TrimStart(s);
    TrimSliceOf(s, t, TrimEnd(t));
  }

  /** String.prototype.trim: the slice of `s` left once the whitespace on
      both ends is cut away; what remains starts and ends with something
      else. */
  function Trim(s: string): (r: string)
    ensures exists i :: IsTrimSlice(s, r, i)
    ensures |r| == 0 || (!IsJsWhitespace(r[0]) && !IsJsWhitespace(r[|r| - 1]))
    ensures forall c :: c in r ==> c in s
  {
    var t := TrimStart(s);
    var r := TrimEnd(t);
    TrimEndOfTrimStart(s);
    SliceMembers(s, |s| - |t|, |s| - |t| + |r|);
    r
  }

  /** `s.replace(/a/g, b)` for a single code unit `a`. */
  function ReplaceChar(s: string, a: char, b: char): (r: string)
    ensures |r| == |s|
    ensures forall i :: 0 <= i < |s| ==> r[i] == (if s[i] == a then b else s[i])
  {
    seq(|s|, i requires 0 <= i < |s| => if s[i] == a then b else s[i])
  }

  lemma ReplaceCharAbsent(s: string, a: char, b: char)
    requires a !in s
    ensures ReplaceChar(s, a, b) == s
  {
  }

  lemma ReplaceCharConcat(s: string, t: string, a: char, b: char)
    ensures ReplaceChar(s + t, a, b) == ReplaceChar(s, a, b) + ReplaceChar(t, a, b)
  {
  }

  /** `s.replace(/([A-Z])/g, ' $1')`: a space before every ASCII capital. */
  function SpaceBeforeCapitals(s: string): (r: string)
    ensures |r| >= |s|
    ensures forall c :: c in r ==> c in s || c == ' '
    ensures forall c :: c !in s && c != ' ' ==> c !in r
  {
    if |s| == 0 then ""
    else (if IsAsciiUpper(s[0]) then " " + [s[0]] else [s[0]]) + SpaceBeforeCapitals(s[1..])
  }

  /** Capitals are spaced independently in each part of a string. */
  lemma {:induction false} SpaceBeforeCapitalsConcat(a: string, b: string)
    ensures SpaceBeforeCapitals(a + b) == SpaceBeforeCapitals(a) + SpaceBeforeCapitals(b)
  {
    if |a| > 0 {
      assert (a + b)[1..] == a[1..] + b;
      SpaceBeforeCapitalsConcat(a[1..], b);
    } else {
      assert a + b == b;
    }
  }

  /** A string without capitals is left alone. */
  lemma {:induction false} SpaceBeforeCapitalsNone(s: string)
    requires forall i :: 0 <= i < |s| ==> !IsAsciiUpper(s[i])
    ensures SpaceBeforeCapitals(s) == s
  {
    if |s| > 0 {
      SpaceBeforeCapitalsNone(s[1..]);
      assert [s[0]] + s[1..] == s;
    }
  }

  lemma LowerConcat(a: string, b: string)
    ensures Lower(a + b) == Lower(a) + Lower(b)
  {
    assert forall i :: 0 <= i < |a + b| ==> Lower(a + b)[i] == (Lower(a) + Lower(b))[i];
  }

  predicate StartsWith(s: string, p: string)
  {
    |p| <= |s| && s[..|p|] == p
  }

  predicate EndsWith(s: string, p: string)
  {
    |p| <= |s| && s[|s| - |p|..] == p
  }

  /** `s.includes(p)`. */
  predicate Contains(s: string, p: string)
  {
    exists k {:trigger s[k..]} :: 0 <= k <= |s| && StartsWith(s[k..], p)
  }

  /** `s.replace(pat, rep)` with a string pattern: only the first occurrence. */
  function ReplaceFirst(s: string, pat: string, rep: string): (r: string)
    requires |pat| > 0
    ensures StartsWith(s, pat) ==> r == rep + s[|pat|..]
    decreases |s|
  {
    if StartsWith(s, pat) then rep + s[|pat|..]
    else if |s| == 0 then ""
    else [s[0]] + ReplaceFirst(s[1..], pat, rep)
  }

  /** A string without the given separator. */
  predicate Free(s: string, c: char) { c !in s }

  /** `s.split(c)` for a one-code-unit separator: always at least one piece,
      and no piece contains the separator. */
  function SplitOn(s: string, c: char): (r: seq<string>)
    ensures |r| >= 1
    ensures forall k :: 0 <= k < |r| ==> Free(r[k], c)
  {
    if |s| == 0 then [""]
    else
      var rest := SplitOn(s[1..], c);
      if s[0] == c then [""] + rest
      else [[s[0]] + rest[0]] + rest[1..]
  }

  /** `words.join(c)`. */
  function JoinWith(words: seq<string>, c: char): string
    requires |words| >= 1
  {
    if |words| == 1 then words[0] else words[0] + [c] + JoinWith(words[1..], c)
  }

  /** Joining the pieces of a split gives back the original string. */
  lemma {:induction false} JoinSplit(s: string, c: char)
    ensures JoinWith(SplitOn(s, c), c) == s
  {
    if |s| > 0 {
      var rest := SplitOn(s[1..], c);
      JoinSplit(s[1..], c);
      if s[0] == c {
        assert SplitOn(s, c) == [""] + rest;
        assert SplitOn(s, c)[1..] == rest;
        assert s == [c] + s[1..];
      } else {
        var r := SplitOn(s, c);
        assert r == [[s[0]] + rest[0]] + rest[1..];
        if |rest| == 1 {
          assert JoinWith(r, c) == [s[0]] + rest[0];
          assert s == [s[0]] + s[1..];
        } else {
          assert r[1..] == rest[1..];
          assert JoinWith(rest, c) == rest[0] + [c] + JoinWith(rest[1..], c);
          assert s == [s[0]] + s[1..];
        }
      }
    }
  }

  /** A string free of the separator is a single piece. */
  lemma {:induction false} SplitFree(s: string, c: char)
    requires Free(s, c)
    ensures SplitOn(s, c) == [s]
  {
    if |s| > 0 {
      SplitFree(s[1..], c);
      assert [s[0]] + s[1..] == s;
    }
  }

  /** Splitting `a + c + b` with `a` free of `c` cuts exactly at that separator. */
  lemma {:induction false} SplitAtFirst(a: string, c: char, b: string)
    requires Free(a, c)
    ensures SplitOn(a + [c] + b, c) == [a] + SplitOn(b, c)
  {
    if |a| == 0 {
      assert a + [c] + b == [c] + b;
      assert ([c] + b)[1..] == b;
    } else {
      var s := a + [c] + b;
      assert s[0] == a[0];
      assert s[1..] == a[1..] + [c] + b;
      SplitAtFirst(a[1..], c, b);
      assert [a[0]] + a[1..] == a;
    }
  }

  /** `w.charAt(0).toUpperCase() + w.slice(1)`. */
  function Capitalise(w: string): (r: string)
    ensures |r| == |w|
    ensures |w| > 0 ==> r[0] == AsciiUpper(w[0]) && r[1..] == w[1..]
  {
    if |w| == 0 then "" else [AsciiUpper(w[0])] + w[1..]
  }

  /** `words.map((w, i) => i > 0 ? Capitalise(w) : w).join('')`. */
  function CamelJoin(words: seq<string>): string
  {
    if |words| == 0 then "" else words[0] + CapitaliseAll(words[1..])
  }

  function CapitaliseAll(words: seq<string>): string
  {
    if |words| == 0 then "" else Capitalise(words[0]) + CapitaliseAll(words[1..])
  }
}
