/** The handful of Python string operations the orchestration core relies on:
    `str.strip()`, `str.lower()`, the `in` operator on strings, and `str.join`. */
module Text {

  /** Python's `str.isspace()` for one character (the characters `str.strip()` removes). */
  predicate IsSpace(c: char)
  {
    c == ' ' || ('\t' <= c <= '\r') || ('\U{1C}' <= c <= '\U{1F}')
    || c == '\U{85}' || c == '\U{A0}' || c == '\U{1680}'
    || ('\U{2000}' <= c <= '\U{200A}')
    || c == '\U{2028}' || c == '\U{2029}' || c == '\U{202F}' || c == '\U{205F}' || c == '\U{3000}'
  }

  predicate AllSpace(s: string)
  {
    forall i :: 0 <= i < |s| ==> IsSpace(s[i])
  }

  /** `s.lstrip()`: a whitespace prefix is removed. */
  function TrimStart(s: string): (r: string)
    ensures |r| <= |s| && r == s[|s| - |r|..]
    ensures r == [] || !IsSpace(r[0])
    decreases |s|
  {
    if s != [] && IsSpace(s[0]) then TrimStart(s[1..]) else s
  }

  /** What `TrimStart` removes is all whitespace. */
  lemma {:induction false} TrimStartRemovesSpace(s: string)
    ensures AllSpace(s[..|s| - |TrimStart(s)|])
    decreases |s|
  {
    if s != [] && IsSpace(s[0]) {
      var r := TrimStart(s[1..]);
      TrimStartRemovesSpace(s[1..]);
      assert s[..|s| - |r|] == [s[0]] + s[1..][..|s[1..]| - |r|];
    }
  }

  /** `s.rstrip()`: a whitespace suffix is removed. */
  function TrimEnd(s: string): (r: string)
    ensures |r| <= |s| && r == s[..|r|]
    ensures r == [] || !IsSpace(r[|r| - 1])
    decreases |s|
  {
    if s != [] && IsSpace(s[|s| - 1]) then TrimEnd(s[..|s| - 1]) else s
  }

  /** What `TrimEnd` removes is all whitespace. */
  lemma {:induction false} TrimEndRemovesSpace(s: string)
    ensures AllSpace(s[|TrimEnd(s)|..])
    decreases |s|
  {
    if s != [] && IsSpace(s[|s| - 1]) {
      var r := TrimEnd(s[..|s| - 1]);
      TrimEndRemovesSpace(s[..|s| - 1]);
      assert s[|r|..] == s[..|s| - 1][|r|..] + [s[|s| - 1]];
    }
  }

  /** `s.strip()`: neither starts nor ends with whitespace. */
  function Strip(s: string): (r: string)
    ensures |r| <= |s|
    ensures r == [] || (!IsSpace(r[0]) && !IsSpace(r[|r| - 1]))
  {
    TrimEnd(TrimStart(s))
  }

  /** `Strip(s)` is `s` with a whitespace prefix `s[..i]` and a whitespace suffix `s[j..]` cut off. */
  lemma StripParts(s: string) returns (i: nat, j: nat)
    ensures i <= j <= |s| && Strip(s) == s[i..j] && AllSpace(s[..i]) && AllSpace(s[j..])
  {
    var t := TrimStart(s);
    TrimStartRemovesSpace(s);
    TrimEndRemovesSpace(t);
    i := |s| - |t|;
    j := i + |Strip(s)|;
    assert t == s[i..];
    assert s[j..] == t[|Strip(s)|..];
  }

  /** `not s.strip()` */
  predicate IsBlank(s: string)
  {
    Strip(s) == []
  }

  /** A string is blank exactly when every one of its characters is whitespace. */
  lemma BlankIffAllSpace(s: string)
    ensures IsBlank(s) <==> AllSpace(s)
  {
    var i, j := StripParts(s);
    if IsBlank(s) {
      forall n | 0 <= n < |s| ensures IsSpace(s[n]) {
        if n < i { assert s[n] == s[..i][n]; } else { assert s[n] == s[j..][n - j]; }
      }
    } else {
      assert Strip(s)[0] == s[i];
    }
  }

  /** A string that starts and ends with a non-whitespace character is its own strip. */
  lemma StripOfTrimmed(s: string)
    requires s != [] && !IsSpace(s[0]) && !IsSpace(s[|s| - 1])
    ensures Strip(s) == s
  {
    var i, j := StripParts(s);
  }

  /** A piece that starts and ends with a non-whitespace character survives stripping whatever
      surrounds it. */
  lemma VisiblePieceSurvivesStrip(pre: string, w: string, post: string)
    requires w != [] && !IsSpace(w[0]) && !IsSpace(w[|w| - 1])
    ensures Contains(Strip(pre + w + post), w)
  {
    var x := pre + w + post;
    assert x[|pre|..|pre| + |w|] == w;
    VisibleSliceSurvivesStrip(x, |pre|, |pre| + |w|);
  }

  /** The slice form of `VisiblePieceSurvivesStrip`. */
  lemma VisibleSliceSurvivesStrip(x: string, p: nat, q: nat)
    requires p < q <= |x| && !IsSpace(x[p]) && !IsSpace(x[q - 1])
    ensures Contains(Strip(x), x[p..q])
  {
    var i, j := StripAround(x, p, q);
    SliceOccursInSlice(x, i, j, p, q);
    ContainsIffOccursAt(x[i..j], x[p..q]);
  }

  /** Stripping cuts no further than the first and past the last non-whitespace character. */
  lemma StripAround(x: string, p: nat, q: nat) returns (i: nat, j: nat)
    requires p < q <= |x| && !IsSpace(x[p]) && !IsSpace(x[q - 1])
    ensures i <= p && q <= j <= |x| && Strip(x) == x[i..j]
  {
    i, j := StripParts(x);
  }

  lemma SliceOccursInSlice(x: string, i: nat, j: nat, p: nat, q: nat)
    requires i <= p <= q <= j <= |x|
    ensures OccursAt(x[i..j], x[p..q], p - i)
  {
    forall k | 0 <= k < q - p
      ensures x[i..j][p - i..q - i][k] == x[p..q][k]
    {
      assert x[i..j][p - i..q - i][k] == x[p + k];
    }
  }

  /** A string that ends with a non-whitespace character is not blank. */
  lemma LastVisibleNotBlank(s: string)
    requires s != [] && !IsSpace(s[|s| - 1])
    ensures !IsBlank(s)
  {
    BlankIffAllSpace(s);
  }

  /** Stripping twice is stripping once. */
  lemma StripIdempotent(s: string)
    ensures Strip(Strip(s)) == Strip(s)
  {
    if Strip(s) != [] { StripOfTrimmed(Strip(s)); }
  }

  /** Python's `str.lower()` restricted to ASCII letters. */
  function LowerChar(c: char): (r: char)
    ensures 'A' <= c <= 'Z' ==> 'a' <= r <= 'z' && r as int == c as int + 32
    ensures !('A' <= c <= 'Z') ==> r == c
  {
    if 'A' <= c <= 'Z' then (c as int + 32) as char else c
  }

  function Lower(s: string): (r: string)
    ensures |r| == |s|
  {
    if s == [] then [] else [LowerChar(s[0])] + Lower(s[1..])
  }

  /** Lowering works character by character. */
  lemma {:induction false} LowerAt(s: string, i: nat)
    requires i < |s|
    ensures Lower(s)[i] == LowerChar(s[i])
    decreases |s|
  {
    if i > 0 {
      LowerAt(s[1..], i - 1);
    }
  }

  /** Lowering a lowered character changes nothing. */
  lemma LowerCharIdempotent(c: char)
    ensures LowerChar(LowerChar(c)) == LowerChar(c)
  {
  }

  /** Lowering twice is lowering once. */
  lemma LowerIdempotent(s: string)
    ensures Lower(Lower(s)) == Lower(s)
  {
    forall i | 0 <= i < |s| ensures Lower(Lower(s))[i] == Lower(s)[i] {
      LowerAt(s, i);
      LowerAt(Lower(s), i);
      LowerCharIdempotent(s[i]);
    }
  }

  /** Lowering keeps whitespace whitespace and everything else not. */
  lemma LowerCharKeepsSpace(c: char)
    ensures IsSpace(LowerChar(c)) <==> IsSpace(c)
  {
  }

  /** Lowering commutes with concatenation. */
  lemma LowerAppend(a: string, b: string)
    ensures Lower(a + b) == Lower(a) + Lower(b)
  {
    forall i | 0 <= i < |a + b|
      ensures Lower(a + b)[i] == (Lower(a) + Lower(b))[i]
    {
      LowerAt(a + b, i);
      if i < |a| {
        LowerAt(a, i);
      } else {
        LowerAt(b, i - |a|);
      }
    }
  }

  /** Python's `w in s` on strings: `w` occurs as a contiguous piece of `s`
      (the empty string occurs in every string). */
  predicate Contains(s: string, w: string)
    decreases |s|
  {
    w <= s || (|s| > 0 && Contains(s[1..], w))
  }

  /** `w` occurs in `s` starting at index `i`. */
  predicate OccursAt(s: string, w: string, i: int)
  {
    0 <= i <= |s| - |w| && s[i..i + |w|] == w
  }

  /** `Contains` is exactly "occurs at some index". */
  lemma {:induction false} ContainsIffOccursAt(s: string, w: string)
    ensures Contains(s, w) <==> exists i :: OccursAt(s, w, i)
    decreases |s|
  {
    if w <= s {
      assert OccursAt(s, w, 0);
    } else if |s| > 0 {
      ContainsIffOccursAt(s[1..], w);
      if Contains(s[1..], w) {
        var i :| OccursAt(s[1..], w, i);
        assert s[i + 1..i + 1 + |w|] == s[1..][i..i + |w|];
        assert OccursAt(s, w, i + 1);
      }
      if exists i :: OccursAt(s, w, i) {
        var i :| OccursAt(s, w, i);
        if i != 0 {
          assert s[1..][i - 1..i - 1 + |w|] == s[i..i + |w|];
          assert OccursAt(s[1..], w, i - 1);
        }
      }
    }
  }

  /** What occurs in a string still occurs once more text is added on either side. */
  lemma ContainsExtend(pre: string, s: string, post: string, w: string)
    requires Contains(s, w)
    ensures Contains(pre + s + post, w)
  {
    ContainsIffOccursAt(s, w);
    var i :| OccursAt(s, w, i);
    assert (pre + s + post)[|pre| + i..|pre| + i + |w|] == s[i..i + |w|];
    assert OccursAt(pre + s + post, w, |pre| + i);
    ContainsIffOccursAt(pre + s + post, w);
  }

  /** Every string contains itself. */
  lemma ContainsSelf(s: string)
    ensures Contains(s, s)
  {
    assert s <= s;
  }

  /** Python's `any(w in s for w in words)`. */
  predicate ContainsAny(s: string, words: seq<string>)
    decreases |words|
  {
    |words| > 0 && (Contains(s, words[0]) || ContainsAny(s, words[1..]))
  }

  lemma {:induction false} ContainsAnyIff(s: string, words: seq<string>)
    ensures ContainsAny(s, words) <==> exists k :: 0 <= k < |words| && Contains(s, words[k])
    decreases |words|
  {
    if |words| > 0 {
      ContainsAnyIff(s, words[1..]);
      if exists k :: 0 <= k < |words| && Contains(s, words[k]) {
        var k :| 0 <= k < |words| && Contains(s, words[k]);
        if k > 0 { assert words[1..][k - 1] == words[k]; }
      }
      if ContainsAny(s, words[1..]) {
        var k :| 0 <= k < |words[1..]| && Contains(s, words[1..][k]);
        assert words[k + 1] == words[1..][k];
      }
    }
  }

  /** Adding text around a string never removes a keyword match. */
  lemma ContainsAnyExtend(pre: string, s: string, post: string, words: seq<string>)
    requires ContainsAny(s, words)
    ensures ContainsAny(pre + s + post, words)
  {
    ContainsAnyIff(s, words);
    var k :| 0 <= k < |words| && Contains(s, words[k]);
    ContainsExtend(pre, s, post, words[k]);
    ContainsAnyIff(pre + s + post, words);
  }

  /** A string that contains one of the words matches the keyword list. */
  lemma ContainsAnyOfMember(s: string, words: seq<string>, k: nat)
    requires k < |words| && Contains(s, words[k])
    ensures ContainsAny(s, words)
  {
    ContainsAnyIff(s, words);
  }

  /** Python's `sep.join(parts)`. */
  function Join(parts: seq<string>, sep: string): string
    decreases |parts|
  {
    if |parts| == 0 then ""
    else if |parts| == 1 then parts[0]
    else parts[0] + sep + Join(parts[1..], sep)
  }

  /** The joined string is at least as long as its first part. */
  lemma JoinCoversFirst(parts: seq<string>, sep: string)
    requires 0 < |parts|
    ensures |parts[0]| <= |Join(parts, sep)|
  {
  }

  /** Every part appears inside the joined string. */
  lemma {:induction false} JoinContainsPart(parts: seq<string>, sep: string, k: nat)
    requires k < |parts|
    ensures Contains(Join(parts, sep), parts[k])
    decreases |parts|
  {
    if |parts| == 1 {
      ContainsSelf(parts[0]);
      assert Join(parts, sep) == [] + parts[0] + [];
    } else if k == 0 {
      ContainsSelf(parts[0]);
      ContainsExtend([], parts[0], sep + Join(parts[1..], sep), parts[0]);
      assert [] + parts[0] + (sep + Join(parts[1..], sep)) == Join(parts, sep);
    } else {
      JoinContainsPart(parts[1..], sep, k - 1);
      ContainsExtend(parts[0] + sep, Join(parts[1..], sep), [], parts[k]);
      assert (parts[0] + sep) + Join(parts[1..], sep) + [] == Join(parts, sep);
    }
  }
}
