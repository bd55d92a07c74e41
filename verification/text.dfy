/** String helpers with JavaScript's semantics: truthiness, `trim`, `toLowerCase`, suffix tests. */
module Text {
  import opened Wrappers

  /** A string-valued field is truthy when present and non-empty. */
  predicate Truthy(s: Option<string>) {
    s.Some? && s.value != ""
  }

  /** `a || b` where `a` is an optional string and `b` a string. */
  function OrElse(a: Option<string>, b: string): (r: string)
    ensures Truthy(a) ==> r == a.value
    ensures !Truthy(a) ==> r == b
  {
    if a.Some? && a.value != "" then a.value else b
  }

  /** The WhiteSpace and LineTerminator characters `String.prototype.trim` removes. */
  predicate IsSpace(c: char) {
    || ('\t' <= c <= '\r')
    || c == ' ' || c == '\U{00A0}' || c == '\U{1680}'
    || ('\U{2000}' <= c <= '\U{200A}')
    || c == '\U{2028}' || c == '\U{2029}' || c == '\U{202F}' || c == '\U{205F}'
    || c == '\U{3000}' || c == '\U{FEFF}'
  }

  predicate AllSpace(s: string) {
    forall i :: 0 <= i < |s| ==> IsSpace(s[i])
  }

  /** Drops the longest all-whitespace prefix. */
  function TrimStart(s: string): (r: string)
    ensures |r| <= |s| && r == s[|s| - |r|..]
    ensures forall i :: 0 <= i < |s| - |r| ==> IsSpace(s[i])
    ensures r == [] || !IsSpace(r[0])
  {
    if |s| > 0 && IsSpace(s[0]) then
      var r := TrimStart(s[1..]);
      assert s[1..][|s| - 1 - |r|..] == s[|s| - |r|..];
      r
    else
      s
  }

  /** Drops the longest all-whitespace suffix. */
  function TrimEnd(s: string): (r: string)
    ensures |r| <= |s| && r == s[..|r|]
    ensures forall i :: |r| <= i < |s| ==> IsSpace(s[i])
    ensures r == [] || !IsSpace(r[|r| - 1])
  {
    if |s| > 0 && IsSpace(s[|s| - 1]) then
      var p := s[..|s| - 1];
      var r := TrimEnd(p);
      assert p[..|r|] == s[..|r|];
      r
    else
      s
  }

  /** `s.trim()`: what remains is a contiguous piece of `s` that neither starts nor ends
      with whitespace, and everything removed around it is whitespace. */
  function Trim(s: string): (r: string)
    ensures exists i, j {:trigger s[i..j]} ::
              (0 <= i <= j <= |s| && r == s[i..j] && AllSpace(s[..i]) && AllSpace(s[j..]))
    ensures r == [] || (!IsSpace(r[0]) && !IsSpace(r[|r| - 1]))
  {
    var t := TrimStart(s);
    var r := TrimEnd(t);
    TrimStartPiece(s, t, |s| - |t|);
    TrimEndPiece(s, t, |s| - |t|, r);
    r
  }

  /** `TrimStart(s)` is the suffix of `s` from `i`, with whitespace before `i`. */
  lemma TrimStartPiece(s: string, t: string, i: int)
    requires t == TrimStart(s) && i == |s| - |t|
    ensures 0 <= i <= |s| && t == s[i..] && AllSpace(s[..i])
  {
    SliceSpace(s, 0, i);
    assert s[..i] == s[0..i];
  }

  /** `r == TrimEnd(t)` of the suffix `t == s[i..]` is `s[i..i + |r|]`, with whitespace after it. */
  lemma TrimEndPiece(s: string, t: string, i: int, r: string)
    requires 0 <= i <= |s| && t == s[i..] && r == TrimEnd(t)
    ensures i + |r| <= |s| && r == s[i..i + |r|] && AllSpace(s[i + |r|..])
  {
    var j := i + |r|;
    assert r == s[i..j];
    forall k | j <= k < |s| ensures IsSpace(s[k]) {
      assert s[k] == t[k - i];
    }
    SliceSpace(s, j, |s|);
    assert s[j..] == s[j..|s|];
  }

  lemma SliceSpace(s: string, lo: int, hi: int)
    requires 0 <= lo <= hi <= |s|
    requires forall k :: lo <= k < hi ==> IsSpace(s[k])
    ensures AllSpace(s[lo..hi])
  {
    forall k | 0 <= k < hi - lo ensures IsSpace(s[lo..hi][k]) {
      assert s[lo..hi][k] == s[lo + k];
    }
  }

  /** `toLowerCase` on the ASCII letters. */
  function LowerChar(c: char): (r: char)
    ensures 'A' <= c <= 'Z' ==> 'a' <= r <= 'z' && r as int == c as int + 32
    ensures !('A' <= c <= 'Z') ==> r == c
  {
    if 'A' <= c <= 'Z' then (c as int + 32) as char else c
  }

  function UpperChar(c: char): char {
    if 'a' <= c <= 'z' then (c as int - 32) as char else c
  }

  function Lower(s: string): (r: string)
    ensures |r| == |s|
    ensures forall i :: 0 <= i < |s| ==> r[i] == LowerChar(s[i])
  {
    if s == [] then [] else [LowerChar(s[0])] + Lower(s[1..])
  }

  function Upper(s: string): (r: string)
    ensures |r| == |s|
    ensures forall i :: 0 <= i < |s| ==> r[i] == UpperChar(s[i])
  {
    if s == [] then [] else [UpperChar(s[0])] + Upper(s[1..])
  }

  /** Lower-casing forgets the letter case: upper-casing first changes nothing. */
  lemma LowerForgetsCase(s: string)
    ensures Lower(Upper(s)) == Lower(s)
  {
  }

  /** Trimming ignores whitespace padding on either side. */
  lemma {:induction false} TrimIgnoresPadding(pre: string, s: string, post: string)
    requires AllSpace(pre) && AllSpace(post)
    ensures Trim(pre + s + post) == Trim(s)
  {
    var tail := s + post;
    assert pre + s + post == pre + tail;
    var t := TrimStart(s);
    calc {
      Trim(pre + tail);
    == { TrimUnfolds(pre + tail); }
      TrimEnd(TrimStart(pre + tail));
    == { TrimStartPadded(pre, tail); }
      TrimEnd(TrimStart(tail));
    == { SpaceThenPadding(s, post); }
      TrimEnd(TrimStart(s));
    == { TrimUnfolds(s); }
      Trim(s);
    }
  }

  /** `TrimEnd` cannot tell `TrimStart(s + post)` from `TrimStart(s)`. */
  lemma SpaceThenPadding(s: string, post: string)
    requires AllSpace(post)
    ensures TrimEnd(TrimStart(s + post)) == TrimEnd(TrimStart(s))
  {
    var t := TrimStart(s);
    if t == [] {
      AllSpacePlus(s, post);
      AllSpaceTrimStart(s + post);
    } else {
      TrimStartSuffix(s, post);
      TrimEndPadded(t, post);
    }
  }

  lemma AllSpacePlus(s: string, post: string)
    requires AllSpace(post) && TrimStart(s) == []
    ensures AllSpace(s + post)
  {
  }

  lemma TrimUnfolds(s: string)
    ensures Trim(s) == TrimEnd(TrimStart(s))
  {
  }

  lemma {:induction false} TrimStartPadded(pre: string, s: string)
    requires AllSpace(pre)
    ensures TrimStart(pre + s) == TrimStart(s)
    decreases |pre|
  {
    if pre != [] {
      assert (pre + s)[1..] == pre[1..] + s;
      TrimStartPadded(pre[1..], s);
    } else {
      assert pre + s == s;
    }
  }

  lemma {:induction false} TrimEndPadded(s: string, post: string)
    requires AllSpace(post)
    ensures TrimEnd(s + post) == TrimEnd(s)
    decreases |post|
  {
    if post != [] {
      var p := post[..|post| - 1];
      assert (s + post)[..|s + post| - 1] == s + p;
      TrimEndPadded(s, p);
    } else {
      assert s + post == s;
    }
  }

  /** Trimming the start of `s + post` only looks into `post` when `s` is all whitespace. */
  lemma {:induction false} TrimStartSuffix(s: string, post: string)
    requires AllSpace(post) && TrimStart(s) != []
    ensures TrimStart(s + post) == TrimStart(s) + post
    decreases |s|
  {
    if IsSpace(s[0]) {
      assert (s + post)[1..] == s[1..] + post;
      TrimStartSuffix(s[1..], post);
    } else {
      assert (s + post)[0] == s[0];
    }
  }

  lemma {:induction false} AllSpaceTrimStart(s: string)
    requires AllSpace(s)
    ensures TrimStart(s) == []
    decreases |s|
  {
    if s != [] {
      AllSpaceTrimStart(s[1..]);
    }
  }

  predicate EndsWith(s: string, suffix: string) {
    |suffix| <= |s| && s[|s| - |suffix|..] == suffix
  }
}
