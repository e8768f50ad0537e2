/** The Python string operations the endpoint uses: `str.strip()` with no
    argument, `str.replace(old, '')` and `sep.join(parts)`. */
module Text {

  /** The characters for which Python's `str.isspace()` holds, which are the
      ones `str.strip()` removes. */
  predicate IsSpace(c: char) {
    || c == ' ' || c == '\t' || c == '\n' || c == '\r'
    || c == '\U{0B}' || c == '\U{0C}'
    || ('\U{1C}' <= c <= '\U{1F}')
    || c == '\U{85}' || c == '\U{A0}' || c == '\U{1680}'
    || ('\U{2000}' <= c <= '\U{200A}')
    || c == '\U{2028}' || c == '\U{2029}' || c == '\U{202F}' || c == '\U{205F}'
    || c == '\U{3000}'
  }

  predicate AllSpace(s: string) {
    forall i {:trigger IsSpace(s[i])} :: 0 <= i < |s| ==> IsSpace(s[i])
  }

  /** Every character of `s` from index `lo` up to `hi` is whitespace. */
  predicate SpaceBetween(s: string, lo: int, hi: int)
    requires 0 <= lo <= hi <= |s|
  {
    forall i {:trigger IsSpace(s[i])} :: lo <= i < hi ==> IsSpace(s[i])
  }

  /** `str.lstrip()`: the suffix of `s` left after its leading whitespace. */
  function TrimStart(s: string): (r: string)
    ensures |r| <= |s| && r == s[|s| - |r|..]
    ensures SpaceBetween(s, 0, |s| - |r|)
    ensures r == [] || !IsSpace(r[0])
    decreases |s|
  {
    if |s| > 0 && IsSpace(s[0]) then TrimStart(s[1..]) else s
  }

  /** `str.rstrip()`: the prefix of `s` left after its trailing whitespace. */
  function TrimEnd(s: string): (r: string)
    ensures |r| <= |s| && r == s[..|r|]
    ensures SpaceBetween(s, |r|, |s|)
    ensures r == [] || !IsSpace(r[|r| - 1])
    decreases |s|
  {
    if |s| > 0 && IsSpace(s[|s| - 1]) then TrimEnd(s[..|s| - 1]) else s
  }

  /** `str.strip()`: neither starts nor ends with whitespace, and nothing
      is left of an input that is all whitespace. */
  function Strip(s: string): (r: string)
    ensures r == [] || (!IsSpace(r[0]) && !IsSpace(r[|r| - 1]))
    ensures AllSpace(s) ==> r == []
  {
    var t := TrimStart(s);
    var r := TrimEnd(t);
    assert r != [] ==> r[0] == t[0];
    r
  }

  /** `strip()` keeps a slice of its input: the one that starts after the
      leading whitespace. */
  lemma StripSlice(s: string)
    ensures var r := Strip(s);
      var lo := |s| - |TrimStart(s)|;
      && 0 <= lo && lo + |r| <= |s| && r == s[lo..lo + |r|]
  {
    var t := TrimStart(s);
    var lo := |s| - |t|;
    var r := TrimEnd(t);
    assert Strip(s) == r;
    assert t == s[lo..] && r == t[..|r|];
    SliceOfSuffix(s, lo, |r|);
  }

  /** What `strip()` drops around that slice is all whitespace. */
  lemma StripDropsSpace(s: string)
    ensures var r := Strip(s);
      var lo := |s| - |TrimStart(s)|;
      && 0 <= lo && lo + |r| <= |s|
      && SpaceBetween(s, 0, lo) && SpaceBetween(s, lo + |r|, |s|)
  {
    var t := TrimStart(s);
    SpaceOfSuffix(s, |s| - |t|, |TrimEnd(t)|);
  }

  /** A prefix of a suffix is a slice. */
  lemma SliceOfSuffix(s: string, lo: int, n: int)
    requires 0 <= lo && 0 <= n && lo + n <= |s|
    ensures s[lo..][..n] == s[lo..lo + n]
  {
  }

  /** Whitespace at the end of a suffix is whitespace at the end of the whole. */
  lemma SpaceOfSuffix(s: string, lo: int, n: int)
    requires 0 <= lo && 0 <= n && lo + n <= |s|
    requires SpaceBetween(s[lo..], n, |s| - lo)
    ensures SpaceBetween(s, lo + n, |s|)
  {
    forall i | lo + n <= i < |s| ensures IsSpace(s[i]) {
      assert s[i] == s[lo..][i - lo];
    }
  }

  lemma {:induction false} TrimStartSkips(lead: string, x: string)
    requires AllSpace(lead) && x != [] && !IsSpace(x[0])
    ensures TrimStart(lead + x) == x
    decreases |lead|
  {
    if lead != [] {
      assert (lead + x)[1..] == lead[1..] + x;
      TrimStartSkips(lead[1..], x);
    } else {
      assert lead + x == x;
    }
  }

  lemma {:induction false} TrimEndSkips(x: string, trail: string)
    requires AllSpace(trail) && x != [] && !IsSpace(x[|x| - 1])
    ensures TrimEnd(x + trail) == x
    decreases |trail|
  {
    if trail != [] {
      var t' := trail[..|trail| - 1];
      assert (x + trail)[..|x + trail| - 1] == x + t';
      TrimEndSkips(x, t');
    } else {
      assert x + trail == x;
    }
  }

  /** Stripping removes exactly the whitespace around a text that starts and
      ends with a non-space character. */
  lemma StripExact(lead: string, x: string, trail: string)
    requires AllSpace(lead) && AllSpace(trail)
    requires x != [] && !IsSpace(x[0]) && !IsSpace(x[|x| - 1])
    ensures Strip(lead + x + trail) == x
  {
    assert lead + x + trail == lead + (x + trail);
    TrimStartSkips(lead, x + trail);
    TrimEndSkips(x, trail);
  }

  /** `s.replace(pat, '')`: scanning from the left, every non-overlapping
      occurrence of `pat` is removed. */
  function RemoveAll(s: string, pat: string): (r: string)
    requires pat != []
    ensures |r| <= |s|
    decreases |s|
  {
    if |s| < |pat| then s
    else if s[..|pat|] == pat then RemoveAll(s[|pat|..], pat)
    else [s[0]] + RemoveAll(s[1..], pat)
  }

  /** A text that does not start with the first character of `pat` keeps that
      character at its head. */
  lemma RemoveAllHead(t: string, pat: string)
    requires pat != [] && t != [] && t[0] != pat[0]
    ensures RemoveAll(t, pat) == [t[0]] + RemoveAll(t[1..], pat)
  {
    if |t| < |pat| {
      assert t == [t[0]] + t[1..];
    } else {
      assert t[..|pat|][0] != pat[0];
    }
  }

  /** A prefix free of `pat`'s first character passes through unchanged. */
  lemma {:induction false} RemoveAllSkips(t: string, u: string, pat: string)
    requires pat != [] && pat[0] !in t
    ensures RemoveAll(t + u, pat) == t + RemoveAll(u, pat)
    decreases |t|
  {
    if t == [] {
      assert t + u == u;
    } else {
      var t' := t[1..];
      assert t == [t[0]] + t';
      RemoveAllHead(t + u, pat);
      assert (t + u)[1..] == t' + u;
      RemoveAllSkips(t', u, pat);
    }
  }

  /** A text free of `pat`'s first character is left as it is. */
  lemma RemoveAllFree(t: string, pat: string)
    requires pat != [] && pat[0] !in t
    ensures RemoveAll(t, pat) == t
  {
    RemoveAllSkips(t, [], pat);
    assert t + [] == t;
  }

  /** A leading occurrence of `pat` is removed. */
  lemma RemoveAllLeading(pat: string, u: string)
    requires pat != []
    ensures RemoveAll(pat + u, pat) == RemoveAll(u, pat)
  {
    assert (pat + u)[..|pat|] == pat;
    assert (pat + u)[|pat|..] == u;
  }

  /** Stripping only removes characters, so it never introduces one. */
  lemma StripKeepsOut(s: string, c: char)
    requires c !in s
    ensures c !in Strip(s)
  {
    var t := TrimStart(s);
    assert c !in t by {
      assert forall i :: 0 <= i < |t| ==> t[i] == s[|s| - |t| + i];
    }
    var r := TrimEnd(t);
    assert forall i :: 0 <= i < |r| ==> r[i] == t[i];
  }

  /** Three backticks starting at index `i`. */
  predicate FenceAt(s: string, i: int) {
    0 <= i && i + 3 <= |s| && s[i] == '`' && s[i + 1] == '`' && s[i + 2] == '`'
  }

  predicate NoFence(s: string) {
    forall i :: 0 <= i < |s| ==> !FenceAt(s, i)
  }

  /** Removing every "```" leaves no run of three backticks, even where the
      removal joins backticks that were apart. */
  lemma {:induction false} RemoveFenceLeavesNone(s: string)
    ensures NoFence(RemoveAll(s, "```"))
    decreases |s|
  {
    var f := "```";
    var r := RemoveAll(s, f);
    if |s| < 3 {
    } else if s[..3] == f {
      RemoveFenceLeavesNone(s[3..]);
    } else {
      var r' := RemoveAll(s[1..], f);
      RemoveFenceLeavesNone(s[1..]);
      assert r == [s[0]] + r';
      forall i | 0 <= i < |r| ensures !FenceAt(r, i) {
        if i > 0 {
          assert FenceAt(r, i) ==> FenceAt(r', i - 1);
        } else if s[0] == '`' && |r| >= 3 {
          if s[1] != '`' {
            RemoveAllHead(s[1..], f);
          } else {
            assert s[2] != '`';
            if |s| == 3 {
              assert r' == s[1..];
            } else {
              assert s[1..][..3] != f by { assert s[1..][1] == s[2]; }
              assert r' == [s[1]] + RemoveAll(s[2..], f) by {
                assert s[1..][1..] == s[2..];
              }
              RemoveAllHead(s[2..], f);
            }
            assert r'[1] != '`';
          }
        }
      }
    }
  }

  /** `sep.join(parts)`. */
  function Join(sep: string, parts: seq<string>): string
    decreases |parts|
  {
    if |parts| == 0 then ""
    else if |parts| == 1 then parts[0]
    else parts[0] + sep + Join(sep, parts[1..])
  }
}
