/** The handful of Python string operations the script relies on:
    `str.split(sep)`, `sep.join(parts)`, `str.startswith`, `str.strip()`
    and `str.isdigit()` on one character. */
module Text {
  import opened Wrappers

  /** `c.isspace()`: the characters Python counts as whitespace, which
      `str.strip()` with no argument removes. They are U+0009 to U+000D,
      U+001C to U+0020, U+0085, U+00A0, U+1680, U+2000 to U+200A, U+2028,
      U+2029, U+202F, U+205F and U+3000. */
  predicate IsSpace(c: char) {
    ('\t' <= c <= '\r') || ('\U{1C}' <= c <= ' ') || c == '\U{85}' || c == '\U{A0}'
    || c == '\U{1680}' || ('\U{2000}' <= c <= '\U{200A}') || c == '\U{2028}' || c == '\U{2029}'
    || c == '\U{202F}' || c == '\U{205F}' || c == '\U{3000}'
  }

  /** `c.isdigit()`, restricted to the ASCII digits. */
  predicate IsDigit(c: char) {
    '0' <= c <= '9'
  }

  /** `s.startswith(p)`. */
  predicate StartsWith(s: string, p: string) {
    |p| <= |s| && s[..|p|] == p
  }

  /** `pat` occurs in `s` starting at position `j`. */
  predicate OccursAt(s: string, pat: string, j: nat) {
    j + |pat| <= |s| && s[j..j + |pat|] == pat
  }

  /** Occurrences in `s` past its first character are occurrences in `s[1..]`. */
  lemma OccursAtTail(s: string, pat: string, j: nat)
    requires s != []
    ensures OccursAt(s, pat, j + 1) <==> OccursAt(s[1..], pat, j)
  {
    if j + 1 + |pat| <= |s| {
      assert s[j + 1..j + 1 + |pat|] == s[1..][j..j + |pat|];
    }
  }

  /** A one-character pattern occurs exactly where that character stands. */
  lemma OccursSingle(s: string, c: char, j: nat)
    ensures OccursAt(s, [c], j) <==> (j < |s| && s[j] == c)
  {
    if j < |s| {
      assert s[j..j + 1] == [s[j]];
    }
  }

  /** The position of the leftmost occurrence of `pat` in `s`, as `str.find`. */
  function IndexOf(s: string, pat: string): (r: Option<nat>)
    ensures r.Some? ==> OccursAt(s, pat, r.value)
    ensures r.Some? ==> forall j: nat :: j < r.value ==> !OccursAt(s, pat, j)
    ensures r.None? ==> forall j: nat :: !OccursAt(s, pat, j)
    decreases |s|
  {
    if |s| < |pat| then None
    else if s[..|pat|] == pat then Some(0)
    else
      match IndexOf(s[1..], pat)
      case None =>
        forall j: nat ensures !OccursAt(s, pat, j) {
          if j > 0 { OccursAtTail(s, pat, j - 1); }
        }
        None
      case Some(j) =>
        forall k: nat | k < j + 1 ensures !OccursAt(s, pat, k) {
          if k > 0 { OccursAtTail(s, pat, k - 1); }
        }
        OccursAtTail(s, pat, j);
        Some(j + 1)
  }

  /** `s.split(sep)` for a non-empty separator: the pieces between
      successive leftmost, non-overlapping occurrences of `sep`. */
  function SplitOn(s: string, sep: string): (r: seq<string>)
    requires sep != ""
    ensures |r| >= 1
    decreases |s|
  {
    match IndexOf(s, sep)
    case None => [s]
    case Some(i) => [s[..i]] + SplitOn(s[i + |sep|..], sep)
  }

  /** `sep.join(parts)`. */
  function Join(parts: seq<string>, sep: string): string {
    if |parts| == 0 then ""
    else if |parts| == 1 then parts[0]
    else parts[0] + sep + Join(parts[1..], sep)
  }

  /** Joining the pieces of a split gives back the original string. */
  lemma {:induction false} JoinSplit(s: string, sep: string)
    requires sep != ""
    ensures Join(SplitOn(s, sep), sep) == s
    decreases |s|
  {
    match IndexOf(s, sep)
    case None =>
    case Some(i) =>
      var rest := s[i + |sep|..];
      var r := SplitOn(rest, sep);
      assert SplitOn(s, sep) == [s[..i]] + r;
      JoinCons(s[..i], r, sep);
      JoinSplit(rest, sep);
      Reassemble(s, i, i + |sep|);
  }

  /** A string is its three slices at `i` and `j` put back together. */
  lemma Reassemble(s: string, i: nat, j: nat)
    requires i <= j <= |s|
    ensures s == s[..i] + s[i..j] + s[j..]
  {
    assert s[..j] == s[..i] + s[i..j];
    assert s == s[..j] + s[j..];
  }

  /** Joining a piece in front of a non-empty sequence of pieces. */
  lemma JoinCons(p: string, r: seq<string>, sep: string)
    requires r != []
    ensures Join([p] + r, sep) == p + sep + Join(r, sep)
  {
    assert ([p] + r)[1..] == r;
  }

  /** Splitting a newline-join of newline-free pieces gives the pieces back:
      `'\n'.join(parts).split('\n') == parts`. */
  lemma {:induction false} SplitJoinLines(parts: seq<string>)
    requires parts != []
    requires forall k :: 0 <= k < |parts| ==> '\n' !in parts[k]
    ensures SplitOn(Join(parts, "\n"), "\n") == parts
  {
    var p := parts[0];
    if |parts| == 1 {
      NoOccurrence(p);
    } else {
      var rest := Join(parts[1..], "\n");
      var s := p + "\n" + rest;
      assert Join(parts, "\n") == s;
      FirstNewlineAt(p, rest);
      assert s[..|p|] == p;
      assert s[|p| + 1..] == rest;
      SplitJoinLines(parts[1..]);
    }
  }

  /** In `p + "\n" + rest` with `p` newline-free, the first newline is at `|p|`. */
  lemma FirstNewlineAt(p: string, rest: string)
    requires '\n' !in p
    ensures IndexOf(p + "\n" + rest, "\n") == Some(|p|)
  {
    var s := p + "\n" + rest;
    OccursSingle(s, '\n', |p|);
    forall j: nat | j < |p| ensures !OccursAt(s, "\n", j) {
      OccursSingle(s, '\n', j);
      assert s[j] == p[j];
    }
  }

  /** A string without a newline character holds no occurrence of "\n". */
  lemma NoOccurrence(p: string)
    requires '\n' !in p
    ensures IndexOf(p, "\n") == None
  {
    forall j: nat ensures !OccursAt(p, "\n", j) {
      OccursSingle(p, '\n', j);
    }
  }

  /** Leading whitespace removed, as `str.lstrip()`. */
  function TrimStart(s: string): (r: string)
    ensures |r| <= |s|
    ensures r == [] || !IsSpace(r[0])
  {
    if s != [] && IsSpace(s[0]) then TrimStart(s[1..]) else s
  }

  /** Trailing whitespace removed, as `str.rstrip()`. */
  function TrimEnd(s: string): (r: string)
    ensures |r| <= |s|
    ensures r == [] || !IsSpace(r[|r| - 1])
  {
    if s != [] && IsSpace(s[|s| - 1]) then TrimEnd(s[..|s| - 1]) else s
  }

  /** `lstrip` keeps a suffix of its argument. */
  lemma {:induction false} TrimStartSuffix(s: string)
    ensures TrimStart(s) == s[|s| - |TrimStart(s)|..]
  {
    if s != [] && IsSpace(s[0]) {
      TrimStartSuffix(s[1..]);
    }
  }

  /** `rstrip` keeps a prefix of its argument. */
  lemma {:induction false} TrimEndPrefix(s: string)
    ensures TrimEnd(s) == s[..|TrimEnd(s)|]
  {
    if s != [] && IsSpace(s[|s| - 1]) {
      TrimEndPrefix(s[..|s| - 1]);
    }
  }

  /** A string with no whitespace at either end. */
  predicate IsStripped(s: string) {
    s == [] || (!IsSpace(s[0]) && !IsSpace(s[|s| - 1]))
  }

  /** `s.strip()`: what is left of `s` once the whitespace at both ends is
      removed. */
  function Strip(s: string): (r: string)
    ensures IsStripped(r)
  {
    var t := TrimStart(s);
    TrimEndPrefix(t);
    TrimEnd(t)
  }

  /** `lstrip` removes leading whitespace and nothing else. */
  lemma {:induction false} TrimStartRemovesSpace(s: string, k: nat)
    requires k < |s| - |TrimStart(s)|
    ensures IsSpace(s[k])
  {
    if k > 0 {
      assert s[1..][k - 1] == s[k];
      TrimStartRemovesSpace(s[1..], k - 1);
    }
  }

  /** `rstrip` removes trailing whitespace and nothing else. */
  lemma {:induction false} TrimEndRemovesSpace(s: string, k: nat)
    requires |TrimEnd(s)| <= k < |s|
    ensures IsSpace(s[k])
  {
    if k < |s| - 1 {
      TrimEndRemovesSpace(s[..|s| - 1], k);
    }
  }

  /** `strip` removes whitespace and nothing else: the result is the slice of
      `s` after its `a` leading whitespace characters, and everything after
      that slice is whitespace too. */
  lemma StripRemovesOnlyWhitespace(s: string)
    ensures var a := |s| - |TrimStart(s)|;
            var r := Strip(s);
            a + |r| <= |s| && r == s[a..a + |r|]
            && (forall k :: 0 <= k < a ==> IsSpace(s[k]))
            && (forall k :: a + |r| <= k < |s| ==> IsSpace(s[k]))
  {
    StripSlice(s);
    forall k | 0 <= k < |s| - |TrimStart(s)| ensures IsSpace(s[k]) {
      TrimStartRemovesSpace(s, k);
    }
    StripTrailing(s);
  }

  /** What `strip` keeps is the slice of `s` that `lstrip` starts. */
  lemma StripSlice(s: string)
    ensures var a := |s| - |TrimStart(s)|;
            a + |Strip(s)| <= |s| && Strip(s) == s[a..a + |Strip(s)|]
  {
    var t := TrimStart(s);
    var r := TrimEnd(t);
    var a := |s| - |t|;
    TrimStartSuffix(s);
    TrimEndPrefix(t);
    assert r == t[..|r|];
    assert t[..|r|] == s[a..a + |r|];
  }

  /** Index `k` of `s` is index `k - a` of `s[a..]`. */
  lemma SpaceInSuffix(s: string, a: nat, k: nat)
    requires a <= k < |s|
    ensures IsSpace(s[a..][k - a]) == IsSpace(s[k])
  {
  }

  /** What `strip` drops after the slice it keeps is whitespace. */
  lemma StripTrailing(s: string)
    ensures forall k :: |s| - |TrimStart(s)| + |Strip(s)| <= k < |s| ==> IsSpace(s[k])
  {
    var t := TrimStart(s);
    var a := |s| - |t|;
    assert Strip(s) == TrimEnd(t);
    TrimStartSuffix(s);
    assert t == s[a..];
    forall k | a + |TrimEnd(t)| <= k < |s| ensures IsSpace(s[k]) {
      SpaceInSuffix(s, a, k);
      TrimEndRemovesSpace(t, k - a);
    }
  }

  /** Stripping a stripped string changes nothing, so `strip` is idempotent. */
  lemma StripStripped(s: string)
    requires IsStripped(s)
    ensures Strip(s) == s
  {
  }

  lemma StripIdempotent(s: string)
    ensures Strip(Strip(s)) == Strip(s)
  {
    StripStripped(Strip(s));
  }
}
