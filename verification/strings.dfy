/**
 * The handful of Python `str`, `os.path` and `pathlib` operations the chat drivers
 * rely on, written out so that their edge cases are explicit.
 */
module Strings {

  /** `s.startswith(p)` */
  predicate StartsWith(s: string, p: string) {
    |p| <= |s| && s[..|p|] == p
  }

  /** `s.endswith(p)` */
  predicate EndsWith(s: string, p: string) {
    |p| <= |s| && s[|s| - |p|..] == p
  }

  /** `needle in hay` for two strings: some position of `hay` starts with `needle`. */
  predicate Contains(hay: string, needle: string)
    decreases |hay|
  {
    StartsWith(hay, needle) || (hay != [] && Contains(hay[1..], needle))
  }

  lemma {:induction false} ContainsAt(hay: string, needle: string, i: nat)
    requires i + |needle| <= |hay| && hay[i..i + |needle|] == needle
    ensures Contains(hay, needle)
    decreases i
  {
    if i > 0 {
      assert hay[1..][i - 1..i - 1 + |needle|] == hay[i..i + |needle|];
      ContainsAt(hay[1..], needle, i - 1);
    }
  }

  /** `s.rfind(c)` for one character: the last index holding `c`, or -1. */
  function RFind(s: string, c: char): (r: int)
    ensures -1 <= r < |s|
    ensures r >= 0 ==> s[r] == c
    ensures forall j :: r < j < |s| ==> s[j] != c
    decreases |s|
  {
    if s == [] then -1
    else if s[|s| - 1] == c then |s| - 1
    else RFind(s[..|s| - 1], c)
  }

  /** `os.path.basename(path)`: everything after the last '/'. */
  function Basename(path: string): (r: string)
    ensures |r| <= |path|
  {
    path[RFind(path, '/') + 1..]
  }

  /**
   * `Basename` is the final component: a tail of the path free of '/', preceded by a
   * '/' whenever it is not the whole path, and the whole path when it holds no '/'.
   */
  lemma BasenameIsLastComponent(path: string)
    ensures var r := Basename(path);
      && EndsWith(path, r) && '/' !in r
      && (|r| < |path| ==> path[|path| - |r| - 1] == '/')
      && ('/' !in path ==> r == path)
  {
    var i := RFind(path, '/');
    var r := path[i + 1..];
    assert '/' !in r by {
      forall k | 0 <= k < |r| ensures r[k] != '/' {
        assert r[k] == path[i + 1 + k];
      }
    }
    if i < 0 {
      assert r == path;
    } else {
      assert |path| - |r| - 1 == i;
      assert path[i] in path;
    }
  }

  /**
   * `pathlib.PurePath(path).suffix`: the final component's text from its last '.',
   * provided that dot is neither the first nor the last character of the component;
   * otherwise the empty string.
   */
  function Suffix(path: string): (r: string)
    ensures |r| <= |path|
  {
    var name := Basename(path);
    var i := RFind(name, '.');
    if 0 < i < |name| - 1 then name[i..] else []
  }

  /**
   * `Suffix` is non-empty exactly when the last '.' of the final component is neither
   * its first nor its last character, and is then the text from that '.': a tail of
   * the component and of the path, at least two characters long, with no other '.'.
   */
  lemma SuffixIsLastExtension(path: string)
    ensures var name := Basename(path); var i := RFind(name, '.'); var r := Suffix(path);
      && (r != [] <==> 0 < i < |name| - 1)
      && (r != [] ==> |r| >= 2 && r[0] == '.' && '.' !in r[1..] && EndsWith(name, r) && EndsWith(path, r))
  {
    var name := Basename(path);
    var i := RFind(name, '.');
    if 0 < i < |name| - 1 {
      BasenameIsLastComponent(path);
      SuffixTail(path, name, i);
    }
  }

  /** The text from the last '.' of the final component is a dotted tail of the path. */
  lemma SuffixTail(path: string, name: string, i: nat)
    requires EndsWith(path, name)
    requires 0 < i < |name| - 1 && name[i] == '.'
    requires forall j :: i < j < |name| ==> name[j] != '.'
    ensures var r := name[i..];
      |r| >= 2 && r[0] == '.' && '.' !in r[1..] && EndsWith(name, r) && EndsWith(path, r)
  {
    var r := name[i..];
    assert '.' !in r[1..] by {
      forall k | 0 <= k < |r| - 1 ensures r[1..][k] != '.' {
        assert r[1..][k] == name[i + 1 + k];
      }
    }
    assert EndsWith(name, r);
    EndsWithTail(path, name, r);
  }

  /** A tail of a tail is a tail. */
  lemma EndsWithTail(s: string, t: string, u: string)
    requires EndsWith(s, t) && EndsWith(t, u)
    ensures EndsWith(s, u)
  {
    assert s[|s| - |u|..] == s[|s| - |t|..][|t| - |u|..];
  }

  /** Python's `str.replace` with an empty pattern: `rep` before every character and at the end. */
  function Interleave(s: string, rep: string): string
    decreases |s|
  {
    if s == [] then rep else rep + [s[0]] + Interleave(s[1..], rep)
  }

  /** `s.replace(pat, rep)`: every non-overlapping occurrence, scanning left to right. */
  function Replace(s: string, pat: string, rep: string): string
    decreases |s|
  {
    if pat == [] then Interleave(s, rep)
    else if StartsWith(s, pat) then rep + Replace(s[|pat|..], pat, rep)
    else if s == [] then []
    else [s[0]] + Replace(s[1..], pat, rep)
  }

  /** How many occurrences `Replace` finds: non-overlapping, leftmost first. */
  function Occurrences(s: string, pat: string): nat
    requires pat != []
    decreases |s|
  {
    if StartsWith(s, pat) then 1 + Occurrences(s[|pat|..], pat)
    else if s == [] then 0
    else Occurrences(s[1..], pat)
  }

  /** A string in which the pattern does not occur comes back unchanged. */
  lemma {:induction false} ReplaceAbsent(s: string, pat: string, rep: string)
    requires pat != [] && !Contains(s, pat)
    ensures Replace(s, pat, rep) == s
    decreases |s|
  {
    if s != [] {
      ReplaceAbsent(s[1..], pat, rep);
    }
  }

  /** Each occurrence found trades |pat| characters for |rep| characters. */
  lemma {:induction false} ReplaceLength(s: string, pat: string, rep: string)
    requires pat != []
    ensures |Replace(s, pat, rep)| == |s| + Occurrences(s, pat) * (|rep| - |pat|)
    decreases |s|
  {
    if StartsWith(s, pat) {
      var t := s[|pat|..];
      ReplaceLength(t, pat, rep);
      assert |Replace(s, pat, rep)| == |rep| + |Replace(t, pat, rep)|;
      assert |s| == |pat| + |t|;
      OneMore(Occurrences(t, pat), |rep| - |pat|);
    } else if s != [] {
      var t := s[1..];
      ReplaceLength(t, pat, rep);
      assert Replace(s, pat, rep) == [s[0]] + Replace(t, pat, rep);
      assert Occurrences(s, pat) == Occurrences(t, pat);
    }
  }

  lemma {:induction false} OneMore(n: int, d: int)
    ensures (1 + n) * d == d + n * d
  {
  }

  /** Python's `s.replace("", "")` is `s`. */
  lemma {:induction false} InterleaveNothing(s: string)
    ensures Interleave(s, "") == s
    decreases |s|
  {
    if s != [] {
      InterleaveNothing(s[1..]);
      assert [s[0]] + s[1..] == s;
    }
  }

  /** Removing a pattern (`s.replace(pat, "")`) never lengthens a string. */
  lemma {:induction false} RemoveShortens(s: string, pat: string)
    ensures |Replace(s, pat, "")| <= |s|
  {
    if pat == [] {
      InterleaveNothing(s);
    } else {
      ReplaceLength(s, pat, "");
      var n := Occurrences(s, pat);
      assert n * (|""| - |pat|) == -(n * |pat|);
      assert n * |pat| >= 0;
    }
  }

  /**
   * Removing occurrences does not mean none is left: deleting the "ab" inside
   * "aabb" joins the remaining characters into a new "ab".
   */
  lemma {:induction false} RemovalCanLeaveOccurrence()
    ensures Replace("aabb", "ab", "") == "ab"
    ensures Contains(Replace("aabb", "ab", ""), "ab")
  {
    assert "aabb"[..2] == "aa";
    assert !StartsWith("aabb", "ab");
    assert "aabb"[1..] == "abb";
    assert StartsWith("abb", "ab");
    assert "abb"[2..] == "b";
    assert !StartsWith("b", "ab");
    assert "b"[1..] == "";
    assert Replace("b", "ab", "") == "b";
    assert StartsWith("ab", "ab");
  }

  /** The strings of `parts` joined in order (`"".join(parts)`). */
  function Concat(parts: seq<string>): (r: string)
    decreases |parts|
  {
    if parts == [] then [] else Concat(parts[..|parts| - 1]) + parts[|parts| - 1]
  }
}
