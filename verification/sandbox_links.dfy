/**
 * The rewrite the Responses-API driver applies to the last text block after every
 * text delta (streamlit_openai/chat.py, line 177): each markdown link or image link
 * into the code-interpreter sandbox, `[caption](sandbox:/mnt/data/path)` or
 * `![caption](sandbox:/mnt/data/path)`, becomes ``caption (`path`)``.
 *
 * The pattern is `!?\[([^\]]+)\]\(sandbox:/mnt/data/([^\)]+)\)`. Neither group can
 * give characters back usefully (the caption stops at the first ']' and the path at the
 * first ')'), so a match starting at a given position is unique and is found by a
 * forward scan; `re.sub` tries the positions left to right and resumes after each match.
 */
module SandboxLinks {

  import opened Common
  import opened Strings

  /** What follows the caption: `](sandbox:/mnt/data/`. */
  const Marker: string := "](sandbox:/mnt/data/"

  /** Label and path as the two groups of the pattern admit them. */
  predicate WellFormed(caption: string, path: string) {
    caption != [] && ']' !in caption && path != [] && ')' !in path
  }

  /** The link as it appears in the model's markdown. */
  function LinkText(image: bool, caption: string, path: string): string {
    (if image then "!" else "") + "[" + caption + Marker + path + ")"
  }

  /** The replacement template `\1 (`\2`)`. */
  function Replacement(caption: string, path: string): string {
    caption + " (`" + path + "`)"
  }

  /** Index of the first `c` at or after `from`, or |s| when there is none. */
  function IndexFrom(s: string, c: char, from: nat): (r: nat)
    requires from <= |s|
    ensures from <= r <= |s|
    ensures r < |s| ==> s[r] == c
    ensures forall j :: from <= j < r ==> s[j] != c
    decreases |s| - from
  {
    if from == |s| || s[from] == c then from else IndexFrom(s, c, from + 1)
  }

  datatype Match = Match(caption: string, path: string, rest: string)

  /** The match of the pattern that starts at the first character of `s`, if any. */
  function MatchAt(s: string): Option<Match> {
    var b := if |s| > 0 && s[0] == '!' then 1 else 0;
    if b < |s| && s[b] == '[' then
      var j := IndexFrom(s, ']', b + 1);
      if b + 1 < j < |s| && StartsWith(s[j..], Marker) then
        var p := j + |Marker|;
        var k := IndexFrom(s, ')', p);
        if p < k < |s| then Some(Match(s[b + 1..j], s[p..k], s[k + 1..]))
        else None
      else None
    else None
  }

  /** What `MatchAt` finds is a well-formed link followed by the rest of the text. */
  lemma {:induction false} MatchAtSound(s: string)
    ensures var r := MatchAt(s);
      && (r.Some? ==> WellFormed(r.value.caption, r.value.path))
      && (r.Some? ==>
        || s == LinkText(false, r.value.caption, r.value.path) + r.value.rest
        || s == LinkText(true, r.value.caption, r.value.path) + r.value.rest)
  {
    var b := if |s| > 0 && s[0] == '!' then 1 else 0;
    if b < |s| && s[b] == '[' {
      var j := IndexFrom(s, ']', b + 1);
      if b + 1 < j < |s| && StartsWith(s[j..], Marker) {
        var p := j + |Marker|;
        var k := IndexFrom(s, ')', p);
        if p < k < |s| {
          MatchAtIs(s, b, j, p, k);
          LinkAt(s, b, j, p, k);
        }
      }
    }
  }

  /** The pieces between the positions `MatchAt` stops at form a well-formed link. */
  lemma {:induction false} LinkAt(s: string, b: nat, j: nat, p: nat, k: nat)
    requires b <= 1 && b + 1 < j && p == j + |Marker| && p < k < |s|
    requires b == 1 <==> s[0] == '!'
    requires s[b] == '[' && StartsWith(s[j..], Marker) && s[k] == ')'
    requires forall i :: b + 1 <= i < j ==> s[i] != ']'
    requires forall i :: p <= i < k ==> s[i] != ')'
    ensures WellFormed(s[b + 1..j], s[p..k])
    ensures s == LinkText(b == 1, s[b + 1..j], s[p..k]) + s[k + 1..]
  {
    var caption, path := s[b + 1..j], s[p..k];
    forall i | 0 <= i < |caption| ensures caption[i] != ']' {
      assert caption[i] == s[b + 1 + i];
    }
    forall i | 0 <= i < |path| ensures path[i] != ')' {
      assert path[i] == s[p + i];
    }
    Decompose(s, b, j, p, k);
  }

  /** Cutting `s` at the positions `MatchAt` found gives back the link text. */
  lemma {:induction false} Decompose(s: string, b: nat, j: nat, p: nat, k: nat)
    requires b <= 1 && b < j && p == j + |Marker| && p < k < |s|
    requires b == 1 <==> s[0] == '!'
    requires s[b] == '[' && s[j..][..|Marker|] == Marker && s[k] == ')'
    ensures s == LinkText(b == 1, s[b + 1..j], s[p..k]) + s[k + 1..]
  {
    assert s[j..p] == s[j..][..|Marker|];
    assert s[..b] == if b == 1 then "!" else "";
    calc {
      s;
      s[..k + 1] + s[k + 1..];
      { assert s[..k + 1] == s[..k] + [s[k]]; }
      s[..k] + ")" + s[k + 1..];
      { assert s[..k] == s[..p] + s[p..k]; }
      s[..p] + s[p..k] + ")" + s[k + 1..];
      { assert s[..p] == s[..j] + s[j..p]; }
      s[..j] + Marker + s[p..k] + ")" + s[k + 1..];
      { assert s[..j] == s[..b + 1] + s[b + 1..j]; }
      s[..b + 1] + s[b + 1..j] + Marker + s[p..k] + ")" + s[k + 1..];
      { assert s[..b + 1] == s[..b] + [s[b]]; }
      s[..b] + "[" + s[b + 1..j] + Marker + s[p..k] + ")" + s[k + 1..];
    }
  }

  /** `re.sub(pattern, r"\1 (`\2`)", s)` */
  function Rewrite(s: string): string
    decreases |s|
  {
    if s == [] then []
    else
      match MatchAt(s)
      case Some(m) => Replacement(m.caption, m.path) + Rewrite(m.rest)
      case None => [s[0]] + Rewrite(s[1..])
  }

  /** A well-formed sandbox link at the front of the text is found as one match. */
  lemma {:induction false} MatchLink(image: bool, caption: string, path: string, rest: string)
    requires WellFormed(caption, path)
    ensures MatchAt(LinkText(image, caption, path) + rest) == Some(Match(caption, path, rest))
  {
    LinkCaption(image, caption, path, rest);
    LinkPath(image, caption, path, rest);
    MatchFound(LinkText(image, caption, path) + rest, image, caption, path, rest);
  }

  /** The scan of `MatchAt` over a text laid out as a link. */
  lemma {:induction false} MatchFound(s: string, image: bool, caption: string, path: string, rest: string)
    requires var b := if image then 1 else 0;
      var j := b + 1 + |caption|;
      && caption != [] && j + |Marker| + |path| < |s|
      && (s[0] == '!' <==> image) && s[b] == '['
      && (forall i :: b + 1 <= i < j ==> s[i] != ']')
      && s[j] == ']' && s[b + 1..j] == caption
      && StartsWith(s[j..], Marker)
    requires var p := (if image then 1 else 0) + 1 + |caption| + |Marker|;
      var k := p + |path|;
      && path != [] && k < |s|
      && (forall i :: p <= i < k ==> s[i] != ')')
      && s[k] == ')' && s[p..k] == path && s[k + 1..] == rest
    ensures MatchAt(s) == Some(Match(caption, path, rest))
  {
    var b := if image then 1 else 0;
    var j := b + 1 + |caption|;
    var p := j + |Marker|;
    var k := p + |path|;
    IndexFromIs(s, ']', b + 1, j);
    IndexFromIs(s, ')', p, k);
    MatchAtIs(s, b, j, p, k);
  }

  /** The first `c` at or after `from` is the one at `r`. */
  lemma {:induction false} IndexFromIs(s: string, c: char, from: nat, r: nat)
    requires from <= r < |s| && s[r] == c
    requires forall i :: from <= i < r ==> s[i] != c
    ensures IndexFrom(s, c, from) == r
  {
  }

  /** `MatchAt` at the positions of the opening bracket, the marker and the closing parenthesis. */
  lemma {:induction false} MatchAtIs(s: string, b: nat, j: nat, p: nat, k: nat)
    requires b == (if |s| > 0 && s[0] == '!' then 1 else 0)
    requires b < |s| && s[b] == '['
    requires IndexFrom(s, ']', b + 1) == j && b + 1 < j < |s| && StartsWith(s[j..], Marker)
    requires p == j + |Marker| && IndexFrom(s, ')', p) == k && p < k < |s|
    ensures MatchAt(s) == Some(Match(s[b + 1..j], s[p..k], s[k + 1..]))
  {
  }

  /** Where the caption of a link sits, and that the marker follows it. */
  lemma {:induction false} LinkCaption(image: bool, caption: string, path: string, rest: string)
    requires WellFormed(caption, path)
    ensures var s := LinkText(image, caption, path) + rest;
      var b := if image then 1 else 0;
      var j := b + 1 + |caption|;
      && j + |Marker| + |path| < |s|
      && (s[0] == '!' <==> image) && s[b] == '['
      && (forall i :: b + 1 <= i < j ==> s[i] != ']')
      && s[j] == ']' && s[b + 1..j] == caption
      && StartsWith(s[j..], Marker)
  {
    var pre: string := if image then "!" else "";
    var b := |pre|;
    var B := pre + "[" + caption;
    var s := LinkText(image, caption, path) + rest;
    var tail := Marker + path + ")" + rest;
    assert s == B + tail;
    var j := |B|;
    assert s[..j] == B;
    assert s[j..] == tail;
    assert s[0] == '!' <==> image;
    assert s[b] == B[b] == '[';
    forall i | b + 1 <= i < j ensures s[i] != ']' {
      assert s[i] == B[i] == caption[i - b - 1];
    }
    assert s[b + 1..j] == B[b + 1..] == caption;
    assert tail[..|Marker|] == Marker;
  }

  /** Where the path of a link sits, and what follows the closing parenthesis. */
  lemma {:induction false} LinkPath(image: bool, caption: string, path: string, rest: string)
    requires WellFormed(caption, path)
    ensures var s := LinkText(image, caption, path) + rest;
      var p := (if image then 1 else 0) + 1 + |caption| + |Marker|;
      var k := p + |path|;
      && k < |s|
      && (forall i :: p <= i < k ==> s[i] != ')')
      && s[k] == ')' && s[p..k] == path && s[k + 1..] == rest
  {
    var C := (if image then "!" else "") + "[" + caption + Marker;
    var s := LinkText(image, caption, path) + rest;
    var tail := path + ")" + rest;
    assert s == C + tail;
    var p := |C|;
    var k := p + |path|;
    assert s[p..] == tail;
    forall i | p <= i < k ensures s[i] != ')' {
      assert s[i] == tail[i - p] == path[i - p];
    }
    assert s[k] == tail[|path|] == ')';
    assert s[p..k] == tail[..|path|] == path;
    assert s[k + 1..] == tail[|path| + 1..] == rest;
  }

  /** Each sandbox link is replaced by ``caption (`path`)`` and scanning resumes after it. */
  lemma {:induction false} RewriteLink(image: bool, caption: string, path: string, rest: string)
    requires WellFormed(caption, path)
    ensures Rewrite(LinkText(image, caption, path) + rest) == Replacement(caption, path) + Rewrite(rest)
  {
    MatchLink(image, caption, path, rest);
  }

  /** Every link text mentions the marker. */
  lemma {:induction false} LinkHasMarker(image: bool, caption: string, path: string, rest: string)
    ensures Contains(LinkText(image, caption, path) + rest, Marker)
  {
    var head := (if image then "!" else "") + "[" + caption;
    var s := LinkText(image, caption, path) + rest;
    assert s == head + (Marker + path + ")" + rest);
    assert s[|head|..|head| + |Marker|] == Marker;
    ContainsAt(s, Marker, |head|);
  }

  /** Text that never mentions `](sandbox:/mnt/data/` comes back unchanged. */
  lemma {:induction false} RewriteWithoutLinks(s: string)
    requires !Contains(s, Marker)
    ensures Rewrite(s) == s
    decreases |s|
  {
    if s != [] {
      var m := MatchAt(s);
      if m.Some? {
        MatchAtSound(s);
        var link := m.value;
        if s == LinkText(true, link.caption, link.path) + link.rest {
          LinkHasMarker(true, link.caption, link.path, link.rest);
        } else {
          LinkHasMarker(false, link.caption, link.path, link.rest);
        }
        assert false;
      }
      RewriteWithoutLinks(s[1..]);
    }
  }
}
