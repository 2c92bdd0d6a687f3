/**
 * Decoding the provider's day-designation token (`lunIljin`, e.g. "경오(庚午)")
 * into a stem glyph and a branch glyph (`parseGanji`).
 *
 * The parenthetical form is preferred: the first match of the pattern
 * `\(([^)]+)\)`, and its first two characters when it holds at least two.
 * Otherwise the token is scanned for the first stem glyph immediately
 * followed by a branch glyph.
 */
module Ganji {
  import opened Wrappers
  import opened Text
  import opened Tables

  datatype GanJi = GanJi(gan: char, ji: char)

  /** The pattern `\(([^)]+)\)` can match starting at position i. */
  predicate OpensGroup(s: string, i: int) {
    0 <= i && i + 2 <= |s| && s[i] == '(' && s[i + 1] != ')' && ')' in s[i + 2..]
  }

  /** Where the leftmost match of `\(([^)]+)\)` at or after position i starts, or -1. */
  function FirstOpenFrom(s: string, i: nat): (r: int)
    requires i <= |s|
    ensures r == -1 <==> forall k :: i <= k < |s| ==> !OpensGroup(s, k)
    ensures r != -1 ==> i <= r < |s| && OpensGroup(s, r) && forall k :: i <= k < r ==> !OpensGroup(s, k)
    decreases |s| - i
  {
    if i == |s| then -1
    else if OpensGroup(s, i) then i
    else FirstOpenFrom(s, i + 1)
  }

  /** The group a match starting at position k captures: everything up to the next ')'. */
  function GroupOf(s: string, k: int): (g: string)
    requires OpensGroup(s, k)
    ensures |g| >= 1 && k + |g| + 2 <= |s| && ')' !in g
    ensures s[k + 1..k + 1 + |g|] == g && s[k + 1 + |g|] == ')'
  {
    var tail := s[k + 1..];
    var n := IndexOf(tail, ')');
    assert ')' in tail by { assert s[k + 2..] == tail[1..]; }
    assert n != 0 by { assert tail[0] == s[k + 1]; }
    assert tail[..n] == s[k + 1..k + 1 + n];
    tail[..n]
  }

  /** `str.match(/\(([^)]+)\)/)?.[1]`: the captured group of the leftmost match. */
  function ParenGroup(s: string): Option<string> {
    var k := FirstOpenFrom(s, 0);
    if k == -1 then None else Some(GroupOf(s, k))
  }

  /** A stem glyph at position k immediately followed by a branch glyph. */
  predicate GlyphPairAt(s: string, k: int) {
    0 <= k < |s| - 1 && s[k] in Stems && s[k + 1] in Branches
  }

  /** Where the first stem-glyph/branch-glyph pair at or after position i starts, or -1. */
  function FirstPairFrom(s: string, i: nat): (r: int)
    requires i <= |s|
    ensures r == -1 || (i <= r < |s| - 1 && GlyphPairAt(s, r))
    decreases |s| - i
  {
    if i + 1 >= |s| then -1
    else if GlyphPairAt(s, i) then i
    else FirstPairFrom(s, i + 1)
  }

  /** No pair starts before the position `FirstPairFrom` finds, and none at all when it finds none. */
  lemma {:induction false} NoPairBefore(s: string, i: nat)
    requires i <= |s|
    ensures var r := FirstPairFrom(s, i);
            forall k :: i <= k < |s| - 1 && (r == -1 || k < r) ==> !GlyphPairAt(s, k)
    decreases |s| - i
  {
    if i + 1 < |s| && !GlyphPairAt(s, i) {
      NoPairBefore(s, i + 1);
    }
  }

  /** The decoding `parseGanji` performs, as a specification. */
  function DecodeDayToken(s: string): (r: Option<GanJi>)
    ensures r.None? <==> (ParenGroup(s).None? || |ParenGroup(s).value| < 2)
                         && forall k :: 0 <= k < |s| - 1 ==> !GlyphPairAt(s, k)
    ensures ParenGroup(s).Some? && |ParenGroup(s).value| >= 2 ==>
              r == Some(GanJi(ParenGroup(s).value[0], ParenGroup(s).value[1]))
    ensures (ParenGroup(s).None? || |ParenGroup(s).value| < 2) && r.Some? ==>
              r.value.gan in Stems && r.value.ji in Branches
              && exists k :: GlyphPairAt(s, k) && (forall j :: 0 <= j < k ==> !GlyphPairAt(s, j))
                             && r.value == GanJi(s[k], s[k + 1])
  {
    var group := ParenGroup(s);
    if group.Some? && |group.value| >= 2 then Some(GanJi(group.value[0], group.value[1]))
    else
      NoPairBefore(s, 0);
      var k := FirstPairFrom(s, 0);
      if k == -1 then None
      else
        assert forall j :: 0 <= j < k ==> !GlyphPairAt(s, j);
        Some(GanJi(s[k], s[k + 1]))
  }

  /** `parseGanji`: the pattern match, then the index loop over adjacent characters. */
  method ParseGanji(s: string) returns (r: Option<GanJi>)
    ensures r == DecodeDayToken(s)
  {
    var group := ParenGroup(s);
    if group.Some? && |group.value| >= 2 {
      return Some(GanJi(group.value[0], group.value[1]));
    }
    var i := 0;
    while i < |s| - 1
      invariant 0 <= i <= |s|
      invariant FirstPairFrom(s, i) == FirstPairFrom(s, 0)
    {
      if GlyphPairAt(s, i) {
        return Some(GanJi(s[i], s[i + 1]));
      }
      i := i + 1;
    }
    return None;
  }


  /** In `p + "(" + g + ")" + rest` with no '(' in `p`, the leftmost match starts at the '('. */
  lemma FirstOpenAfterPrefix(p: string, g: string, rest: string)
    requires '(' !in p && ')' !in g && |g| >= 1
    ensures FirstOpenFrom(p + "(" + g + ")" + rest, 0) == |p|
  {
    var s := p + "(" + g + ")" + rest;
    var o := |p|;
    assert s[o] == '(' && s[o + 1] == g[0];
    assert s[o + 2..][|g| - 1] == ')';
    assert OpensGroup(s, o);
    assert forall k :: 0 <= k < o ==> s[k] == p[k];
  }

  /** The group of a match at the '(' before `g + ")"` is `g`. */
  lemma GroupAfterPrefix(p: string, g: string, rest: string)
    requires ')' !in g && |g| >= 1 && OpensGroup(p + "(" + g + ")" + rest, |p|)
    ensures GroupOf(p + "(" + g + ")" + rest, |p|) == g
  {
    var s := p + "(" + g + ")" + rest;
    var tail := g + ")" + rest;
    assert s[|p| + 1..] == tail;
    assert tail[..|g|] == g;
    IndexOfAt(tail, ')', |g|);
  }

  /**
   * A token whose first '(' opens a group of at least two characters and no
   * ')' decodes to the group's first two characters, whatever follows.
   */
  lemma ParenthesisedPair(p: string, g: string, rest: string)
    requires '(' !in p && ')' !in g && |g| >= 2
    ensures DecodeDayToken(p + "(" + g + ")" + rest) == Some(GanJi(g[0], g[1]))
  {
    FirstOpenAfterPrefix(p, g, rest);
    GroupAfterPrefix(p, g, rest);
  }

  /** The token of the documented example: 갑자(甲子) is the day 甲子. */
  lemma ExampleToken()
    ensures DecodeDayToken("갑자(甲子)") == Some(GanJi('甲', '子'))
  {
    var p, g := "갑자", "甲子";
    assert '(' !in p && ')' !in g;
    ParenthesisedPair(p, g, "");
    assert p + "(" == "갑자(";
    assert "갑자(" + g == "갑자(甲子";
    assert "갑자(甲子" + ")" + "" == "갑자(甲子)";
  }
}
