/** The substitution loop shared by every rewriting rule of the build scripts:
    Python's `re.sub(pattern, repl, s)` and JavaScript's `s.replace(/pattern/g, repl)`.

    A rule is a `Matcher`: given the whole text and a position, it says whether the
    rule's pattern matches there, where that match ends, and what replaces it (the
    replacement may depend on the matched text, like `\1` or a callback). Each rule
    below is a hand-written scanner that computes exactly the match the backtracking
    engine would choose at that position. The loop scans left to right, replaces each
    match and resumes after it; a character at which nothing matches is copied. None of
    the patterns can match the empty string, so the empty-match rules of the two
    engines play no part. */
module Rewrite {
  import opened Common
  import opened Text

  datatype Hit = Hit(end: nat, rep: string)

  type Matcher = (string, nat) -> Option<Hit>

  /** Every match is non-empty and lies inside the text. */
  ghost predicate Advancing(m: Matcher) {
    forall s: string, i: nat :: m(s, i).Some? ==> i < m(s, i).value.end <= |s|
  }

  function ReplaceFrom(s: string, m: Matcher, i: nat): string
    requires Advancing(m) && i <= |s|
    decreases |s| - i
  {
    if i == |s| then []
    else match m(s, i)
      case Some(h) => h.rep + ReplaceFrom(s, m, h.end)
      case None => [s[i]] + ReplaceFrom(s, m, i + 1)
  }

  /** `re.sub` / `replace(/…/g, …)` of one rule over the whole text. */
  function ReplaceAll(s: string, m: Matcher): string
    requires Advancing(m)
  {
    ReplaceFrom(s, m, 0)
  }

  /** A rule that matches nowhere leaves the text unchanged. */
  lemma {:induction false} NoHitIdentity(s: string, m: Matcher, i: nat)
    requires Advancing(m) && i <= |s|
    requires forall k :: i <= k < |s| ==> m(s, k).None?
    ensures ReplaceFrom(s, m, i) == s[i..]
    decreases |s| - i
  {
    if i < |s| {
      NoHitIdentity(s, m, i + 1);
      assert s[i..] == [s[i]] + s[i + 1..];
    }
  }

  /** Text before the first match is copied; the first match is replaced and the scan
      resumes after it. */
  lemma {:induction false} FirstHit(s: string, m: Matcher, i: nat, k: nat)
    requires Advancing(m) && i <= k < |s|
    requires forall j :: i <= j < k ==> m(s, j).None?
    requires m(s, k).Some?
    ensures ReplaceFrom(s, m, i) == s[i..k] + (m(s, k).value.rep + ReplaceFrom(s, m, m(s, k).value.end))
    decreases k - i
  {
    if i < k {
      var tail := m(s, k).value.rep + ReplaceFrom(s, m, m(s, k).value.end);
      FirstHit(s, m, i + 1, k);
      assert m(s, i).None?;
      calc {
        ReplaceFrom(s, m, i);
        [s[i]] + ReplaceFrom(s, m, i + 1);
        [s[i]] + (s[i + 1..k] + tail);
        ([s[i]] + s[i + 1..k]) + tail;
        { assert [s[i]] + s[i + 1..k] == s[i..k]; }
        s[i..k] + tail;
      }
    }
  }

  /** `c` appears in a replacement only where it appeared in the text replaced. */
  ghost predicate NeverAdds(m: Matcher, c: char) {
    forall s: string, i: nat :: m(s, i).Some? && i <= m(s, i).value.end <= |s| && c in m(s, i).value.rep ==>
      c in s[i..m(s, i).value.end]
  }

  /** `c` appears in a replacement exactly when it appeared in the text replaced. */
  ghost predicate KeepsPresence(m: Matcher, c: char) {
    forall s: string, i: nat :: m(s, i).Some? && i <= m(s, i).value.end <= |s| ==>
      (c in m(s, i).value.rep <==> c in s[i..m(s, i).value.end])
  }

  lemma {:induction false} NeverAddsChar(s: string, m: Matcher, i: nat, c: char)
    requires Advancing(m) && NeverAdds(m, c) && i <= |s|
    ensures c in ReplaceFrom(s, m, i) ==> c in s[i..]
    decreases |s| - i
  {
    if i < |s| {
      match m(s, i)
      case Some(h) =>
        NeverAddsChar(s, m, h.end, c);
        assert s[i..] == s[i..h.end] + s[h.end..];
      case None =>
        NeverAddsChar(s, m, i + 1, c);
        assert s[i..] == [s[i]] + s[i + 1..];
    }
  }

  lemma {:induction false} KeepsChar(s: string, m: Matcher, i: nat, c: char)
    requires Advancing(m) && KeepsPresence(m, c) && i <= |s|
    ensures c in ReplaceFrom(s, m, i) <==> c in s[i..]
    decreases |s| - i
  {
    if i < |s| {
      match m(s, i)
      case Some(h) =>
        KeepsChar(s, m, h.end, c);
        assert s[i..] == s[i..h.end] + s[h.end..];
      case None =>
        KeepsChar(s, m, i + 1, c);
        assert s[i..] == [s[i]] + s[i + 1..];
    }
  }

  // ---------------------------------------------------------------------------
  // Scanning primitives from which the rules are built.

  /** The end of the longest run of characters satisfying `p` from `i` (a greedy `p*`). */
  function RunEnd(s: string, i: nat, p: CharClass): (j: nat)
    requires i <= |s|
    ensures i <= j <= |s|
    ensures forall k :: i <= k < j ==> InClass(p, s[k])
    ensures j == |s| || !InClass(p, s[j])
    decreases |s| - i
  {
    if i < |s| && InClass(p, s[i]) then RunEnd(s, i + 1, p) else i
  }

  /** The first position at or after `i` whose character satisfies `p`. */
  function Find(s: string, i: nat, p: CharClass): (r: Option<nat>)
    requires i <= |s|
    ensures r.Some? ==> i <= r.value < |s| && InClass(p, s[r.value])
    ensures r.Some? ==> forall k :: i <= k < r.value ==> !InClass(p, s[k])
    ensures r.None? ==> forall k :: i <= k < |s| ==> !InClass(p, s[k])
    decreases |s| - i
  {
    if i == |s| then None else if InClass(p, s[i]) then Some(i) else Find(s, i + 1, p)
  }

  /** The last position in `[lo, hi)` whose character satisfies `p`. */
  function FindLast(s: string, lo: nat, hi: nat, p: CharClass): (r: Option<nat>)
    requires lo <= hi <= |s|
    ensures r.Some? ==> lo <= r.value < hi && InClass(p, s[r.value])
    ensures r.Some? ==> forall k :: r.value < k < hi ==> !InClass(p, s[k])
    ensures r.None? ==> forall k :: lo <= k < hi ==> !InClass(p, s[k])
    decreases hi - lo
  {
    if hi == lo then None else if InClass(p, s[hi - 1]) then Some(hi - 1) else FindLast(s, lo, hi - 1, p)
  }


  /** `^` in multi-line mode. */
  predicate AtLineStart(f: Flavor, s: string, i: nat) {
    i == 0 || (i <= |s| && IsLineBreak(f, s[i - 1]))
  }

  /** Where a greedy `\s*$` (multi-line) starting at `p` ends, if it can match: the
      longest run of whitespace that ends at the end of the text or just before a line
      break. */
  function SpacesToLineEnd(f: Flavor, s: string, p: nat): (r: Option<nat>)
    requires p <= |s|
    ensures r.Some? ==> p <= r.value <= |s| && (r.value == |s| || IsLineBreak(f, s[r.value]))
    ensures r.Some? ==> forall k :: p <= k < r.value ==> IsSpace(f, s[k])
  {
    var e := RunEnd(s, p, Space(f));
    if e == |s| then Some(e) else FindLast(s, p, e, LineBreak(f))
  }

  /** A run of `p`-characters from `i` to `j`, stopped by a non-`p` character or the
      end of the text, is exactly what the greedy `p*` consumes. */
  lemma {:induction false} RunEndAt(s: string, i: nat, j: nat, p: CharClass)
    requires i <= j <= |s|
    requires forall k :: i <= k < j ==> InClass(p, s[k])
    requires j == |s| || !InClass(p, s[j])
    ensures RunEnd(s, i, p) == j
    decreases j - i
  {
    if i < j { RunEndAt(s, i + 1, j, p); }
  }

  lemma {:induction false} FindAt(s: string, i: nat, j: nat, p: CharClass)
    requires i <= j < |s| && InClass(p, s[j])
    requires forall k :: i <= k < j ==> !InClass(p, s[k])
    ensures Find(s, i, p) == Some(j)
    decreases j - i
  {
    if i < j { FindAt(s, i + 1, j, p); }
  }

  /** A literal pattern and a fixed replacement, such as `\.data\[\]` → `.data`. */
  function LiteralMatch(lit: string, rep: string, s: string, i: nat): (r: Option<Hit>)
    ensures r.Some? <==> lit != [] && At(s, i, lit)
    ensures r.Some? ==> r.value == Hit(i + |lit|, rep)
  {
    if lit != [] && At(s, i, lit) then Some(Hit(i + |lit|, rep)) else None
  }

  function LiteralRule(lit: string, rep: string): (m: Matcher)
    ensures Advancing(m)
  {
    (s: string, i: nat) => LiteralMatch(lit, rep, s, i)
  }
}
