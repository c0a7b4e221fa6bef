/** `convertToJavaScript` of scripts/manual-build.js: a chain of global `replace`
    calls over the whole text, one of which rewrites every parenthesised group
    through a callback. */
module ManualBuild {
  import opened Common
  import opened Text
  import opened Rewrite
  import opened TsRules

  // ---------------------------------------------------------------------------
  // `(\w+\([^)]*\))\s*:\s*[^{=]+(\{|=>)` → `$1 $2` (line 70)

  /** The end of `\w+\([^)]*\)` at `i`, just after its `)`. */
  function CallEnd(s: string, i: nat): (r: Option<nat>)
    ensures r.Some? ==> i < r.value <= |s| && s[r.value - 1] == ')'
  {
    if i >= |s| then None
    else
      var a := RunEnd(s, i, Word(Js));
      if a == i || a == |s| || s[a] != '(' then None
      else match Find(s, a + 1, Only(')'))
        case None => None
        case Some(p) => Some(p + 1)
  }

  function MethodReturnMatch(s: string, i: nat): (r: Option<Hit>)
    ensures r.Some? ==> i < r.value.end <= |s| && CallEnd(s, i).Some?
    ensures r.Some? ==>
      r.value.rep == s[i..CallEnd(s, i).value] + " {" || r.value.rep == s[i..CallEnd(s, i).value] + " =>"
  {
    match CallEnd(s, i)
    case None => None
    case Some(h) =>
      var d := RunEnd(s, h, Space(Js));
      if d == |s| || s[d] != ':' then None
      else match Find(s, d + 1, AnyOf({'{', '='}))
        case None => None
        case Some(k) =>
          if k == d + 1 then None
          else if s[k] == '{' then Some(Hit(k + 1, s[i..h] + " {"))
          else if k + 1 < |s| && s[k + 1] == '>' then Some(Hit(k + 2, s[i..h] + " =>"))
          else None
  }

  function MethodReturnRule(): (m: Matcher)
    ensures Advancing(m)
  {
    (s: string, i: nat) => MethodReturnMatch(s, i)
  }

  /** After a call-shaped header ending at `h`, `: T {` or `: T =>`, with `T` non-empty
      and free of `{` and `=`, loses the `: T`. */
  lemma MethodReturnDropped(s: string, i: nat, h: nat, d: nat, k: nat)
    requires CallEnd(s, i) == Some(h)
    requires h <= d && d + 1 < k < |s|
    requires forall j :: h <= j < d ==> IsSpace(Js, s[j])
    requires s[d] == ':' && forall j :: d < j < k ==> s[j] != '{' && s[j] != '='
    requires s[k] == '{' || (s[k] == '=' && k + 1 < |s| && s[k + 1] == '>')
    ensures s[k] == '{' ==> MethodReturnMatch(s, i) == Some(Hit(k + 1, s[i..h] + " {"))
    ensures s[k] == '=' ==> MethodReturnMatch(s, i) == Some(Hit(k + 2, s[i..h] + " =>"))
  {
    RunEndAt(s, h, d, Space(Js));
    FindAt(s, d + 1, k, AnyOf({'{', '='}));
  }

  // ---------------------------------------------------------------------------
  // `\(([^)]*)\)` with the callback of lines 81-85

  /** `(\w+)\s*\??\s*:\s*[^,)=]+` → `$1`, applied inside a parenthesised group. */
  function GroupAnnotationRule(): (m: Matcher)
    ensures Advancing(m)
  {
    AnnotationRule(Js, {',', ')', '='}, false)
  }

  function ParenGroupMatch(s: string, i: nat): (r: Option<Hit>)
    ensures r.Some? ==> i < |s| && s[i] == '(' && i + 1 < r.value.end <= |s| && s[r.value.end - 1] == ')'
    ensures r.Some? ==> forall k :: i < k < r.value.end - 1 ==> s[k] != ')'
    ensures r.Some? ==> r.value.rep == "(" + ReplaceAll(s[i + 1..r.value.end - 1], GroupAnnotationRule()) + ")"
  {
    if i >= |s| || s[i] != '(' then None
    else match Find(s, i + 1, Only(')'))
      case None => None
      case Some(k) => Some(Hit(k + 1, "(" + ReplaceAll(s[i + 1..k], GroupAnnotationRule()) + ")"))
  }

  function ParenGroupRule(): (m: Matcher)
    ensures Advancing(m)
  {
    (s: string, i: nat) => ParenGroupMatch(s, i)
  }

  /** The group keeps its two parentheses, and no `)` appears between them. */
  lemma ParenGroupKeepsParens(s: string, i: nat)
    requires ParenGroupMatch(s, i).Some?
    ensures var rep := ParenGroupMatch(s, i).value.rep;
      |rep| >= 2 && rep[0] == '(' && rep[|rep| - 1] == ')' && ')' !in rep[1..|rep| - 1]
  {
    var e := ParenGroupMatch(s, i).value.end;
    var inner := s[i + 1..e - 1];
    SliceAvoids(s, i + 1, e - 1, ')');
    CleanedHasNoParen(inner);
    Parenthesised(ReplaceAll(inner, GroupAnnotationRule()));
  }

  lemma SliceAvoids(s: string, lo: nat, hi: nat, c: char)
    requires lo <= hi <= |s|
    requires forall k :: lo <= k < hi ==> s[k] != c
    ensures c !in s[lo..hi]
  {
    assert forall k :: 0 <= k < hi - lo ==> s[lo..hi][k] == s[lo + k];
  }

  lemma Parenthesised(inner: string)
    requires ')' !in inner
    ensures var rep := "(" + inner + ")";
      |rep| >= 2 && rep[0] == '(' && rep[|rep| - 1] == ')' && ')' !in rep[1..|rep| - 1]
  {
    assert ("(" + inner + ")")[1..|inner| + 1] == inner;
  }

  lemma CleanedHasNoParen(inner: string)
    requires ')' !in inner
    ensures ')' !in ReplaceAll(inner, GroupAnnotationRule())
  {
    AnnotationNeverAdds(Js, {',', ')', '='}, false, ')');
    NeverAddsChar(inner, GroupAnnotationRule(), 0, ')');
    assert inner[0..] == inner;
  }

  // ---------------------------------------------------------------------------
  // The whole function

  function ConvertToJavaScript(content: string): string {
    var noExports := ReplaceAll(content, ExportWordRule());
    var noImports := ReplaceAll(noExports, ImportFromRule());
    var noInterfaces := ReplaceAll(noImports, InterfaceRule(Js));
    var noAs := ReplaceAll(noInterfaces, AsRule(Js, TypeExpr));
    var noGenerics := ReplaceAll(noAs, GenericsRule(Js));
    var noReturns := ReplaceAll(noGenerics, MethodReturnRule());
    var noInitialised := ReplaceAll(noReturns, TypedBindingRule(Js, TypeThen(true, '=')));
    var noDeclared := ReplaceAll(noInitialised, TypedBindingRule(Js, TypeThen(true, ';')));
    var groups := ReplaceAll(noDeclared, ParenGroupRule());
    var noModifiers := ReplaceAll(groups, ModifierRule(Js));
    var noProperties := ReplaceAll(noModifiers, PropertyLineRule(Js, false));
    ReplaceAll(noProperties, UseStrictRule())
  }
}
