/** `remove_typescript_types` of scripts/convert-ts-to-js.py: a straight chain of
    whole-text rewrites, one of which rebuilds every function header through the
    callback `remove_param_types`. */
module ConvertTsToJs {
  import opened Common
  import opened Text
  import opened Rewrite
  import opened TsRules

  // ---------------------------------------------------------------------------
  // `remove_param_types` and the header callback (lines 29-39)

  const Parens: set<char> := {'(', ')'}

  predicate HasQuote(params: string) {
    '"' in params || '\'' in params || '`' in params
  }

  /** `(\w+)\s*\??\s*:\s*[^,)]+` → `\1`, applied inside the parameter text. */
  function ParamAnnotationRule(): (m: Matcher)
    ensures Advancing(m)
  {
    AnnotationRule(Py, {',', ')'}, false)
  }

  /** What the header callback puts between the rebuilt parentheses: the text of
      `remove_param_types` with every leading and trailing parenthesis stripped. */
  function ParamText(params: string): string {
    if HasQuote(params) then StripChars("(" + params + ")", Parens)
    else StripChars("(" + ReplaceAll(params, ParamAnnotationRule()) + ")", Parens)
  }

  /** Wrapping text in parentheses and stripping them again gives the text back, as
      long as it does not itself start or end with a parenthesis. */
  lemma StripWrapped(p: string)
    requires p == [] || (p[0] !in Parens && p[|p| - 1] !in Parens)
    ensures StripChars("(" + p + ")", Parens) == p
  {
    var w := "(" + p + ")";
    assert w[1..] == p + ")";
    if p == [] {
      assert (p + ")")[1..] == [];
    } else {
      var q := p + ")";
      assert q[0] == p[0] && q[|q| - 1] == ')' && q[..|q| - 1] == p;
      assert StripChars(q, Parens) == StripChars(p, Parens);
    }
  }

  /** Parameter text holding a quote or a backtick comes back as it was. */
  lemma QuotedParamsKept(params: string)
    requires HasQuote(params)
    requires params[0] !in Parens && params[|params| - 1] !in Parens
    ensures ParamText(params) == params
  {
    StripWrapped(params);
  }

  /** Parameter text without a quote and without a `:` comes back as it was. */
  lemma PlainParamsKept(params: string)
    requires !HasQuote(params) && ':' !in params
    requires params == [] || (params[0] !in Parens && params[|params| - 1] !in Parens)
    ensures ParamText(params) == params
  {
    forall k | 0 <= k < |params| ensures ParamAnnotationRule()(params, k).None? {
    }
    NoHitIdentity(params, ParamAnnotationRule(), 0);
    assert params[0..] == params;
    StripWrapped(params);
  }

  /** The name in `function\s+(\w+)\s*\(` at `i`, and where its `(` is. */
  function FunctionName(s: string, i: nat): (r: Option<(string, nat)>)
    ensures r.Some? ==> At(s, i, "function") && i + 8 < r.value.1 < |s| && s[r.value.1] == '('
    ensures r.Some? ==> r.value.0 != [] && forall k :: 0 <= k < |r.value.0| ==> IsWord(Py, r.value.0[k])
  {
    if !At(s, i, "function") then None
    else
      var b := RunEnd(s, i + 8, Space(Py));
      var c := RunEnd(s, b, Word(Py));
      var d := RunEnd(s, c, Space(Py));
      if b == i + 8 || c == b || d == |s| || s[d] != '(' then None
      else Some((s[b..c], d))
  }

  /** The header the callback writes back. */
  function Rebuilt(name: string, params: string): string {
    "function " + name + "(" + ParamText(params) + ")"
  }

  /** `function\s+\w+\s*\(([^)]*)\)` with the callback of line 39: the header is
      rebuilt as `function name(…)`, where the name is the last word before the `(`,
      and it ends where the return-type rule's header ends. */
  function HeaderMatch(s: string, i: nat): (r: Option<Hit>)
    ensures r.Some? ==> i < r.value.end <= |s| && FunctionName(s, i).Some?
    ensures r.Some? ==> FunctionHeaderEnd(Py, s, i) == Some(r.value.end)
    ensures r.Some? ==> FunctionName(s, i).value.1 < r.value.end - 1
    ensures r.Some? ==>
      r.value.rep == Rebuilt(FunctionName(s, i).value.0, s[FunctionName(s, i).value.1 + 1..r.value.end - 1])
  {
    match FunctionName(s, i)
    case None => None
    case Some((name, d)) =>
      match Find(s, d + 1, Only(')'))
      case None => None
      case Some(k) => Some(Hit(k + 1, Rebuilt(name, s[d + 1..k])))
  }

  function HeaderRule(): (m: Matcher)
    ensures Advancing(m)
  {
    (s: string, i: nat) => HeaderMatch(s, i)
  }

  // ---------------------------------------------------------------------------
  // The whole function

  function RemoveTypescriptTypes(content: string): string {
    var noInterfaces := ReplaceAll(content, InterfaceRule(Py));
    var noImports := ReplaceAll(noInterfaces, ImportLineRule(true));
    var noExports := ReplaceAll(noImports, ExportLineRule());
    var noReturns := ReplaceAll(noExports, ReturnTypeRule(AnyReturn));
    var headers := ReplaceAll(noReturns, HeaderRule());
    var noBindings := ReplaceAll(headers, TypedBindingRule(Py, UpToEquals));
    var noAs := ReplaceAll(noBindings, AsRule(Py, TypeExpr));
    var noGenerics := ReplaceAll(noAs, GenericsRule(Py));
    var noModifiers := ReplaceAll(noGenerics, ModifierRule(Py));
    ReplaceAll(noModifiers, PropertyLineRule(Py, true))
  }
}
