/** `transformForGAS` of scripts/post-build.js and the helpers it calls. */
module PostBuild {
  import opened Common
  import opened Text
  import opened Rewrite
  import opened TsRules

  /** `{\s*([a-zA-Z_$][a-zA-Z0-9_$]*)\s*([,}])` → `{ $1: $1$2` when `open` is `{`, and
      the same with `,` in place of `{` when `open` is `,`. */
  function ShorthandMatch(open: char, s: string, i: nat): (r: Option<Hit>)
    ensures r.Some? ==> i < |s| && s[i] == open && i < r.value.end <= |s|
    ensures r.Some? ==> s[r.value.end - 1] in {',', '}'}
  {
    if i >= |s| || s[i] != open then None
    else
      var a := RunEnd(s, i + 1, Space(Js));
      if a == |s| || !IsJsIdentStart(s[a]) then None
      else
        var b := RunEnd(s, a + 1, JsIdentBody);
        var c := RunEnd(s, b, Space(Js));
        if c == |s| || s[c] !in {',', '}'} then None
        else Some(Hit(c + 1, Expanded(open, s[a..b], s[c])))
  }

  /** The replacement `open name: name` followed by the `,` or `}` that closed the match. */
  function Expanded(open: char, name: string, close: char): string {
    [open] + " " + name + ": " + name + [close]
  }

  function ShorthandRule(open: char): (m: Matcher)
    ensures Advancing(m)
  {
    (s: string, i: nat) => ShorthandMatch(open, s, i)
  }

  /** `open`, optional whitespace, an identifier on `[a, b)`, optional whitespace and a
      `,` or `}` at `c` become `open ident: ident` followed by that `,` or `}`. */
  lemma ShorthandExpanded(open: char, s: string, i: nat, a: nat, b: nat, c: nat)
    requires i < a < b <= c < |s| && s[i] == open && s[c] in {',', '}'}
    requires forall k :: i < k < a ==> IsSpace(Js, s[k])
    requires IsJsIdentStart(s[a]) && forall k :: a < k < b ==> IsJsIdentStart(s[k]) || IsDigit(s[k])
    requires forall k :: b <= k < c ==> IsSpace(Js, s[k])
    ensures ShorthandMatch(open, s, i) == Some(Hit(c + 1, Expanded(open, s[a..b], s[c])))
  {
    StopsShorthandRuns(s[a]);
    StopsShorthandRuns(s[b]);
    StopsShorthandRuns(s[c]);
    RunEndAt(s, i + 1, a, Space(Js));
    RunEndAt(s, a + 1, b, JsIdentBody);
    RunEndAt(s, b, c, Space(Js));
  }

  /** The characters that end each run of the shorthand pattern. */
  lemma StopsShorthandRuns(x: char)
    ensures IsJsIdentStart(x) ==> !IsSpace(Js, x)
    ensures IsSpace(Js, x) || x == ',' || x == '}' ==> !InClass(JsIdentBody, x)
    ensures x == ',' || x == '}' ==> !IsSpace(Js, x)
  {
  }

  /** The `,` form also matches inside argument lists and array literals:
      in `f(a, b, c)` the `, b,` is rewritten. */
  lemma ShorthandInArgumentList()
    ensures ShorthandMatch(',', "f(a, b, c)", 3) == Some(Hit(7, ", b: b,"))
  {
    var s := "f(a, b, c)";
    assert s[3] == ',' && s[4] == ' ' && s[5] == 'b' && s[6] == ',' && s[5..6] == "b";
    ShorthandExpanded(',', s, 3, 5, 6, 6);
    assert Expanded(',', "b", ',') == ", b: b,";
  }

  function ExpandObjectShorthand(content: string): string {
    ReplaceAll(ReplaceAll(content, ShorthandRule('{')), ShorthandRule(','))
  }

  /** `fixTemplateLiterals` returns its argument as it is. */
  function FixTemplateLiterals(content: string): string {
    content
  }

  /** `const\s+([a-zA-Z_$][a-zA-Z0-9_$]*)\s*=\s*\(\s*\)\s*=>\s*{` → `function $1() {`. */
  function ArrowMatch(s: string, i: nat): (r: Option<Hit>)
    ensures r.Some? ==> At(s, i, "const") && i < r.value.end <= |s| && s[r.value.end - 1] == '{'
    ensures r.Some? ==> At(r.value.rep, 0, "function ") && r.value.rep[|r.value.rep| - 4..] == "() {"
  {
    if !At(s, i, "const") then None
    else
      var a := RunEnd(s, i + 5, Space(Js));
      if a == i + 5 || a == |s| || !IsJsIdentStart(s[a]) then None
      else
        var b := RunEnd(s, a + 1, JsIdentBody);
        var c := RunEnd(s, b, Space(Js));
        if c == |s| || s[c] != '=' then None
        else
          var d := RunEnd(s, c + 1, Space(Js));
          if d == |s| || s[d] != '(' then None
          else
            var e := RunEnd(s, d + 1, Space(Js));
            if e == |s| || s[e] != ')' then None
            else
              var g := RunEnd(s, e + 1, Space(Js));
              if !At(s, g, "=>") then None
              else
                var h := RunEnd(s, g + 2, Space(Js));
                if h == |s| || s[h] != '{' then None
                else Some(Hit(h + 1, "function " + s[a..b] + "() {"))
  }

  function ArrowRule(): (m: Matcher)
    ensures Advancing(m)
  {
    (s: string, i: nat) => ArrowMatch(s, i)
  }

  /** `convertArrowFunctions`, which `transformForGAS` leaves commented out. */
  function ConvertArrowFunctions(content: string): string {
    ReplaceAll(content, ArrowRule())
  }

  function TransformForGAS(content: string): string {
    var noStrict := ReplaceAll(content, UseStrictRule());
    var noExports := ReplaceAll(noStrict, ExportWordRule());
    var noImports := ReplaceAll(noExports, ImportFromRule());
    FixTemplateLiterals(ExpandObjectShorthand(noImports))
  }
}
