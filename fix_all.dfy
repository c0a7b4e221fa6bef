/** `fix_typescript_syntax` of scripts/fix-all.py: whole-text rewrites that drop
    declarations, imports, exports, `as` assertions and return types, then a pass over
    the lines that strips parameter and variable annotations while it tracks whether
    it is inside a parameter list, then blank-line collapsing and the removal of access
    modifiers and generic parameter lists. */
module FixAll {
  import opened Common
  import opened Text
  import opened Rewrite
  import opened TsRules

  /** Steps 1 to 4 (lines 15-38), each a `re.sub` over the whole text. */
  function StripDeclarations(content: string): string {
    var noInterfaces := ReplaceAll(content, InterfaceRule(Py));
    var noAliases := ReplaceAll(noInterfaces, TypeAliasRule());
    var noImports := ReplaceAll(noAliases, ImportLineRule(false));
    var noExports := ReplaceAll(noImports, ExportLineRule());
    var noAnyArrays := ReplaceAll(noExports, AsRule(Py, AnyArray));
    var noAny := ReplaceAll(noAnyArrays, AsRule(Py, AnyType));
    var noAs := ReplaceAll(noAny, AsRule(Py, TypeName));
    var noObjectReturns := ReplaceAll(noAs, ReturnTypeRule(ObjectType));
    ReplaceAll(noObjectReturns, ReturnTypeRule(NamedType))
  }

  // ---------------------------------------------------------------------------
  // Parameter annotations (line 60 and line 62)

  /** `(\w+)\s*:\s*[A-Za-z_][A-Za-z0-9_.<>[\]|&\s'"]*\s*=\s*` → `\1 = `. */
  function ParamDefaultMatch(s: string, i: nat): (r: Option<Hit>)
    ensures r.Some? ==> i < |s| && i < RunEnd(s, i, Word(Py)) < r.value.end <= |s|
    ensures r.Some? ==> r.value.rep == s[i..RunEnd(s, i, Word(Py))] + " = "
    ensures r.Some? ==> forall k :: i <= k < r.value.end ==> s[k] != ')'
  {
    if i > |s| then None
    else
      var a := RunEnd(s, i, Word(Py));
      var c := RunEnd(s, a, Space(Py));
      if a == i || c == |s| || s[c] != ':' then None
      else
        var e := RunEnd(s, c + 1, Space(Py));
        if e == |s| || !IsIdentStart(s[e]) then None
        else
          var g := RunEnd(s, e + 1, QuotedTypeBody(Py));
          if g == |s| || s[g] != '=' then None
          else Some(Hit(RunEnd(s, g + 1, Space(Py)), s[i..a] + " = "))
  }

  function ParamDefaultRule(): (m: Matcher)
    ensures Advancing(m)
  {
    (s: string, i: nat) => ParamDefaultMatch(s, i)
  }

  /** `(\w+)\s*:\s*[^\,\)]+([,)])` → `\1\2`. */
  function ParamUnionMatch(s: string, i: nat): (r: Option<Hit>)
    ensures r.Some? ==> i < |s| && i < RunEnd(s, i, Word(Py)) < r.value.end - 1 && r.value.end <= |s|
    ensures r.Some? ==> s[r.value.end - 1] in {',', ')'}
    ensures r.Some? ==> r.value.rep == s[i..RunEnd(s, i, Word(Py))] + [s[r.value.end - 1]]
    ensures r.Some? ==> forall k :: i <= k < r.value.end - 1 ==> s[k] != ')'
  {
    if i > |s| then None
    else
      var a := RunEnd(s, i, Word(Py));
      var c := RunEnd(s, a, Space(Py));
      if a == i || c == |s| || s[c] != ':' then None
      else match Find(s, c + 1, AnyOf({',', ')'}))
        case None => None
        case Some(k) => if k == c + 1 then None else Some(Hit(k + 1, s[i..a] + [s[k]]))
  }

  function ParamUnionRule(): (m: Matcher)
    ensures Advancing(m)
  {
    (s: string, i: nat) => ParamUnionMatch(s, i)
  }

  /** `(const|let|var)\s+(\w+)\s*:\s*[A-Za-z_][A-Za-z0-9_.<>[\]|\s]*\s*=` → `\1 \2 =`. */
  function VariableRule(): (m: Matcher)
    ensures Advancing(m)
  {
    TypedBindingRule(Py, TypeThen(false, '='))
  }

  lemma ParamRulesKeepParens()
    ensures KeepsPresence(ParamDefaultRule(), ')')
    ensures KeepsPresence(ParamUnionRule(), ')')
  {
    forall s: string, i: nat | ParamDefaultMatch(s, i).Some?
      ensures ')' !in ParamDefaultMatch(s, i).value.rep
      ensures ')' !in s[i..ParamDefaultMatch(s, i).value.end]
    {
      var a := RunEnd(s, i, Word(Py));
      assert forall k :: 0 <= k < a - i ==> s[i..a][k] != ')';
    }
    forall s: string, i: nat | ParamUnionMatch(s, i).Some?
      ensures ')' in ParamUnionMatch(s, i).value.rep <==> ')' in s[i..ParamUnionMatch(s, i).value.end]
    {
      var h := ParamUnionMatch(s, i).value;
      var a := RunEnd(s, i, Word(Py));
      assert forall k :: 0 <= k < a - i ==> s[i..a][k] != ')';
      assert s[i..h.end] == s[i..h.end - 1] + [s[h.end - 1]];
    }
  }

  lemma LineRulesAddNoBreak()
    ensures NeverAdds(ParamDefaultRule(), '\n')
    ensures NeverAdds(ParamUnionRule(), '\n')
    ensures NeverAdds(VariableRule(), '\n')
  {
    forall s: string, i: nat | ParamDefaultMatch(s, i).Some?
      ensures '\n' !in ParamDefaultMatch(s, i).value.rep
    {
      var a := RunEnd(s, i, Word(Py));
      assert forall k :: 0 <= k < a - i ==> IsWord(Py, s[i..a][k]);
    }
    forall s: string, i: nat | ParamUnionMatch(s, i).Some?
      ensures '\n' !in ParamUnionMatch(s, i).value.rep
    {
      var a := RunEnd(s, i, Word(Py));
      assert forall k :: 0 <= k < a - i ==> IsWord(Py, s[i..a][k]);
    }
    forall s: string, i: nat | TypedBindingMatch(Py, TypeThen(false, '='), s, i).Some?
      ensures '\n' !in TypedBindingMatch(Py, TypeThen(false, '='), s, i).value.rep
    {
      ReplacementHasNoBreak(DeclHeadAt(Py, s, i).value, TypeThen(false, '='));
    }
  }

  // ---------------------------------------------------------------------------
  // The line pass (lines 41-86)

  /** `'function ' in line and '(' in line`. */
  predicate EntersParams(line: string) {
    Contains(line, "function ") && '(' in line
  }

  /** One line's output and the `in_function_params` flag for the next line. */
  datatype LineOut = LineOut(text: string, inParams: bool)

  /** The body of the loop for one line. */
  function FixLine(line: string, inParams: bool): LineOut {
    if IsCommentLine(line) then LineOut(line, inParams)
    else
      var mode := inParams || EntersParams(line);
      var stripped := if mode then ReplaceAll(ReplaceAll(line, ParamDefaultRule()), ParamUnionRule()) else line;
      var out := if StartsTypedDeclaration(stripped) then ReplaceAll(stripped, VariableRule()) else stripped;
      LineOut(out, mode && ')' !in stripped)
  }

  /** A comment line is copied and leaves the flag alone. Any other line switches
      parameter mode on when it contains `function ` and `(`, and the mode ends with
      the first line that contains `)`: stripping annotations never removes or adds a
      `)`. No line gains a line break, and a line outside parameter mode that does not
      start a typed declaration is copied unchanged. */
  lemma FixLineFacts(line: string, inParams: bool)
    ensures IsCommentLine(line) ==> FixLine(line, inParams) == LineOut(line, inParams)
    ensures !IsCommentLine(line) ==>
      FixLine(line, inParams).inParams == ((inParams || EntersParams(line)) && ')' !in line)
    ensures '\n' !in line ==> '\n' !in FixLine(line, inParams).text
    ensures !IsCommentLine(line) && !inParams && !EntersParams(line) && !StartsTypedDeclaration(line) ==>
      FixLine(line, inParams).text == line
  {
    if !IsCommentLine(line) {
      var l0 := ReplaceAll(line, ParamDefaultRule());
      var l1 := ReplaceAll(l0, ParamUnionRule());
      var mode := inParams || EntersParams(line);
      var stripped := if mode then l1 else line;
      ParamRulesKeepParens();
      KeepsChar(line, ParamDefaultRule(), 0, ')');
      KeepsChar(l0, ParamUnionRule(), 0, ')');
      LineRulesAddNoBreak();
      NeverAddsChar(line, ParamDefaultRule(), 0, '\n');
      NeverAddsChar(l0, ParamUnionRule(), 0, '\n');
      NeverAddsChar(stripped, VariableRule(), 0, '\n');
      assert line[0..] == line && l0[0..] == l0 && stripped[0..] == stripped;
    }
  }

  /** A line step run over the lines in order, each line handed the flag the one
      before it left. */
  function Thread(step: (string, bool) -> LineOut, lines: seq<string>, inParams: bool): (r: seq<string>)
    ensures |r| == |lines|
  {
    if lines == [] then []
    else
      var o := step(lines[0], inParams);
      [o.text] + Thread(step, lines[1..], o.inParams)
  }

  /** The flag a line step has in force when line `k` is reached. */
  function ThreadFlag(step: (string, bool) -> LineOut, lines: seq<string>, inParams: bool, k: nat): bool
    requires k <= |lines|
  {
    if k == 0 then inParams else ThreadFlag(step, lines[1..], step(lines[0], inParams).inParams, k - 1)
  }

  lemma {:induction false} ThreadLine(step: (string, bool) -> LineOut, lines: seq<string>, inParams: bool, k: nat)
    requires k < |lines|
    ensures Thread(step, lines, inParams)[k] == step(lines[k], ThreadFlag(step, lines, inParams, k)).text
  {
    if k > 0 {
      ThreadLine(step, lines[1..], step(lines[0], inParams).inParams, k - 1);
      assert lines[1..][k - 1] == lines[k];
    }
  }

  /** What the loop appends to `result`, line by line, starting with the flag given. */
  function LinePass(lines: seq<string>, inParams: bool): (r: seq<string>)
    ensures |r| == |lines|
  {
    Thread(FixLine, lines, inParams)
  }

  /** The flag in force when line `k` is reached: the one the lines before it left. */
  function FlagAt(lines: seq<string>, inParams: bool, k: nat): bool
    requires k <= |lines|
  {
    ThreadFlag(FixLine, lines, inParams, k)
  }

  /** Each output line is its input line processed under the flag the lines before it
      left behind. */
  lemma LinePassLine(lines: seq<string>, inParams: bool, k: nat)
    requires k < |lines|
    ensures LinePass(lines, inParams)[k] == FixLine(lines[k], FlagAt(lines, inParams, k)).text
  {
    ThreadLine(FixLine, lines, inParams, k);
  }

  /** One output line per input line; comment lines are copied unchanged, and no line
      gains a line break. */
  lemma LinePassFacts(lines: seq<string>, inParams: bool)
    ensures forall k :: 0 <= k < |lines| && IsCommentLine(lines[k]) ==> LinePass(lines, inParams)[k] == lines[k]
    ensures forall k :: 0 <= k < |lines| && '\n' !in lines[k] ==> '\n' !in LinePass(lines, inParams)[k]
  {
    forall k | 0 <= k < |lines| {
      LinePassFactsAt(lines, inParams, k);
    }
  }

  lemma LinePassFactsAt(lines: seq<string>, inParams: bool, k: nat)
    requires k < |lines|
    ensures IsCommentLine(lines[k]) ==> LinePass(lines, inParams)[k] == lines[k]
    ensures '\n' !in lines[k] ==> '\n' !in LinePass(lines, inParams)[k]
  {
    LinePassLine(lines, inParams, k);
    FixLineFacts(lines[k], FlagAt(lines, inParams, k));
  }

  /** Processing the lines from `k` on is processing line `k`, then the rest under the
      flag it leaves. */
  lemma LinePassStep(lines: seq<string>, k: nat, inParams: bool)
    requires k < |lines|
    ensures LinePass(lines[k..], inParams) ==
      [FixLine(lines[k], inParams).text] + LinePass(lines[k + 1..], FixLine(lines[k], inParams).inParams)
  {
    assert lines[k..][0] == lines[k] && lines[k..][1..] == lines[k + 1..];
  }

  /** The body of the loop for one line, step by step. */
  method FixOneLine(line: string, inParams: bool) returns (text: string, stillIn: bool)
    ensures LineOut(text, stillIn) == FixLine(line, inParams)
  {
    text, stillIn := line, inParams;
    if IsCommentLine(line) {
      return;
    }
    if EntersParams(line) {
      stillIn := true;
    }
    if stillIn {
      text := ReplaceAll(text, ParamDefaultRule());
      text := ReplaceAll(text, ParamUnionRule());
      if ')' in text {
        stillIn := false;
      }
    }
    if StartsTypedDeclaration(text) {
      text := ReplaceAll(text, VariableRule());
    }
  }

  /** The loop of lines 45-84. */
  method FixLines(lines: seq<string>) returns (result: seq<string>)
    ensures result == LinePass(lines, false)
    ensures |result| == |lines|
    ensures forall k :: 0 <= k < |lines| && IsCommentLine(lines[k]) ==> result[k] == lines[k]
  {
    result := [];
    var inParams := false;
    var k := 0;
    while k < |lines|
      invariant 0 <= k <= |lines|
      invariant result + LinePass(lines[k..], inParams) == LinePass(lines, false)
    {
      ghost var done := result;
      LinePassStep(lines, k, inParams);
      var text;
      text, inParams := FixOneLine(lines[k], inParams);
      result := result + [text];
      ghost var rest := LinePass(lines[k + 1..], inParams);
      ConcatAssoc(done, [text], rest);
      k := k + 1;
    }
    assert lines[k..] == [];
    LinePassFacts(lines, false);
  }
  /** Joining the lines back with `\n` and splitting again gives as many lines as the
      text had. */
  lemma LineCountKept(content: string)
    ensures |SplitLines(JoinLines(LinePass(SplitLines(content), false)))| == |SplitLines(content)|
  {
    var lines := SplitLines(content);
    LinePassFacts(lines, false);
    SplitJoin(LinePass(lines, false));
  }

  // ---------------------------------------------------------------------------
  // Step 6: `\n\n\n+` → `\n\n` (line 89)

  function ExcessNewlinesMatch(s: string, i: nat): (r: Option<Hit>)
    ensures r.Some? ==> i + 3 <= r.value.end <= |s| && r.value.rep == "\n\n"
    ensures r.Some? ==> forall k :: i <= k < r.value.end ==> s[k] == '\n'
    ensures r.Some? ==> r.value.end == |s| || s[r.value.end] != '\n'
  {
    if i + 3 <= |s| && s[i] == '\n' && s[i + 1] == '\n' && s[i + 2] == '\n'
    then Some(Hit(RunEnd(s, i, Only('\n')), "\n\n"))
    else None
  }

  function ExcessNewlinesRule(): (m: Matcher)
    ensures Advancing(m)
  {
    (s: string, i: nat) => ExcessNewlinesMatch(s, i)
  }

  function Collapse(s: string): string {
    ReplaceAll(s, ExcessNewlinesRule())
  }

  /** A reference definition of the collapse, character by character: `run` newlines
      have just been seen, and a newline is kept only while fewer than two have. */
  function Squeeze(s: string, run: nat): string
    decreases |s|
  {
    if s == [] then []
    else if s[0] == '\n' then (if run < 2 then "\n" else "") + Squeeze(s[1..], run + 1)
    else [s[0]] + Squeeze(s[1..], 0)
  }

  predicate HasTriple(s: string, k: nat) {
    k + 3 <= |s| && s[k] == '\n' && s[k + 1] == '\n' && s[k + 2] == '\n'
  }

  /** The number of newlines `s` starts with. */
  function LeadingNewlines(s: string): nat
    decreases |s|
  {
    if s != [] && s[0] == '\n' then 1 + LeadingNewlines(s[1..]) else 0
  }

  lemma {:induction false} SqueezeShape(s: string, run: nat)
    ensures LeadingNewlines(Squeeze(s, run)) <= (if run >= 2 then 0 else 2 - run)
    ensures forall k: nat :: !HasTriple(Squeeze(s, run), k)
    decreases |s|
  {
    if s != [] {
      var rest := s[1..];
      if s[0] == '\n' {
        SqueezeShape(rest, run + 1);
        if run < 2 {
          var u := Squeeze(s, run);
          var v := Squeeze(rest, run + 1);
          assert u == "\n" + v;
          assert LeadingNewlines(u) == 1 + LeadingNewlines(v) by { assert u[1..] == v; }
          forall k: nat ensures !HasTriple(u, k) {
            if k == 0 {
              if |v| >= 2 && v[0] == '\n' {
                assert LeadingNewlines(v) == 1 + LeadingNewlines(v[1..]);
                assert v[1..][0] == v[1];
              }
            } else {
              assert HasTriple(u, k) ==> HasTriple(v, k - 1);
            }
          }
        } else {
          assert Squeeze(s, run) == Squeeze(rest, run + 1);
        }
      } else {
        SqueezeShape(rest, 0);
        var u := Squeeze(s, run);
        var v := Squeeze(rest, 0);
        assert u == [s[0]] + v;
        forall k: nat ensures !HasTriple(u, k) {
          if k > 0 { assert HasTriple(u, k) ==> HasTriple(v, k - 1); }
        }
      }
    }
  }

  /** Newlines met while `run` is already two or more are all dropped. */
  lemma {:induction false} SqueezeDrops(s: string, j: nat, e: nat, run: nat)
    requires j <= e <= |s| && run >= 2
    requires forall k :: j <= k < e ==> s[k] == '\n'
    ensures Squeeze(s[j..], run) == Squeeze(s[e..], run + (e - j))
    decreases e - j
  {
    if j < e {
      assert s[j..][1..] == s[j + 1..];
      SqueezeDrops(s, j + 1, e, run + 1);
    }
  }

  /** Before a character other than a newline the run count no longer matters. */
  lemma SqueezeRunIrrelevant(s: string, run: nat)
    requires s == [] || s[0] != '\n'
    ensures Squeeze(s, run) == Squeeze(s, 0)
  {}

  /** The collapse computes the reference definition, from any position that does not
      sit inside a run of newlines. */
  lemma {:induction false} CollapseFrom(s: string, i: nat)
    requires i <= |s|
    requires i == |s| || s[i] != '\n' || i == 0 || s[i - 1] != '\n'
    ensures ReplaceFrom(s, ExcessNewlinesRule(), i) == Squeeze(s[i..], 0)
    decreases |s| - i
  {
    if i < |s| {
      var e := RunEnd(s, i, Only('\n'));
      if s[i] != '\n' {
        CollapseFrom(s, i + 1);
        CollapseOther(s, i);
      } else if e - i >= 3 {
        CollapseFrom(s, e);
        CollapseLongRun(s, i, e);
      } else if e - i == 1 {
        CollapseFrom(s, i + 1);
        CollapseShortRun(s, i, 1);
      } else {
        CollapseFrom(s, i + 2);
        CollapseShortRun(s, i, 2);
      }
    }
  }

  /** A character other than a newline is copied. */
  lemma CollapseOther(s: string, i: nat)
    requires i < |s| && s[i] != '\n'
    requires ReplaceFrom(s, ExcessNewlinesRule(), i + 1) == Squeeze(s[i + 1..], 0)
    ensures ReplaceFrom(s, ExcessNewlinesRule(), i) == Squeeze(s[i..], 0)
  {
    assert s[i..][0] == s[i] && s[i..][1..] == s[i + 1..];
  }

  /** A run of three or more newlines ending at `e` becomes two. */
  lemma CollapseLongRun(s: string, i: nat, e: nat)
    requires i < |s| && s[i] == '\n' && e == RunEnd(s, i, Only('\n')) && e - i >= 3
    requires ReplaceFrom(s, ExcessNewlinesRule(), e) == Squeeze(s[e..], 0)
    ensures ReplaceFrom(s, ExcessNewlinesRule(), i) == Squeeze(s[i..], 0)
  {
    var m := ExcessNewlinesRule();
    assert m(s, i) == Some(Hit(e, "\n\n"));
    assert ReplaceFrom(s, m, i) == "\n\n" + ReplaceFrom(s, m, e);
    assert s[i..][0] == s[i] && s[i..][1..] == s[i + 1..];
    assert s[i + 1..][0] == s[i + 1] && s[i + 1..][1..] == s[i + 2..];
    assert Squeeze(s[i..], 0) == "\n" + ("\n" + Squeeze(s[i + 2..], 2));
    SqueezeDrops(s, i + 2, e, 2);
    SqueezeRunIrrelevant(s[e..], 2 + (e - (i + 2)));
  }

  /** A run of one or two newlines is copied. */
  lemma CollapseShortRun(s: string, i: nat, n: nat)
    requires i < |s| && s[i] == '\n' && 1 <= n <= 2 && RunEnd(s, i, Only('\n')) == i + n
    requires ReplaceFrom(s, ExcessNewlinesRule(), i + n) == Squeeze(s[i + n..], 0)
    ensures ReplaceFrom(s, ExcessNewlinesRule(), i) == Squeeze(s[i..], 0)
  {
    var m := ExcessNewlinesRule();
    RunEndAt(s, i, i + n, Only('\n'));
    assert m(s, i).None?;
    assert s[i..][0] == s[i] && s[i..][1..] == s[i + 1..];
    if n == 1 {
      SqueezeRunIrrelevant(s[i + 1..], 1);
    } else {
      assert m(s, i + 1).None?;
      assert ReplaceFrom(s, m, i + 1) == "\n" + ReplaceFrom(s, m, i + 2);
      assert s[i + 1..][0] == s[i + 1] && s[i + 1..][1..] == s[i + 2..];
      assert Squeeze(s[i..], 0) == "\n" + ("\n" + Squeeze(s[i + 2..], 2));
      SqueezeRunIrrelevant(s[i + 2..], 2);
    }
  }

  /** After the collapse no three newlines stand in a row. */
  lemma CollapseLeavesNoTriple(s: string)
    ensures forall k: nat :: !HasTriple(Collapse(s), k)
  {
    CollapseFrom(s, 0);
    assert s[0..] == s;
    SqueezeShape(s, 0);
  }

  /** Collapsing again changes nothing. */
  lemma CollapseIdempotent(s: string)
    ensures Collapse(Collapse(s)) == Collapse(s)
  {
    var t := Collapse(s);
    CollapseLeavesNoTriple(s);
    forall k | 0 <= k < |t| ensures ExcessNewlinesRule()(t, k).None? {
      assert !HasTriple(t, k);
    }
    NoHitIdentity(t, ExcessNewlinesRule(), 0);
    assert t[0..] == t;
  }

  // ---------------------------------------------------------------------------
  // The whole function

  /** Steps 6 to 8 (lines 89-95). */
  function Finish(joined: string): string {
    var collapsed := Collapse(joined);
    var noModifiers := ReplaceAll(collapsed, ModifierRule(Py));
    ReplaceAll(noModifiers, GenericsRule(Py))
  }

  method FixTypescriptSyntax(content: string) returns (out: string)
    ensures out == Finish(JoinLines(LinePass(SplitLines(StripDeclarations(content)), false)))
  {
    var stripped := StripDeclarations(content);
    var lines := SplitLines(stripped);
    var result := FixLines(lines);
    out := Finish(JoinLines(result));
  }
}
