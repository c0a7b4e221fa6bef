/** `convert_typescript_to_javascript` of scripts/simple-convert.py: a chain of
    whole-text rewrites, then a pass over the lines that strips annotations outside
    comments and string-bearing lines, then the removal of `as` assertions, of the
    `[]` they leave behind after `.data` and `.result`, and of access modifiers. */
module SimpleConvert {
  import opened Common
  import opened Text
  import opened Rewrite
  import opened TsRules

  /** Steps 1 to 3 (lines 13-27). */
  function StripHead(content: string): string {
    var noInterfaces := ReplaceAll(content, InterfaceRule(Py));
    var noImports := ReplaceAll(noInterfaces, ImportLineRule(false));
    var noExports := ReplaceAll(noImports, ExportLineRule());
    ReplaceAll(noExports, ReturnTypeRule(AnyReturn))
  }

  // ---------------------------------------------------------------------------
  // The line pass (lines 30-47)

  predicate HasQuote(line: string) {
    '\'' in line || '"' in line || '`' in line
  }

  /** The condition of lines 36 and 38 under which a line's annotations are stripped. */
  predicate StripsAnnotations(line: string) {
    ':' in line && !IsCommentLine(line) && !HasQuote(line)
  }

  /** `\b(\w+)\s*\??\s*:\s*[^,)=]+` → `\1`. */
  function WordAnnotationRule(): (m: Matcher)
    ensures Advancing(m)
  {
    AnnotationRule(Py, {',', ')', '='}, true)
  }

  /** `(const|let|var)\s+(\w+)\s*:\s*[^=]+\s*=` → `\1 \2 =`. */
  function DeclarationRule(): (m: Matcher)
    ensures Advancing(m)
  {
    TypedBindingRule(Py, UpToEquals)
  }

  /** The body of the loop for one line. */
  function ConvertLine(line: string): string {
    var stripped := if StripsAnnotations(line) then ReplaceAll(line, WordAnnotationRule()) else line;
    if StartsTypedDeclaration(stripped) then ReplaceAll(stripped, DeclarationRule()) else stripped
  }

  /** A line without a `:` is copied unchanged. */
  lemma ColonFreeLineKept(line: string)
    requires ':' !in line
    ensures ConvertLine(line) == line
  {
  }

  /** On a line the condition excludes (a comment, or one holding a quote or a
      backtick) the annotation rule does not run; only a typed declaration is
      rewritten. */
  lemma ExcludedLineOnlyDeclaration(line: string)
    requires !StripsAnnotations(line)
    ensures !StartsTypedDeclaration(line) ==> ConvertLine(line) == line
    ensures StartsTypedDeclaration(line) ==> ConvertLine(line) == ReplaceAll(line, DeclarationRule())
  {
  }

  lemma LineRulesAddNoBreak()
    ensures NeverAdds(WordAnnotationRule(), '\n')
    ensures NeverAdds(DeclarationRule(), '\n')
  {
    AnnotationNeverAdds(Py, {',', ')', '='}, true, '\n');
    forall s: string, i: nat | TypedBindingMatch(Py, UpToEquals, s, i).Some?
      ensures '\n' !in TypedBindingMatch(Py, UpToEquals, s, i).value.rep
    {
      ReplacementHasNoBreak(DeclHeadAt(Py, s, i).value, UpToEquals);
    }
  }

  /** A line without a line break is converted into one without a line break. */
  lemma ConvertLineNoBreak(line: string)
    requires '\n' !in line
    ensures '\n' !in ConvertLine(line)
  {
    LineRulesAddNoBreak();
    var stripped := if StripsAnnotations(line) then ReplaceAll(line, WordAnnotationRule()) else line;
    NeverAddsChar(line, WordAnnotationRule(), 0, '\n');
    NeverAddsChar(stripped, DeclarationRule(), 0, '\n');
    assert line[0..] == line && stripped[0..] == stripped;
  }

  /** One turn of the loop of lines 33-45: strip the annotations when the line
      qualifies, then retype a typed declaration. */
  method ConvertOne(original: string) returns (line: string)
    ensures line == ConvertLine(original)
  {
    line := original;
    if StripsAnnotations(line) {
      line := ReplaceAll(line, WordAnnotationRule());
    }
    if StartsTypedDeclaration(line) {
      line := ReplaceAll(line, DeclarationRule());
    }
  }

  /** The loop of lines 33-45: one output line per input line. */
  method ConvertLines(lines: seq<string>) returns (result: seq<string>)
    ensures |result| == |lines|
    ensures forall k :: 0 <= k < |lines| ==> result[k] == ConvertLine(lines[k])
  {
    result := [];
    var k := 0;
    while k < |lines|
      invariant 0 <= k <= |lines| && |result| == k
      invariant forall j :: 0 <= j < k ==> result[j] == ConvertLine(lines[j])
    {
      var line := ConvertOne(lines[k]);
      result := result + [line];
      k := k + 1;
    }
  }

  /** Joining the converted lines with `\n` and splitting again gives them back, one
      per line of the text. */
  lemma LineCountKept(lines: seq<string>, converted: seq<string>)
    requires |lines| >= 1 && forall k :: 0 <= k < |lines| ==> '\n' !in lines[k]
    requires |converted| == |lines|
    requires forall k :: 0 <= k < |lines| ==> converted[k] == ConvertLine(lines[k])
    ensures SplitLines(JoinLines(converted)) == converted
  {
    forall k | 0 <= k < |lines| ensures '\n' !in converted[k] {
      ConvertLineNoBreak(lines[k]);
    }
    SplitJoin(converted);
  }

  // ---------------------------------------------------------------------------
  // Steps after the line pass (lines 49-59)

  function StripTail(joined: string): string {
    var noAnyArrays := ReplaceAll(joined, AsRule(Py, AnyArray));
    var noAny := ReplaceAll(noAnyArrays, AsRule(Py, AnyType));
    var noAs := ReplaceAll(noAny, AsRule(Py, WordOptArray));
    var data := ReplaceAll(noAs, LiteralRule(".data[]", ".data"));
    var results := ReplaceAll(data, LiteralRule(".result[]", ".result"));
    ReplaceAll(results, ModifierRule(Py))
  }

  method ConvertTypescriptToJavascript(content: string) returns (out: string)
    ensures exists converted: seq<string> ::
      |converted| == |SplitLines(StripHead(content))| &&
      (forall k :: 0 <= k < |converted| ==> converted[k] == ConvertLine(SplitLines(StripHead(content))[k])) &&
      out == StripTail(JoinLines(converted))
  {
    var lines := SplitLines(StripHead(content));
    var converted := ConvertLines(lines);
    out := StripTail(JoinLines(converted));
  }
}
