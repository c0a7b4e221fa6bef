/** The rewriting rules that several of the build scripts share. Each `…Match`
    function is the scanner for one regular expression: it returns the match the
    regex engine chooses at position `i` (greedy quantifiers take the longest run,
    backtracking only where the next element could still succeed) and its
    replacement; the `…Rule` function packages it as a `Matcher`. */
module TsRules {
  import opened Common
  import opened Text
  import opened Rewrite

  /** `\s+\w+\s*` and then `delim`, from `p` (just after a keyword): where `delim` is. */
  function NamedThen(f: Flavor, s: string, p: nat, delim: char): (r: Option<nat>)
    requires p <= |s|
    ensures r.Some? ==> p < r.value < |s| && s[r.value] == delim
  {
    var a := RunEnd(s, p, Space(f));
    var b := RunEnd(s, a, Word(f));
    var c := RunEnd(s, b, Space(f));
    if a == p || b == a || c == |s| || s[c] != delim then None else Some(c)
  }

  /** Whitespace on `[p, a)`, a word on `[a, b)` and whitespace on `[b, c)` before a
      `delim` that is neither, are what `NamedThen` steps over. */
  lemma NamedThenAt(f: Flavor, s: string, p: nat, a: nat, b: nat, c: nat, delim: char)
    requires p < a < b <= c < |s| && s[c] == delim && !IsSpace(f, delim) && !IsWord(f, delim)
    requires forall k :: p <= k < a ==> IsSpace(f, s[k])
    requires forall k :: a <= k < b ==> IsWord(f, s[k])
    requires forall k :: b <= k < c ==> IsSpace(f, s[k])
    ensures NamedThen(f, s, p, delim) == Some(c)
  {
    SpaceIsNotWord(f, s[a]);
    RunEndAt(s, p, a, Space(f));
    assert !IsWord(f, s[b]) by { if b < c { SpaceIsNotWord(f, s[b]); } }
    RunEndAt(s, a, b, Word(f));
    RunEndAt(s, b, c, Space(f));
  }

  // ---------------------------------------------------------------------------
  // `interface\s+\w+\s*\{[^}]*\}` → ''

  function InterfaceMatch(f: Flavor, s: string, i: nat): (r: Option<Hit>)
    ensures r.Some? ==> i < r.value.end <= |s| && r.value.rep == ""
    ensures r.Some? ==> At(s, i, "interface") && s[r.value.end - 1] == '}'
    ensures r.Some? ==> forall k :: i <= k < r.value.end - 1 ==> s[k] != '}'
  {
    if !At(s, i, "interface") then None
    else match NamedThen(f, s, i + 9, '{')
      case None => None
      case Some(c) =>
        match Find(s, c + 1, Only('}'))
        case None => None
        case Some(e) =>
          assert forall k :: i <= k < i + 9 ==> s[k] == "interface"[k - i];
          Some(Hit(e + 1, ""))
  }

  function InterfaceRule(f: Flavor): (m: Matcher)
    ensures Advancing(m)
  {
    (s: string, i: nat) => InterfaceMatch(f, s, i)
  }

  /** An `interface Name { … }` whose body has no `}` is deleted, braces included:
      `interface` at `i`, whitespace up to `a`, the name up to `b`, optional
      whitespace up to the `{` at `c`, and the first `}` after it at `e`. */
  lemma InterfaceDeleted(f: Flavor, s: string, i: nat, a: nat, b: nat, c: nat, e: nat)
    requires At(s, i, "interface") && i + 9 < a < b <= c < e < |s|
    requires forall k :: i + 9 <= k < a ==> IsSpace(f, s[k])
    requires forall k :: a <= k < b ==> IsWord(f, s[k])
    requires forall k :: b <= k < c ==> IsSpace(f, s[k])
    requires s[c] == '{' && s[e] == '}' && forall k :: c < k < e ==> s[k] != '}'
    ensures InterfaceMatch(f, s, i) == Some(Hit(e + 1, ""))
  {
    NamedThenAt(f, s, i + 9, a, b, c, '{');
    FindAt(s, c + 1, e, Only('}'));
    InterfaceMatchFrom(f, s, i, c, e);
  }

  lemma InterfaceMatchFrom(f: Flavor, s: string, i: nat, c: nat, e: nat)
    requires At(s, i, "interface") && NamedThen(f, s, i + 9, '{') == Some(c)
    requires Find(s, c + 1, Only('}')) == Some(e)
    ensures InterfaceMatch(f, s, i) == Some(Hit(e + 1, ""))
  {}

  // ---------------------------------------------------------------------------
  // `type\s+\w+\s*=\s*[^;]+;` → ''

  function TypeAliasMatch(s: string, i: nat): (r: Option<Hit>)
    ensures r.Some? ==> i < r.value.end <= |s| && r.value.rep == ""
    ensures r.Some? ==> At(s, i, "type") && s[r.value.end - 1] == ';'
    ensures r.Some? ==> forall k :: i <= k < r.value.end - 1 ==> s[k] != ';'
  {
    if !At(s, i, "type") then None
    else match NamedThen(Py, s, i + 4, '=')
      case None => None
      case Some(c) =>
        match Find(s, c + 1, Only(';'))
        case None => None
        case Some(e) =>
          assert forall k :: i <= k < i + 4 ==> s[k] == "type"[k - i];
          if e == c + 1 then None else Some(Hit(e + 1, ""))
  }

  function TypeAliasRule(): (m: Matcher)
    ensures Advancing(m)
  {
    (s: string, i: nat) => TypeAliasMatch(s, i)
  }

  /** `type Name = …;` is deleted up to and including the first `;`, provided at least
      one character stands between `=` (at `c`) and that `;` (at `e`). */
  lemma TypeAliasDeleted(s: string, i: nat, a: nat, b: nat, c: nat, e: nat)
    requires At(s, i, "type") && i + 4 < a < b <= c && c + 1 < e < |s|
    requires forall k :: i + 4 <= k < a ==> IsSpace(Py, s[k])
    requires forall k :: a <= k < b ==> IsWord(Py, s[k])
    requires forall k :: b <= k < c ==> IsSpace(Py, s[k])
    requires s[c] == '=' && s[e] == ';' && forall k :: c < k < e ==> s[k] != ';'
    ensures TypeAliasMatch(s, i) == Some(Hit(e + 1, ""))
  {
    NamedThenAt(Py, s, i + 4, a, b, c, '=');
    FindAt(s, c + 1, e, Only(';'));
  }

  // ---------------------------------------------------------------------------
  // `^\s*import\s+.*?;\s*$` and `^\s*import\s+.*?;?\s*$` (multi-line) → ''

  /** The lazy `.*?` followed by `;\s*$` (or `;?\s*$` when `optionalSemi`): the first
      end position, trying `.*?` shortest first and never crossing a line break. */
  function LazyToLineEnd(s: string, e: nat, optionalSemi: bool): (r: Option<nat>)
    requires e <= |s|
    ensures r.Some? ==> e <= r.value <= |s| && (r.value == |s| || IsLineBreak(Py, s[r.value]))
    decreases |s| - e
  {
    var here :=
      if e < |s| && s[e] == ';' then SpacesToLineEnd(Py, s, e + 1)
      else if optionalSemi then SpacesToLineEnd(Py, s, e)
      else None;
    if here.Some? then here
    else if e < |s| && !IsLineBreak(Py, s[e]) then LazyToLineEnd(s, e + 1, optionalSemi)
    else None
  }

  function ImportLineMatch(optionalSemi: bool, s: string, i: nat): (r: Option<Hit>)
    ensures r.Some? ==> i < r.value.end <= |s| && r.value.rep == ""
    ensures r.Some? ==> AtLineStart(Py, s, i)
    ensures r.Some? ==> r.value.end == |s| || IsLineBreak(Py, s[r.value.end])
  {
    if i > |s| || !AtLineStart(Py, s, i) then None
    else
      var a := RunEnd(s, i, Space(Py));
      if !At(s, a, "import") then None
      else
        var b := RunEnd(s, a + 6, Space(Py));
        if b == a + 6 then None
        else match LazyToLineEnd(s, b, optionalSemi)
          case None => None
          case Some(g) => Some(Hit(g, ""))
  }

  function ImportLineRule(optionalSemi: bool): (m: Matcher)
    ensures Advancing(m)
  {
    (s: string, i: nat) => ImportLineMatch(optionalSemi, s, i)
  }

  /** A line `import …;` ending in the first `;` of the line is deleted up to the line
      break that ends it (whitespace after the `;`, including following blank lines,
      goes with it). */
  lemma ImportLineDeleted(s: string, i: nat, b: nat, e: nat)
    requires AtLineStart(Py, s, i) && At(s, i, "import")
    requires i + 6 < b <= e < |s| && s[e] == ';'
    requires forall k :: i + 6 <= k < b ==> IsSpace(Py, s[k])
    requires b < |s| && !IsSpace(Py, s[b])
    requires forall k :: b <= k < e ==> s[k] != ';' && !IsLineBreak(Py, s[k])
    requires SpacesToLineEnd(Py, s, e + 1).Some?
    ensures ImportLineMatch(false, s, i) == Some(Hit(SpacesToLineEnd(Py, s, e + 1).value, ""))
  {
    assert !IsSpace(Py, s[i]) by { assert s[i] == "import"[0]; }
    RunEndAt(s, i, i, Space(Py));
    RunEndAt(s, i + 6, b, Space(Py));
    LazyWalk(s, b, e);
  }

  lemma {:induction false} LazyWalk(s: string, b: nat, e: nat)
    requires b <= e < |s| && s[e] == ';'
    requires forall k :: b <= k < e ==> s[k] != ';' && !IsLineBreak(Py, s[k])
    requires SpacesToLineEnd(Py, s, e + 1).Some?
    ensures LazyToLineEnd(s, b, false) == SpacesToLineEnd(Py, s, e + 1)
    decreases e - b
  {
    if b < e { LazyWalk(s, b + 1, e); }
  }

  // ---------------------------------------------------------------------------
  // `^\s*export\s+` (multi-line) → ''

  /** `export` at `a`, only whitespace before it from `i` and after it up to `e`. */
  predicate ExportAfterIndent(s: string, i: nat, a: nat, e: nat) {
    i <= a && a + 6 < e <= |s| && At(s, a, "export")
    && (forall k :: i <= k < a ==> IsSpace(Py, s[k]))
    && (forall k :: a + 6 <= k < e ==> IsSpace(Py, s[k]))
  }

  function ExportLineMatch(s: string, i: nat): (r: Option<Hit>)
    ensures r.Some? ==> i < r.value.end <= |s| && r.value.rep == ""
    ensures r.Some? ==> AtLineStart(Py, s, i)
    ensures r.Some? ==> ExportAfterIndent(s, i, RunEnd(s, i, Space(Py)), r.value.end)
    ensures r.Some? ==> r.value.end == |s| || !IsSpace(Py, s[r.value.end])
  {
    if i > |s| || !AtLineStart(Py, s, i) then None
    else
      var a := RunEnd(s, i, Space(Py));
      if !At(s, a, "export") then None
      else
        var b := RunEnd(s, a + 6, Space(Py));
        if b == a + 6 then None else Some(Hit(b, ""))
  }

  function ExportLineRule(): (m: Matcher)
    ensures Advancing(m)
  {
    (s: string, i: nat) => ExportLineMatch(s, i)
  }

  // ---------------------------------------------------------------------------
  // `\s+as\s+…` type assertions → ''

  /** What follows `\s+as\s+`: `any\[\]`, `any`, `[A-Za-z_][A-Za-z0-9_.<>[\]]*`,
      `[A-Za-z_][A-Za-z0-9_.<>[\]|&\s]*` or `\w+(\[\])?`. */
  datatype AsTail = AnyArray | AnyType | TypeName | TypeExpr | WordOptArray

  function AsTailEnd(f: Flavor, tail: AsTail, s: string, b: nat): (r: Option<nat>)
    requires b <= |s|
    ensures r.Some? ==> b < r.value <= |s|
  {
    match tail
    case AnyArray => if At(s, b, "any[]") then Some(b + 5) else None
    case AnyType => if At(s, b, "any") then Some(b + 3) else None
    case TypeName =>
      if b < |s| && IsIdentStart(s[b]) then Some(RunEnd(s, b + 1, NameBody)) else None
    case TypeExpr =>
      if b < |s| && IsIdentStart(s[b]) then Some(RunEnd(s, b + 1, TypeBody(f, true))) else None
    case WordOptArray =>
      var c := RunEnd(s, b, Word(f));
      if c == b then None else if At(s, c, "[]") then Some(c + 2) else Some(c)
  }

  function AsMatch(f: Flavor, tail: AsTail, s: string, i: nat): (r: Option<Hit>)
    ensures r.Some? ==> i < r.value.end <= |s| && r.value.rep == ""
    ensures r.Some? ==> i < RunEnd(s, i, Space(f)) && RunEnd(s, i, Space(f)) + 2 < r.value.end
    ensures r.Some? ==> At(s, RunEnd(s, i, Space(f)), "as")
  {
    if i >= |s| then None
    else
      var a := RunEnd(s, i, Space(f));
      if a == i || !At(s, a, "as") then None
      else
        var b := RunEnd(s, a + 2, Space(f));
        if b == a + 2 then None
        else match AsTailEnd(f, tail, s, b)
          case None => None
          case Some(e) => Some(Hit(e, ""))
  }

  function AsRule(f: Flavor, tail: AsTail): (m: Matcher)
    ensures Advancing(m)
  {
    (s: string, i: nat) => AsMatch(f, tail, s, i)
  }

  /** At a position where the `as any` rule matches and `[]` follows, the `as any[]`
      rule matches too and takes the brackets with it. */
  lemma AnyArrayCoversBrackets(s: string, i: nat)
    requires AsMatch(Py, AnyType, s, i).Some?
    requires At(s, AsMatch(Py, AnyType, s, i).value.end, "[]")
    ensures AsMatch(Py, AnyArray, s, i) == Some(Hit(AsMatch(Py, AnyType, s, i).value.end + 2, ""))
  {
    var a := RunEnd(s, i, Space(Py));
    var b := RunEnd(s, a + 2, Space(Py));
    assert s[b..b + 5] == s[b..b + 3] + s[b + 3..b + 5];
  }

  // ---------------------------------------------------------------------------
  // `(function\s+\w+\s*\([^)]*\))\s*:\s*…\{` → `\1 {`

  /** The end of `function\s+\w+\s*\([^)]*\)` at `i` (just after its `)`). */
  function FunctionHeaderEnd(f: Flavor, s: string, i: nat): (r: Option<nat>)
    ensures r.Some? ==> i + 8 < r.value <= |s| && At(s, i, "function") && s[r.value - 1] == ')'
  {
    if !At(s, i, "function") then None
    else match NamedThen(f, s, i + 8, '(')
      case None => None
      case Some(c) =>
        match Find(s, c + 1, Only(')'))
        case None => None
        case Some(k) => Some(k + 1)
  }

  /** The return-type shapes: `\{[^}]*\}\s*\{` (an object type),
      `[A-Za-z_][A-Za-z0-9_.<>[\]|\s]*\{` (a named type), `[^{]+\{` (anything). */
  datatype ReturnShape = ObjectType | NamedType | AnyReturn

  /** Where the `{` that closes the return-type pattern ends, counting from just after
      the `:` at `d`. */
  function ReturnTypeEnd(shape: ReturnShape, s: string, d: nat): (r: Option<nat>)
    requires d < |s|
    ensures r.Some? ==> d + 1 < r.value <= |s| && s[r.value - 1] == '{'
  {
    var e := RunEnd(s, d + 1, Space(Py));
    match shape
    case ObjectType =>
      if e == |s| || s[e] != '{' then None
      else (match Find(s, e + 1, Only('}'))
        case None => None
        case Some(k) =>
          var g := RunEnd(s, k + 1, Space(Py));
          if g == |s| || s[g] != '{' then None else Some(g + 1))
    case NamedType =>
      if e == |s| || !IsIdentStart(s[e]) then None
      else
        var g := RunEnd(s, e + 1, TypeBody(Py, false));
        if g == |s| || s[g] != '{' then None else Some(g + 1)
    case AnyReturn =>
      match Find(s, d + 1, Only('{'))
      case None => None
      case Some(k) => if k == d + 1 then None else Some(k + 1)
  }

  /** The `:` after a function header ending at `h`. */
  function ReturnColon(s: string, h: nat): (r: Option<nat>)
    requires h <= |s|
    ensures r.Some? ==> h <= r.value < |s| && s[r.value] == ':'
    ensures r.Some? ==> forall k :: h <= k < r.value ==> IsSpace(Py, s[k])
  {
    var d := RunEnd(s, h, Space(Py));
    if d == |s| || s[d] != ':' then None else Some(d)
  }

  function ReturnTypeMatch(shape: ReturnShape, s: string, i: nat): (r: Option<Hit>)
    ensures r.Some? ==> i < r.value.end <= |s|
    ensures r.Some? ==> FunctionHeaderEnd(Py, s, i).Some?
    ensures r.Some? ==> r.value.rep == s[i..FunctionHeaderEnd(Py, s, i).value] + " {"
  {
    match FunctionHeaderEnd(Py, s, i)
    case None => None
    case Some(h) =>
      match ReturnColon(s, h)
      case None => None
      case Some(d) =>
        match ReturnTypeEnd(shape, s, d)
        case None => None
        case Some(g) => Some(Hit(g, s[i..h] + " {"))
  }

  function ReturnTypeRule(shape: ReturnShape): (m: Matcher)
    ensures Advancing(m)
  {
    (s: string, i: nat) => ReturnTypeMatch(shape, s, i)
  }

  /** After a function header ending at `h`, `: T {` with `T` non-empty and free of `{`
      loses everything between the `)` and that first `{`. */
  lemma ReturnTypeDropped(s: string, i: nat, h: nat, d: nat, k: nat)
    requires FunctionHeaderEnd(Py, s, i) == Some(h)
    requires h <= d && d + 1 < k < |s|
    requires forall j :: h <= j < d ==> IsSpace(Py, s[j])
    requires s[d] == ':' && s[k] == '{' && forall j :: d < j < k ==> s[j] != '{'
    ensures ReturnTypeMatch(AnyReturn, s, i) == Some(Hit(k + 1, s[i..h] + " {"))
  {
    RunEndAt(s, h, d, Space(Py));
    assert ReturnColon(s, h) == Some(d);
    FindAt(s, d + 1, k, Only('{'));
  }

  // ---------------------------------------------------------------------------
  // `(\w+)\s*\??\s*:\s*[^STOPS]+` → `\1`, optionally preceded by `\b`

  /** `\w+\s*\??\s*:` at `i`: the end of the name and the position of the `:`. */
  function AnnotatedName(f: Flavor, s: string, i: nat): (r: Option<(nat, nat)>)
    requires i <= |s|
    ensures r.Some? ==> i < r.value.0 <= r.value.1 < |s| && s[r.value.1] == ':'
    ensures r.Some? ==> forall k :: i <= k < r.value.0 ==> IsWord(f, s[k])
  {
    var a := RunEnd(s, i, Word(f));
    var b := RunEnd(s, a, Space(f));
    var b2 := if b < |s| && s[b] == '?' then b + 1 else b;
    var c := RunEnd(s, b2, Space(f));
    if a == i || c == |s| || s[c] != ':' then None else Some((a, c))
  }


  function AnnotationMatch(f: Flavor, stops: set<char>, boundary: bool, s: string, i: nat): (r: Option<Hit>)
    ensures r.Some? ==> i < r.value.end <= |s| && i + |r.value.rep| <= r.value.end
    ensures r.Some? ==> r.value.rep != [] && r.value.rep == s[i..i + |r.value.rep|]
    ensures r.Some? ==> forall k :: 0 <= k < |r.value.rep| ==> IsWord(f, r.value.rep[k])
    ensures r.Some? ==> r.value.end == |s| || s[r.value.end] in stops
  {
    if i >= |s| || (boundary && i > 0 && IsWord(f, s[i - 1])) then None
    else match AnnotatedName(f, s, i)
      case None => None
      case Some((a, c)) =>
        var k := match Find(s, c + 1, AnyOf(stops)) case Some(k) => k case None => |s|;
        if k == c + 1 then None else Some(Hit(k, s[i..a]))
  }

  function AnnotationRule(f: Flavor, stops: set<char>, boundary: bool): (m: Matcher)
    ensures Advancing(m)
  {
    (s: string, i: nat) => AnnotationMatch(f, stops, boundary, s, i)
  }

  /** The replacement is the name alone, so no character outside `\w` is ever added. */
  lemma AnnotationNeverAdds(f: Flavor, stops: set<char>, boundary: bool, c: char)
    requires !IsWord(f, c)
    ensures NeverAdds(AnnotationRule(f, stops, boundary), c)
  {
    forall s: string, i: nat | AnnotationMatch(f, stops, boundary, s, i).Some?
      ensures c !in AnnotationMatch(f, stops, boundary, s, i).value.rep
    {
      var rep := AnnotationMatch(f, stops, boundary, s, i).value.rep;
      assert forall k :: 0 <= k < |rep| ==> IsWord(f, rep[k]);
    }
  }

  /** `name: T` or `name?: T` (name ending at `a`, optional whitespace and `?` up to the
      `:` at `c`), where `T` is non-empty and runs to the next stop character or the
      end of the text, becomes `name`. */
  lemma AnnotationReduced(f: Flavor, stops: set<char>, boundary: bool, s: string, i: nat, a: nat, q: nat, c: nat, k: nat)
    requires i < a <= q <= c && c + 1 < k <= |s|
    requires boundary ==> i == 0 || !IsWord(f, s[i - 1])
    requires forall j :: i <= j < a ==> IsWord(f, s[j])
    requires forall j :: a <= j < q ==> IsSpace(f, s[j])
    requires q == c || (s[q] == '?' && forall j :: q < j < c ==> IsSpace(f, s[j]))
    requires s[c] == ':'
    requires forall j :: c < j < k ==> s[j] !in stops
    requires k == |s| || s[k] in stops
    ensures AnnotationMatch(f, stops, boundary, s, i) == Some(Hit(k, s[i..a]))
  {
    NameColon(f, s, i, a, q, c);
    if k < |s| {
      FindAt(s, c + 1, k, AnyOf(stops));
    } else {
      assert Find(s, c + 1, AnyOf(stops)).None?;
    }
    AnnotationFrom(f, stops, boundary, s, i, a, c, k);
  }

  lemma AnnotationFrom(f: Flavor, stops: set<char>, boundary: bool, s: string, i: nat, a: nat, c: nat, k: nat)
    requires i < a <= c && c + 1 < k <= |s|
    requires boundary ==> i == 0 || !IsWord(f, s[i - 1])
    requires AnnotatedName(f, s, i) == Some((a, c))
    requires k < |s| ==> Find(s, c + 1, AnyOf(stops)) == Some(k)
    requires k == |s| ==> Find(s, c + 1, AnyOf(stops)).None?
    ensures AnnotationMatch(f, stops, boundary, s, i) == Some(Hit(k, s[i..a]))
  {
  }

  lemma NameColon(f: Flavor, s: string, i: nat, a: nat, q: nat, c: nat)
    requires i < a <= q <= c < |s|
    requires forall j :: i <= j < a ==> IsWord(f, s[j])
    requires forall j :: a <= j < q ==> IsSpace(f, s[j])
    requires q == c || (s[q] == '?' && forall j :: q < j < c ==> IsSpace(f, s[j]))
    requires s[c] == ':'
    ensures AnnotatedName(f, s, i) == Some((a, c))
  {
    assert !IsWord(f, s[a]) by { if a < q { SpaceIsNotWord(f, s[a]); } }
    RunEndAt(s, i, a, Word(f));
    RunEndAt(s, a, q, Space(f));
    NameColonAfter(f, s, q, c);
  }

  /** From the end of the spaces after the name: an optional `?`, spaces, the colon. */
  lemma NameColonAfter(f: Flavor, s: string, q: nat, c: nat)
    requires q <= c < |s| && s[c] == ':'
    requires q == c || (s[q] == '?' && forall j :: q < j < c ==> IsSpace(f, s[j]))
    ensures RunEnd(s, if s[q] == '?' then q + 1 else q, Space(f)) == c
  {
    if q < c { RunEndAt(s, q + 1, c, Space(f)); } else { RunEndAt(s, q, c, Space(f)); }
  }

  // ---------------------------------------------------------------------------
  // `(const|let|var)\s+(\w+)\s*:\s*…` typed variable declarations

  function KeywordAt(s: string, i: nat): (r: Option<string>)
    ensures r.Some? ==> r.value in {"const", "let", "var"} && At(s, i, r.value)
  {
    if At(s, i, "const") then Some("const")
    else if At(s, i, "let") then Some("let")
    else if At(s, i, "var") then Some("var")
    else None
  }

  /** `(const|let|var)\s+(\w+)\s*:` at `i`. */
  datatype DeclHead = DeclHead(keyword: string, name: string, colon: nat)

  function DeclHeadAt(f: Flavor, s: string, i: nat): (r: Option<DeclHead>)
    ensures r.Some? ==> r.value.keyword in {"const", "let", "var"} && At(s, i, r.value.keyword)
    ensures r.Some? ==> i + |r.value.keyword| < r.value.colon < |s| && s[r.value.colon] == ':'
    ensures r.Some? ==> r.value.name != [] && forall k :: 0 <= k < |r.value.name| ==> IsWord(f, r.value.name[k])
  {
    match KeywordAt(s, i)
    case None => None
    case Some(kw) =>
      var a := i + |kw|;
      var b := RunEnd(s, a, Space(f));
      var c := RunEnd(s, b, Word(f));
      var d := RunEnd(s, c, Space(f));
      if b == a || c == b || d == |s| || s[d] != ':' then None
      else Some(DeclHead(kw, s[b..c], d))
  }

  /** `[A-Za-z_][…class…]*` followed by `term` (`=` or `;`), or `[^=]+\s*=`. */
  datatype BindingTail = TypeThen(amp: bool, term: char) | UpToEquals

  /** The end of the annotation after the `:` at `d`, just past the terminator. */
  function BindingTailEnd(f: Flavor, tail: BindingTail, s: string, d: nat): (r: Option<nat>)
    requires d < |s|
    ensures r.Some? ==> d + 1 < r.value <= |s|
    ensures r.Some? ==> s[r.value - 1] == (if tail.TypeThen? then tail.term else '=')
  {
    match tail
    case TypeThen(amp, term) =>
      var e := RunEnd(s, d + 1, Space(f));
      if e == |s| || !IsIdentStart(s[e]) then None
      else
        var g := RunEnd(s, e + 1, TypeBody(f, amp));
        if g == |s| || s[g] != term then None else Some(g + 1)
    case UpToEquals =>
      match Find(s, d + 1, Only('='))
      case None => None
      case Some(k) => if k == d + 1 then None else Some(k + 1)
  }

  /** `kw name =` (or `kw name;` when the annotation ended at `;`). */
  function BindingReplacement(h: DeclHead, tail: BindingTail): string {
    h.keyword + " " + h.name + (if tail.TypeThen? && tail.term != '=' then [tail.term] else " =")
  }

  lemma ReplacementHasNoBreak(h: DeclHead, tail: BindingTail)
    requires forall k :: 0 <= k < |h.name| ==> IsWord(Py, h.name[k])
    requires h.keyword in {"const", "let", "var"}
    requires tail.TypeThen? ==> tail.term != '\n'
    ensures '\n' !in BindingReplacement(h, tail)
  {
    assert '\n' !in h.keyword;
  }

  function TypedBindingMatch(f: Flavor, tail: BindingTail, s: string, i: nat): (r: Option<Hit>)
    ensures r.Some? ==> i < r.value.end <= |s|
    ensures r.Some? ==> DeclHeadAt(f, s, i).Some?
    ensures r.Some? ==> r.value.rep == BindingReplacement(DeclHeadAt(f, s, i).value, tail)
  {
    match DeclHeadAt(f, s, i)
    case None => None
    case Some(h) =>
      match BindingTailEnd(f, tail, s, h.colon)
      case None => None
      case Some(g) => Some(Hit(g, BindingReplacement(h, tail)))
  }

  function TypedBindingRule(f: Flavor, tail: BindingTail): (m: Matcher)
    ensures Advancing(m)
  {
    (s: string, i: nat) => TypedBindingMatch(f, tail, s, i)
  }

  /** A declaration head `kw name:` (colon at `d`) followed by a non-empty annotation
      up to the first `=` (at `k`) becomes `kw name =`. */
  lemma BindingAnnotationDropped(s: string, i: nat, b: nat, c: nat, d: nat, k: nat)
    requires KeywordAt(s, i).Some?
    requires i + |KeywordAt(s, i).value| < b < c <= d && d + 1 < k < |s|
    requires forall j :: i + |KeywordAt(s, i).value| <= j < b ==> IsSpace(Py, s[j])
    requires forall j :: b <= j < c ==> IsWord(Py, s[j])
    requires forall j :: c <= j < d ==> IsSpace(Py, s[j])
    requires s[d] == ':' && s[k] == '=' && forall j :: d < j < k ==> s[j] != '='
    ensures TypedBindingMatch(Py, UpToEquals, s, i) ==
      Some(Hit(k + 1, KeywordAt(s, i).value + " " + s[b..c] + " ="))
  {
    var kw := KeywordAt(s, i).value;
    DeclHeadFrom(s, i, b, c, d);
    FindAt(s, d + 1, k, Only('='));
    BindingFrom(s, i, DeclHead(kw, s[b..c], d), k);
  }

  lemma DeclHeadFrom(s: string, i: nat, b: nat, c: nat, d: nat)
    requires KeywordAt(s, i).Some?
    requires i + |KeywordAt(s, i).value| < b < c <= d < |s| && s[d] == ':'
    requires forall j :: i + |KeywordAt(s, i).value| <= j < b ==> IsSpace(Py, s[j])
    requires forall j :: b <= j < c ==> IsWord(Py, s[j])
    requires forall j :: c <= j < d ==> IsSpace(Py, s[j])
    ensures DeclHeadAt(Py, s, i) == Some(DeclHead(KeywordAt(s, i).value, s[b..c], d))
  {
    var kw := KeywordAt(s, i).value;
    SpaceIsNotWord(Py, s[b]);
    RunEndAt(s, i + |kw|, b, Space(Py));
    assert !IsWord(Py, s[c]) by { if c < d { SpaceIsNotWord(Py, s[c]); } }
    RunEndAt(s, b, c, Word(Py));
    RunEndAt(s, c, d, Space(Py));
  }

  lemma BindingFrom(s: string, i: nat, h: DeclHead, k: nat)
    requires DeclHeadAt(Py, s, i) == Some(h) && h.colon + 1 < k
    requires Find(s, h.colon + 1, Only('=')) == Some(k)
    ensures TypedBindingMatch(Py, UpToEquals, s, i) == Some(Hit(k + 1, h.keyword + " " + h.name + " ="))
  {
  }

  /** `line.strip().startswith('//') or line.strip().startswith('*')`. */
  predicate IsCommentLine(line: string) {
    At(Trim(Py, line), 0, "//") || At(Trim(Py, line), 0, "*")
  }

  /** `re.match(r'^\s*(const|let|var)\s+\w+\s*:', line)`. */
  predicate StartsTypedDeclaration(line: string) {
    var a := RunEnd(line, 0, Space(Py));
    match KeywordAt(line, a)
    case None => false
    case Some(kw) =>
      var b := RunEnd(line, a + |kw|, Space(Py));
      var c := RunEnd(line, b, Word(Py));
      var d := RunEnd(line, c, Space(Py));
      b > a + |kw| && c > b && d < |line| && line[d] == ':'
  }

  // ---------------------------------------------------------------------------
  // `\b(private|public|protected|readonly)\s+` → ''

  function ModifierAt(s: string, i: nat): (r: Option<string>)
    ensures r.Some? ==> r.value in {"private", "public", "protected", "readonly"} && At(s, i, r.value)
  {
    if At(s, i, "private") then Some("private")
    else if At(s, i, "public") then Some("public")
    else if At(s, i, "protected") then Some("protected")
    else if At(s, i, "readonly") then Some("readonly")
    else None
  }

  function ModifierMatch(f: Flavor, s: string, i: nat): (r: Option<Hit>)
    ensures r.Some? ==> i < r.value.end <= |s| && r.value.rep == ""
    ensures r.Some? ==> ModifierAt(s, i).Some? && (i == 0 || !IsWord(f, s[i - 1]))
    ensures r.Some? ==> i + |ModifierAt(s, i).value| < r.value.end
    ensures r.Some? ==> forall k :: i + |ModifierAt(s, i).value| <= k < r.value.end ==> IsSpace(f, s[k])
    ensures r.Some? ==> r.value.end == |s| || !IsSpace(f, s[r.value.end])
  {
    if i > |s| || (i > 0 && IsWord(f, s[i - 1])) then None
    else match ModifierAt(s, i)
      case None => None
      case Some(kw) =>
        var e := RunEnd(s, i + |kw|, Space(f));
        if e == i + |kw| then None else Some(Hit(e, ""))
  }

  function ModifierRule(f: Flavor): (m: Matcher)
    ensures Advancing(m)
  {
    (s: string, i: nat) => ModifierMatch(f, s, i)
  }

  // ---------------------------------------------------------------------------
  // `<[A-Za-z_][A-Za-z0-9_,\s<>[\]|&]*>` → ''

  function GenericsMatch(f: Flavor, s: string, i: nat): (r: Option<Hit>)
    ensures r.Some? ==> i + 2 < r.value.end <= |s| && r.value.rep == ""
    ensures r.Some? ==> s[i] == '<' && IsIdentStart(s[i + 1]) && s[r.value.end - 1] == '>'
    ensures r.Some? ==> forall k :: i + 1 <= k < r.value.end ==> IsGenericChar(f, s[k])
  {
    if i + 1 >= |s| || s[i] != '<' || !IsIdentStart(s[i + 1]) then None
    else
      var q := RunEnd(s, i + 2, GenericBody(f));
      match FindLast(s, i + 2, q, Only('>'))
      case None => None
      case Some(t) => Some(Hit(t + 1, ""))
  }

  function GenericsRule(f: Flavor): (m: Matcher)
    ensures Advancing(m)
  {
    (s: string, i: nat) => GenericsMatch(f, s, i)
  }

  // ---------------------------------------------------------------------------
  // `^\s*(private|public|protected|readonly)?\s*\w+\s*:\s*[^=;]+;\s*$` (multi-line)
  // and its form without the modifier group → ''

  /** `\w+\s*:` from `p`: the position of the `:`. */
  function ColonAfterWord(f: Flavor, s: string, p: nat): (r: Option<nat>)
    requires p <= |s|
    ensures r.Some? ==> p < r.value < |s| && s[r.value] == ':'
  {
    var w := RunEnd(s, p, Word(f));
    var c := RunEnd(s, w, Space(f));
    if w > p && c < |s| && s[c] == ':' then Some(c) else None
  }

  function PropertyLineMatch(f: Flavor, modifiers: bool, s: string, i: nat): (r: Option<Hit>)
    ensures r.Some? ==> i < r.value.end <= |s| && r.value.rep == ""
    ensures r.Some? ==> AtLineStart(f, s, i)
    ensures r.Some? ==> r.value.end == |s| || IsLineBreak(f, s[r.value.end])
  {
    if i > |s| || !AtLineStart(f, s, i) then None
    else
      var a := RunEnd(s, i, Space(f));
      var withModifier :=
        if !modifiers then None
        else match ModifierAt(s, a)
          case None => None
          case Some(kw) => ColonAfterWord(f, s, RunEnd(s, a + |kw|, Space(f)));
      var colon := if withModifier.Some? then withModifier else ColonAfterWord(f, s, a);
      match colon
      case None => None
      case Some(c) =>
        match Find(s, c + 1, AnyOf({'=', ';'}))
        case None => None
        case Some(k) =>
          if s[k] != ';' || k == c + 1 then None
          else match SpacesToLineEnd(f, s, k + 1)
            case None => None
            case Some(g) => Some(Hit(g, ""))
  }

  function PropertyLineRule(f: Flavor, modifiers: bool): (m: Matcher)
    ensures Advancing(m)
  {
    (s: string, i: nat) => PropertyLineMatch(f, modifiers, s, i)
  }

  // ---------------------------------------------------------------------------
  // JavaScript rules shared by manual-build.js and post-build.js

  /** `export\s+` → '' (anywhere in the text). */
  function ExportWordMatch(s: string, i: nat): (r: Option<Hit>)
    ensures r.Some? ==> i + 6 < r.value.end <= |s| && r.value.rep == "" && At(s, i, "export")
    ensures r.Some? ==> forall k :: i + 6 <= k < r.value.end ==> IsSpace(Js, s[k])
    ensures r.Some? ==> r.value.end == |s| || !IsSpace(Js, s[r.value.end])
  {
    if !At(s, i, "export") then None
    else
      var e := RunEnd(s, i + 6, Space(Js));
      if e == i + 6 then None else Some(Hit(e, ""))
  }

  function ExportWordRule(): (m: Matcher)
    ensures Advancing(m)
  {
    (s: string, i: nat) => ExportWordMatch(s, i)
  }

  /** The last `from` that starts at or after `lo` and ends by `hi`. */
  function LastFrom(s: string, lo: nat, hi: nat): (r: Option<nat>)
    requires hi <= |s|
    ensures r.Some? ==> lo <= r.value && r.value + 4 <= hi && At(s, r.value, "from")
    ensures r.Some? ==> forall k :: r.value < k && k + 4 <= hi ==> !At(s, k, "from")
    ensures r.None? ==> forall k :: lo <= k && k + 4 <= hi ==> !At(s, k, "from")
    decreases hi
  {
    if hi < lo + 4 then None
    else if At(s, hi - 4, "from") then Some(hi - 4)
    else LastFrom(s, lo, hi - 1)
  }

  /** `import.*from.*;\s*` → '': the greedy `.*`s put `from` as late as possible and
      the `;` at the last one of the line; neither `.*` crosses a line terminator. */
  /** The `;` at `semi` is on the line of the `import` at `i`, and only whitespace
      follows it up to `e`. */
  predicate SemicolonEndsImport(s: string, i: nat, semi: nat, e: nat) {
    i + 6 < semi < e <= |s| && s[semi] == ';'
    && (forall k :: i + 6 <= k < semi ==> !IsLineBreak(Js, s[k]))
    && (forall k :: semi < k < e ==> IsSpace(Js, s[k]))
  }

  function ImportFromMatch(s: string, i: nat): (r: Option<Hit>)
    ensures r.Some? ==> i + 6 < r.value.end <= |s| && r.value.rep == "" && At(s, i, "import")
    ensures r.Some? ==> exists semi :: SemicolonEndsImport(s, i, semi, r.value.end)
  {
    if !At(s, i, "import") then None
    else
      var le := RunEnd(s, i + 6, NotLineBreak(Js));
      match FindLast(s, i + 6, le, Only(';'))
      case None => None
      case Some(semi) =>
        match LastFrom(s, i + 6, semi)
        case None => None
        case Some(_) =>
          assert forall k :: i <= k < i + 6 ==> s[k] == "import"[k - i];
          var e := RunEnd(s, semi + 1, Space(Js));
          assert SemicolonEndsImport(s, i, semi, e);
          Some(Hit(e, ""))
  }

  function ImportFromRule(): (m: Matcher)
    ensures Advancing(m)
  {
    (s: string, i: nat) => ImportFromMatch(s, i)
  }

  /** `["']use strict["'];\s*` → ''. */
  function UseStrictMatch(s: string, i: nat): (r: Option<Hit>)
    ensures r.Some? ==> i + 13 <= r.value.end <= |s| && r.value.rep == ""
    ensures r.Some? ==> s[i] in {'"', '\''} && At(s, i + 1, "use strict") && s[i + 11] in {'"', '\''} && s[i + 12] == ';'
  {
    if i + 13 > |s| || s[i] !in {'"', '\''} || !At(s, i + 1, "use strict") || s[i + 11] !in {'"', '\''} || s[i + 12] != ';'
    then None
    else Some(Hit(RunEnd(s, i + 13, Space(Js)), ""))
  }

  function UseStrictRule(): (m: Matcher)
    ensures Advancing(m)
  {
    (s: string, i: nat) => UseStrictMatch(s, i)
  }
}
