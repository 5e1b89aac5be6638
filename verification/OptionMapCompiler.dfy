/** Compiling option maps, with the caches that remember what was compiled before. */
module OptionMapCompiler {
  import opened OptionMapSyntax
  import opened OptionMapGrammar
  import opened OptionMapLexer
  import opened OptionMapParser
  import opened OptionMapPatch
  import opened OptionMapEvaluator

  datatype OptionName = ReasoningLevel | MaxOutputTokens

  function VariableName(name: OptionName): string {
    match name
    case ReasoningLevel => "reasoningLevel"
    case MaxOutputTokens => "maxOutputTokens"
  }

  /** What the host does with code units and numerals. */
  datatype Host = Host(units: CodeUnits, read: string -> Number, safe: Number -> bool)

  function DialectOf(host: Host, name: OptionName): Dialect {
    Dialect(VariableName(name), host.read, host.safe)
  }

  datatype CompileError = Empty | Lexical(lexProblem: LexProblem) | Syntactic(problem: Problem) | NoObjectResult

  datatype Compilation = Compiled(source: string, expression: Expr) | Rejected(error: CompileError)

  datatype Expression = Expression(value: Expr) | Invalid(error: CompileError)

  function TrimStart(s: string): string {
    if s != "" && Space(s[0]) then TrimStart(s[1..]) else s
  }

  function TrimEnd(s: string): string {
    if s != "" && Space(s[|s| - 1]) then TrimEnd(s[..|s| - 1]) else s
  }

  function Trim(s: string): string {
    TrimEnd(TrimStart(s))
  }

  function CacheKey(source: string, name: OptionName): string {
    VariableName(name) + "\0" + source
  }

  /** Different sources or variables never share a cache entry. */
  lemma CacheKeyInjective(s: string, m: OptionName, t: string, n: OptionName)
    ensures CacheKey(s, m) == CacheKey(t, n) <==> s == t && m == n
  {
    var k, l := CacheKey(s, m), CacheKey(t, n);
    if k == l {
      assert k[0] == VariableName(m)[0] && l[0] == VariableName(n)[0];
      assert m == n;
      assert k[|VariableName(m)| + 1..] == s && l[|VariableName(n)| + 1..] == t;
    }
  }

  // Compilation without caches

  function ParseSource(host: Host, source: string, name: OptionName): (r: Expression)
    ensures r.Expression? ==> Sensible(DialectOf(host, name), r.value)
  {
    match Tokenize(host.units, source, 0)
    case LexFailed(p) => Invalid(Lexical(p))
    case Tokens(tokens) =>
      match ParseAll(DialectOf(host, name), tokens)
      case Failed(p) => Invalid(Syntactic(p))
      case Parsed(e, _) => Expression(e)
  }

  /** Every branch of the expression is an object display. */
  predicate ObjectResult(e: Expr) {
    e.Object? || (e.Conditional? && ObjectResult(e.whenTrue) && ObjectResult(e.whenFalse))
  }

  function CompileExpression(host: Host, source: string, name: OptionName): Compilation {
    var normalized := Trim(source);
    if normalized == "" then Rejected(Empty)
    else
      match ParseSource(host, normalized, name)
      case Invalid(error) => Rejected(error)
      case Expression(e) => Compiled(normalized, e)
  }

  function CompileMap(host: Host, source: string, name: OptionName): Compilation {
    match CompileExpression(host, source, name)
    case Rejected(error) => Rejected(error)
    case Compiled(normalized, e) => if ObjectResult(e) then Compiled(normalized, e) else Rejected(NoObjectResult)
  }

  /** Running an option map: the result is checked to be an object. */
  function RunMap(a: Arithmetic, e: Expr, input: InputValue): Evaluation {
    var r := EvaluateRestrictedCel(a, e, input);
    if r.Value? && !r.value.JsonObject? then Raised(NotAnObject) else r
  }

  // The compiler with its caches

  class Compiler {
    const host: Host
    var programCache: map<string, Compilation>
    var optionMapCache: map<string, Compilation>
    var expressionCache: map<string, Expr>

    constructor (host: Host)
      ensures Valid() && this.host == host
    {
      this.host := host;
      programCache, optionMapCache, expressionCache := map[], map[], map[];
    }

    /** Whatever is cached is what compiling again would give. */
    ghost predicate Valid()
      reads this
    {
      && (forall s, n :: CacheKey(s, n) in expressionCache ==>
            ParseSource(host, s, n) == Expression(expressionCache[CacheKey(s, n)]))
      && (forall s, n :: CacheKey(Trim(s), n) in programCache ==>
            CompileExpression(host, s, n) == programCache[CacheKey(Trim(s), n)])
      && (forall s, n :: CacheKey(Trim(s), n) in optionMapCache ==>
            CompileMap(host, s, n) == optionMapCache[CacheKey(Trim(s), n)])
    }

    method ParseExpression(source: string, name: OptionName) returns (r: Expression)
      requires Valid()
      modifies `expressionCache
      ensures Valid() && r == ParseSource(host, source, name)
    {
      hide Tokenize, ParseAll, CompileExpression, CompileMap, Sensible, CacheKey, Lexed;
      var cacheKey := CacheKey(source, name);
      if cacheKey in expressionCache {
        return Expression(expressionCache[cacheKey]);
      }
      var lexing := TokenizeRestrictedCel(host.units, source);
      if lexing.LexFailed? {
        return Invalid(Lexical(lexing.problem));
      }
      var parser := new Parser(lexing.tokens, DialectOf(host, name));
      var result := parser.ParseProgram();
      if result.Thrown? {
        return Invalid(Syntactic(result.problem));
      }
      forall s, n | CacheKey(s, n) == cacheKey ensures s == source && n == name {
        CacheKeyInjective(s, n, source, name);
      }
      expressionCache := expressionCache[cacheKey := result.value];
      return Expression(result.value);
    }

    method CompileRestrictedCel(source: string, name: OptionName) returns (r: Compilation)
      requires Valid()
      modifies this
      ensures Valid() && r == CompileExpression(host, source, name)
    {
      var normalized := Trim(source);
      if normalized == "" {
        return Rejected(Empty);
      }
      var cacheKey := CacheKey(normalized, name);
      if cacheKey in programCache {
        return programCache[cacheKey];
      }
      var expression := ParseExpression(normalized, name);
      if expression.Invalid? {
        return Rejected(expression.error);
      }
      forall s, n | CacheKey(Trim(s), n) == cacheKey ensures Trim(s) == normalized && n == name {
        CacheKeyInjective(Trim(s), n, normalized, name);
      }
      r := Compiled(normalized, expression.value);
      programCache := programCache[cacheKey := r];
    }

    method CompileModelOptionMap(source: string, name: OptionName) returns (r: Compilation)
      requires Valid()
      modifies this
      ensures Valid() && r == CompileMap(host, source, name)
    {
      var normalized := Trim(source);
      if normalized == "" {
        return Rejected(Empty);
      }
      var cacheKey := CacheKey(normalized, name);
      if cacheKey in optionMapCache {
        return optionMapCache[cacheKey];
      }
      var expression := ParseExpression(normalized, name);
      if expression.Invalid? {
        return Rejected(expression.error);
      }
      if !ObjectResult(expression.value) {
        return Rejected(NoObjectResult);
      }
      forall s, n | CacheKey(Trim(s), n) == cacheKey ensures Trim(s) == normalized && n == name {
        CacheKeyInjective(Trim(s), n, normalized, name);
      }
      r := Compiled(normalized, expression.value);
      optionMapCache := optionMapCache[cacheKey := r];
    }
  }

  // What compiled maps guarantee

  lemma {:induction false} ObjectResultEvaluates(a: Arithmetic, e: Expr, input: Json)
    requires ObjectResult(e)
    ensures var r := Eval(a, e, input); r.Value? ==> r.value.JsonObject?
  {
    if e.Object? {
      EntriesGiveObject(a, e, input, 0, map[]);
    } else {
      ObjectResultEvaluates(a, e.whenTrue, input);
      ObjectResultEvaluates(a, e.whenFalse, input);
    }
  }

  /**
   Running an accepted option map raises an evaluation fault or gives an object in which every number is JSON-safe. The
   check for an object and the branch for unknown operators are never taken.
   */
  lemma AcceptedMapsAreSound(host: Host, a: Arithmetic, source: string, name: OptionName, input: InputValue)
    requires CompileMap(host, source, name).Compiled? && a.safe == host.safe
    ensures var r := RunMap(a, CompileMap(host, source, name).expression, input);
      && r != Raised(NotAnObject) && r != Raised(UnsupportedOperator)
      && (r.Value? ==> r.value.JsonObject? && Safe(a, r.value))
  {
    var e := CompileMap(host, source, name).expression;
    OperatorsSupported(a, DialectOf(host, name), e, AsJson(input));
    ObjectResultEvaluates(a, e, AsJson(input));
    if !(input.InputNumber? && !a.safe(input.number)) {
      EvaluatesSafely(a, DialectOf(host, name), e, AsJson(input));
    }
  }

  /** The expressions that may give the result. */
  function Outcomes(e: Expr): seq<Expr> {
    if e.Conditional? then Outcomes(e.whenTrue) + Outcomes(e.whenFalse) else [e]
  }

  lemma {:induction false} ObjectResultIff(e: Expr)
    ensures ObjectResult(e) <==> forall x :: x in Outcomes(e) ==> x.Object?
  {
    if e.Conditional? {
      ObjectResultIff(e.whenTrue);
      ObjectResultIff(e.whenFalse);
    } else {
      assert e in Outcomes(e);
    }
  }

  /** What is left has no white space at its ends, and only white space was taken off. */
  ghost predicate Stripped(s: string, t: string) {
    && (t != "" ==> !Space(t[0]) && !Space(t[|t| - 1]))
    && exists before: string, after: string ::
         s == before + t + after && (forall c :: c in before ==> Space(c)) && forall c :: c in after ==> Space(c)
  }

  lemma {:induction false} StartStripped(s: string) returns (before: string)
    ensures s == before + TrimStart(s) && forall c :: c in before ==> Space(c)
    ensures TrimStart(s) != "" ==> !Space(TrimStart(s)[0])
  {
    before := "";
    if s != "" && Space(s[0]) {
      var more := StartStripped(s[1..]);
      before := [s[0]] + more;
      assert s == [s[0]] + s[1..];
    }
  }

  lemma {:induction false} EndStripped(s: string) returns (after: string)
    ensures s == TrimEnd(s) + after && forall c :: c in after ==> Space(c)
    ensures TrimEnd(s) != "" ==> !Space(TrimEnd(s)[|TrimEnd(s)| - 1])
    decreases |s|
  {
    after := "";
    if s != "" && Space(s[|s| - 1]) {
      var more := EndStripped(s[..|s| - 1]);
      after := more + [s[|s| - 1]];
      assert s == s[..|s| - 1] + [s[|s| - 1]];
    }
  }

  lemma TrimStrips(s: string)
    ensures Stripped(s, Trim(s))
  {
    hide TrimStart, TrimEnd, Space;
    var before := StartStripped(s);
    var after := EndStripped(TrimStart(s));
    var t := Trim(s);
    assert TrimStart(s) == t + after;
    assert before + (t + after) == before + t + after;
    if t != "" { assert TrimStart(s)[0] == t[0]; }
  }

  /** The value of the expression for a text or a JSON-safe number; any other number is refused. */
  predicate Runs(a: Arithmetic, e: Expr, input: InputValue, r: Evaluation) {
    match input
    case InputText(t) => r == Eval(a, e, JsonText(t))
    case InputNumber(n) => r == if a.safe(n) then Eval(a, e, JsonNumber(n)) else Raised(UnsafeResult)
  }

  /**
   A map is accepted exactly when the stripped text is not empty and denotes an expression all of whose outcomes are
   object displays; running it gives the value of that expression, after a check of the input.
   */
  lemma AcceptedExactlyWhen(host: Host, a: Arithmetic, source: string, name: OptionName, input: InputValue)
    ensures var r, p := CompileMap(host, source, name), ParseSource(host, Trim(source), name);
      && Stripped(source, Trim(source))
      && (r.Compiled? <==> Trim(source) != "" && p.Expression? && forall x :: x in Outcomes(p.value) ==> x.Object?)
      && (r.Compiled? ==>
            r.source == Trim(source) && r.expression == p.value && Runs(a, p.value, input, RunMap(a, r.expression, input)))
      && (r.Rejected? ==>
            r.error == if Trim(source) == "" then Empty else if p.Invalid? then p.error else NoObjectResult)
  {
    hide ParseSource, Trim, ObjectResult, Outcomes, Eval, Stripped;
    TrimStrips(source);
    var p := ParseSource(host, Trim(source), name);
    if p.Expression? {
      ObjectResultIff(p.value);
      if ObjectResult(p.value) {
        ObjectResultEvaluates(a, p.value, AsJson(input));
      }
    }
  }

  // The two variables

  lemma {:induction false} ReadsOn(source: string, offset: nat)
    requires offset <= |source| && forall k :: offset <= k < |source| ==> WordCharacter(source[k])
    ensures ReadWhile(source, offset, WordCharacter) == |source|
    decreases |source| - offset
  {
    if offset < |source| { ReadsOn(source, offset + 1); }
  }

  lemma ReadsWord(u: CodeUnits, name: string)
    requires name != "" && Letter(name[0]) && forall k :: 0 <= k < |name| ==> WordCharacter(name[k])
    ensures !Space(name[0]) && ReadToken(u, name, 0) == (Tokens([Token(Identifier, name, 0, |name|)]), |name|)
  {
    ReadsOn(name, 1);
    hide ReadWhile, NumberEnd, ReadString, DoubleOperator, SingleOperator, PunctuationMark;
    assert name[0..|name|] == name;
  }

  lemma ReadsName(u: CodeUnits, name: string)
    requires name != "" && Letter(name[0]) && forall k :: 0 <= k < |name| ==> WordCharacter(name[k])
    ensures Tokenize(u, name, 0)
         == Tokens([Token(Identifier, name, 0, |name|), Token(Eof, "", |name|, |name|)])
  {
    hide Lexed, ReadToken, Space, Letter, WordCharacter;
    ReadsWord(u, name);
    assert Tokenize(u, name, |name|) == Tokens([Token(Eof, "", |name|, |name|)]);
  }

  lemma {:induction false} ParsesName(d: Dialect, tokens: seq<Token>, level: nat)
    requires Lexed(tokens) && |tokens| == 2 && tokens[0].kind.Identifier? && tokens[0].value == d.variable
    requires level <= PRIMARY
    ensures Parse(d, tokens, level, 0) == Parsed(Input, 1)
    decreases PRIMARY - level
  {
    hide Sensible, Texts, Quotes;
    if level < PRIMARY { ParsesName(d, tokens, level + 1); }
  }

  /** An option map mentions its option by this name. */
  lemma VariablesMean(host: Host, name: OptionName)
    ensures name.ReasoningLevel? ==> ParseSource(host, "reasoningLevel", name) == Expression(Input)
    ensures name.MaxOutputTokens? ==> ParseSource(host, "maxOutputTokens", name) == Expression(Input)
  {
    var text := VariableName(name);
    NamesAreWords(name);
    ReadsName(host.units, text);
    hide Tokenize, Sensible;
    ParsesName(DialectOf(host, name), Tokenize(host.units, text, 0).tokens, CONDITIONAL);
  }

  lemma NamesAreWords(name: OptionName)
    ensures var text := VariableName(name);
      Letter(text[0]) && forall k :: 0 <= k < |text| ==> WordCharacter(text[k])
  {
  }
}
