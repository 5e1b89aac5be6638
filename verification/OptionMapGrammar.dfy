/**
 What the option-map parser returns when it stands at a given token. Comparing values only, as the parser does, lets a
 string token pass for punctuation.
 */
module OptionMapGrammar {
  import opened OptionMapSyntax

  datatype Problem =
    | MemberAccess(offset: nat)
    | FunctionCall(offset: nat)
    | Unexpected(value: string, offset: nat)
    | Expected(value: string, offset: nat)
    | UnsafeNumber(offset: nat)
    | UnknownIdentifier(value: string, offset: nat)
    | KeyNotString(offset: nat)
    | DuplicateKey(value: string, offset: nat)

  /** `next` is the index of the first token that is left. */
  datatype Outcome = Parsed(value: Expr, next: nat) | Failed(problem: Problem)

  /** What the tokenizer returns: one end marker, last, with an empty value. */
  ghost predicate Lexed(tokens: seq<Token>) {
    && tokens != [] && tokens[|tokens| - 1].kind.Eof? && tokens[|tokens| - 1].value == ""
    && forall k :: 0 <= k < |tokens| - 1 ==> !tokens[k].kind.Eof?
  }

  /** The number of string tokens before index `i`. */
  function Quotes(tokens: seq<Token>, i: nat): nat
    requires i <= |tokens|
  {
    if i == 0 then 0 else Quotes(tokens, i - 1) + if tokens[i - 1].kind.Quoted? then 1 else 0
  }

  /** The number of string literals and object keys of a tree. */
  function Texts(e: Expr): nat
    decreases e, 1, 0
  {
    match e
    case Text(_) => 1
    case Array(es) => TextsOfElements(e, |es|)
    case Object(entries) => TextsOfEntries(e, |entries|)
    case Unary(_, x) => Texts(x)
    case Binary(_, l, r) => Texts(l) + Texts(r)
    case Conditional(c, t, f) => Texts(c) + Texts(t) + Texts(f)
    case _ => 0
  }

  function TextsOfElements(e: Expr, k: nat): nat
    requires e.Array? && k <= |e.elements|
    decreases e, 0, k
  {
    if k == 0 then 0 else TextsOfElements(e, k - 1) + Texts(e.elements[k - 1])
  }

  function TextsOfEntries(e: Expr, k: nat): nat
    requires e.Object? && k <= |e.entries|
    decreases e, 0, k
  {
    if k == 0 then 0
    else
      assert e.entries[k - 1].value < e.entries[k - 1] < e;
      TextsOfEntries(e, k - 1) + 1 + Texts(e.entries[k - 1].value)
  }

  lemma {:induction false} TextsOfPrefix(es: seq<Expr>, x: Expr, k: nat)
    requires k <= |es|
    ensures TextsOfElements(Array(es + [x]), k) == TextsOfElements(Array(es), k)
  {
    if k > 0 { TextsOfPrefix(es, x, k - 1); }
  }

  lemma {:induction false} TextsOfFormerEntries(entries: seq<Entry>, x: Entry, k: nat)
    requires k <= |entries|
    ensures TextsOfEntries(Object(entries + [x]), k) == TextsOfEntries(Object(entries), k)
  {
    if k > 0 { TextsOfFormerEntries(entries, x, k - 1); }
  }

  lemma TextsAppended(es: seq<Expr>, x: Expr)
    ensures Texts(Array(es + [x])) == Texts(Array(es)) + Texts(x)
  {
    TextsOfPrefix(es, x, |es|);
  }

  lemma EntryTextsAppended(entries: seq<Entry>, x: Entry)
    ensures Texts(Object(entries + [x])) == Texts(Object(entries)) + 1 + Texts(x.value)
  {
    TextsOfFormerEntries(entries, x, |entries|);
  }

  ghost predicate DistinctKeys(entries: seq<Entry>) {
    forall j, k :: 0 <= j < k < |entries| ==> entries[j].key != entries[k].key
  }

  /** Known operators, JSON-safe literals, distinct keys. */
  ghost predicate Sensible(d: Dialect, e: Expr)
    decreases e
  {
    match e
    case Num(n) => d.safe(n)
    case Array(es) => forall k :: 0 <= k < |es| ==> Sensible(d, es[k])
    case Object(entries) => DistinctKeys(entries) && forall k :: 0 <= k < |entries| ==> Sensible(d, entries[k].value)
    case Unary(op, x) => Prefix(op) && Sensible(d, x)
    case Binary(op, l, r) => Rank(op) > 0 && Sensible(d, l) && Sensible(d, r)
    case Conditional(c, t, f) => Sensible(d, c) && Sensible(d, t) && Sensible(d, f)
    case _ => true
  }

  /**
   A parse from `i` took tokens, made no more string literals and keys than it took string tokens, and made a sensible
   tree; `done` is what was made before.
   */
  ghost predicate Sound(d: Dialect, tokens: seq<Token>, i: nat, done: Expr, r: Outcome)
    requires i < |tokens|
  {
    r.Parsed? ==>
      && i < r.next < |tokens| && Texts(r.value) + Quotes(tokens, i) <= Texts(done) + Quotes(tokens, r.next)
      && (Sensible(d, done) ==> Sensible(d, r.value))
  }

  predicate HasKey(entries: seq<Entry>, key: string) {
    exists k :: 0 <= k < |entries| && entries[k].key == key
  }

  function Parse(d: Dialect, tokens: seq<Token>, level: nat, i: nat): (r: Outcome)
    requires Lexed(tokens) && i < |tokens| && level <= PRIMARY
    ensures Sound(d, tokens, i, Null, r)
    decreases |tokens| - i, 1, 2 * (PRIMARY - level)
  {
    if level == CONDITIONAL then ParseConditional(d, tokens, i)
    else if level < UNARY then
      match Parse(d, tokens, level + 1, i)
      case Parsed(left, j) => ParseOps(d, tokens, level, left, j)
      case Failed(p) => Failed(p)
    else if level == UNARY then
      if tokens[i].kind.Operator? && Prefix(tokens[i].value) then
        match Parse(d, tokens, UNARY, i + 1)
        case Parsed(x, j) => Parsed(Unary(tokens[i].value, x), j)
        case Failed(p) => Failed(p)
      else Parse(d, tokens, PRIMARY, i)
    else ParsePrimary(d, tokens, i)
  }

  function ParseConditional(d: Dialect, tokens: seq<Token>, i: nat): (r: Outcome)
    requires Lexed(tokens) && i < |tokens|
    ensures Sound(d, tokens, i, Null, r)
    decreases |tokens| - i, 1, 15
  {
    match Parse(d, tokens, 1, i)
    case Failed(p) => Failed(p)
    case Parsed(c, j) =>
      if tokens[j].value != "?" then Parsed(c, j)
      else
        match Parse(d, tokens, CONDITIONAL, j + 1)
        case Failed(p) => Failed(p)
        case Parsed(t, k) =>
          if tokens[k].value != ":" then Failed(Expected(":", tokens[k].offset))
          else
            match Parse(d, tokens, CONDITIONAL, k + 1)
            case Failed(p) => Failed(p)
            case Parsed(f, n) => Parsed(Conditional(c, t, f), n)
  }

  /** Operators of one precedence, from left to right. */
  function ParseOps(d: Dialect, tokens: seq<Token>, level: nat, left: Expr, i: nat): (r: Outcome)
    requires Lexed(tokens) && i < |tokens| && 0 < level < UNARY
    ensures r.Parsed? ==>
      && i <= r.next < |tokens| && Texts(r.value) + Quotes(tokens, i) <= Texts(left) + Quotes(tokens, r.next)
      && (Sensible(d, left) ==> Sensible(d, r.value))
    decreases |tokens| - i, 0
  {
    if !tokens[i].kind.Operator? || Rank(tokens[i].value) != level then Parsed(left, i)
    else
      match Parse(d, tokens, level + 1, i + 1)
      case Failed(p) => Failed(p)
      case Parsed(right, j) => ParseOps(d, tokens, level, Binary(tokens[i].value, left, right), j)
  }

  function ParseWord(d: Dialect, token: Token, after: Token, next: nat): Outcome {
    if after.value == "(" then Failed(FunctionCall(after.offset))
    else if token.value == d.variable then Parsed(Input, next)
    else if token.value == "true" || token.value == "false" then Parsed(Truth(token.value == "true"), next)
    else if token.value == "null" then Parsed(Null, next)
    else Failed(UnknownIdentifier(token.value, token.offset))
  }

  function ParsePrimary(d: Dialect, tokens: seq<Token>, i: nat): (r: Outcome)
    requires Lexed(tokens) && i < |tokens|
    ensures Sound(d, tokens, i, Null, r)
    decreases |tokens| - i, 0
  {
    var token := tokens[i];
    if token.kind.Numeral? then
      if d.safe(d.read(token.value)) then Parsed(Num(d.read(token.value)), i + 1)
      else Failed(UnsafeNumber(token.offset))
    else if token.kind.Quoted? then Parsed(Text(token.value), i + 1)
    else if token.kind.Identifier? then ParseWord(d, token, tokens[i + 1], i + 1)
    else if token.value == "(" then
      match Parse(d, tokens, CONDITIONAL, i + 1)
      case Failed(p) => Failed(p)
      case Parsed(e, j) =>
        if tokens[j].value == ")" then Parsed(e, j + 1) else Failed(Expected(")", tokens[j].offset))
    else if token.value == "[" then
      if tokens[i + 1].value == "]" then Parsed(Array([]), i + 2) else ParseElements(d, tokens, [], i + 1)
    else if token.value == "{" then
      if tokens[i + 1].value == "}" then Parsed(Object([]), i + 2) else ParseEntries(d, tokens, [], i + 1)
    else Failed(Unexpected(token.value, token.offset))
  }

  function ParseElements(d: Dialect, tokens: seq<Token>, done: seq<Expr>, i: nat): (r: Outcome)
    requires Lexed(tokens) && i < |tokens|
    ensures Sound(d, tokens, i, Array(done), r)
    decreases |tokens| - i, 2
  {
    match Parse(d, tokens, CONDITIONAL, i)
    case Failed(p) => Failed(p)
    case Parsed(x, j) =>
      TextsAppended(done, x);
      if tokens[j].value == "," then ParseElements(d, tokens, done + [x], j + 1)
      else if tokens[j].value == "]" then Parsed(Array(done + [x]), j + 1)
      else Failed(Expected("]", tokens[j].offset))
  }

  function ParseEntries(d: Dialect, tokens: seq<Token>, done: seq<Entry>, i: nat): (r: Outcome)
    requires Lexed(tokens) && i < |tokens|
    ensures Sound(d, tokens, i, Object(done), r)
    decreases |tokens| - i, 2
  {
    if !tokens[i].kind.Quoted? then Failed(KeyNotString(tokens[i].offset))
    else if HasKey(done, tokens[i].value) then Failed(DuplicateKey(tokens[i].value, tokens[i].offset))
    else if tokens[i + 1].value != ":" then Failed(Expected(":", tokens[i + 1].offset))
    else
      match Parse(d, tokens, CONDITIONAL, i + 2)
      case Failed(p) => Failed(p)
      case Parsed(x, j) =>
        var entry := Entry(tokens[i].value, x);
        EntryTextsAppended(done, entry);
        assert Quotes(tokens, i + 1) == Quotes(tokens, i) + 1;
        if tokens[j].value == "," then ParseEntries(d, tokens, done + [entry], j + 1)
        else if tokens[j].value == "}" then Parsed(Object(done + [entry]), j + 1)
        else Failed(Expected("}", tokens[j].offset))
  }

  function ParseAll(d: Dialect, tokens: seq<Token>): (r: Outcome)
    requires Lexed(tokens)
    ensures r.Parsed? ==> Sensible(d, r.value)
  {
    match Parse(d, tokens, CONDITIONAL, 0)
    case Failed(p) => Failed(p)
    case Parsed(e, j) =>
      if tokens[j].kind.Eof? then Parsed(e, j)
      else if tokens[j].value == "." then Failed(MemberAccess(tokens[j].offset))
      else if tokens[j].value == "(" then Failed(FunctionCall(tokens[j].offset))
      else Failed(Unexpected(tokens[j].value, tokens[j].offset))
  }
}
