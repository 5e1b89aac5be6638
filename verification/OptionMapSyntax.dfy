/** Tokens and expression trees of the option-map language, and the minimally parenthesised form of a tree. */
module OptionMapSyntax {

  /** The numbers of the host language; what is done with them is given by a Dialect or an Arithmetic. */
  type Number(==, !new)

  datatype TokenKind = Identifier | Quoted | Numeral | Operator | Punctuation | Eof

  datatype Token = Token(kind: TokenKind, value: string, offset: nat, end: nat)

  /** A token without its place in the source. */
  datatype Lexeme = Lexeme(kind: TokenKind, value: string)

  datatype Entry = Entry(key: string, value: Expr)

  datatype Expr =
    | Null
    | Truth(truth: bool)
    | Num(number: Number)
    | Text(text: string)
    | Input
    | Array(elements: seq<Expr>)
    | Object(entries: seq<Entry>)
    | Unary(op: string, operand: Expr)
    | Binary(op: string, left: Expr, right: Expr)
    | Conditional(condition: Expr, whenTrue: Expr, whenFalse: Expr)

  /** The variable that an expression may mention, and how numerals are read and checked. */
  datatype Dialect = Dialect(variable: string, read: string -> Number, safe: Number -> bool)

  // Precedence: 0 conditional, 1 to 6 binary operators, 7 unary, 8 primary

  const CONDITIONAL := 0
  const UNARY := 7
  const PRIMARY := 8

  /** The precedence of a binary operator, 0 when there is no such operator. */
  function Rank(op: string): (r: nat)
    ensures r < UNARY
  {
    if op == "||" then 1
    else if op == "&&" then 2
    else if op == "==" || op == "!=" then 3
    else if op == "<" || op == "<=" || op == ">" || op == ">=" then 4
    else if op == "+" || op == "-" then 5
    else if op == "*" || op == "/" || op == "%" then 6
    else 0
  }

  predicate Prefix(op: string) {
    op == "!" || op == "-" || op == "+"
  }

  function Level(e: Expr): nat {
    match e
    case Conditional(_, _, _) => CONDITIONAL
    case Binary(op, _, _) => Rank(op)
    case Unary(_, _) => UNARY
    case _ => PRIMARY
  }

  // Printing

  function Mark(value: string): Lexeme {
    Lexeme(Punctuation, value)
  }

  /** How literals and the variable are written. */
  datatype Notation = Notation(variable: string, show: Number -> string)

  function Print(w: Notation, e: Expr, level: nat): seq<Lexeme>
    decreases e, 2, 0
  {
    if Level(e) < level then [Mark("(")] + Body(w, e) + [Mark(")")] else Body(w, e)
  }

  function Body(w: Notation, e: Expr): (q: seq<Lexeme>)
    ensures q != []
    decreases e, 1, 0
  {
    match e
    case Null => [Lexeme(Identifier, "null")]
    case Truth(b) => [Lexeme(Identifier, if b then "true" else "false")]
    case Num(n) => [Lexeme(Numeral, w.show(n))]
    case Text(s) => [Lexeme(Quoted, s)]
    case Input => [Lexeme(Identifier, w.variable)]
    case Array(_) => [Mark("[")] + PrintElements(w, e, 0) + [Mark("]")]
    case Object(_) => [Mark("{")] + PrintEntries(w, e, 0) + [Mark("}")]
    case Unary(op, x) => [Lexeme(Operator, op)] + Print(w, x, UNARY)
    case Binary(op, l, r) => Print(w, l, Rank(op)) + [Lexeme(Operator, op)] + Print(w, r, Rank(op) + 1)
    case Conditional(c, t, f) =>
      Print(w, c, 1) + [Mark("?")] + Print(w, t, 0) + [Mark(":")] + Print(w, f, 0)
  }

  /** The elements from index `k` on. */
  function PrintElements(w: Notation, e: Expr, k: nat): seq<Lexeme>
    requires e.Array? && k <= |e.elements|
    decreases e, 0, |e.elements| - k
  {
    if k == |e.elements| then []
    else Print(w, e.elements[k], 0) + (if k + 1 == |e.elements| then [] else [Mark(",")] + PrintElements(w, e, k + 1))
  }

  function PrintEntry(w: Notation, entry: Entry): seq<Lexeme>
    decreases entry, 3, 0
  {
    [Lexeme(Quoted, entry.key), Mark(":")] + Print(w, entry.value, 0)
  }

  /** The entries from index `k` on. */
  function PrintEntries(w: Notation, e: Expr, k: nat): seq<Lexeme>
    requires e.Object? && k <= |e.entries|
    decreases e, 0, |e.entries| - k
  {
    if k == |e.entries| then []
    else PrintEntry(w, e.entries[k]) + (if k + 1 == |e.entries| then [] else [Mark(",")] + PrintEntries(w, e, k + 1))
  }
}
