/** Evaluating an option map for one input value. */
module OptionMapEvaluator {
  import opened OptionMapSyntax
  import opened OptionMapGrammar
  import opened OptionMapPatch

  /** What the host does with numbers and strings; `less` is its strict order. Numbers are equal when Object.is says so. */
  datatype Arithmetic = Arithmetic(
    safe: Number -> bool, negate: Number -> Number, apply: (string, Number, Number) -> Number,
    less: (Number, Number) -> bool, textLess: (string, string) -> bool)

  datatype Fault = BooleanRequired | NumberRequired | UnsafeResult | Incomparable | UnsupportedOperator | NotAnObject

  datatype Evaluation = Value(value: Json) | Raised(fault: Fault)

  datatype InputValue = InputText(text: string) | InputNumber(number: Number)

  function AsJson(input: InputValue): Json {
    match input
    case InputText(s) => JsonText(s)
    case InputNumber(n) => JsonNumber(n)
  }

  function SafeNumber(a: Arithmetic, n: Number): Evaluation {
    if a.safe(n) then Value(JsonNumber(n)) else Raised(UnsafeResult)
  }

  /** Equality of JSON values, member by member. */
  predicate JsonEquals(l: Json, r: Json)
    decreases l
  {
    if l.JsonArray? || r.JsonArray? then
      && l.JsonArray? && r.JsonArray? && |l.elements| == |r.elements|
      && forall k :: 0 <= k < |l.elements| ==> JsonEquals(l.elements[k], r.elements[k])
    else if l.JsonObject? && r.JsonObject? then
      && |l.members.Keys| == |r.members.Keys|
      && forall k :: k in l.members ==> k in r.members && JsonEquals(l.members[k], r.members[k])
    else l == r
  }

  function EvalUnary(a: Arithmetic, op: string, operand: Json): Evaluation {
    if op == "!" then
      if operand.JsonBool? then Value(JsonBool(!operand.truth)) else Raised(BooleanRequired)
    else if !operand.JsonNumber? then Raised(NumberRequired)
    else SafeNumber(a, if op == "-" then a.negate(operand.number) else operand.number)
  }

  /** -1, 0 or 1. */
  function Comparison(less: bool, greater: bool): int {
    if less then -1 else if greater then 1 else 0
  }

  predicate Ordering(op: string) {
    op == "<" || op == "<=" || op == ">" || op == ">="
  }

  function Compare(a: Arithmetic, op: string, l: Json, r: Json): Evaluation {
    if l.JsonNumber? && r.JsonNumber? then
      Value(JsonBool(Decide(op, Comparison(a.less(l.number, r.number), a.less(r.number, l.number)))))
    else if l.JsonText? && r.JsonText? then
      Value(JsonBool(Decide(op, Comparison(a.textLess(l.text, r.text), a.textLess(r.text, l.text)))))
    else Raised(Incomparable)
  }

  predicate Decide(op: string, comparison: int) {
    if op == "<" then comparison < 0 else if op == "<=" then comparison <= 0
    else if op == ">" then comparison > 0 else comparison >= 0
  }

  /** A binary operator that evaluates both operands. */
  function EvalStrict(a: Arithmetic, op: string, l: Json, r: Json): Evaluation {
    if op == "==" then Value(JsonBool(JsonEquals(l, r)))
    else if op == "!=" then Value(JsonBool(!JsonEquals(l, r)))
    else if op == "+" && l.JsonText? && r.JsonText? then Value(JsonText(l.text + r.text))
    else if op == "+" || op == "-" || op == "*" || op == "/" || op == "%" then
      if l.JsonNumber? && r.JsonNumber? then SafeNumber(a, a.apply(op, l.number, r.number)) else Raised(NumberRequired)
    else if Ordering(op) then Compare(a, op, l, r)
    else Raised(UnsupportedOperator)
  }

  function RequireBoolean(v: Evaluation): Evaluation {
    if v.Value? && !v.value.JsonBool? then Raised(BooleanRequired) else v
  }

  function Eval(a: Arithmetic, e: Expr, input: Json): Evaluation
    decreases e, 1, 0
  {
    match e
    case Null => Value(JsonNull)
    case Truth(b) => Value(JsonBool(b))
    case Num(n) => Value(JsonNumber(n))
    case Text(s) => Value(JsonText(s))
    case Input => Value(input)
    case Array(_) => EvalElements(a, e, input, 0, [])
    case Object(_) => EvalEntries(a, e, input, 0, map[])
    case Unary(op, x) =>
      (match Eval(a, x, input)
       case Value(v) => EvalUnary(a, op, v)
       case Raised(f) => Raised(f))
    case Binary(op, l, r) =>
      if op == "&&" || op == "||" then
        match RequireBoolean(Eval(a, l, input))
        case Value(v) => if v.truth == (op == "||") then Value(v) else RequireBoolean(Eval(a, r, input))
        case Raised(f) => Raised(f)
      else
        (match Eval(a, l, input)
         case Raised(f) => Raised(f)
         case Value(v) =>
           match Eval(a, r, input)
           case Raised(f) => Raised(f)
           case Value(w) => EvalStrict(a, op, v, w))
    case Conditional(c, t, f) =>
      match RequireBoolean(Eval(a, c, input))
      case Value(v) => if v.truth then Eval(a, t, input) else Eval(a, f, input)
      case Raised(fault) => Raised(fault)
  }

  function EvalElements(a: Arithmetic, e: Expr, input: Json, k: nat, done: seq<Json>): Evaluation
    requires e.Array? && k <= |e.elements|
    decreases e, 0, |e.elements| - k
  {
    if k == |e.elements| then Value(JsonArray(done))
    else
      match Eval(a, e.elements[k], input)
      case Raised(f) => Raised(f)
      case Value(v) => EvalElements(a, e, input, k + 1, done + [v])
  }

  function EvalEntries(a: Arithmetic, e: Expr, input: Json, k: nat, done: Members): Evaluation
    requires e.Object? && k <= |e.entries|
    decreases e, 0, |e.entries| - k
  {
    if k == |e.entries| then Value(JsonObject(done))
    else
      assert e.entries[k].value < e.entries[k] < e;
      match Eval(a, e.entries[k].value, input)
      case Raised(f) => Raised(f)
      case Value(v) => EvalEntries(a, e, input, k + 1, done[e.entries[k].key := v])
  }

  /** The input is checked first: it is a string or a JSON-safe number. */
  function EvaluateRestrictedCel(a: Arithmetic, e: Expr, input: InputValue): Evaluation {
    if input.InputNumber? && !a.safe(input.number) then Raised(UnsafeResult) else Eval(a, e, AsJson(input))
  }

  // The evaluator as it runs, with the loops over elements and entries

  method Evaluate(a: Arithmetic, e: Expr, input: Json) returns (r: Evaluation)
    ensures r == Eval(a, e, input)
    decreases e
  {
    match e {
      case Null => r := Value(JsonNull);
      case Truth(b) => r := Value(JsonBool(b));
      case Num(n) => r := Value(JsonNumber(n));
      case Text(s) => r := Value(JsonText(s));
      case Input => r := Value(input);
      case Array(elements) =>
        var values: seq<Json> := [];
        var k := 0;
        while k < |elements|
          invariant k <= |elements| && EvalElements(a, e, input, k, values) == Eval(a, e, input)
        {
          r := Evaluate(a, elements[k], input);
          if r.Raised? { return; }
          values := values + [r.value];
          k := k + 1;
        }
        r := Value(JsonArray(values));
      case Object(entries) =>
        var result: Members := map[];
        var k := 0;
        while k < |entries|
          invariant k <= |entries| && EvalEntries(a, e, input, k, result) == Eval(a, e, input)
        {
          assert entries[k].value < entries[k] < e;
          r := Evaluate(a, entries[k].value, input);
          if r.Raised? { return; }
          result := result[entries[k].key := r.value];
          k := k + 1;
        }
        r := Value(JsonObject(result));
      case Unary(op, operand) =>
        r := Evaluate(a, operand, input);
        if r.Value? { r := EvalUnary(a, op, r.value); }
      case Binary(op, left, right) =>
        r := Evaluate(a, left, input);
        if op == "&&" || op == "||" {
          r := RequireBoolean(r);
          if r.Raised? || r.value.truth == (op == "||") { return; }
          r := Evaluate(a, right, input);
          return RequireBoolean(r);
        }
        if r.Raised? { return; }
        var l := r.value;
        r := Evaluate(a, right, input);
        if r.Value? { r := EvalStrict(a, op, l, r.value); }
      case Conditional(condition, whenTrue, whenFalse) =>
        r := Evaluate(a, condition, input);
        r := RequireBoolean(r);
        if r.Raised? { return; }
        if r.value.truth {
          r := Evaluate(a, whenTrue, input);
        } else {
          r := Evaluate(a, whenFalse, input);
        }
    }
  }

  // What evaluation guarantees

  /** The member-by-member comparison decides equality. */
  lemma {:induction false} JsonEqualsIsEquality(l: Json, r: Json)
    ensures JsonEquals(l, r) <==> l == r
    decreases l
  {
    if l.JsonArray? && r.JsonArray? && |l.elements| == |r.elements| {
      forall k | 0 <= k < |l.elements| ensures JsonEquals(l.elements[k], r.elements[k]) <==> l.elements[k] == r.elements[k] {
        JsonEqualsIsEquality(l.elements[k], r.elements[k]);
      }
      assert l == r <==> l.elements == r.elements;
    } else if l.JsonObject? && r.JsonObject? {
      forall k | k in l.members && k in r.members
        ensures JsonEquals(l.members[k], r.members[k]) <==> l.members[k] == r.members[k] {
        JsonEqualsIsEquality(l.members[k], r.members[k]);
      }
      if JsonEquals(l, r) {
        SameKeys(l.members.Keys, r.members.Keys);
        assert l.members == r.members;
      }
    }
  }

  lemma SameKeys(s: set<string>, t: set<string>)
    requires s <= t && |s| == |t|
    ensures s == t
  {
    assert |t - s| == |t| - |s|;
  }

  /** Every number anywhere in the value is JSON-safe. */
  ghost predicate Safe(a: Arithmetic, v: Json)
    decreases v
  {
    match v
    case JsonNumber(n) => a.safe(n)
    case JsonArray(es) => forall k :: 0 <= k < |es| ==> Safe(a, es[k])
    case JsonObject(m) => forall k :: k in m ==> Safe(a, m[k])
    case _ => true
  }

  ghost predicate SafeResult(a: Arithmetic, r: Evaluation) {
    r.Value? ==> Safe(a, r.value)
  }

  /** From safe literals and a safe input, only safe numbers come out. */
  lemma {:induction false} EvaluatesSafely(a: Arithmetic, d: Dialect, e: Expr, input: Json)
    requires d.safe == a.safe && Sensible(d, e) && Safe(a, input)
    ensures SafeResult(a, Eval(a, e, input))
    decreases e, 1, 0
  {
    match e
    case Array(_) => ElementsSafe(a, d, e, input, 0, []);
    case Object(_) => EntriesSafe(a, d, e, input, 0, map[]);
    case Unary(_, x) => EvaluatesSafely(a, d, x, input);
    case Binary(_, l, r) =>
      EvaluatesSafely(a, d, l, input);
      EvaluatesSafely(a, d, r, input);
    case Conditional(c, t, f) =>
      EvaluatesSafely(a, d, c, input);
      EvaluatesSafely(a, d, t, input);
      EvaluatesSafely(a, d, f, input);
    case _ =>
  }

  lemma {:induction false} ElementsSafe(a: Arithmetic, d: Dialect, e: Expr, input: Json, k: nat, done: seq<Json>)
    requires d.safe == a.safe && Sensible(d, e) && Safe(a, input) && e.Array? && k <= |e.elements|
    requires Safe(a, JsonArray(done))
    ensures SafeResult(a, EvalElements(a, e, input, k, done))
    decreases e, 0, |e.elements| - k
  {
    if k < |e.elements| {
      EvaluatesSafely(a, d, e.elements[k], input);
      var r := Eval(a, e.elements[k], input);
      if r.Value? { ElementsSafe(a, d, e, input, k + 1, done + [r.value]); }
    }
  }

  lemma {:induction false} EntriesSafe(a: Arithmetic, d: Dialect, e: Expr, input: Json, k: nat, done: Members)
    requires d.safe == a.safe && Sensible(d, e) && Safe(a, input) && e.Object? && k <= |e.entries|
    requires Safe(a, JsonObject(done))
    ensures SafeResult(a, EvalEntries(a, e, input, k, done))
    decreases e, 0, |e.entries| - k
  {
    if k < |e.entries| {
      assert e.entries[k].value < e.entries[k] < e;
      EvaluatesSafely(a, d, e.entries[k].value, input);
      var r := Eval(a, e.entries[k].value, input);
      if r.Value? { EntriesSafe(a, d, e, input, k + 1, done[e.entries[k].key := r.value]); }
    }
  }

  /** An object display evaluates to an object with exactly its keys, or not at all. */
  lemma {:induction false} EntriesGiveObject(a: Arithmetic, e: Expr, input: Json, k: nat, done: Members)
    requires e.Object? && k <= |e.entries|
    ensures var r := EvalEntries(a, e, input, k, done);
      r.Value? ==> r.value.JsonObject?
                   && r.value.members.Keys == done.Keys + set j | k <= j < |e.entries| :: e.entries[j].key
    decreases |e.entries| - k
  {
    if k < |e.entries| {
      var r := Eval(a, e.entries[k].value, input);
      if r.Value? { EntriesGiveObject(a, e, input, k + 1, done[e.entries[k].key := r.value]); }
    }
  }

  /** Evaluating a tree with known operators never stumbles over the operator. */
  lemma {:induction false} OperatorsSupported(a: Arithmetic, d: Dialect, e: Expr, input: Json)
    requires Sensible(d, e)
    ensures Eval(a, e, input) != Raised(UnsupportedOperator) && Eval(a, e, input) != Raised(NotAnObject)
    decreases e, 1, 0
  {
    hide DistinctKeys, EvalStrict, EvalUnary, Rank, Prefix;
    match e
    case Array(_) => ElementsSupported(a, d, e, input, 0, []);
    case Object(_) => EntriesSupported(a, d, e, input, 0, map[]);
    case Unary(op, x) =>
      OperatorsSupported(a, d, x, input);
      UnarySupported(a, op);
    case Binary(op, l, r) =>
      OperatorsSupported(a, d, l, input);
      OperatorsSupported(a, d, r, input);
      StrictSupported(a, op);
    case Conditional(c, t, f) =>
      OperatorsSupported(a, d, c, input);
      OperatorsSupported(a, d, t, input);
      OperatorsSupported(a, d, f, input);
    case _ =>
  }

  lemma StrictSupported(a: Arithmetic, op: string)
    requires Rank(op) > 0
    ensures op == "&&" || op == "||" || forall v, w :: Supported(EvalStrict(a, op, v, w))
  {
  }

  lemma UnarySupported(a: Arithmetic, op: string)
    ensures forall v :: Supported(EvalUnary(a, op, v))
  {
  }

  predicate Supported(r: Evaluation) {
    r != Raised(UnsupportedOperator) && r != Raised(NotAnObject)
  }

  lemma {:induction false} ElementsSupported(a: Arithmetic, d: Dialect, e: Expr, input: Json, k: nat, done: seq<Json>)
    requires Sensible(d, e) && e.Array? && k <= |e.elements|
    ensures var r := EvalElements(a, e, input, k, done); r != Raised(UnsupportedOperator) && r != Raised(NotAnObject)
    decreases e, 0, |e.elements| - k
  {
    if k < |e.elements| {
      OperatorsSupported(a, d, e.elements[k], input);
      var r := Eval(a, e.elements[k], input);
      if r.Value? { ElementsSupported(a, d, e, input, k + 1, done + [r.value]); }
    }
  }

  lemma {:induction false} EntriesSupported(a: Arithmetic, d: Dialect, e: Expr, input: Json, k: nat, done: Members)
    requires Sensible(d, e) && e.Object? && k <= |e.entries|
    ensures var r := EvalEntries(a, e, input, k, done); r != Raised(UnsupportedOperator) && r != Raised(NotAnObject)
    decreases e, 0, |e.entries| - k
  {
    if k < |e.entries| {
      assert e.entries[k].value < e.entries[k] < e;
      OperatorsSupported(a, d, e.entries[k].value, input);
      var r := Eval(a, e.entries[k].value, input);
      if r.Value? { EntriesSupported(a, d, e, input, k + 1, done[e.entries[k].key := r.value]); }
    }
  }

  // Rewritings that keep the meaning of an expression, its faults included

  function Negated(a: Arithmetic, v: Evaluation): Evaluation {
    if v.Value? then EvalUnary(a, "!", v.value) else v
  }

  function Combined(a: Arithmetic, op: string, v: Evaluation, w: Evaluation): Evaluation {
    if v.Raised? then v else if w.Raised? then w else EvalStrict(a, op, v.value, w.value)
  }

  lemma NegationEvaluates(a: Arithmetic, e: Expr, input: Json)
    ensures Eval(a, Unary("!", e), input) == Negated(a, Eval(a, e, input))
  {
  }

  lemma StrictEvaluates(a: Arithmetic, op: string, l: Expr, r: Expr, input: Json)
    requires op != "&&" && op != "||"
    ensures Eval(a, Binary(op, l, r), input) == Combined(a, op, Eval(a, l, input), Eval(a, r, input))
  {
  }

  /** A conjunction is a conditional that checks its second operand; a disjunction is its dual. */
  lemma ConnectivesAreConditionals(a: Arithmetic, l: Expr, r: Expr, input: Json)
    ensures Eval(a, Binary("&&", l, r), input) == Eval(a, Conditional(l, Unary("!", Unary("!", r)), Truth(false)), input)
    ensures Eval(a, Binary("||", l, r), input) == Eval(a, Conditional(l, Truth(true), Unary("!", Unary("!", r))), input)
  {
    NegationEvaluates(a, Unary("!", r), input);
    NegationEvaluates(a, r, input);
  }

  /** The laws of De Morgan. */
  lemma NegationMovesInside(a: Arithmetic, l: Expr, r: Expr, input: Json)
    ensures Eval(a, Unary("!", Binary("&&", l, r)), input) == Eval(a, Binary("||", Unary("!", l), Unary("!", r)), input)
    ensures Eval(a, Unary("!", Binary("||", l, r)), input) == Eval(a, Binary("&&", Unary("!", l), Unary("!", r)), input)
  {
    NegationEvaluates(a, Binary("&&", l, r), input);
    NegationEvaluates(a, Binary("||", l, r), input);
    NegationEvaluates(a, l, input);
    NegationEvaluates(a, r, input);
  }

  /** Negating the condition swaps the branches of a conditional. */
  lemma NegationSwapsBranches(a: Arithmetic, c: Expr, t: Expr, f: Expr, input: Json)
    ensures Eval(a, Conditional(Unary("!", c), t, f), input) == Eval(a, Conditional(c, f, t), input)
  {
    NegationEvaluates(a, c, input);
  }

  lemma OppositeOnValues(a: Arithmetic, v: Evaluation, w: Evaluation)
    ensures Combined(a, ">=", v, w) == Negated(a, Combined(a, "<", v, w))
    ensures Combined(a, "<=", v, w) == Negated(a, Combined(a, ">", v, w))
    ensures Combined(a, "!=", v, w) == Negated(a, Combined(a, "==", v, w))
  {
    hide JsonEquals;
  }

  /** Every comparison is the negation of its opposite. */
  lemma OppositeComparisons(a: Arithmetic, l: Expr, r: Expr, input: Json)
    ensures Eval(a, Binary(">=", l, r), input) == Eval(a, Unary("!", Binary("<", l, r)), input)
    ensures Eval(a, Binary("<=", l, r), input) == Eval(a, Unary("!", Binary(">", l, r)), input)
    ensures Eval(a, Binary("!=", l, r), input) == Eval(a, Unary("!", Binary("==", l, r)), input)
  {
    hide Eval, Combined, Negated;
    OppositeOnValues(a, Eval(a, l, input), Eval(a, r, input));
    StrictEvaluates(a, ">=", l, r, input);
    StrictEvaluates(a, "<=", l, r, input);
    StrictEvaluates(a, "!=", l, r, input);
    StrictEvaluates(a, "<", l, r, input);
    StrictEvaluates(a, ">", l, r, input);
    StrictEvaluates(a, "==", l, r, input);
    NegationEvaluates(a, Binary("<", l, r), input);
    NegationEvaluates(a, Binary(">", l, r), input);
    NegationEvaluates(a, Binary("==", l, r), input);
  }

  /** The host compares with a strict order. */
  ghost predicate Asymmetric(a: Arithmetic) {
    && (forall m, n :: !(a.less(m, n) && a.less(n, m)))
    && (forall s, t :: !(a.textLess(s, t) && a.textLess(t, s)))
  }

  /** Swapping operands that have values turns a comparison around. */
  lemma SwappedComparisons(a: Arithmetic, l: Expr, r: Expr, input: Json)
    requires Asymmetric(a) && Eval(a, l, input).Value? && Eval(a, r, input).Value?
    ensures Eval(a, Binary("<", l, r), input) == Eval(a, Binary(">", r, l), input)
    ensures Eval(a, Binary("<=", l, r), input) == Eval(a, Binary(">=", r, l), input)
    ensures Eval(a, Binary("==", l, r), input) == Eval(a, Binary("==", r, l), input)
  {
    hide Eval, JsonEquals;
    StrictEvaluates(a, "<", l, r, input);
    StrictEvaluates(a, ">", r, l, input);
    StrictEvaluates(a, "<=", l, r, input);
    StrictEvaluates(a, ">=", r, l, input);
    StrictEvaluates(a, "==", l, r, input);
    StrictEvaluates(a, "==", r, l, input);
    JsonEqualsIsEquality(Eval(a, l, input).value, Eval(a, r, input).value);
    JsonEqualsIsEquality(Eval(a, r, input).value, Eval(a, l, input).value);
  }

  ghost predicate InOrder(a: Arithmetic, v: Evaluation, w: Evaluation) {
    v.Value? && w.Value?
    && ((v.value.JsonNumber? && w.value.JsonNumber? && a.less(v.value.number, w.value.number))
        || (v.value.JsonText? && w.value.JsonText? && a.textLess(v.value.text, w.value.text)))
  }

  /**
   A comparison is true exactly of two numbers, or two strings, in the order of the host; it is false exactly when the
   opposite one is true, and every other pair of values is a fault.
   */
  lemma LessExactlyInOrder(a: Arithmetic, l: Expr, r: Expr, input: Json)
    ensures var v, w := Eval(a, l, input), Eval(a, r, input);
      && (Eval(a, Binary("<", l, r), input) == Value(JsonBool(true)) <==> InOrder(a, v, w))
      && (Asymmetric(a) ==> (Eval(a, Binary(">", l, r), input) == Value(JsonBool(true)) <==> InOrder(a, w, v)))
      && (Eval(a, Binary("<", l, r), input).Value? <==>
            v.Value? && w.Value?
            && ((v.value.JsonNumber? && w.value.JsonNumber?) || (v.value.JsonText? && w.value.JsonText?)))
  {
    hide Eval, JsonEquals;
    StrictEvaluates(a, "<", l, r, input);
    StrictEvaluates(a, ">", l, r, input);
  }

  ghost predicate Transitive(a: Arithmetic) {
    && (forall k, m, n :: a.less(k, m) && a.less(m, n) ==> a.less(k, n))
    && (forall s, t, u :: a.textLess(s, t) && a.textLess(t, u) ==> a.textLess(s, u))
  }

  /** Comparisons chain. */
  lemma LessIsTransitive(a: Arithmetic, x: Expr, y: Expr, z: Expr, input: Json)
    requires Transitive(a)
    requires Eval(a, Binary("<", x, y), input) == Value(JsonBool(true))
    requires Eval(a, Binary("<", y, z), input) == Value(JsonBool(true))
    ensures Eval(a, Binary("<", x, z), input) == Value(JsonBool(true))
  {
    hide Eval;
    LessExactlyInOrder(a, x, y, input);
    LessExactlyInOrder(a, y, z, input);
    LessExactlyInOrder(a, x, z, input);
  }
}
