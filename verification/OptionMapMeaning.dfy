/** What an expression means: one rule for each kind of expression, told by the results of its parts. */
module OptionMapMeaning {
  import opened OptionMapSyntax
  import opened OptionMapGrammar
  import opened OptionMapPatch
  import opened OptionMapEvaluator

  /** A number that is not JSON-safe is a fault. */
  predicate Numeric(a: Arithmetic, n: Number, r: Evaluation) {
    r == if a.safe(n) then Value(JsonNumber(n)) else Raised(UnsafeResult)
  }

  /** The result of a prefix operator on a value. */
  predicate Prefixes(a: Arithmetic, op: string, v: Json, r: Evaluation) {
    match v
    case JsonBool(b) => r == if op == "!" then Value(JsonBool(!b)) else Raised(NumberRequired)
    case JsonNumber(n) =>
      if op == "!" then r == Raised(BooleanRequired)
      else if op == "-" then Numeric(a, a.negate(n), r) else Numeric(a, n, r)
    case _ => r == Raised(if op == "!" then BooleanRequired else NumberRequired)
  }

  /** An order relation holds; equal rank is neither smaller nor greater. */
  predicate Ordered(op: string, less: bool, greater: bool) {
    (op == "<" && less) || (op == ">" && !less && greater) || (op == "<=" && (less || !greater)) || (op == ">=" && !less)
  }

  predicate Relates(op: string) {
    op == "<" || op == "<=" || op == ">" || op == ">="
  }

  /** The result of a binary operator on two values, the left one first. */
  predicate Combines(a: Arithmetic, op: string, v: Json, w: Json, r: Evaluation) {
    if op == "==" then r == Value(JsonBool(v == w))
    else if op == "!=" then r == Value(JsonBool(v != w))
    else match (v, w)
      case (JsonNumber(m), JsonNumber(n)) =>
        if Relates(op) then r == Value(JsonBool(Ordered(op, a.less(m, n), a.less(n, m))))
        else Numeric(a, a.apply(op, m, n), r)
      case (JsonText(s), JsonText(t)) =>
        if op == "+" then r == Value(JsonText(s + t))
        else if Relates(op) then r == Value(JsonBool(Ordered(op, a.textLess(s, t), a.textLess(t, s))))
        else r == Raised(NumberRequired)
      case _ => r == Raised(if Relates(op) then Incomparable else NumberRequired)
  }

  /** An array has the values of its elements, or the first fault among them. */
  ghost predicate ArrayRule(es: seq<Expr>, of: Expr -> Evaluation, r: Evaluation) {
    if r.Value? then
      && r.value.JsonArray? && |r.value.elements| == |es|
      && forall k :: 0 <= k < |es| ==> of(es[k]) == Value(r.value.elements[k])
    else exists k :: 0 <= k < |es| && of(es[k]) == r && forall j :: 0 <= j < k ==> of(es[j]).Value?
  }

  /** An object has exactly its keys, each with the value of its entry, or the first fault among them. */
  ghost predicate ObjectRule(entries: seq<Entry>, of: Expr -> Evaluation, r: Evaluation) {
    if r.Value? then
      && r.value.JsonObject? && r.value.members.Keys == (set k | 0 <= k < |entries| :: entries[k].key)
      && forall k :: 0 <= k < |entries| ==> of(entries[k].value) == Value(r.value.members[entries[k].key])
    else exists k :: 0 <= k < |entries| && of(entries[k].value) == r && forall j :: 0 <= j < k ==> of(entries[j].value).Value?
  }

  /** A conjunction stops at false and a disjunction at true; otherwise the right operand decides, and has to be boolean. */
  predicate ConnectiveRule(op: string, v: Evaluation, w: Evaluation, r: Evaluation) {
    if v.Raised? then r == v
    else if !v.value.JsonBool? then r == Raised(BooleanRequired)
    else if v.value.truth == (op == "||") then r == v
    else if w.Value? && !w.value.JsonBool? then r == Raised(BooleanRequired)
    else r == w
  }

  /** Faults come from the left operand first. */
  predicate OperatorRule(a: Arithmetic, op: string, v: Evaluation, w: Evaluation, r: Evaluation) {
    if v.Raised? then r == v else if w.Raised? then r == w else Combines(a, op, v.value, w.value, r)
  }

  /** `of` gives `e` the result that its parts call for. */
  ghost predicate Obeys(a: Arithmetic, e: Expr, input: Json, of: Expr -> Evaluation) {
    match e
    case Null => of(e) == Value(JsonNull)
    case Truth(b) => of(e) == Value(JsonBool(b))
    case Num(n) => of(e) == Value(JsonNumber(n))
    case Text(s) => of(e) == Value(JsonText(s))
    case Input => of(e) == Value(input)
    case Array(es) => ArrayRule(es, of, of(e))
    case Object(entries) => ObjectRule(entries, of, of(e))
    case Unary(op, x) => if of(x).Raised? then of(e) == of(x) else Prefixes(a, op, of(x).value, of(e))
    case Binary(op, l, r) =>
      if op == "&&" || op == "||" then ConnectiveRule(op, of(l), of(r), of(e))
      else OperatorRule(a, op, of(l), of(r), of(e))
    case Conditional(c, t, f) =>
      if of(c).Raised? then of(e) == of(c)
      else if !of(c).value.JsonBool? then of(e) == Raised(BooleanRequired)
      else of(e) == if of(c).value.truth then of(t) else of(f)
  }

  lemma UnaryDecided(a: Arithmetic, op: string, v: Json, r: Evaluation)
    requires Prefix(op)
    ensures Prefixes(a, op, v, r) <==> r == EvalUnary(a, op, v)
  {
  }

  lemma BinaryDecided(a: Arithmetic, op: string, v: Json, w: Json, r: Evaluation)
    requires Rank(op) > 0 && op != "&&" && op != "||"
    ensures Combines(a, op, v, w, r) <==> r == EvalStrict(a, op, v, w)
  {
    hide JsonEquals;
    JsonEqualsIsEquality(v, w);
  }

  /** The elements from `k` on are evaluated in order, up to the first fault. */
  lemma {:induction false} ElementsResult(a: Arithmetic, e: Expr, input: Json, k: nat, done: seq<Json>)
    requires e.Array? && k <= |e.elements| && |done| == k
    ensures var r := EvalElements(a, e, input, k, done);
      && (r.Value? ==>
            && r.value.JsonArray? && |r.value.elements| == |e.elements| && done <= r.value.elements
            && forall j :: k <= j < |e.elements| ==> Eval(a, e.elements[j], input) == Value(r.value.elements[j]))
      && (r.Raised? ==> exists j ::
            && k <= j < |e.elements| && Eval(a, e.elements[j], input) == r
            && forall i :: k <= i < j ==> Eval(a, e.elements[i], input).Value?)
    decreases |e.elements| - k
  {
    if k < |e.elements| {
      var v := Eval(a, e.elements[k], input);
      if v.Value? {
        ElementsResult(a, e, input, k + 1, done + [v.value]);
        var r := EvalElements(a, e, input, k + 1, done + [v.value]);
        assert r.Value? ==> (done + [v.value])[k] == r.value.elements[k];
      }
    }
  }

  lemma {:induction false} EntriesFault(a: Arithmetic, e: Expr, input: Json, k: nat, done: Members)
    requires e.Object? && k <= |e.entries|
    ensures var r := EvalEntries(a, e, input, k, done);
      if r.Raised? then exists j ::
        && k <= j < |e.entries| && Eval(a, e.entries[j].value, input) == r
        && forall i :: k <= i < j ==> Eval(a, e.entries[i].value, input).Value?
      else forall j :: k <= j < |e.entries| ==> Eval(a, e.entries[j].value, input).Value?
    decreases |e.entries| - k
  {
    if k < |e.entries| {
      var v := Eval(a, e.entries[k].value, input);
      if v.Value? { EntriesFault(a, e, input, k + 1, done[e.entries[k].key := v.value]); }
    }
  }

  /** `m` extends `done` by the values of the entries from `k` on. */
  ghost predicate Filled(a: Arithmetic, e: Expr, input: Json, k: nat, done: Members, m: Members)
    requires e.Object?
  {
    && (forall x :: x in done ==> x in m && m[x] == done[x])
    && (forall j :: k <= j < |e.entries| ==>
          e.entries[j].key in m && Eval(a, e.entries[j].value, input) == Value(m[e.entries[j].key]))
  }

  /** Likewise the entries; each member is the value of its entry. */
  lemma {:induction false} EntriesResult(a: Arithmetic, e: Expr, input: Json, k: nat, done: Members)
    requires e.Object? && k <= |e.entries| && DistinctKeys(e.entries)
    requires forall j :: k <= j < |e.entries| ==> e.entries[j].key !in done
    ensures var r := EvalEntries(a, e, input, k, done);
      r.Value? ==> r.value.JsonObject? && Filled(a, e, input, k, done, r.value.members)
    decreases |e.entries| - k
  {
    if k < |e.entries| {
      var v := Eval(a, e.entries[k].value, input);
      if v.Value? {
        var key := e.entries[k].key;
        var next := done[key := v.value];
        EntriesResult(a, e, input, k + 1, next);
        var r := EvalEntries(a, e, input, k + 1, next);
        assert EvalEntries(a, e, input, k, done) == r;
        hide Eval, EvalEntries;
        if r.Value? {
          FilledFrom(a, e, input, k, done, v.value, r.value.members);
        }
      }
    }
  }

  lemma FilledFrom(a: Arithmetic, e: Expr, input: Json, k: nat, done: Members, v: Json, m: Members)
    requires e.Object? && k < |e.entries| && e.entries[k].key !in done && Eval(a, e.entries[k].value, input) == Value(v)
    requires Filled(a, e, input, k + 1, done[e.entries[k].key := v], m)
    ensures Filled(a, e, input, k, done, m)
  {
    hide Eval;
    var next := done[e.entries[k].key := v];
    assert e.entries[k].key in next;
    forall x | x in done ensures x in m && m[x] == done[x] {
      assert x in next && next[x] == done[x];
    }
  }

  function Meaning(a: Arithmetic, input: Json): Expr -> Evaluation {
    e => Eval(a, e, input)
  }

  /** The evaluator obeys every rule, on all expressions that a program can denote. */
  lemma EvaluatorObeys(a: Arithmetic, d: Dialect, e: Expr, input: Json)
    requires Sensible(d, e)
    ensures Obeys(a, e, input, Meaning(a, input))
  {
    hide Prefixes, Combines, EvalUnary, EvalStrict, ArrayRule, ObjectRule;
    match e
    case Array(_) => ArrayObeys(a, e, input);
    case Object(_) => ObjectObeys(a, e, input);
    case Unary(op, x) =>
      var v := Eval(a, x, input);
      if v.Value? { UnaryDecided(a, op, v.value, EvalUnary(a, op, v.value)); }
    case Binary(op, l, r) =>
      var v, w := Eval(a, l, input), Eval(a, r, input);
      if op != "&&" && op != "||" && v.Value? && w.Value? {
        BinaryDecided(a, op, v.value, w.value, EvalStrict(a, op, v.value, w.value));
      }
    case _ =>
  }

  lemma ArrayObeys(a: Arithmetic, e: Expr, input: Json)
    requires e.Array?
    ensures ArrayRule(e.elements, Meaning(a, input), Eval(a, e, input))
  {
    ElementsResult(a, e, input, 0, []);
    assert Eval(a, e, input) == EvalElements(a, e, input, 0, []);
    hide Eval, EvalElements;
  }

  lemma ObjectObeys(a: Arithmetic, e: Expr, input: Json)
    requires e.Object? && DistinctKeys(e.entries)
    ensures ObjectRule(e.entries, Meaning(a, input), Eval(a, e, input))
  {
    EntriesResult(a, e, input, 0, map[]);
    EntriesFault(a, e, input, 0, map[]);
    EntriesGiveObject(a, e, input, 0, map[]);
    assert Eval(a, e, input) == EvalEntries(a, e, input, 0, map[]);
    hide Eval, EvalEntries;
  }

  lemma ArrayRuleDecides(es: seq<Expr>, of: Expr -> Evaluation, other: Expr -> Evaluation, r: Evaluation, s: Evaluation)
    requires ArrayRule(es, of, r) && ArrayRule(es, other, s) && forall k :: 0 <= k < |es| ==> of(es[k]) == other(es[k])
    ensures r == s
  {
    if r.Value? && s.Value? {
      assert forall k :: 0 <= k < |es| ==> of(es[k]) == other(es[k]);
      assert r.value.elements == s.value.elements;
    }
  }

  lemma ObjectRuleDecides(
      entries: seq<Entry>, of: Expr -> Evaluation, other: Expr -> Evaluation, r: Evaluation, s: Evaluation)
    requires ObjectRule(entries, of, r) && ObjectRule(entries, other, s)
    requires forall k :: 0 <= k < |entries| ==> of(entries[k].value) == other(entries[k].value)
    ensures r == s
  {
    if r.Value? && s.Value? {
      forall x | x in r.value.members ensures r.value.members[x] == s.value.members[x] {
        var k :| 0 <= k < |entries| && entries[k].key == x;
        assert of(entries[k].value) == other(entries[k].value);
      }
      assert r.value.members == s.value.members;
    }
  }

  lemma OperatorsDecide(a: Arithmetic, op: string, v: Json, w: Json, r: Evaluation, s: Evaluation)
    ensures Prefixes(a, op, v, r) && Prefixes(a, op, v, s) ==> r == s
    ensures Combines(a, op, v, w, r) && Combines(a, op, v, w, s) ==> r == s
  {
  }

  /** And it is the only way to obey them. */
  lemma {:induction false} OnlyEvaluatorObeys(a: Arithmetic, d: Dialect, e: Expr, input: Json, of: Expr -> Evaluation)
    requires Sensible(d, e) && forall x :: Sensible(d, x) ==> Obeys(a, x, input, of)
    ensures of(e) == Eval(a, e, input)
    decreases e
  {
    hide Eval, Prefixes, Combines, ArrayRule, ObjectRule;
    EvaluatorObeys(a, d, e, input);
    assert Obeys(a, e, input, of);
    match e
    case Array(es) =>
      forall k | 0 <= k < |es| ensures of(es[k]) == Eval(a, es[k], input) {
        OnlyEvaluatorObeys(a, d, es[k], input, of);
      }
      ArrayRuleDecides(es, of, Meaning(a, input), of(e), Eval(a, e, input));
    case Object(entries) =>
      forall k | 0 <= k < |entries| ensures of(entries[k].value) == Eval(a, entries[k].value, input) {
        assert entries[k].value < entries[k] < e;
        OnlyEvaluatorObeys(a, d, entries[k].value, input, of);
      }
      ObjectRuleDecides(entries, of, Meaning(a, input), of(e), Eval(a, e, input));
    case Unary(op, x) =>
      OnlyEvaluatorObeys(a, d, x, input, of);
      if of(x).Value? { OperatorsDecide(a, op, of(x).value, JsonNull, of(e), Eval(a, e, input)); }
    case Binary(op, l, r) =>
      OnlyEvaluatorObeys(a, d, l, input, of);
      OnlyEvaluatorObeys(a, d, r, input, of);
      if of(l).Value? && of(r).Value? {
        OperatorsDecide(a, op, of(l).value, of(r).value, of(e), Eval(a, e, input));
      }
    case Conditional(c, t, f) =>
      OnlyEvaluatorObeys(a, d, c, input, of);
      OnlyEvaluatorObeys(a, d, t, input, of);
      OnlyEvaluatorObeys(a, d, f, input, of);
    case _ =>
  }
}
