/**
 * The tree-walking evaluator. The value-level pieces (truthiness, `!`, `-`,
 * the integer operators, the infix switch) are functions; evaluation itself
 * is a family of methods, because `let` and parameter binding write into
 * environments and the `pop` and `delete` builtins change arrays and hash
 * maps in place.
 *
 * Go's single `Eval(node)` is split by node category: `EvalProgram`,
 * `EvalStatement`, `EvalStatements` (a block) and `EvalExpression`, where an
 * absent expression (Go's nil) evaluates to `Nil`.
 *
 * Every evaluation method takes a ghost `heap`: all environments, arrays and
 * hash maps that can be reached, `Closed` under references. It returns the
 * grown heap, which holds only the new objects besides the old ones. The
 * result is `Storable` in it, and no environment other than `env` has been
 * written.
 *
 * Go's recursion through user functions is unbounded. Here each call into a
 * function body spends one unit of `fuel`, and running out is the outcome
 * `Abort(FuelExhausted)`. Go panics are `Abort(Panic)`. Comparisons whose Go
 * result is pointer identity are `Abort(PointerIdentity)`.
 */
module Evaluator {
  import opened Wrappers
  import opened MachineInt
  import opened Ast
  import opened Environments
  import opened Objects
  import Builtins
  import Tokens

  // The interned singletons: every Boolean is one of TRUE and FALSE, and every Null is NULL.
  const TRUE: Object := Boolean(true)
  const FALSE: Object := Boolean(false)
  const NULL: Object := Null

  // ---------------------------------------------------------------------
  // Values

  /** Integer 0, the empty string and nil are all truthy: only FALSE and NULL are not. */
  predicate IsTruthy(o: Object): (r: bool)
    ensures r <==> o != FALSE && o != NULL
  {
    match o
    case Boolean(b) => b
    case Null => false
    case _ => true
  }

  /** Exactly the two interned values FALSE and NULL are falsy. */
  lemma FalsyValues(o: Object)
    ensures !IsTruthy(o) <==> o == FALSE || o == NULL
    ensures IsTruthy(Integer(0)) && IsTruthy(String("")) && IsTruthy(Nil)
  {
  }

  function NativeBool(b: bool): (r: Object)
    ensures r == TRUE || r == FALSE
    ensures IsTruthy(r) == b
  {
    if b then TRUE else FALSE
  }

  /**
   * Go's `isError`: it tests for the RETURN_VALUE tag, so an Error object is
   * not caught by it. Each variant has its own tag, so the test picks out
   * the return values (`IsErrorTestsTag`).
   */
  predicate IsError(o: Object) {
    o.ReturnValue?
  }

  /** `isError` as the source writes it: false on nil, else the tag is RETURN_VALUE. */
  lemma IsErrorTestsTag(o: Object)
    ensures IsError(o) <==> !o.Nil? && Type(o) == RETURN_VALUE_OBJ
  {
    if !o.Nil? {
      TypeIdentifiesVariant(o, ReturnValue(Null));
    }
  }

  /** `unwrapReturnValue`: the value a return statement wrapped, anything else as it is. */
  function Unwrap(o: Object): (r: Object)
    ensures o.ReturnValue? ==> r == o.returnValue
    ensures Shallow(o) ==> !r.ReturnValue?
    ensures !o.ReturnValue? ==> r == o
  {
    if o.ReturnValue? then o.returnValue else o
  }

  /** `!x` is TRUE exactly for the values that are not truthy. */
  function Bang(right: Object): (r: Object)
    ensures r == NativeBool(!IsTruthy(right))
  {
    if right == TRUE then FALSE
    else if right == FALSE then TRUE
    else if right == NULL then TRUE
    else FALSE
  }

  /** Unary minus: int64 negation, which wraps for the minimum value. */
  function Minus(right: Object): (r: Outcome<Object>)
    ensures right.Integer? ==> r.Normal? && r.value.Integer? && (r.value.intValue + right.intValue) % TWO_TO_THE_64 == 0
    ensures right.Integer? && right.intValue != MIN_INT64 ==> r == Normal(Integer(-right.intValue as int))
    ensures right.Nil? ==> r == Abort(Panic)
    ensures !right.Nil? && !right.Integer? ==> r == Normal(Error("unknown operator: -" + Type(right)))
  {
    match right
    case Integer(v) => Normal(Integer(Wrap(-(v as int))))
    case Nil => Abort(Panic)
    case _ => Normal(Error("unknown operator: -" + Type(right)))
  }

  /** Negation is its own inverse on int64, the wrapped minimum included. */
  lemma MinusInvolution(v: int64)
    ensures Minus(Minus(Integer(v)).value) == Normal(Integer(v))
  {
    if v == MIN_INT64 {
      assert Wrap(-(v as int)) == MIN_INT64;
    }
  }

  /**
   * The operator switch of a prefix expression, on an operand that is not a
   * return value: `!` negates truthiness, `-` negates an integer, and every
   * other pairing is an unknown operator, or a panic on nil.
   */
  function PrefixResult(operator: string, right: Object): (r: Outcome<Object>)
    ensures r.Normal? ==> Refs(r.value) == {} && !r.value.ReturnValue?
    ensures operator == "!" ==> r == Normal(NativeBool(!IsTruthy(right)))
    ensures operator == "-" && right.Integer? ==>
      r.Normal? && r.value.Integer? && (r.value.intValue + right.intValue) % TWO_TO_THE_64 == 0
    ensures operator != "!" && right.Nil? ==> r == Abort(Panic)
    ensures operator != "!" && !right.Nil? && !(operator == "-" && right.Integer?) ==>
      r == Normal(Error("unknown operator: " + operator + Type(right)))
  {
    if operator == "!" then Normal(Bang(right))
    else if operator == "-" then
      assert "unknown operator: -" == "unknown operator: " + operator;
      Minus(right)
    else if right.Nil? then Abort(Panic)
    else Normal(Error("unknown operator: " + operator + Type(right)))
  }

  /** The mathematical value of an arithmetic operator. */
  function Arithmetic(left: int, operator: string, right: int): int
    requires operator == "+" || operator == "-" || operator == "*"
  {
    if operator == "+" then left + right
    else if operator == "-" then left - right
    else left * right
  }

  predicate IsComparison(operator: string) {
    operator == "<" || operator == ">" || operator == "==" || operator == "!="
  }

  /** The integer operators; a divisor of zero is a Go panic, which callers rule out. */
  function IntegerInfix(left: int64, operator: string, right: int64): (r: Object)
    requires operator == "/" ==> right != 0
    ensures operator == "+" || operator == "-" || operator == "*" ==>
      && r.Integer?
      && (r.intValue - Arithmetic(left, operator, right)) % TWO_TO_THE_64 == 0
      && (MIN_INT64 <= Arithmetic(left, operator, right) <= MAX_INT64 ==> r.intValue == Arithmetic(left, operator, right))
    ensures operator == "/" ==> r == Integer(Div64(left, right))
    ensures IsComparison(operator) ==> r == TRUE || r == FALSE
    ensures operator == "<" ==> (r == TRUE <==> left < right)
    ensures operator == ">" ==> (r == TRUE <==> left > right)
    ensures operator == "==" ==> (r == TRUE <==> left == right)
    ensures operator == "!=" ==> (r == TRUE <==> left != right)
    ensures operator != "+" && operator != "-" && operator != "*" && operator != "/" && !IsComparison(operator) ==> r == NULL
  {
    if operator == "+" then Integer(Wrap(left as int + right as int))
    else if operator == "-" then Integer(Wrap(left as int - right as int))
    else if operator == "*" then Integer(Wrap(left as int * right as int))
    else if operator == "/" then Integer(Div64(left, right))
    else if operator == "<" then NativeBool(left < right)
    else if operator == ">" then NativeBool(left > right)
    else if operator == "==" then NativeBool(left == right)
    else if operator == "!=" then NativeBool(left != right)
    else NULL
  }

  /**
   * Go's `left == right` on two interface values whose pointers are not
   * shown here. Booleans and Null are interned and each builtin is one table
   * entry, so their identity is their value; arrays and hash maps are objects
   * here too. For strings, errors, functions, return values and pairs the
   * answer depends on which allocation each came from, and is `None`.
   */
  function Identical(left: Object, right: Object): (r: Option<bool>)
    requires !right.Nil?
    ensures r.Some? ==> (r.value <==> left == right)
    ensures r.None? ==> SameVariant(left, right)
  {
    if left.Nil? || !SameVariant(left, right) then Some(false)
    else match left
      case Boolean(b) => Some(b == right.boolValue)
      case Null => Some(true)
      case Builtin(name) => Some(name == right.builtinName)
      case Array(a) => Some(a == right.arrayObject)
      case HashMap(m) => Some(m == right.hashMap)
      case _ => None
  }

  /**
   * The switch of `evalInfixExpression` on two evaluated operands, including
   * where Go panics on a nil operand: each `Type()` call is made in the order
   * the switch makes it.
   */
  function InfixResult(operator: string, left: Object, right: Object): (r: Outcome<Object>)
    ensures r.Normal? ==> Refs(r.value) == {} && !r.value.ReturnValue?
  {
    if right.Nil? then Abort(Panic)
    else if right.Integer? && left.Nil? then Abort(Panic)
    else if right.Integer? && left.Integer? then
      if operator == "/" && right.intValue == 0 then Abort(Panic)
      else Normal(IntegerInfix(left.intValue, operator, right.intValue))
    else if right.String? && left.Nil? then Abort(Panic)
    else if right.String? && left.String? && operator == "+" then
      Normal(String(left.stringValue + right.stringValue))
    else if operator == "==" || operator == "!=" then
      match Identical(left, right)
      case Some(same) => Normal(NativeBool(if operator == "==" then same else !same))
      case None => Abort(PointerIdentity)
    else if left.Nil? then Abort(Panic)
    else if Type(left) != Type(right) then
      Normal(Error("type mismatch: " + Type(left) + " " + operator + " " + Type(right)))
    else
      Normal(Error("unknown operator: " + Type(left) + " " + operator + " " + Type(right)))
  }

  /**
   * Operands of different variants: `==` and `!=` are decided before the type
   * check, so they give FALSE and TRUE; any other operator is a type mismatch.
   */
  lemma MismatchedOperands(operator: string, left: Object, right: Object)
    requires !left.Nil? && !right.Nil? && !SameVariant(left, right)
    ensures operator == "==" ==> InfixResult(operator, left, right) == Normal(FALSE)
    ensures operator == "!=" ==> InfixResult(operator, left, right) == Normal(TRUE)
    ensures operator != "==" && operator != "!=" ==>
      InfixResult(operator, left, right) ==
        Normal(Error("type mismatch: " + Type(left) + " " + operator + " " + Type(right)))
  {
    TypeIdentifiesVariant(left, right);
  }

  /** Two integers: the integer operators, with a zero divisor panicking. */
  lemma IntegerOperands(operator: string, left: int64, right: int64)
    ensures operator == "/" && right == 0 ==> InfixResult(operator, Integer(left), Integer(right)) == Abort(Panic)
    ensures operator != "/" || right != 0 ==>
      InfixResult(operator, Integer(left), Integer(right)) == Normal(IntegerInfix(left, operator, right))
  {
  }

  /**
   * Two strings: `+` concatenates, `==`/`!=` are pointer comparisons, and
   * every other operator is unknown for strings.
   */
  lemma StringOperands(operator: string, left: string, right: string)
    ensures operator == "+" ==> InfixResult(operator, String(left), String(right)) == Normal(String(left + right))
    ensures operator == "==" || operator == "!=" ==>
      InfixResult(operator, String(left), String(right)) == Abort(PointerIdentity)
    ensures operator != "+" && operator != "==" && operator != "!=" ==>
      InfixResult(operator, String(left), String(right)) ==
        Normal(Error("unknown operator: " + STRING_OBJ + " " + operator + " " + STRING_OBJ))
  {
  }

  /** Booleans compare by value under `==` and `!=`; other operators on them are unknown. */
  lemma BooleanOperands(operator: string, left: bool, right: bool)
    ensures operator == "==" ==> InfixResult(operator, Boolean(left), Boolean(right)) == Normal(NativeBool(left == right))
    ensures operator == "!=" ==> InfixResult(operator, Boolean(left), Boolean(right)) == Normal(NativeBool(left != right))
    ensures operator != "==" && operator != "!=" ==>
      InfixResult(operator, Boolean(left), Boolean(right)) ==
        Normal(Error("unknown operator: " + BOOLEAN_OBJ + " " + operator + " " + BOOLEAN_OBJ))
  {
  }

  /** An identifier: the environment chain first, then the builtins, else an error. */
  function EvalIdentifier(identifier: Identifier, env: Environment<Object>): (r: Object)
    requires env.Valid()
    reads env.Chain()
    ensures identifier.value in env.Bindings() ==> r == env.Bindings()[identifier.value]
    ensures identifier.value !in env.Bindings() && Builtins.IsBuiltinName(identifier.value) ==>
      r == Builtin(identifier.value)
    ensures identifier.value !in env.Bindings() && !Builtins.IsBuiltinName(identifier.value) ==>
      r == Error("identifier not found: " + identifier.value)
  {
    match env.Get(identifier.value)
    case Some(value) => value
    case None =>
      match Builtins.Lookup(identifier.value)
      case Some(builtin) => builtin
      case None => Error("identifier not found: " + identifier.value)
  }

  /**
   * What a statement sequence stops at: a return value or an error. The
   * program's type switch tests the variants; the block tests the tags of a
   * non-nil value, which comes to the same (`BlockTestsTags`).
   */
  predicate StopsProgram(o: Object) {
    o.ReturnValue? || o.Error?
  }

  /** The block's stop test as the source writes it: a non-nil value tagged RETURN_VALUE or ERROR. */
  lemma BlockTestsTags(o: Object)
    ensures StopsProgram(o) <==> !o.Nil? && (Type(o) == RETURN_VALUE_OBJ || Type(o) == ERROR_OBJ)
  {
    if !o.Nil? {
      TypeIdentifiesVariant(o, ReturnValue(Null));
      TypeIdentifiesVariant(o, Error(""));
    }
  }

  /** The store of a call frame: parameters bound left to right, a later parameter overriding an earlier one. */
  function Bind(parameters: seq<Identifier>, arguments: seq<Object>): map<string, Object>
    requires |parameters| == |arguments|
  {
    if |parameters| == 0 then map[]
    else
      var n := |parameters| - 1;
      Bind(parameters[..n], arguments[..n])[parameters[n].value := arguments[n]]
  }

  /** Binding is positional: it binds exactly the parameter names, each to the argument at its last position. */
  lemma {:induction false} BindPositional(parameters: seq<Identifier>, arguments: seq<Object>, i: nat)
    requires |parameters| == |arguments| && i < |parameters|
    requires forall j | i < j < |parameters| :: parameters[j].value != parameters[i].value
    ensures parameters[i].value in Bind(parameters, arguments)
    ensures Bind(parameters, arguments)[parameters[i].value] == arguments[i]
  {
    var n := |parameters| - 1;
    if i < n {
      BindPositional(parameters[..n], arguments[..n], i);
    }
  }

  /** The frame binds exactly the parameter names. */
  lemma {:induction false} BindDomain(parameters: seq<Identifier>, arguments: seq<Object>, k: string)
    requires |parameters| == |arguments|
    ensures k in Bind(parameters, arguments) <==> exists j | 0 <= j < |parameters| :: parameters[j].value == k
  {
    if |parameters| > 0 {
      var n := |parameters| - 1;
      BindDomain(parameters[..n], arguments[..n], k);
      if k == parameters[n].value {
        assert parameters[n].value == k;
      } else if k in Bind(parameters, arguments) {
        var j :| 0 <= j < n && parameters[..n][j].value == k;
        assert parameters[j].value == k;
      } else {
        forall j | 0 <= j < |parameters|
          ensures parameters[j].value != k
        {
          if j < n {
            assert parameters[..n][j] == parameters[j];
          }
        }
      }
    }
  }

  // ---------------------------------------------------------------------
  // The reference semantics
  //
  // A run records how one node was evaluated: the runs of the nodes it
  // evaluated in turn, the frame it created (a call of a user function), and
  // the stores it left and the outcome it gave. The predicates below say when
  // a run is an evaluation of a node from given stores, case by case and with
  // every order of evaluation written out. Each evaluation method returns the
  // run it performed, as a ghost value, and is proved to satisfy them.

  /** The local store of each environment. */
  type Stores = map<Environment<Object>, map<string, Object>>

  datatype Run = Run(steps: seq<Run>, frame: Option<Environment<Object>>, after: Stores, outcome: Outcome<Object>)

  /** The stores of every environment in `heap`, as they are now. */
  ghost function Snapshot(heap: set<object>): Stores
    reads heap
  {
    map e: Environment<Object> | e in heap :: e.store
  }

  ghost function StoreIn(stores: Stores, env: Environment<Object>): map<string, Object> {
    if env in stores then stores[env] else map[]
  }

  /** What the chain of `env` binds, read from `stores`: inner frames override outer ones. */
  ghost function ChainIn(stores: Stores, env: Environment<Object>): map<string, Object>
    requires env.Valid()
    decreases env.depth
  {
    (if env.outer == null then map[] else ChainIn(stores, env.outer)) + StoreIn(stores, env)
  }

  /** The stores of a closed heap bind, along each chain, what `Bindings` does. */
  lemma {:induction false} SnapshotBindings(heap: set<object>, env: Environment<Object>)
    requires Closed(heap) && env in heap
    ensures ChainIn(Snapshot(heap), env) == env.Bindings()
    decreases env.depth
  {
    if env.outer != null {
      SnapshotBindings(heap, env.outer);
    }
  }

  /** `evalIdentifier` against a map of bindings: the binding, else the builtin, else an error. */
  function Resolve(name: string, bindings: map<string, Object>): Object {
    if name in bindings then bindings[name]
    else if Builtins.IsBuiltinName(name) then Builtin(name)
    else Error("identifier not found: " + name)
  }

  /** Evaluation goes on past this outcome: a value that is not a return value. */
  predicate Continues(o: Outcome<Object>) {
    o.Normal? && !IsError(o.value)
  }

  /** A statement sequence goes on past this outcome: a value that is neither a return value nor an error. */
  predicate Proceeds(o: Outcome<Object>) {
    o.Normal? && !StopsProgram(o.value)
  }

  /** A node that evaluates nothing else and changes nothing. */
  ghost predicate Settled(d: Run, before: Stores, outcome: Outcome<Object>) {
    d == Run([], None, before, outcome)
  }

  /** Where step `i` of a sequence starts: where the one before it ended. */
  ghost function StartOf(steps: seq<Run>, i: nat, before: Stores): Stores
    requires i <= |steps|
  {
    if i == 0 then before else steps[i - 1].after
  }

  ghost function LastOutcome(steps: seq<Run>): Outcome<Object> {
    if |steps| == 0 then Normal(Nil) else steps[|steps| - 1].outcome
  }

  /** An absent expression (Go's nil node) is nil. */
  ghost predicate ExprRun(d: Run, expression: Option<Expression>, env: Environment<Object>, fuel: nat, before: Stores)
    requires env.Valid()
    decreases d, 4
  {
    match expression
    case None => Settled(d, before, Normal(Nil))
    case Some(node) => NodeRun(d, node, env, fuel, before)
  }

  /** Literals and identifiers settle at once; the other nodes evaluate their parts. */
  ghost predicate NodeRun(d: Run, node: Expression, env: Environment<Object>, fuel: nat, before: Stores)
    requires env.Valid()
    decreases d, 3
  {
    match node
    case IntegerLiteral(_, value) => Settled(d, before, Normal(Integer(value)))
    case StringLiteral(_, value) => Settled(d, before, Normal(String(value)))
    case BooleanLiteral(_, value) => Settled(d, before, Normal(NativeBool(value)))
    case Ident(identifier) => Settled(d, before, Normal(Resolve(identifier.value, ChainIn(before, env))))
    case FunctionLiteral(_, parameters, body) => Settled(d, before, Normal(Function(parameters, body, env)))
    case PrefixExpression(_, operator, right) => PrefixRun(d, operator, right, env, fuel, before)
    case InfixExpression(_, left, operator, right) => InfixRun(d, left, operator, right, env, fuel, before)
    case IfExpression(_, condition, consequence, alternative) =>
      IfRun(d, condition, consequence, alternative, env, fuel, before)
    case CallExpression(_, fn, arguments) => CallRun(d, fn, arguments, env, fuel, before)
  }

  /** The operand; then the operator, unless the operand stops evaluation. */
  ghost predicate PrefixRun(d: Run, operator: string, right: Option<Expression>, env: Environment<Object>, fuel: nat, before: Stores)
    requires env.Valid()
    decreases d, 2
  {
    && |d.steps| == 1 && d.frame.None?
    && var operand := d.steps[0];
    && ExprRun(operand, right, env, fuel, before)
    && d.after == operand.after
    && d.outcome == (if Continues(operand.outcome) then PrefixResult(operator, operand.outcome.value) else operand.outcome)
  }

  /** The right operand, then the left one unless the right one stops evaluation, then the operator. */
  ghost predicate InfixRun(d: Run, left: Option<Expression>, operator: string, right: Option<Expression>,
                           env: Environment<Object>, fuel: nat, before: Stores)
    requires env.Valid()
    decreases d, 2
  {
    && 1 <= |d.steps| <= 2 && d.frame.None?
    && var r := d.steps[0];
    && ExprRun(r, right, env, fuel, before)
    && (!Continues(r.outcome) ==> |d.steps| == 1 && d.after == r.after && d.outcome == r.outcome)
    && (Continues(r.outcome) ==>
          && |d.steps| == 2
          && var l := d.steps[1];
          && ExprRun(l, left, env, fuel, r.after)
          && d.after == l.after
          && d.outcome == (if Continues(l.outcome) then InfixResult(operator, l.outcome.value, r.outcome.value) else l.outcome))
  }

  /** The block an `if` runs after its condition gave `condition`, if any. */
  function Chosen(condition: Outcome<Object>, consequence: BlockStatement, alternative: Option<BlockStatement>): Option<BlockStatement> {
    if !Continues(condition) then None
    else if IsTruthy(condition.value) then Some(consequence)
    else alternative
  }

  /** The condition; then the consequence if it is truthy, else the alternative, else NULL. */
  ghost predicate IfRun(d: Run, condition: Option<Expression>, consequence: BlockStatement, alternative: Option<BlockStatement>,
                        env: Environment<Object>, fuel: nat, before: Stores)
    requires env.Valid()
    decreases d, 2
  {
    && 1 <= |d.steps| <= 2 && d.frame.None?
    && var c := d.steps[0];
    && ExprRun(c, condition, env, fuel, before)
    && var block := Chosen(c.outcome, consequence, alternative);
    && (block.None? ==>
          && |d.steps| == 1 && d.after == c.after
          && d.outcome == (if Continues(c.outcome) then Normal(NULL) else c.outcome))
    && (block.Some? ==>
          && |d.steps| == 2
          && BlockRun(d.steps[1], block.value.statements, env, fuel, c.after)
          && d.after == d.steps[1].after && d.outcome == d.steps[1].outcome)
  }

  /** Arguments left to right, up to and including the first one that stops evaluation. */
  ghost predicate ArgsRun(d: Run, arguments: seq<Option<Expression>>, env: Environment<Object>, fuel: nat, before: Stores)
    requires env.Valid()
    decreases d, 2
  {
    && |d.steps| <= |arguments| && d.frame.None?
    && ArgumentsRan(d.steps, arguments, |d.steps|, env, fuel, before)
    && (|d.steps| < |arguments| ==> 0 < |d.steps| && !Continues(d.steps[|d.steps| - 1].outcome))
    && d.after == StartOf(d.steps, |d.steps|, before)
  }

  /**
   * The first `k` steps ran the first `k` arguments in order: each one
   * started from the stores the one before it left, and only after that one
   * went on.
   */
  ghost predicate ArgumentsRan(steps: seq<Run>, arguments: seq<Option<Expression>>, k: nat,
                               env: Environment<Object>, fuel: nat, before: Stores)
    requires env.Valid() && k <= |steps| && k <= |arguments|
    decreases steps, 0, k
  {
    || k == 0
    || (&& ArgumentsRan(steps, arguments, k - 1, env, fuel, before)
        && (1 < k ==> Continues(steps[k - 2].outcome))
        && ExprRun(steps[k - 1], arguments[k - 1], env, fuel, StartOf(steps, k - 1, before)))
  }

  /** The values of the argument runs, in order. */
  ghost function Values(steps: seq<Run>): seq<Object> {
    seq(|steps|, i requires 0 <= i < |steps| => if steps[i].outcome.Normal? then steps[i].outcome.value else Nil)
  }

  lemma ValuesExtend(steps: seq<Run>, step: Run)
    ensures Values(steps + [step]) == Values(steps) + [if step.outcome.Normal? then step.outcome.value else Nil]
  {
  }

  /** `evalExpressions`: the values, or the return value that replaces the whole list. */
  ghost function ArgsOutcome(steps: seq<Run>): Outcome<seq<Object>> {
    if |steps| == 0 then Normal([])
    else
      var last := steps[|steps| - 1].outcome;
      if last.Abort? then Abort(last.reason)
      else if IsError(last.value) then Normal([last.value])
      else Normal(Values(steps))
  }

  /** The arguments, then the callee, then the call. */
  ghost predicate CallRun(d: Run, fn: Option<Expression>, arguments: seq<Option<Expression>>,
                          env: Environment<Object>, fuel: nat, before: Stores)
    requires env.Valid()
    decreases d, 2
  {
    && 1 <= |d.steps| <= 3 && d.frame.None?
    && var a := d.steps[0];
    && ArgsRun(a, arguments, env, fuel, before)
    && var args := ArgsOutcome(a.steps);
    && (args.Abort? ==> |d.steps| == 1 && d.after == a.after && d.outcome == Abort(args.reason))
    && (args.Normal? ==>
          && 2 <= |d.steps|
          && var c := d.steps[1];
          && ExprRun(c, fn, env, fuel, a.after)
          && (c.outcome.Abort? ==> |d.steps| == 2 && d.after == c.after && d.outcome == c.outcome)
          && (c.outcome.Normal? ==>
                && |d.steps| == 3
                && ApplyRun(d.steps[2], c.outcome.value, args.value, fuel, c.after)
                && d.after == d.steps[2].after && d.outcome == d.steps[2].outcome))
  }

  /** What a builtin answers, as far as that does not depend on the elements of an array or hash map. */
  predicate BuiltinOutcome(name: string, args: seq<Object>, r: Outcome<Object>) {
    && (name == "len" ==>
          if |args| == 1 && args[0].Array? then r.Normal? && r.value.Integer? else r == Builtins.Len(args))
    && (name == "push" ==> Builtins.PushOutcome(args, r))
    && (name == "pop" ==> Builtins.PopOutcome(args, r))
    && (name == "keys" ==> Builtins.KeysOutcome(args, r))
    && (name == "delete" ==> Builtins.DeleteOutcome(args, r))
    && (name == "print" ==> r == Builtins.Print(args))
    && (!Builtins.IsBuiltinName(name) ==> r == Abort(Panic))
  }

  /** What a builtin does, in full: its answer and its effect on the array or hash map it is given. */
  twostate predicate BuiltinEffect(name: string, args: seq<Object>, new r: Outcome<Object>)
    reads Builtins.Target(args), Builtins.ResultArray(r)
  {
    && (name == "len" ==> r == Builtins.Len(args))
    && (name == "push" ==> Builtins.Pushed(args, r))
    && (name == "pop" ==> Builtins.Popped(args, r))
    && (name == "keys" ==> exists order :: Builtins.KeysListed(args, r, order))
    && (name == "delete" ==> Builtins.Deleted(args, r))
    && (name == "print" ==> r == Builtins.Print(args))
    && (!Builtins.IsBuiltinName(name) ==> r == Abort(Panic))
  }

  /** A callee that does not run a body: a nil callee, a refused call of a user function, or a non-function. */
  function Refused(callee: Object, args: seq<Object>): Outcome<Object> {
    match callee
    case Nil => Abort(Panic)
    case Function(parameters, _, _) =>
      // Go's guard `len(arguments) == 0 && arguments[0]...` indexes an empty slice
      if |args| == 0 then Abort(Panic)
      else if |args| > |parameters| then Normal(Error("too many arguments"))
      else if |args| < |parameters| then Normal(Error("not enough arguments"))
      else Abort(FuelExhausted)
    case _ => Normal(Error("not a function: " + Type(callee)))
  }

  /**
   * The call of an evaluated callee. A user function given as many arguments
   * as it has parameters runs its body on one unit of fuel less, in a frame
   * that did not exist before, encloses the function's environment and
   * binds the parameters; the body's return value is unwrapped. Any other
   * call runs no node and changes no store.
   */
  ghost predicate ApplyRun(a: Run, callee: Object, args: seq<Object>, fuel: nat, before: Stores)
    decreases a, 1
  {
    if callee.Function? && 0 < |args| == |callee.parameters| && 0 < fuel then
      && |a.steps| == 1 && a.frame.Some?
      && var frame := a.frame.value;
      && frame !in before && frame.Valid() && frame.outer == callee.env
      && var body := a.steps[0];
      && BlockRun(body, callee.body.statements, frame, fuel - 1, before[frame := Bind(callee.parameters, args)])
      && a.after == body.after
      && a.outcome == (if body.outcome.Normal? then Normal(Unwrap(body.outcome.value)) else body.outcome)
    else
      && a.steps == [] && a.frame.None? && a.after == before
      && (callee.Builtin? ==> BuiltinOutcome(callee.builtinName, args, a.outcome))
      && (!callee.Builtin? ==> a.outcome == Refused(callee, args))
  }

  /** Statements in order, each from the stores the previous one left, up to the first that does not proceed. */
  ghost predicate SequenceRun(d: Run, statements: seq<Statement>, env: Environment<Object>, fuel: nat, before: Stores)
    requires env.Valid()
    decreases d, 1
  {
    && |d.steps| <= |statements| && d.frame.None?
    && StatementsRan(d.steps, statements, |d.steps|, env, fuel, before)
    && (|d.steps| < |statements| ==> 0 < |d.steps| && !Proceeds(d.steps[|d.steps| - 1].outcome))
    && d.after == StartOf(d.steps, |d.steps|, before)
  }

  /**
   * The first `k` steps ran the first `k` statements in order: each one
   * started from the stores the one before it left, and only after that one
   * proceeded.
   */
  ghost predicate StatementsRan(steps: seq<Run>, statements: seq<Statement>, k: nat,
                                env: Environment<Object>, fuel: nat, before: Stores)
    requires env.Valid() && k <= |steps| && k <= |statements|
    decreases steps, 0, k
  {
    || k == 0
    || (&& StatementsRan(steps, statements, k - 1, env, fuel, before)
        && (1 < k ==> Proceeds(steps[k - 2].outcome))
        && StatementRun(steps[k - 1], statements[k - 1], env, fuel, StartOf(steps, k - 1, before)))
  }

  /** A block gives what its last statement gave, a return value still wrapped; an empty block gives nil. */
  ghost predicate BlockRun(d: Run, statements: seq<Statement>, env: Environment<Object>, fuel: nat, before: Stores)
    requires env.Valid()
    decreases d, 2
  {
    SequenceRun(d, statements, env, fuel, before) && d.outcome == LastOutcome(d.steps)
  }

  /** A program is a block whose final return value is unwrapped. */
  ghost predicate ProgramRun(d: Run, program: Program, env: Environment<Object>, fuel: nat, before: Stores)
    requires env.Valid()
    decreases d, 2
  {
    && SequenceRun(d, program.statements, env, fuel, before)
    && var last := LastOutcome(d.steps);
    && d.outcome == (if last.Normal? then Normal(Unwrap(last.value)) else last)
  }

  ghost predicate StatementRun(d: Run, statement: Statement, env: Environment<Object>, fuel: nat, before: Stores)
    requires env.Valid()
    decreases d, 5
  {
    match statement
    case ExpressionStatement(_, expression) => ExprRun(d, expression, env, fuel, before)
    case Block(block) => BlockRun(d, block.statements, env, fuel, before)
    case ReturnStatement(_, returnValue) =>
      && |d.steps| == 1 && d.frame.None?
      && var v := d.steps[0];
      && ExprRun(v, returnValue, env, fuel, before)
      && d.after == v.after
      && d.outcome == (if Continues(v.outcome) then Normal(ReturnValue(v.outcome.value)) else v.outcome)
    case Let(s) =>
      && |d.steps| == 1 && d.frame.None?
      && var v := d.steps[0];
      && ExprRun(v, s.value, env, fuel, before)
      && d.outcome == v.outcome
      && d.after == (if Continues(v.outcome) then v.after[env := StoreIn(v.after, env)[s.identifier.value := v.outcome.value]] else v.after)
    case NilLet =>
      // the nil *LetStatement is dereferenced
      Settled(d, before, Abort(Panic))
  }

  /** After a `let` that goes on, its name resolves to the bound value in the same frame. */
  lemma LetThenLookup(d: Run, s: LetStatement, env: Environment<Object>, fuel: nat, before: Stores, lookup: Run)
    requires env.Valid()
    requires StatementRun(d, Let(s), env, fuel, before) && Continues(d.outcome)
    requires ExprRun(lookup, Some(Ident(s.identifier)), env, fuel, d.after)
    ensures lookup.outcome == d.outcome
  {
    var v := d.steps[0];
    assert StoreIn(d.after, env) == StoreIn(v.after, env)[s.identifier.value := v.outcome.value];
  }

  /**
   * A `let` binds its name over the frame its value left, which need not be
   * the frame it started from: an `if` block runs in the same frame, so
   * `let x = if (true) { let y = 1 }` binds `y` as well as `x`.
   */
  lemma LetValueBindsToo(d: Run, env: Environment<Object>, fuel: nat, before: Stores, t: Tokens.Token)
    requires env.Valid() && "y" !in StoreIn(before, env)
    requires var letY := Let(LetStatement(t, Identifier(t, "y"), Some(IntegerLiteral(t, 1))));
      var value := IfExpression(t, Some(BooleanLiteral(t, true)), BlockStatement(t, [letY]), None);
      StatementRun(d, Let(LetStatement(t, Identifier(t, "x"), Some(value))), env, fuel, before)
    ensures d.outcome == Normal(Integer(1))
    ensures StoreIn(d.after, env) == StoreIn(before, env)["y" := Integer(1)]["x" := Integer(1)]
    ensures StoreIn(d.after, env) != StoreIn(before, env)["x" := d.outcome.value]
  {
    var letY := Let(LetStatement(t, Identifier(t, "y"), Some(IntegerLiteral(t, 1))));
    var consequence := BlockStatement(t, [letY]);
    var value := IfExpression(t, Some(BooleanLiteral(t, true)), consequence, None);
    assert StatementRun(d, Let(LetStatement(t, Identifier(t, "x"), Some(value))), env, fuel, before);
    var v := d.steps[0];
    assert NodeRun(v, value, env, fuel, before);
    assert IfRun(v, Some(BooleanLiteral(t, true)), consequence, None, env, fuel, before);
    var c := v.steps[0];
    assert ExprRun(c, Some(BooleanLiteral(t, true)), env, fuel, before);
    assert NodeRun(c, BooleanLiteral(t, true), env, fuel, before);
    assert Chosen(c.outcome, consequence, None) == Some(consequence);
    LetInBlock(v.steps[1], env, fuel, before, t);
    assert "y" in StoreIn(d.after, env);
  }

  /** The block `{ let y = 1 }` gives 1 and binds `y` in its own frame. */
  lemma LetInBlock(block: Run, env: Environment<Object>, fuel: nat, before: Stores, t: Tokens.Token)
    requires env.Valid()
    requires BlockRun(block, [Let(LetStatement(t, Identifier(t, "y"), Some(IntegerLiteral(t, 1))))], env, fuel, before)
    ensures block.outcome == Normal(Integer(1))
    ensures block.after == before[env := StoreIn(before, env)["y" := Integer(1)]]
  {
    var letY := Let(LetStatement(t, Identifier(t, "y"), Some(IntegerLiteral(t, 1))));
    assert SequenceRun(block, [letY], env, fuel, before);
    assert |block.steps| == 1;
    assert StatementsRan(block.steps, [letY], 1, env, fuel, before);
    var y := block.steps[0];
    assert StatementRun(y, letY, env, fuel, before);
    assert ExprRun(y.steps[0], Some(IntegerLiteral(t, 1)), env, fuel, before);
    assert NodeRun(y.steps[0], IntegerLiteral(t, 1), env, fuel, before);
  }

  // ---------------------------------------------------------------------
  // Evaluation

  /** The program's statements in order; a return value stops it and is unwrapped, an error stops it. */
  method EvalProgram(program: Program, env: Environment<Object>, fuel: nat, ghost heap: set<object>)
    returns (r: Outcome<Object>, ghost heap': set<object>, ghost run: Run)
    requires Closed(heap) && env in heap
    modifies heap
    ensures heap <= heap' && fresh(heap' - heap) && Closed(heap')
    ensures r.Normal? ==> Storable(r.value, heap')
    ensures forall e: Environment<Object> | e in heap && e != env :: e.store == old(e.store)
    ensures ProgramRun(run, program, env, fuel, old(Snapshot(heap)))
    ensures run.outcome == r && run.after == Snapshot(heap')
    ensures r.Normal? ==> !r.value.ReturnValue?
    decreases fuel, program
  {
    ghost var before := Snapshot(heap);
    ghost var steps: seq<Run> := [];
    var result := Normal(Nil);
    heap' := heap;
    var i := 0;
    while i < |program.statements| && Proceeds(result)
      invariant i <= |program.statements| && |steps| == i
      invariant heap <= heap' && fresh(heap' - heap) && Closed(heap')
      invariant result.Normal? ==> Storable(result.value, heap')
      invariant StatementsRan(steps, program.statements, i, env, fuel, before)
      invariant result == LastOutcome(steps)
      invariant StartOf(steps, i, before) == Snapshot(heap')
      invariant forall e: Environment<Object> | e in heap && e != env :: e.store == old(e.store)
      decreases |program.statements| - i
    {
      ghost var step := Run([], None, map[], Normal(Nil));
      result, heap', step := EvalStatementAt(program.statements, i, steps, env, fuel, heap', before);
      steps := steps + [step];
      i := i + 1;
    }
    if result.Normal? && result.value.ReturnValue? {
      r := Normal(result.value.returnValue);
    } else {
      r := result;
    }
    SequenceEnds(steps, program.statements, env, fuel, before, r);
    run := Run(steps, None, Snapshot(heap'), r);
  }

  /** A statement loop that ran out of statements, or stopped at one that did not proceed, ran the sequence. */
  lemma SequenceEnds(steps: seq<Run>, statements: seq<Statement>, env: Environment<Object>, fuel: nat,
                     before: Stores, outcome: Outcome<Object>)
    requires env.Valid() && |steps| <= |statements|
    requires StatementsRan(steps, statements, |steps|, env, fuel, before)
    requires |steps| < |statements| ==> !Proceeds(LastOutcome(steps))
    ensures SequenceRun(Run(steps, None, StartOf(steps, |steps|, before), outcome), statements, env, fuel, before)
  { }

  /** Appending a step keeps where every earlier step starts. */
  lemma StepsExtend(steps: seq<Run>, step: Run, before: Stores)
    ensures forall j | 0 <= j <= |steps| :: StartOf(steps + [step], j, before) == StartOf(steps, j, before)
    ensures StartOf(steps + [step], |steps| + 1, before) == step.after
  {
    forall j | 0 < j <= |steps|
      ensures StartOf(steps + [step], j, before) == StartOf(steps, j, before)
    {
      assert (steps + [step])[j - 1] == steps[j - 1];
    }
  }

  /** Steps that ran a prefix of the statements still do after more steps are appended. */
  lemma {:induction false} StatementsRanPrefix(steps: seq<Run>, step: Run, statements: seq<Statement>, k: nat,
                                               env: Environment<Object>, fuel: nat, before: Stores)
    requires env.Valid() && k <= |steps| && k <= |statements|
    requires StatementsRan(steps, statements, k, env, fuel, before)
    ensures StatementsRan(steps + [step], statements, k, env, fuel, before)
    decreases k
  {
    if k > 0 {
      StatementsRanPrefix(steps, step, statements, k - 1, env, fuel, before);
      StepsExtend(steps, step, before);
      assert (steps + [step])[k - 1] == steps[k - 1];
      assert 1 < k ==> (steps + [step])[k - 2] == steps[k - 2];
    }
  }

  /** One more statement run from where the last one ended extends the prefix that ran. */
  lemma StatementsRanExtend(steps: seq<Run>, step: Run, statements: seq<Statement>, statement: Statement,
                            env: Environment<Object>, fuel: nat, before: Stores, start: Stores)
    requires env.Valid() && |steps| < |statements| && statement == statements[|steps|]
    requires StatementsRan(steps, statements, |steps|, env, fuel, before)
    requires 0 < |steps| ==> Proceeds(steps[|steps| - 1].outcome)
    requires start == StartOf(steps, |steps|, before)
    requires StatementRun(step, statement, env, fuel, start)
    ensures StatementsRan(steps + [step], statements, |steps| + 1, env, fuel, before)
    ensures StartOf(steps + [step], |steps| + 1, before) == step.after
  {
    StatementsRanPrefix(steps, step, statements, |steps|, env, fuel, before);
    StepsExtend(steps, step, before);
  }

  /** Arguments evaluated for a prefix still are after more steps are appended. */
  lemma {:induction false} ArgumentsRanPrefix(steps: seq<Run>, step: Run, arguments: seq<Option<Expression>>, k: nat,
                                              env: Environment<Object>, fuel: nat, before: Stores)
    requires env.Valid() && k <= |steps| && k <= |arguments|
    requires ArgumentsRan(steps, arguments, k, env, fuel, before)
    ensures ArgumentsRan(steps + [step], arguments, k, env, fuel, before)
    decreases k
  {
    if k > 0 {
      ArgumentsRanPrefix(steps, step, arguments, k - 1, env, fuel, before);
      StepsExtend(steps, step, before);
      assert (steps + [step])[k - 1] == steps[k - 1];
      assert 1 < k ==> (steps + [step])[k - 2] == steps[k - 2];
    }
  }

  /** One more argument evaluated from where the last one ended extends the prefix that ran. */
  lemma ArgumentsRanExtend(steps: seq<Run>, step: Run, arguments: seq<Option<Expression>>, argument: Option<Expression>,
                           env: Environment<Object>, fuel: nat, before: Stores, start: Stores)
    requires env.Valid() && |steps| < |arguments| && argument == arguments[|steps|]
    requires ArgumentsRan(steps, arguments, |steps|, env, fuel, before)
    requires 0 < |steps| ==> Continues(steps[|steps| - 1].outcome)
    requires start == StartOf(steps, |steps|, before)
    requires ExprRun(step, argument, env, fuel, start)
    ensures ArgumentsRan(steps + [step], arguments, |steps| + 1, env, fuel, before)
    ensures StartOf(steps + [step], |steps| + 1, before) == step.after
  {
    ArgumentsRanPrefix(steps, step, arguments, |steps|, env, fuel, before);
    StepsExtend(steps, step, before);
  }

  /** A block: stops at a return value, which stays wrapped, or at an error; an empty block is nil. */
  method EvalStatements(statements: seq<Statement>, env: Environment<Object>, fuel: nat, ghost heap: set<object>)
    returns (r: Outcome<Object>, ghost heap': set<object>, ghost run: Run)
    requires Closed(heap) && env in heap
    modifies heap
    ensures heap <= heap' && fresh(heap' - heap) && Closed(heap')
    ensures r.Normal? ==> Storable(r.value, heap')
    ensures forall e: Environment<Object> | e in heap && e != env :: e.store == old(e.store)
    ensures BlockRun(run, statements, env, fuel, old(Snapshot(heap)))
    ensures run.outcome == r && run.after == Snapshot(heap')
    decreases fuel, statements, 1
  {
    ghost var before := Snapshot(heap);
    ghost var steps: seq<Run> := [];
    r := Normal(Nil);
    heap' := heap;
    var i := 0;
    while i < |statements| && Proceeds(r)
      invariant i <= |statements| && |steps| == i
      invariant heap <= heap' && fresh(heap' - heap) && Closed(heap')
      invariant r.Normal? ==> Storable(r.value, heap')
      invariant StatementsRan(steps, statements, i, env, fuel, before)
      invariant r == LastOutcome(steps)
      invariant StartOf(steps, i, before) == Snapshot(heap')
      invariant forall e: Environment<Object> | e in heap && e != env :: e.store == old(e.store)
      decreases |statements| - i
    {
      ghost var step := Run([], None, map[], Normal(Nil));
      r, heap', step := EvalStatementAt(statements, i, steps, env, fuel, heap', before);
      steps := steps + [step];
      i := i + 1;
    }
    SequenceEnds(steps, statements, env, fuel, before, r);
    run := Run(steps, None, Snapshot(heap'), r);
  }

  /** The next statement of a sequence, run from the stores the ones before it left. */
  method EvalStatementAt(statements: seq<Statement>, i: nat, ghost steps: seq<Run>, env: Environment<Object>, fuel: nat,
                         ghost heap: set<object>, ghost before: Stores)
    returns (r: Outcome<Object>, ghost heap': set<object>, ghost step: Run)
    requires Closed(heap) && env in heap && i == |steps| < |statements|
    requires StatementsRan(steps, statements, i, env, fuel, before)
    requires 0 < i ==> Proceeds(steps[i - 1].outcome)
    requires StartOf(steps, i, before) == Snapshot(heap)
    modifies heap
    ensures heap <= heap' && fresh(heap' - heap) && Closed(heap')
    ensures r.Normal? ==> Storable(r.value, heap')
    ensures forall e: Environment<Object> | e in heap && e != env :: e.store == old(e.store)
    ensures StatementsRan(steps + [step], statements, i + 1, env, fuel, before)
    ensures step.outcome == r && StartOf(steps + [step], i + 1, before) == Snapshot(heap')
    decreases fuel, statements, 0
  {
    ghost var start := Snapshot(heap);
    r, heap', step := EvalStatement(statements[i], env, fuel, heap);
    StatementsRanExtend(steps, step, statements, statements[i], env, fuel, before, start);
  }

  /**
   * One statement. A `let` whose value goes on binds it in `env` itself,
   * over the store as the value's evaluation left it.
   */
  method EvalStatement(statement: Statement, env: Environment<Object>, fuel: nat, ghost heap: set<object>)
    returns (r: Outcome<Object>, ghost heap': set<object>, ghost run: Run)
    requires Closed(heap) && env in heap
    modifies heap
    ensures heap <= heap' && fresh(heap' - heap) && Closed(heap')
    ensures r.Normal? ==> Storable(r.value, heap')
    ensures forall e: Environment<Object> | e in heap && e != env :: e.store == old(e.store)
    ensures StatementRun(run, statement, env, fuel, old(Snapshot(heap)))
    ensures run.outcome == r && run.after == Snapshot(heap')
    ensures statement.NilLet? ==> r == Abort(Panic)
    ensures statement.ReturnStatement? && r.Normal? ==> r.value.ReturnValue?
    ensures statement.Let? && Continues(r) ==>
      env.store == StoreIn(run.steps[0].after, env)[statement.letStatement.identifier.value := r.value]
    decreases fuel, statement
  {
    match statement
    case ExpressionStatement(_, expression) =>
      r, heap', run := EvalExpression(expression, env, fuel, heap);
    case Block(block) =>
      r, heap', run := EvalStatements(block.statements, env, fuel, heap);
    case ReturnStatement(_, returnValue) =>
      var value;
      ghost var v;
      value, heap', v := EvalExpression(returnValue, env, fuel, heap);
      if value.Abort? || IsError(value.value) {
        return value, heap', Run([v], None, v.after, value);
      }
      r := Normal(ReturnValue(value.value));
      run := Run([v], None, v.after, r);
    case Let(s) =>
      var value;
      ghost var v;
      value, heap', v := EvalExpression(s.value, env, fuel, heap);
      if value.Abort? || IsError(value.value) {
        return value, heap', Run([v], None, v.after, value);
      }
      SetBinding(env, s.identifier.value, value.value, heap');
      r := value;
      run := Run([v], None, Snapshot(heap'), r);
    case NilLet =>
      // the nil *LetStatement is dereferenced
      r, heap' := Abort(Panic), heap;
      run := Run([], None, Snapshot(heap), r);
  }

  /** `env.Set`, keeping the heap closed; no other store changes. */
  method SetBinding(env: Environment<Object>, key: string, value: Object, ghost heap: set<object>)
    requires Closed(heap) && env in heap && Storable(value, heap)
    modifies env
    ensures Closed(heap)
    ensures env.store == old(env.store)[key := value]
    ensures Snapshot(heap) == old(Snapshot(heap))[env := env.store]
  {
    ghost var earlier := Snapshot(heap);
    var _ := env.Set(key, value);
    SnapshotRebind(heap, env, earlier);
  }

  method EvalExpression(expression: Option<Expression>, env: Environment<Object>, fuel: nat, ghost heap: set<object>)
    returns (r: Outcome<Object>, ghost heap': set<object>, ghost run: Run)
    requires Closed(heap) && env in heap
    modifies heap
    ensures heap <= heap' && fresh(heap' - heap) && Closed(heap')
    ensures r.Normal? ==> Storable(r.value, heap')
    ensures forall e: Environment<Object> | e in heap && e != env :: e.store == old(e.store)
    ensures ExprRun(run, expression, env, fuel, old(Snapshot(heap)))
    ensures run.outcome == r && run.after == Snapshot(heap')
    decreases fuel, expression
  {
    match expression
    case None =>
      r, heap', run := Normal(Nil), heap, Run([], None, Snapshot(heap), Normal(Nil));
    case Some(node) =>
      r, heap', run := EvalNode(node, env, fuel, heap);
  }

  /** A node that is present: literals and identifiers at once, the other nodes through their own evaluation. */
  method EvalNode(node: Expression, env: Environment<Object>, fuel: nat, ghost heap: set<object>)
    returns (r: Outcome<Object>, ghost heap': set<object>, ghost run: Run)
    requires Closed(heap) && env in heap
    modifies heap
    ensures heap <= heap' && fresh(heap' - heap) && Closed(heap')
    ensures r.Normal? ==> Storable(r.value, heap')
    ensures forall e: Environment<Object> | e in heap && e != env :: e.store == old(e.store)
    ensures NodeRun(run, node, env, fuel, old(Snapshot(heap)))
    ensures run.outcome == r && run.after == Snapshot(heap')
    decreases fuel, node, 3
  {
    heap' := heap;
    match node
    case IntegerLiteral(_, value) =>
      r := Normal(Integer(value));
      run := Run([], None, Snapshot(heap), r);
    case StringLiteral(_, value) =>
      r := Normal(String(value));
      run := Run([], None, Snapshot(heap), r);
    case BooleanLiteral(_, value) =>
      r := Normal(NativeBool(value));
      run := Run([], None, Snapshot(heap), r);
    case Ident(identifier) =>
      IdentifierIsStorable(identifier, env, heap);
      SnapshotBindings(heap, env);
      r := Normal(EvalIdentifier(identifier, env));
      run := Run([], None, Snapshot(heap), r);
    case FunctionLiteral(_, parameters, body) =>
      r := Normal(Function(parameters, body, env));
      run := Run([], None, Snapshot(heap), r);
    case PrefixExpression(_, _, _) =>
      r, heap', run := EvalPrefixExpression(node, env, fuel, heap);
    case InfixExpression(_, _, _, _) =>
      r, heap', run := EvalInfixExpression(node, env, fuel, heap);
    case IfExpression(_, _, _, _) =>
      r, heap', run := EvalIfExpression(node, env, fuel, heap);
    case CallExpression(_, _, _) =>
      r, heap', run := EvalCallExpression(node, env, fuel, heap);
  }

  lemma IdentifierIsStorable(identifier: Identifier, env: Environment<Object>, heap: set<object>)
    requires Closed(heap) && env in heap
    ensures Storable(EvalIdentifier(identifier, env), heap)
  {
    match env.Get(identifier.value)
    case Some(value) =>
      var f :| f in env.Chain() && identifier.value in f.store && f.store[identifier.value] == value;
      assert f in heap;
    case None =>
  }

  /** The operand first; then the operator, unless the operand is a return value. */
  method EvalPrefixExpression(node: Expression, env: Environment<Object>, fuel: nat, ghost heap: set<object>)
    returns (r: Outcome<Object>, ghost heap': set<object>, ghost run: Run)
    requires node.PrefixExpression?
    requires Closed(heap) && env in heap
    modifies heap
    ensures heap <= heap' && fresh(heap' - heap) && Closed(heap')
    ensures r.Normal? ==> Storable(r.value, heap')
    ensures forall e: Environment<Object> | e in heap && e != env :: e.store == old(e.store)
    ensures PrefixRun(run, node.operator, node.right, env, fuel, old(Snapshot(heap)))
    ensures run.outcome == r && run.after == Snapshot(heap')
    decreases fuel, node, 2
  {
    var right;
    ghost var operand;
    right, heap', operand := EvalExpression(node.right, env, fuel, heap);
    if right.Abort? || IsError(right.value) {
      return right, heap', Run([operand], None, operand.after, right);
    }
    r := PrefixResult(node.operator, right.value);
    run := Run([operand], None, operand.after, r);
  }

  /**
   * The right operand is evaluated first, and the left one only if the right
   * one is not a return value.
   */
  method EvalInfixExpression(node: Expression, env: Environment<Object>, fuel: nat, ghost heap: set<object>)
    returns (r: Outcome<Object>, ghost heap': set<object>, ghost run: Run)
    requires node.InfixExpression?
    requires Closed(heap) && env in heap
    modifies heap
    ensures heap <= heap' && fresh(heap' - heap) && Closed(heap')
    ensures r.Normal? ==> Storable(r.value, heap')
    ensures forall e: Environment<Object> | e in heap && e != env :: e.store == old(e.store)
    ensures InfixRun(run, node.left, node.operator, node.right, env, fuel, old(Snapshot(heap)))
    ensures run.outcome == r && run.after == Snapshot(heap')
    decreases fuel, node, 2
  {
    var rightResult;
    ghost var right;
    rightResult, heap', right := EvalExpression(node.right, env, fuel, heap);
    if rightResult.Abort? || IsError(rightResult.value) {
      return rightResult, heap', Run([right], None, right.after, rightResult);
    }
    var leftResult;
    ghost var left;
    leftResult, heap', left := EvalExpression(node.left, env, fuel, heap');
    if leftResult.Abort? || IsError(leftResult.value) {
      return leftResult, heap', Run([right, left], None, left.after, leftResult);
    }
    r := InfixResult(node.operator, leftResult.value, rightResult.value);
    run := Run([right, left], None, left.after, r);
  }

  /** The consequence when the condition is truthy, else the alternative if there is one, else NULL. */
  method EvalIfExpression(node: Expression, env: Environment<Object>, fuel: nat, ghost heap: set<object>)
    returns (r: Outcome<Object>, ghost heap': set<object>, ghost run: Run)
    requires node.IfExpression?
    requires Closed(heap) && env in heap
    modifies heap
    ensures heap <= heap' && fresh(heap' - heap) && Closed(heap')
    ensures r.Normal? ==> Storable(r.value, heap')
    ensures forall e: Environment<Object> | e in heap && e != env :: e.store == old(e.store)
    ensures IfRun(run, node.condition, node.consequence, node.alternative, env, fuel, old(Snapshot(heap)))
    ensures run.outcome == r && run.after == Snapshot(heap')
    decreases fuel, node, 2
  {
    var c;
    ghost var condition;
    c, heap', condition := EvalExpression(node.condition, env, fuel, heap);
    if c.Abort? || IsError(c.value) {
      return c, heap', Run([condition], None, condition.after, c);
    }
    ghost var block;
    if IsTruthy(c.value) {
      r, heap', block := EvalStatements(node.consequence.statements, env, fuel, heap');
      run := Run([condition, block], None, block.after, r);
    } else if node.alternative.Some? {
      r, heap', block := EvalStatements(node.alternative.value.statements, env, fuel, heap');
      run := Run([condition, block], None, block.after, r);
    } else {
      r := Normal(NULL);
      run := Run([condition], None, condition.after, r);
    }
  }

  /** Arguments left to right; the first return value replaces the whole list. */
  method EvalExpressions(arguments: seq<Option<Expression>>, env: Environment<Object>, fuel: nat, ghost heap: set<object>)
    returns (r: Outcome<seq<Object>>, ghost heap': set<object>, ghost run: Run)
    requires Closed(heap) && env in heap
    modifies heap
    ensures heap <= heap' && fresh(heap' - heap) && Closed(heap')
    ensures r.Normal? ==> AllStorable(r.value, heap')
    ensures forall e: Environment<Object> | e in heap && e != env :: e.store == old(e.store)
    ensures ArgsRun(run, arguments, env, fuel, old(Snapshot(heap)))
    ensures r == ArgsOutcome(run.steps) && run.after == Snapshot(heap')
    decreases fuel, arguments, 1
  {
    ghost var before := Snapshot(heap);
    ghost var steps: seq<Run> := [];
    var evaluated: seq<Object> := [];
    heap' := heap;
    r := Normal([]);
    var i, stop := 0, false;
    while i < |arguments| && !stop
      invariant i <= |arguments| && |steps| == i
      invariant heap <= heap' && fresh(heap' - heap) && Closed(heap')
      invariant stop <==> 0 < i && !Continues(steps[i - 1].outcome)
      invariant r == ArgsOutcome(steps)
      invariant !stop ==> r == Normal(evaluated)
      invariant r.Normal? ==> AllStorable(r.value, heap')
      invariant ArgumentsRan(steps, arguments, i, env, fuel, before)
      invariant StartOf(steps, i, before) == Snapshot(heap')
      invariant forall e: Environment<Object> | e in heap && e != env :: e.store == old(e.store)
      decreases |arguments| - i
    {
      var value;
      ghost var step, grown := Run([], None, map[], Normal(Nil)), heap';
      value, heap', step := EvalArgument(arguments, i, steps, env, fuel, heap', before);
      AllStorableGrows(evaluated, grown, heap');
      ArgsOutcomeExtend(steps, step);
      steps := steps + [step];
      i := i + 1;
      if value.Abort? {
        r, stop := Abort(value.reason), true;
      } else if IsError(value.value) {
        r, stop := Normal([value.value]), true;
      } else {
        evaluated := evaluated + [value.value];
        r := Normal(evaluated);
      }
    }
    ArgumentsEnd(steps, arguments, env, fuel, before);
    run := Run(steps, None, Snapshot(heap'), Normal(Nil));
  }

  /** One more argument run: its abort or return value replaces the list, any other value is appended. */
  lemma ArgsOutcomeExtend(steps: seq<Run>, step: Run)
    requires 0 < |steps| ==> Continues(steps[|steps| - 1].outcome)
    ensures ArgsOutcome(steps) == Normal(Values(steps))
    ensures ArgsOutcome(steps + [step]) ==
      if step.outcome.Abort? then Abort(step.outcome.reason)
      else if IsError(step.outcome.value) then Normal([step.outcome.value])
      else Normal(Values(steps) + [step.outcome.value])
  {
    ValuesExtend(steps, step);
  }

  /** An argument loop that ran out of arguments, or stopped at one that did not continue, ran the arguments. */
  lemma ArgumentsEnd(steps: seq<Run>, arguments: seq<Option<Expression>>, env: Environment<Object>, fuel: nat, before: Stores)
    requires env.Valid() && |steps| <= |arguments|
    requires ArgumentsRan(steps, arguments, |steps|, env, fuel, before)
    requires |steps| < |arguments| ==> 0 < |steps| && !Continues(steps[|steps| - 1].outcome)
    ensures ArgsRun(Run(steps, None, StartOf(steps, |steps|, before), Normal(Nil)), arguments, env, fuel, before)
  { }

  /** The next argument, evaluated from the stores the ones before it left. */
  method EvalArgument(arguments: seq<Option<Expression>>, i: nat, ghost steps: seq<Run>, env: Environment<Object>, fuel: nat,
                      ghost heap: set<object>, ghost before: Stores)
    returns (r: Outcome<Object>, ghost heap': set<object>, ghost step: Run)
    requires Closed(heap) && env in heap && i == |steps| < |arguments|
    requires ArgumentsRan(steps, arguments, |steps|, env, fuel, before)
    requires 0 < |steps| ==> Continues(steps[|steps| - 1].outcome)
    requires StartOf(steps, |steps|, before) == Snapshot(heap)
    modifies heap
    ensures heap <= heap' && fresh(heap' - heap) && Closed(heap')
    ensures r.Normal? ==> Storable(r.value, heap')
    ensures forall e: Environment<Object> | e in heap && e != env :: e.store == old(e.store)
    ensures ArgumentsRan(steps + [step], arguments, |steps| + 1, env, fuel, before)
    ensures step.outcome == r && StartOf(steps + [step], |steps| + 1, before) == Snapshot(heap')
    decreases fuel, arguments, 0
  {
    ghost var start := Snapshot(heap);
    r, heap', step := EvalExpression(arguments[i], env, fuel, heap);
    ArgumentsRanExtend(steps, step, arguments, arguments[i], env, fuel, before, start);
  }

  /** A fresh frame enclosing the function's environment, with the parameters bound positionally. */
  method NewFrame(closure: Object, arguments: seq<Object>, ghost heap: set<object>)
    returns (frame: Environment<Object>)
    requires closure.Function? && |arguments| == |closure.parameters|
    requires Closed(heap) && Refs(closure) <= heap
    requires AllStorable(arguments, heap)
    ensures fresh(frame) && frame.Valid() && frame.outer == closure.env
    ensures frame.store == Bind(closure.parameters, arguments)
    ensures Closed(heap + {frame})
    ensures Snapshot(heap + {frame}) == old(Snapshot(heap))[frame := frame.store]
  {
    frame := new Environment<Object>.Enclosed(closure.env);
    EmptyFrameClosed(heap, frame);
    for i := 0 to |closure.parameters|
      invariant frame.Valid() && frame.outer == closure.env
      invariant frame.store == Bind(closure.parameters[..i], arguments[..i])
      invariant Closed(heap + {frame})
    {
      BindExtend(closure.parameters, arguments, i);
      SetBinding(frame, closure.parameters[i].value, arguments[i], heap + {frame});
    }
    assert closure.parameters[..|closure.parameters|] == closure.parameters;
    assert arguments[..|arguments|] == arguments;
    SnapshotKept(heap);
    SnapshotAdd(heap, frame);
  }

  /** The stores of a heap none of whose environments was written are the same as before. */
  twostate lemma SnapshotKept(heap: set<object>)
    requires forall e: Environment<Object> | e in heap :: e.store == old(e.store)
    ensures Snapshot(heap) == old(Snapshot(heap))
  {
  }

  /** Changing one environment's store changes only its entry. */
  lemma SnapshotRebind(heap: set<object>, env: Environment<Object>, earlier: Stores)
    requires env in heap
    requires forall e: Environment<Object> | e in heap && e != env :: e in earlier && earlier[e] == e.store
    requires forall e | e in earlier :: e in heap
    ensures Snapshot(heap) == earlier[env := env.store]
  {
  }

  /** One more environment adds its own store. */
  lemma SnapshotAdd(heap: set<object>, e: Environment<Object>)
    ensures Snapshot(heap + {e}) == Snapshot(heap)[e := e.store]
  {
  }

  /** An array joining the heap adds no store. */
  lemma SnapshotAddArray(heap: set<object>, a: ArrayObject)
    ensures Snapshot(heap + {a}) == Snapshot(heap)
  {
  }

  /** An empty frame whose outer frames are in a closed heap closes it again. */
  lemma EmptyFrameClosed(heap: set<object>, frame: Environment<Object>)
    requires Closed(heap) && frame.Valid() && frame.store == map[]
    requires frame.outer != null && frame.outer in heap
    ensures Closed(heap + {frame})
  {
  }

  /** Binding one more parameter adds exactly its name. */
  lemma BindExtend(parameters: seq<Identifier>, arguments: seq<Object>, i: nat)
    requires |parameters| == |arguments| && i < |parameters|
    ensures Bind(parameters[..i + 1], arguments[..i + 1]) == Bind(parameters[..i], arguments[..i])[parameters[i].value := arguments[i]]
  {
    assert parameters[..i + 1][..i] == parameters[..i];
    assert arguments[..i + 1][..i] == arguments[..i];
  }

  ghost predicate AllStorable(values: seq<Object>, heap: set<object>) {
    forall i | 0 <= i < |values| :: Storable(values[i], heap)
  }

  lemma AllStorableGrows(values: seq<Object>, heap: set<object>, heap': set<object>)
    requires AllStorable(values, heap) && heap <= heap'
    ensures AllStorable(values, heap')
  {
  }

  /** `push` inside a closed heap: its fresh array joins the heap. */
  method PushInHeap(arguments: seq<Object>, ghost heap: set<object>)
    returns (r: Outcome<Object>, ghost heap': set<object>)
    requires Closed(heap) && AllStorable(arguments, heap)
    ensures heap <= heap' && fresh(heap' - heap) && Closed(heap')
    ensures r.Normal? ==> Storable(r.value, heap')
    ensures Builtins.Pushed(arguments, r)
    ensures Snapshot(heap') == old(Snapshot(heap))
  {
    r := Builtins.Push(arguments);
    heap' := heap;
    if |arguments| == 2 && arguments[0].Array? {
      var a := r.value.arrayObject;
      heap' := heap + {a};
      assert forall i | 0 <= i < |a.elements| :: Storable(a.elements[i], heap);
      SnapshotAddArray(heap, a);
    }
  }

  /** `keys` inside a closed heap: its fresh array of stored keys joins the heap. */
  method KeysInHeap(arguments: seq<Object>, ghost heap: set<object>)
    returns (r: Outcome<Object>, ghost heap': set<object>, ghost order: seq<uint64>)
    requires Closed(heap) && AllStorable(arguments, heap)
    ensures heap <= heap' && fresh(heap' - heap) && Closed(heap')
    ensures r.Normal? ==> Storable(r.value, heap')
    ensures Builtins.KeysListed(arguments, r, order)
    ensures Snapshot(heap') == old(Snapshot(heap))
  {
    r, order := Builtins.Keys(arguments);
    heap' := heap;
    if |arguments| == 1 && arguments[0].HashMap? {
      var a := r.value.arrayObject;
      var m := arguments[0].hashMap;
      heap' := heap + {a};
      forall i | 0 <= i < |a.elements|
        ensures Storable(a.elements[i], heap)
      {
        assert order[i] in m.entries;
      }
      SnapshotAddArray(heap, a);
    }
  }

  /** `pop` inside a closed heap: the array keeps a prefix of its elements, all still storable. */
  method PopInHeap(arguments: seq<Object>, ghost heap: set<object>) returns (r: Outcome<Object>)
    requires Closed(heap) && AllStorable(arguments, heap)
    modifies Builtins.Target(arguments)
    ensures Closed(heap)
    ensures r.Normal? ==> Storable(r.value, heap)
    ensures Builtins.Popped(arguments, r)
  {
    r := Builtins.Pop(arguments);
  }

  /** `delete` inside a closed heap: the map keeps a subset of its entries. */
  method DeleteInHeap(arguments: seq<Object>, ghost heap: set<object>) returns (r: Outcome<Object>)
    requires Closed(heap) && AllStorable(arguments, heap)
    modifies Builtins.Target(arguments)
    ensures Closed(heap)
    ensures r.Normal? ==> Storable(r.value, heap)
    ensures Builtins.Deleted(arguments, r)
  {
    r := Builtins.Delete(arguments);
    if |arguments| == 2 && arguments[0].HashMap? {
      var m := arguments[0].hashMap;
      forall n: HashMapObject | n in heap
        ensures forall h | h in n.entries :: Storable(n.entries[h].key, heap) && Storable(n.entries[h].value, heap)
      {
        if n == m {
          assert forall h | h in n.entries :: h in old(n.entries) && n.entries[h] == old(n.entries[h]);
        }
      }
    }
  }

  /**
   * A builtin call: `Fn(arguments...)`; a builtin without a table entry has a
   * nil Fn. No environment's store changes.
   */
  method ApplyBuiltin(name: string, arguments: seq<Object>, ghost heap: set<object>)
    returns (r: Outcome<Object>, ghost heap': set<object>)
    requires Closed(heap) && AllStorable(arguments, heap)
    modifies Builtins.Target(arguments)
    ensures heap <= heap' && fresh(heap' - heap) && Closed(heap')
    ensures r.Normal? ==> Storable(r.value, heap')
    ensures BuiltinEffect(name, arguments, r)
    ensures BuiltinOutcome(name, arguments, r)
    ensures Snapshot(heap') == old(Snapshot(heap))
  {
    heap' := heap;
    if name == "len" {
      r := Builtins.Len(arguments);
    } else if name == "push" {
      r, heap' := PushInHeap(arguments, heap);
    } else if name == "pop" {
      r := PopInHeap(arguments, heap);
      SnapshotKept(heap);
    } else if name == "keys" {
      ghost var order;
      r, heap', order := KeysInHeap(arguments, heap);
    } else if name == "delete" {
      r := DeleteInHeap(arguments, heap);
      SnapshotKept(heap);
    } else if name == "print" {
      r := Builtins.Print(arguments);
    } else {
      r := Abort(Panic);
    }
  }

  /**
   * Runs a user function's body on arguments that match its parameters, in
   * a fresh frame enclosing the function's environment; the body's return
   * value is unwrapped. Only the new frame is written: no environment that
   * existed before the call changes.
   */
  method ApplyFunction(closure: Object, arguments: seq<Object>, fuel: nat, ghost heap: set<object>)
    returns (r: Outcome<Object>, ghost heap': set<object>, ghost body: Run, ghost frame: Environment<Object>)
    requires closure.Function? && |arguments| == |closure.parameters|
    requires Closed(heap) && Refs(closure) <= heap && AllStorable(arguments, heap)
    modifies heap
    ensures heap <= heap' && fresh(heap' - heap) && Closed(heap')
    ensures r.Normal? ==> Storable(r.value, heap') && !r.value.ReturnValue?
    ensures forall e: Environment<Object> | e in heap :: e.store == old(e.store)
    ensures fresh(frame) && frame in heap' && frame.Valid() && frame.outer == closure.env
    ensures frame !in old(Snapshot(heap))
    ensures BlockRun(body, closure.body.statements, frame, fuel, old(Snapshot(heap))[frame := Bind(closure.parameters, arguments)])
    ensures body.after == Snapshot(heap')
    ensures r == (if body.outcome.Normal? then Normal(Unwrap(body.outcome.value)) else body.outcome)
    decreases fuel
  {
    var f := NewFrame(closure, arguments, heap);
    frame := f;
    var result;
    result, heap', body := EvalStatements(closure.body.statements, f, fuel, heap + {f});
    if result.Abort? {
      return result, heap', body, frame;
    }
    r := Normal(Unwrap(result.value));
  }

  /** The `*object.Function` case of a call: the arity checks, then the body on fuel - 1. */
  method CallFunction(ghost node: Expression, closure: Object, arguments: seq<Object>, fuel: nat, ghost heap: set<object>)
    returns (r: Outcome<Object>, ghost heap': set<object>, ghost applied: Run)
    requires closure.Function?
    requires Closed(heap) && Refs(closure) <= heap && AllStorable(arguments, heap)
    modifies heap
    ensures heap <= heap' && fresh(heap' - heap) && Closed(heap')
    ensures r.Normal? ==> Storable(r.value, heap') && !r.value.ReturnValue?
    ensures forall e: Environment<Object> | e in heap :: e.store == old(e.store)
    ensures ApplyRun(applied, closure, arguments, fuel, old(Snapshot(heap)))
    ensures applied.outcome == r && applied.after == Snapshot(heap')
    decreases fuel, node, 0
  {
    heap' := heap;
    if |arguments| == 0 {
      // Go's guard `len(arguments) == 0 && arguments[0]...` indexes an empty slice
      r := Abort(Panic);
    } else if |arguments| > |closure.parameters| {
      r := Normal(Error("too many arguments"));
    } else if |arguments| < |closure.parameters| {
      r := Normal(Error("not enough arguments"));
    } else if fuel == 0 {
      r := Abort(FuelExhausted);
    } else {
      ghost var body, frame;
      r, heap', body, frame := ApplyFunction(closure, arguments, fuel - 1, heap);
      return r, heap', Run([body], Some(frame), body.after, r);
    }
    applied := Run([], None, Snapshot(heap), r);
  }

  /** The type switch on the callee of a call. */
  method Apply(ghost node: Expression, callee: Object, arguments: seq<Object>, fuel: nat, ghost heap: set<object>)
    returns (r: Outcome<Object>, ghost heap': set<object>, ghost applied: Run)
    requires Closed(heap) && Refs(callee) <= heap && AllStorable(arguments, heap)
    modifies heap
    ensures heap <= heap' && fresh(heap' - heap) && Closed(heap')
    ensures r.Normal? ==> Storable(r.value, heap')
    ensures forall e: Environment<Object> | e in heap :: e.store == old(e.store)
    ensures ApplyRun(applied, callee, arguments, fuel, old(Snapshot(heap)))
    ensures applied.outcome == r && applied.after == Snapshot(heap')
    ensures callee.Builtin? ==> BuiltinEffect(callee.builtinName, arguments, r)
    decreases fuel, node, 1
  {
    heap' := heap;
    match callee
    case Function(_, _, _) =>
      r, heap', applied := CallFunction(node, callee, arguments, fuel, heap);
    case Builtin(name) =>
      r, heap' := ApplyBuiltin(name, arguments, heap);
      applied := Run([], None, Snapshot(heap'), r);
    case Nil =>
      r := Abort(Panic);
      applied := Run([], None, Snapshot(heap), r);
    case _ =>
      r := Normal(Error("not a function: " + Type(callee)));
      applied := Run([], None, Snapshot(heap), r);
  }

  /** Arguments first, then the callee, then the call. */
  method EvalCallExpression(node: Expression, env: Environment<Object>, fuel: nat, ghost heap: set<object>)
    returns (r: Outcome<Object>, ghost heap': set<object>, ghost run: Run)
    requires node.CallExpression?
    requires Closed(heap) && env in heap
    modifies heap
    ensures heap <= heap' && fresh(heap' - heap) && Closed(heap')
    ensures r.Normal? ==> Storable(r.value, heap')
    ensures forall e: Environment<Object> | e in heap && e != env :: e.store == old(e.store)
    ensures CallRun(run, node.fn, node.arguments, env, fuel, old(Snapshot(heap)))
    ensures run.outcome == r && run.after == Snapshot(heap')
    decreases fuel, node, 2
  {
    var evaluated;
    ghost var argumentsRun;
    evaluated, heap', argumentsRun := EvalExpressions(node.arguments, env, fuel, heap);
    if evaluated.Abort? {
      r := Abort(evaluated.reason);
      return r, heap', Run([argumentsRun], None, argumentsRun.after, r);
    }
    var fn;
    ghost var calleeRun;
    fn, heap', calleeRun := EvalExpression(node.fn, env, fuel, heap');
    if fn.Abort? {
      return fn, heap', Run([argumentsRun, calleeRun], None, calleeRun.after, fn);
    }
    ghost var applied;
    r, heap', applied := Apply(node, fn.value, evaluated.value, fuel, heap');
    run := Run([argumentsRun, calleeRun, applied], None, applied.after, r);
  }
}
