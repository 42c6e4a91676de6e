/**
 * The shunting-yard evaluator of src/evaluator.c over the tokens the tokenizer emits.
 *
 * The two stacks are sequences whose last element is the top; popping an empty stack
 * yields None, standing for the NULL a pop of an empty stack returns. Values are
 * the symbolic doubles of TokenTypes.Num. The pure functions Apply, Reduce, CloseParen,
 * Drain and Evaluate say what one operator application, eval_x_is_operator,
 * eval_x_is_close_paren, the final drain and Sft_evalTokens do to the two stacks; the
 * class Sft holds the stacks in fields and its methods are proved to compute them.
 */
module Evaluation {
  import opened Wrappers
  import opened TokenTypes

  /** The value eval_binary_op and eval_unary_op return for a code they do not compute. */
  const Sentinel: Num := Lit(0xDEADC0DE)

  /** The codes eval_binary_op computes; every other code yields the sentinel. */
  const ArithmeticCodes: set<TokenT> := {TT_OP_ADD, TT_OP_SUB, TT_OP_DIV, TT_OP_MUL, TT_OP_MOD, TT_OP_POW}

  /** The operands a value was computed from, left to right. */
  function Operands(n: Num): seq<Num> {
    match n
    case Lit(_) => []
    case Float(_) => []
    case Add(x, y) => [x, y]
    case Sub(x, y) => [x, y]
    case Div(x, y) => [x, y]
    case Mul(x, y) => [x, y]
    case Mod(x, y) => [x, y]
    case Pow(x, y) => [x, y]
    case Neg(x) => [x]
    case Round(x) => [x]
    case Ceil(x) => [x]
  }

  /** eval_binary_op: num1 is the left operand, num2 the right one. */
  function EvalBinaryOp(kind: TokenT, num1: Num, num2: Num): Num {
    if kind == TT_OP_ADD then Add(num1, num2)
    else if kind == TT_OP_SUB then Sub(num1, num2)
    else if kind == TT_OP_DIV then Div(num1, num2)
    else if kind == TT_OP_MUL then Mul(num1, num2)
    else if kind == TT_OP_MOD then Mod(num1, num2)
    else if kind == TT_OP_POW then Pow(num1, num2)
    else Sentinel
  }

  /** eval_unary_op: negation when the NEG bit is set, the sentinel otherwise. */
  function EvalUnaryOp(kind: TokenT, num: Num): Num {
    if kind & TT_OP_NEG != 0 then Neg(num) else Sentinel
  }

  /** eval_binary_op computes exactly the six arithmetic codes, from num1 and num2 in that order. */
  lemma BinaryOpComputes(kind: TokenT, num1: Num, num2: Num)
    ensures var r := EvalBinaryOp(kind, num1, num2);
      && (r == Sentinel <==> kind !in ArithmeticCodes)
      && (r != Sentinel ==> Operands(r) == [num1, num2])
  {
  }

  /** eval_unary_op negates exactly when the NEG bit is set. */
  lemma UnaryOpComputes(kind: TokenT, num: Num)
    ensures var r := EvalUnaryOp(kind, num);
      && (r == Sentinel <==> kind & TT_OP_NEG == 0)
      && (r != Sentinel ==> r == Neg(num))
  {
  }

  datatype FnKind = RoundFn | CeilFn

  /** An entry of FN_LOOKUP: a name, the number of arguments it needs, and its body. */
  datatype Function = Function(name: string, argsReq: nat, kind: FnKind)

  const FnLookup: seq<Function> := [Function("round", 1, RoundFn), Function("ceil", 1, CeilFn)]

  /**
   * sft_round and sft_ceil: 0 without arguments; otherwise the value is computed from the
   * first argument alone (its only operand), by the entry's own function.
   */
  function ApplyFunction(f: Function, args: seq<Num>): (r: Num)
    ensures |args| == 0 ==> r == Lit(0)
    ensures |args| > 0 ==> Operands(r) == [args[0]] && r != Sentinel
    ensures |args| > 0 ==> (r.Round? <==> f.kind == RoundFn) && (r.Ceil? <==> f.kind == CeilFn)
  {
    if |args| < 1 then Lit(0)
    else match f.kind
      case RoundFn => Round(args[0])
      case CeilFn => Ceil(args[0])
  }

  /** The errors Sft_evalTokens can return, with the fields their messages print. */
  datatype EvalError =
    | MissingBinaryOperand(op: TokenT)
    | MissingUnaryOperand(op: TokenT)
    | NoSuchFunction(name: string)
    | ArityMismatch(fn: string, expected: nat, got: nat)
    | MissingArguments(fn: string, expected: nat, got: nat)

  /** The operator stack and the number stack; the last element of each is its top. */
  datatype EvalState = EvalState(ops: seq<Token>, nums: seq<Num>)

  /** The stacks after an operation, and the error it stopped with, if any. */
  datatype Outcome = Outcome(st: EvalState, failure: Option<EvalError>)

  /** The C test `kind & mask`: some bit of the mask is set in the code. */
  predicate HasBits(kind: TokenT, mask: TokenT) {
    kind & mask != 0
  }

  /** How many numbers applying an operator pops: a binary bit wins over a unary one. */
  function Arity(kind: TokenT): nat {
    if kind & TT_BINARY_OPERATOR != 0 then 2
    else if kind & TT_UNARY_OPERATOR != 0 then 1
    else 0
  }

  /**
   * Applying an operator that has already been popped: binary operators pop num2 then
   * num1, unary ones pop one number, and the result (0 for anything else) is pushed.
   * A missing operand is an error after the pops, with nothing pushed.
   */
  function Apply(kind: TokenT, st: EvalState): (r: Outcome)
    ensures r.st.ops == st.ops
    ensures r.failure.Some? <==> |st.nums| < Arity(kind)
  {
    var n := |st.nums|;
    if kind & TT_BINARY_OPERATOR != 0 then
      if n < 2 then Outcome(EvalState(st.ops, []), Some(MissingBinaryOperand(kind)))
      else Outcome(EvalState(st.ops, st.nums[..n - 2] + [EvalBinaryOp(kind, st.nums[n - 2], st.nums[n - 1])]), None)
    else if kind & TT_UNARY_OPERATOR != 0 then
      if n < 1 then Outcome(EvalState(st.ops, []), Some(MissingUnaryOperand(kind)))
      else Outcome(EvalState(st.ops, st.nums[..n - 1] + [EvalUnaryOp(kind, st.nums[n - 1])]), None)
    else
      Outcome(EvalState(st.ops, st.nums + [Lit(0)]), None)
  }

  /**
   * What Apply does to the number stack: on failure it is empty (the operands were
   * popped), on success the operands are replaced by one result and the numbers
   * below them stay.
   */
  lemma ApplyEffect(kind: TokenT, st: EvalState)
    ensures var r := Apply(kind, st);
      && (r.failure.Some? ==> r.st.nums == [])
      && (r.failure.None? ==>
        |r.st.nums| == |st.nums| - Arity(kind) + 1
        && r.st.nums[..|r.st.nums| - 1] == st.nums[..|st.nums| - Arity(kind)])
  {
  }

  /**
   * Whether the entry at the top of the operator stack stops the reduction for an
   * incoming code: the two tests of eval_x_is_operator that break its loop, an open
   * paren or comma bit, or a code below the incoming one (codes compare as unsigned
   * numbers, so the larger code binds tighter).
   */
  predicate Halts(top: Token, incoming: TokenT) {
    IsBarrier(top.kind) || top.kind < incoming
  }

  /** An open paren or a comma: the entries no reduction pops past. */
  predicate IsBarrier(kind: TokenT) {
    HasBits(kind, TT_SY_LPAR | TT_SY_COMA)
  }

  /**
   * The loop of eval_x_is_operator: pop and apply while the stack is not empty, the top
   * is not an LPAR or COMA barrier and its code is not below the incoming code.
   */
  function Reduce(st: EvalState, incoming: TokenT): (r: Outcome)
    ensures |r.st.ops| <= |st.ops| && r.st.ops == st.ops[..|r.st.ops|]
    decreases |st.ops|
  {
    var n := |st.ops|;
    if n == 0 then Outcome(st, None)
    else if Halts(st.ops[n - 1], incoming) then Outcome(st, None)
    else
      var applied := Apply(st.ops[n - 1].kind, EvalState(st.ops[..n - 1], st.nums));
      if applied.failure.Some? then applied
      else Reduce(applied.st, incoming)
  }

  /** One turn of Reduce's loop: a top that does not halt it is popped and applied. */
  lemma ReduceUnfold(st: EvalState, incoming: TokenT)
    requires st.ops != [] && !Halts(st.ops[|st.ops| - 1], incoming)
    ensures var applied := Apply(st.ops[|st.ops| - 1].kind, EvalState(st.ops[..|st.ops| - 1], st.nums));
      Reduce(st, incoming) == if applied.failure.Some? then applied else Reduce(applied.st, incoming)
  {
  }

  /** Reduce stops, successfully and without a change, at an empty stack or a top that halts it. */
  lemma ReduceHalted(st: EvalState, incoming: TokenT)
    requires st.ops == [] || Halts(st.ops[|st.ops| - 1], incoming)
    ensures Reduce(st, incoming) == Outcome(st, None)
  {
  }

  /** Reduce pops only operators that do not halt it, from the top down. */
  lemma {:induction false} ReducePopsNonHalting(st: EvalState, incoming: TokenT)
    ensures var r := Reduce(st, incoming);
      forall k :: |r.st.ops| <= k < |st.ops| ==> !Halts(st.ops[k], incoming)
    decreases |st.ops|
  {
    var n := |st.ops|;
    if n > 0 && !Halts(st.ops[n - 1], incoming) {
      var applied := Apply(st.ops[n - 1].kind, EvalState(st.ops[..n - 1], st.nums));
      ReduceUnfold(st, incoming);
      if applied.failure.None? {
        ReducePopsNonHalting(applied.st, incoming);
        var r := Reduce(st, incoming);
        forall k | |r.st.ops| <= k < n
          ensures !Halts(st.ops[k], incoming)
        {
          if k < n - 1 {
            assert st.ops[k] == applied.st.ops[k];
          }
        }
      }
    }
  }

  /** On success Reduce leaves an empty stack or one whose top halts it. */
  lemma {:induction false} ReduceStopsAtHalt(st: EvalState, incoming: TokenT)
    ensures var r := Reduce(st, incoming);
      r.failure.None? ==> r.st.ops == [] || Halts(r.st.ops[|r.st.ops| - 1], incoming)
    decreases |st.ops|
  {
    var n := |st.ops|;
    if n > 0 && !Halts(st.ops[n - 1], incoming) {
      var applied := Apply(st.ops[n - 1].kind, EvalState(st.ops[..n - 1], st.nums));
      ReduceUnfold(st, incoming);
      if applied.failure.None? {
        ReduceStopsAtHalt(applied.st, incoming);
      }
    }
  }

  /**
   * The function call at the top of eval_x_is_close_paren: only FN_LOOKUP[0] is compared
   * with the name, because the "no such function" test sits inside the lookup loop. The
   * open paren is popped in every case; on success argsReq numbers are popped, top
   * first, and the function's result is pushed.
   */
  function CallFunction(st: EvalState, name: string, commas: nat): (r: Outcome)
    requires |st.ops| > 0
    ensures r.st.ops == st.ops[..|st.ops| - 1]
    ensures r.failure.None? ==> name == FnLookup[0].name && commas + 1 == FnLookup[0].argsReq
    ensures r.failure.None? ==> |st.nums| >= FnLookup[0].argsReq
    ensures r.failure.Some? ==> r.st.nums == st.nums
  {
    var ops := st.ops[..|st.ops| - 1];
    var f := FnLookup[0];
    if f.name != name then Outcome(EvalState(ops, st.nums), Some(NoSuchFunction(name)))
    else if commas + 1 != f.argsReq then Outcome(EvalState(ops, st.nums), Some(ArityMismatch(f.name, f.argsReq, commas + 1)))
    else if |st.nums| < f.argsReq then Outcome(EvalState(ops, st.nums), Some(MissingArguments(f.name, f.argsReq, commas + 1)))
    else
      var rest := |st.nums| - f.argsReq;
      Outcome(EvalState(ops, st.nums[..rest] + [ApplyFunction(f, TopFirst(st.nums[rest..]))]), None)
  }

  /** The popped values in the order they come off the stack. */
  function TopFirst(s: seq<Num>): (r: seq<Num>)
    ensures |r| == |s|
    ensures forall k :: 0 <= k < |s| ==> r[k] == s[|s| - 1 - k]
  {
    if s == [] then [] else [s[|s| - 1]] + TopFirst(s[..|s| - 1])
  }

  /**
   * The loop of eval_x_is_close_paren: an open paren carrying a function name ends it
   * with the call; anything else is popped, commas are counted and other entries (an
   * open paren without a name included) are applied like operators.
   */
  function CloseParen(st: EvalState, commas: nat): (r: Outcome)
    ensures |r.st.ops| <= |st.ops| && r.st.ops == st.ops[..|r.st.ops|]
    decreases |st.ops|
  {
    var n := |st.ops|;
    if n == 0 then Outcome(st, None)
    else
      var top := st.ops[n - 1];
      if top.kind == TT_SY_LPAR && top.func.Some? then CallFunction(st, top.func.value, commas)
      else
        var popped := EvalState(st.ops[..n - 1], st.nums);
        if top.kind == TT_SY_COMA then CloseParen(popped, commas + 1)
        else
          var applied := Apply(top.kind, popped);
          if applied.failure.Some? then applied
          else CloseParen(applied.st, commas)
  }

  /** The loop after the tokens: every remaining operator is popped and applied. */
  function Drain(st: EvalState): (r: Outcome)
    ensures |r.st.ops| <= |st.ops| && r.st.ops == st.ops[..|r.st.ops|]
    ensures r.failure.None? ==> r.st.ops == []
    decreases |st.ops|
  {
    var n := |st.ops|;
    if n == 0 then Outcome(st, None)
    else
      var applied := Apply(st.ops[n - 1].kind, EvalState(st.ops[..n - 1], st.nums));
      if applied.failure.Some? then applied
      else Drain(applied.st)
  }

  /** What Sft_evalTokens does with a token, taken in the order of its if-chain. */
  datatype Action = PushNumber | ReduceThenPush | PushParen | CloseParenAction | Ignore

  function Dispatch(kind: TokenT): Action {
    if HasBits(kind, TT_NUMBER) then PushNumber
    else if HasBits(kind, TT_OPERATOR | TT_SY_COMA) then ReduceThenPush
    else if HasBits(kind, TT_SY_LPAR) then PushParen
    else if HasBits(kind, TT_SY_RPAR) then CloseParenAction
    else Ignore
  }

  /** One iteration of Sft_evalTokens's loop over the tokens. */
  function FeedOne(st: EvalState, t: Token): Outcome {
    match Dispatch(t.kind)
    case PushNumber => Outcome(EvalState(st.ops, st.nums + [t.f64]), None)
    case ReduceThenPush =>
      var reduced := Reduce(st, t.kind);
      if reduced.failure.Some? then reduced
      else Outcome(EvalState(reduced.st.ops + [t], reduced.st.nums), None)
    case PushParen => Outcome(EvalState(st.ops + [t], st.nums), None)
    case CloseParenAction => CloseParen(st, 0)
    case Ignore => Outcome(st, None)
  }

  /** The loop over tokens[i..], stopping at the first error. */
  function Feed(st: EvalState, tokens: seq<Token>, i: nat): Outcome
    decreases |tokens| - i
  {
    if i >= |tokens| then Outcome(st, None)
    else
      var next := FeedOne(st, tokens[i]);
      if next.failure.Some? then next
      else Feed(next.st, tokens, i + 1)
  }

  /** The stacks Sft_evalTokens leaves, and its outcome: the value written to *out_result, or the error. */
  datatype Evaluation = Evaluation(st: EvalState, result: Result<Option<Num>, EvalError>)

  /**
   * The last step: the top number, if any, is popped as the result; the rest stays. It
   * never fails, and pushing the result back gives the stacks it started from.
   */
  function PopResult(st: EvalState): (r: Evaluation)
    ensures r.result.Ok? && r.st.ops == st.ops
    ensures r.result.value.None? <==> st.nums == []
    ensures r.result.value.None? ==> r.st == st
    ensures r.result.value.Some? ==> r.st.nums + [r.result.value.value] == st.nums
  {
    if st.nums == [] then Evaluation(st, Ok(None))
    else Evaluation(EvalState(st.ops, st.nums[..|st.nums| - 1]), Ok(Some(st.nums[|st.nums| - 1])))
  }

  /** Sft_evalTokens from the stacks st, which it never clears. */
  function Evaluate(st: EvalState, tokens: seq<Token>): Evaluation {
    var fed := Feed(st, tokens, 0);
    if fed.failure.Some? then Evaluation(fed.st, Err(fed.failure.value))
    else
      var drained := Drain(fed.st);
      if drained.failure.Some? then Evaluation(drained.st, Err(drained.failure.value))
      else PopResult(drained.st)
  }

  /** How a method reports an outcome: the same stacks, and the error stored when it failed. */
  predicate Reported(ok: bool, st: EvalState, error: Option<EvalError>, before: Option<EvalError>, r: Outcome) {
    && st == r.st
    && (ok <==> r.failure.None?)
    && error == (if ok then before else r.failure)
  }

  // ---------------------------------------------------------------------------
  // The evaluator object.

  class Sft {
    var operatorStack: seq<Token>
    var numberStack: seq<Num>
    /** The error buffer whose address the evaluation functions return. */
    var error: Option<EvalError>

    function State(): EvalState
      reads this
    {
      EvalState(operatorStack, numberStack)
    }

    /** Sft_new: two empty stacks. */
    constructor ()
      ensures State() == EvalState([], []) && error == None
    {
      operatorStack := [];
      numberStack := [];
      error := None;
    }

    /** Stack_pop on the number stack: the top, or None when it is empty. */
    method PopNumber() returns (n: Option<Num>)
      modifies this`numberStack
      ensures old(numberStack) == [] ==> n == None && numberStack == []
      ensures old(numberStack) != [] ==>
        n == Some(old(numberStack)[|old(numberStack)| - 1]) && numberStack == old(numberStack)[..|old(numberStack)| - 1]
    {
      if numberStack == [] {
        return None;
      }
      n := Some(numberStack[|numberStack| - 1]);
      numberStack := numberStack[..|numberStack| - 1];
    }

    /** Stack_pop on the operator stack. */
    method PopOperator() returns (t: Option<Token>)
      modifies this`operatorStack
      ensures old(operatorStack) == [] ==> t == None && operatorStack == []
      ensures old(operatorStack) != [] ==>
        t == Some(old(operatorStack)[|old(operatorStack)| - 1]) && operatorStack == old(operatorStack)[..|old(operatorStack)| - 1]
    {
      if operatorStack == [] {
        return None;
      }
      t := Some(operatorStack[|operatorStack| - 1]);
      operatorStack := operatorStack[..|operatorStack| - 1];
    }

    /** The block shared by the three loops: apply a popped operator to the number stack. */
    method ApplyOperator(kind: TokenT) returns (ok: bool)
      modifies this`numberStack, this`error
      ensures Reported(ok, State(), error, old(error), Apply(kind, old(State())))
    {
      var resultToPush := Lit(0);
      if kind & TT_BINARY_OPERATOR != 0 {
        var num2 := PopNumber();
        var num1 := PopNumber();
        if num2.None? || num1.None? {
          error := Some(MissingBinaryOperand(kind));
          return false;
        }
        resultToPush := EvalBinaryOp(kind, num1.value, num2.value);
      } else if kind & TT_UNARY_OPERATOR != 0 {
        var num := PopNumber();
        if num.None? {
          error := Some(MissingUnaryOperand(kind));
          return false;
        }
        resultToPush := EvalUnaryOp(kind, num.value);
      }
      numberStack := numberStack + [resultToPush];
      ok := true;
    }

    /** eval_x_is_operator: reduce the operator stack before `token` is pushed. */
    method EvalXIsOperator(token: Token) returns (ok: bool)
      modifies this
      ensures Reported(ok, State(), error, old(error), Reduce(old(State()), token.kind))
    {
      ghost var goal := Reduce(State(), token.kind);
      while true
        invariant Reduce(State(), token.kind) == goal
        invariant error == old(error)
        decreases |operatorStack|
      {
        if operatorStack == [] {
          ReduceHalted(State(), token.kind);
          break;
        }
        var top := operatorStack[|operatorStack| - 1];
        // Both breaking tests of the C loop at once.
        if Halts(top, token.kind) {
          ReduceHalted(State(), token.kind);
          break;
        }
        ghost var before := State();
        ghost var popped := EvalState(before.ops[..|before.ops| - 1], before.nums);
        ghost var applied := Apply(top.kind, popped);
        ReduceUnfold(before, token.kind);
        var operatorToken := PopOperator();
        assert State() == popped && operatorToken.value == top;
        ok := ApplyOperator(operatorToken.value.kind);
        assert ok <==> applied.failure.None?;
        if !ok {
          assert goal == applied;
          return;
        }
        assert State() == applied.st;
        assert Reduce(State(), token.kind) == Reduce(before, token.kind);
      }
      ok := true;
    }

    /** The function-call branch of eval_x_is_close_paren, with `top` the named open paren. */
    method CallNamed(name: string, commas: nat) returns (ok: bool)
      requires operatorStack != []
      modifies this
      ensures Reported(ok, State(), error, old(error), CallFunction(old(State()), name, commas))
    {
      var f := FnLookup[0];
      if f.name != name {
        error := Some(NoSuchFunction(name));
        var _ := PopOperator();
        return false;
      }
      if commas + 1 != f.argsReq {
        error := Some(ArityMismatch(f.name, f.argsReq, commas + 1));
        var _ := PopOperator();
        return false;
      }
      if |numberStack| < f.argsReq {
        error := Some(MissingArguments(f.name, f.argsReq, commas + 1));
        var _ := PopOperator();
        return false;
      }
      var fnArgs: seq<Num> := [];
      for i := 0 to f.argsReq
        invariant |numberStack| == |old(numberStack)| - i
        invariant numberStack == old(numberStack)[..|old(numberStack)| - i]
        invariant fnArgs == TopFirst(old(numberStack)[|old(numberStack)| - i..])
        invariant operatorStack == old(operatorStack) && error == old(error)
      {
        var num := PopNumber();
        fnArgs := fnArgs + [num.value];
      }
      numberStack := numberStack + [ApplyFunction(f, fnArgs)];
      var _ := PopOperator();
      ok := true;
    }

    /** eval_x_is_close_paren: evaluate down to a named open paren and call its function. */
    method EvalXIsCloseParen() returns (ok: bool)
      modifies this
      ensures Reported(ok, State(), error, old(error), CloseParen(old(State()), 0))
    {
      var comasEncountered: nat := 0;
      while true
        invariant CloseParen(State(), comasEncountered) == CloseParen(old(State()), 0)
        invariant error == old(error)
        decreases |operatorStack|
      {
        if operatorStack == [] {
          assert CloseParen(State(), comasEncountered) == Outcome(State(), None);
          break;
        }
        var top := operatorStack[|operatorStack| - 1];
        if top.kind == TT_SY_LPAR && top.func.Some? {
          assert CloseParen(State(), comasEncountered) == CallFunction(State(), top.func.value, comasEncountered);
          ok := CallNamed(top.func.value, comasEncountered);
          return;
        }
        ghost var before := State();
        ghost var popped := EvalState(before.ops[..|before.ops| - 1], before.nums);
        var operatorToken := PopOperator();
        if operatorToken.value.kind == TT_SY_COMA {
          assert CloseParen(before, comasEncountered) == CloseParen(popped, comasEncountered + 1);
          comasEncountered := comasEncountered + 1;
          continue;
        }
        ghost var applied := Apply(top.kind, popped);
        assert CloseParen(before, comasEncountered)
          == if applied.failure.Some? then applied else CloseParen(applied.st, comasEncountered);
        ok := ApplyOperator(operatorToken.value.kind);
        if !ok {
          return;
        }
        assert State() == applied.st;
      }
      ok := true;
    }

    /** The loop after the tokens of Sft_evalTokens. */
    method DrainOperators() returns (ok: bool)
      modifies this
      ensures Reported(ok, State(), error, old(error), Drain(old(State())))
    {
      while operatorStack != []
        invariant Drain(State()) == Drain(old(State()))
        invariant error == old(error)
        decreases |operatorStack|
      {
        var operatorToken := PopOperator();
        ok := ApplyOperator(operatorToken.value.kind);
        if !ok {
          return;
        }
      }
      ok := true;
    }

    /**
     * Sft_evalTokens: feeds the tokens left to right, drains the operators and pops the
     * top number into `result` (None when no number is left). The stacks are not cleared
     * first, so values left by an earlier call take part.
     */
    method EvalTokens(tokens: seq<Token>) returns (ok: bool, result: Option<Num>)
      modifies this
      ensures var e := Evaluate(old(State()), tokens);
        && State() == e.st
        && (ok <==> e.result.Ok?)
        && (ok ==> result == e.result.value && error == old(error))
        && (!ok ==> error == Some(e.result.error))
    {
      result := None;
      for i := 0 to |tokens|
        invariant Feed(State(), tokens, i) == Feed(old(State()), tokens, 0)
        invariant error == old(error)
      {
        var token := tokens[i];
        ghost var before := State();
        ghost var next := FeedOne(before, token);
        assert Feed(before, tokens, i) == if next.failure.Some? then next else Feed(next.st, tokens, i + 1);
        if HasBits(token.kind, TT_NUMBER) {
          numberStack := numberStack + [token.f64];
        } else if HasBits(token.kind, TT_OPERATOR | TT_SY_COMA) {
          ok := EvalXIsOperator(token);
          if !ok {
            return;
          }
          operatorStack := operatorStack + [token];
        } else if HasBits(token.kind, TT_SY_LPAR) {
          operatorStack := operatorStack + [token];
        } else if HasBits(token.kind, TT_SY_RPAR) {
          ok := EvalXIsCloseParen();
          if !ok {
            return;
          }
        }
        assert State() == next.st;
      }
      ok := DrainOperators();
      if !ok {
        return;
      }
      result := PopNumber();
    }
  }
}
