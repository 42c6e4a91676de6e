/**
 * Properties of the evaluator model: which branch each token takes, when evaluation
 * cannot fail, how precedence and associativity follow from the code values, and what
 * the evaluator leaves behind.
 */
module EvaluatorProps {
  import opened Wrappers
  import opened TokenTypes
  import opened Tokenizing
  import opened TokenizerProps
  import opened Evaluation

  // ---------------------------------------------------------------------------
  // Dispatch.

  /** The six arithmetic codes are binary operators that no reduction stops at. */
  lemma ArithmeticCodesBinary(k: TokenT)
    requires k in ArithmeticCodes
    ensures Arity(k) == 2 && !IsBarrier(k) && Dispatch(k) == ReduceThenPush
  {
    if k == TT_OP_ADD {
    } else if k == TT_OP_SUB {
    } else if k == TT_OP_DIV {
    } else if k == TT_OP_MUL {
    } else if k == TT_OP_MOD {
    } else {
      assert k == TT_OP_POW;
    }
  }

  /**
   * The branch Sft_evalTokens takes for each token the tokenizer can produce: numbers
   * are pushed, an open paren is pushed, and every other code, `)` included, passes the
   * operator test first, so eval_x_is_close_paren is never reached.
   */
  lemma ProducedDispatch(t: Token)
    requires Produced(t)
    ensures t.kind == TT_NUMBER ==> Dispatch(t.kind) == PushNumber
    ensures t.kind == TT_SY_LPAR ==> Dispatch(t.kind) == PushParen
    ensures t.kind != TT_NUMBER && t.kind != TT_SY_LPAR ==> Dispatch(t.kind) == ReduceThenPush
  {
    if t.kind != TT_NUMBER {
      var k :| 0 <= k < |LookupTable| && LookupTable[k].code == t.kind;
      assert 0 <= k < 16;
      if k < 8 {
        assert k == 0 || k == 1 || k == 2 || k == 3 || k == 4 || k == 5 || k == 6 || k == 7;
      } else {
        assert k == 8 || k == 9 || k == 10 || k == 11 || k == 12 || k == 13 || k == 14 || k == 15;
      }
    }
  }

  /** Over the whole pipeline: no token of a tokenized text takes the close-paren branch. */
  lemma PipelineNeverClosesParen(s: string)
    ensures TokenizeText(s).Ok? ==>
      forall k :: 0 <= k < |TokenizeText(s).value| ==> Dispatch(TokenizeText(s).value[k].kind) != CloseParenAction
  {
    TokenizeProducesKnownCodes(s);
    if TokenizeText(s).Ok? {
      var tokens := TokenizeText(s).value;
      forall k | 0 <= k < |tokens|
        ensures Dispatch(tokens[k].kind) != CloseParenAction
      {
        ProducedDispatch(tokens[k]);
      }
    }
  }

  /** `)` is reduced and pushed like an operator and, when applied, pops two numbers and pushes the sentinel. */
  lemma RparIsAppliedAsOperator(st: EvalState)
    requires |st.nums| >= 2
    ensures Dispatch(TT_SY_RPAR) == ReduceThenPush
    ensures Apply(TT_SY_RPAR, st) == Outcome(EvalState(st.ops, st.nums[..|st.nums| - 2] + [Sentinel]), None)
  {
  }

  // ---------------------------------------------------------------------------
  // Infix expressions of arithmetic operators never fail.

  /** Numbers at the even positions, arithmetic operators at the odd ones, a number last. */
  predicate Infix(tokens: seq<Token>) {
    && |tokens| % 2 == 1
    && (forall k :: 0 <= k < |tokens| && k % 2 == 0 ==> tokens[k].kind == TT_NUMBER)
    && (forall k :: 0 <= k < |tokens| && k % 2 == 1 ==> tokens[k].kind in ArithmeticCodes)
  }

  predicate ArithOps(ops: seq<Token>) {
    forall k :: 0 <= k < |ops| ==> ops[k].kind in ArithmeticCodes
  }

  /** Between tokens: one more number than operators once a number has been read. */
  predicate Balanced(st: EvalState) {
    ArithOps(st.ops) && |st.nums| == |st.ops| + 1
  }

  lemma {:induction false} ReduceBalanced(st: EvalState, incoming: TokenT)
    requires Balanced(st)
    ensures Reduce(st, incoming).failure.None? && Balanced(Reduce(st, incoming).st)
    decreases |st.ops|
  {
    var n := |st.ops|;
    if n > 0 && !Halts(st.ops[n - 1], incoming) {
      var top := st.ops[n - 1].kind;
      var popped := EvalState(st.ops[..n - 1], st.nums);
      ArithmeticCodesBinary(top);
      ApplyEffect(top, popped);
      ReduceUnfold(st, incoming);
      var applied := Apply(top, popped);
      assert ArithOps(applied.st.ops) by {
        forall k | 0 <= k < |applied.st.ops|
          ensures applied.st.ops[k].kind in ArithmeticCodes
        {
          assert applied.st.ops[k] == st.ops[k];
        }
      }
      ReduceBalanced(applied.st, incoming);
    } else {
      ReduceHalted(st, incoming);
    }
  }

  lemma {:induction false} DrainBalanced(st: EvalState)
    requires Balanced(st)
    ensures Drain(st).failure.None? && Drain(st).st.ops == [] && |Drain(st).st.nums| == 1
    decreases |st.ops|
  {
    var n := |st.ops|;
    if n > 0 {
      var top := st.ops[n - 1].kind;
      var popped := EvalState(st.ops[..n - 1], st.nums);
      ArithmeticCodesBinary(top);
      ApplyEffect(top, popped);
      var applied := Apply(top, popped);
      assert ArithOps(applied.st.ops) by {
        forall k | 0 <= k < |applied.st.ops|
          ensures applied.st.ops[k].kind in ArithmeticCodes
        {
          assert applied.st.ops[k] == st.ops[k];
        }
      }
      DrainBalanced(applied.st);
    }
  }

  /** Feeding an infix suffix: a number at even positions, an operator at odd ones. */
  lemma {:induction false} FeedInfix(st: EvalState, tokens: seq<Token>, i: nat)
    requires Infix(tokens) && i <= |tokens|
    requires ArithOps(st.ops)
    requires |st.nums| == |st.ops| + i % 2
    ensures Feed(st, tokens, i).failure.None? && Balanced(Feed(st, tokens, i).st)
    decreases |tokens| - i
  {
    if i < |tokens| {
      var t := tokens[i];
      if i % 2 == 0 {
        assert t.kind == TT_NUMBER;
        var next := EvalState(st.ops, st.nums + [t.f64]);
        assert FeedOne(st, t) == Outcome(next, None);
        FeedInfix(next, tokens, i + 1);
      } else {
        assert t.kind in ArithmeticCodes;
        ArithmeticCodesBinary(t.kind);
        ReduceBalanced(st, t.kind);
        var reduced := Reduce(st, t.kind).st;
        var next := EvalState(reduced.ops + [t], reduced.nums);
        assert FeedOne(st, t) == Outcome(next, None);
        assert ArithOps(next.ops) by {
          forall k | 0 <= k < |next.ops|
            ensures next.ops[k].kind in ArithmeticCodes
          {
            if k < |reduced.ops| {
              assert next.ops[k] == reduced.ops[k];
            }
          }
        }
        FeedInfix(next, tokens, i + 1);
      }
    }
  }

  /**
   * An alternation of numbers and the six arithmetic operators, starting and ending
   * with a number, evaluates on fresh stacks without error, produces a value and
   * leaves both stacks empty.
   */
  lemma InfixNeverFails(tokens: seq<Token>)
    requires Infix(tokens)
    ensures var e := Evaluate(EvalState([], []), tokens);
      e.result.Ok? && e.result.value.Some? && e.st == EvalState([], [])
  {
    FeedInfix(EvalState([], []), tokens, 0);
    var fed := Feed(EvalState([], []), tokens, 0);
    DrainBalanced(fed.st);
  }

  // ---------------------------------------------------------------------------
  // Precedence and associativity are the numeric order of the codes.

  /** The five tokens `x a y b z`. */
  function Three(x: Num, a: TokenT, y: Num, b: TokenT, z: Num): seq<Token> {
    [NumberToken(x), OperatorToken(a), NumberToken(y), OperatorToken(b), NumberToken(z)]
  }

  /** Reading `x a y`: the operator waits on the stack above nothing. */
  lemma FeedFirstThree(x: Num, a: TokenT, y: Num, b: TokenT, z: Num)
    requires a in ArithmeticCodes
    ensures Feed(EvalState([], []), Three(x, a, y, b, z), 0) == Feed(EvalState([OperatorToken(a)], [x, y]), Three(x, a, y, b, z), 3)
  {
    var tokens := Three(x, a, y, b, z);
    ArithmeticCodesBinary(a);
    var s1 := EvalState([], [x]);
    assert FeedOne(EvalState([], []), tokens[0]) == Outcome(s1, None);
    ReduceHalted(s1, a);
    var s2 := EvalState([OperatorToken(a)], [x]);
    assert FeedOne(s1, tokens[1]) == Outcome(s2, None);
    assert FeedOne(s2, tokens[2]) == Outcome(EvalState([OperatorToken(a)], [x, y]), None);
    assert Feed(s2, tokens, 2) == Feed(EvalState([OperatorToken(a)], [x, y]), tokens, 3);
  }

  /** Reading `b z` above a pending `a` whose code is smaller: `b` is pushed above it. */
  lemma FeedRisingTail(x: Num, a: TokenT, y: Num, b: TokenT, z: Num)
    requires a in ArithmeticCodes && b in ArithmeticCodes && a < b
    ensures Feed(EvalState([OperatorToken(a)], [x, y]), Three(x, a, y, b, z), 3)
      == Outcome(EvalState([OperatorToken(a), OperatorToken(b)], [x, y, z]), None)
  {
    var tokens := Three(x, a, y, b, z);
    ArithmeticCodesBinary(b);
    var s3 := EvalState([OperatorToken(a)], [x, y]);
    ReduceHalted(s3, b);
    var s4 := EvalState([OperatorToken(a), OperatorToken(b)], [x, y]);
    assert FeedOne(s3, tokens[3]) == Outcome(s4, None);
    var s5 := EvalState(s4.ops, [x, y, z]);
    assert FeedOne(s4, tokens[4]) == Outcome(s5, None);
    assert Feed(s5, tokens, 5) == Outcome(s5, None);
  }

  /** Reading `b z` above a pending `a` whose code is not smaller: `a` is applied first. */
  lemma FeedFallingTail(x: Num, a: TokenT, y: Num, b: TokenT, z: Num)
    requires a in ArithmeticCodes && b in ArithmeticCodes && !(a < b)
    ensures Feed(EvalState([OperatorToken(a)], [x, y]), Three(x, a, y, b, z), 3)
      == Outcome(EvalState([OperatorToken(b)], [EvalBinaryOp(a, x, y), z]), None)
  {
    var tokens := Three(x, a, y, b, z);
    ArithmeticCodesBinary(b);
    var s3 := EvalState([OperatorToken(a)], [x, y]);
    var xy := EvalBinaryOp(a, x, y);
    ReduceFalling(a, b, x, y);
    var s4 := EvalState([OperatorToken(b)], [xy]);
    assert FeedOne(s3, tokens[3]) == Outcome(s4, None);
    var s5 := EvalState(s4.ops, [xy, z]);
    assert FeedOne(s4, tokens[4]) == Outcome(s5, None);
    assert Feed(s5, tokens, 5) == Outcome(s5, None);
  }

  /** A pending operator whose code is not below the incoming one is applied, and the reduction stops below it. */
  lemma ReduceFalling(a: TokenT, b: TokenT, x: Num, y: Num)
    requires a in ArithmeticCodes && !(a < b)
    ensures Reduce(EvalState([OperatorToken(a)], [x, y]), b) == Outcome(EvalState([], [EvalBinaryOp(a, x, y)]), None)
  {
    ArithmeticCodesBinary(a);
    var s3 := EvalState([OperatorToken(a)], [x, y]);
    assert !Halts(s3.ops[0], b);
    ReduceUnfold(s3, b);
    assert Apply(a, EvalState([], [x, y])) == Outcome(EvalState([], [EvalBinaryOp(a, x, y)]), None);
    ReduceHalted(EvalState([], [EvalBinaryOp(a, x, y)]), b);
  }

  /** Draining binary arithmetic operators over just enough numbers: top operator first. */
  lemma DrainTwo(a: TokenT, b: TokenT, x: Num, y: Num, z: Num)
    requires a in ArithmeticCodes && b in ArithmeticCodes
    ensures Drain(EvalState([OperatorToken(a), OperatorToken(b)], [x, y, z]))
      == Outcome(EvalState([], [EvalBinaryOp(a, x, EvalBinaryOp(b, y, z))]), None)
  {
    ArithmeticCodesBinary(a);
    ArithmeticCodesBinary(b);
    assert Apply(b, EvalState([OperatorToken(a)], [x, y, z]))
      == Outcome(EvalState([OperatorToken(a)], [x, EvalBinaryOp(b, y, z)]), None);
    DrainOne(a, x, EvalBinaryOp(b, y, z));
  }

  lemma DrainOne(a: TokenT, x: Num, y: Num)
    requires a in ArithmeticCodes
    ensures Drain(EvalState([OperatorToken(a)], [x, y])) == Outcome(EvalState([], [EvalBinaryOp(a, x, y)]), None)
  {
    ArithmeticCodesBinary(a);
    assert Apply(a, EvalState([], [x, y])) == Outcome(EvalState([], [EvalBinaryOp(a, x, y)]), None);
  }

  /**
   * `x a y b z` for two arithmetic operators: the later operator is applied first
   * exactly when its code is larger; equal codes group to the left.
   */
  lemma PrecedenceByCode(x: Num, a: TokenT, y: Num, b: TokenT, z: Num)
    requires a in ArithmeticCodes && b in ArithmeticCodes
    ensures Evaluate(EvalState([], []), Three(x, a, y, b, z))
      == Evaluation(EvalState([], []), Ok(Some(
           if a < b then EvalBinaryOp(a, x, EvalBinaryOp(b, y, z))
           else EvalBinaryOp(b, EvalBinaryOp(a, x, y), z))))
  {
    FeedFirstThree(x, a, y, b, z);
    if a < b {
      FeedRisingTail(x, a, y, b, z);
      DrainTwo(a, b, x, y, z);
    } else {
      FeedFallingTail(x, a, y, b, z);
      DrainOne(b, EvalBinaryOp(a, x, y), z);
    }
  }

  /** Division has a smaller code than multiplication, so `x / y * z` is computed as `x / (y * z)`. */
  lemma DivisionBindsLooser(x: Num, y: Num, z: Num)
    ensures Evaluate(EvalState([], []), Three(x, TT_OP_DIV, y, TT_OP_MUL, z)).result
      == Ok(Some(Div(x, Mul(y, z))))
  {
    PrecedenceByCode(x, TT_OP_DIV, y, TT_OP_MUL, z);
  }

  /**
   * Equal codes reduce before the push: two TT_OP_POW tokens group to the left. No text
   * tokenizes to TT_OP_POW (an operator run keeps one character), so this is about the
   * evaluator alone.
   */
  lemma PowerGroupsLeft(x: Num, y: Num, z: Num)
    ensures Evaluate(EvalState([], []), Three(x, TT_OP_POW, y, TT_OP_POW, z)).result
      == Ok(Some(Pow(Pow(x, y), z)))
  {
    PrecedenceByCode(x, TT_OP_POW, y, TT_OP_POW, z);
  }

  /** `x + y * z` is `x + (y * z)`. */
  lemma ProductBeforeSum(x: Num, y: Num, z: Num)
    ensures Evaluate(EvalState([], []), Three(x, TT_OP_ADD, y, TT_OP_MUL, z)).result
      == Ok(Some(Add(x, Mul(y, z))))
  {
    PrecedenceByCode(x, TT_OP_ADD, y, TT_OP_MUL, z);
  }

  // ---------------------------------------------------------------------------
  // Functions.

  /** Only FN_LOOKUP[0] is compared: a call of `ceil` fails although `ceil` is in the table. */
  lemma CeilIsNeverCalled(st: EvalState, commas: nat)
    requires |st.ops| > 0
    ensures FnLookup[1].name == "ceil"
    ensures CallFunction(st, "ceil", commas) == Outcome(EvalState(st.ops[..|st.ops| - 1], st.nums), Some(NoSuchFunction("ceil")))
  {
    assert FnLookup[0].name != "ceil" by {
      assert FnLookup[0].name[0] == 'r';
    }
  }

  /** `round` with one argument (no comma) pops the top number and pushes its rounding. */
  lemma RoundCall(st: EvalState)
    requires |st.ops| > 0 && |st.nums| > 0
    ensures CallFunction(st, "round", 0)
      == Outcome(EvalState(st.ops[..|st.ops| - 1], st.nums[..|st.nums| - 1] + [Round(st.nums[|st.nums| - 1])]), None)
  {
    var n := |st.nums|;
    assert TopFirst(st.nums[n - 1..]) == [st.nums[n - 1]];
  }

  /** A comma count other than argsReq - 1 is an arity error, and the open paren is still popped. */
  lemma RoundArityChecked(st: EvalState, commas: nat)
    requires |st.ops| > 0 && commas != 0
    ensures CallFunction(st, "round", commas)
      == Outcome(EvalState(st.ops[..|st.ops| - 1], st.nums), Some(ArityMismatch("round", 1, commas + 1)))
  {
  }

  // ---------------------------------------------------------------------------
  // The stacks are not cleared.

  /** Two numbers without an operator: the last is the result and the first stays behind. */
  lemma LeftoverNumber(x: Num, y: Num)
    ensures Evaluate(EvalState([], []), [NumberToken(x), NumberToken(y)])
      == Evaluation(EvalState([], [x]), Ok(Some(y)))
  {
    var tokens := [NumberToken(x), NumberToken(y)];
    assert FeedOne(EvalState([], []), tokens[0]) == Outcome(EvalState([], [x]), None);
    assert FeedOne(EvalState([], [x]), tokens[1]) == Outcome(EvalState([], [x, y]), None);
    assert Feed(EvalState([], [x, y]), tokens, 2) == Outcome(EvalState([], [x, y]), None);
    assert Feed(EvalState([], []), tokens, 0) == Outcome(EvalState([], [x, y]), None);
  }

  /** A number left by an earlier call becomes an operand: `y +` on top of x yields x + y. */
  lemma LeftoverIsOperand(x: Num, y: Num)
    ensures Evaluate(EvalState([], [x]), [NumberToken(y), OperatorToken(TT_OP_ADD)])
      == Evaluation(EvalState([], []), Ok(Some(Add(x, y))))
  {
    var tokens := [NumberToken(y), OperatorToken(TT_OP_ADD)];
    assert FeedOne(EvalState([], [x]), tokens[0]) == Outcome(EvalState([], [x, y]), None);
    ReduceHalted(EvalState([], [x, y]), TT_OP_ADD);
    assert Dispatch(TT_OP_ADD) == ReduceThenPush;
    assert FeedOne(EvalState([], [x, y]), tokens[1]) == Outcome(EvalState([tokens[1]], [x, y]), None);
    assert Feed(EvalState([tokens[1]], [x, y]), tokens, 2) == Outcome(EvalState([tokens[1]], [x, y]), None);
    assert Feed(EvalState([], [x]), tokens, 0) == Outcome(EvalState([tokens[1]], [x, y]), None);
    DrainOne(TT_OP_ADD, x, y);
  }

  // ---------------------------------------------------------------------------
  // Parentheses. `)` carries the XOR bit (0x800), so the operator test of Sft_evalTokens
  // catches it before the close-paren test, and eval_x_is_close_paren never runs.

  /** `(x + y)`: `)` is pushed as an operator, applied to x and y, and `+` is left without operands. */
  lemma ParenthesizedSumFails(x: Num, y: Num)
    ensures Evaluate(EvalState([], []),
        [OperatorToken(TT_SY_LPAR), NumberToken(x), OperatorToken(TT_OP_ADD), NumberToken(y), OperatorToken(TT_SY_RPAR)])
      == Evaluation(EvalState([OperatorToken(TT_SY_LPAR)], []), Err(MissingBinaryOperand(TT_OP_ADD)))
  {
    var tokens := [OperatorToken(TT_SY_LPAR), NumberToken(x), OperatorToken(TT_OP_ADD), NumberToken(y), OperatorToken(TT_SY_RPAR)];
    var l := OperatorToken(TT_SY_LPAR);
    var plus := OperatorToken(TT_OP_ADD);
    var r := OperatorToken(TT_SY_RPAR);
    assert FeedOne(EvalState([], []), tokens[0]) == Outcome(EvalState([l], []), None);
    assert FeedOne(EvalState([l], []), tokens[1]) == Outcome(EvalState([l], [x]), None);
    ReduceHalted(EvalState([l], [x]), TT_OP_ADD);
    assert FeedOne(EvalState([l], [x]), tokens[2]) == Outcome(EvalState([l, plus], [x]), None);
    assert FeedOne(EvalState([l, plus], [x]), tokens[3]) == Outcome(EvalState([l, plus], [x, y]), None);
    RparAfterPending(EvalState([l, plus], [x, y]));
    assert FeedOne(EvalState([l, plus], [x, y]), tokens[4]) == Outcome(EvalState([l, plus, r], [x, y]), None);
    assert Feed(EvalState([l, plus, r], [x, y]), tokens, 5) == Outcome(EvalState([l, plus, r], [x, y]), None);
    assert Feed(EvalState([l, plus], [x, y]), tokens, 4) == Outcome(EvalState([l, plus, r], [x, y]), None);
    assert Feed(EvalState([l, plus], [x]), tokens, 3) == Outcome(EvalState([l, plus, r], [x, y]), None);
    assert Feed(EvalState([l], [x]), tokens, 2) == Outcome(EvalState([l, plus, r], [x, y]), None);
    assert Feed(EvalState([l], []), tokens, 1) == Outcome(EvalState([l, plus, r], [x, y]), None);
    assert Feed(EvalState([], []), tokens, 0) == Outcome(EvalState([l, plus, r], [x, y]), None);
    RparThenStarvedSum(x, y);
  }

  /** The incoming `)` stops at any arithmetic operator (codes below it) and is pushed. */
  lemma RparAfterPending(st: EvalState)
    requires |st.ops| > 0 && st.ops[|st.ops| - 1].kind in ArithmeticCodes
    ensures FeedOne(st, OperatorToken(TT_SY_RPAR)) == Outcome(EvalState(st.ops + [OperatorToken(TT_SY_RPAR)], st.nums), None)
  {
    var top := st.ops[|st.ops| - 1].kind;
    assert top < TT_SY_RPAR by {
      assert top == TT_OP_ADD || top == TT_OP_SUB || top == TT_OP_DIV || top == TT_OP_MUL || top == TT_OP_MOD || top == TT_OP_POW;
    }
    ReduceHalted(st, TT_SY_RPAR);
    RparIsAppliedAsOperator(EvalState([], [Lit(0), Lit(0)]));
  }

  /** Draining `( + )` over x and y: `)` consumes both numbers, then `+` has one. */
  lemma RparThenStarvedSum(x: Num, y: Num)
    ensures Drain(EvalState([OperatorToken(TT_SY_LPAR), OperatorToken(TT_OP_ADD), OperatorToken(TT_SY_RPAR)], [x, y]))
      == Outcome(EvalState([OperatorToken(TT_SY_LPAR)], []), Some(MissingBinaryOperand(TT_OP_ADD)))
  {
    var l := OperatorToken(TT_SY_LPAR);
    var plus := OperatorToken(TT_OP_ADD);
    RparIsAppliedAsOperator(EvalState([l, plus], [x, y]));
    assert Apply(TT_OP_ADD, EvalState([l], [Sentinel])) == Outcome(EvalState([l], []), Some(MissingBinaryOperand(TT_OP_ADD)));
  }

  /** `round(v)`: the `)` needs two numbers and finds one, so no function is ever called. */
  lemma FunctionCallFails(v: Num)
    ensures Evaluate(EvalState([], []),
        [Token(TT_SY_LPAR, Lit(0), Some("round")), NumberToken(v), OperatorToken(TT_SY_RPAR)])
      == Evaluation(EvalState([Token(TT_SY_LPAR, Lit(0), Some("round"))], []), Err(MissingBinaryOperand(TT_SY_RPAR)))
  {
    var call := Token(TT_SY_LPAR, Lit(0), Some("round"));
    var r := OperatorToken(TT_SY_RPAR);
    var tokens := [call, NumberToken(v), r];
    assert FeedOne(EvalState([], []), tokens[0]) == Outcome(EvalState([call], []), None);
    assert FeedOne(EvalState([call], []), tokens[1]) == Outcome(EvalState([call], [v]), None);
    ReduceHalted(EvalState([call], [v]), TT_SY_RPAR);
    assert FeedOne(EvalState([call], [v]), tokens[2]) == Outcome(EvalState([call, r], [v]), None);
    assert Feed(EvalState([call, r], [v]), tokens, 3) == Outcome(EvalState([call, r], [v]), None);
    assert Feed(EvalState([call], [v]), tokens, 2) == Outcome(EvalState([call, r], [v]), None);
    assert Feed(EvalState([call], []), tokens, 1) == Outcome(EvalState([call, r], [v]), None);
    assert Feed(EvalState([], []), tokens, 0) == Outcome(EvalState([call, r], [v]), None);
    RparIsAppliedAsOperator(EvalState([], [Lit(0), Lit(0)]));
    assert Apply(TT_SY_RPAR, EvalState([call], [v])) == Outcome(EvalState([call], []), Some(MissingBinaryOperand(TT_SY_RPAR)));
  }

  /**
   * eval_x_is_close_paren as written, were `)` to reach it: over `( +` it applies `+`,
   * then applies the plain open paren like an operator, which pushes a stray 0, and
   * carries on to the bottom of the stack instead of stopping at the paren.
   */
  lemma CloseParenAsWrittenSum(x: Num, y: Num)
    ensures CloseParen(EvalState([OperatorToken(TT_SY_LPAR), OperatorToken(TT_OP_ADD)], [x, y]), 0)
      == Outcome(EvalState([], [Add(x, y), Lit(0)]), None)
  {
    var l := OperatorToken(TT_SY_LPAR);
    assert Apply(TT_OP_ADD, EvalState([l], [x, y])) == Outcome(EvalState([l], [Add(x, y)]), None);
    assert Apply(TT_SY_LPAR, EvalState([], [Add(x, y)])) == Outcome(EvalState([], [Add(x, y), Lit(0)]), None);
    var done := Outcome(EvalState([], [Add(x, y), Lit(0)]), None);
    assert CloseParen(EvalState([], [Add(x, y), Lit(0)]), 0) == done;
    assert [l][..0] == [];
    assert CloseParen(EvalState([l], [Add(x, y)]), 0) == done;
    assert [l, OperatorToken(TT_OP_ADD)][..1] == [l];
  }

  // ---------------------------------------------------------------------------
  // Parentheses as evidently intended: `)` with a code of its own (0x40000000, without
  // the XOR bit), and a close paren that stops at the first open paren, popping a plain
  // one and calling the function of a named one.

  const RparIntended: TokenT := 0x40000000

  lemma RparIntendedReachesCloseParen()
    ensures Dispatch(RparIntended) == CloseParenAction
    ensures RparIntended & TT_OPERATOR == 0
  {
  }

  function CloseParenIntended(st: EvalState, commas: nat): (r: Outcome)
    ensures |r.st.ops| <= |st.ops| && r.st.ops == st.ops[..|r.st.ops|]
    decreases |st.ops|
  {
    var n := |st.ops|;
    if n == 0 then Outcome(st, None)
    else
      var top := st.ops[n - 1];
      var popped := EvalState(st.ops[..n - 1], st.nums);
      if top.kind == TT_SY_LPAR then
        if top.func.Some? then CallFunction(st, top.func.value, commas) else Outcome(popped, None)
      else if top.kind == TT_SY_COMA then CloseParenIntended(popped, commas + 1)
      else
        var applied := Apply(top.kind, popped);
        if applied.failure.Some? then applied
        else CloseParenIntended(applied.st, commas)
  }

  function FeedOneIntended(st: EvalState, t: Token): Outcome {
    if Dispatch(t.kind) == CloseParenAction then CloseParenIntended(st, 0) else FeedOne(st, t)
  }

  function FeedIntended(st: EvalState, tokens: seq<Token>, i: nat): Outcome
    decreases |tokens| - i
  {
    if i >= |tokens| then Outcome(st, None)
    else
      var next := FeedOneIntended(st, tokens[i]);
      if next.failure.Some? then next
      else FeedIntended(next.st, tokens, i + 1)
  }

  function EvaluateIntended(st: EvalState, tokens: seq<Token>): Evaluation {
    var fed := FeedIntended(st, tokens, 0);
    if fed.failure.Some? then Evaluation(fed.st, Err(fed.failure.value))
    else
      var drained := Drain(fed.st);
      if drained.failure.Some? then Evaluation(drained.st, Err(drained.failure.value))
      else PopResult(drained.st)
  }

  /** `(x + y)` with the intended `)`: the sum, and nothing left on either stack. */
  lemma ParenthesizedSumIntended(x: Num, y: Num)
    ensures EvaluateIntended(EvalState([], []),
        [OperatorToken(TT_SY_LPAR), NumberToken(x), OperatorToken(TT_OP_ADD), NumberToken(y), OperatorToken(RparIntended)])
      == Evaluation(EvalState([], []), Ok(Some(Add(x, y))))
  {
    var tokens := [OperatorToken(TT_SY_LPAR), NumberToken(x), OperatorToken(TT_OP_ADD), NumberToken(y), OperatorToken(RparIntended)];
    var l := OperatorToken(TT_SY_LPAR);
    var plus := OperatorToken(TT_OP_ADD);
    RparIntendedReachesCloseParen();
    assert FeedOneIntended(EvalState([], []), tokens[0]) == Outcome(EvalState([l], []), None);
    assert FeedOneIntended(EvalState([l], []), tokens[1]) == Outcome(EvalState([l], [x]), None);
    ReduceHalted(EvalState([l], [x]), TT_OP_ADD);
    assert FeedOneIntended(EvalState([l], [x]), tokens[2]) == Outcome(EvalState([l, plus], [x]), None);
    assert FeedOneIntended(EvalState([l, plus], [x]), tokens[3]) == Outcome(EvalState([l, plus], [x, y]), None);
    CloseParenIntendedSum(x, y);
    assert FeedOneIntended(EvalState([l, plus], [x, y]), tokens[4]) == Outcome(EvalState([], [Add(x, y)]), None);
    var done := Outcome(EvalState([], [Add(x, y)]), None);
    assert FeedIntended(EvalState([], [Add(x, y)]), tokens, 5) == done;
    assert FeedIntended(EvalState([l, plus], [x, y]), tokens, 4) == done;
    assert FeedIntended(EvalState([l, plus], [x]), tokens, 3) == done;
    assert FeedIntended(EvalState([l], [x]), tokens, 2) == done;
    assert FeedIntended(EvalState([l], []), tokens, 1) == done;
    assert FeedIntended(EvalState([], []), tokens, 0) == done;
  }

  /** The intended close paren applies `+` and then pops the plain open paren and stops. */
  lemma CloseParenIntendedSum(x: Num, y: Num)
    ensures CloseParenIntended(EvalState([OperatorToken(TT_SY_LPAR), OperatorToken(TT_OP_ADD)], [x, y]), 0)
      == Outcome(EvalState([], [Add(x, y)]), None)
  {
    var l := OperatorToken(TT_SY_LPAR);
    assert Apply(TT_OP_ADD, EvalState([l], [x, y])) == Outcome(EvalState([l], [Add(x, y)]), None);
    assert CloseParenIntended(EvalState([l], [Add(x, y)]), 0) == Outcome(EvalState([], [Add(x, y)]), None);
  }

  /** Apply reads only the number stack: the operators beneath do not change its effect. */
  lemma ApplyIgnoresOps(kind: TokenT, a: seq<Token>, b: seq<Token>, nums: seq<Num>)
    ensures Apply(kind, EvalState(a, nums)).failure == Apply(kind, EvalState(b, nums)).failure
    ensures Apply(kind, EvalState(a, nums)).st.nums == Apply(kind, EvalState(b, nums)).st.nums
  {
  }

  /** One turn of the intended close paren's loop at an arithmetic operator: it is applied. */
  lemma CloseParenIntendedApplies(rest: seq<Token>, top: Token, nums: seq<Num>, commas: nat)
    requires top.kind in ArithmeticCodes
    ensures var applied := Apply(top.kind, EvalState(rest, nums));
      CloseParenIntended(EvalState(rest + [top], nums), commas)
        == if applied.failure.Some? then applied else CloseParenIntended(applied.st, commas)
  {
    assert (rest + [top])[..|rest|] == rest;
  }

  lemma ArithOpsPrefix(ops: seq<Token>, m: nat)
    requires ArithOps(ops) && m <= |ops|
    ensures ArithOps(ops[..m])
  {
    forall k | 0 <= k < m
      ensures ops[..m][k].kind in ArithmeticCodes
    {
      assert ops[..m][k] == ops[k];
    }
  }

  /**
   * The intended close paren evaluates the arithmetic operators above the nearest plain
   * open paren exactly as the final drain would evaluate them on their own, then removes
   * the open paren and leaves everything beneath it.
   */
  lemma {:induction false} CloseParenIntendedGroup(below: seq<Token>, above: seq<Token>, nums: seq<Num>, commas: nat)
    requires ArithOps(above)
    ensures var d := Drain(EvalState(above, nums));
      var r := CloseParenIntended(EvalState(below + [OperatorToken(TT_SY_LPAR)] + above, nums), commas);
      r.failure == d.failure && (d.failure.None? ==> r.st == EvalState(below, d.st.nums))
    decreases |above|
  {
    var l := OperatorToken(TT_SY_LPAR);
    var ops := below + [l] + above;
    var n := |above|;
    if n == 0 {
      assert ops[..|ops| - 1] == below;
    } else {
      var top := above[n - 1];
      var rest := above[..n - 1];
      var inner := below + [l] + rest;
      assert ops == inner + [top];
      CloseParenIntendedApplies(inner, top, nums, commas);
      ApplyIgnoresOps(top.kind, inner, rest, nums);
      var grouped := Apply(top.kind, EvalState(inner, nums));
      var applied := Apply(top.kind, EvalState(rest, nums));
      var r := CloseParenIntended(EvalState(ops, nums), commas);
      var d := Drain(EvalState(above, nums));
      assert d == if applied.failure.Some? then applied else Drain(applied.st);
      if applied.failure.None? {
        assert grouped.st == EvalState(inner, applied.st.nums);
        assert applied.st == EvalState(rest, applied.st.nums);
        assert r == CloseParenIntended(EvalState(inner, applied.st.nums), commas);
        ArithOpsPrefix(above, n - 1);
        CloseParenIntendedGroup(below, rest, applied.st.nums, commas);
      }
    }
  }

  /** `round(v)` with the intended `)`: round is called on v. */
  lemma FunctionCallIntended(v: Num)
    ensures EvaluateIntended(EvalState([], []),
        [Token(TT_SY_LPAR, Lit(0), Some("round")), NumberToken(v), OperatorToken(RparIntended)])
      == Evaluation(EvalState([], []), Ok(Some(Round(v))))
  {
    var call := Token(TT_SY_LPAR, Lit(0), Some("round"));
    var tokens := [call, NumberToken(v), OperatorToken(RparIntended)];
    RparIntendedReachesCloseParen();
    assert FeedOneIntended(EvalState([], []), tokens[0]) == Outcome(EvalState([call], []), None);
    assert FeedOneIntended(EvalState([call], []), tokens[1]) == Outcome(EvalState([call], [v]), None);
    RoundCall(EvalState([call], [v]));
    assert FeedOneIntended(EvalState([call], [v]), tokens[2]) == Outcome(EvalState([], [Round(v)]), None);
    var done := Outcome(EvalState([], [Round(v)]), None);
    assert FeedIntended(EvalState([], [Round(v)]), tokens, 3) == done;
    assert FeedIntended(EvalState([call], [v]), tokens, 2) == done;
    assert FeedIntended(EvalState([call], []), tokens, 1) == done;
    assert FeedIntended(EvalState([], []), tokens, 0) == done;
  }
}
