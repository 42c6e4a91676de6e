# seqft-c calculator core, modelled in Dafny

seqft-c evaluates arithmetic expressions given as text. The core is a two-stage
pipeline:

- The **tokenizer** (`src/tokenizer.c`) is a character-at-a-time state machine. It keeps
  an accumulator flag (`AccFlag`), a stack of accumulated characters and a stack of
  finished tokens.
- The **evaluator** (`src/evaluator.c`) is a shunting-yard machine. It works on an
  operator stack and a number stack.

The two stages share the 64-bit token codes of `src/tokent_t.h` and the string-to-code
table of `src/tokent_t.c`. Around them sit `filter_whitespace` (`src/common.c`) and the
byte-buffer stack of `src/stack.c`.

The model has eight modules:

| module | file | models |
|---|---|---|
| `Wrappers` | `wrappers.dfy` | `Option` and `Result` |
| `CType` | `ctype.dfy` | the C-locale character classes and C strings (the text up to the first NUL) |
| `TokenTypes` | `tokent_t.dfy` | the token codes as `bv64`, the lookup table, `str_to_token_t`, and facts about how the code bits are laid out |
| `Tokenizing` | `tokenizer.dfy` | the tokenizer |
| `TokenizerProps` | `tokenizer_props.dfy` | what the tokenizer reports and produces |
| `Evaluation` | `evaluator.dfy` | the evaluator |
| `EvaluatorProps` | `evaluator_props.dfy` | dispatch, error freedom, precedence, leftovers and parentheses |
| `Stacks` | `stack.dfy` | the `Stack_*` functions |
| `Common` | `common.dfy` | `filter_whitespace` |

How each stage is modelled:

- **Tokenizer.** The effect of one character is the pure transition `Step`. `Run` folds
  `Step` over the input, `Finish` handles what remains accumulated, and `TokenizeText`
  is the whole function. The class `Tokenizer` holds the same state in fields. Its
  method `Tokenize` is proved to deliver `TokenizeText`.
- **Evaluator.** `Apply`, `Reduce`, `CloseParen`, `Drain` and `Evaluate` say what
  applying one operator, `eval_x_is_operator`, `eval_x_is_close_paren`, the final drain
  and `Sft_evalTokens` do to the two stacks. The class `Sft` holds the stacks in
  fields. Its methods are proved to compute those functions.
- **Doubles** stay symbolic. A value is a term saying which floating-point operation
  produced it from which operands: `Lit`, `Float`, `Add`, `Sub`, `Div`, `Mul`, `Mod`,
  `Pow`, `Neg`, `Round`, `Ceil`. `0xDEADC0DE` is `Lit(0xDEADC0DE)`.

The code as written has these quirks, and the model keeps them:

- **`^` is XOR.** It resolves to `TT_OP_XOR`, which `eval_binary_op` does not compute.
- **Power, floor division and shifts cannot be written.** An operator run keeps only its
  first character: a second operator character is dropped. So `2**3` is read as `2 * 3`,
  and `TT_OP_POW`, `TT_OP_FLOOR`, `TT_OP_LSH` and `TT_OP_RSH` are never produced,
  although the table spells them `**`, `//`, `<<` and `>>`.
- **Precedence is numeric.** It is the order of the token codes: `top.kind < incoming`
  stops a reduction. So `*` (0x20) binds tighter than `/` (0x08), `-` tighter than `+`,
  and equal codes group to the left.
- **`)` never reaches the close-paren branch.** `TT_SY_RPAR` (0x40000800) carries XOR's
  bit, so `Sft_evalTokens` treats `)` as an operator. Parenthesised sums and function
  calls fail (see Findings).
- **The stacks are not cleared.** The evaluator neither empties its stacks before an
  evaluation nor drains them after one. Values left by an earlier call take part in the
  next.
- **Only `round` can be called.** Only the first entry of `FN_LOOKUP` is ever compared
  with a function name, so `ceil` is reported as "no such function".
- **A leading zero is reported at index 0**, not at the offending character.
- **`!` cannot be written.** It resolves to nothing: the table has no entry for it.
- **A base prefix on its own parses mid-input.** Mid-input the pushed NUL counts
  towards the 3-character minimum of a base literal, so `0x` followed by an operator
  parses as 0. At the end of the input it is an error.
- **A one-digit fraction at the end of the input is refused.** `1.` ends the input with
  two characters, below the 3-character minimum, so it is a parse error; `1.+2` is not.

## Model

| member | source | states |
|---|---|---|
| CType.DigitValue | src/tokenizer.c:239 | a hexadecimal digit has a value below 16; a character is a decimal digit exactly when it is a hex digit worth less than 10 |
| CType.CStr | src/tokenizer.c:387-388 | the C string of a buffer is its longest NUL-free prefix, ended by the buffer's first NUL |
| TokenTypes.FindDigit | src/tokent_t.c:7-11 | true exactly when a decimal digit occurs at the position or later |
| TokenTypes.Lookup | src/tokent_t.c:35-41 | non-zero exactly when an entry at the position or later has that name, and then it is that entry's code |
| TokenTypes.StrToTokenT | src/tokent_t.c:6-42 | TT_NUMBER exactly when the string holds a digit; otherwise non-zero exactly when an entry has that name, and then it is its code; never anything outside 0, TT_NUMBER and the table's codes |
| TokenTypes.TableCodesNonZero | src/tokent_t.c:16-33 | no entry's code can be mistaken for "not found" or for a number |
| TokenTypes.LookupInTable | src/tokent_t.c:35-41 | a successful lookup returns a code of the table |
| TokenTypes.TableNamesDistinct | src/tokent_t.c:16-33 | no two entries share a name, so the scan order cannot change a result |
| TokenTypes.TableCodesAccepted | src/tokent_t.c:16-33 | every table code passes the tokenizer's operator-or-symbol test |
| TokenTypes.UnaryBinaryDisjoint | src/tokent_t.h:30-34 | no code is both a unary and a binary operator bit |
| TokenTypes.RparSharesXorBit | src/tokent_t.h:19-37 | `)` carries the XOR bit, so it passes the binary-operator and operator tests and not the unary one |
| TokenTypes.BarriersOutsideOperators | src/tokent_t.h:23-37 | the open-paren and comma bits are disjoint from the operator and number bits, and from `)` |
| TokenTypes.OperatorCodesIncrease | src/tokent_t.h:9-22 | the numeric order of the operator codes, from `+` up to `!` |
| TokenTypes.NumberOutsideOperatorsAndSymbols | src/tokent_t.h:8-37 | the number bit is disjoint from every operator and symbol bit |
| TokenTypes.CaretIsXor | src/tokent_t.c:22 | `^` resolves to TT_OP_XOR |
| TokenTypes.DoubleStarIsPow | src/tokent_t.c:23 | `**` resolves to TT_OP_POW |
| TokenTypes.BangNotInTable | src/tokent_t.c:16-41 | `!` resolves to 0 although TT_OP_NOT exists |
| TokenTypes.NoEmptyName | src/tokent_t.c:16-33 | no entry has an empty name |
| TokenTypes.EmptyRunCode | src/tokent_t.c:6-42 | the empty string resolves to 0 |
| TokenTypes.OneCharCodesApart | src/tokent_t.c:16-33 | the codes of the entries named by one character are table codes, and none of them is the code of `**`, `//`, `<<` or `>>` |
| TokenTypes.OneCharCode | src/tokent_t.c:6-42 | a one-character string resolves to 0, TT_NUMBER or a one-character code, never to power, floor division or a shift |
| TokenTypes.DigitMeansNumber | src/tokent_t.c:7-11 | a string with a digit anywhere is a number, even after an operator character |
| Tokenizing.AssignAccflag | src/tokenizer.c:86-96 | NIL exactly for whitespace; a number flag exactly for a (hex) digit, with DTZ exactly for '0'; FUN exactly for a letter that is not a digit of the radix |
| Tokenizing.ValidateDigit | src/tokenizer.c:99-110 | BIN, OCT and HEX accept exactly the digits of their radix; every other flag accepts exactly the decimal digits |
| Tokenizing.InOperatorCharset | src/tokenizer.c:112-115 | a member of the set is neither blank nor alphanumeric, and is never a parenthesis, '.' or NUL |
| Tokenizing.AccFlagFromFormatChar | src/tokenizer.c:246-259 | non-NIL exactly for x, o, b and '.', and then one of HEX, BIN, OCT, FPN |
| Tokenizing.CustomBase | src/tokenizer.c:213-214 | the double complement keeps exactly the HEX, OCT and BIN bits of the flag |
| Tokenizing.DigitRun | src/tokenizer.c:239 | strtoll consumes the longest prefix of digits valid in the radix |
| Tokenizing.StrToLL | src/tokenizer.c:239 | strtoll reads the digits valid in the radix up to the first other character; its value is the value of those digits, clamped to LLONG_MAX, and a text of such digits only is read whole |
| Tokenizing.DigitRunIsLongest | src/tokenizer.c:239 | the digits strtoll reads end at the only position where the valid digits stop |
| Tokenizing.ParseNumber | src/tokenizer.c:189-244 | a parsed number is a TT_NUMBER token without a name; parsing fails exactly on an empty buffer or a base/float buffer shorter than 3 (its value: BaseNumberValue, DecimalNumberValue, FloatNumberValue) |
| Tokenizing.CStrTerminated | src/tokenizer.c:422-424 | pushing a NUL after NUL-free characters gives back exactly those characters |
| Tokenizing.ParenRunsResolve | src/tokenizer.c:421-428 | a run holding a single parenthesis resolves to the open or close paren code |
| Tokenizing.SymbolRunCode | src/tokenizer.c:441-446 | a one-character operator run resolves to 0, TT_NUMBER or a one-character code |
| Tokenizing.NulRunCode | src/tokenizer.c:441-446 | a NUL in the run ends its C string at once, and the empty run resolves to 0 |
| Tokenizing.CharRunCode | src/tokenizer.c:441-446 | any other character is looked up as itself |
| Tokenizing.FreshAccumulation | src/tokenizer.c:276-292 | a non-blank character on its own is a valid accumulation under its flag |
| Tokenizing.StartKeepsValid | src/tokenizer.c:282-293 | from an idle accumulator every non-blank character is accepted and the state stays valid |
| Tokenizing.NumberKeepsValid | src/tokenizer.c:308-365 | a character during a number keeps the state valid; the only error it can raise is the leading zero |
| Tokenizing.FunctionKeepsValid | src/tokenizer.c:368-408 | a character during a name keeps the state valid; the only error is an invalid name character |
| Tokenizing.AppendProduced | src/tokenizer.c:430-431 | pushing a produced token keeps every token produced |
| Tokenizing.ParenRunKeepsValid | src/tokenizer.c:418-435 | an operator character after a parenthesis flushes the parenthesis as a token |
| Tokenizing.SymbolRunEndKeepsValid | src/tokenizer.c:441-463 | a resolvable run ended by a non-operator character becomes a token and the character starts a new accumulation |
| Tokenizing.SymbolKeepsValid | src/tokenizer.c:411-464 | a character during a symbol run keeps the state valid; the only error is an unresolvable run |
| Tokenizing.StepKeepsValid | src/tokenizer.c:269-471 | one character keeps the state invariant and never reaches one of the seven unreachable error sites |
| Tokenizing.RunKeepsValid | src/tokenizer.c:269-471 | the same holds for the whole loop |
| Tokenizing.Tokenizer.constructor | src/tokenizer.c:117-132 | empty stacks, flag NIL, no error |
| Tokenizing.Tokenizer.Clear | src/tokenizer.c:164-174 | empty stacks, flag NIL, error freed |
| Tokenizing.Tokenizer.Error | src/tokenizer.c:176-186 | the stored error is replaced by the new one |
| Tokenizing.Tokenizer.ParseStackAsNumber | src/tokenizer.c:189-244 | succeeds exactly when ParseNumber does, delivering its token; on failure the error is recorded |
| Tokenizing.Tokenizer.Scan | src/tokenizer.c:269-471 | the loop succeeds exactly when Run does, leaving Run's state; otherwise it records Run's error |
| Tokenizing.Tokenizer.Flush | src/tokenizer.c:476-515 | delivers Finish's tokens and empties the stacks, or records Finish's error |
| Tokenizing.Tokenizer.Tokenize | src/tokenizer.c:262-516 | delivers exactly TokenizeText of the expression: its tokens with empty stacks, or its error |
| TokenizerProps.StepErrors | src/tokenizer.c:282-470 | one character can fail only with a leading zero at index 0 or with a bad name or operator character at that index |
| TokenizerProps.RunErrors | src/tokenizer.c:269-471 | a loop error is a leading zero at 0, or a bad character at a non-blank position of the input |
| TokenizerProps.TokenizeErrors | src/tokenizer.c:262-516 | every reported error: a leading zero at 0, a bad character where it stands, or an end-of-input error at the length; none of the unreachable sites |
| TokenizerProps.TokenizeProducesKnownCodes | src/tokenizer.c:262-516 | every token of a successful run is a number or the code of a table entry named by one character: never `**`, `//`, `<<` or `>>` |
| TokenizerProps.FinishProduced | src/tokenizer.c:476-505 | the token added at the end of input is a number or a one-character table code |
| TokenizerProps.StepIndexFree | src/tokenizer.c:269-471 | the index changes nothing but the index an error carries |
| TokenizerProps.RunIndexFree | src/tokenizer.c:269-471 | the loop's outcome depends on the characters still to read, not on where they sit |
| TokenizerProps.RunSkipsWhitespace | src/tokenizer.c:272-274 | the loop over a suffix agrees with the loop over that suffix with whitespace removed |
| TokenizerProps.TokenizeIgnoresWhitespace | src/tokenizer.c:269-274 | an expression and the same expression without whitespace give the same tokens, or errors of the same kind |
| TokenizerProps.StepStarts | src/tokenizer.c:282-293 | from NIL a non-blank character starts DEC, DEC with DTZ, FUN or SPC accumulation on its own |
| TokenizerProps.StepExtendsNumber | src/tokenizer.c:309-319 | a valid digit extends the number, except after a lone '0', where it is the leading-zero error at 0 |
| TokenizerProps.StepSelectsFormat | src/tokenizer.c:331-342 | after a single digit, x, o, b and '.' switch to their base or to a fraction |
| TokenizerProps.StepEndsNumber | src/tokenizer.c:344-364 | any other character ends the number: exactly one number token is pushed, and mid-input the parse cannot fail |
| TokenizerProps.StepCallsFunction | src/tokenizer.c:383-403 | '(' ends a name and pushes an open-paren token carrying the name |
| TokenizerProps.StepEndsSymbol | src/tokenizer.c:441-463 | a non-operator character ends a run: a resolvable run becomes its token, otherwise the error is at that index |
| TokenizerProps.StepDropsOperatorChar | src/tokenizer.c:418-436 | an operator character after a non-parenthesis symbol is dropped |
| TokenizerProps.ParseDigit | src/tokenizer.c:189-244 | a single decimal digit, with or without the pushed NUL, parses to its value |
| TokenizerProps.ResolveSymbol | src/tokenizer.c:441-446 | a one-character run resolves to its table entry's code |
| TokenizerProps.EmptyHexPrefix | src/tokenizer.c:220-232 | mid-input `0x` with the pushed NUL parses as 0; at the end of input `0x` is an incomplete number |
| TokenizerProps.BaseNumberValue | src/tokenizer.c:189-244 | for every binary, octal or hex buffer: the 2-character prefix is dropped and the digits are read in the flag's radix, clamped to LLONG_MAX; mid-input this always succeeds, at the end of input a bare prefix is an incomplete number |
| TokenizerProps.DecimalNumberValue | src/tokenizer.c:189-244 | for every decimal buffer: the whole buffer is read in radix 10, clamped to LLONG_MAX, with or without the pushed NUL |
| TokenizerProps.FloatNumberValue | src/tokenizer.c:189-244 | for every float buffer: the token is the float of the whole text; mid-input this always succeeds, at the end of input a 2-character buffer is an incomplete number |
| TokenizerProps.HexBuffer | src/tokenizer.c:228-239 | `0xff` parses as 255 |
| TokenizerProps.BinaryBuffer | src/tokenizer.c:228-239 | `1b101` parses as 5 |
| TokenizerProps.FloatBuffer | src/tokenizer.c:236-237 | `2.5` parses as the float of the text `2.5` |
| Common.RemoveWhitespace | src/common.c:7-12 | the result is no longer than the input and holds no whitespace |
| Common.RemoveWhitespaceCons | src/common.c:7-12 | filtering works character by character from the front |
| Common.RemoveWhitespaceFixpoint | src/common.c:7-12 | a string without whitespace is unchanged |
| Common.RemoveWhitespaceIdempotent | src/common.c:7-12 | filtering twice is filtering once |
| Common.RemoveWhitespaceAppend | src/common.c:7-12 | filtering distributes over concatenation, keeping order |
| Common.StrLen | src/common.c:14 | strlen stops at the first NUL: the prefix it measures is the buffer's C string |
| Common.CStrPrefix | src/common.c:14 | a NUL after a NUL-free prefix ends the C string there |
| Common.CStrTerminator | src/common.c:14-18 | appending a NUL does not change a C string |
| Common.FilterWhitespaceAsWritten | src/common.c:3-21 | as written: the result is the input unfiltered; the result block is one byte shorter than what is copied into it |
| Common.AsWrittenKeepsWhitespace | src/common.c:8 | a leading blank survives the routine as written, while the filter removes it |
| Common.CopyNonSpace | src/common.c:4-12 | the corrected loop leaves exactly the non-blank input characters, in order, followed by zeros |
| Common.CopyTerminated | src/common.c:16-18 | a block of n + 1 bytes receives the n characters and the NUL |
| Common.FilterWhitespace | src/common.c:3-21 | corrected: the whole result block is the filtered C string followed by its NUL |
| Common.CStrOfSplit | src/common.c:14 | the C string of a buffer whose NUL follows a prefix is the C string of that prefix |
| Evaluation.BinaryOpComputes | src/evaluator.c:54-74 | the sentinel exactly for codes outside the six arithmetic ones; otherwise the result is computed from num1 and num2 in that order |
| Evaluation.UnaryOpComputes | src/evaluator.c:76-82 | negation exactly when the NEG bit is set, the sentinel otherwise |
| Evaluation.ApplyFunction | src/evaluator.c:12-26 | 0 without arguments; otherwise never the sentinel, computed from the first argument alone, by rounding exactly for the round entry and by ceiling exactly for the ceil entry |
| Evaluation.Apply | src/evaluator.c:104-145 | the operator stack is untouched; it fails exactly when fewer numbers are stacked than the operator's arity |
| Evaluation.ApplyEffect | src/evaluator.c:104-145 | on failure the operands were popped and nothing pushed; on success the operands are replaced by one result and the numbers below stay |
| Evaluation.Reduce | src/evaluator.c:89-147 | the operator stack only loses entries from its top |
| Evaluation.ReduceUnfold | src/evaluator.c:89-147 | a top that does not halt the loop is popped and applied, and the loop continues unless that failed |
| Evaluation.ReduceHalted | src/evaluator.c:89-99 | an empty stack or a halting top ends the loop with no change |
| Evaluation.ReducePopsNonHalting | src/evaluator.c:95-101 | every popped entry was neither a barrier nor below the incoming code |
| Evaluation.ReduceStopsAtHalt | src/evaluator.c:89-99 | on success the stack is empty or its top halts the loop |
| Evaluation.CallFunction | src/evaluator.c:167-253 | the open paren is popped in every case; success needs the name of FN_LOOKUP[0], commas + 1 equal to its arity and enough numbers; on failure the numbers are untouched |
| Evaluation.TopFirst | src/evaluator.c:209-234 | the arguments in the order they come off the stack |
| Evaluation.CloseParen | src/evaluator.c:159-305 | the operator stack only loses entries from its top |
| Evaluation.Drain | src/evaluator.c:383-427 | on success no operator is left |
| Evaluation.PopResult | src/evaluator.c:430-436 | never an error, and the operators stay; there is a result exactly when a number is stacked, and pushing it back restores the number stack; with none the stacks are unchanged |
| Evaluation.Sft.constructor | src/evaluator.c:42-52 | two empty stacks, no error |
| Evaluation.Sft.PopNumber | src/evaluator.c:108-114 | the top number, or None on an empty stack |
| Evaluation.Sft.PopOperator | src/evaluator.c:101 | the top operator, or None on an empty stack |
| Evaluation.Sft.ApplyOperator | src/evaluator.c:104-145 | leaves the stacks Apply gives and reports its error |
| Evaluation.Sft.EvalXIsOperator | src/evaluator.c:84-150 | leaves the stacks Reduce gives and reports its error |
| Evaluation.Sft.CallNamed | src/evaluator.c:167-253 | leaves the stacks CallFunction gives and reports its error |
| Evaluation.Sft.EvalXIsCloseParen | src/evaluator.c:152-308 | leaves the stacks CloseParen gives and reports its error |
| Evaluation.Sft.DrainOperators | src/evaluator.c:383-427 | leaves the stacks Drain gives and reports its error |
| Evaluation.Sft.EvalTokens | src/evaluator.c:313-439 | leaves the stacks Evaluate gives, and returns its result or reports its error |
| EvaluatorProps.ArithmeticCodesBinary | src/evaluator.c:341-357 | the six arithmetic codes are binary, never barriers, and take the reduce-then-push branch |
| EvaluatorProps.ProducedDispatch | src/evaluator.c:329-376 | for every token the tokenizer can produce: numbers are pushed, a plain or named `(` is pushed, and every other code, `)` included, takes the operator branch |
| EvaluatorProps.PipelineNeverClosesParen | src/evaluator.c:341-376 | no token of any tokenized text reaches eval_x_is_close_paren |
| EvaluatorProps.RparIsAppliedAsOperator | src/evaluator.c:104-123 | applying `)` pops two numbers and pushes the sentinel |
| EvaluatorProps.ReduceBalanced | src/evaluator.c:89-147 | over arithmetic operators with one more number than operators, a reduction cannot fail and keeps that balance |
| EvaluatorProps.DrainBalanced | src/evaluator.c:383-427 | the final drain of a balanced state cannot fail and leaves exactly one number |
| EvaluatorProps.FeedInfix | src/evaluator.c:322-377 | feeding an alternation of numbers and arithmetic operators cannot fail and ends balanced |
| EvaluatorProps.InfixNeverFails | src/evaluator.c:313-439 | such an alternation evaluates on fresh stacks to a value and leaves both stacks empty |
| EvaluatorProps.FeedFirstThree | src/evaluator.c:322-357 | reading `x a y` leaves `a` pending over x and y |
| EvaluatorProps.FeedRisingTail | src/evaluator.c:98-99 | a later operator with a larger code is pushed above the pending one |
| EvaluatorProps.FeedFallingTail | src/evaluator.c:98-145 | a later operator whose code is not larger applies the pending one first |
| EvaluatorProps.ReduceFalling | src/evaluator.c:98-145 | a pending operator whose code is not below the incoming one is applied, and the loop stops |
| EvaluatorProps.DrainTwo | src/evaluator.c:383-427 | the drain applies the top operator first |
| EvaluatorProps.DrainOne | src/evaluator.c:383-427 | the drain applies a lone operator to its two numbers |
| EvaluatorProps.PrecedenceByCode | src/evaluator.c:98-99 | in `x a y b z`, b is applied first exactly when its code is larger than a's; equal codes group left; both stacks end empty |
| EvaluatorProps.DivisionBindsLooser | src/evaluator.c:98-99 | `x / y * z` is computed as x / (y * z) |
| EvaluatorProps.PowerGroupsLeft | src/evaluator.c:98-99 | two TT_OP_POW tokens with equal codes group left, (x pow y) pow z; no text produces TT_OP_POW, so this is about the evaluator alone |
| EvaluatorProps.ProductBeforeSum | src/evaluator.c:98-99 | `x + y * z` is x + (y * z) |
| EvaluatorProps.CeilIsNeverCalled | src/evaluator.c:172-248 | a call of `ceil` is "no such function", with the open paren popped |
| EvaluatorProps.RoundCall | src/evaluator.c:207-253 | `round` with no comma pops one number and pushes its rounding |
| EvaluatorProps.RoundArityChecked | src/evaluator.c:178-186 | `round` after a comma is an arity error, with the open paren popped |
| EvaluatorProps.LeftoverNumber | src/evaluator.c:430-436 | two numbers without an operator: the second is the result and the first stays on the stack |
| EvaluatorProps.LeftoverIsOperand | src/evaluator.c:313-439 | a number left by an earlier call is the left operand of `y +` |
| EvaluatorProps.ParenthesizedSumFails | src/evaluator.c:341-376 | `(x + y)` fails with a missing operand for `+`, leaving the open paren on the stack |
| EvaluatorProps.RparAfterPending | src/evaluator.c:98-99 | an incoming `)` stops at any arithmetic operator and is pushed |
| EvaluatorProps.RparThenStarvedSum | src/evaluator.c:383-404 | the drain of `( + )` over two numbers: `)` takes both and `+` is left without operands |
| EvaluatorProps.FunctionCallFails | src/evaluator.c:341-376 | `round(v)` fails with a missing operand for `)`, and no function is called |
| EvaluatorProps.CloseParenAsWrittenSum | src/evaluator.c:159-305 | as written, a close paren over `( +` with x, y applies `+`, then applies the plain `(` like an operator, pushing a stray 0, and runs past it to the bottom of the stack |
| EvaluatorProps.RparIntendedReachesCloseParen | src/evaluator.c:365-376 | a `)` code without the XOR bit reaches the close-paren branch |
| EvaluatorProps.CloseParenIntended | src/evaluator.c:159-305 | the corrected close paren only pops entries from the top of the operator stack |
| EvaluatorProps.ApplyIgnoresOps | src/evaluator.c:104-145 | applying an operator depends only on the number stack |
| EvaluatorProps.CloseParenIntendedApplies | src/evaluator.c:256-304 | at an arithmetic operator the corrected close paren applies it and continues |
| EvaluatorProps.CloseParenIntendedGroup | src/evaluator.c:365-376 | the corrected close paren evaluates the group above the nearest plain `(` as the final drain would, then removes the `(` and keeps what is beneath |
| EvaluatorProps.ParenthesizedSumIntended | src/evaluator.c:365-376 | with the corrected `)`, `(x + y)` evaluates to x + y with both stacks empty |
| EvaluatorProps.CloseParenIntendedSum | src/evaluator.c:365-376 | the corrected close paren applies `+`, pops the plain open paren and stops |
| EvaluatorProps.FunctionCallIntended | src/evaluator.c:167-253 | with the corrected `)`, `round(v)` evaluates to round(v) with both stacks empty |
| Stacks.RawExpandBy | src/stack.c:41-55 | 0 leaves the stack alone; otherwise the new block holds (count + amount) items |
| Stacks.RawPush | src/stack.c:57-66 | a push that stays inside the block counts one more item, so its block is at least (count + 2) items long |
| Stacks.RawPop | src/stack.c:70-78 | reads outside the block exactly when Head + item_size passes its end; otherwise returns the item_size bytes at Head, leaves the block alone and decrements the count modulo 2^64 |
| Stacks.RawNewPopOverruns | src/stack.c:3-13 | a stack just made by Stack_New has no block, so popping it reads outside any block |
| Stacks.RawWithCapacityFirstPush | src/stack.c:15-21 | a stack made with room for amount items takes its first push inside the block exactly when amount is at least 2 |
| Stacks.RawPushThenPop | src/stack.c:28-78 | Head is where the last push wrote: a pop right after a push that stays in the block returns the pushed item and restores the count |
| Stacks.RawPushOverrunsIff | src/stack.c:57-66 | a push writes past the block exactly when the capacity is below (count + 2) * item_size |
| Stacks.RawFirstPushOverruns | src/stack.c:57-66 | the first push on a new stack writes item_size bytes past a block of item_size bytes |
| Stacks.RawLastSlotOverruns | src/stack.c:57-66 | filling the last slot of a stack made with room for n items writes past the block |
| Stacks.RawExpandDropsNewest | src/stack.c:41-55 | after growing, the newest item's slot holds what malloc returned, not the item |
| Stacks.RawPopEmptyWraps | src/stack.c:70-78 | popping an empty stack returns the first bytes of the block and sets the count to SIZE_MAX |
| Stacks.Slots | src/stack.c:28-36 | n items of item_size bytes each |
| Stacks.SlotsPrefix | src/stack.c:48 | the items depend only on the first count * item_size bytes |
| Stacks.SlotsPush | src/stack.c:62-65 | writing an item right after the others appends it and keeps the rest |
| Stacks.SlotsTop | src/stack.c:72-74 | the newest of n items is at (n - 1) * item_size, and without it the first n - 1 items remain |
| Stacks.Stack.New | src/stack.c:3-13 | an empty stack with no room and growth step 16 |
| Stacks.Stack.WithCapacity | src/stack.c:15-21 | an empty stack with room for amount items |
| Stacks.Stack.Head | src/stack.c:28-36 | on a non-empty stack the item_size bytes at Head are the newest item of the contents; base on an empty one |
| Stacks.Stack.ExpandBy | src/stack.c:41-55 | the items and their order are kept in a fresh block of (count + amount) items; 0 changes nothing |
| Stacks.Stack.Push | src/stack.c:57-66 | the contents become the old contents followed by the item |
| Stacks.Stack.Pop | src/stack.c:70-78 | the newest item is returned and removed; an empty stack gives None and stays empty |

## Left out

- Floating point: values are symbolic terms, so rounding, overflow, NaN and the integer
  conversions of `%` are not modelled. `atof` keeps its text, and `strtoll` is modelled
  only for the unsigned digit buffers the tokenizer hands it.
- Memory management: `free`, `Tokenizer_free`, `Stack_Free`, `Token_freeMembers` and the
  deep copy of the token array are outside the model. The evaluator's and tokenizer's
  stacks are Dafny sequences; the lowercase stack API they call (`Stack_withCapacity`,
  `Stack_pushFrom`, `Stack_getHead` …) is declared in `src/stack.h` and implemented
  nowhere in the sources, so it is modelled by its evident meaning.
- Error message text is reduced to a tag per call site, with the fields it prints.
  The `"Null Token* out parameter"` branch of `Tokenizer_parseStackAsNumber` cannot
  happen in the model.
- The debug drawer, `DEBUGBLOCK`, `debug_step`, the `tarray`/`tarray_index` bookkeeping
  and the `printf` traces of the operator branch are left out. They do not affect the
  stacks.
- The "failed to pop sufficient arguments" branch of the function call is dead: the
  count is checked first. The model has no such error.
- `src/main.c`, `src/visualizer.c`, `Stack_Print` and `Token_toString` are not part of
  this model.
- The `TokenType` enum and the `Token` struct of `src/tokenizer.h` are not modelled. The
  code uses the `tokent_t` codes of `src/tokent_t.h` instead.
- `ACC_SPC` is used by the tokenizer but is not defined in the headers. The model gives
  it 0x100, a bit outside NUM, FUN and DTZ.
- The trailing-operator token of `Tokenizer_tokenize` (its local `Token` is not
  initialised) is modelled with a value of 0.
- CType: an expression is a sequence of `char` values standing for the bytes of the C
  string, in the "C" locale. A character above 0x7F belongs to no class, and a
  multi-byte UTF-8 character is several `char`s. Other locales are not modelled.
- Stacks.RawPush: a write that would leave the block is reported as an `Overrun` and
  not performed. The C code writes past the block, which is undefined behaviour.
- Stacks.RawExpandBy: the bytes of a new block are a parameter. They are what `malloc`
  returned.

## Findings

| source | as written | input that shows it | evidently intended | confidence | as-written member | corrected member |
|---|---|---|---|---|---|---|
| src/tokent_t.h:25 | `TT_SY_RPAR` is 0x40000800, which carries XOR's bit 0x800, so `)` takes the operator branch of `Sft_evalTokens` | the tokens of `(x+y)` fail with a missing operand for `+` | `)` with a code of its own (0x40000000), reaching `eval_x_is_close_paren`, so `(x+y)` is x+y | not executed | EvaluatorProps.ParenthesizedSumFails | EvaluatorProps.ParenthesizedSumIntended |
| src/tokent_t.h:25 | the same bit makes a function call fail before its function is called | the tokens of `round(v)` fail with a missing operand for `)` | `round(v)` evaluates to round(v) | not executed | EvaluatorProps.FunctionCallFails | EvaluatorProps.FunctionCallIntended |
| src/evaluator.c:167-168 | the close-paren loop stops only at a named open paren; a plain one is applied like an operator (pushing 0) and the loop goes on. This branch is reached only once the code of `)` is fixed (PipelineNeverClosesParen) | a close paren over the stack `( +` with numbers x, y leaves the numbers x+y and 0 and an empty operator stack | the loop stops at the first open paren: a plain one is popped, a named one calls its function | not executed | EvaluatorProps.CloseParenAsWrittenSum | EvaluatorProps.CloseParenIntendedGroup |
| src/stack.c:62 | Push copies the item to Head + item_size, one slot past the space the growth test provides | the first push on a new stack writes item_size bytes past a block of item_size bytes | item k stored at offset k * item_size | not executed | Stacks.RawFirstPushOverruns | Stacks.Stack.Push |
| src/stack.c:48 | ExpandBy copies count * item_size bytes from offset 0, but the items occupy offsets item_size to (count + 1) * item_size | growing a stack of one item loses that item | the copy covers every stored item | not executed | Stacks.RawExpandDropsNewest | Stacks.Stack.ExpandBy |
| src/stack.c:76 | Pop has no empty test: it reads at base and the count wraps | popping an empty stack that has a block (one made by Stack_WithCapacity) sets the count to SIZE_MAX | an empty stack gives no item and stays empty | not executed | Stacks.RawPopEmptyWraps | Stacks.Stack.Pop |
| src/common.c:8 | the whitespace test reads the zeroed scratch buffer instead of the input | `" 1"` comes back as `" 1"` | the test reads `input[i]`, giving `"1"` | not executed | Common.AsWrittenKeepsWhitespace | Common.FilterWhitespace |
| src/common.c:16-18 | the result block has strlen bytes, but strlen + 1 bytes are written into it | any input: the terminator lands past the block | a block of strlen + 1 bytes | not executed | Common.FilterWhitespaceAsWritten | Common.FilterWhitespace |
