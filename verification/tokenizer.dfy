/**
 * The tokenizer (src/tokenizer.c, with the AccFlag codes of src/tokenizer.h).
 *
 * Tokenizer_tokenize is a character-at-a-time state machine. Its state is the accumulator
 * flag, the stack of accumulated characters and the stack of finished tokens. The effect of
 * one character is the pure transition Step; Run folds Step over the input and Finish
 * handles what is left in the character stack at the end. The class Tokenizer keeps the
 * same state in fields and its method Tokenize is proved to compute TokenizeText.
 */
module Tokenizing {
  import opened Wrappers
  import opened CType
  import opened TokenTypes

  type AccFlag = bv32

  const ACC_NIL: AccFlag := 0x00000000
  const ACC_DEC: AccFlag := 0x00000001
  const ACC_BIN: AccFlag := 0x00000002
  const ACC_FPN: AccFlag := 0x00000004
  const ACC_OCT: AccFlag := 0x00000008
  const ACC_HEX: AccFlag := 0x00000010
  const ACC_FUN: AccFlag := 0x00000080
  const ACC_NUM: AccFlag := ACC_FPN | ACC_BIN | ACC_OCT | ACC_DEC | ACC_HEX
  /** Set together with ACC_DEC while the number so far is a single '0'. */
  const ACC_DTZ: AccFlag := 0x00001000
  /** Operator or symbol run. Its value is not in the header; any bit outside NUM, FUN and DTZ. */
  const ACC_SPC: AccFlag := 0x00000100

  /** The messages of the Tokenizer_error calls, one tag per call site. */
  datatype ErrorKind =
    | CouldNotClassify         // "Could not classify character."
    | LeadingZero              // "Leading zero in number is illegal in this context."
    | UnknownBaseFormat        // "Cannot determine the base format specifier."
    | UnknownTokenType         // "Cannot determine the type of token for character."
    | NotEnoughDigits          // "Not enough digits to construct a number."
    | IncompleteNumber         // "Incomplete number."
    | CannotParseNumber        // "Cannot parse number; invalid expression"
    | InvalidFunctionChar      // "Invalid character in function name."
    | InvalidParenRun          // "3Cannot parse operator; invalid expression."
    | InvalidOperator          // "2Cannot parse operator; invalid expression."
    | InvalidExpression        // "Invalid expression."
    | FunctionWithoutParen     // "Function with no opening parenthesis."
    | InvalidTrailingOperator  // "1Cannot parse operator; invalid expression."

  /** IterErr: a message and the index in the expression it refers to. */
  datatype TokError = TokError(kind: ErrorKind, index: nat)

  /** The scanning state: accflag, char_stack and token_stack. */
  datatype TokState = TokState(acc: AccFlag, chars: string, tokens: seq<Token>)

  const Initial: TokState := TokState(ACC_NIL, [], [])

  /** assign_accflag: whitespace, a (hex) digit, a letter, or anything else. */
  function AssignAccflag(c: char, allowHex: bool): (f: AccFlag)
    ensures f == ACC_NIL <==> IsSpace(c)
    ensures f & ACC_NUM != 0 <==> !IsSpace(c) && (if allowHex then IsXDigit(c) else IsDigit(c))
    ensures f & ACC_DTZ != 0 <==> f & ACC_NUM != 0 && c == '0'
    ensures f == ACC_FUN <==> !IsSpace(c) && !(if allowHex then IsXDigit(c) else IsDigit(c)) && IsAlpha(c)
  {
    if IsSpace(c) then ACC_NIL
    else if (if allowHex then IsXDigit(c) else IsDigit(c)) then
      ACC_DEC | (if c == '0' then ACC_DTZ else ACC_NIL)
    else if IsAlpha(c) then ACC_FUN
    else ACC_SPC
  }

  /**
   * validate_digit: a switch on the whole flag. BIN, OCT and HEX are their own radix;
   * every other flag (DEC, DEC|DTZ, FPN) accepts decimal digits.
   */
  function ValidateDigit(digit: char, base: AccFlag): (valid: bool)
    ensures base in {ACC_BIN, ACC_OCT, ACC_HEX} ==>
      (valid <==> IsXDigit(digit) && DigitValue(digit) < base as int)
    ensures base !in {ACC_BIN, ACC_OCT, ACC_HEX} ==>
      (valid <==> IsXDigit(digit) && DigitValue(digit) < 10)
  {
    if base == ACC_HEX then IsXDigit(digit)
    else if base == ACC_OCT then '0' <= digit <= '7'
    else if base == ACC_BIN then digit == '0' || digit == '1'
    else IsDigit(digit)
  }

  const OperatorCharset: string := "<|'!>?/@#$%^&*_+=-\\:;,`~"

  /** in_operator_charset: neither parenthesis nor '.' is in the set. */
  function InOperatorCharset(c: char): (r: bool)
    ensures r ==> !IsSpace(c) && !IsAlnum(c)
    ensures r ==> c != '(' && c != ')' && c != '.' && c != '\0'
  {
    CharIn(c, OperatorCharset)
  }

  /** AccFlag_fromFormatChar: the flag a second number character switches to. */
  function AccFlagFromFormatChar(c: char): (f: AccFlag)
    ensures f != ACC_NIL <==> CharIn(c, "xob.")
    ensures f != ACC_NIL ==> f in {ACC_HEX, ACC_BIN, ACC_OCT, ACC_FPN}
  {
    match c
    case 'x' => ACC_HEX
    case 'b' => ACC_BIN
    case 'o' => ACC_OCT
    case '.' => ACC_FPN
    case _ => ACC_NIL
  }

  /** The base bits of a flag, computed with the source's double complement. */
  function CustomBase(acc: AccFlag): (b: AccFlag)
    ensures b == acc & (ACC_HEX | ACC_OCT | ACC_BIN)
  {
    acc & !(acc & !(ACC_HEX | ACC_OCT | ACC_BIN))
  }

  const LLONG_MAX: int := 0x7FFF_FFFF_FFFF_FFFF

  predicate IsRadixDigit(c: char, radix: nat) {
    IsXDigit(c) && DigitValue(c) < radix
  }

  /** The digits strtoll consumes: the longest prefix of digits valid in the radix. */
  function DigitRun(s: string, radix: nat): (run: string)
    ensures |run| <= |s| && run == s[..|run|]
    ensures forall k :: 0 <= k < |run| ==> IsRadixDigit(run[k], radix)
    ensures |run| < |s| ==> !IsRadixDigit(s[|run|], radix)
  {
    if s == [] || !IsRadixDigit(s[0], radix) then [] else [s[0]] + DigitRun(s[1..], radix)
  }

  /** The value of a digit string in a radix, most significant digit first. */
  function FoldDigits(ds: string, radix: nat): nat {
    if ds == [] then 0
    else FoldDigits(ds[..|ds| - 1], radix) * radix + DigitValue(ds[|ds| - 1])
  }

  /** An out-of-range value is clamped to LLONG_MAX, as strtoll does on overflow. */
  function Saturate(exact: nat): int {
    if exact > LLONG_MAX then LLONG_MAX else exact
  }

  /** The digits valid in the radix stop at position k: all before it are, the one at k is not. */
  predicate RunEndsAt(text: string, radix: nat, k: nat) {
    && k <= |text|
    && AllRadixDigits(text[..k], radix)
    && (k < |text| ==> !IsRadixDigit(text[k], radix))
  }

  /**
   * strtoll on a buffer holding no sign and no whitespace: it reads the digits valid in
   * the radix and stops at the first other character; a text made only of such digits
   * is read whole.
   */
  function StrToLL(text: string, radix: nat): (v: int)
    ensures 0 <= v <= LLONG_MAX
    ensures AllRadixDigits(text, radix) ==> v == Saturate(FoldDigits(text, radix))
    ensures forall k: nat :: RunEndsAt(text, radix, k) ==> v == Saturate(FoldDigits(text[..k], radix))
  {
    DigitRunIsLongest(text, radix);
    assert RunEndsAt(text, radix, |text|) ==> text[..|text|] == text;
    Saturate(FoldDigits(DigitRun(text, radix), radix))
  }

  /** The run strtoll reads ends at the only position where the digits stop. */
  lemma DigitRunIsLongest(text: string, radix: nat)
    ensures forall k: nat :: RunEndsAt(text, radix, k) ==> k == |DigitRun(text, radix)|
  {
    var run := DigitRun(text, radix);
    forall k: nat | RunEndsAt(text, radix, k)
      ensures k == |run|
    {
    }
  }

  /**
   * Tokenizer_parseStackAsNumber on a buffer `buf` (the whole char_stack) under flag `acc`.
   * Base and float buffers need 3 characters; base buffers lose their 2-character prefix.
   */
  function ParseNumber(buf: string, acc: AccFlag): (r: Result<Token, TokError>)
    ensures r.Ok? ==> r.value.kind == TT_NUMBER && r.value.func == None
    ensures r.Err? <==> |buf| == 0 || (acc & (ACC_HEX | ACC_OCT | ACC_BIN | ACC_FPN) != 0 && |buf| < 3)
  {
    var count := |buf|;
    if count == 0 then Err(TokError(NotEnoughDigits, count))
    else
      var customBase := CustomBase(acc);
      var isFloat := acc & ACC_FPN != 0;
      var radix: nat := if customBase != 0 then customBase as nat else 10;
      if (customBase != 0 || isFloat) && count < 3 then Err(TokError(IncompleteNumber, count))
      else
        var text := CStr(if customBase != 0 then buf[2..] else buf);
        if isFloat then Ok(NumberToken(Float(text)))
        else Ok(NumberToken(Lit(StrToLL(text, radix))))
  }

  /** `(head && *head == '(') || *head == ')'`: the last accumulated character is a paren. */
  predicate HeadIsParen(chars: string) {
    |chars| > 0 && (chars[|chars| - 1] == '(' || chars[|chars| - 1] == ')')
  }

  /**
   * One iteration of Tokenizer_tokenize's loop: character c at index i of the expression.
   * Blanks are skipped; otherwise the branch is chosen by what is being accumulated.
   */
  function Step(st: TokState, c: char, i: nat): Result<TokState, TokError> {
    if IsSpace(c) then Ok(st)
    else if st.acc == ACC_NIL then StartStep(st, c, i)
    else if st.acc & ACC_NUM != 0 then NumberStep(st, c, i)
    else if st.acc & ACC_FUN != 0 then FunctionStep(st, c, i)
    else if st.acc & ACC_SPC != 0 then SymbolStep(st, c, i)
    else Err(TokError(InvalidExpression, i))
  }

  /** Nothing accumulated: the character's class becomes the flag. */
  function StartStep(st: TokState, c: char, i: nat): Result<TokState, TokError> {
    var flag := AssignAccflag(c, false);
    if flag == ACC_NIL then Err(TokError(CouldNotClassify, i))
    else Ok(TokState(flag, st.chars + [c], st.tokens))
  }

  /** A number is being accumulated. */
  function NumberStep(st: TokState, c: char, i: nat): Result<TokState, TokError> {
    var newFlag := AssignAccflag(c, false);
    var validDigit := ValidateDigit(c, st.acc);
    if validDigit && st.acc & ACC_DTZ != 0 then Err(TokError(LeadingZero, 0))
    else if validDigit then Ok(TokState(st.acc, st.chars + [c], st.tokens))
    else if st.acc == ACC_DEC && c == '.' then Ok(TokState(ACC_FPN, st.chars + [c], st.tokens))
    else if st.acc & ACC_DEC != 0 && |st.chars| == 1 && CharIn(c, "xob.") then
      var formatFlag := AccFlagFromFormatChar(c);
      if formatFlag == ACC_NIL then Err(TokError(UnknownBaseFormat, i))
      else Ok(TokState(formatFlag, st.chars + [c], st.tokens))
    else if newFlag == ACC_NIL then Err(TokError(UnknownTokenType, i))
    else
      // The number ends here: parse it (with the NUL pushed first) and restart on c.
      match ParseNumber(st.chars + ['\0'], st.acc)
      case Err(_) => Err(TokError(CannotParseNumber, i))
      case Ok(number) => Ok(TokState(newFlag, [c], st.tokens + [number]))
  }

  /** A function name is being accumulated. */
  function FunctionStep(st: TokState, c: char, i: nat): Result<TokState, TokError> {
    if IsAlnum(c) then Ok(TokState(st.acc, st.chars + [c], st.tokens))
    else if c == '(' then
      var name := CStr(st.chars + ['\0']);
      Ok(TokState(ACC_NIL, [], st.tokens + [Token(TT_SY_LPAR, Lit(0), Some(name))]))
    else Err(TokError(InvalidFunctionChar, i))
  }

  /** An operator or symbol run is being accumulated. */
  function SymbolStep(st: TokState, c: char, i: nat): Result<TokState, TokError> {
    var run := StrToTokenT(CStr(st.chars + ['\0']));
    if InOperatorCharset(c) then
      if HeadIsParen(st.chars) then
        if run & (TT_OPERATOR | TT_SYMBOL) == 0 then Err(TokError(InvalidParenRun, i))
        else Ok(TokState(st.acc, [c], st.tokens + [OperatorToken(run)]))
      else
        Ok(st)  // a further operator character after a non-paren head is dropped
    else if run & (TT_OPERATOR | TT_SYMBOL) == 0 then Err(TokError(InvalidOperator, i))
    else Ok(TokState(AssignAccflag(c, false), [c], st.tokens + [OperatorToken(run)]))
  }

  /** The loop from index i to the end of s, stopping at the first error. */
  function Run(st: TokState, s: string, i: nat): Result<TokState, TokError>
    decreases |s| - i
  {
    if i >= |s| then Ok(st)
    else match Step(st, s[i], i)
      case Err(e) => Err(e)
      case Ok(next) => Run(next, s, i + 1)
  }

  /** The end of Tokenizer_tokenize: what is left in the character stack; `length` is |s|. */
  function Finish(st: TokState, length: nat): Result<seq<Token>, TokError> {
    if st.chars == [] then Ok(st.tokens)
    else if st.acc & ACC_NUM != 0 then
      match ParseNumber(st.chars, st.acc)
      case Ok(number) => Ok(st.tokens + [number])
      case Err(_) => Err(TokError(CannotParseNumber, length))
    else if st.acc == ACC_FUN then Err(TokError(FunctionWithoutParen, length))
    else if st.acc == ACC_SPC then
      var run := StrToTokenT(CStr(st.chars + ['\0']));
      if run & (TT_OPERATOR | TT_SYMBOL) != 0 then Ok(st.tokens + [OperatorToken(run)])
      else Err(TokError(InvalidTrailingOperator, length))
    else Ok(st.tokens)
  }

  function Complete(r: Result<TokState, TokError>, length: nat): Result<seq<Token>, TokError> {
    match r
    case Err(e) => Err(e)
    case Ok(st) => Finish(st, length)
  }

  /** What Tokenizer_tokenize computes for an expression: its tokens or its first error. */
  function TokenizeText(s: string): Result<seq<Token>, TokError> {
    Complete(Run(Initial, s, 0), |s|)
  }

  // ---------------------------------------------------------------------------
  // The invariant of the scanning state.

  predicate AllDigits(s: string) {
    forall k :: 0 <= k < |s| ==> IsDigit(s[k])
  }

  predicate AllRadixDigits(s: string, radix: nat) {
    forall k :: 0 <= k < |s| ==> IsRadixDigit(s[k], radix)
  }

  /** Decimal digits and points: what a float buffer accumulates. */
  predicate FloatText(s: string) {
    forall k :: 0 <= k < |s| ==> IsDigit(s[k]) || s[k] == '.'
  }

  predicate AllAlnum(s: string) {
    forall k :: 0 <= k < |s| ==> IsAlnum(s[k])
  }

  /**
   * A token the tokenizer can emit: a number, or the code of a table entry named by one
   * character (an operator run never holds more than one, so `**`, `//`, `<<` and `>>`
   * are never produced).
   */
  predicate Produced(t: Token) {
    t.kind == TT_NUMBER || t.kind in OneCharCodes
  }

  function FormatChar(acc: AccFlag): char {
    if acc == ACC_HEX then 'x' else if acc == ACC_OCT then 'o' else 'b'
  }

  /**
   * What the accumulator holds in each state: nothing when idle, decimal digits, a lone
   * '0' under DTZ, a digit and a format letter followed by digits of that radix, a letter
   * followed by alphanumerics, or exactly one symbol character.
   */
  predicate ValidState(st: TokState) {
    && (forall k :: 0 <= k < |st.tokens| ==> Produced(st.tokens[k]))
    && (|| (st.acc == ACC_NIL && st.chars == [])
        || (st.acc == ACC_DEC && |st.chars| >= 1 && AllDigits(st.chars))
        || (st.acc == ACC_DEC | ACC_DTZ && st.chars == "0")
        || (st.acc == ACC_FPN && |st.chars| >= 2 && IsDigit(st.chars[0]) && FloatText(st.chars))
        || (st.acc in {ACC_BIN, ACC_OCT, ACC_HEX} && |st.chars| >= 2 && IsDigit(st.chars[0])
            && st.chars[1] == FormatChar(st.acc) && AllRadixDigits(st.chars[2..], st.acc as nat))
        || (st.acc == ACC_FUN && |st.chars| >= 1 && IsAlpha(st.chars[0]) && AllAlnum(st.chars))
        || (st.acc == ACC_SPC && |st.chars| == 1 && !IsSpace(st.chars[0]) && !IsAlnum(st.chars[0])))
  }

  /** Call sites that no input can reach. */
  predicate Unreachable(k: ErrorKind) {
    k in {CouldNotClassify, UnknownBaseFormat, UnknownTokenType, NotEnoughDigits,
          IncompleteNumber, InvalidParenRun, InvalidExpression}
  }

  lemma {:induction false} CStrTerminated(s: string)
    requires '\0' !in s
    ensures CStr(s + ['\0']) == s
  {
    if s != [] {
      assert (s + ['\0'])[1..] == s[1..] + ['\0'];
      CStrTerminated(s[1..]);
    }
  }

  lemma ParenRunsResolve(p: char)
    requires p == '(' || p == ')'
    ensures StrToTokenT(CStr([p] + ['\0'])) in {TT_SY_LPAR, TT_SY_RPAR}
  {
    CStrTerminated([p]);
    assert !HasDigit([p]);
    if p == '(' {
      assert LookupTable[14].name == [p];
    } else {
      assert LookupTable[15].name == [p];
    }
  }

  /** A one-character operator run resolves to 0, TT_NUMBER or a code spelled with one character. */
  lemma SymbolRunCode(chars: string)
    requires |chars| == 1
    ensures StrToTokenT(CStr(chars + ['\0'])) in {0, TT_NUMBER} + OneCharCodes
  {
    if '\0' in chars {
      NulRunCode(chars);
    } else {
      CharRunCode(chars);
    }
  }

  /** Any other character is its own C string, looked up as it is. */
  lemma CharRunCode(chars: string)
    requires |chars| == 1 && '\0' !in chars
    ensures StrToTokenT(CStr(chars + ['\0'])) in {0, TT_NUMBER} + OneCharCodes
  {
    CStrTerminated(chars);
    OneCharCode(chars);
  }

  /** A NUL character ends the C string at once, leaving an empty run. */
  lemma NulRunCode(chars: string)
    requires |chars| == 1 && '\0' in chars
    ensures StrToTokenT(CStr(chars + ['\0'])) == 0
  {
    assert CStr(chars + ['\0']) == [];
    EmptyRunCode();
  }

  /** A non-blank character on its own starts a valid accumulation. */
  lemma FreshAccumulation(c: char, tokens: seq<Token>)
    requires !IsSpace(c) && forall k :: 0 <= k < |tokens| ==> Produced(tokens[k])
    ensures ValidState(TokState(AssignAccflag(c, false), [c], tokens))
  {
  }

  lemma StartKeepsValid(st: TokState, c: char, i: nat)
    requires ValidState(st) && st.acc == ACC_NIL && !IsSpace(c)
    ensures StartStep(st, c, i).Ok? && ValidState(StartStep(st, c, i).value)
  {
    assert st.chars + [c] == [c];
    FreshAccumulation(c, st.tokens);
  }

  lemma NumberKeepsValid(st: TokState, c: char, i: nat)
    requires ValidState(st) && st.acc & ACC_NUM != 0 && !IsSpace(c)
    ensures NumberStep(st, c, i).Ok? ==> ValidState(NumberStep(st, c, i).value)
    ensures NumberStep(st, c, i).Err? ==> NumberStep(st, c, i).error.kind == LeadingZero
  {
    var valid := ValidateDigit(c, st.acc);
    if st.acc in {ACC_BIN, ACC_OCT, ACC_HEX} && valid {
      assert (st.chars + [c])[2..] == st.chars[2..] + [c];
    }
    var r := NumberStep(st, c, i);
    if r.Ok? && r.value.chars == [c] {
      FreshAccumulation(c, r.value.tokens);
    }
  }

  lemma FunctionKeepsValid(st: TokState, c: char, i: nat)
    requires ValidState(st) && st.acc == ACC_FUN && !IsSpace(c)
    ensures FunctionStep(st, c, i).Ok? ==> ValidState(FunctionStep(st, c, i).value)
    ensures FunctionStep(st, c, i).Err? ==> FunctionStep(st, c, i).error.kind == InvalidFunctionChar
  {
    assert LookupTable[14].code == TT_SY_LPAR;
  }

  lemma AppendProduced(tokens: seq<Token>, t: Token)
    requires forall k :: 0 <= k < |tokens| ==> Produced(tokens[k])
    requires Produced(t)
    ensures forall k :: 0 <= k < |tokens + [t]| ==> Produced((tokens + [t])[k])
  {
  }

  /** A paren head is flushed by a following operator character. */
  lemma ParenRunKeepsValid(st: TokState, c: char, i: nat)
    requires ValidState(st) && st.acc == ACC_SPC && InOperatorCharset(c) && HeadIsParen(st.chars)
    ensures SymbolStep(st, c, i).Ok? && ValidState(SymbolStep(st, c, i).value)
  {
    var run := StrToTokenT(CStr(st.chars + ['\0']));
    assert [st.chars[0]] == st.chars;
    ParenRunsResolve(st.chars[0]);
    AppendProduced(st.tokens, OperatorToken(run));
  }

  /** A character outside the operator set ends the run; an accepted run becomes a token. */
  lemma SymbolRunEndKeepsValid(st: TokState, c: char, i: nat)
    requires ValidState(st) && st.acc == ACC_SPC && !IsSpace(c) && !InOperatorCharset(c)
    requires StrToTokenT(CStr(st.chars + ['\0'])) & (TT_OPERATOR | TT_SYMBOL) != 0
    ensures SymbolStep(st, c, i).Ok? && ValidState(SymbolStep(st, c, i).value)
  {
    var run := StrToTokenT(CStr(st.chars + ['\0']));
    SymbolRunCode(st.chars);
    AppendProduced(st.tokens, OperatorToken(run));
    FreshAccumulation(c, st.tokens + [OperatorToken(run)]);
  }

  lemma SymbolKeepsValid(st: TokState, c: char, i: nat)
    requires ValidState(st) && st.acc == ACC_SPC && !IsSpace(c)
    ensures SymbolStep(st, c, i).Ok? ==> ValidState(SymbolStep(st, c, i).value)
    ensures SymbolStep(st, c, i).Err? ==> SymbolStep(st, c, i).error.kind == InvalidOperator
  {
    if !InOperatorCharset(c) {
      if StrToTokenT(CStr(st.chars + ['\0'])) & (TT_OPERATOR | TT_SYMBOL) != 0 {
        SymbolRunEndKeepsValid(st, c, i);
      }
    } else if HeadIsParen(st.chars) {
      ParenRunKeepsValid(st, c, i);
    }
  }

  /** Step keeps the invariant and never reaches an unreachable call site. */
  lemma StepKeepsValid(st: TokState, c: char, i: nat)
    requires ValidState(st)
    ensures Step(st, c, i).Ok? ==> ValidState(Step(st, c, i).value)
    ensures Step(st, c, i).Err? ==> !Unreachable(Step(st, c, i).error.kind)
  {
    if IsSpace(c) {
    } else if st.acc == ACC_NIL {
      StartKeepsValid(st, c, i);
    } else if st.acc & ACC_NUM != 0 {
      NumberKeepsValid(st, c, i);
    } else if st.acc == ACC_FUN {
      assert Step(st, c, i) == FunctionStep(st, c, i);
      FunctionKeepsValid(st, c, i);
    } else {
      assert Step(st, c, i) == SymbolStep(st, c, i);
      SymbolKeepsValid(st, c, i);
    }
  }

  lemma {:induction false} RunKeepsValid(st: TokState, s: string, i: nat)
    requires ValidState(st)
    ensures Run(st, s, i).Ok? ==> ValidState(Run(st, s, i).value)
    ensures Run(st, s, i).Err? ==> !Unreachable(Run(st, s, i).error.kind)
    decreases |s| - i
  {
    if i < |s| {
      StepKeepsValid(st, s[i], i);
      if Step(st, s[i], i).Ok? {
        RunKeepsValid(Step(st, s[i], i).value, s, i + 1);
      }
    }
  }

  // ---------------------------------------------------------------------------
  // The tokenizer object.

  /** How the object reports an outcome: the tokens and no error, or no tokens and the error. */
  predicate Delivered(out: Option<seq<Token>>, error: Option<TokError>, r: Result<seq<Token>, TokError>) {
    match r
    case Ok(tokens) => out == Some(tokens) && error == None
    case Err(e) => out == None && error == Some(e)
  }

  class Tokenizer {
    var accflag: AccFlag
    var charStack: string
    var tokenStack: seq<Token>
    /** The last error, replaced by every Tokenizer_error and freed by Tokenizer_clear. */
    var error: Option<TokError>

    function State(): TokState
      reads this
    {
      TokState(accflag, charStack, tokenStack)
    }

    /** Tokenizer_new: empty stacks, ACC_NIL, no error. */
    constructor ()
      ensures State() == Initial && error == None
    {
      accflag := ACC_NIL;
      charStack := [];
      tokenStack := [];
      error := None;
    }

    /** Tokenizer_clear: both stacks emptied, ACC_NIL, the error freed. */
    method Clear()
      modifies this
      ensures State() == Initial && error == None
    {
      tokenStack := [];
      charStack := [];
      accflag := ACC_NIL;
      error := None;
    }

    /** Tokenizer_error: the error is replaced, whatever was there before. */
    method Error(kind: ErrorKind, index: nat)
      modifies this`error
      ensures error == Some(TokError(kind, index))
    {
      error := Some(TokError(kind, index));
    }

    /** Tokenizer_parseStackAsNumber: reads char_stack and accflag, reports failure via Error. */
    method ParseStackAsNumber() returns (ok: bool, out: Token)
      modifies this`error
      ensures ok == ParseNumber(charStack, accflag).Ok?
      ensures ok ==> out == ParseNumber(charStack, accflag).value && error == old(error)
      ensures !ok ==> error == Some(ParseNumber(charStack, accflag).error)
    {
      out := NumberToken(Lit(0));
      var count := |charStack|;
      if count == 0 {
        Error(NotEnoughDigits, count);
        return false, out;
      }
      var customBase := CustomBase(accflag);
      var isFloat := accflag & ACC_FPN != 0;
      var radix: nat := if customBase != 0 then customBase as nat else 10;
      var begin := 0;
      if customBase != 0 || isFloat {
        if count < 3 {
          Error(IncompleteNumber, count);
          return false, out;
        }
        if customBase != 0 {
          begin := 2;
        }
      }
      var buffer := CStr(charStack[begin..]);
      if isFloat {
        out := NumberToken(Float(buffer));
      } else {
        out := NumberToken(Lit(StrToLL(buffer, radix)));
      }
      ok := true;
    }

    /** The scanning loop of Tokenizer_tokenize, from a cleared object. */
    method Scan(expression: string) returns (ok: bool)
      requires State() == Initial && error == None
      modifies this
      ensures ok <==> Run(Initial, expression, 0).Ok?
      ensures ok ==> State() == Run(Initial, expression, 0).value && error == None
      ensures !ok ==> error == Some(Run(Initial, expression, 0).error)
    {
      for i := 0 to |expression|
        invariant Run(State(), expression, i) == Run(Initial, expression, 0)
        invariant error == None
      {
        var character := expression[i];
        if IsSpace(character) {
          continue;
        }
        match Step(State(), character, i)
        case Err(e) =>
          Error(e.kind, e.index);
          return false;
        case Ok(next) =>
          accflag, charStack, tokenStack := next.acc, next.chars, next.tokens;
      }
      ok := true;
    }

    /** The end of Tokenizer_tokenize: what is left in the character stack becomes a token. */
    method Flush(length: nat) returns (out: Option<seq<Token>>)
      requires error == None
      modifies this
      ensures Delivered(out, error, Finish(old(State()), length))
      ensures out.Some? ==> State() == Initial
    {
      var result: Result<seq<Token>, TokError> := Ok(tokenStack);
      if charStack != [] {
        if accflag & ACC_NUM != 0 {
          var ok, token := ParseStackAsNumber();
          result := if ok then Ok(tokenStack + [token]) else Err(TokError(CannotParseNumber, length));
        } else if accflag == ACC_FUN {
          result := Err(TokError(FunctionWithoutParen, length));
        } else if accflag == ACC_SPC {
          var operatorType := StrToTokenT(CStr(charStack + ['\0']));
          if operatorType & (TT_OPERATOR | TT_SYMBOL) != 0 {
            result := Ok(tokenStack + [OperatorToken(operatorType)]);
          } else {
            result := Err(TokError(InvalidTrailingOperator, length));
          }
        }
      }
      assert result == Finish(old(State()), length);
      match result
      case Ok(tokens) =>
        out := Some(tokens);
        tokenStack, charStack, accflag := [], [], ACC_NIL;
      case Err(e) =>
        Error(e.kind, e.index);
        out := None;
    }

    /**
     * Tokenizer_tokenize: clears the object, scans the expression and, on success, returns
     * the tokens and leaves both stacks empty; on failure records the error and returns None.
     */
    method Tokenize(expression: string) returns (out: Option<seq<Token>>)
      modifies this
      ensures Delivered(out, error, TokenizeText(expression))
      ensures out.Some? ==> State() == Initial
    {
      Clear();
      var ok := Scan(expression);
      if !ok {
        return None;
      }
      out := Flush(|expression|);
    }
  }
}
