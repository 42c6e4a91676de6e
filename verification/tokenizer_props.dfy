/**
 * Properties of the tokenizer model: where errors can be reported, what tokens come out,
 * that whitespace does not matter, and the outcome on characteristic inputs.
 */
module TokenizerProps {
  import opened Wrappers
  import opened CType
  import opened TokenTypes
  import opened Tokenizing
  import opened Common

  // ---------------------------------------------------------------------------
  // Errors.

  /** What a mid-input error can be: a leading zero (reported at 0) or a bad character. */
  predicate RunError(e: TokError, s: string, from: nat) {
    || (e.kind == LeadingZero && e.index == 0)
    || (e.kind in {InvalidFunctionChar, InvalidOperator}
        && from <= e.index < |s| && !IsSpace(s[e.index]))
  }

  /** The errors one step can raise: a leading zero at 0, or a bad character where it stands. */
  lemma StepErrors(st: TokState, c: char, i: nat)
    requires ValidState(st)
    ensures Step(st, c, i).Err? ==>
      || Step(st, c, i).error == TokError(LeadingZero, 0)
      || (Step(st, c, i).error.kind in {InvalidFunctionChar, InvalidOperator}
          && Step(st, c, i).error.index == i && !IsSpace(c))
  {
    if IsSpace(c) {
    } else if st.acc == ACC_NIL {
      StartKeepsValid(st, c, i);
    } else if st.acc & ACC_NUM != 0 {
      NumberKeepsValid(st, c, i);
    } else if st.acc == ACC_FUN {
      assert Step(st, c, i) == FunctionStep(st, c, i);
    } else {
      assert Step(st, c, i) == SymbolStep(st, c, i);
      SymbolKeepsValid(st, c, i);
    }
  }

  lemma {:induction false} RunErrors(st: TokState, s: string, i: nat)
    requires ValidState(st)
    ensures Run(st, s, i).Err? ==> RunError(Run(st, s, i).error, s, i)
    decreases |s| - i
  {
    if i < |s| {
      var c := s[i];
      StepErrors(st, c, i);
      StepKeepsValid(st, c, i);
      if Step(st, c, i).Ok? {
        RunErrors(Step(st, c, i).value, s, i + 1);
      }
    }
  }

  /**
   * Every error Tokenize can report, with its index: a leading zero at index 0, a bad
   * function or operator character at that (non-blank) character, and the three
   * end-of-input errors at the length of the expression. Seven of the thirteen error
   * sites (Unreachable) are never reached, and a number never fails to parse mid-input.
   */
  lemma TokenizeErrors(s: string)
    ensures TokenizeText(s).Err? ==>
      var e := TokenizeText(s).error;
      || (e.kind == LeadingZero && e.index == 0)
      || (e.kind in {InvalidFunctionChar, InvalidOperator} && e.index < |s| && !IsSpace(s[e.index]))
      || (e.kind in {CannotParseNumber, FunctionWithoutParen, InvalidTrailingOperator} && e.index == |s|)
    ensures TokenizeText(s).Err? ==> !Unreachable(TokenizeText(s).error.kind)
  {
    RunErrors(Initial, s, 0);
  }

  /** The tokens of a successful run are numbers and lookup-table codes, nothing else. */
  lemma TokenizeProducesKnownCodes(s: string)
    ensures TokenizeText(s).Ok? ==>
      forall k :: 0 <= k < |TokenizeText(s).value| ==> Produced(TokenizeText(s).value[k])
  {
    RunKeepsValid(Initial, s, 0);
    var r := Run(Initial, s, 0);
    if r.Ok? {
      FinishProduced(r.value, |s|);
    }
  }

  /** The token the end of input adds is a number or a table code too. */
  lemma FinishProduced(st: TokState, length: nat)
    requires ValidState(st)
    ensures Finish(st, length).Ok? ==>
      forall k :: 0 <= k < |Finish(st, length).value| ==> Produced(Finish(st, length).value[k])
  {
    if st.chars != [] && st.acc & ACC_NUM != 0 && ParseNumber(st.chars, st.acc).Ok? {
      AppendProduced(st.tokens, ParseNumber(st.chars, st.acc).value);
    } else if st.chars != [] && st.acc == ACC_SPC {
      var run := StrToTokenT(CStr(st.chars + ['\0']));
      if run & (TT_OPERATOR | TT_SYMBOL) != 0 {
        SymbolRunCode(st.chars);
        AppendProduced(st.tokens, OperatorToken(run));
      }
    }
  }

  // ---------------------------------------------------------------------------
  // Whitespace.

  /** Two outcomes agree up to the indices carried by their errors. */
  predicate SameOutcome<T(==)>(a: Result<T, TokError>, b: Result<T, TokError>) {
    && (a.Ok? <==> b.Ok?)
    && (a.Ok? && b.Ok? ==> a.value == b.value)
    && (a.Err? && b.Err? ==> a.error.kind == b.error.kind)
  }

  lemma StepIndexFree(st: TokState, c: char, i: nat, j: nat)
    ensures SameOutcome(Step(st, c, i), Step(st, c, j))
  {
  }

  /** Run depends on the characters still to read, not on where they sit. */
  lemma {:induction false} RunIndexFree(st: TokState, s: string, i: nat, t: string, j: nat)
    requires i <= |s| && j <= |t| && s[i..] == t[j..]
    ensures SameOutcome(Run(st, s, i), Run(st, t, j))
    decreases |s| - i
  {
    if i < |s| {
      assert s[i] == s[i..][0] == t[j..][0] == t[j];
      StepIndexFree(st, s[i], i, j);
      if Step(st, s[i], i).Ok? {
        assert s[i + 1..] == s[i..][1..];
        assert t[j + 1..] == t[j..][1..];
        RunIndexFree(Step(st, s[i], i).value, s, i + 1, t, j + 1);
      }
    } else {
      assert |t[j..]| == 0;
    }
  }

  lemma {:induction false} RunSkipsWhitespace(st: TokState, s: string, i: nat)
    requires i <= |s|
    ensures SameOutcome(Run(st, s, i), Run(st, RemoveWhitespace(s[i..]), 0))
    decreases |s| - i
  {
    if i == |s| {
      assert s[i..] == [];
    } else {
      var c := s[i];
      var rest := RemoveWhitespace(s[i + 1..]);
      assert s[i..] == [c] + s[i + 1..];
      RemoveWhitespaceCons(c, s[i + 1..]);
      RunSkipsWhitespace(st, s, i + 1);
      if IsSpace(c) {
        assert RemoveWhitespace(s[i..]) == rest;
      } else {
        var t := [c] + rest;
        assert RemoveWhitespace(s[i..]) == t;
        StepIndexFree(st, c, i, 0);
        if Step(st, c, i).Ok? {
          var next := Step(st, c, i).value;
          RunSkipsWhitespace(next, s, i + 1);
          assert t[1..] == rest[0..];
          RunIndexFree(next, rest, 0, t, 1);
        }
      }
    }
  }

  /**
   * Whitespace is skipped: the expression and the expression with its whitespace removed
   * give the same tokens, or errors of the same kind (the indices differ).
   */
  lemma TokenizeIgnoresWhitespace(s: string)
    ensures SameOutcome(TokenizeText(s), TokenizeText(RemoveWhitespace(s)))
  {
    assert s[0..] == s;
    RunSkipsWhitespace(Initial, s, 0);
  }

  // ---------------------------------------------------------------------------
  // The transitions, one rule at a time.

  /** From ACC_NIL every non-blank character starts an accumulation under its own flag. */
  lemma StepStarts(st: TokState, c: char, i: nat)
    requires st.acc == ACC_NIL && st.chars == [] && !IsSpace(c)
    ensures Step(st, c, i) == Ok(TokState(AssignAccflag(c, false), [c], st.tokens))
    ensures AssignAccflag(c, false) in {ACC_DEC, ACC_DEC | ACC_DTZ, ACC_FUN, ACC_SPC}
  {
    assert st.chars + [c] == [c];
  }

  /** A digit valid for the number's flag extends the number, unless a lone '0' is pending. */
  lemma StepExtendsNumber(st: TokState, c: char, i: nat)
    requires st.acc & ACC_NUM != 0 && !IsSpace(c) && ValidateDigit(c, st.acc)
    ensures st.acc & ACC_DTZ == 0 ==> Step(st, c, i) == Ok(TokState(st.acc, st.chars + [c], st.tokens))
    ensures st.acc & ACC_DTZ != 0 ==> Step(st, c, i) == Err(TokError(LeadingZero, 0))
  {
  }

  /** After one digit, x, o, b and '.' select a base or a fraction whatever the digit was. */
  lemma StepSelectsFormat(st: TokState, c: char, i: nat)
    requires st.acc in {ACC_DEC, ACC_DEC | ACC_DTZ} && |st.chars| == 1 && c in "xob."
    ensures Step(st, c, i) == Ok(TokState(AccFlagFromFormatChar(c), st.chars + [c], st.tokens))
  {
  }

  /**
   * Any other character ends the number: the buffer (with a NUL) becomes one TT_NUMBER
   * token and the character restarts accumulation; mid-input this parse cannot fail.
   */
  lemma StepEndsNumber(st: TokState, c: char, i: nat)
    requires ValidState(st) && st.acc & ACC_NUM != 0 && !IsSpace(c) && !ValidateDigit(c, st.acc)
    requires !(st.acc == ACC_DEC && c == '.')
    requires !(st.acc & ACC_DEC != 0 && |st.chars| == 1 && c in "xob.")
    ensures ParseNumber(st.chars + ['\0'], st.acc).Ok?
    ensures Step(st, c, i)
      == Ok(TokState(AssignAccflag(c, false), [c], st.tokens + [ParseNumber(st.chars + ['\0'], st.acc).value]))
  {
  }

  /** An open paren ends a function name; the name is carried by the TT_SY_LPAR token. */
  lemma StepCallsFunction(st: TokState, i: nat)
    requires st.acc == ACC_FUN
    ensures Step(st, '(', i)
      == Ok(TokState(ACC_NIL, [], st.tokens + [Token(TT_SY_LPAR, Lit(0), Some(CStr(st.chars + ['\0'])))]))
  {
  }

  /** A non-operator character ends a symbol run, which must resolve to a table code. */
  lemma StepEndsSymbol(st: TokState, c: char, i: nat)
    requires st.acc == ACC_SPC && !IsSpace(c) && !InOperatorCharset(c)
    ensures var run := StrToTokenT(CStr(st.chars + ['\0']));
      Step(st, c, i) == if run & (TT_OPERATOR | TT_SYMBOL) == 0 then Err(TokError(InvalidOperator, i))
                        else Ok(TokState(AssignAccflag(c, false), [c], st.tokens + [OperatorToken(run)]))
  {
    var run := StrToTokenT(CStr(st.chars + ['\0']));
    assert Step(st, c, i) == SymbolStep(st, c, i);
    if run & (TT_OPERATOR | TT_SYMBOL) == 0 {
      assert SymbolStep(st, c, i) == Err(TokError(InvalidOperator, i));
    } else {
      assert SymbolStep(st, c, i) == Ok(TokState(AssignAccflag(c, false), [c], st.tokens + [OperatorToken(run)]));
    }
  }

  /** An operator character after a non-paren symbol is dropped: the state does not change. */
  lemma StepDropsOperatorChar(st: TokState, c: char, i: nat)
    requires st.acc == ACC_SPC && InOperatorCharset(c) && !HeadIsParen(st.chars)
    ensures Step(st, c, i) == Ok(st)
  {
  }

  /** A single decimal digit followed by the pushed NUL, or on its own, parses to its value. */
  lemma ParseDigit(d: char)
    requires IsDigit(d)
    ensures ParseNumber([d, '\0'], ACC_DEC) == Ok(NumberToken(Lit(DigitValue(d))))
    ensures ParseNumber([d], ACC_DEC) == Ok(NumberToken(Lit(DigitValue(d))))
  {
    assert CStr([d, '\0']) == [d] by {
      assert [d, '\0'][1..] == ['\0'];
    }
    assert CStr([d]) == [d] by {
      assert [d][1..] == [];
    }
    assert DigitRun([d], 10) == [d] by {
      assert [d][1..] == [];
    }
    assert FoldDigits([d], 10) == DigitValue(d) by {
      assert [d][..0] == [];
    }
  }

  /** A one-character symbol run resolves to the code of its table entry. */
  lemma ResolveSymbol(c: char, k: nat)
    requires k < |LookupTable| && LookupTable[k].name == [c] && c != '\0'
    ensures StrToTokenT(CStr([c] + ['\0'])) == LookupTable[k].code
  {
    CStrTerminated([c]);
    assert !HasDigit([c]) by {
      assert LookupTable[k].name[0] == c;
    }
  }

  // ---------------------------------------------------------------------------
  // The value of an accumulated number.

  /** A buffer without NUL is its own C string. */
  lemma NulFree(s: string)
    requires '\0' !in s
    ensures CStr(s) == s
  {
  }

  /**
   * A base buffer (a digit, a format letter, then digits of that radix) is read without
   * its 2-character prefix in the radix its flag names. Mid-input, with the NUL pushed,
   * it always parses, even as a bare prefix; at the end of the input it needs a digit
   * after the prefix.
   */
  lemma BaseNumberValue(st: TokState)
    requires ValidState(st) && st.acc in {ACC_BIN, ACC_OCT, ACC_HEX}
    ensures var v := NumberToken(Lit(Saturate(FoldDigits(st.chars[2..], st.acc as nat))));
      && ParseNumber(st.chars + ['\0'], st.acc) == Ok(v)
      && (|st.chars| >= 3 ==> ParseNumber(st.chars, st.acc) == Ok(v))
      && (|st.chars| == 2 ==> ParseNumber(st.chars, st.acc) == Err(TokError(IncompleteNumber, 2)))
  {
    var digits := st.chars[2..];
    var radix := st.acc as nat;
    assert CustomBase(st.acc) == st.acc;
    assert (st.chars + ['\0'])[2..] == digits + ['\0'];
    assert '\0' !in digits by {
      forall k | 0 <= k < |digits|
        ensures digits[k] != '\0'
      {
        assert IsRadixDigit(digits[k], radix);
      }
    }
    CStrTerminated(digits);
    NulFree(digits);
    assert StrToLL(digits, radix) == Saturate(FoldDigits(digits, radix));
  }

  /** A decimal buffer is read whole in radix 10, with or without the pushed NUL. */
  lemma DecimalNumberValue(st: TokState)
    requires ValidState(st) && st.acc in {ACC_DEC, ACC_DEC | ACC_DTZ}
    ensures var v := NumberToken(Lit(Saturate(FoldDigits(st.chars, 10))));
      && ParseNumber(st.chars + ['\0'], st.acc) == Ok(v)
      && ParseNumber(st.chars, st.acc) == Ok(v)
  {
    assert CustomBase(st.acc) == 0;
    assert AllRadixDigits(st.chars, 10) by {
      forall k | 0 <= k < |st.chars|
        ensures IsRadixDigit(st.chars[k], 10)
      {
        assert IsDigit(st.chars[k]);
      }
    }
    assert '\0' !in st.chars by {
      forall k | 0 <= k < |st.chars|
        ensures st.chars[k] != '\0'
      {
        assert IsRadixDigit(st.chars[k], 10);
      }
    }
    CStrTerminated(st.chars);
    NulFree(st.chars);
  }

  /**
   * A float buffer keeps its whole text for atof. Mid-input it always parses; at the end
   * of the input a buffer of two characters ("1.") is refused.
   */
  lemma FloatNumberValue(st: TokState)
    requires ValidState(st) && st.acc == ACC_FPN
    ensures ParseNumber(st.chars + ['\0'], st.acc) == Ok(NumberToken(Float(st.chars)))
    ensures |st.chars| >= 3 ==> ParseNumber(st.chars, st.acc) == Ok(NumberToken(Float(st.chars)))
    ensures |st.chars| == 2 ==> ParseNumber(st.chars, st.acc) == Err(TokError(IncompleteNumber, 2))
  {
    assert CustomBase(st.acc) == 0;
    assert '\0' !in st.chars by {
      forall k | 0 <= k < |st.chars|
        ensures st.chars[k] != '\0'
      {
        assert IsDigit(st.chars[k]) || st.chars[k] == '.';
      }
    }
    CStrTerminated(st.chars);
    NulFree(st.chars);
  }

  // ---------------------------------------------------------------------------
  // Characteristic buffers.

  /**
   * Mid-input the pushed NUL counts towards the 3-character minimum, so a bare "0x" that
   * an operator ends parses as 0, while the same "0x" at the end of the input is refused.
   */
  lemma EmptyHexPrefix()
    ensures ParseNumber("0x\0", ACC_HEX) == Ok(NumberToken(Lit(0)))
    ensures ParseNumber("0x", ACC_HEX) == Err(TokError(IncompleteNumber, 2))
  {
    assert "0x\0"[2..] == "\0";
    assert CStr("\0") == [];
    assert FoldDigits(DigitRun([], 16), 16) == 0;
  }

  /** A base buffer loses its prefix and is read in its radix ... */
  lemma HexBuffer()
    ensures ParseNumber("0xff", ACC_HEX) == Ok(NumberToken(Lit(255)))
  {
    assert "0xff"[2..] == "ff" && CStr("ff") == "ff";
    assert DigitRun("ff", 16) == "ff" && FoldDigits("ff", 16) == 255;
  }

  lemma BinaryBuffer()
    ensures ParseNumber("1b101", ACC_BIN) == Ok(NumberToken(Lit(5)))
  {
    assert "1b101"[2..] == "101" && CStr("101") == "101";
    assert DigitRun("101", 2) == "101";
    assert "101"[..2] == "10" && "10"[..1] == "1" && "1"[..0] == [];
    assert FoldDigits("101", 2) == 5;
  }

  /** ... while a float buffer keeps its whole text. */
  lemma FloatBuffer()
    ensures ParseNumber("2.5", ACC_FPN) == Ok(NumberToken(Float("2.5")))
  {
    assert CStr("2.5") == "2.5";
  }
}
