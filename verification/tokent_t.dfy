/**
 * Token codes (src/tokent_t.h), the string-to-code lookup (src/tokent_t.c) and the Token
 * record both pipeline stages share.
 *
 * A code is a `tokent_t` (an unsigned long): kinds are recognised by bitwise AND, and the
 * evaluator compares codes by numeric magnitude to decide precedence.
 */
module TokenTypes {
  import opened Wrappers
  import opened CType

  type TokenT = bv64

  const TT_NUMBER: TokenT   := 0x00000001
  const TT_OP_ADD: TokenT   := 0x00000002
  const TT_OP_SUB: TokenT   := 0x00000004
  const TT_OP_DIV: TokenT   := 0x00000008
  const TT_OP_MOD: TokenT   := 0x00000010
  const TT_OP_MUL: TokenT   := 0x00000020
  const TT_OP_POW: TokenT   := 0x00000040
  const TT_OP_FLOOR: TokenT := 0x00000080
  const TT_OP_NEG: TokenT   := 0x00000100
  const TT_OP_AND: TokenT   := 0x00000200
  const TT_OP_OR: TokenT    := 0x00000400
  const TT_OP_XOR: TokenT   := 0x00000800
  const TT_OP_LSH: TokenT   := 0x00001000
  const TT_OP_RSH: TokenT   := 0x00002000
  const TT_OP_NOT: TokenT   := 0x00004000
  const TT_SY_COMA: TokenT  := 0x10000000
  const TT_SY_LPAR: TokenT  := 0x20000000
  /** Shares bit 0x800 with TT_OP_XOR. */
  const TT_SY_RPAR: TokenT  := 0x40000800

  const TT_OP_BITWISE: TokenT :=
    TT_OP_AND | TT_OP_OR | TT_OP_XOR | TT_OP_RSH | TT_OP_LSH | TT_OP_NOT
  const TT_UNARY_OPERATOR: TokenT := TT_OP_NEG | TT_OP_NOT
  const TT_BINARY_OPERATOR: TokenT :=
    TT_OP_ADD | TT_OP_SUB | TT_OP_DIV | TT_OP_MOD | TT_OP_MUL | TT_OP_POW | TT_OP_AND
    | TT_OP_OR | TT_OP_XOR | TT_OP_LSH | TT_OP_RSH | TT_OP_FLOOR
  const TT_OPERATOR: TokenT := TT_UNARY_OPERATOR | TT_BINARY_OPERATOR
  const TT_SYMBOL: TokenT := TT_SY_LPAR | TT_SY_RPAR | TT_SY_COMA

  /**
   * A C `double`, kept symbolic: the term records which floating-point operation produced
   * the value from which operands, and no IEEE semantics is assumed.
   * Lit(n) is the double nearest to the integer n (strtoll results, 0, 0xDEADC0DE);
   * Float(text) is atof(text).
   */
  datatype Num =
    | Lit(n: int)
    | Float(text: string)
    | Add(x: Num, y: Num)
    | Sub(x: Num, y: Num)
    | Div(x: Num, y: Num)
    | Mul(x: Num, y: Num)
    | Mod(x: Num, y: Num)   // (uint64_t)x % (uint64_t)y, converted back to double
    | Pow(x: Num, y: Num)
    | Neg(x: Num)
    | Round(x: Num)
    | Ceil(x: Num)

  /** A token: its code, its value (numbers) and its function name (a call's open paren). */
  datatype Token = Token(kind: TokenT, f64: Num, func: Option<string>)

  function NumberToken(v: Num): Token {
    Token(TT_NUMBER, v, None)
  }

  /** The tokens the tokenizer builds for operator and symbol runs: `.f64 = 0`, no name. */
  function OperatorToken(kind: TokenT): Token {
    Token(kind, Lit(0), None)
  }

  datatype Entry = Entry(name: string, code: TokenT)

  /** The lookup table of str_to_token_t, in its order. */
  const LookupTable: seq<Entry> := [
    Entry("+", TT_OP_ADD),
    Entry("-", TT_OP_SUB),
    Entry("/", TT_OP_DIV),
    Entry("%", TT_OP_MOD),
    Entry("*", TT_OP_MUL),
    Entry("^", TT_OP_XOR),
    Entry("**", TT_OP_POW),
    Entry("~", TT_OP_NEG),
    Entry("//", TT_OP_FLOOR),
    Entry("&", TT_OP_AND),
    Entry("|", TT_OP_OR),
    Entry("<<", TT_OP_LSH),
    Entry(">>", TT_OP_RSH),
    Entry(",", TT_SY_COMA),
    Entry("(", TT_SY_LPAR),
    Entry(")", TT_SY_RPAR)
  ]

  /** The codes the table can return. */
  const TableCodes: set<TokenT> := set k | 0 <= k < |LookupTable| :: LookupTable[k].code

  /** The codes of the entries named by a single character. */
  const OneCharCodes: set<TokenT> :=
    set k | 0 <= k < |LookupTable| && |LookupTable[k].name| == 1 :: LookupTable[k].code

  /** The codes whose table name is two characters long: `**`, `//`, `<<` and `>>`. */
  const TwoCharCodes: set<TokenT> := {TT_OP_POW, TT_OP_FLOOR, TT_OP_LSH, TT_OP_RSH}

  predicate HasDigit(s: string) {
    exists k :: 0 <= k < |s| && IsDigit(s[k])
  }

  predicate InTable(s: string) {
    exists k :: 0 <= k < |LookupTable| && LookupTable[k].name == s
  }

  /** The first loop of str_to_token_t: is there a decimal digit at position i or later? */
  function FindDigit(s: string, i: nat): (found: bool)
    requires i <= |s|
    ensures found <==> exists k :: i <= k < |s| && IsDigit(s[k])
    decreases |s| - i
  {
    if i == |s| then false
    else if IsDigit(s[i]) then true
    else FindDigit(s, i + 1)
  }

  /** The second loop: the code of the first table entry at index i or later named s, or 0. */
  function Lookup(s: string, i: nat): (code: TokenT)
    requires i <= |LookupTable|
    ensures code != 0 <==> exists k :: i <= k < |LookupTable| && LookupTable[k].name == s
    ensures forall k :: i <= k < |LookupTable| && LookupTable[k].name == s ==> code == LookupTable[k].code
    decreases |LookupTable| - i
  {
    if i == |LookupTable| then 0
    else if LookupTable[i].name == s then TableCodesNonZero(); TableNamesDistinct(); LookupTable[i].code
    else Lookup(s, i + 1)
  }

  /**
   * str_to_token_t: TT_NUMBER for a string holding a digit anywhere, otherwise the code of
   * the table entry spelled exactly like s, otherwise 0. `s` is the C string (no NUL).
   */
  function StrToTokenT(s: string): (r: TokenT)
    ensures r == TT_NUMBER <==> HasDigit(s)
    ensures !HasDigit(s) ==> (r != 0 <==> InTable(s))
    ensures !HasDigit(s) ==>
      forall k :: 0 <= k < |LookupTable| && LookupTable[k].name == s ==> r == LookupTable[k].code
    ensures r == 0 || r == TT_NUMBER || r in TableCodes
  {
    if FindDigit(s, 0) then TT_NUMBER else LookupInTable(s); TableCodesNonZero(); Lookup(s, 0)
  }

  /** No entry has code 0 (not found) or TT_NUMBER. */
  lemma TableCodesNonZero()
    ensures forall k :: 0 <= k < |LookupTable| ==> LookupTable[k].code != 0 && LookupTable[k].code != TT_NUMBER
  {
  }

  /** A name found in the table yields that entry's code. */
  lemma LookupInTable(s: string)
    ensures Lookup(s, 0) == 0 || Lookup(s, 0) in TableCodes
  {
    if Lookup(s, 0) != 0 {
      var k :| 0 <= k < |LookupTable| && LookupTable[k].name == s;
      assert Lookup(s, 0) == LookupTable[k].code;
    }
  }

  // Facts about the code layout that the tokenizer and the evaluator rely on.

  lemma UnaryBinaryDisjoint()
    ensures TT_UNARY_OPERATOR & TT_BINARY_OPERATOR == 0
  {
  }

  /** `)` carries XOR's bit, so it passes both the binary-operator and the operator test. */
  lemma RparSharesXorBit()
    ensures TT_SY_RPAR & TT_OP_XOR == TT_OP_XOR
    ensures TT_SY_RPAR & TT_BINARY_OPERATOR != 0
    ensures TT_SY_RPAR & TT_OPERATOR != 0
    ensures TT_SY_RPAR & TT_UNARY_OPERATOR == 0
  {
  }

  lemma BarriersOutsideOperators()
    ensures (TT_SY_LPAR | TT_SY_COMA) & (TT_OPERATOR | TT_NUMBER) == 0
    ensures TT_SY_RPAR & (TT_SY_LPAR | TT_SY_COMA) == 0
  {
  }

  /** The numeric order of the operator codes, which the evaluator uses as precedence. */
  lemma OperatorCodesIncrease()
    ensures TT_OP_ADD < TT_OP_SUB < TT_OP_DIV < TT_OP_MOD < TT_OP_MUL < TT_OP_POW
    ensures TT_OP_POW < TT_OP_FLOOR < TT_OP_NEG < TT_OP_AND < TT_OP_OR < TT_OP_XOR
    ensures TT_OP_XOR < TT_OP_LSH < TT_OP_RSH < TT_OP_NOT
  {
  }

  lemma NumberOutsideOperatorsAndSymbols()
    ensures TT_NUMBER & (TT_OPERATOR | TT_SYMBOL) == 0
  {
  }

  /** No two table entries share a name, so the scan order cannot change a result. */
  lemma TableNamesDistinct()
    ensures forall i, j :: 0 <= i < j < |LookupTable| ==> LookupTable[i].name != LookupTable[j].name
  {
  }

  /** Every code in the table passes the tokenizer's `TT_OPERATOR | TT_SYMBOL` test. */
  lemma TableCodesAccepted()
    ensures forall k :: 0 <= k < |LookupTable| ==> LookupTable[k].code & (TT_OPERATOR | TT_SYMBOL) != 0
  {
  }

  /** `^` is XOR ... */
  lemma CaretIsXor()
    ensures StrToTokenT("^") == TT_OP_XOR
  {
    assert !HasDigit("^") && LookupTable[5].name == "^";
  }

  /** ... and only `**` is POW. */
  lemma DoubleStarIsPow()
    ensures StrToTokenT("**") == TT_OP_POW
  {
    assert !HasDigit("**") by {
      assert forall k :: 0 <= k < 2 ==> "**"[k] == '*';
    }
    assert LookupTable[6] == Entry("**", TT_OP_POW);
  }

  /** `!` resolves to nothing although TT_OP_NOT exists. */
  lemma BangNotInTable()
    ensures StrToTokenT("!") == 0
  {
    assert !HasDigit("!");
    forall k | 0 <= k < |LookupTable|
      ensures LookupTable[k].name != "!"
    {
      assert LookupTable[k].name[0] != '!';
    }
  }

  /**
   * The one-character codes are table codes, and none of them is spelled with two
   * characters: the two kinds of entry carry different codes.
   */
  lemma OneCharCodesApart()
    ensures OneCharCodes <= TableCodes
    ensures OneCharCodes !! TwoCharCodes
  {
    assert forall k :: 0 <= k < |LookupTable| && |LookupTable[k].name| == 1 ==> LookupTable[k].code !in TwoCharCodes;
  }

  /** No entry has an empty name ... */
  lemma NoEmptyName()
    ensures !InTable([])
  {
    forall k | 0 <= k < |LookupTable|
      ensures LookupTable[k].name != []
    {
      assert |LookupTable[k].name| > 0;
    }
  }

  /** ... so the empty string resolves to nothing. */
  lemma EmptyRunCode()
    ensures StrToTokenT([]) == 0
  {
    NoEmptyName();
    assert !HasDigit([]);
  }

  /** A one-character string resolves to 0, TT_NUMBER or a code spelled with one character. */
  lemma OneCharCode(s: string)
    requires |s| == 1
    ensures StrToTokenT(s) in {0, TT_NUMBER} + OneCharCodes
  {
    var r := StrToTokenT(s);
    if r != 0 && r != TT_NUMBER {
      var k :| 0 <= k < |LookupTable| && LookupTable[k].name == s;
      assert r == LookupTable[k].code;
    }
  }

  /** A digit anywhere makes a string a number, whatever surrounds it: `+1` is TT_NUMBER. */
  lemma DigitMeansNumber(s: string, k: nat)
    requires k < |s| && IsDigit(s[k])
    ensures StrToTokenT(s) == TT_NUMBER
  {
    assert HasDigit(s);
  }
}
