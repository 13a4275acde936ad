/** The token vocabulary of src/lexer.h: the `TokenType` enumeration with
    its C values, the keyword table of src/lexer.c whose indices are those
    values, and the `Token` record. */
module Tokens {

  datatype TokenType =
    | InstrCls | InstrJmp | InstrVjmp | InstrCall | InstrRet | InstrSne | InstrSe
    | InstrMov | InstrOr | InstrAnd | InstrXor | InstrAdd | InstrSub | InstrSubn
    | InstrShr | InstrShl | InstrRnd | InstrDrw | InstrWkp | InstrSkd | InstrSku
    | InstrLdf | InstrBcd | InstrLod | InstrStr
    | NameSt | NameDt | NameReg | NameLblRef | NameLblDef | NameI
    | SymComma | SymColon | ConstInt | StreamEnd

  /** The C value of each enumerator: 0, 1, ... in declaration order, except
      that NAME_I, SYM_COMMA and SYM_COLON are their characters and the
      two after SYM_COLON continue from it. */
  function Value(t: TokenType): int {
    match t
    case InstrCls => 0   case InstrJmp => 1   case InstrVjmp => 2  case InstrCall => 3
    case InstrRet => 4   case InstrSne => 5   case InstrSe => 6    case InstrMov => 7
    case InstrOr => 8    case InstrAnd => 9   case InstrXor => 10  case InstrAdd => 11
    case InstrSub => 12  case InstrSubn => 13 case InstrShr => 14  case InstrShl => 15
    case InstrRnd => 16  case InstrDrw => 17  case InstrWkp => 18  case InstrSkd => 19
    case InstrSku => 20  case InstrLdf => 21  case InstrBcd => 22  case InstrLod => 23
    case InstrStr => 24  case NameSt => 25    case NameDt => 26    case NameReg => 27
    case NameLblRef => 28 case NameLblDef => 29
    case NameI => 'I' as int
    case SymComma => ',' as int
    case SymColon => ':' as int
    case ConstInt => ':' as int + 1
    case StreamEnd => ':' as int + 2
  }

  /** The enumerator with a given C value, if there is one. */
  function OfValue(v: int): (r: Option<TokenType>)
  {
    if 0 <= v < |KeywordTypes| then Some(KeywordTypes[v])
    else if v == 27 then Some(NameReg)
    else if v == 28 then Some(NameLblRef)
    else if v == 29 then Some(NameLblDef)
    else if v == 'I' as int then Some(NameI)
    else if v == ',' as int then Some(SymComma)
    else if v == ':' as int then Some(SymColon)
    else if v == ':' as int + 1 then Some(ConstInt)
    else if v == ':' as int + 2 then Some(StreamEnd)
    else None
  }

  datatype Option<T> = None | Some(value: T)

  /** The keyword table, in the order that makes each index the value of
      the enumerator it stands for. */
  const Keywords: seq<string> := [
    "cls", "jmp", "vjmp", "call", "ret", "sne", "se", "mov", "or", "and",
    "xor", "add", "sub", "subn", "shr", "shl", "rnd", "drw", "wkp", "skd",
    "sku", "ldf", "bcd", "lod", "str", "stimer", "dtimer"]

  /** The enumerators of the keyword table, index by index. */
  const KeywordTypes: seq<TokenType> := [
    InstrCls, InstrJmp, InstrVjmp, InstrCall, InstrRet, InstrSne, InstrSe,
    InstrMov, InstrOr, InstrAnd, InstrXor, InstrAdd, InstrSub, InstrSubn,
    InstrShr, InstrShl, InstrRnd, InstrDrw, InstrWkp, InstrSkd, InstrSku,
    InstrLdf, InstrBcd, InstrLod, InstrStr, NameSt, NameDt]

  /** A token. `num` is the numeric payload (register number or constant;
      0 where C leaves the union's integer unused) and `text` the label
      text (empty where C stores NULL). `Indeterminate` is the value the
      scanner stores when `lex_int` ends without returning a token. */
  datatype Token =
    | Tok(kind: TokenType, line: int, col: int, num: nat, text: string)
    | Indeterminate

  /** The sentinel that ends every token stream; C sets only its type. */
  const EndToken: Token := Tok(StreamEnd, 0, 0, 0, "")

  /** The stream ends with the sentinel, as the scanner leaves it. */
  predicate Terminated(toks: seq<Token>) {
    |toks| > 0 && toks[|toks| - 1] == EndToken
  }

  predicate Is(t: Token, k: TokenType) { t.Tok? && t.kind == k }
  function NumOf(t: Token): nat { if t.Tok? then t.num else 0 }
  function LineOf(t: Token): int { if t.Tok? then t.line else 0 }
  function ColOf(t: Token): int { if t.Tok? then t.col else 0 }

  /** OfValue inverts Value, so no two enumerators share a C value. */
  lemma OfValueInvertsValue(t: TokenType)
    ensures OfValue(Value(t)) == Some(t)
  {
    match t
    case InstrCls => case InstrJmp => case InstrVjmp => case InstrCall =>
    case InstrRet => case InstrSne => case InstrSe => case InstrMov =>
    case InstrOr => case InstrAnd => case InstrXor => case InstrAdd =>
    case InstrSub => case InstrSubn => case InstrShr => case InstrShl =>
    case InstrRnd => case InstrDrw => case InstrWkp => case InstrSkd =>
    case InstrSku => case InstrLdf => case InstrBcd => case InstrLod =>
    case InstrStr => case NameSt => case NameDt => case NameReg =>
    case NameLblRef => case NameLblDef => case NameI => case SymComma =>
    case SymColon => case ConstInt => case StreamEnd =>
  }

  lemma ValuesAreDistinct(a: TokenType, b: TokenType)
    ensures Value(a) == Value(b) ==> a == b
  {
    OfValueInvertsValue(a);
    OfValueInvertsValue(b);
  }

  /** The keyword at index i is the spelling of the enumerator whose value
      is i, and NAME_REG's value is the number of keywords, which is the
      bound of the keyword search. */
  lemma KeywordIndexIsEnumValue(i: nat)
    requires i < |Keywords|
    ensures |Keywords| == |KeywordTypes| == Value(NameReg)
    ensures Value(KeywordTypes[i]) == i
    ensures OfValue(i) == Some(KeywordTypes[i])
  {
  }

  /** SYM_COMMA and NAME_I take the values of their characters. */
  lemma CharValues()
    ensures Value(SymComma) == ',' as int && Value(NameI) == 'I' as int
  {
  }

  /** Only the 25 mnemonics and the two timer names come from the table;
      the values outside 0..29 are the characters and the two last ones. */
  lemma SpecialValuesOutsideTable(t: TokenType)
    ensures t in {NameI, SymComma, SymColon, ConstInt, StreamEnd} <==> !(0 <= Value(t) <= 29)
  {
  }
}
