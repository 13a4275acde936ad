/** The words the encoder stores for well-formed statements, checked
    against the CHIP-8 instruction set (section 3.1 of Cowgod's Chip-8
    Technical Reference), and what it does with operands it rejects.
    Each lemma starts where src/parser.c:564 dispatches on the mnemonic
    `rd.cur`, with the operand tokens next in the stream at `rd.tk`.
    Each family has an operand lemma (which bytes the parser stores, no
    bit arithmetic) and a value lemma (what those bytes are as a word). */
module Encodings {
  import opened Tokens
  import opened Diagnostics
  import opened EncoderSpec
  import opened EncoderProps

  /** Token `i` of the stream has type `k`. */
  predicate At(toks: seq<Token>, i: nat, k: TokenType) {
    i < |toks| && Is(toks[i], k)
  }

  /** The payload of token `i`. */
  function Arg(toks: seq<Token>, i: nat): nat {
    if i < |toks| then NumOf(toks[i]) else 0
  }

  /** The parse stores both bytes of its word. */
  predicate Full(p: Parsed) {
    p.b0.Some? && p.b1.Some?
  }

  /** The instruction word a parse stores, high byte first (a byte it
      does not store counts as 0). */
  function WordOf(p: Parsed): nat {
    (if p.b0.Some? then Value8(p.b0.value) as nat * 256 else 0) + (if p.b1.Some? then Value8(p.b1.value) as nat else 0)
  }

  /** The parse left the reader at `r`, stored the word `w` in full and
      referenced no label. */
  predicate Encodes(p: Parsed, r: Reader, w: nat) {
    p.rd == r && p.ref == None && Full(p) && WordOf(p) == w
  }

  /** The parse stores exactly these two bytes. */
  predicate Stores(p: Parsed, b0: Byte, b1: Byte) {
    p.b0 == Some(b0) && p.b1 == Some(b1)
  }

  /** The reader once `n` tokens from `rd.tk` on have been read without
      an error; the last one read is current. */
  function After(toks: seq<Token>, rd: Reader, n: nat): Reader {
    Reader(rd.tk + n, if 0 < n && rd.tk + n <= |toks| then toks[rd.tk + n - 1] else Indeterminate, rd.diags)
  }

  /** `vx ,` at token `i`. */
  predicate RegComma(toks: seq<Token>, i: nat) {
    At(toks, i, NameReg) && Arg(toks, i) < 16 && At(toks, i + 1, SymComma)
  }

  /** A register `vy` at token `i`. */
  predicate RegAt(toks: seq<Token>, i: nat) {
    At(toks, i, NameReg) && Arg(toks, i) < 16
  }

  // ---------------------------------------------------------------------
  // Words from bytes
  // ---------------------------------------------------------------------

  lemma ConstantByte(k: bv8)
    ensures Value8(Bits(k)) == k
  {
    assert Lo8(0) == 0;
  }

  /** `op | x` and a constant byte `lo`. */
  lemma RegConstWord(p: Parsed, op: bv8, x: nat, lo: bv8)
    requires op & 0x0F == 0 && x < 16 && Stores(p, Or(op, x), Bits(lo))
    ensures Full(p) && WordOf(p) == op as nat * 256 + x * 256 + lo as nat
  {
    ByteValue(Or(op, x));
    ConstantByte(lo);
  }

  /** `op | x` and an immediate: the low eight bits of `n` in the low byte. */
  lemma RegImmWord(p: Parsed, op: bv8, x: nat, n: nat)
    requires op & 0x0F == 0 && x < 16 && Stores(p, Or(op, x), Or(0, n))
    ensures Full(p) && WordOf(p) == op as nat * 256 + x * 256 + n % 256
  {
    ByteValue(Or(op, x));
    StoredInt(n);
  }

  /** `0x60 | x` and a byte `n`: the word 6xkk. */
  lemma LoadImmWord(p: Parsed, x: nat, n: nat)
    requires x < 16 && n < 256 && Stores(p, Or(0x60, x), Or(0, n))
    ensures Full(p) && WordOf(p) == 0x6000 + x * 256 + n
  {
    assert Value8(Or(0x60, x)) as int == 0x60 + x by {
      ByteValue(Or(0x60, x));
    }
    StoredByte(n);
  }

  /** `op | x` and `low | (y << 4)`. */
  lemma RegRegWord(p: Parsed, op: bv8, x: nat, low: bv8, y: nat)
    requires op & 0x0F == 0 && x < 16 && low < 16 && y < 16 && Stores(p, Or(op, x), Or(low, y * 16))
    ensures Full(p) && WordOf(p) == op as nat * 256 + x * 256 + y * 16 + low as nat
  {
    ByteValue(Or(op, x));
    RegisterNibble(low, y);
  }

  /** `op | ((n & 0xF00) >> 8)` and `n`: the low twelve bits of `n`. */
  lemma AddrWord(p: Parsed, op: bv8, n: nat)
    requires op & 0x0F == 0 && Stores(p, Or(op, Hi4(n)), Or(0, n))
    ensures Full(p) && WordOf(p) == op as nat * 256 + n % 0x1000
  {
    ByteValue(Or(op, Hi4(n)));
    StoredInt(n);
    TwelveBits(n);
  }

  /** `0xD0 | x` and `(y << 4) | n`. */
  lemma SpriteWord(p: Parsed, x: nat, y: nat, n: nat)
    requires x < 16 && y < 16 && n < 16 && Stores(p, Or(0xD0, x), Byte(0, y * 16, n))
    ensures Full(p) && WordOf(p) == 0xD000 + x * 256 + y * 16 + n
  {
    ByteValue(Or(0xD0, x));
    SpriteNibbles(y, n);
  }

  // ---------------------------------------------------------------------
  // cls, ret
  // ---------------------------------------------------------------------

  /** cls is 00E0 and ret is 00EE (src/parser.c:679-688); neither reads
      an operand nor reports anything. */
  lemma NoOperandWords(toks: seq<Token>, rd: Reader)
    requires Is(rd.cur, InstrCls) || Is(rd.cur, InstrRet)
    ensures Dispatch(toks, rd).rd == rd && Dispatch(toks, rd).ref == None && Full(Dispatch(toks, rd))
    ensures WordOf(Dispatch(toks, rd)) == if Is(rd.cur, InstrCls) then 0x00E0 else 0x00EE
  {
    ConstantByte(0x00);
    ConstantByte(0xE0);
    ConstantByte(0xEE);
  }

  // ---------------------------------------------------------------------
  // The one-register mnemonics
  // ---------------------------------------------------------------------

  predicate IsOneRegister(k: TokenType) {
    k in {InstrShr, InstrShl, InstrWkp, InstrSkd, InstrSku, InstrLdf, InstrBcd, InstrLod, InstrStr}
  }

  /** Each one-register instruction with x = 0. */
  function OneRegisterCode(k: TokenType): nat {
    match k
    case InstrShr => 0x8006
    case InstrShl => 0x800E
    case InstrWkp => 0xF00A
    case InstrSkd => 0xE09E
    case InstrSku => 0xE0A1
    case InstrLdf => 0xF029
    case InstrBcd => 0xF033
    case InstrLod => 0xF065
    case InstrStr => 0xF055
    case _ => 0
  }

  /** The bytes src/parser.c passes to its one-register parser. */
  function OneRegHi(k: TokenType): bv8 {
    match k
    case InstrShr => 0x80
    case InstrShl => 0x80
    case InstrSkd => 0xE0
    case InstrSku => 0xE0
    case _ => 0xF0
  }

  function OneRegLo(k: TokenType): bv8 {
    match k
    case InstrShr => 0x06
    case InstrShl => 0x0E
    case InstrWkp => 0x0A
    case InstrSkd => 0x9E
    case InstrSku => 0xA1
    case InstrLdf => 0x29
    case InstrBcd => 0x33
    case InstrLod => 0x65
    case _ => 0x55
  }

  lemma OneRegDispatch(toks: seq<Token>, rd: Reader)
    requires rd.cur.Tok? && IsOneRegister(rd.cur.kind)
    ensures Dispatch(toks, rd) == ParseOneReg(toks, rd, OneRegHi(rd.cur.kind), OneRegLo(rd.cur.kind))
    ensures OneRegHi(rd.cur.kind) & 0x0F == 0
    ensures OneRegHi(rd.cur.kind) as nat * 256 + OneRegLo(rd.cur.kind) as nat == OneRegisterCode(rd.cur.kind)
  {
  }

  /** shr, shl, wkp, skd, sku, ldf, bcd, lod and str with a register
      operand x store their instruction with x in the second hex digit
      and report nothing (src/parser.c:580-678). */
  lemma OneRegisterWords(toks: seq<Token>, rd: Reader)
    requires rd.cur.Tok? && IsOneRegister(rd.cur.kind) && RegAt(toks, rd.tk)
    ensures Dispatch(toks, rd).rd == After(toks, rd, 1) && Dispatch(toks, rd).ref == None
    ensures Full(Dispatch(toks, rd))
    ensures WordOf(Dispatch(toks, rd)) == OneRegisterCode(rd.cur.kind) + Arg(toks, rd.tk) * 256
  {
    OneRegDispatch(toks, rd);
    RegConstWord(Dispatch(toks, rd), OneRegHi(rd.cur.kind), Arg(toks, rd.tk), OneRegLo(rd.cur.kind));
  }

  /** Without its register the mnemonic counts one error and still stores
      both bytes (src/parser.c:581-588). */
  lemma OneRegisterMissing(toks: seq<Token>, rd: Reader)
    requires rd.cur.Tok? && IsOneRegister(rd.cur.kind)
    requires rd.tk < |toks| && !At(toks, rd.tk, NameReg)
    ensures Dispatch(toks, rd).rd.diags.errors == rd.diags.errors + 1
    ensures Full(Dispatch(toks, rd))
  {
    OneRegDispatch(toks, rd);
  }

  // ---------------------------------------------------------------------
  // jmp, call, vjmp
  // ---------------------------------------------------------------------

  predicate IsAddr(k: TokenType) {
    k in {InstrJmp, InstrCall, InstrVjmp}
  }

  /** 1nnn, 2nnn and Bnnn with nnn = 0. */
  function AddrCode(k: TokenType): nat {
    match k
    case InstrJmp => 0x1000
    case InstrCall => 0x2000
    case _ => 0xB000
  }

  function AddrOp(k: TokenType): bv8 {
    match k
    case InstrJmp => 0x10
    case InstrCall => 0x20
    case _ => 0xB0
  }

  lemma AddrDispatch(toks: seq<Token>, rd: Reader)
    requires rd.cur.Tok? && IsAddr(rd.cur.kind)
    ensures Dispatch(toks, rd) == ParseAddr(toks, rd, AddrOp(rd.cur.kind))
    ensures AddrOp(rd.cur.kind) & 0x0F == 0 && AddrOp(rd.cur.kind) as nat * 256 == AddrCode(rd.cur.kind)
  {
  }

  /** A jump target below 0x200 is warned about, not counted as an error. */
  function AddrDiags(toks: seq<Token>, rd: Reader): (d: Diags)
    ensures d.errors == rd.diags.errors
    ensures d.warnings == rd.diags.warnings + (if Arg(toks, rd.tk) < CodeStart then 1 else 0)
  {
    var t := if rd.tk < |toks| then toks[rd.tk] else EndToken;
    if NumOf(t) < CodeStart then AddWarning(rd.diags, LineOf(t), ColOf(t), LowAddress) else rd.diags
  }

  lemma AddrShape(toks: seq<Token>, rd: Reader, op: bv8)
    requires At(toks, rd.tk, ConstInt)
    ensures ParseAddr(toks, rd, op) ==
      Word(After(toks, rd, 1).(diags := AddrDiags(toks, rd)), Or(op, Hi4(Arg(toks, rd.tk))), Or(0, Arg(toks, rd.tk)))
  {
    assert NextTkn(toks, rd) == After(toks, rd, 1);
  }

  /** jmp, call and vjmp with an integer operand store 1nnn, 2nnn and
      Bnnn with the low twelve bits of the integer, and warn, without
      counting an error, exactly when the address lies below the program
      start 0x200 (src/parser.c:75-134). */
  lemma AddrWords(toks: seq<Token>, rd: Reader)
    requires rd.cur.Tok? && IsAddr(rd.cur.kind) && At(toks, rd.tk, ConstInt)
    ensures Dispatch(toks, rd).rd == After(toks, rd, 1).(diags := AddrDiags(toks, rd))
    ensures Dispatch(toks, rd).ref == None && Full(Dispatch(toks, rd))
    ensures WordOf(Dispatch(toks, rd)) == AddrCode(rd.cur.kind) + Arg(toks, rd.tk) % 0x1000
  {
    AddrDispatch(toks, rd);
    AddrShape(toks, rd, AddrOp(rd.cur.kind));
    AddrWord(Dispatch(toks, rd), AddrOp(rd.cur.kind), Arg(toks, rd.tk));
  }

  /** With a label operand only the opcode byte is stored; the label
      token is pushed as a reference for the resolver to patch
      (src/parser.c:77-79). */
  lemma AddrLabel(toks: seq<Token>, rd: Reader)
    requires rd.cur.Tok? && IsAddr(rd.cur.kind) && At(toks, rd.tk, NameLblRef)
    ensures Dispatch(toks, rd).rd == After(toks, rd, 1)
    ensures Dispatch(toks, rd).ref == Some(toks[rd.tk]) && Dispatch(toks, rd).b1 == None
    ensures Dispatch(toks, rd).b0.Some? && WordOf(Dispatch(toks, rd)) == AddrCode(rd.cur.kind)
  {
    AddrDispatch(toks, rd);
    ConstantByte(AddrOp(rd.cur.kind));
  }

  /** Anything else after the mnemonic is an error and nothing is stored. */
  lemma AddrOther(toks: seq<Token>, rd: Reader)
    requires rd.cur.Tok? && IsAddr(rd.cur.kind) && rd.tk < |toks|
    requires !At(toks, rd.tk, ConstInt) && !At(toks, rd.tk, NameLblRef)
    ensures Dispatch(toks, rd).rd.diags.errors == rd.diags.errors + 1
    ensures Dispatch(toks, rd).b0 == None && Dispatch(toks, rd).b1 == None && Dispatch(toks, rd).ref == None
  {
    AddrDispatch(toks, rd);
  }

  // ---------------------------------------------------------------------
  // se, sne
  // ---------------------------------------------------------------------

  predicate IsSkip(k: TokenType) {
    k == InstrSe || k == InstrSne
  }

  /** 3xkk / 4xkk and 5xy0 / 9xy0 with x = y = kk = 0. */
  function SkipImmCode(k: TokenType): nat { if k == InstrSe then 0x3000 else 0x4000 }

  function SkipRegCode(k: TokenType): nat { if k == InstrSe then 0x5000 else 0x9000 }

  function SkipImmOp(k: TokenType): bv8 { if k == InstrSe then 0x30 else 0x40 }

  function SkipRegOp(k: TokenType): bv8 { if k == InstrSe then 0x50 else 0x90 }

  lemma SkipDispatch(toks: seq<Token>, rd: Reader)
    requires rd.cur.Tok? && IsSkip(rd.cur.kind)
    ensures Dispatch(toks, rd) == ParseSkip(toks, rd, SkipImmOp(rd.cur.kind), SkipRegOp(rd.cur.kind))
    ensures SkipImmOp(rd.cur.kind) & 0x0F == 0 && SkipImmOp(rd.cur.kind) as nat * 256 == SkipImmCode(rd.cur.kind)
    ensures SkipRegOp(rd.cur.kind) & 0x0F == 0 && SkipRegOp(rd.cur.kind) as nat * 256 == SkipRegCode(rd.cur.kind)
  {
  }

  /** An immediate above 255 at token `rd.tk + 2` is printed as an error
      but not counted. */
  function SkipDiags(toks: seq<Token>, rd: Reader): (d: Diags)
    ensures d.errors == rd.diags.errors && d.warnings == rd.diags.warnings
    ensures |d.log| == |rd.diags.log| + (if Arg(toks, rd.tk + 2) <= 0xFF then 0 else 1)
  {
    var t := if rd.tk + 2 < |toks| then toks[rd.tk + 2] else EndToken;
    if NumOf(t) > 0xFF then PrintOnly(rd.diags, LineOf(t), ColOf(t), TooLargeFor8Bits) else rd.diags
  }

  /** `vx , kk`: the immediate form of parse_se / parse_sne. */
  lemma SkipImmShape(toks: seq<Token>, rd: Reader, immOp: bv8, regOp: bv8)
    requires RegComma(toks, rd.tk) && At(toks, rd.tk + 2, ConstInt)
    ensures ParseSkip(toks, rd, immOp, regOp) ==
      Word(After(toks, rd, 3).(diags := SkipDiags(toks, rd)), Or(immOp, Arg(toks, rd.tk)), Or(0, Arg(toks, rd.tk + 2)))
  {
    var r1 := Expect(toks, rd, NameReg, ExpectedRegisterName);
    assert r1 == After(toks, rd, 1);
    var r2 := Expect(toks, r1, SymComma, ExpectedComma);
    assert r2 == After(toks, rd, 2);
  }

  /** `vx , vy`: the register form of parse_se / parse_sne. */
  lemma SkipRegShape(toks: seq<Token>, rd: Reader, immOp: bv8, regOp: bv8)
    requires RegComma(toks, rd.tk) && RegAt(toks, rd.tk + 2)
    ensures ParseSkip(toks, rd, immOp, regOp) ==
      Word(After(toks, rd, 3), Or(regOp, Arg(toks, rd.tk)), Or(0, Arg(toks, rd.tk + 2) * 16))
  {
    var r1 := Expect(toks, rd, NameReg, ExpectedRegisterName);
    assert r1 == After(toks, rd, 1);
    var r2 := Expect(toks, r1, SymComma, ExpectedComma);
    assert r2 == After(toks, rd, 2);
  }

  /** `se vx, kk` is 3xkk and `sne vx, kk` 4xkk, with the low eight bits
      of kk; an immediate above 255 is reported, but not counted as an
      error, so the image is still written (src/parser.c:139-202). */
  lemma SkipImmWords(toks: seq<Token>, rd: Reader)
    requires rd.cur.Tok? && IsSkip(rd.cur.kind) && RegComma(toks, rd.tk) && At(toks, rd.tk + 2, ConstInt)
    ensures Dispatch(toks, rd).rd == After(toks, rd, 3).(diags := SkipDiags(toks, rd))
    ensures Dispatch(toks, rd).ref == None && Full(Dispatch(toks, rd))
    ensures WordOf(Dispatch(toks, rd)) == SkipImmCode(rd.cur.kind) + Arg(toks, rd.tk) * 256 + Arg(toks, rd.tk + 2) % 256
  {
    SkipDispatch(toks, rd);
    SkipImmShape(toks, rd, SkipImmOp(rd.cur.kind), SkipRegOp(rd.cur.kind));
    RegImmWord(Dispatch(toks, rd), SkipImmOp(rd.cur.kind), Arg(toks, rd.tk), Arg(toks, rd.tk + 2));
  }

  /** `se vx, vy` is 5xy0 and `sne vx, vy` 9xy0 (src/parser.c:139-202). */
  lemma SkipRegWords(toks: seq<Token>, rd: Reader)
    requires rd.cur.Tok? && IsSkip(rd.cur.kind) && RegComma(toks, rd.tk) && RegAt(toks, rd.tk + 2)
    ensures Dispatch(toks, rd).rd == After(toks, rd, 3) && Dispatch(toks, rd).ref == None
    ensures Full(Dispatch(toks, rd))
    ensures WordOf(Dispatch(toks, rd)) == SkipRegCode(rd.cur.kind) + Arg(toks, rd.tk) * 256 + Arg(toks, rd.tk + 2) * 16
  {
    SkipDispatch(toks, rd);
    SkipRegShape(toks, rd, SkipImmOp(rd.cur.kind), SkipRegOp(rd.cur.kind));
    RegRegWord(Dispatch(toks, rd), SkipRegOp(rd.cur.kind), Arg(toks, rd.tk), 0, Arg(toks, rd.tk + 2));
  }

  // ---------------------------------------------------------------------
  // mov
  // ---------------------------------------------------------------------

  /** A destination parse_mov accepts. */
  predicate MovDest(toks: seq<Token>, i: nat) {
    At(toks, i, NameReg) || At(toks, i, NameSt) || At(toks, i, NameDt) || At(toks, i, NameI)
  }

  /** `dst ,` read without an error; the source operand is next. */
  lemma MovOperands(toks: seq<Token>, rd: Reader)
    requires Is(rd.cur, InstrMov) && MovDest(toks, rd.tk) && At(toks, rd.tk + 1, SymComma)
    ensures Dispatch(toks, rd) == MovSource(toks, After(toks, rd, 2), toks[rd.tk])
  {
    var r1 := NextTkn(toks, rd);
    assert r1 == After(toks, rd, 1);
    assert Expect(toks, r1, SymComma, ExpectedComma) == After(toks, rd, 2);
  }

  /** What the source operand encodes is what the `mov` statement encodes. */
  lemma MovEncodes(toks: seq<Token>, rd: Reader, w: nat)
    requires Is(rd.cur, InstrMov) && MovDest(toks, rd.tk) && At(toks, rd.tk + 1, SymComma)
    requires Encodes(MovSource(toks, After(toks, rd, 2), toks[rd.tk]), After(toks, rd, 3), w)
    ensures Encodes(Dispatch(toks, rd), After(toks, rd, 3), w)
  {
    MovOperands(toks, rd);
  }

  /** The low byte of `mov stimer, vx` (Fx18) and `mov dtimer, vx` (Fx15). */
  function TimerLow(dst: Token): bv8 {
    if Is(dst, NameSt) then 0x18 else 0x15
  }

  lemma ImmShape(toks: seq<Token>, r: Reader, dst: Token)
    requires Is(dst, NameReg) && At(toks, r.tk, ConstInt) && Arg(toks, r.tk) <= 0xFF
    ensures MovSource(toks, r, dst) == Word(After(toks, r, 1), Or(0x60, NumOf(dst)), Or(0, Arg(toks, r.tk)))
  {
    assert NextTkn(toks, r) == After(toks, r, 1);
  }

  /** The source operand `kk` after `vx ,`. */
  lemma ImmSource(toks: seq<Token>, r: Reader, dst: Token)
    requires Is(dst, NameReg) && NumOf(dst) < 16 && At(toks, r.tk, ConstInt) && Arg(toks, r.tk) <= 0xFF
    ensures Encodes(MovSource(toks, r, dst), After(toks, r, 1), 0x6000 + NumOf(dst) * 256 + Arg(toks, r.tk))
  {
    ImmShape(toks, r, dst);
    LoadImmWord(MovSource(toks, r, dst), NumOf(dst), Arg(toks, r.tk));
  }

  /** The source operand `vy` after `vx ,`. */
  lemma RegSource(toks: seq<Token>, r: Reader, dst: Token)
    requires Is(dst, NameReg) && NumOf(dst) < 16 && RegAt(toks, r.tk)
    ensures Encodes(MovSource(toks, r, dst), After(toks, r, 1), 0x8000 + NumOf(dst) * 256 + Arg(toks, r.tk) * 16)
  {
    assert NextTkn(toks, r) == After(toks, r, 1);
    RegRegWord(MovSource(toks, r, dst), 0x80, NumOf(dst), 0, Arg(toks, r.tk));
  }

  /** The source operand `dtimer` after `vx ,`. */
  lemma DelaySource(toks: seq<Token>, r: Reader, dst: Token)
    requires Is(dst, NameReg) && NumOf(dst) < 16 && At(toks, r.tk, NameDt)
    ensures Encodes(MovSource(toks, r, dst), After(toks, r, 1), 0xF007 + NumOf(dst) * 256)
  {
    assert NextTkn(toks, r) == After(toks, r, 1);
    RegConstWord(MovSource(toks, r, dst), 0xF0, NumOf(dst), 0x07);
  }

  /** The source operand `vx` after `stimer ,` or `dtimer ,`. */
  lemma TimerSource(toks: seq<Token>, r: Reader, dst: Token, low: bv8)
    requires (Is(dst, NameSt) || Is(dst, NameDt)) && low == TimerLow(dst) && RegAt(toks, r.tk)
    ensures Encodes(MovSource(toks, r, dst), After(toks, r, 1), 0xF000 + Arg(toks, r.tk) * 256 + low as nat)
  {
    assert NextTkn(toks, r) == After(toks, r, 1);
    RegConstWord(MovSource(toks, r, dst), 0xF0, Arg(toks, r.tk), low);
  }

  /** The source operand `nnn` after `I ,`. */
  lemma IndexSource(toks: seq<Token>, r: Reader, dst: Token)
    requires Is(dst, NameI) && At(toks, r.tk, ConstInt)
    ensures Encodes(MovSource(toks, r, dst), After(toks, r, 1), 0xA000 + Arg(toks, r.tk) % 0x1000)
  {
    assert NextTkn(toks, r) == After(toks, r, 1);
    AddrWord(MovSource(toks, r, dst), 0xA0, Arg(toks, r.tk));
  }

  /** `mov vx, kk` is 6xkk (src/parser.c:218-228). */
  lemma MovImmWords(toks: seq<Token>, rd: Reader)
    requires Is(rd.cur, InstrMov) && RegComma(toks, rd.tk) && At(toks, rd.tk + 2, ConstInt) && Arg(toks, rd.tk + 2) <= 0xFF
    ensures Encodes(Dispatch(toks, rd), After(toks, rd, 3), 0x6000 + Arg(toks, rd.tk) * 256 + Arg(toks, rd.tk + 2))
  {
    var r2 := After(toks, rd, 2);
    assert After(toks, r2, 1) == After(toks, rd, 3);
    ImmSource(toks, r2, toks[rd.tk]);
    MovEncodes(toks, rd, 0x6000 + Arg(toks, rd.tk) * 256 + Arg(toks, rd.tk + 2));
  }

  /** Unlike se and sne, mov counts an immediate above 255 as an error
      and stores nothing (src/parser.c:219-223). */
  lemma MovImmTooLarge(toks: seq<Token>, rd: Reader)
    requires Is(rd.cur, InstrMov) && RegComma(toks, rd.tk) && At(toks, rd.tk + 2, ConstInt) && Arg(toks, rd.tk + 2) > 0xFF
    ensures Dispatch(toks, rd).rd.diags.errors == rd.diags.errors + 1
    ensures Dispatch(toks, rd).b0 == None && Dispatch(toks, rd).b1 == None
  {
    MovOperands(toks, rd);
  }

  /** `mov vx, vy` is 8xy0 (src/parser.c:229-233). */
  lemma MovRegWords(toks: seq<Token>, rd: Reader)
    requires Is(rd.cur, InstrMov) && RegComma(toks, rd.tk) && RegAt(toks, rd.tk + 2)
    ensures Encodes(Dispatch(toks, rd), After(toks, rd, 3), 0x8000 + Arg(toks, rd.tk) * 256 + Arg(toks, rd.tk + 2) * 16)
  {
    var r2 := After(toks, rd, 2);
    assert After(toks, r2, 1) == After(toks, rd, 3);
    RegSource(toks, r2, toks[rd.tk]);
    MovEncodes(toks, rd, 0x8000 + Arg(toks, rd.tk) * 256 + Arg(toks, rd.tk + 2) * 16);
  }

  /** `mov vx, dtimer` is Fx07 (src/parser.c:234-238). */
  lemma MovDelayWords(toks: seq<Token>, rd: Reader)
    requires Is(rd.cur, InstrMov) && RegComma(toks, rd.tk) && At(toks, rd.tk + 2, NameDt)
    ensures Encodes(Dispatch(toks, rd), After(toks, rd, 3), 0xF007 + Arg(toks, rd.tk) * 256)
  {
    var r2 := After(toks, rd, 2);
    assert After(toks, r2, 1) == After(toks, rd, 3);
    DelaySource(toks, r2, toks[rd.tk]);
    MovEncodes(toks, rd, 0xF007 + Arg(toks, rd.tk) * 256);
  }

  /** `mov stimer, vx` is Fx18 (src/parser.c:248-258). */
  lemma MovSoundWords(toks: seq<Token>, rd: Reader)
    requires Is(rd.cur, InstrMov) && At(toks, rd.tk, NameSt) && At(toks, rd.tk + 1, SymComma) && RegAt(toks, rd.tk + 2)
    ensures Encodes(Dispatch(toks, rd), After(toks, rd, 3), 0xF018 + Arg(toks, rd.tk + 2) * 256)
  {
    var r2 := After(toks, rd, 2);
    assert After(toks, r2, 1) == After(toks, rd, 3);
    TimerSource(toks, r2, toks[rd.tk], 0x18);
    MovEncodes(toks, rd, 0xF018 + Arg(toks, rd.tk + 2) * 256);
  }

  /** `mov dtimer, vx` is Fx15 (src/parser.c:259-269). */
  lemma MovDelaySetWords(toks: seq<Token>, rd: Reader)
    requires Is(rd.cur, InstrMov) && At(toks, rd.tk, NameDt) && At(toks, rd.tk + 1, SymComma) && RegAt(toks, rd.tk + 2)
    ensures Encodes(Dispatch(toks, rd), After(toks, rd, 3), 0xF015 + Arg(toks, rd.tk + 2) * 256)
  {
    var r2 := After(toks, rd, 2);
    assert After(toks, r2, 1) == After(toks, rd, 3);
    TimerSource(toks, r2, toks[rd.tk], 0x15);
    MovEncodes(toks, rd, 0xF015 + Arg(toks, rd.tk + 2) * 256);
  }

  /** `mov I, nnn` is Annn with the low twelve bits (src/parser.c:270-283). */
  lemma MovIndexWords(toks: seq<Token>, rd: Reader)
    requires Is(rd.cur, InstrMov) && At(toks, rd.tk, NameI) && At(toks, rd.tk + 1, SymComma) && At(toks, rd.tk + 2, ConstInt)
    ensures Encodes(Dispatch(toks, rd), After(toks, rd, 3), 0xA000 + Arg(toks, rd.tk + 2) % 0x1000)
  {
    var r2 := After(toks, rd, 2);
    assert After(toks, r2, 1) == After(toks, rd, 3);
    IndexSource(toks, r2, toks[rd.tk]);
    MovEncodes(toks, rd, 0xA000 + Arg(toks, rd.tk + 2) % 0x1000);
  }

  /** A destination parse_mov does not accept is an error and nothing is
      stored (src/parser.c:285-288). */
  lemma MovBadDest(toks: seq<Token>, rd: Reader)
    requires Is(rd.cur, InstrMov) && rd.tk < |toks| && !MovDest(toks, rd.tk)
    ensures Dispatch(toks, rd).rd.diags.errors == rd.diags.errors + 1
    ensures Dispatch(toks, rd).b0 == None && Dispatch(toks, rd).b1 == None
  {
  }

  // ---------------------------------------------------------------------
  // or, and, xor, sub, subn
  // ---------------------------------------------------------------------

  predicate IsAlu(k: TokenType) {
    k in {InstrOr, InstrAnd, InstrXor, InstrSub, InstrSubn}
  }

  /** 8xy1, 8xy2, 8xy3, 8xy5 and 8xy7 with x = y = 0. */
  function AluCode(k: TokenType): nat {
    match k
    case InstrOr => 0x8001
    case InstrAnd => 0x8002
    case InstrXor => 0x8003
    case InstrSub => 0x8005
    case _ => 0x8007
  }

  function AluLow(k: TokenType): bv8 {
    match k
    case InstrOr => 0x01
    case InstrAnd => 0x02
    case InstrXor => 0x03
    case InstrSub => 0x05
    case _ => 0x07
  }

  lemma AluDispatch(toks: seq<Token>, rd: Reader)
    requires rd.cur.Tok? && IsAlu(rd.cur.kind)
    ensures Dispatch(toks, rd) == ParseAlu(toks, rd, AluLow(rd.cur.kind))
    ensures AluLow(rd.cur.kind) < 16 && 0x8000 + AluLow(rd.cur.kind) as nat == AluCode(rd.cur.kind)
  {
  }

  lemma AluShape(toks: seq<Token>, rd: Reader, low: bv8)
    requires RegComma(toks, rd.tk) && RegAt(toks, rd.tk + 2)
    ensures ParseAlu(toks, rd, low) == Word(After(toks, rd, 3), Or(0x80, Arg(toks, rd.tk)), Or(low, Arg(toks, rd.tk + 2) * 16))
  {
    var r1 := Expect(toks, rd, NameReg, ExpectedRegisterName);
    assert r1 == After(toks, rd, 1);
    var r2 := Expect(toks, r1, SymComma, ExpectedComma);
    assert r2 == After(toks, rd, 2);
  }

  /** `or`, `and`, `xor`, `sub` and `subn vx, vy` are 8xy1, 8xy2, 8xy3,
      8xy5 and 8xy7 (src/parser.c:305-430). */
  lemma AluWords(toks: seq<Token>, rd: Reader)
    requires rd.cur.Tok? && IsAlu(rd.cur.kind) && RegComma(toks, rd.tk) && RegAt(toks, rd.tk + 2)
    ensures Dispatch(toks, rd).rd == After(toks, rd, 3)
    ensures Dispatch(toks, rd).ref == None && Full(Dispatch(toks, rd))
    ensures WordOf(Dispatch(toks, rd)) == AluCode(rd.cur.kind) + Arg(toks, rd.tk) * 256 + Arg(toks, rd.tk + 2) * 16
  {
    AluDispatch(toks, rd);
    AluShape(toks, rd, AluLow(rd.cur.kind));
    RegRegWord(Dispatch(toks, rd), 0x80, Arg(toks, rd.tk), AluLow(rd.cur.kind), Arg(toks, rd.tk + 2));
  }

  /** Without a first register nothing is stored (src/parser.c:306-307). */
  lemma AluFirstMissing(toks: seq<Token>, rd: Reader)
    requires rd.cur.Tok? && IsAlu(rd.cur.kind) && rd.tk < |toks| && !At(toks, rd.tk, NameReg)
    ensures Dispatch(toks, rd).rd.diags.errors == rd.diags.errors + 1
    ensures Dispatch(toks, rd).b0 == None && Dispatch(toks, rd).b1 == None
  {
    AluDispatch(toks, rd);
  }

  // ---------------------------------------------------------------------
  // add
  // ---------------------------------------------------------------------

  /** `dst ,` read without an error; the source operand is next. */
  lemma AddOperands(toks: seq<Token>, rd: Reader)
    requires Is(rd.cur, InstrAdd) && (At(toks, rd.tk, NameReg) || At(toks, rd.tk, NameI)) && At(toks, rd.tk + 1, SymComma)
    ensures Dispatch(toks, rd) == AddSource(toks, After(toks, rd, 2), toks[rd.tk])
  {
    var r1 := NextTkn(toks, rd);
    assert r1 == After(toks, rd, 1);
    assert Expect(toks, r1, SymComma, ExpectedComma) == After(toks, rd, 2);
  }

  /** `add vx, vy` is 8xy4 (src/parser.c:518-520). */
  lemma AddRegWords(toks: seq<Token>, rd: Reader)
    requires Is(rd.cur, InstrAdd) && RegComma(toks, rd.tk) && RegAt(toks, rd.tk + 2)
    ensures Dispatch(toks, rd).rd == After(toks, rd, 3)
    ensures Dispatch(toks, rd).ref == None && Full(Dispatch(toks, rd))
    ensures WordOf(Dispatch(toks, rd)) == 0x8004 + Arg(toks, rd.tk) * 256 + Arg(toks, rd.tk + 2) * 16
  {
    AddOperands(toks, rd);
    assert NextTkn(toks, After(toks, rd, 2)) == After(toks, rd, 3);
    RegRegWord(Dispatch(toks, rd), 0x80, Arg(toks, rd.tk), 0x04, Arg(toks, rd.tk + 2));
  }

  /** `add vx, kk` is 7xkk with the low eight bits of kk; an immediate
      above 255 is counted as an error and stored anyway
      (src/parser.c:521-528). */
  lemma AddImmWords(toks: seq<Token>, rd: Reader)
    requires Is(rd.cur, InstrAdd) && RegComma(toks, rd.tk) && At(toks, rd.tk + 2, ConstInt)
    ensures Dispatch(toks, rd).rd.tk == rd.tk + 3
    ensures Dispatch(toks, rd).rd.diags.errors == rd.diags.errors + (if Arg(toks, rd.tk + 2) > 0xFF then 1 else 0)
    ensures Dispatch(toks, rd).ref == None && Full(Dispatch(toks, rd))
    ensures WordOf(Dispatch(toks, rd)) == 0x7000 + Arg(toks, rd.tk) * 256 + Arg(toks, rd.tk + 2) % 256
  {
    AddOperands(toks, rd);
    assert NextTkn(toks, After(toks, rd, 2)) == After(toks, rd, 3);
    RegImmWord(Dispatch(toks, rd), 0x70, Arg(toks, rd.tk), Arg(toks, rd.tk + 2));
  }

  /** `add I, vx` is Fx1E (src/parser.c:534-544). */
  lemma AddIndexWords(toks: seq<Token>, rd: Reader)
    requires Is(rd.cur, InstrAdd) && At(toks, rd.tk, NameI) && At(toks, rd.tk + 1, SymComma) && RegAt(toks, rd.tk + 2)
    ensures Dispatch(toks, rd).rd == After(toks, rd, 3)
    ensures Dispatch(toks, rd).ref == None && Full(Dispatch(toks, rd))
    ensures WordOf(Dispatch(toks, rd)) == 0xF01E + Arg(toks, rd.tk + 2) * 256
  {
    AddOperands(toks, rd);
    assert Expect(toks, After(toks, rd, 2), NameReg, ExpectedRegisterName) == After(toks, rd, 3);
    RegConstWord(Dispatch(toks, rd), 0xF0, Arg(toks, rd.tk + 2), 0x1E);
  }

  // ---------------------------------------------------------------------
  // rnd, drw
  // ---------------------------------------------------------------------

  /** `rnd vx, kk` is Cxkk with the low eight bits of kk; an immediate
      above 255 is counted as an error and stored anyway
      (src/parser.c:435-459). */
  lemma RndWords(toks: seq<Token>, rd: Reader)
    requires Is(rd.cur, InstrRnd) && RegComma(toks, rd.tk) && At(toks, rd.tk + 2, ConstInt)
    ensures Dispatch(toks, rd).rd.tk == rd.tk + 3
    ensures Dispatch(toks, rd).rd.diags.errors == rd.diags.errors + (if Arg(toks, rd.tk + 2) > 0xFF then 1 else 0)
    ensures Dispatch(toks, rd).ref == None && Full(Dispatch(toks, rd))
    ensures WordOf(Dispatch(toks, rd)) == 0xC000 + Arg(toks, rd.tk) * 256 + Arg(toks, rd.tk + 2) % 256
  {
    var r1 := Expect(toks, rd, NameReg, ExpectedRegisterName);
    assert r1 == After(toks, rd, 1);
    var r2 := Expect(toks, r1, SymComma, ExpectedComma);
    assert r2 == After(toks, rd, 2);
    assert Expect(toks, r2, ConstInt, ExpectedInt) == After(toks, rd, 3);
    RegImmWord(Dispatch(toks, rd), 0xC0, Arg(toks, rd.tk), Arg(toks, rd.tk + 2));
  }

  /** `vx , vy , n` read; what parse_drw stores. */
  lemma DrwShape(toks: seq<Token>, rd: Reader)
    requires Is(rd.cur, InstrDrw) && RegComma(toks, rd.tk) && RegComma(toks, rd.tk + 2) && At(toks, rd.tk + 4, ConstInt)
    ensures Dispatch(toks, rd) ==
      Word(Check(After(toks, rd, 5), Arg(toks, rd.tk + 4) <= 0xF, TooLargeFor4Bits),
           Or(0xD0, Arg(toks, rd.tk)), Byte(0, Arg(toks, rd.tk + 2) * 16, Arg(toks, rd.tk + 4)))
  {
    var b0 := Or(0xD0, Arg(toks, rd.tk));
    var y := Arg(toks, rd.tk + 2) * 16;
    ExpectStep(toks, rd, rd, 0, NameReg, ExpectedRegisterName);
    ExpectStep(toks, rd, After(toks, rd, 1), 1, SymComma, ExpectedComma);
    ExpectStep(toks, rd, After(toks, rd, 2), 2, NameReg, ExpectedRegisterName);
    ExpectStep(toks, rd, After(toks, rd, 3), 3, SymComma, ExpectedComma);
    ExpectStep(toks, rd, After(toks, rd, 4), 4, ConstInt, ExpectedInt);
    assert DrwSprite(toks, After(toks, rd, 2), b0) == DrwHeight(toks, After(toks, rd, 4), b0, y);
  }

  /** Token `rd.tk + m` has the expected type: it becomes current and
      nothing is reported. */
  lemma ExpectStep(toks: seq<Token>, rd: Reader, r: Reader, m: nat, k: TokenType, msg: Message)
    requires r.tk == rd.tk + m && r.diags == rd.diags && At(toks, rd.tk + m, k)
    ensures Expect(toks, r, k, msg) == After(toks, rd, m + 1)
  {
  }

  /** `drw vx, vy, n` is Dxyn (src/parser.c:464-502). */
  lemma DrwWords(toks: seq<Token>, rd: Reader)
    requires Is(rd.cur, InstrDrw) && RegComma(toks, rd.tk) && RegComma(toks, rd.tk + 2)
    requires At(toks, rd.tk + 4, ConstInt) && Arg(toks, rd.tk + 4) <= 0xF
    ensures Dispatch(toks, rd).rd == After(toks, rd, 5)
    ensures Dispatch(toks, rd).ref == None && Full(Dispatch(toks, rd))
    ensures WordOf(Dispatch(toks, rd)) == 0xD000 + Arg(toks, rd.tk) * 256 + Arg(toks, rd.tk + 2) * 16 + Arg(toks, rd.tk + 4)
  {
    DrwShape(toks, rd);
    SpriteWord(Dispatch(toks, rd), Arg(toks, rd.tk), Arg(toks, rd.tk + 2), Arg(toks, rd.tk + 4));
  }

  /** A height above 15 is counted as an error and the word is stored
      anyway (src/parser.c:486-491). */
  lemma DrwTooTall(toks: seq<Token>, rd: Reader)
    requires Is(rd.cur, InstrDrw) && RegComma(toks, rd.tk) && RegComma(toks, rd.tk + 2)
    requires At(toks, rd.tk + 4, ConstInt) && Arg(toks, rd.tk + 4) > 0xF
    ensures Dispatch(toks, rd).rd.tk == rd.tk + 5
    ensures Dispatch(toks, rd).rd.diags.errors == rd.diags.errors + 1
    ensures Full(Dispatch(toks, rd))
  {
    DrwShape(toks, rd);
  }
}
