/** The encoder of src/parser.c as functions. The globals it works on are
    split in two: a `Reader` (the token cursor `tkn_stream_ptr`,
    `current_tkn` and the diagnostics), which every operand parser
    advances, and the rest of `EncState` (the output cursor
    `outfile_buffer_ptr` counted in words, the output buffer as bytes and
    the two label tables), which only the dispatch loop changes. An operand
    parser answers with the bytes it stores through `byte_ptr[0]` and
    `byte_ptr[1]` (nothing where it stores nothing) and the label reference
    it pushes, if any. */
module EncoderSpec {
  import opened Tokens
  import opened Diagnostics

  /** `addr` is `c8_addr`, a 16-bit unsigned field. */
  datatype LabelDef = LabelDef(text: string, addr: nat, line: int, col: int)

  /** `word` is the index of the instruction word to patch
      (`output_pos - outfile_buffer`). */
  datatype LabelRef = LabelRef(text: string, word: nat, line: int, col: int)

  /** `tk` counts the tokens read; once it exceeds the length of the
      stream a token beyond its end was read, what C does from there on is
      undefined, and the model stops. */
  datatype Reader = Reader(tk: nat, cur: Token, diags: Diags)

  /** A byte stored through `byte_ptr`: the constant bits `k` or-ed with
      the low eight bits of `a` and of `b`, which is how C truncates an
      `int` stored into a `uint8_t`. */
  datatype Byte = Byte(k: bv8, a: nat, b: nat)

  /** What an operand parser leaves: the reader, the final contents of the
      two bytes of the current word it stored to, and the reference token
      it pushed. */
  datatype Parsed = Parsed(rd: Reader, b0: Option<Byte>, b1: Option<Byte>, ref: Option<Token>)

  datatype EncState = EncState(rd: Reader, wp: nat, out: seq<bv8>, defs: seq<LabelDef>, refs: seq<LabelRef>)

  const CodeStart: nat := 0x200
  const InstrSize: nat := 2

  /** The low hex digit of `n` as a byte. */
  function Nib(n: nat): bv8 { (n % 16) as bv8 }

  /** The truncation of an `int` to `uint8_t`: its two low hex digits. */
  function Lo8(n: nat): bv8 { (Nib(n / 16) << 4) | Nib(n) }

  /** `(n & 0xF00) >> 8`. */
  function Hi4(n: nat): (r: nat)
    ensures r < 16
  {
    (n / 256) % 16
  }

  function Value8(x: Byte): bv8 { x.k | Lo8(x.a) | Lo8(x.b) }

  /** `k | n`, stored into a byte. */
  function Or(k: bv8, n: nat): Byte { Byte(k, n, 0) }

  /** `k`, stored into a byte. */
  function Bits(k: bv8): Byte { Byte(k, 0, 0) }

  /** A token beyond the end of the stream has been read. */
  predicate Overrun(toks: seq<Token>, rd: Reader) {
    rd.tk > |toks|
  }

  /** What every operand parser keeps: it reads forward, the error count
      only grows, and if it reads the sentinel it counts an error (no
      operand it accepts is the end of the stream), so it reads past the
      stream only after an error. */
  predicate Reads(toks: seq<Token>, rd: Reader, r: Reader) {
    r.tk >= rd.tk && r.diags.errors >= rd.diags.errors &&
    (Terminated(toks) && rd.tk < |toks| <= r.tk ==> r.diags.errors > rd.diags.errors)
  }

  /** next_tkn (src/parser.h:42-44). */
  function NextTkn(toks: seq<Token>, rd: Reader): (r: Reader)
    ensures r.tk == rd.tk + 1 && r.diags == rd.diags
    ensures rd.tk < |toks| ==> r.cur == toks[rd.tk]
    ensures Terminated(toks) && rd.tk < |toks| <= r.tk ==> r.cur == EndToken
  {
    if rd.tk < |toks| then rd.(tk := rd.tk + 1, cur := toks[rd.tk])
    else rd.(tk := rd.tk + 1, cur := Indeterminate)
  }

  /** An error reported, and counted, at the current token. */
  function Err(rd: Reader, m: Message): (r: Reader)
    ensures r.tk == rd.tk && r.cur == rd.cur
    ensures CountsGrow(rd.diags, r.diags) && r.diags.errors == rd.diags.errors + 1
  {
    rd.(diags := AddError(rd.diags, LineOf(rd.cur), ColOf(rd.cur), m))
  }

  /** `if (!ok) { print_msg(ERROR, ...); ++error_count; }`, going on either way. */
  function Check(rd: Reader, ok: bool, m: Message): (r: Reader)
    ensures r.tk == rd.tk && r.cur == rd.cur
    ensures CountsGrow(rd.diags, r.diags) && (!ok ==> r.diags.errors > rd.diags.errors)
  {
    if ok then rd else Err(rd, m)
  }

  /** `if (next_tkn().type != k) { print_msg(ERROR, ...); ++error_count; }`. */
  function Expect(toks: seq<Token>, rd: Reader, k: TokenType, m: Message): (r: Reader)
    ensures r.tk == rd.tk + 1 && (rd.tk < |toks| ==> r.cur == toks[rd.tk])
  {
    var r1 := NextTkn(toks, rd);
    Check(r1, Is(r1.cur, k), m)
  }

  /** Stores both bytes of the current word. */
  function Word(rd: Reader, b0: Byte, b1: Byte): Parsed {
    Parsed(rd, Some(b0), Some(b1), None)
  }

  /** Stores nothing after an error. */
  function Fail(rd: Reader, m: Message): Parsed {
    Parsed(Err(rd, m), None, None, None)
  }

  /** parse_jmp, parse_vjmp and parse_call (src/parser.c:75-134), which
      differ only in the opcode: 0x10, 0xB0, 0x20. */
  function ParseAddr(toks: seq<Token>, rd: Reader, op: bv8): (p: Parsed)
    ensures p.rd.tk >= rd.tk
  {
    var r1 := NextTkn(toks, rd);
    var t := r1.cur;
    if Is(t, NameLblRef) then Parsed(r1, Some(Bits(op)), None, Some(t))
    else if Is(t, ConstInt) then
      var r2 := if NumOf(t) < CodeStart then r1.(diags := AddWarning(r1.diags, t.line, t.col, LowAddress)) else r1;
      Word(r2, Or(op, Hi4(NumOf(t))), Or(0, NumOf(t)))
    else Fail(r1, ExpectedIntOrLabel)
  }

  /** parse_sne and parse_se (src/parser.c:139-202): opcodes 0x40 / 0x90
      and 0x30 / 0x50. A missing register or comma is counted and the
      parse goes on; an immediate above 255 is printed as an error but not
      counted. */
  function ParseSkip(toks: seq<Token>, rd: Reader, immOp: bv8, regOp: bv8): (p: Parsed)
    ensures p.rd.tk >= rd.tk
  {
    var r1 := Expect(toks, rd, NameReg, ExpectedRegisterName);
    var x := NumOf(r1.cur);
    var r2 := Expect(toks, r1, SymComma, ExpectedComma);
    var r5 := NextTkn(toks, r2);
    var t := r5.cur;
    if Is(t, ConstInt) then
      var r6 := if NumOf(t) > 0xFF then r5.(diags := PrintOnly(r5.diags, t.line, t.col, TooLargeFor8Bits)) else r5;
      Word(r6, Or(immOp, x), Or(0, NumOf(t)))
    else if Is(t, NameReg) then Word(r5, Or(regOp, x), Or(0, NumOf(t) * 16))
    else Fail(r5, ExpectedRegOrInt)
  }

  /** parse_mov (src/parser.c:207-300): every failed check ends the parse. */
  function ParseMov(toks: seq<Token>, rd: Reader): (p: Parsed)
    ensures p.rd.tk >= rd.tk
  {
    var r1 := NextTkn(toks, rd);
    var t1 := r1.cur;
    if !(Is(t1, NameReg) || Is(t1, NameSt) || Is(t1, NameDt) || Is(t1, NameI)) then Fail(r1, ExpectedName)
    else
      var r2 := Expect(toks, r1, SymComma, ExpectedComma);
      if !Is(r2.cur, SymComma) then Parsed(r2, None, None, None)
      else MovSource(toks, r2, t1)
  }

  /** The source operand of parse_mov, after the destination `dst` and the
      comma (src/parser.c:217-282). */
  function MovSource(toks: seq<Token>, rd: Reader, dst: Token): (p: Parsed)
    ensures p.rd.tk >= rd.tk
  {
    var r3 := NextTkn(toks, rd);
    var t3 := r3.cur;
    if Is(dst, NameReg) then
      if Is(t3, ConstInt) then
        if NumOf(t3) > 0xFF then Fail(r3, TooLargeFor8Bits)
        else Word(r3, Or(0x60, NumOf(dst)), Or(0, NumOf(t3)))
      else if Is(t3, NameReg) then Word(r3, Or(0x80, NumOf(dst)), Or(0, NumOf(t3) * 16))
      else if Is(t3, NameDt) then Word(r3, Or(0xF0, NumOf(dst)), Bits(0x07))
      else Fail(r3, ExpectedIntOrName)
    else if Is(dst, NameI) then
      if !Is(t3, ConstInt) then Fail(r3, ExpectedInt)
      else Word(r3, Or(0xA0, Hi4(NumOf(t3))), Or(0, NumOf(t3)))
    else if !Is(t3, NameReg) then Fail(r3, ExpectedRegister)
    else Word(r3, Or(0xF0, NumOf(t3)), Bits(if Is(dst, NameSt) then 0x18 else 0x15))
  }

  /** parse_or, parse_and, parse_xor, parse_sub and parse_subn
      (src/parser.c:305-430): 8xy1, 8xy2, 8xy3, 8xy5, 8xy7. A missing
      comma is counted and the parse goes on. */
  function ParseAlu(toks: seq<Token>, rd: Reader, low: bv8): (p: Parsed)
    ensures p.rd.tk >= rd.tk
  {
    var r1 := Expect(toks, rd, NameReg, ExpectedRegisterName);
    if !Is(r1.cur, NameReg) then Parsed(r1, None, None, None)
    else
      var b0 := Or(0x80, NumOf(r1.cur));
      var r2 := Expect(toks, r1, SymComma, ExpectedComma);
      var r3 := Expect(toks, r2, NameReg, ExpectedRegisterName);
      if !Is(r3.cur, NameReg) then Parsed(r3, Some(b0), None, None)
      else Word(r3, b0, Or(low, NumOf(r3.cur) * 16))
  }

  /** parse_rnd (src/parser.c:435-459): every check is counted and the
      parse goes on, so both bytes are always stored. */
  function ParseRnd(toks: seq<Token>, rd: Reader): (p: Parsed)
    ensures p.rd.tk >= rd.tk
  {
    var r1 := Expect(toks, rd, NameReg, ExpectedRegisterName);
    var r2 := Expect(toks, r1, SymComma, ExpectedComma);
    var r3 := Expect(toks, r2, ConstInt, ExpectedInt);
    var r4 := Check(r3, NumOf(r3.cur) <= 0xFF, TooLargeFor8Bits);
    Word(r4, Or(0xC0, NumOf(r1.cur)), Or(0, NumOf(r3.cur)))
  }

  /** parse_drw (src/parser.c:464-502): a missing register or comma ends
      the parse, a bad height is counted and stored anyway. */
  function ParseDrw(toks: seq<Token>, rd: Reader): (p: Parsed)
    ensures p.rd.tk >= rd.tk
  {
    var r1 := Expect(toks, rd, NameReg, ExpectedRegisterName);
    if !Is(r1.cur, NameReg) then Parsed(r1, None, None, None)
    else
      var b0 := Or(0xD0, NumOf(r1.cur));
      var r2 := Expect(toks, r1, SymComma, ExpectedComma);
      if !Is(r2.cur, SymComma) then Parsed(r2, Some(b0), None, None)
      else DrwSprite(toks, r2, b0)
  }

  /** The second register and the height of parse_drw
      (src/parser.c:473-491), after the first byte `b0` was stored. */
  function DrwSprite(toks: seq<Token>, rd: Reader, b0: Byte): (p: Parsed)
    ensures p.rd.tk >= rd.tk
  {
    var r3 := Expect(toks, rd, NameReg, ExpectedRegisterName);
    if !Is(r3.cur, NameReg) then Parsed(r3, Some(b0), None, None)
    else
      var y := NumOf(r3.cur) * 16;
      var r4 := Expect(toks, r3, SymComma, ExpectedComma);
      if !Is(r4.cur, SymComma) then Parsed(r4, Some(b0), Some(Or(0, y)), None)
      else DrwHeight(toks, r4, b0, y)
  }

  /** The height operand of parse_drw (src/parser.c:481-491): the second
      byte becomes `y | n`. */
  function DrwHeight(toks: seq<Token>, rd: Reader, b0: Byte, y: nat): (p: Parsed)
    ensures p.rd.tk >= rd.tk
  {
    var r5 := Expect(toks, rd, ConstInt, ExpectedInt);
    var r6 := Check(r5, NumOf(r5.cur) <= 0xF, TooLargeFor4Bits);
    Word(r6, b0, Byte(0, y, NumOf(r5.cur)))
  }

  /** parse_add (src/parser.c:507-555). */
  function ParseAdd(toks: seq<Token>, rd: Reader): (p: Parsed)
    ensures p.rd.tk >= rd.tk
  {
    var r1 := NextTkn(toks, rd);
    var t1 := r1.cur;
    if !(Is(t1, NameReg) || Is(t1, NameI)) then Fail(r1, ExpectedRegOrName)
    else
      var r2 := Expect(toks, r1, SymComma, ExpectedComma);
      if !Is(r2.cur, SymComma) then Parsed(r2, None, None, None)
      else AddSource(toks, r2, t1)
  }

  /** The source operand of parse_add, after the destination `dst` and the
      comma (src/parser.c:517-544). */
  function AddSource(toks: seq<Token>, rd: Reader, dst: Token): (p: Parsed)
    ensures p.rd.tk >= rd.tk
  {
    if Is(dst, NameI) then AddToIndex(toks, rd) else AddToReg(toks, rd, dst)
  }

  /** `add I, vx` (src/parser.c:534-544): Fx1E; a missing register is
      counted and the word stored anyway. */
  function AddToIndex(toks: seq<Token>, rd: Reader): (p: Parsed)
    ensures p.rd.tk >= rd.tk
  {
    var r3 := Expect(toks, rd, NameReg, ExpectedRegisterName);
    Word(r3, Or(0xF0, NumOf(r3.cur)), Bits(0x1E))
  }

  /** `add vx, vy` is 8xy4 and `add vx, k` is 7xkk (src/parser.c:517-533);
      an immediate above 255 is counted and stored anyway. */
  function AddToReg(toks: seq<Token>, rd: Reader, dst: Token): (p: Parsed)
    ensures p.rd.tk >= rd.tk
  {
    var r3 := NextTkn(toks, rd);
    var t3 := r3.cur;
    if Is(t3, NameReg) then Word(r3, Or(0x80, NumOf(dst)), Or(0x04, NumOf(t3) * 16))
    else if Is(t3, ConstInt) then
      Word(Check(r3, NumOf(t3) <= 0xFF, TooLargeFor8Bits), Or(0x70, NumOf(dst)), Or(0, NumOf(t3)))
    else Fail(r3, ExpectedRegOrInt)
  }

  /** The one-register mnemonics of src/parser.c:580-678: shl 8x0E,
      shr 8x06, wkp Fx0A, skd Ex9E, sku ExA1, ldf Fx29, bcd Fx33, lod Fx65,
      str Fx55. A missing register is counted and the word stored anyway. */
  function ParseOneReg(toks: seq<Token>, rd: Reader, hi: bv8, lo: bv8): (p: Parsed)
    ensures p.rd.tk >= rd.tk
  {
    var r1 := Expect(toks, rd, NameReg, ExpectedRegisterName);
    Word(r1, Or(hi, NumOf(r1.cur)), Bits(lo))
  }

  /** The body of the dispatch switch for the current token
      (src/parser.c:564-697), label definitions aside. */
  function Dispatch(toks: seq<Token>, rd: Reader): (p: Parsed)
    ensures p.rd.tk >= rd.tk
  {
    if !rd.cur.Tok? then Fail(rd, ExpectedDefOrMnemonic)
    else match rd.cur.kind
      case InstrSe => ParseSkip(toks, rd, 0x30, 0x50)
      case InstrOr => ParseAlu(toks, rd, 0x01)
      case InstrJmp => ParseAddr(toks, rd, 0x10)
      case InstrSne => ParseSkip(toks, rd, 0x40, 0x90)
      case InstrMov => ParseMov(toks, rd)
      case InstrAnd => ParseAlu(toks, rd, 0x02)
      case InstrXor => ParseAlu(toks, rd, 0x03)
      case InstrAdd => ParseAdd(toks, rd)
      case InstrSub => ParseAlu(toks, rd, 0x05)
      case InstrRnd => ParseRnd(toks, rd)
      case InstrDrw => ParseDrw(toks, rd)
      case InstrSubn => ParseAlu(toks, rd, 0x07)
      case InstrVjmp => ParseAddr(toks, rd, 0xB0)
      case InstrCall => ParseAddr(toks, rd, 0x20)
      case InstrShl => ParseOneReg(toks, rd, 0x80, 0x0E)
      case InstrShr => ParseOneReg(toks, rd, 0x80, 0x06)
      case InstrWkp => ParseOneReg(toks, rd, 0xF0, 0x0A)
      case InstrSkd => ParseOneReg(toks, rd, 0xE0, 0x9E)
      case InstrSku => ParseOneReg(toks, rd, 0xE0, 0xA1)
      case InstrLdf => ParseOneReg(toks, rd, 0xF0, 0x29)
      case InstrBcd => ParseOneReg(toks, rd, 0xF0, 0x33)
      case InstrLod => ParseOneReg(toks, rd, 0xF0, 0x65)
      case InstrStr => ParseOneReg(toks, rd, 0xF0, 0x55)
      case InstrCls => Word(rd, Bits(0x00), Bits(0xE0))
      case InstrRet => Word(rd, Bits(0x00), Bits(0xEE))
      case _ => Fail(rd, ExpectedDefOrMnemonic)
  }

  /** Stores the parsed bytes into word `w` of the buffer. */
  function Emit(out: seq<bv8>, w: nat, b0: Option<Byte>, b1: Option<Byte>): (r: seq<bv8>)
    requires 2 * w + 1 < |out|
    ensures |r| == |out|
    ensures forall i :: 0 <= i < |out| && i != 2 * w && i != 2 * w + 1 ==> r[i] == out[i]
    ensures r[2 * w] == (if b0.Some? then Value8(b0.value) else out[2 * w])
    ensures r[2 * w + 1] == (if b1.Some? then Value8(b1.value) else out[2 * w + 1])
  {
    var o := if b0.Some? then out[2 * w := Value8(b0.value)] else out;
    if b1.Some? then o[2 * w + 1 := Value8(b1.value)] else o
  }

  /** push_label_ref (src/parser.c:31-48): the reference points at word `w`. */
  function RefAt(ref: Option<Token>, w: nat): (r: seq<LabelRef>)
    ensures |r| <= 1 && forall k :: 0 <= k < |r| ==> r[k].word == w
  {
    match ref
    case Some(Tok(_, line, col, _, text)) => [LabelRef(text, w, line, col)]
    case _ => []
  }

  /** push_label_def (src/parser.c:53-70): the label stands for the address
      of the next word, truncated to 16 bits. */
  function DefAt(t: Token, w: nat): LabelDef {
    LabelDef(if t.Tok? then t.text else "", (CodeStart + w * InstrSize) % 0x1_0000, LineOf(t), ColOf(t))
  }

  /** The invariant of the encoding loop: the buffer has two bytes per
      token, no more words were written than tokens read, the cursor is
      still inside the stream, and every reference points at a word
      already written. */
  predicate LoopInv(toks: seq<Token>, e: EncState) {
    |e.out| == 2 * |toks| && e.wp <= e.rd.tk <= |toks| && RefsBelow(e.refs, e.wp)
  }

  /** Every reference points at a word below `w`. */
  predicate RefsBelow(refs: seq<LabelRef>, w: nat) {
    forall k :: 0 <= k < |refs| ==> refs[k].word < w
  }

  /** One pass of the dispatch loop after its token was read
      (src/parser.c:562-699): a label definition is recorded and emits no
      word; every other token emits one word, an unexpected one after an
      error. */
  function Statement(toks: seq<Token>, e: EncState): (r: EncState)
    requires |e.out| == 2 * |toks| && e.wp < |toks|
    ensures |r.out| == |e.out| && r.rd.tk >= e.rd.tk
    ensures RefsBelow(e.refs, e.wp) ==> RefsBelow(r.refs, r.wp)
    ensures Is(e.rd.cur, NameLblDef) ==>
      r.rd == e.rd && r.wp == e.wp && r.out == e.out && r.refs == e.refs &&
      |r.defs| == |e.defs| + 1 && r.defs[..|e.defs|] == e.defs &&
      r.defs[|e.defs|].addr == (CodeStart + InstrSize * e.wp) % 0x1_0000
    ensures !Is(e.rd.cur, NameLblDef) ==>
      r.wp == e.wp + 1 && r.defs == e.defs && |r.refs| >= |e.refs| && r.refs[..|e.refs|] == e.refs &&
      forall i :: 0 <= i < |e.out| && i / 2 != e.wp ==> r.out[i] == e.out[i]
  {
    if Is(e.rd.cur, NameLblDef) then e.(defs := e.defs + [DefAt(e.rd.cur, e.wp)])
    else
      var p := Dispatch(toks, e.rd);
      EncState(p.rd, e.wp + 1, Emit(e.out, e.wp, p.b0, p.b1), e.defs, e.refs + RefAt(p.ref, e.wp))
  }

  /** parse_tkn_stream (src/parser.c:560-701): read a token; stop at the
      sentinel, otherwise encode one statement. The loop also stops once a
      token past the stream has been read. */
  function EncodeLoop(toks: seq<Token>, e: EncState): (r: EncState)
    requires LoopInv(toks, e)
    ensures |r.out| == |e.out| && r.wp <= |toks| && r.rd.tk > e.rd.tk
    decreases |toks| - e.rd.tk
  {
    var e1 := e.(rd := NextTkn(toks, e.rd));
    if Overrun(toks, e1.rd) || Is(e1.rd.cur, StreamEnd) then e1
    else
      var e2 := Statement(toks, e1);
      if Overrun(toks, e2.rd) then e2 else EncodeLoop(toks, e2)
  }

  /** The buffers as main allocates them: no words, no labels, one word of
      output per token. */
  function Initial(toks: seq<Token>, d: Diags): (e: EncState)
    ensures LoopInv(toks, e) && e.out == seq(2 * |toks|, _ => 0) && e.rd.diags == d
  {
    EncState(Reader(0, Indeterminate, d), 0, seq(2 * |toks|, _ => 0), [], [])
  }

  /** The encoder run over a whole stream, after the scanner left `d`. */
  function Encode(toks: seq<Token>, d: Diags): EncState {
    EncodeLoop(toks, Initial(toks, d))
  }
}
