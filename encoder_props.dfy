/** What the encoder of src/parser.c promises, proved about EncoderSpec. */
module EncoderProps {
  import opened Tokens
  import opened Diagnostics
  import opened EncoderSpec

  // ---------------------------------------------------------------------
  // Reading past the sentinel only after an error
  // ---------------------------------------------------------------------

  /** Reading a token and testing it against anything but STREAM_END
      counts an error if the token read was the sentinel. */
  lemma ExpectReads(toks: seq<Token>, rd: Reader, k: TokenType, m: Message)
    requires k != StreamEnd
    ensures Reads(toks, rd, Expect(toks, rd, k, m))
  {
  }

  lemma ParseAddrReads(toks: seq<Token>, rd: Reader, op: bv8)
    ensures Reads(toks, rd, ParseAddr(toks, rd, op).rd)
  {
  }

  lemma ParseSkipReads(toks: seq<Token>, rd: Reader, immOp: bv8, regOp: bv8)
    ensures Reads(toks, rd, ParseSkip(toks, rd, immOp, regOp).rd)
  {
    var r1 := Expect(toks, rd, NameReg, ExpectedRegisterName);
    var r2 := Expect(toks, r1, SymComma, ExpectedComma);
    ExpectReads(toks, rd, NameReg, ExpectedRegisterName);
    ExpectReads(toks, r1, SymComma, ExpectedComma);
    assert Reads(toks, rd, r2);
  }

  lemma MovSourceReads(toks: seq<Token>, rd: Reader, dst: Token)
    ensures Reads(toks, rd, MovSource(toks, rd, dst).rd)
  {
  }

  lemma ParseMovReads(toks: seq<Token>, rd: Reader)
    ensures Reads(toks, rd, ParseMov(toks, rd).rd)
  {
    var r1 := NextTkn(toks, rd);
    ExpectReads(toks, r1, SymComma, ExpectedComma);
    MovSourceReads(toks, Expect(toks, r1, SymComma, ExpectedComma), r1.cur);
  }

  lemma ParseAluReads(toks: seq<Token>, rd: Reader, low: bv8)
    ensures Reads(toks, rd, ParseAlu(toks, rd, low).rd)
  {
    var r1 := Expect(toks, rd, NameReg, ExpectedRegisterName);
    var r2 := Expect(toks, r1, SymComma, ExpectedComma);
    ExpectReads(toks, rd, NameReg, ExpectedRegisterName);
    ExpectReads(toks, r1, SymComma, ExpectedComma);
    ExpectReads(toks, r2, NameReg, ExpectedRegisterName);
  }

  lemma ParseRndReads(toks: seq<Token>, rd: Reader)
    ensures Reads(toks, rd, ParseRnd(toks, rd).rd)
  {
    var r1 := Expect(toks, rd, NameReg, ExpectedRegisterName);
    var r2 := Expect(toks, r1, SymComma, ExpectedComma);
    ExpectReads(toks, rd, NameReg, ExpectedRegisterName);
    ExpectReads(toks, r1, SymComma, ExpectedComma);
    ExpectReads(toks, r2, ConstInt, ExpectedInt);
  }

  lemma DrwHeightReads(toks: seq<Token>, rd: Reader, b0: Byte, y: nat)
    ensures Reads(toks, rd, DrwHeight(toks, rd, b0, y).rd)
  {
    ExpectReads(toks, rd, ConstInt, ExpectedInt);
  }

  lemma DrwSpriteReads(toks: seq<Token>, rd: Reader, b0: Byte)
    ensures Reads(toks, rd, DrwSprite(toks, rd, b0).rd)
  {
    var r3 := Expect(toks, rd, NameReg, ExpectedRegisterName);
    var r4 := Expect(toks, r3, SymComma, ExpectedComma);
    ExpectReads(toks, rd, NameReg, ExpectedRegisterName);
    ExpectReads(toks, r3, SymComma, ExpectedComma);
    DrwHeightReads(toks, r4, b0, NumOf(r3.cur) * 16);
  }

  lemma ParseDrwReads(toks: seq<Token>, rd: Reader)
    ensures Reads(toks, rd, ParseDrw(toks, rd).rd)
  {
    var r1 := Expect(toks, rd, NameReg, ExpectedRegisterName);
    var r2 := Expect(toks, r1, SymComma, ExpectedComma);
    ExpectReads(toks, rd, NameReg, ExpectedRegisterName);
    ExpectReads(toks, r1, SymComma, ExpectedComma);
    DrwSpriteReads(toks, r2, Or(0xD0, NumOf(r1.cur)));
  }

  lemma ParseAddReads(toks: seq<Token>, rd: Reader)
    ensures Reads(toks, rd, ParseAdd(toks, rd).rd)
  {
    var r1 := NextTkn(toks, rd);
    var r2 := Expect(toks, r1, SymComma, ExpectedComma);
    ExpectReads(toks, r1, SymComma, ExpectedComma);
    ExpectReads(toks, r2, NameReg, ExpectedRegisterName);
  }

  lemma ParseOneRegReads(toks: seq<Token>, rd: Reader, hi: bv8, lo: bv8)
    ensures Reads(toks, rd, ParseOneReg(toks, rd, hi, lo).rd)
  {
    ExpectReads(toks, rd, NameReg, ExpectedRegisterName);
  }

  /** Every statement body reads forward and, if it reads the sentinel,
      counts an error for it. */
  lemma DispatchReads(toks: seq<Token>, rd: Reader)
    ensures Reads(toks, rd, Dispatch(toks, rd).rd)
  {
    if rd.cur.Tok? {
      match rd.cur.kind
      case InstrSe => ParseSkipReads(toks, rd, 0x30, 0x50);
      case InstrSne => ParseSkipReads(toks, rd, 0x40, 0x90);
      case InstrOr => ParseAluReads(toks, rd, 0x01);
      case InstrAnd => ParseAluReads(toks, rd, 0x02);
      case InstrXor => ParseAluReads(toks, rd, 0x03);
      case InstrSub => ParseAluReads(toks, rd, 0x05);
      case InstrSubn => ParseAluReads(toks, rd, 0x07);
      case InstrJmp => ParseAddrReads(toks, rd, 0x10);
      case InstrVjmp => ParseAddrReads(toks, rd, 0xB0);
      case InstrCall => ParseAddrReads(toks, rd, 0x20);
      case InstrMov => ParseMovReads(toks, rd);
      case InstrAdd => ParseAddReads(toks, rd);
      case InstrRnd => ParseRndReads(toks, rd);
      case InstrDrw => ParseDrwReads(toks, rd);
      case InstrShl => ParseOneRegReads(toks, rd, 0x80, 0x0E);
      case InstrShr => ParseOneRegReads(toks, rd, 0x80, 0x06);
      case InstrWkp => ParseOneRegReads(toks, rd, 0xF0, 0x0A);
      case InstrSkd => ParseOneRegReads(toks, rd, 0xE0, 0x9E);
      case InstrSku => ParseOneRegReads(toks, rd, 0xE0, 0xA1);
      case InstrLdf => ParseOneRegReads(toks, rd, 0xF0, 0x29);
      case InstrBcd => ParseOneRegReads(toks, rd, 0xF0, 0x33);
      case InstrLod => ParseOneRegReads(toks, rd, 0xF0, 0x65);
      case InstrStr => ParseOneRegReads(toks, rd, 0xF0, 0x55);
      case _ =>
    }
  }

  /** The dispatch loop never takes an error back, and from a loop head
      inside the stream, a run that ends past the stream has counted an
      error on the way. */
  lemma {:induction false} EncodeLoopReads(toks: seq<Token>, e: EncState)
    requires LoopInv(toks, e) && Terminated(toks)
    ensures Overrun(toks, EncodeLoop(toks, e).rd) ==> Reads(toks, e.rd, EncodeLoop(toks, e).rd)
    ensures EncodeLoop(toks, e).rd.diags.errors >= e.rd.diags.errors
    decreases |toks| - e.rd.tk
  {
    var e1 := e.(rd := NextTkn(toks, e.rd));
    if Overrun(toks, e1.rd) || Is(e1.rd.cur, StreamEnd) {
    } else {
      var e2 := Statement(toks, e1);
      if !Is(e1.rd.cur, NameLblDef) {
        DispatchReads(toks, e1.rd);
      }
      if !Overrun(toks, e2.rd) {
        EncodeLoopReads(toks, e2);
      }
    }
  }

  /** A truncated last instruction makes the encoder read past the
      sentinel (src/parser.h:42-44 never checks for it); whenever that
      happens an error has been counted, so the output gate refuses the
      image. Errors the scanner counted stay counted. */
  lemma OverrunIsReported(toks: seq<Token>, d: Diags)
    requires Terminated(toks)
    ensures Encode(toks, d).rd.diags.errors >= d.errors
    ensures Overrun(toks, Encode(toks, d).rd) ==> Encode(toks, d).rd.diags.errors > d.errors
  {
    EncodeLoopReads(toks, Initial(toks, d));
  }

  // ---------------------------------------------------------------------
  // Byte values
  // ---------------------------------------------------------------------

  lemma NibValue(n: nat)
    ensures Nib(n) as int == n % 16
  {
  }

  lemma HexDigits(n: nat)
    ensures (n / 16) % 16 * 16 + n % 16 == n % 256
  {
  }

  /** Or-ing a high nibble and a low nibble adds them. */
  lemma OrNibbles(hi: bv8, lo: bv8)
    requires hi & 0x0F == 0 && lo < 16
    ensures (hi | lo) as int == hi as int + lo as int
  {
  }

  lemma ShiftNibble(y: bv8)
    requires y < 16
    ensures (y << 4) as int == y as int * 16 && (y << 4) & 0x0F == 0
  {
  }

  /** Lo8 keeps the low eight bits. */
  lemma Lo8Value(n: nat)
    ensures Lo8(n) as int == n % 256
  {
    NibValue(n);
    NibValue(n / 16);
    ShiftNibble(Nib(n / 16));
    OrNibbles(Nib(n / 16) << 4, Nib(n));
    HexDigits(n);
  }

  /** The value of a stored byte whose parts occupy disjoint bits. */
  lemma ByteValue(x: Byte)
    requires x.k & 0x0F == 0 && x.a < 16 && x.b == 0
    ensures Value8(x) as int == x.k as int + x.a
  {
    assert Lo8(x.a) < 16 && Lo8(x.a) as int == x.a by {
      SmallLo8(x.a);
      NibValue(x.a);
    }
    assert Value8(x) == x.k | Lo8(x.a) by {
      assert Lo8(0) == 0;
    }
    OrNibbles(x.k, Lo8(x.a));
  }

  /** Or(0, n): an `int` stored into a byte. */
  lemma StoredInt(n: nat)
    ensures Value8(Or(0, n)) as int == n % 256
  {
    Lo8Value(n);
    Lo8Value(0);
    assert Lo8(0) == 0;
  }

  /** A byte-sized `n` stored into a byte is `n`. */
  lemma StoredByte(n: nat)
    requires n < 256
    ensures Value8(Or(0, n)) as int == n
  {
    StoredInt(n);
    SmallMod(n);
  }

  lemma SmallMod(n: nat)
    requires n < 256
    ensures n % 256 == n
  {
  }

  /** `y << 4` stored into a byte, for a register `y`. */
  lemma ShiftedRegister(y: nat)
    requires y < 16
    ensures Lo8(y * 16) == Nib(y) << 4
  {
    assert (y * 16) / 16 == y;
    assert (y * 16) % 16 == 0;
  }

  /** `low | (y << 4)`: a register in the high nibble of byte 1. */
  lemma RegisterNibble(low: bv8, y: nat)
    requires low < 16 && y < 16
    ensures Value8(Or(low, y * 16)) as int == y * 16 + low as int
  {
    ShiftedRegister(y);
    NibValue(y);
    ShiftNibble(Nib(y));
    assert Lo8(0) == 0;
    OrNibbles(Nib(y) << 4, low);
    assert Value8(Or(low, y * 16)) == (Nib(y) << 4) | low;
  }

  lemma SmallLo8(n: nat)
    requires n < 16
    ensures Lo8(n) == Nib(n)
  {
    assert n / 16 == 0;
    assert Nib(0) == 0;
  }

  /** drw's `(y << 4) | n`. */
  lemma SpriteNibbles(y: nat, n: nat)
    requires y < 16 && n < 16
    ensures Value8(Byte(0, y * 16, n)) as int == y * 16 + n
  {
    ShiftedRegister(y);
    NibValue(y);
    ShiftNibble(Nib(y));
    SmallLo8(n);
    NibValue(n);
    OrNibbles(Nib(y) << 4, Nib(n));
    assert Value8(Byte(0, y * 16, n)) == (Nib(y) << 4) | Nib(n);
  }

  /** `((n & 0xF00) >> 8) << 8 | (n & 0xFF)`: the low twelve bits. */
  lemma TwelveBits(n: nat)
    ensures Hi4(n) * 256 + n % 256 == n % 0x1000
  {
  }

  // ---------------------------------------------------------------------
  // The dispatch loop
  // ---------------------------------------------------------------------

  /** The address push_label_def records after `w` words. */
  function LabelAddr(w: nat): nat {
    (CodeStart + InstrSize * w) % 0x1_0000
  }

  /** Every definition records an even address, the address of a word
      up to `w` when those addresses do not wrap around. */
  predicate DefsWithin(defs: seq<LabelDef>, w: nat) {
    forall k :: 0 <= k < |defs| ==>
      defs[k].addr % 2 == 0 &&
      (CodeStart + InstrSize * w < 0x1_0000 ==> CodeStart <= defs[k].addr <= CodeStart + InstrSize * w)
  }

  lemma LabelAddrEven(w: nat)
    ensures LabelAddr(w) % 2 == 0
    ensures CodeStart + InstrSize * w < 0x1_0000 ==> LabelAddr(w) == CodeStart + InstrSize * w
  {
    var n := CodeStart + InstrSize * w;
    assert n == 2 * (0x100 + w);
    assert n % 0x1_0000 == n - n / 0x1_0000 * 0x1_0000;
    assert n % 0x1_0000 == 2 * ((0x100 + w) - n / 0x1_0000 * 0x8000);
  }

  /** One statement keeps every reference below the word cursor and every
      definition at an address up to it; earlier words, definitions and
      references stay as they were. */
  lemma StatementKeeps(toks: seq<Token>, e: EncState)
    requires |e.out| == 2 * |toks| && e.wp < |toks| && DefsWithin(e.defs, e.wp)
    ensures e.wp <= Statement(toks, e).wp <= e.wp + 1
    ensures DefsWithin(Statement(toks, e).defs, Statement(toks, e).wp)
  {
    if Is(e.rd.cur, NameLblDef) {
      var r := Statement(toks, e);
      LabelAddrEven(e.wp);
      assert r.defs[|e.defs|].addr == LabelAddr(e.wp);
      forall k | 0 <= k < |r.defs|
        ensures r.defs[k] == if k < |e.defs| then e.defs[k] else r.defs[|e.defs|]
      {
        if k < |e.defs| {
          assert r.defs[..|e.defs|][k] == e.defs[k];
        }
      }
    }
  }

  /** The dispatch loop never rewrites a word it has left behind, keeps
      the label tables it started with as prefixes, leaves every reference
      pointing at a word it wrote and every definition at the address of
      a word (src/parser.c:53-70, 560-701). */
  lemma {:induction false} EncodeLoopKeeps(toks: seq<Token>, e: EncState)
    requires LoopInv(toks, e) && DefsWithin(e.defs, e.wp)
    ensures e.wp <= EncodeLoop(toks, e).wp
    ensures forall i :: 0 <= i < 2 * e.wp ==> EncodeLoop(toks, e).out[i] == e.out[i]
    ensures e.defs <= EncodeLoop(toks, e).defs && e.refs <= EncodeLoop(toks, e).refs
    ensures RefsBelow(EncodeLoop(toks, e).refs, EncodeLoop(toks, e).wp)
    ensures DefsWithin(EncodeLoop(toks, e).defs, EncodeLoop(toks, e).wp)
    decreases |toks| - e.rd.tk
  {
    var e1 := e.(rd := NextTkn(toks, e.rd));
    if Overrun(toks, e1.rd) || Is(e1.rd.cur, StreamEnd) {
    } else {
      var e2 := Statement(toks, e1);
      StatementKeeps(toks, e1);
      assert e1.defs <= e2.defs && e1.refs <= e2.refs;
      if !Overrun(toks, e2.rd) {
        EncodeLoopKeeps(toks, e2);
        var r := EncodeLoop(toks, e2);
        assert EncodeLoop(toks, e) == r;
        forall i | 0 <= i < 2 * e.wp
          ensures r.out[i] == e.out[i]
        {
          assert i / 2 < e.wp;
        }
      }
    }
  }

  /** Over a whole stream: the tables end consistent with the words
      written, and there are at most as many words as tokens
      (src/main.c:104, src/parser.c:699). */
  lemma EncodeKeeps(toks: seq<Token>, d: Diags)
    ensures Encode(toks, d).wp <= |toks| && |Encode(toks, d).out| == 2 * |toks|
    ensures RefsBelow(Encode(toks, d).refs, Encode(toks, d).wp)
    ensures DefsWithin(Encode(toks, d).defs, Encode(toks, d).wp)
  {
    EncodeLoopKeeps(toks, Initial(toks, d));
  }

  /** The references point at strictly increasing words. */
  predicate RefsAscending(refs: seq<LabelRef>) {
    forall a, b :: 0 <= a < b < |refs| ==> refs[a].word < refs[b].word
  }

  /** A statement pushes its reference, if any, at the current word, above
      every reference before it (src/parser.c:31-48). */
  lemma StatementAscending(toks: seq<Token>, e: EncState)
    requires |e.out| == 2 * |toks| && e.wp < |toks| && RefsBelow(e.refs, e.wp) && RefsAscending(e.refs)
    ensures RefsAscending(Statement(toks, e).refs)
  {
    if !Is(e.rd.cur, NameLblDef) {
      var p := Dispatch(toks, e.rd);
      assert Statement(toks, e).refs == e.refs + RefAt(p.ref, e.wp);
    }
  }

  lemma {:induction false} EncodeLoopAscending(toks: seq<Token>, e: EncState)
    requires LoopInv(toks, e) && RefsAscending(e.refs)
    ensures RefsAscending(EncodeLoop(toks, e).refs)
    decreases |toks| - e.rd.tk
  {
    var e1 := e.(rd := NextTkn(toks, e.rd));
    if !(Overrun(toks, e1.rd) || Is(e1.rd.cur, StreamEnd)) {
      var e2 := Statement(toks, e1);
      StatementAscending(toks, e1);
      if !Overrun(toks, e2.rd) {
        EncodeLoopAscending(toks, e2);
      }
    }
  }

  /** No two references of a whole encoding share a word, so patching one
      never disturbs another. */
  lemma EncodeRefsAscending(toks: seq<Token>, d: Diags)
    ensures RefsAscending(Encode(toks, d).refs)
  {
    EncodeLoopAscending(toks, Initial(toks, d));
  }

  /** A stream holding only the sentinel encodes to no words, no labels
      and no new diagnostics (src/parser.c:561). */
  lemma EmptyStream(d: Diags)
    ensures Encode([EndToken], d).wp == 0 && Encode([EndToken], d).rd.diags == d
    ensures Encode([EndToken], d).defs == [] && Encode([EndToken], d).refs == []
  {
    var e := Initial([EndToken], d);
    assert NextTkn([EndToken], e.rd).cur == EndToken;
  }
}
