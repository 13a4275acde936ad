/** The encoder as the source runs it: an `Encoder` object holds the
    globals of src/parser.c (`tkn_stream_ptr` as `tk`, `current_tkn` as
    `cur`, `outfile_buffer_ptr` as the word index `wp`, the label tables
    and the counters) and writes the output buffer in place through the
    current word, as `byte_ptr` does. Each method is proved to do what its
    namesake in EncoderSpec describes. */
module Encoder {
  import opened Tokens
  import opened Diagnostics
  import opened EncoderSpec

  class Encoder {
    const toks: seq<Token>
    const out: array<bv8>
    var tk: nat
    var cur: Token
    var diags: Diags
    var wp: nat
    var defs: seq<LabelDef>
    var refs: seq<LabelRef>
    /** What the current statement has stored through `byte_ptr[0]` and
        `byte_ptr[1]` so far; `Statement` writes it into `out`. */
    var byte0: Option<Byte>
    var byte1: Option<Byte>

    function Rd(): Reader
      reads this
    {
      Reader(tk, cur, diags)
    }

    function State(): EncState
      reads this, out
    {
      EncState(Rd(), wp, out[..], defs, refs)
    }

    /** The current word lies inside the buffer. */
    predicate InWord()
      reads this
    {
      out.Length == 2 * |toks| && wp < |toks|
    }

    /** Only the reader moved. */
    twostate predicate OnlyRead()
      reads this
    {
      wp == old(wp) && defs == old(defs) && refs == old(refs) &&
      byte0 == old(byte0) && byte1 == old(byte1)
    }

    predicate NothingStored()
      reads this
    {
      byte0 == None && byte1 == None
    }

    /** An operand parser's effect: the reader is `p.rd`, the bytes
        stored are those of `p` and its reference is pushed. */
    twostate predicate Stored(p: Parsed)
      reads this
    {
      Rd() == p.rd && wp == old(wp) && defs == old(defs) &&
      byte0 == p.b0 && byte1 == p.b1 && refs == old(refs) + RefAt(p.ref, wp)
    }

    /** The state main sets up before parse_tkn_stream: an output buffer
        of one word per token, empty label tables. The buffer's contents
        are left to malloc in C; here they are zeros. */
    constructor (stream: seq<Token>, d: Diags)
      ensures toks == stream && fresh(out) && State() == Initial(stream, d)
    {
      toks := stream;
      out := new bv8[2 * |stream|](_ => 0);
      tk, cur, diags := 0, Indeterminate, d;
      wp, defs, refs := 0, [], [];
      byte0, byte1 := None, None;
      new;
      assert out[..] == seq(2 * |stream|, _ => 0);
    }

    /** next_tkn (src/parser.h:42-44). */
    method Next()
      modifies this
      ensures Rd() == NextTkn(toks, old(Rd())) && OnlyRead()
    {
      if tk < |toks| {
        cur := toks[tk];
      } else {
        cur := Indeterminate;
      }
      tk := tk + 1;
    }

    method Error(m: Message)
      modifies this
      ensures Rd() == Err(old(Rd()), m) && OnlyRead()
    {
      diags := AddError(diags, LineOf(cur), ColOf(cur), m);
    }

    method CheckThat(ok: bool, m: Message)
      modifies this
      ensures Rd() == Check(old(Rd()), ok, m) && OnlyRead()
    {
      if !ok {
        Error(m);
      }
    }

    method ExpectTkn(k: TokenType, m: Message) returns (ok: bool)
      modifies this
      ensures Rd() == Expect(toks, old(Rd()), k, m) && OnlyRead() && ok == Is(cur, k)
    {
      Next();
      ok := Is(cur, k);
      CheckThat(ok, m);
    }

    /** push_label_ref (src/parser.c:31-48) for the current token. */
    method PushRef()
      requires cur.Tok?
      modifies this
      ensures Rd() == old(Rd()) && wp == old(wp) && defs == old(defs)
      ensures byte0 == old(byte0) && byte1 == old(byte1)
      ensures refs == old(refs) + RefAt(Some(cur), wp)
    {
      refs := refs + [LabelRef(cur.text, wp, cur.line, cur.col)];
    }

    /** parse_jmp, parse_vjmp, parse_call (src/parser.c:75-134). */
    method ParseAddr(op: bv8)
      requires NothingStored()
      modifies this
      ensures Stored(EncoderSpec.ParseAddr(toks, old(Rd()), op))
    {
      Next();
      if Is(cur, NameLblRef) {
        byte0 := Some(Bits(op));
        PushRef();
      } else if Is(cur, ConstInt) {
        if NumOf(cur) < CodeStart {
          diags := AddWarning(diags, cur.line, cur.col, LowAddress);
        }
        byte0 := Some(Or(op, Hi4(NumOf(cur))));
        byte1 := Some(Or(0, NumOf(cur)));
      } else {
        Error(ExpectedIntOrLabel);
      }
    }

    /** parse_sne, parse_se (src/parser.c:139-202). */
    method ParseSkip(immOp: bv8, regOp: bv8)
      requires NothingStored()
      modifies this
      ensures Stored(EncoderSpec.ParseSkip(toks, old(Rd()), immOp, regOp))
    {
      var _ := ExpectTkn(NameReg, ExpectedRegisterName);
      var x := NumOf(cur);
      var _ := ExpectTkn(SymComma, ExpectedComma);
      Next();
      if Is(cur, ConstInt) {
        if NumOf(cur) > 0xFF {
          diags := PrintOnly(diags, cur.line, cur.col, TooLargeFor8Bits);
        }
        byte0 := Some(Or(immOp, x));
        byte1 := Some(Or(0, NumOf(cur)));
      } else if Is(cur, NameReg) {
        byte0 := Some(Or(regOp, x));
        byte1 := Some(Or(0, NumOf(cur) * 16));
      } else {
        Error(ExpectedRegOrInt);
      }
    }

    /** parse_mov (src/parser.c:207-300). */
    method ParseMov()
      requires NothingStored()
      modifies this
      ensures Stored(EncoderSpec.ParseMov(toks, old(Rd())))
    {
      Next();
      var dst := cur;
      if !(Is(dst, NameReg) || Is(dst, NameSt) || Is(dst, NameDt) || Is(dst, NameI)) {
        Error(ExpectedName);
        return;
      }
      var ok := ExpectTkn(SymComma, ExpectedComma);
      if !ok {
        return;
      }
      MovSource(dst);
    }

    /** The source operand of parse_mov (src/parser.c:217-282). */
    method MovSource(dst: Token)
      requires NothingStored()
      modifies this
      ensures Stored(EncoderSpec.MovSource(toks, old(Rd()), dst))
    {
      Next();
      if Is(dst, NameReg) {
        if Is(cur, ConstInt) {
          if NumOf(cur) > 0xFF {
            Error(TooLargeFor8Bits);
            return;
          }
          byte0 := Some(Or(0x60, NumOf(dst)));
          byte1 := Some(Or(0, NumOf(cur)));
        } else if Is(cur, NameReg) {
          byte0 := Some(Or(0x80, NumOf(dst)));
          byte1 := Some(Or(0, NumOf(cur) * 16));
        } else if Is(cur, NameDt) {
          byte0 := Some(Or(0xF0, NumOf(dst)));
          byte1 := Some(Bits(0x07));
        } else {
          Error(ExpectedIntOrName);
        }
      } else if Is(dst, NameI) {
        if !Is(cur, ConstInt) {
          Error(ExpectedInt);
          return;
        }
        byte0 := Some(Or(0xA0, Hi4(NumOf(cur))));
        byte1 := Some(Or(0, NumOf(cur)));
      } else if !Is(cur, NameReg) {
        Error(ExpectedRegister);
      } else {
        byte0 := Some(Or(0xF0, NumOf(cur)));
        byte1 := Some(Bits(if Is(dst, NameSt) then 0x18 else 0x15));
      }
    }

    /** parse_or, parse_and, parse_xor, parse_sub, parse_subn
        (src/parser.c:305-430). */
    method ParseAlu(low: bv8)
      requires NothingStored()
      modifies this
      ensures Stored(EncoderSpec.ParseAlu(toks, old(Rd()), low))
    {
      var ok := ExpectTkn(NameReg, ExpectedRegisterName);
      if !ok {
        return;
      }
      byte0 := Some(Or(0x80, NumOf(cur)));
      var _ := ExpectTkn(SymComma, ExpectedComma);
      ok := ExpectTkn(NameReg, ExpectedRegisterName);
      if !ok {
        return;
      }
      byte1 := Some(Or(low, NumOf(cur) * 16));
    }

    /** parse_rnd (src/parser.c:435-459). */
    method ParseRnd()
      requires NothingStored()
      modifies this
      ensures Stored(EncoderSpec.ParseRnd(toks, old(Rd())))
    {
      var _ := ExpectTkn(NameReg, ExpectedRegisterName);
      byte0 := Some(Or(0xC0, NumOf(cur)));
      var _ := ExpectTkn(SymComma, ExpectedComma);
      var _ := ExpectTkn(ConstInt, ExpectedInt);
      CheckThat(NumOf(cur) <= 0xFF, TooLargeFor8Bits);
      byte1 := Some(Or(0, NumOf(cur)));
    }

    /** parse_drw (src/parser.c:464-502). */
    method ParseDrw()
      requires NothingStored()
      modifies this
      ensures Stored(EncoderSpec.ParseDrw(toks, old(Rd())))
    {
      var ok := ExpectTkn(NameReg, ExpectedRegisterName);
      if !ok {
        return;
      }
      var b0 := Or(0xD0, NumOf(cur));
      byte0 := Some(b0);
      ok := ExpectTkn(SymComma, ExpectedComma);
      if !ok {
        return;
      }
      DrwSprite(b0);
    }

    /** The second register and the height (src/parser.c:473-491), once
        the first byte `b0` is stored. */
    method DrwSprite(b0: Byte)
      requires byte0 == Some(b0) && byte1 == None
      modifies this
      ensures Stored(EncoderSpec.DrwSprite(toks, old(Rd()), b0))
    {
      var ok := ExpectTkn(NameReg, ExpectedRegisterName);
      if !ok {
        return;
      }
      var y := NumOf(cur) * 16;
      byte1 := Some(Or(0, y));
      ok := ExpectTkn(SymComma, ExpectedComma);
      if !ok {
        return;
      }
      var _ := ExpectTkn(ConstInt, ExpectedInt);
      CheckThat(NumOf(cur) <= 0xF, TooLargeFor4Bits);
      byte1 := Some(Byte(0, y, NumOf(cur)));
    }

    /** parse_add (src/parser.c:507-555). */
    method ParseAdd()
      requires NothingStored()
      modifies this
      ensures Stored(EncoderSpec.ParseAdd(toks, old(Rd())))
    {
      Next();
      var dst := cur;
      if !(Is(dst, NameReg) || Is(dst, NameI)) {
        Error(ExpectedRegOrName);
        return;
      }
      var ok := ExpectTkn(SymComma, ExpectedComma);
      if !ok {
        return;
      }
      AddSource(dst);
    }

    /** The source operand of parse_add (src/parser.c:517-544). */
    method AddSource(dst: Token)
      requires NothingStored()
      modifies this
      ensures Stored(EncoderSpec.AddSource(toks, old(Rd()), dst))
    {
      if Is(dst, NameI) {
        AddToIndex();
      } else {
        AddToReg(dst);
      }
    }

    method AddToIndex()
      requires NothingStored()
      modifies this
      ensures Stored(EncoderSpec.AddToIndex(toks, old(Rd())))
    {
      var _ := ExpectTkn(NameReg, ExpectedRegisterName);
      byte0 := Some(Or(0xF0, NumOf(cur)));
      byte1 := Some(Bits(0x1E));
    }

    method AddToReg(dst: Token)
      requires NothingStored()
      modifies this
      ensures Stored(EncoderSpec.AddToReg(toks, old(Rd()), dst))
    {
      Next();
      if Is(cur, NameReg) {
        byte0 := Some(Or(0x80, NumOf(dst)));
        byte1 := Some(Or(0x04, NumOf(cur) * 16));
      } else if Is(cur, ConstInt) {
        CheckThat(NumOf(cur) <= 0xFF, TooLargeFor8Bits);
        byte0 := Some(Or(0x70, NumOf(dst)));
        byte1 := Some(Or(0, NumOf(cur)));
      } else {
        Error(ExpectedRegOrInt);
      }
    }

    /** The one-register cases of src/parser.c:580-678. */
    method ParseOneReg(hi: bv8, lo: bv8)
      requires NothingStored()
      modifies this
      ensures Stored(EncoderSpec.ParseOneReg(toks, old(Rd()), hi, lo))
    {
      var _ := ExpectTkn(NameReg, ExpectedRegisterName);
      byte0 := Some(Or(hi, NumOf(cur)));
      byte1 := Some(Bits(lo));
    }

    /** The dispatch switch of src/parser.c:564-697, label definitions
        aside. */
    method Dispatch()
      requires NothingStored()
      modifies this
      ensures Stored(EncoderSpec.Dispatch(toks, old(Rd())))
    {
      if !cur.Tok? {
        Error(ExpectedDefOrMnemonic);
        return;
      }
      match cur.kind
      case InstrSe => ParseSkip(0x30, 0x50);
      case InstrOr => ParseAlu(0x01);
      case InstrJmp => ParseAddr(0x10);
      case InstrSne => ParseSkip(0x40, 0x90);
      case InstrMov => ParseMov();
      case InstrAnd => ParseAlu(0x02);
      case InstrXor => ParseAlu(0x03);
      case InstrAdd => ParseAdd();
      case InstrSub => ParseAlu(0x05);
      case InstrRnd => ParseRnd();
      case InstrDrw => ParseDrw();
      case InstrSubn => ParseAlu(0x07);
      case InstrVjmp => ParseAddr(0xB0);
      case InstrCall => ParseAddr(0x20);
      case InstrShl => ParseOneReg(0x80, 0x0E);
      case InstrShr => ParseOneReg(0x80, 0x06);
      case InstrWkp => ParseOneReg(0xF0, 0x0A);
      case InstrSkd => ParseOneReg(0xE0, 0x9E);
      case InstrSku => ParseOneReg(0xE0, 0xA1);
      case InstrLdf => ParseOneReg(0xF0, 0x29);
      case InstrBcd => ParseOneReg(0xF0, 0x33);
      case InstrLod => ParseOneReg(0xF0, 0x65);
      case InstrStr => ParseOneReg(0xF0, 0x55);
      case InstrCls =>
        byte0 := Some(Bits(0x00));
        byte1 := Some(Bits(0xE0));
      case InstrRet =>
        byte0 := Some(Bits(0x00));
        byte1 := Some(Bits(0xEE));
      case _ => Error(ExpectedDefOrMnemonic);
    }

    /** The current word as `byte_ptr` leaves it: each byte stored is
        written into the buffer, the others keep what they held. */
    method Store()
      requires InWord()
      modifies out
      ensures out[..] == Emit(old(out[..]), wp, byte0, byte1)
    {
      if byte0.Some? {
        out[2 * wp] := Value8(byte0.value);
      }
      if byte1.Some? {
        out[2 * wp + 1] := Value8(byte1.value);
      }
    }

    /** One pass of the loop body of parse_tkn_stream after its token was
        read (src/parser.c:562-699). */
    method Statement()
      requires InWord()
      modifies this, out
      ensures State() == EncoderSpec.Statement(toks, old(State()))
    {
      if Is(cur, NameLblDef) {
        defs := defs + [DefAt(cur, wp)];
        return;
      }
      byte0, byte1 := None, None;
      Dispatch();
      Store();
      wp := wp + 1;
    }

    /** parse_tkn_stream (src/parser.c:560-701). */
    method Run()
      requires LoopInv(toks, State())
      modifies this, out
      ensures State() == EncodeLoop(toks, old(State()))
    {
      while true
        invariant LoopInv(toks, State())
        invariant EncodeLoop(toks, State()) == EncodeLoop(toks, old(State()))
        decreases |toks| - tk
      {
        Next();
        if Overrun(toks, Rd()) || Is(cur, StreamEnd) {
          return;
        }
        Statement();
        if Overrun(toks, Rd()) {
          return;
        }
      }
    }
  }
}
