/** One program taken through every phase of main (src/main.c:55-167):
    a load of an immediate, a jump forward to a label, the label, and a
    clear. Every step of the scan and of the encoding is a lemma of its
    own; the characters a step reads are its preconditions, so that no
    step has to look into the whole source text. */
module Walkthrough {
  import opened CharClass
  import opened Tokens
  import opened Diagnostics
  import opened LexerSpec
  import opened LexerProps
  import opened EncoderSpec
  import opened Encodings
  import opened ResolverSpec
  import opened Pipeline

  const Program: string := "mov v0, 5\njmp target\ntarget:\ncls"

  /** The characters of Program, one by one. */
  predicate IsProgram(input: string) {
    |input| == 32 &&
    input[0] == 'm' && input[1] == 'o' && input[2] == 'v' && input[3] == ' ' &&
    input[4] == 'v' && input[5] == '0' && input[6] == ',' && input[7] == ' ' &&
    input[8] == '5' && input[9] == '\n' &&
    input[10] == 'j' && input[11] == 'm' && input[12] == 'p' && input[13] == ' ' &&
    input[14] == 't' && input[15] == 'a' && input[16] == 'r' && input[17] == 'g' &&
    input[18] == 'e' && input[19] == 't' && input[20] == '\n' &&
    input[21] == 't' && input[22] == 'a' && input[23] == 'r' && input[24] == 'g' &&
    input[25] == 'e' && input[26] == 't' && input[27] == ':' && input[28] == '\n' &&
    input[29] == 'c' && input[30] == 'l' && input[31] == 's'
  }

  lemma ProgramIs()
    ensures IsProgram(Program)
  {
    ProgramChars0();
    ProgramChars6();
    ProgramChars12();
    ProgramChars18();
    ProgramChars24();
  }

  lemma ProgramChars0()
    ensures |Program| == 32 && Program[0] == 'm' && Program[1] == 'o' && Program[2] == 'v' && Program[3] == ' ' && Program[4] == 'v' && Program[5] == '0'
  {
  }

  lemma ProgramChars6()
    ensures Program[6] == ',' && Program[7] == ' ' && Program[8] == '5' && Program[9] == '\n' && Program[10] == 'j' && Program[11] == 'm'
  {
  }

  lemma ProgramChars12()
    ensures Program[12] == 'p' && Program[13] == ' ' && Program[14] == 't' && Program[15] == 'a' && Program[16] == 'r' && Program[17] == 'g'
  {
  }

  lemma ProgramChars18()
    ensures Program[18] == 'e' && Program[19] == 't' && Program[20] == '\n' && Program[21] == 't' && Program[22] == 'a' && Program[23] == 'r'
  {
  }

  lemma ProgramChars24()
    ensures Program[24] == 'g' && Program[25] == 'e' && Program[26] == 't' && Program[27] == ':' && Program[28] == '\n' && Program[29] == 'c' && Program[30] == 'l' && Program[31] == 's'
  {
  }

  // ---------------------------------------------------------------------
  // Keywords

  /** A keyword is found at `k` when no earlier keyword starts with its
      first letter. */
  lemma KeywordAt(name: string, k: nat)
    requires k < |Keywords| && Keywords[k] == name
    requires forall j :: 0 <= j < k ==> Keywords[j][0] != name[0]
    ensures KeywordIndex(name) == k
  {
    forall j | 0 <= j < k ensures Keywords[j] != name {
      assert Keywords[j][0] != name[0];
    }
  }

  lemma ProgramKeywords()
    ensures NameToken("mov", 1, 1) == Tok(InstrMov, 1, 1, 0, "")
    ensures NameToken("jmp", 2, 1) == Tok(InstrJmp, 2, 1, 0, "")
    ensures NameToken("cls", 4, 1) == Tok(InstrCls, 4, 1, 0, "")
  {
    KeywordAt("mov", 7);
    KeywordAt("jmp", 1);
    KeywordAt("cls", 0);
  }

  lemma TargetIsLabel()
    ensures NameToken("target", 2, 5) == Tok(NameLblRef, 2, 5, 0, "target")
  {
    forall j | 0 <= j < |Keywords| ensures Keywords[j] != "target" {
      assert Keywords[j][0] != 't' || |Keywords[j]| != 6;
    }
    ReferenceToken("target", 2, 5);
  }

  // ---------------------------------------------------------------------
  // The steps of the scan loop

  /** A letter: the scan loop hands it to lex_name. */
  lemma NameStep(input: string, s: LexState)
    requires s.pos <= |input| && IsAlpha(s.cur) && s.cur != 'I' as int
    ensures ScanStep(input, s) == Emits(LexName(input, s).0, LexName(input, s).1)
  {
    assert !IsDec(s.cur) && s.cur != Value(SymComma) && s.cur != Value(NameI) by { CharValues(); }
  }

  /** A name that is not a register takes the label path of lex_name. */
  lemma LabelStep(input: string, s: LexState, name: string, s1: LexState)
    requires s.pos <= |input| && IsAlpha(s.cur) && s.cur != 'I' as int && !IsRegisterStart(input, s)
    requires Accumulate(input, s, "") == (name, s1) && |name| < 32
    ensures ScanStep(input, s) == Emits(LabelTail(input, name, s1, s.line, s.col).0, LabelTail(input, name, s1, s.line, s.col).1)
  {
    NameStep(input, s);
    assert LexName(input, s) == LexLabel(input, s);
    assert LengthCheck(name, s1, s.line, s.col) == s1;
  }

  /** One pass of the `for` loop of lex_name. */
  lemma AccStep(input: string, s: LexState, name: string, s1: LexState, next: string)
    requires s.pos <= |input| && |name| < 32 && IsLabelChar(s.cur)
    requires NextChar(input, s) == s1 && next == name + [s.cur as char]
    ensures Accumulate(input, s, name) == Accumulate(input, s1, next)
  {
  }

  /** The loop of lex_name over `mov`. */
  lemma MovRun(input: string)
    requires IsProgram(input)
    ensures Accumulate(input, LexState(1, 'm' as int, 1, 1, NoDiags), "") == ("mov", LexState(4, ' ' as int, 1, 4, NoDiags))
  {
    AccStep(input, LexState(1, 'm' as int, 1, 1, NoDiags), "", LexState(2, 'o' as int, 1, 2, NoDiags), "m");
    AccStep(input, LexState(2, 'o' as int, 1, 2, NoDiags), "m", LexState(3, 'v' as int, 1, 3, NoDiags), "mo");
    AccStep(input, LexState(3, 'v' as int, 1, 3, NoDiags), "mo", LexState(4, ' ' as int, 1, 4, NoDiags), "mov");
  }

  /** `mov` is a keyword. */
  lemma MovStep(input: string)
    requires IsProgram(input)
    ensures ScanStep(input, LexState(1, 'm' as int, 1, 1, NoDiags)) == Emits(Tok(InstrMov, 1, 1, 0, ""), LexState(4, ' ' as int, 1, 4, NoDiags))
  {
    MovRun(input);
    LabelStep(input, LexState(1, 'm' as int, 1, 1, NoDiags), "mov", LexState(4, ' ' as int, 1, 4, NoDiags));
    ProgramKeywords();
  }

  /** The loop of lex_name over `jmp`. */
  lemma JmpRun(input: string)
    requires IsProgram(input)
    ensures Accumulate(input, LexState(11, 'j' as int, 2, 1, NoDiags), "") == ("jmp", LexState(14, ' ' as int, 2, 4, NoDiags))
  {
    AccStep(input, LexState(11, 'j' as int, 2, 1, NoDiags), "", LexState(12, 'm' as int, 2, 2, NoDiags), "j");
    AccStep(input, LexState(12, 'm' as int, 2, 2, NoDiags), "j", LexState(13, 'p' as int, 2, 3, NoDiags), "jm");
    AccStep(input, LexState(13, 'p' as int, 2, 3, NoDiags), "jm", LexState(14, ' ' as int, 2, 4, NoDiags), "jmp");
  }

  /** `jmp` is a keyword. */
  lemma JmpStep(input: string)
    requires IsProgram(input)
    ensures ScanStep(input, LexState(11, 'j' as int, 2, 1, NoDiags)) == Emits(Tok(InstrJmp, 2, 1, 0, ""), LexState(14, ' ' as int, 2, 4, NoDiags))
  {
    JmpRun(input);
    LabelStep(input, LexState(11, 'j' as int, 2, 1, NoDiags), "jmp", LexState(14, ' ' as int, 2, 4, NoDiags));
    ProgramKeywords();
  }

  /** The first three passes of the loop of lex_name over `target`. */
  lemma TargetRefHead(input: string)
    requires IsProgram(input)
    ensures Accumulate(input, LexState(15, 't' as int, 2, 5, NoDiags), "") == Accumulate(input, LexState(18, 'g' as int, 2, 8, NoDiags), "tar")
  {
    AccStep(input, LexState(15, 't' as int, 2, 5, NoDiags), "", LexState(16, 'a' as int, 2, 6, NoDiags), "t");
    AccStep(input, LexState(16, 'a' as int, 2, 6, NoDiags), "t", LexState(17, 'r' as int, 2, 7, NoDiags), "ta");
    AccStep(input, LexState(17, 'r' as int, 2, 7, NoDiags), "ta", LexState(18, 'g' as int, 2, 8, NoDiags), "tar");
  }

  /** The loop of lex_name over `target`. */
  lemma TargetRefRun(input: string)
    requires IsProgram(input)
    ensures Accumulate(input, LexState(15, 't' as int, 2, 5, NoDiags), "") == ("target", LexState(21, '\n' as int, 3, 0, NoDiags))
  {
    TargetRefHead(input);
    AccStep(input, LexState(18, 'g' as int, 2, 8, NoDiags), "tar", LexState(19, 'e' as int, 2, 9, NoDiags), "targ");
    AccStep(input, LexState(19, 'e' as int, 2, 9, NoDiags), "targ", LexState(20, 't' as int, 2, 10, NoDiags), "targe");
    AccStep(input, LexState(20, 't' as int, 2, 10, NoDiags), "targe", LexState(21, '\n' as int, 3, 0, NoDiags), "target");
  }

  /** `target` at the end of a line is a reference. */
  lemma TargetRefStep(input: string)
    requires IsProgram(input)
    ensures ScanStep(input, LexState(15, 't' as int, 2, 5, NoDiags)) == Emits(Tok(NameLblRef, 2, 5, 0, "target"), LexState(21, '\n' as int, 3, 0, NoDiags))
  {
    TargetRefRun(input);
    LabelStep(input, LexState(15, 't' as int, 2, 5, NoDiags), "target", LexState(21, '\n' as int, 3, 0, NoDiags));
    TargetIsLabel();
  }

  /** The first three passes of the loop of lex_name over `target`. */
  lemma TargetDefHead(input: string)
    requires IsProgram(input)
    ensures Accumulate(input, LexState(22, 't' as int, 3, 1, NoDiags), "") == Accumulate(input, LexState(25, 'g' as int, 3, 4, NoDiags), "tar")
  {
    AccStep(input, LexState(22, 't' as int, 3, 1, NoDiags), "", LexState(23, 'a' as int, 3, 2, NoDiags), "t");
    AccStep(input, LexState(23, 'a' as int, 3, 2, NoDiags), "t", LexState(24, 'r' as int, 3, 3, NoDiags), "ta");
    AccStep(input, LexState(24, 'r' as int, 3, 3, NoDiags), "ta", LexState(25, 'g' as int, 3, 4, NoDiags), "tar");
  }

  /** The loop of lex_name over `target`. */
  lemma TargetDefRun(input: string)
    requires IsProgram(input)
    ensures Accumulate(input, LexState(22, 't' as int, 3, 1, NoDiags), "") == ("target", LexState(28, ':' as int, 3, 7, NoDiags))
  {
    TargetDefHead(input);
    AccStep(input, LexState(25, 'g' as int, 3, 4, NoDiags), "tar", LexState(26, 'e' as int, 3, 5, NoDiags), "targ");
    AccStep(input, LexState(26, 'e' as int, 3, 5, NoDiags), "targ", LexState(27, 't' as int, 3, 6, NoDiags), "targe");
    AccStep(input, LexState(27, 't' as int, 3, 6, NoDiags), "targe", LexState(28, ':' as int, 3, 7, NoDiags), "target");
  }

  /** `target:` is a definition; the colon is consumed. */
  lemma TargetDefStep(input: string)
    requires IsProgram(input)
    ensures ScanStep(input, LexState(22, 't' as int, 3, 1, NoDiags)) == Emits(Tok(NameLblDef, 3, 1, 0, "target"), LexState(29, '\n' as int, 4, 0, NoDiags))
  {
    TargetDefRun(input);
    LabelStep(input, LexState(22, 't' as int, 3, 1, NoDiags), "target", LexState(28, ':' as int, 3, 7, NoDiags));
  }

  /** The loop of lex_name over `cls`. */
  lemma ClsRun(input: string)
    requires IsProgram(input)
    ensures Accumulate(input, LexState(30, 'c' as int, 4, 1, NoDiags), "") == ("cls", LexState(32, EOF, 4, 3, NoDiags))
  {
    AccStep(input, LexState(30, 'c' as int, 4, 1, NoDiags), "", LexState(31, 'l' as int, 4, 2, NoDiags), "c");
    AccStep(input, LexState(31, 'l' as int, 4, 2, NoDiags), "c", LexState(32, 's' as int, 4, 3, NoDiags), "cl");
    AccStep(input, LexState(32, 's' as int, 4, 3, NoDiags), "cl", LexState(32, EOF, 4, 3, NoDiags), "cls");
  }

  /** `cls` runs into the end of the input. */
  lemma ClsStep(input: string)
    requires IsProgram(input)
    ensures ScanStep(input, LexState(30, 'c' as int, 4, 1, NoDiags)) == Emits(Tok(InstrCls, 4, 1, 0, ""), LexState(32, EOF, 4, 3, NoDiags))
  {
    ClsRun(input);
    LabelStep(input, LexState(30, 'c' as int, 4, 1, NoDiags), "cls", LexState(32, EOF, 4, 3, NoDiags));
    ProgramKeywords();
  }

  /** `v0`, a register. */
  lemma RegisterStep(input: string)
    requires IsProgram(input)
    ensures ScanStep(input, LexState(5, 'v' as int, 1, 5, NoDiags)) == Emits(Tok(NameReg, 1, 5, 0, ""), LexState(7, ',' as int, 1, 7, NoDiags))
  {
    var s := LexState(5, 'v' as int, 1, 5, NoDiags);
    NameStep(input, s);
    assert IsRegisterStart(input, s);
    assert NextChar(input, s) == LexState(6, '0' as int, 1, 6, NoDiags);
  }

  /** `,`, a one-character token. */
  lemma CommaStep(input: string)
    requires IsProgram(input)
    ensures ScanStep(input, LexState(7, ',' as int, 1, 7, NoDiags)) == Emits(Tok(SymComma, 1, 7, 0, ""), LexState(8, ' ' as int, 1, 8, NoDiags))
  {
    CharValues();
  }

  /** `5`, a decimal literal ended by the newline. */
  lemma FiveStep(input: string)
    requires IsProgram(input)
    ensures ScanStep(input, LexState(9, '5' as int, 1, 9, NoDiags)) == Emits(Tok(ConstInt, 1, 9, 5, ""), LexState(10, '\n' as int, 2, 0, NoDiags))
  {
    var s := LexState(9, '5' as int, 1, 9, NoDiags);
    var e := LexState(10, '\n' as int, 2, 0, NoDiags);
    assert NextChar(input, s) == e;
    assert DigitLoop(input, e, Dec, 5) == Done(e, 5);
    assert LexInt(input, s) == Lexed(Tok(ConstInt, 1, 9, 5, ""), e);
  }

  /** A blank or a newline is skipped. */
  lemma SkipStep(input: string, s: LexState, s1: LexState)
    requires Wf(input, s) && s.cur != EOF && Inert(s.cur) && NextChar(input, s) == s1
    ensures ScanStep(input, s) == Skips(s1)
  {
    InertSkips(input, s);
  }

  // ---------------------------------------------------------------------
  // The scan loop, line by line

  lemma LoopEmits(input: string, s: LexState, acc: seq<Token>, t: Token, s1: LexState)
    requires s.pos <= |input| && s.cur != EOF && ScanStep(input, s) == Emits(t, s1)
    ensures ScanLoop(input, s, acc) == ScanLoop(input, s1, acc + [t])
  {
  }

  lemma LoopSkips(input: string, s: LexState, acc: seq<Token>, s1: LexState)
    requires s.pos <= |input| && s.cur != EOF && ScanStep(input, s) == Skips(s1)
    ensures ScanLoop(input, s, acc) == ScanLoop(input, s1, acc)
  {
  }

  /** The tokens of Program. */
  const ProgramTokens: seq<Token> := [
    Tok(InstrMov, 1, 1, 0, ""), Tok(NameReg, 1, 5, 0, ""), Tok(SymComma, 1, 7, 0, ""), Tok(ConstInt, 1, 9, 5, ""),
    Tok(InstrJmp, 2, 1, 0, ""), Tok(NameLblRef, 2, 5, 0, "target"),
    Tok(NameLblDef, 3, 1, 0, "target"),
    Tok(InstrCls, 4, 1, 0, ""),
    EndToken]

  lemma MovLoop(input: string, acc: seq<Token>)
    requires IsProgram(input)
    ensures ScanLoop(input, LexState(1, 'm' as int, 1, 1, NoDiags), acc) == ScanLoop(input, LexState(4, ' ' as int, 1, 4, NoDiags), acc + [Tok(InstrMov, 1, 1, 0, "")])
  {
    MovStep(input);
    LoopEmits(input, LexState(1, 'm' as int, 1, 1, NoDiags), acc, Tok(InstrMov, 1, 1, 0, ""), LexState(4, ' ' as int, 1, 4, NoDiags));
  }

  lemma RegisterLoop(input: string, acc: seq<Token>)
    requires IsProgram(input)
    ensures ScanLoop(input, LexState(5, 'v' as int, 1, 5, NoDiags), acc) == ScanLoop(input, LexState(7, ',' as int, 1, 7, NoDiags), acc + [Tok(NameReg, 1, 5, 0, "")])
  {
    RegisterStep(input);
    LoopEmits(input, LexState(5, 'v' as int, 1, 5, NoDiags), acc, Tok(NameReg, 1, 5, 0, ""), LexState(7, ',' as int, 1, 7, NoDiags));
  }

  lemma CommaLoop(input: string, acc: seq<Token>)
    requires IsProgram(input)
    ensures ScanLoop(input, LexState(7, ',' as int, 1, 7, NoDiags), acc) == ScanLoop(input, LexState(8, ' ' as int, 1, 8, NoDiags), acc + [Tok(SymComma, 1, 7, 0, "")])
  {
    CommaStep(input);
    LoopEmits(input, LexState(7, ',' as int, 1, 7, NoDiags), acc, Tok(SymComma, 1, 7, 0, ""), LexState(8, ' ' as int, 1, 8, NoDiags));
  }

  lemma FiveLoop(input: string, acc: seq<Token>)
    requires IsProgram(input)
    ensures ScanLoop(input, LexState(9, '5' as int, 1, 9, NoDiags), acc) == ScanLoop(input, LexState(10, '\n' as int, 2, 0, NoDiags), acc + [Tok(ConstInt, 1, 9, 5, "")])
  {
    FiveStep(input);
    LoopEmits(input, LexState(9, '5' as int, 1, 9, NoDiags), acc, Tok(ConstInt, 1, 9, 5, ""), LexState(10, '\n' as int, 2, 0, NoDiags));
  }

  lemma JmpLoop(input: string, acc: seq<Token>)
    requires IsProgram(input)
    ensures ScanLoop(input, LexState(11, 'j' as int, 2, 1, NoDiags), acc) == ScanLoop(input, LexState(14, ' ' as int, 2, 4, NoDiags), acc + [Tok(InstrJmp, 2, 1, 0, "")])
  {
    JmpStep(input);
    LoopEmits(input, LexState(11, 'j' as int, 2, 1, NoDiags), acc, Tok(InstrJmp, 2, 1, 0, ""), LexState(14, ' ' as int, 2, 4, NoDiags));
  }

  lemma TargetRefLoop(input: string, acc: seq<Token>)
    requires IsProgram(input)
    ensures ScanLoop(input, LexState(15, 't' as int, 2, 5, NoDiags), acc) == ScanLoop(input, LexState(21, '\n' as int, 3, 0, NoDiags), acc + [Tok(NameLblRef, 2, 5, 0, "target")])
  {
    TargetRefStep(input);
    LoopEmits(input, LexState(15, 't' as int, 2, 5, NoDiags), acc, Tok(NameLblRef, 2, 5, 0, "target"), LexState(21, '\n' as int, 3, 0, NoDiags));
  }

  lemma TargetDefLoop(input: string, acc: seq<Token>)
    requires IsProgram(input)
    ensures ScanLoop(input, LexState(22, 't' as int, 3, 1, NoDiags), acc) == ScanLoop(input, LexState(29, '\n' as int, 4, 0, NoDiags), acc + [Tok(NameLblDef, 3, 1, 0, "target")])
  {
    TargetDefStep(input);
    LoopEmits(input, LexState(22, 't' as int, 3, 1, NoDiags), acc, Tok(NameLblDef, 3, 1, 0, "target"), LexState(29, '\n' as int, 4, 0, NoDiags));
  }

  lemma ClsLoop(input: string, acc: seq<Token>)
    requires IsProgram(input)
    ensures ScanLoop(input, LexState(30, 'c' as int, 4, 1, NoDiags), acc) == ScanLoop(input, LexState(32, EOF, 4, 3, NoDiags), acc + [Tok(InstrCls, 4, 1, 0, "")])
  {
    ClsStep(input);
    LoopEmits(input, LexState(30, 'c' as int, 4, 1, NoDiags), acc, Tok(InstrCls, 4, 1, 0, ""), LexState(32, EOF, 4, 3, NoDiags));
  }

  lemma SkipLoop(input: string, s: LexState, s1: LexState, acc: seq<Token>)
    requires Wf(input, s) && s.cur != EOF && Inert(s.cur) && NextChar(input, s) == s1
    ensures ScanLoop(input, s, acc) == ScanLoop(input, s1, acc)
  {
    SkipStep(input, s, s1);
    LoopSkips(input, s, acc, s1);
  }

  lemma Skip4(input: string, acc: seq<Token>)
    requires IsProgram(input)
    ensures ScanLoop(input, LexState(4, ' ' as int, 1, 4, NoDiags), acc) == ScanLoop(input, LexState(5, 'v' as int, 1, 5, NoDiags), acc)
  {
    SkipLoop(input, LexState(4, ' ' as int, 1, 4, NoDiags), LexState(5, 'v' as int, 1, 5, NoDiags), acc);
  }

  lemma Skip8(input: string, acc: seq<Token>)
    requires IsProgram(input)
    ensures ScanLoop(input, LexState(8, ' ' as int, 1, 8, NoDiags), acc) == ScanLoop(input, LexState(9, '5' as int, 1, 9, NoDiags), acc)
  {
    SkipLoop(input, LexState(8, ' ' as int, 1, 8, NoDiags), LexState(9, '5' as int, 1, 9, NoDiags), acc);
  }

  lemma Skip10(input: string, acc: seq<Token>)
    requires IsProgram(input)
    ensures ScanLoop(input, LexState(10, '\n' as int, 2, 0, NoDiags), acc) == ScanLoop(input, LexState(11, 'j' as int, 2, 1, NoDiags), acc)
  {
    SkipLoop(input, LexState(10, '\n' as int, 2, 0, NoDiags), LexState(11, 'j' as int, 2, 1, NoDiags), acc);
  }

  lemma Skip14(input: string, acc: seq<Token>)
    requires IsProgram(input)
    ensures ScanLoop(input, LexState(14, ' ' as int, 2, 4, NoDiags), acc) == ScanLoop(input, LexState(15, 't' as int, 2, 5, NoDiags), acc)
  {
    SkipLoop(input, LexState(14, ' ' as int, 2, 4, NoDiags), LexState(15, 't' as int, 2, 5, NoDiags), acc);
  }

  lemma Skip21(input: string, acc: seq<Token>)
    requires IsProgram(input)
    ensures ScanLoop(input, LexState(21, '\n' as int, 3, 0, NoDiags), acc) == ScanLoop(input, LexState(22, 't' as int, 3, 1, NoDiags), acc)
  {
    SkipLoop(input, LexState(21, '\n' as int, 3, 0, NoDiags), LexState(22, 't' as int, 3, 1, NoDiags), acc);
  }

  lemma Skip29(input: string, acc: seq<Token>)
    requires IsProgram(input)
    ensures ScanLoop(input, LexState(29, '\n' as int, 4, 0, NoDiags), acc) == ScanLoop(input, LexState(30, 'c' as int, 4, 1, NoDiags), acc)
  {
    SkipLoop(input, LexState(29, '\n' as int, 4, 0, NoDiags), LexState(30, 'c' as int, 4, 1, NoDiags), acc);
  }

  /** `mov v0`. */
  lemma ScanMovV0(input: string, acc: seq<Token>)
    requires IsProgram(input)
    ensures ScanLoop(input, LexState(1, 'm' as int, 1, 1, NoDiags), acc) == ScanLoop(input, LexState(7, ',' as int, 1, 7, NoDiags), acc + [Tok(InstrMov, 1, 1, 0, ""), Tok(NameReg, 1, 5, 0, "")])
  {
    MovLoop(input, acc);
    Skip4(input, acc + [Tok(InstrMov, 1, 1, 0, "")]);
    RegisterLoop(input, acc + [Tok(InstrMov, 1, 1, 0, "")]);
    assert acc + [Tok(InstrMov, 1, 1, 0, "")] + [Tok(NameReg, 1, 5, 0, "")] == acc + [Tok(InstrMov, 1, 1, 0, ""), Tok(NameReg, 1, 5, 0, "")];
  }

  /** `, 5`; the scan stops on the newline. */
  lemma ScanComma5(input: string, acc: seq<Token>)
    requires IsProgram(input)
    ensures ScanLoop(input, LexState(7, ',' as int, 1, 7, NoDiags), acc) == ScanLoop(input, LexState(10, '\n' as int, 2, 0, NoDiags), acc + [Tok(SymComma, 1, 7, 0, ""), Tok(ConstInt, 1, 9, 5, "")])
  {
    CommaLoop(input, acc);
    Skip8(input, acc + [Tok(SymComma, 1, 7, 0, "")]);
    FiveLoop(input, acc + [Tok(SymComma, 1, 7, 0, "")]);
    assert acc + [Tok(SymComma, 1, 7, 0, "")] + [Tok(ConstInt, 1, 9, 5, "")] == acc + [Tok(SymComma, 1, 7, 0, ""), Tok(ConstInt, 1, 9, 5, "")];
  }

  /** `jmp target`; the scan stops on the next newline. */
  lemma ScanJmpTarget(input: string, acc: seq<Token>)
    requires IsProgram(input)
    ensures ScanLoop(input, LexState(10, '\n' as int, 2, 0, NoDiags), acc) == ScanLoop(input, LexState(21, '\n' as int, 3, 0, NoDiags), acc + [Tok(InstrJmp, 2, 1, 0, ""), Tok(NameLblRef, 2, 5, 0, "target")])
  {
    Skip10(input, acc);
    JmpLoop(input, acc);
    Skip14(input, acc + [Tok(InstrJmp, 2, 1, 0, "")]);
    TargetRefLoop(input, acc + [Tok(InstrJmp, 2, 1, 0, "")]);
    assert acc + [Tok(InstrJmp, 2, 1, 0, "")] + [Tok(NameLblRef, 2, 5, 0, "target")] == acc + [Tok(InstrJmp, 2, 1, 0, ""), Tok(NameLblRef, 2, 5, 0, "target")];
  }

  /** `target:`; the colon is taken with the name. */
  lemma ScanDef(input: string, acc: seq<Token>)
    requires IsProgram(input)
    ensures ScanLoop(input, LexState(21, '\n' as int, 3, 0, NoDiags), acc) == ScanLoop(input, LexState(29, '\n' as int, 4, 0, NoDiags), acc + [Tok(NameLblDef, 3, 1, 0, "target")])
  {
    Skip21(input, acc);
    TargetDefLoop(input, acc);
  }

  /** `cls`, then the sentinel at the end of the input. */
  lemma ScanCls(input: string, acc: seq<Token>)
    requires IsProgram(input)
    ensures ScanLoop(input, LexState(29, '\n' as int, 4, 0, NoDiags), acc) == Scanned(acc + [Tok(InstrCls, 4, 1, 0, ""), EndToken], LexState(32, EOF, 4, 3, NoDiags))
  {
    Skip29(input, acc);
    ClsLoop(input, acc);
    assert acc + [Tok(InstrCls, 4, 1, 0, "")] + [EndToken] == acc + [Tok(InstrCls, 4, 1, 0, ""), EndToken];
  }

  /** The first `next_char` of main. */
  lemma ScanStarts(input: string)
    requires IsProgram(input)
    ensures Scan(input) == ScanLoop(input, LexState(1, 'm' as int, 1, 1, NoDiags), [])
  {
    assert NextChar(input, Start) == LexState(1, 'm' as int, 1, 1, NoDiags);
  }

  /** The tokens of the four lines, joined. */
  lemma ProgramTokensJoin()
    ensures [] + [Tok(InstrMov, 1, 1, 0, ""), Tok(NameReg, 1, 5, 0, "")] + [Tok(SymComma, 1, 7, 0, ""), Tok(ConstInt, 1, 9, 5, "")] + [Tok(InstrJmp, 2, 1, 0, ""), Tok(NameLblRef, 2, 5, 0, "target")] + [Tok(NameLblDef, 3, 1, 0, "target")] + [Tok(InstrCls, 4, 1, 0, ""), EndToken] == ProgramTokens
  {
  }

  /** The scan of Program: nine tokens, the sentinel last, and no
      diagnostic. */
  lemma ScanProgram(input: string)
    requires IsProgram(input)
    ensures Scan(input) == Scanned(ProgramTokens, LexState(32, EOF, 4, 3, NoDiags))
  {
    var a1 := [] + [Tok(InstrMov, 1, 1, 0, ""), Tok(NameReg, 1, 5, 0, "")];
    var a2 := a1 + [Tok(SymComma, 1, 7, 0, ""), Tok(ConstInt, 1, 9, 5, "")];
    var a3 := a2 + [Tok(InstrJmp, 2, 1, 0, ""), Tok(NameLblRef, 2, 5, 0, "target")];
    ScanStarts(input);
    ScanMovV0(input, []);
    ScanComma5(input, a1);
    ScanJmpTarget(input, a2);
    ScanDef(input, a3);
    ScanCls(input, a3 + [Tok(NameLblDef, 3, 1, 0, "target")]);
    ProgramTokensJoin();
  }

  // ---------------------------------------------------------------------
  // The encoder, statement by statement

  /** The buffer main allocates for Program: 18 bytes of 0. */
  function Zeros(): seq<bv8> { Initial(ProgramTokens, NoDiags).out }

  lemma ZerosAre()
    ensures |Zeros()| == 18 && forall i :: 0 <= i < 18 ==> Zeros()[i] == 0
  {
  }

  /** parse_mov on `v0, 5`: the bytes 0x60 | 0 and 5. */
  lemma MovWord()
    ensures Dispatch(ProgramTokens, Reader(1, ProgramTokens[0], NoDiags)) == Word(Reader(4, ProgramTokens[3], NoDiags), Or(0x60, 0), Or(0, 5))
  {
    var rd := Reader(1, ProgramTokens[0], NoDiags);
    var t := ProgramTokens;
    assert t[0].kind == InstrMov && t[1] == Tok(NameReg, 1, 5, 0, "") && t[2].kind == SymComma && t[3] == Tok(ConstInt, 1, 9, 5, "");
    assert After(t, rd, 2) == Reader(3, t[2], NoDiags) && After(t, Reader(3, t[2], NoDiags), 1) == Reader(4, t[3], NoDiags);
    MovOperands(t, rd);
    ImmShape(t, Reader(3, t[2], NoDiags), t[1]);
  }

  lemma MovBytes()
    ensures Value8(Or(0x60, 0)) == 0x60 && Value8(Or(0, 5)) == 0x05
  {
    assert Lo8(0) == 0;
    assert Lo8(5) == 5;
  }

  /** `mov v0, 5` is 6005 in word 0. */
  lemma EncodeMov()
    ensures Statement(ProgramTokens, EncState(Reader(1, ProgramTokens[0], NoDiags), 0, Zeros(), [], [])) ==
      EncState(Reader(4, ProgramTokens[3], NoDiags), 1, Zeros()[0 := 0x60][1 := 0x05], [], [])
  {
    MovWord();
    MovBytes();
    assert [] + RefAt(None, 0) == [];
  }

  /** parse_jmp on a label: the opcode byte alone, and the reference. */
  lemma JmpWord()
    ensures Dispatch(ProgramTokens, Reader(5, ProgramTokens[4], NoDiags)) ==
      Parsed(Reader(6, ProgramTokens[5], NoDiags), Some(Bits(0x10)), None, Some(ProgramTokens[5]))
  {
    AddrDispatch(ProgramTokens, Reader(5, ProgramTokens[4], NoDiags));
  }

  /** `jmp target` is 1000 in word 1, with a reference to that word. */
  lemma EncodeJmp()
    ensures Statement(ProgramTokens, EncState(Reader(5, ProgramTokens[4], NoDiags), 1, Zeros()[0 := 0x60][1 := 0x05], [], [])) ==
      EncState(Reader(6, ProgramTokens[5], NoDiags), 2, Zeros()[0 := 0x60][1 := 0x05][2 := 0x10], [], [LabelRef("target", 1, 2, 5)])
  {
    JmpWord();
    ConstantByte(0x10);
    assert [] + RefAt(Some(ProgramTokens[5]), 1) == [LabelRef("target", 1, 2, 5)];
  }

  /** `target:` records the address of word 2, 0x204, and emits nothing. */
  lemma EncodeDef()
    ensures Statement(ProgramTokens, EncState(Reader(7, ProgramTokens[6], NoDiags), 2, Zeros()[0 := 0x60][1 := 0x05][2 := 0x10], [], [LabelRef("target", 1, 2, 5)])) ==
      EncState(Reader(7, ProgramTokens[6], NoDiags), 2, Zeros()[0 := 0x60][1 := 0x05][2 := 0x10], [LabelDef("target", 0x204, 3, 1)], [LabelRef("target", 1, 2, 5)])
  {
    assert [] + [DefAt(ProgramTokens[6], 2)] == [LabelDef("target", 0x204, 3, 1)];
  }

  /** `cls` is 00E0 in word 2. */
  lemma EncodeCls()
    ensures Statement(ProgramTokens, EncState(Reader(8, ProgramTokens[7], NoDiags), 2, Zeros()[0 := 0x60][1 := 0x05][2 := 0x10], [LabelDef("target", 0x204, 3, 1)], [LabelRef("target", 1, 2, 5)])) ==
      EncState(Reader(8, ProgramTokens[7], NoDiags), 3, Zeros()[0 := 0x60][1 := 0x05][2 := 0x10][4 := 0x00][5 := 0xE0], [LabelDef("target", 0x204, 3, 1)], [LabelRef("target", 1, 2, 5)])
  {
    assert Dispatch(ProgramTokens, Reader(8, ProgramTokens[7], NoDiags)) == Word(Reader(8, ProgramTokens[7], NoDiags), Bits(0x00), Bits(0xE0));
    ConstantByte(0x00);
    ConstantByte(0xE0);
    assert [LabelRef("target", 1, 2, 5)] + RefAt(None, 2) == [LabelRef("target", 1, 2, 5)];
  }

  /** A pass of the dispatch loop that reads neither the sentinel nor past
      the stream goes on with the next one. */
  lemma LoopGoesOn(toks: seq<Token>, e: EncState)
    requires LoopInv(toks, e) && e.rd.tk < |toks| - 1 && !Is(toks[e.rd.tk], StreamEnd) && e.wp <= e.rd.tk
    requires Statement(toks, e.(rd := NextTkn(toks, e.rd))).rd.tk <= |toks|
    ensures EncodeLoop(toks, e) == EncodeLoop(toks, Statement(toks, e.(rd := NextTkn(toks, e.rd))))
  {
  }

  /** The first pass of the dispatch loop. */
  lemma PassMov()
    ensures EncodeLoop(ProgramTokens, EncState(Reader(0, Indeterminate, NoDiags), 0, Zeros(), [], [])) == EncodeLoop(ProgramTokens, EncState(Reader(4, ProgramTokens[3], NoDiags), 1, Zeros()[0 := 0x60][1 := 0x05], [], []))
  {
    EncodeMov();
    LoopGoesOn(ProgramTokens, EncState(Reader(0, Indeterminate, NoDiags), 0, Zeros(), [], []));
  }

  /** The second pass. */
  lemma PassJmp()
    ensures EncodeLoop(ProgramTokens, EncState(Reader(4, ProgramTokens[3], NoDiags), 1, Zeros()[0 := 0x60][1 := 0x05], [], [])) == EncodeLoop(ProgramTokens, EncState(Reader(6, ProgramTokens[5], NoDiags), 2, Zeros()[0 := 0x60][1 := 0x05][2 := 0x10], [], [LabelRef("target", 1, 2, 5)]))
  {
    EncodeJmp();
    LoopGoesOn(ProgramTokens, EncState(Reader(4, ProgramTokens[3], NoDiags), 1, Zeros()[0 := 0x60][1 := 0x05], [], []));
  }

  /** The third pass. */
  lemma PassDef()
    ensures EncodeLoop(ProgramTokens, EncState(Reader(6, ProgramTokens[5], NoDiags), 2, Zeros()[0 := 0x60][1 := 0x05][2 := 0x10], [], [LabelRef("target", 1, 2, 5)])) == EncodeLoop(ProgramTokens, EncState(Reader(7, ProgramTokens[6], NoDiags), 2, Zeros()[0 := 0x60][1 := 0x05][2 := 0x10], [LabelDef("target", 0x204, 3, 1)], [LabelRef("target", 1, 2, 5)]))
  {
    EncodeDef();
    LoopGoesOn(ProgramTokens, EncState(Reader(6, ProgramTokens[5], NoDiags), 2, Zeros()[0 := 0x60][1 := 0x05][2 := 0x10], [], [LabelRef("target", 1, 2, 5)]));
  }

  /** The fourth pass. */
  lemma PassCls()
    ensures EncodeLoop(ProgramTokens, EncState(Reader(7, ProgramTokens[6], NoDiags), 2, Zeros()[0 := 0x60][1 := 0x05][2 := 0x10], [LabelDef("target", 0x204, 3, 1)], [LabelRef("target", 1, 2, 5)])) == EncodeLoop(ProgramTokens, EncState(Reader(8, ProgramTokens[7], NoDiags), 3, Zeros()[0 := 0x60][1 := 0x05][2 := 0x10][4 := 0x00][5 := 0xE0], [LabelDef("target", 0x204, 3, 1)], [LabelRef("target", 1, 2, 5)]))
  {
    EncodeCls();
    LoopGoesOn(ProgramTokens, EncState(Reader(7, ProgramTokens[6], NoDiags), 2, Zeros()[0 := 0x60][1 := 0x05][2 := 0x10], [LabelDef("target", 0x204, 3, 1)], [LabelRef("target", 1, 2, 5)]));
  }

  /** The fifth pass reads the sentinel and ends the loop. */
  lemma PassEnd()
    ensures EncodeLoop(ProgramTokens, EncState(Reader(8, ProgramTokens[7], NoDiags), 3, Zeros()[0 := 0x60][1 := 0x05][2 := 0x10][4 := 0x00][5 := 0xE0], [LabelDef("target", 0x204, 3, 1)], [LabelRef("target", 1, 2, 5)])) == EncState(Reader(9, EndToken, NoDiags), 3, Zeros()[0 := 0x60][1 := 0x05][2 := 0x10][4 := 0x00][5 := 0xE0], [LabelDef("target", 0x204, 3, 1)], [LabelRef("target", 1, 2, 5)])
  {
  }

  /** The encoding of Program: three words, one definition, one
      reference, and the cursor on the sentinel. */
  lemma EncodeProgram()
    ensures Encode(ProgramTokens, NoDiags) == EncState(Reader(9, EndToken, NoDiags), 3, Zeros()[0 := 0x60][1 := 0x05][2 := 0x10][4 := 0x00][5 := 0xE0], [LabelDef("target", 0x204, 3, 1)], [LabelRef("target", 1, 2, 5)])
  {
    assert Initial(ProgramTokens, NoDiags) == EncState(Reader(0, Indeterminate, NoDiags), 0, Zeros(), [], []);
    PassMov();
    PassJmp();
    PassDef();
    PassCls();
    PassEnd();
  }

  // ---------------------------------------------------------------------
  // Resolution and the written image

  /** One definition has no twin. */
  lemma NoDuplicates()
    ensures CheckDuplicates([LabelDef("target", 0x204, 3, 1)], NoDiags) == NoDiags
  {
  }

  /** The reference in word 1 gets the address 0x204: the jump becomes
      1204, and nothing is reported. */
  lemma ResolveProgram()
    ensures RefsIn([LabelRef("target", 1, 2, 5)], Zeros()[0 := 0x60][1 := 0x05][2 := 0x10][4 := 0x00][5 := 0xE0])
    ensures Resolve(Zeros()[0 := 0x60][1 := 0x05][2 := 0x10][4 := 0x00][5 := 0xE0], [LabelDef("target", 0x204, 3, 1)], [LabelRef("target", 1, 2, 5)], NoDiags).1 == NoDiags
    ensures Resolve(Zeros()[0 := 0x60][1 := 0x05][2 := 0x10][4 := 0x00][5 := 0xE0], [LabelDef("target", 0x204, 3, 1)], [LabelRef("target", 1, 2, 5)], NoDiags).0[..6] == [0x60, 0x05, 0x12, 0x04, 0x00, 0xE0]
  {
    ZerosAre();
    var o := Zeros()[0 := 0x60][1 := 0x05][2 := 0x10][4 := 0x00][5 := 0xE0];
    var rf := LabelRef("target", 1, 2, 5);
    assert RefLoop(o, [LabelDef("target", 0x204, 3, 1)], rf, 0, false) == (Patch(o, 1, 0x204), true);
    assert Hi4(0x204) == 2 && Lo8(0x204) == 0x04;
    var o1 := Patch(o, 1, 0x204);
    assert o1[..6] == [0x60, 0x05, 0x12, 0x04, 0x00, 0xE0];
  }

  /** The whole of main on Program: no diagnostic, and an image of three
      words, `6005 1204 00E0`, in which the forward jump carries the
      address of the label defined after it. */
  lemma EndToEnd()
    ensures Assemble("mov v0, 5\njmp target\ntarget:\ncls") == Assembled([0x60, 0x05, 0x12, 0x04, 0x00, 0xE0], NoDiags)
  {
    ProgramIs();
    ScanProgram(Program);
    EncodeProgram();
    NoDuplicates();
    ResolveProgram();
  }
}
