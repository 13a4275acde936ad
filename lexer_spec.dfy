/** The scanner of src/lexer.c and the scan loop of src/main.c, as functions
    over a value that holds what the C globals hold: the input cursor
    (`infile_buffer_ptr`), `current_char`, `line_count`, `col_count` and the
    diagnostics. Each function mirrors the control flow of its C function;
    the imperative versions in module Scanner are proved equal to them. */
module LexerSpec {
  import opened CharClass
  import opened Tokens
  import opened Diagnostics

  /** `pos` is the number of characters read (the offset of
      `infile_buffer_ptr`), `cur` is `current_char`. */
  datatype LexState = LexState(pos: nat, cur: CharCode, line: int, col: int, diags: Diags)

  /** The globals before the first `next_char`: `line_count` starts at 1. */
  const Start: LexState := LexState(0, 0, 1, 0, NoDiags)

  /** `line_count` and `col_count` are 16-bit unsigned counters. */
  function Inc16(n: int): int { (n + 1) % 0x1_0000 }

  /** The characters not yet left behind: the unread ones, plus the current
      one unless it is EOF. Every function below that consumes a character
      makes it smaller. */
  function Remaining(input: seq<char>, s: LexState): nat
    requires s.pos <= |input|
  {
    |input| - s.pos + (if s.cur == EOF then 0 else 1)
  }

  /** `s` is a state the scanner can be in once it has started: `cur` is the
      last character read, or EOF once the input is exhausted. */
  predicate Wf(input: seq<char>, s: LexState) {
    s.pos <= |input| &&
    (s.cur == EOF ==> s.pos == |input|) &&
    (s.cur != EOF ==> 1 <= s.pos && s.cur == input[s.pos - 1] as int)
  }

  /** Index of the character under the cursor (|input| at EOF). */
  function Offset(input: seq<char>, s: LexState): nat {
    if s.cur == EOF || s.pos == 0 then s.pos else s.pos - 1
  }

  /** next_char (src/lexer.c:48-61). */
  function NextChar(input: seq<char>, s: LexState): (r: LexState)
    requires s.pos <= |input|
    ensures r.pos <= |input| && r.diags == s.diags
    ensures Remaining(input, r) <= Remaining(input, s)
    ensures s.cur != EOF ==> Remaining(input, r) < Remaining(input, s)
  {
    if s.pos == |input| then s.(cur := EOF)
    else
      var c := input[s.pos] as int;
      if c == '\n' as int then s.(pos := s.pos + 1, cur := c, line := Inc16(s.line), col := 0)
      else s.(pos := s.pos + 1, cur := c, col := Inc16(s.col))
  }

  function Report(s: LexState, line: int, col: int, m: Message): LexState {
    s.(diags := AddError(s.diags, line, col, m))
  }

  /** `infile_buffer_ptr[0]`, the character after the current one. At the end
      of the buffer C reads one byte past it; the model reads a NUL there. */
  function Peek(input: seq<char>, pos: nat): CharCode {
    if pos < |input| then input[pos] as int else 0
  }

  /** The `for` loop of lex_name (src/lexer.c:97-100): append label
      characters to `name` while it holds fewer than 32. */
  function Accumulate(input: seq<char>, s: LexState, name: string): (r: (string, LexState))
    requires s.pos <= |input| && |name| <= 32
    ensures |r.0| <= 32 && r.1.pos <= |input| && name <= r.0
    ensures Remaining(input, r.1) <= Remaining(input, s)
    ensures |r.0| > |name| ==> Remaining(input, r.1) < Remaining(input, s)
    ensures r.1.diags == s.diags
    decreases 32 - |name|
  {
    if |name| < 32 && IsLabelChar(s.cur) then
      LabelCharIsAlnumOrUnderscore(s.cur);
      Accumulate(input, NextChar(input, s), name + [s.cur as char])
    else (name, s)
  }

  /** The keyword search of src/lexer.c:122: the first index whose keyword
      equals `name`, or NAME_REG (27) when there is none. */
  function KeywordIndexFrom(name: string, i: nat): (k: nat)
    requires i <= |Keywords|
    ensures i <= k <= |Keywords|
    ensures k < |Keywords| ==> Keywords[k] == name
    ensures forall j :: i <= j < k ==> Keywords[j] != name
    decreases |Keywords| - i
  {
    if i < |Keywords| && name != Keywords[i] then KeywordIndexFrom(name, i + 1) else i
  }

  function KeywordIndex(name: string): nat { KeywordIndexFrom(name, 0) }

  /** lex_name (src/lexer.c:66-137); the caller has seen a letter or `_`.
      A `V` or `v` followed by a hex digit is a register (lines 72-90),
      anything else a label or keyword (lines 92-137). */
  function LexName(input: seq<char>, s: LexState): (r: (Token, LexState))
    requires s.pos <= |input| && (IsAlpha(s.cur) || s.cur == '_' as int)
    ensures r.1.pos <= |input| && Remaining(input, r.1) < Remaining(input, s)
    ensures r.0.Tok? && r.0.kind != StreamEnd
  {
    if IsRegisterStart(input, s) then LexRegister(input, s) else LexLabel(input, s)
  }

  predicate IsRegisterStart(input: seq<char>, s: LexState) {
    (s.cur == 'V' as int || s.cur == 'v' as int) && IsXDigit(Peek(input, s.pos))
  }

  /** src/lexer.c:72-90: consume the two characters; the payload is the
      digit's value. */
  function LexRegister(input: seq<char>, s: LexState): (r: (Token, LexState))
    requires s.pos <= |input| && IsRegisterStart(input, s)
    ensures r.1.pos <= |input| && Remaining(input, r.1) < Remaining(input, s)
  {
    var s1 := NextChar(input, s);
    (Tok(NameReg, s.line, s.col, DigitValue(s1.cur), ""), NextChar(input, s1))
  }

  /** src/lexer.c:92-137: accumulate, report a 33rd label character, then
      a definition if a colon follows, else a keyword or a reference. */
  function LexLabel(input: seq<char>, s: LexState): (r: (Token, LexState))
    requires s.pos <= |input| && (IsAlpha(s.cur) || s.cur == '_' as int)
    ensures r.1.pos <= |input| && Remaining(input, r.1) < Remaining(input, s)
    ensures r.0.Tok? && r.0.kind != StreamEnd
  {
    LabelCharIsAlnumOrUnderscore(s.cur);
    var a := Accumulate(input, s, "");
    assert |a.0| > 0;
    LabelTail(input, a.0, LengthCheck(a.0, a.1, s.line, s.col), s.line, s.col)
  }

  /** src/lexer.c:101-105: a name of 32 characters followed by one more
      letter, digit or `_` is reported; the character stays unread. */
  function LengthCheck(name: string, s: LexState, line: int, col: int): (r: LexState)
    ensures r.pos == s.pos && r.cur == s.cur
  {
    if |name| == 32 && (IsAlnum(s.cur) || s.cur == '_' as int) then Report(s, line, col, LabelTooLong) else s
  }

  /** src/lexer.c:111-137: a colon makes a definition and is consumed;
      anything else is left for the caller. */
  function LabelTail(input: seq<char>, name: string, s: LexState, line: int, col: int): (r: (Token, LexState))
    requires s.pos <= |input|
    ensures r.1.pos <= |input| && Remaining(input, r.1) <= Remaining(input, s)
    ensures r.0.Tok? && r.0.kind != StreamEnd
  {
    if s.cur == ':' as int then (Tok(NameLblDef, line, col, 0, name), NextChar(input, s))
    else (NameToken(name, line, col), s)
  }

  /** A name without a colon (src/lexer.c:122-137): the keyword's own token
      type, text dropped, or a label reference keeping the text. */
  function NameToken(name: string, line: int, col: int): (t: Token)
    ensures t.Tok? && t.kind != StreamEnd
  {
    var i := KeywordIndex(name);
    if i == |Keywords| then Tok(NameLblRef, line, col, 0, name)
    else
      KeywordIndexIsEnumValue(i);
      assert Value(StreamEnd) == 60;
      Tok(KeywordTypes[i], line, col, 0, "")
  }

  function Base(r: Radix): nat {
    match r
    case Bin => 2
    case Oct => 8
    case Dec => 10
    case Hex => 16
  }

  /** The digit test of each radix: ISBIN, ISOCT, ISDEC, isxdigit. */
  predicate IsDigitOf(r: Radix, c: int) {
    match r
    case Bin => IsBin(c)
    case Oct => IsOct(c)
    case Dec => IsDec(c)
    case Hex => IsXDigit(c)
  }

  lemma DigitOfIsHexDigit(r: Radix, c: CharCode)
    requires IsDigitOf(r, c)
    ensures IsXDigit(c) && DigitValue(c) < Base(r)
  {
    DigitClassesNest(c);
    OctIsDigitRange(c);
    DecIsDigitRange(c);
    DigitValueMeaning(c);
  }

  datatype DigitResult = Done(state: LexState, value: nat) | Spins

  /** The accumulation loops of lex_int (src/lexer.c:165-181, 196-206,
      221-231, 247-256): until whitespace or EOF, a valid digit is shifted
      in and consumed; an invalid one is reported and NOT consumed, so the
      C loop never ends. That outcome is `Spins`. */
  function DigitLoop(input: seq<char>, s: LexState, r: Radix, acc: nat): (d: DigitResult)
    requires s.pos <= |input|
    ensures d.Done? ==> d.state.pos <= |input| && Remaining(input, d.state) <= Remaining(input, s)
    ensures d.Done? ==> IsSpace(d.state.cur) || d.state.cur == EOF
    decreases Remaining(input, s)
  {
    if IsSpace(s.cur) || s.cur == EOF then Done(s, acc)
    else if IsDigitOf(r, s.cur) then DigitLoop(input, NextChar(input, s), r, ShiftIn(acc, r, s.cur))
    else Spins
  }

  /** `value * base + digit`, the step of every accumulation loop. */
  function ShiftIn(acc: nat, r: Radix, c: CharCode): nat
    requires IsDigitOf(r, c)
  {
    DigitOfIsHexDigit(r, c);
    acc * Base(r) + DigitValue(c)
  }

  datatype LexIntResult = Lexed(tok: Token, state: LexState) | TooLarge(state: LexState) | Hang

  predicate Progress(input: seq<char>, s: LexState, r: LexIntResult)
    requires s.pos <= |input|
  {
    !r.Hang? ==> r.state.pos <= |input| && Remaining(input, r.state) < Remaining(input, s)
  }

  /** The range check after accumulation (src/lexer.c:183-184 and the like,
      262-271): above 4095 an error and no token. */
  function Finish(d: DigitResult, line: int, col: int): (r: LexIntResult)
  {
    match d
    case Spins => Hang
    case Done(s, v) =>
      if v > 4095 then TooLarge(Report(s, line, col, IntTooLarge))
      else Lexed(Tok(ConstInt, line, col, v, ""), s)
  }

  /** A 0x / 0b / 0o literal after its prefix: one error when the first
      character is not a digit of the radix, then the loop. */
  function Prefixed(input: seq<char>, s: LexState, r: Radix, line: int, col: int): (res: LexIntResult)
    requires s.pos <= |input|
  {
    var s1 := if !IsDigitOf(r, s.cur) then Report(s, line, col, InvalidDigits(r)) else s;
    Finish(DigitLoop(input, s1, r, 0), line, col)
  }

  /** lex_int (src/lexer.c:147-272); the caller has seen a decimal digit.
      A leading `0` goes on to the prefix test (line 153), any other digit
      to the decimal loop (lines 243-259). */
  function LexInt(input: seq<char>, s: LexState): (r: LexIntResult)
    requires s.pos <= |input| && IsDec(s.cur)
    ensures Progress(input, s, r)
    ensures r.Lexed? ==> Is(r.tok, ConstInt)
  {
    DecIsDigitRange(s.cur);
    if s.cur == '0' as int then AfterZero(input, NextChar(input, s), s.line, s.col)
    else Finish(DigitLoop(input, NextChar(input, s), Dec, s.cur - '0' as int), s.line, s.col)
  }

  /** src/lexer.c:153-259, with `s` the state after the leading `0`: a
      letter must be a radix prefix (x, b, o in either case), otherwise an
      error and the value 0 with the letter left unread (lines 238-241). A
      `0` not followed by a letter takes the decimal branch, which reads
      one more character first, so the one after the `0` is skipped and
      the value starts from 0. */
  function AfterZero(input: seq<char>, s: LexState, line: int, col: int): (r: LexIntResult)
    requires s.pos <= |input|
    ensures !r.Hang? ==> r.state.pos <= |input| && Remaining(input, r.state) <= Remaining(input, s)
    ensures r.Lexed? ==> Is(r.tok, ConstInt)
  {
    if IsAlpha(s.cur) then
      if s.cur == 'X' as int || s.cur == 'x' as int then Prefixed(input, NextChar(input, s), Hex, line, col)
      else if s.cur == 'B' as int || s.cur == 'b' as int then Prefixed(input, NextChar(input, s), Bin, line, col)
      else if s.cur == 'O' as int || s.cur == 'o' as int then Prefixed(input, NextChar(input, s), Oct, line, col)
      else Lexed(Tok(ConstInt, line, col, 0, ""), Report(s, line, col, ExpectedRadixPrefix))
    else Finish(DigitLoop(input, NextChar(input, s), Dec, 0), line, col)
  }

  datatype ScanResult = Scanned(tokens: seq<Token>, state: LexState) | Diverges

  /** The one-character token for `,` or `I` (src/main.c:83-89). */
  function CharToken(s: LexState): Token {
    Tok(if s.cur == Value(SymComma) then SymComma else NameI, s.line, s.col, 0, "")
  }

  /** What one pass of the scan loop body (src/main.c:81-94) does with a
      current character other than EOF: store a token, skip the character,
      or never return (lex_int spinning). */
  datatype Step = Emits(tok: Token, next: LexState) | Skips(next: LexState) | Stuck

  function ScanStep(input: seq<char>, s: LexState): (r: Step)
    requires s.pos <= |input| && s.cur != EOF
    ensures !r.Stuck? ==> r.next.pos <= |input| && Remaining(input, r.next) < Remaining(input, s)
    ensures r.Emits? ==> !Is(r.tok, StreamEnd)
  {
    if IsDec(s.cur) then
      match LexInt(input, s)
      case Hang => Stuck
      case Lexed(t, s1) => Emits(t, s1)
      case TooLarge(s1) => Emits(Indeterminate, s1)
    else if s.cur == Value(SymComma) || s.cur == Value(NameI) then
      Emits(CharToken(s), NextChar(input, s))
    else if IsAlpha(s.cur) || s.cur == '_' as int then
      var (t, s1) := LexName(input, s);
      Emits(t, s1)
    else Skips(NextChar(input, s))
  }

  /** The scan loop of src/main.c:80-95, from state `s` with the tokens
      `acc` already stored. */
  function ScanLoop(input: seq<char>, s: LexState, acc: seq<Token>): (r: ScanResult)
    requires s.pos <= |input|
    decreases Remaining(input, s)
  {
    if s.cur == EOF then Scanned(acc + [EndToken], s)
    else
      match ScanStep(input, s)
      case Stuck => Diverges
      case Emits(t, s1) => ScanLoop(input, s1, acc + [t])
      case Skips(s1) => ScanLoop(input, s1, acc)
  }

  /** The whole scan: the first `next_char`, then the loop. */
  function Scan(input: seq<char>): ScanResult {
    ScanLoop(input, NextChar(input, Start), [])
  }
}
