/** What the scanner of src/lexer.c and the scan loop of src/main.c promise,
    proved about LexerSpec against reference definitions stated on the
    input text itself. */
module LexerProps {
  import opened CharClass
  import opened Tokens
  import opened Diagnostics
  import opened LexerSpec

  // ---------------------------------------------------------------------
  // next_char: one character at a time, line and column tracking
  // ---------------------------------------------------------------------

  /** The character at index `i` as `current_char` holds it, EOF past the end. */
  function CharAt(input: seq<char>, i: nat): CharCode {
    if i < |input| then input[i] as int else EOF
  }

  /** At EOF next_char changes nothing; otherwise it moves to the next
      character of the input (src/lexer.c:48-61). */
  lemma NextCharAdvances(input: seq<char>, s: LexState)
    requires Wf(input, s)
    ensures Wf(input, NextChar(input, s))
    ensures s.cur == EOF ==> NextChar(input, s) == s
    ensures s.cur != EOF ==> Offset(input, NextChar(input, s)) == Offset(input, s) + 1
    ensures NextChar(input, s).cur == CharAt(input, Offset(input, NextChar(input, s)))
  {
  }

  /** In a well-formed state the current character is the one under the
      cursor. */
  lemma CurrentChar(input: seq<char>, s: LexState)
    requires Wf(input, s)
    ensures s.cur == CharAt(input, Offset(input, s))
  {
  }

  /** The first next_char puts the cursor on the first character. */
  lemma FirstChar(input: seq<char>)
    ensures Wf(input, NextChar(input, Start)) && Offset(input, NextChar(input, Start)) == 0
    ensures NextChar(input, Start).cur == CharAt(input, 0)
  {
  }

  /** The number of line feeds in `t`. */
  function Newlines(t: seq<char>): nat {
    if |t| == 0 then 0 else Newlines(t[..|t| - 1]) + (if t[|t| - 1] == '\n' then 1 else 0)
  }

  /** The number of characters after the last line feed of `t`. */
  function Column(t: seq<char>): nat {
    if |t| == 0 then 0 else if t[|t| - 1] == '\n' then 0 else Column(t[..|t| - 1]) + 1
  }

  /** `line_count` is one more than the line feeds read and `col_count`
      the characters read since the last one, both modulo 2^16. */
  predicate Tracks(input: seq<char>, s: LexState) {
    s.pos <= |input| &&
    s.line == (1 + Newlines(input[..s.pos])) % 0x1_0000 &&
    s.col == Column(input[..s.pos]) % 0x1_0000
  }

  lemma Inc16Mod(n: nat)
    ensures Inc16(n % 0x1_0000) == (n + 1) % 0x1_0000
  {
  }

  lemma StartTracks(input: seq<char>)
    ensures Tracks(input, Start)
  {
    assert input[..0] == [];
  }

  /** next_char keeps the line and column counters in step with the text
      read (src/lexer.c:53-59). */
  lemma NextCharTracks(input: seq<char>, s: LexState)
    requires Tracks(input, s)
    ensures Tracks(input, NextChar(input, s))
  {
    if s.pos < |input| {
      var t := input[..s.pos + 1];
      assert t[..|t| - 1] == input[..s.pos];
      assert t[|t| - 1] == input[s.pos];
      Inc16Mod(1 + Newlines(input[..s.pos]));
      Inc16Mod(Column(input[..s.pos]));
    }
  }

  // ---------------------------------------------------------------------
  // lex_name: registers, labels, keywords
  // ---------------------------------------------------------------------

  /** `V` or `v` and a hex digit make a register whose number is the
      digit's value; exactly those two characters are consumed
      (src/lexer.c:72-90). */
  lemma RegisterLexed(input: seq<char>, s: LexState)
    requires Wf(input, s) && IsRegisterStart(input, s)
    ensures s.pos < |input| && IsXDigit(input[s.pos] as int)
    ensures LexName(input, s).0 == Tok(NameReg, s.line, s.col, DigitValue(input[s.pos] as int), "")
    ensures DigitValue(input[s.pos] as int) < 16
    ensures Wf(input, LexName(input, s).1) && Offset(input, LexName(input, s).1) == Offset(input, s) + 2
  {
    var s1 := NextChar(input, s);
    assert s1.cur == input[s.pos] as int;
  }

  /** Where a run of label characters starting at `i` ends when at most
      `cap` of them are taken. */
  function RunEnd(input: seq<char>, i: nat, cap: nat): (e: nat)
    ensures i <= e <= i + cap && (i <= |input| ==> e <= |input|)
    decreases cap
  {
    if cap > 0 && i < |input| && IsLabelChar(input[i] as int) then RunEnd(input, i + 1, cap - 1) else i
  }

  lemma {:induction false} RunEndLabelChars(input: seq<char>, i: nat, cap: nat)
    requires i <= |input|
    ensures forall j :: i <= j < RunEnd(input, i, cap) ==> IsLabelChar(input[j] as int)
    ensures RunEnd(input, i, cap) < i + cap ==> !IsLabelChar(CharAt(input, RunEnd(input, i, cap)))
    decreases cap
  {
    if cap > 0 && i < |input| && IsLabelChar(input[i] as int) {
      RunEndLabelChars(input, i + 1, cap - 1);
    }
  }

  /** Where the `for` loop of lex_name leaves the cursor. */
  lemma {:induction false} AccumulateStops(input: seq<char>, s: LexState, name: string)
    requires Wf(input, s) && |name| <= 32
    ensures Wf(input, Accumulate(input, s, name).1)
    ensures Offset(input, Accumulate(input, s, name).1) == RunEnd(input, Offset(input, s), 32 - |name|)
    decreases 32 - |name|
  {
    CurrentChar(input, s);
    if |name| < 32 && IsLabelChar(s.cur) {
      LabelCharIsAlnumOrUnderscore(s.cur);
      NextCharAdvances(input, s);
      AccumulateStops(input, NextChar(input, s), name + [s.cur as char]);
    }
  }

  /** `name` extended with the run of label characters from index `i`,
      at most `cap` of them, one index at a time. */
  function TakeRun(input: seq<char>, i: nat, cap: nat, name: string): string
    decreases cap
  {
    if cap > 0 && i < |input| && IsLabelChar(input[i] as int) then TakeRun(input, i + 1, cap - 1, name + [input[i]]) else name
  }

  /** TakeRun appends the slice up to RunEnd. */
  lemma {:induction false} TakeRunSlice(input: seq<char>, i: nat, cap: nat, name: string)
    requires i <= |input|
    ensures TakeRun(input, i, cap, name) == name + input[i..RunEnd(input, i, cap)]
    decreases cap
  {
    if cap > 0 && i < |input| && IsLabelChar(input[i] as int) {
      TakeRunSlice(input, i + 1, cap - 1, name + [input[i]]);
      var e := RunEnd(input, i, cap);
      assert input[i..e] == [input[i]] + input[i + 1..e];
      assert name + [input[i]] + input[i + 1..e] == name + ([input[i]] + input[i + 1..e]);
    } else {
      assert name + input[i..i] == name;
    }
  }

  /** What the `for` loop of lex_name appends to the name: the run of
      label characters under the cursor. */
  lemma {:induction false} AccumulateText(input: seq<char>, s: LexState, name: string)
    requires Wf(input, s) && |name| <= 32
    ensures Accumulate(input, s, name).0 == TakeRun(input, Offset(input, s), 32 - |name|, name)
    decreases 32 - |name|
  {
    CurrentChar(input, s);
    if |name| < 32 && IsLabelChar(s.cur) {
      LabelCharIsAlnumOrUnderscore(s.cur);
      NextCharAdvances(input, s);
      AccumulateText(input, NextChar(input, s), name + [s.cur as char]);
    }
  }

  /** The `for` loop of lex_name takes the run of label characters under
      the cursor, up to 32 in all (src/lexer.c:97-100). */
  lemma AccumulateTakesRun(input: seq<char>, s: LexState, name: string)
    requires Wf(input, s) && |name| <= 32
    ensures Wf(input, Accumulate(input, s, name).1)
    ensures Offset(input, Accumulate(input, s, name).1) == RunEnd(input, Offset(input, s), 32 - |name|)
    ensures Accumulate(input, s, name).0 == name + input[Offset(input, s)..Offset(input, Accumulate(input, s, name).1)]
  {
    AccumulateStops(input, s, name);
    AccumulateText(input, s, name);
    TakeRunSlice(input, Offset(input, s), 32 - |name|, name);
  }

  /** Where the name under the cursor ends. */
  function NameEnd(input: seq<char>, s: LexState): nat {
    RunEnd(input, Offset(input, s), 32)
  }

  /** A 33rd label character is reported once and left unread
      (src/lexer.c:101-105); any other name costs no error. */
  lemma LabelTooLongOnce(input: seq<char>, s: LexState)
    requires Wf(input, s) && (IsAlpha(s.cur) || s.cur == '_' as int)
    ensures LexLabel(input, s).1.diags.errors ==
      s.diags.errors + (if NameEnd(input, s) == Offset(input, s) + 32 && IsLabelChar(CharAt(input, NameEnd(input, s))) then 1 else 0)
  {
    var a := Accumulate(input, s, "");
    var s2 := LengthCheck(a.0, a.1, s.line, s.col);
    assert LexLabel(input, s).1.diags == s2.diags;
    assert s2.diags.errors == s.diags.errors +
      (if NameEnd(input, s) == Offset(input, s) + 32 && IsLabelChar(CharAt(input, NameEnd(input, s))) then 1 else 0) by {
      AccumulateTakesRun(input, s, "");
      CurrentChar(input, a.1);
      LabelCharIsAlnumOrUnderscore(a.1.cur);
      assert |a.0| == NameEnd(input, s) - Offset(input, s);
    }
  }

  /** A name followed by `:` is a definition carrying the name; the colon
      is consumed (src/lexer.c:111-119). */
  lemma LabelDefinition(input: seq<char>, s: LexState)
    requires Wf(input, s) && (IsAlpha(s.cur) || s.cur == '_' as int)
    requires CharAt(input, NameEnd(input, s)) == ':' as int
    ensures LexLabel(input, s).0 == Tok(NameLblDef, s.line, s.col, 0, input[Offset(input, s)..NameEnd(input, s)])
    ensures Wf(input, LexLabel(input, s).1) && Offset(input, LexLabel(input, s).1) == NameEnd(input, s) + 1
  {
    var a := Accumulate(input, s, "");
    AccumulateTakesRun(input, s, "");
    CurrentChar(input, a.1);
    assert a.0 == input[Offset(input, s)..NameEnd(input, s)];
    var s2 := LengthCheck(a.0, a.1, s.line, s.col);
    assert LexLabel(input, s) == LabelTail(input, a.0, s2, s.line, s.col);
    NextCharAdvances(input, s2);
  }

  /** A name not followed by `:` becomes a keyword or a reference; nothing
      after it is consumed (src/lexer.c:122-137). */
  lemma LabelTextIs(input: seq<char>, s: LexState)
    requires Wf(input, s)
    ensures Accumulate(input, s, "").0 == input[Offset(input, s)..NameEnd(input, s)]
    ensures Wf(input, Accumulate(input, s, "").1) && Offset(input, Accumulate(input, s, "").1) == NameEnd(input, s)
    ensures Accumulate(input, s, "").1.cur == CharAt(input, NameEnd(input, s))
  {
    AccumulateTakesRun(input, s, "");
    CurrentChar(input, Accumulate(input, s, "").1);
  }

  lemma LabelName(input: seq<char>, s: LexState)
    requires Wf(input, s) && (IsAlpha(s.cur) || s.cur == '_' as int)
    requires CharAt(input, NameEnd(input, s)) != ':' as int
    ensures LexLabel(input, s).0 == NameToken(input[Offset(input, s)..NameEnd(input, s)], s.line, s.col)
    ensures Wf(input, LexLabel(input, s).1) && Offset(input, LexLabel(input, s).1) == NameEnd(input, s)
  {
    LabelTextIs(input, s);
  }

  /** `name` is one of the keywords, compared case-sensitively. */
  predicate IsKeyword(name: string) {
    exists j :: 0 <= j < |Keywords| && Keywords[j] == name
  }

  /** The keyword search finds a keyword at its own index. */
  lemma KeywordFound(name: string)
    requires IsKeyword(name)
    ensures KeywordIndex(name) < |Keywords| && Keywords[KeywordIndex(name)] == name
  {
    var j :| 0 <= j < |Keywords| && Keywords[j] == name;
    assert !(j < KeywordIndex(name));
  }

  /** A keyword, compared case-sensitively, gives the token type whose
      value is its index and no text (src/lexer.c:122-131). */
  lemma KeywordToken(name: string, line: int, col: int)
    requires IsKeyword(name)
    ensures NameToken(name, line, col).kind != NameLblRef && NameToken(name, line, col).text == ""
    ensures 0 <= Value(NameToken(name, line, col).kind) < |Keywords| && Keywords[Value(NameToken(name, line, col).kind)] == name
  {
    var i := KeywordIndex(name);
    KeywordFound(name);
    KeywordIndexIsEnumValue(i);
    assert NameToken(name, line, col) == Tok(KeywordTypes[i], line, col, 0, "");
    assert KeywordTypes[i] in KeywordTypes;
  }

  /** Any other name is a reference carrying the name (src/lexer.c:132-137). */
  lemma ReferenceToken(name: string, line: int, col: int)
    requires !IsKeyword(name)
    ensures NameToken(name, line, col) == Tok(NameLblRef, line, col, 0, name)
  {
    assert KeywordIndex(name) == |Keywords|;
  }

  // ---------------------------------------------------------------------
  // lex_int: literal values
  // ---------------------------------------------------------------------

  /** Whitespace or EOF: what ends a literal. */
  predicate Stops(c: int) { IsSpace(c) || c == EOF }

  /** Where the run of digits of radix `r` starting at `i` ends. */
  function DigitsEnd(input: seq<char>, i: nat, r: Radix): (e: nat)
    requires i <= |input|
    ensures i <= e <= |input|
    ensures forall j :: i <= j < e ==> IsDigitOf(r, input[j] as int)
    ensures !IsDigitOf(r, CharAt(input, e))
    decreases |input| - i
  {
    if i < |input| && IsDigitOf(r, input[i] as int) then DigitsEnd(input, i + 1, r) else i
  }

  predicate AllDigits(r: Radix, ds: seq<char>) {
    forall j :: 0 <= j < |ds| ==> IsDigitOf(r, ds[j] as int)
  }

  /** The value of a numeral in radix `r`, most significant digit first. */
  function NumeralValue(r: Radix, ds: seq<char>): nat
    requires AllDigits(r, ds)
  {
    if |ds| == 0 then 0
    else
      DigitOfIsHexDigit(r, ds[|ds| - 1] as int);
      NumeralValue(r, ds[..|ds| - 1]) * Base(r) + DigitValue(ds[|ds| - 1] as int)
  }

  /** The digits `ds` shifted into `acc`, as the accumulation loops do. */
  function ShiftAll(r: Radix, acc: nat, ds: seq<char>): nat
    requires AllDigits(r, ds)
    decreases |ds|
  {
    if |ds| == 0 then acc else ShiftAll(r, ShiftIn(acc, r, ds[0] as int), ds[1..])
  }

  /** ShiftAll over a run of digits `input[o..e]`, one digit taken off. */
  lemma ShiftAllHead(r: Radix, acc: nat, input: seq<char>, o: nat, e: nat)
    requires o < e <= |input| && forall j :: o <= j < e ==> IsDigitOf(r, input[j] as int)
    ensures AllDigits(r, input[o..e]) && AllDigits(r, input[o + 1..e])
    ensures ShiftAll(r, acc, input[o..e]) == ShiftAll(r, ShiftIn(acc, r, input[o] as int), input[o + 1..e])
  {
    assert input[o..e][1..] == input[o + 1..e];
  }

  /** Shifting digits into the value of a numeral extends the numeral. */
  lemma {:induction false} ShiftAllExtends(r: Radix, pre: seq<char>, ds: seq<char>)
    requires AllDigits(r, pre) && AllDigits(r, ds)
    ensures AllDigits(r, pre + ds)
    ensures ShiftAll(r, NumeralValue(r, pre), ds) == NumeralValue(r, pre + ds)
    decreases |ds|
  {
    if |ds| > 0 {
      var pre' := pre + [ds[0]];
      assert pre'[..|pre'| - 1] == pre;
      assert ShiftIn(NumeralValue(r, pre), r, ds[0] as int) == NumeralValue(r, pre');
      ShiftAllExtends(r, pre', ds[1..]);
      assert pre' + ds[1..] == pre + ds;
    } else {
      assert pre + ds == pre;
    }
  }

  lemma ShiftAllIsValue(r: Radix, ds: seq<char>)
    requires AllDigits(r, ds)
    ensures ShiftAll(r, 0, ds) == NumeralValue(r, ds)
  {
    ShiftAllExtends(r, [], ds);
    assert [] + ds == ds;
  }

  lemma DigitIsNotSpace(r: Radix, c: CharCode)
    requires IsDigitOf(r, c)
    ensures !Stops(c)
  {
    DigitOfIsHexDigit(r, c);
  }

  /** An accumulation loop of lex_int ends only if whitespace or EOF
      follows the run of digits under the cursor, and spins forever
      otherwise (src/lexer.c:165-181). */
  lemma {:induction false} DigitLoopEnds(input: seq<char>, s: LexState, r: Radix, acc: nat)
    requires Wf(input, s)
    ensures DigitLoop(input, s, r, acc).Done? <==> Stops(CharAt(input, DigitsEnd(input, Offset(input, s), r)))
    decreases Remaining(input, s)
  {
    var o := Offset(input, s);
    CurrentChar(input, s);
    if Stops(s.cur) {
      if IsDigitOf(r, s.cur) {
        DigitIsNotSpace(r, s.cur);
      }
    } else if IsDigitOf(r, s.cur) {
      NextCharAdvances(input, s);
      DigitLoopEnds(input, NextChar(input, s), r, ShiftIn(acc, r, s.cur));
    }
  }

  /** Where a loop that ends leaves the cursor: just past the run of
      digits, with the diagnostics untouched. */
  lemma {:induction false} DigitLoopStops(input: seq<char>, s: LexState, r: Radix, acc: nat)
    requires Wf(input, s) && DigitLoop(input, s, r, acc).Done?
    ensures Wf(input, DigitLoop(input, s, r, acc).state)
    ensures Offset(input, DigitLoop(input, s, r, acc).state) == DigitsEnd(input, Offset(input, s), r)
    ensures DigitLoop(input, s, r, acc).state.diags == s.diags
    decreases Remaining(input, s)
  {
    CurrentChar(input, s);
    if Stops(s.cur) {
      if IsDigitOf(r, s.cur) {
        DigitIsNotSpace(r, s.cur);
      }
    } else {
      NextCharAdvances(input, s);
      DigitLoopStops(input, NextChar(input, s), r, ShiftIn(acc, r, s.cur));
    }
  }

  /** The digits of the run from index `i` shifted into `acc`, one index
      at a time. */
  function RunFrom(input: seq<char>, i: nat, r: Radix, acc: nat): nat
    requires i <= |input|
    decreases |input| - i
  {
    if i < |input| && IsDigitOf(r, input[i] as int) then RunFrom(input, i + 1, r, ShiftIn(acc, r, input[i] as int)) else acc
  }

  /** RunFrom is ShiftAll over the run of digits. */
  lemma {:induction false} RunFromShiftAll(input: seq<char>, i: nat, r: Radix, acc: nat)
    requires i <= |input|
    ensures RunFrom(input, i, r, acc) == ShiftAll(r, acc, input[i..DigitsEnd(input, i, r)])
    decreases |input| - i
  {
    if i < |input| && IsDigitOf(r, input[i] as int) {
      RunFromShiftAll(input, i + 1, r, ShiftIn(acc, r, input[i] as int));
      ShiftAllHead(r, acc, input, i, DigitsEnd(input, i, r));
    }
  }

  /** The value a loop that ends holds: every digit of the run shifted in. */
  lemma {:induction false} DigitLoopShifts(input: seq<char>, s: LexState, r: Radix, acc: nat)
    requires Wf(input, s) && DigitLoop(input, s, r, acc).Done?
    ensures DigitLoop(input, s, r, acc).value == RunFrom(input, Offset(input, s), r, acc)
    decreases Remaining(input, s)
  {
    CurrentChar(input, s);
    if Stops(s.cur) {
      if IsDigitOf(r, s.cur) {
        DigitIsNotSpace(r, s.cur);
      }
    } else {
      NextCharAdvances(input, s);
      DigitLoopShifts(input, NextChar(input, s), r, ShiftIn(acc, r, s.cur));
    }
  }

  /** When it ends, the loop has read exactly the run of digits and
      shifted each of them in (src/lexer.c:165-181). */
  lemma DigitLoopValue(input: seq<char>, s: LexState, r: Radix, acc: nat)
    requires Wf(input, s) && DigitLoop(input, s, r, acc).Done?
    ensures Wf(input, DigitLoop(input, s, r, acc).state)
    ensures Offset(input, DigitLoop(input, s, r, acc).state) == DigitsEnd(input, Offset(input, s), r)
    ensures DigitLoop(input, s, r, acc).state.diags == s.diags
    ensures DigitLoop(input, s, r, acc).value == ShiftAll(r, acc, input[Offset(input, s)..DigitsEnd(input, Offset(input, s), r)])
  {
    DigitLoopStops(input, s, r, acc);
    DigitLoopShifts(input, s, r, acc);
    RunFromShiftAll(input, Offset(input, s), r, acc);
  }

  /** The value of the run of digits of radix `r` from index `i`. */
  function Literal(input: seq<char>, i: nat, r: Radix): nat
    requires i <= |input|
  {
    var e := DigitsEnd(input, i, r);
    assert AllDigits(r, input[i..e]);
    NumeralValue(r, input[i..e])
  }

  /** The digits shifted in by an accumulation loop started on `s`. */
  function RunValue(input: seq<char>, s: LexState, r: Radix, acc: nat): nat
    requires Wf(input, s)
  {
    var o := Offset(input, s);
    var e := DigitsEnd(input, o, r);
    assert AllDigits(r, input[o..e]);
    ShiftAll(r, acc, input[o..e])
  }

  /** An accumulation loop followed by the range check: a token when the
      value is at most 4095, one error and no token above
      (src/lexer.c:183-187, 262-271). */
  lemma FinishLiteral(input: seq<char>, s: LexState, r: Radix, acc: nat, line: int, col: int)
    requires Wf(input, s)
    ensures Finish(DigitLoop(input, s, r, acc), line, col).Hang? <==> !Stops(CharAt(input, DigitsEnd(input, Offset(input, s), r)))
    ensures Finish(DigitLoop(input, s, r, acc), line, col).Lexed? <==>
      !Finish(DigitLoop(input, s, r, acc), line, col).Hang? && RunValue(input, s, r, acc) <= 4095
    ensures Finish(DigitLoop(input, s, r, acc), line, col).Lexed? ==>
      Finish(DigitLoop(input, s, r, acc), line, col).tok == Tok(ConstInt, line, col, RunValue(input, s, r, acc), "") &&
      Finish(DigitLoop(input, s, r, acc), line, col).state.diags == s.diags
    ensures Finish(DigitLoop(input, s, r, acc), line, col).TooLarge? ==>
      Finish(DigitLoop(input, s, r, acc), line, col).state.diags.errors == s.diags.errors + 1
    ensures !Finish(DigitLoop(input, s, r, acc), line, col).Hang? ==>
      Wf(input, Finish(DigitLoop(input, s, r, acc), line, col).state) &&
      Offset(input, Finish(DigitLoop(input, s, r, acc), line, col).state) == DigitsEnd(input, Offset(input, s), r)
  {
    DigitLoopEnds(input, s, r, acc);
    if DigitLoop(input, s, r, acc).Done? {
      DigitLoopValue(input, s, r, acc);
    }
  }

  /** A literal of radix `r` read from index `i`: what lex_int yields for
      it, stated on the text. */
  predicate LiteralIs(input: seq<char>, res: LexIntResult, i: nat, r: Radix, line: int, col: int, errors: nat)
    requires i <= |input|
  {
    (res.Hang? <==> !Stops(CharAt(input, DigitsEnd(input, i, r)))) &&
    (res.Lexed? <==> !res.Hang? && Literal(input, i, r) <= 4095) &&
    (res.Lexed? ==> res.tok == Tok(ConstInt, line, col, Literal(input, i, r), "") && res.state.diags.errors == errors) &&
    (res.TooLarge? ==> res.state.diags.errors == errors + 1) &&
    (!res.Hang? ==> Wf(input, res.state) && Offset(input, res.state) == DigitsEnd(input, i, r))
  }

  /** After a first digit `d`, the loop's value is that of the whole run. */
  lemma FirstDigitShifted(input: seq<char>, s: LexState, r: Radix)
    requires Wf(input, s) && s.cur != EOF && IsDigitOf(r, s.cur)
    ensures Wf(input, NextChar(input, s))
    ensures DigitsEnd(input, Offset(input, NextChar(input, s)), r) == DigitsEnd(input, Offset(input, s), r)
    ensures RunValue(input, NextChar(input, s), r, ShiftIn(0, r, s.cur)) == Literal(input, Offset(input, s), r)
  {
    var o := Offset(input, s);
    CurrentChar(input, s);
    NextCharAdvances(input, s);
    var e := DigitsEnd(input, o, r);
    assert input[o..e][1..] == input[o + 1..e];
    ShiftAllIsValue(r, input[o..e]);
  }

  /** A decimal literal whose first digit is not 0: its value in base 10
      when that is at most 4095 (src/lexer.c:243-267). */
  lemma DecimalLiteral(input: seq<char>, s: LexState)
    requires Wf(input, s) && InRange(s.cur, '1', '9')
    ensures LiteralIs(input, LexInt(input, s), Offset(input, s), Dec, s.line, s.col, s.diags.errors)
  {
    DecIsDigitRange(s.cur);
    var s1 := NextChar(input, s);
    var d := s.cur - '0' as int;
    assert LexInt(input, s) == Finish(DigitLoop(input, s1, Dec, d), s.line, s.col);
    assert LiteralIs(input, Finish(DigitLoop(input, s1, Dec, d), s.line, s.col), Offset(input, s), Dec, s.line, s.col, s.diags.errors) by {
      DigitValueMeaning(s.cur);
      FirstDigitShifted(input, s, Dec);
      assert ShiftIn(0, Dec, s.cur) == d;
      FinishLiteral(input, s1, Dec, d, s.line, s.col);
    }
  }

  /** An accumulation loop started from 0, then the range check: the
      literal of radix `r` under the cursor. */
  lemma LoopLiteral(input: seq<char>, s: LexState, r: Radix, line: int, col: int)
    requires Wf(input, s)
    ensures LiteralIs(input, Finish(DigitLoop(input, s, r, 0), line, col), Offset(input, s), r, line, col, s.diags.errors)
  {
    FinishLiteral(input, s, r, 0, line, col);
    var o := Offset(input, s);
    ShiftAllIsValue(r, input[o..DigitsEnd(input, o, r)]);
  }

  /** A literal after its 0x / 0b / 0o prefix, `s` on the first character
      after the prefix: one error more when no digit of the radix follows
      the prefix (src/lexer.c:158-164 and the like). */
  lemma PrefixedLiteral(input: seq<char>, s: LexState, r: Radix, line: int, col: int)
    requires Wf(input, s)
    ensures LiteralIs(input, Prefixed(input, s, r, line, col), Offset(input, s), r, line, col,
      s.diags.errors + (if DigitsEnd(input, Offset(input, s), r) == Offset(input, s) then 1 else 0))
  {
    CurrentChar(input, s);
    var s1 := if !IsDigitOf(r, s.cur) then Report(s, line, col, InvalidDigits(r)) else s;
    assert Offset(input, s1) == Offset(input, s);
    LoopLiteral(input, s1, r, line, col);
  }

  /** The letters lex_int takes for a radix prefix. */
  predicate IsPrefixLetter(c: int) {
    c == 'x' as int || c == 'X' as int || c == 'b' as int || c == 'B' as int || c == 'o' as int || c == 'O' as int
  }

  function PrefixRadix(c: int): Radix
    requires IsPrefixLetter(c)
  {
    if c == 'x' as int || c == 'X' as int then Hex
    else if c == 'b' as int || c == 'B' as int then Bin
    else Oct
  }

  /** A leading `0` hands over to AfterZero on the next character. */
  lemma ZeroBranch(input: seq<char>, s: LexState)
    requires Wf(input, s) && s.cur == '0' as int
    ensures LexInt(input, s) == AfterZero(input, NextChar(input, s), s.line, s.col)
    ensures Wf(input, NextChar(input, s)) && Offset(input, NextChar(input, s)) == Offset(input, s) + 1
    ensures NextChar(input, s).cur == CharAt(input, Offset(input, s) + 1)
    ensures NextChar(input, s).diags == s.diags
  {
    NextCharAdvances(input, s);
  }

  /** `0x`, `0b`, `0o` in either case: the digits of that radix from the
      third character (src/lexer.c:153-236). */
  lemma ZeroPrefixed(input: seq<char>, s: LexState)
    requires Wf(input, s) && s.cur == '0' as int
    requires IsPrefixLetter(CharAt(input, Offset(input, s) + 1))
    ensures LiteralIs(input, LexInt(input, s), Offset(input, s) + 2, PrefixRadix(CharAt(input, Offset(input, s) + 1)), s.line, s.col,
      s.diags.errors + (if DigitsEnd(input, Offset(input, s) + 2, PrefixRadix(CharAt(input, Offset(input, s) + 1))) == Offset(input, s) + 2 then 1 else 0))
  {
    ZeroBranch(input, s);
    var t := NextChar(input, s);
    var r := PrefixRadix(t.cur);
    assert AfterZero(input, t, s.line, s.col) == Prefixed(input, NextChar(input, t), r, s.line, s.col);
    NextCharAdvances(input, t);
    PrefixedLiteral(input, NextChar(input, t), r, s.line, s.col);
  }

  /** `0` and a letter that is not a prefix: one error, the value 0, and
      the letter left for the next token (src/lexer.c:238-241). */
  lemma ZeroLetter(input: seq<char>, s: LexState)
    requires Wf(input, s) && s.cur == '0' as int
    requires IsAlpha(CharAt(input, Offset(input, s) + 1)) && !IsPrefixLetter(CharAt(input, Offset(input, s) + 1))
    ensures LexInt(input, s).Lexed?
    ensures LexInt(input, s).tok == Tok(ConstInt, s.line, s.col, 0, "")
    ensures LexInt(input, s).state.diags.errors == s.diags.errors + 1
    ensures Wf(input, LexInt(input, s).state) && Offset(input, LexInt(input, s).state) == Offset(input, s) + 1
  {
    ZeroBranch(input, s);
  }

  /** `0` followed by anything but a letter: the decimal branch reads one
      more character before its loop, so the character after the `0` is
      skipped and the literal is the decimal run after it, from the value 0
      (src/lexer.c:153, 243-259). */
  lemma ZeroSkips(input: seq<char>, s: LexState)
    requires Wf(input, s) && s.cur == '0' as int && !IsAlpha(CharAt(input, Offset(input, s) + 1))
    ensures LiteralIs(input, LexInt(input, s), if Offset(input, s) + 1 < |input| then Offset(input, s) + 2 else |input|,
      Dec, s.line, s.col, s.diags.errors)
  {
    ZeroBranch(input, s);
    var t := NextChar(input, s);
    assert AfterZero(input, t, s.line, s.col) == Finish(DigitLoop(input, NextChar(input, t), Dec, 0), s.line, s.col);
    NextCharAdvances(input, t);
    LoopLiteral(input, NextChar(input, t), Dec, s.line, s.col);
  }

  /** No token of `ts` is the sentinel. */
  predicate NoEnd(ts: seq<Token>) {
    forall i :: 0 <= i < |ts| ==> !Is(ts[i], StreamEnd)
  }

  /** The stream ends with the sentinel and holds no other STREAM_END. */
  predicate Sealed(ts: seq<Token>) {
    Terminated(ts) && NoEnd(ts[..|ts| - 1])
  }

  /** A scan loop that ends stores one token at most per character left,
      then the sentinel (src/main.c:80-95). */
  lemma {:induction false} ScanLoopLength(input: seq<char>, s: LexState, acc: seq<Token>)
    requires s.pos <= |input| && ScanLoop(input, s, acc).Scanned?
    ensures |acc| < |ScanLoop(input, s, acc).tokens| <= |acc| + Remaining(input, s) + 1
    decreases Remaining(input, s)
  {
    if s.cur != EOF {
      match ScanStep(input, s)
      case Emits(t, s1) => ScanLoopLength(input, s1, acc + [t]);
      case Skips(s1) => ScanLoopLength(input, s1, acc);
    }
  }

  /** The stream a scan loop ends with is terminated by the sentinel, and
      holds no other STREAM_END when the tokens already stored hold none
      (src/main.c:80-95). */
  lemma {:induction false} ScanLoopEnds(input: seq<char>, s: LexState, acc: seq<Token>)
    requires s.pos <= |input| && ScanLoop(input, s, acc).Scanned? && NoEnd(acc)
    ensures Sealed(ScanLoop(input, s, acc).tokens)
    decreases Remaining(input, s)
  {
    if s.cur == EOF {
      assert (acc + [EndToken])[..|acc|] == acc;
    } else {
      match ScanStep(input, s)
      case Emits(t, s1) => ScanLoopEnds(input, s1, acc + [t]);
      case Skips(s1) => ScanLoopEnds(input, s1, acc);
    }
  }

  /** Every scan that ends yields a terminated stream whose only STREAM_END
      is the last token, and at most one token per input character besides
      it (src/main.c:79-95). */
  lemma ScanShape(input: seq<char>)
    requires Scan(input).Scanned?
    ensures Sealed(Scan(input).tokens) && |Scan(input).tokens| <= |input| + 1
  {
    ScanLoopLength(input, NextChar(input, Start), []);
    ScanLoopEnds(input, NextChar(input, Start), []);
  }

  /** A character the scan loop skips: no literal, name, `,` or `I` starts
      with it (src/main.c:92-93). */
  predicate Inert(c: int) {
    !IsDec(c) && c != ',' as int && c != 'I' as int && !IsAlpha(c) && c != '_' as int
  }

  /** A skipped character is a step that only advances the cursor. */
  lemma InertSkips(input: seq<char>, s: LexState)
    requires Wf(input, s) && s.cur != EOF && Inert(s.cur)
    ensures ScanStep(input, s) == Skips(NextChar(input, s))
  {
    CharValues();
  }

  lemma {:induction false} ScanLoopSkips(input: seq<char>, s: LexState, acc: seq<Token>)
    requires Wf(input, s)
    requires forall j :: Offset(input, s) <= j < |input| ==> Inert(input[j] as int)
    ensures ScanLoop(input, s, acc).Scanned?
    ensures ScanLoop(input, s, acc).tokens == acc + [EndToken]
    ensures ScanLoop(input, s, acc).state.diags == s.diags
    decreases Remaining(input, s)
  {
    if s.cur != EOF {
      CurrentChar(input, s);
      InertSkips(input, s);
      NextCharAdvances(input, s);
      ScanLoopSkips(input, NextChar(input, s), acc);
    }
  }

  /** Input with nothing but skipped characters (blanks, punctuation,
      comments' text alike) scans to the sentinel alone, with no
      diagnostic. */
  lemma SkipOnly(input: seq<char>)
    requires forall j :: 0 <= j < |input| ==> Inert(input[j] as int)
    ensures Scan(input).Scanned? && Scan(input).tokens == [EndToken]
    ensures Scan(input).state.diags == NoDiags
  {
    FirstChar(input);
    ScanLoopSkips(input, NextChar(input, Start), []);
  }

  /** lex_int on `0 7`: the `0`, the skipped blank, then the `7`. */
  lemma ZeroBlankSevenLexes()
    ensures LexInt("0 7", LexState(1, '0' as int, 1, 1, NoDiags)) == Lexed(Tok(ConstInt, 1, 1, 7, ""), LexState(3, EOF, 1, 3, NoDiags))
  {
    assert DigitLoop("0 7", LexState(3, '7' as int, 1, 3, NoDiags), Dec, 0) == Done(LexState(3, EOF, 1, 3, NoDiags), 7);
  }

  lemma ZeroBlankSevenStep()
    ensures NextChar("0 7", Start) == LexState(1, '0' as int, 1, 1, NoDiags)
    ensures ScanStep("0 7", LexState(1, '0' as int, 1, 1, NoDiags)) == Emits(Tok(ConstInt, 1, 1, 7, ""), LexState(3, EOF, 1, 3, NoDiags))
  {
    ZeroBlankSevenLexes();
  }

  /** `0 7` is one literal, 7: the blank after the `0` is skipped. */
  lemma ZeroBlankSeven()
    ensures Scan("0 7") == Scanned([Tok(ConstInt, 1, 1, 7, ""), EndToken], LexState(3, EOF, 1, 3, NoDiags))
  {
    var input := "0 7";
    var s0 := LexState(1, '0' as int, 1, 1, NoDiags);
    var e := LexState(3, EOF, 1, 3, NoDiags);
    var t := Tok(ConstInt, 1, 1, 7, "");
    assert Scan(input) == ScanLoop(input, e, [] + [t]) by { ZeroBlankSevenStep(); }
    assert [] + [t] == [t];
  }

  /** The token buffer as src/main.c:73 allocates it: one slot per input
      character, with no room kept for the sentinel. */
  function SourceSlots(input: seq<char>): nat { |input| }

  /** A lone `,` scans to two tokens, so the sentinel store of
      src/main.c:95 lands one slot past that buffer. */
  lemma CommaOverflows()
    ensures Scan(",") == Scanned([Tok(SymComma, 1, 1, 0, ""), EndToken], LexState(1, EOF, 1, 1, NoDiags))
    ensures |Scan(",").tokens| > SourceSlots(",")
  {
    var t := Tok(SymComma, 1, 1, 0, "");
    assert Scan(",") == ScanLoop(",", LexState(1, EOF, 1, 1, NoDiags), [] + [t]) by { CommaStep(); }
    assert [] + [t] == [t];
  }

  lemma CommaStep()
    ensures NextChar(",", Start) == LexState(1, ',' as int, 1, 1, NoDiags)
    ensures ScanStep(",", LexState(1, ',' as int, 1, 1, NoDiags)) == Emits(Tok(SymComma, 1, 1, 0, ""), LexState(1, EOF, 1, 1, NoDiags))
  {
    CharValues();
  }
}
