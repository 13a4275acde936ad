/** The scanner as the source runs it: a `Scanner` object holds the globals
    of src/lexer.c (`infile_buffer_ptr` as `pos`, `current_char` as `cur`,
    `line_count`, `col_count`) and the diagnostics, and its methods update
    them in place. Each method is proved to compute what its namesake in
    LexerSpec describes. */
module Scanner {
  import opened CharClass
  import opened Tokens
  import opened Diagnostics
  import opened LexerSpec

  class Scanner {
    const input: seq<char>
    var pos: nat
    var cur: CharCode
    var line: int
    var col: int
    var diags: Diags

    function State(): LexState
      reads this
    {
      LexState(pos, cur, line, col, diags)
    }

    predicate Valid()
      reads this
    {
      pos <= |input|
    }

    constructor (text: seq<char>)
      ensures input == text && Valid() && State() == Start
    {
      input := text;
      pos, cur, line, col, diags := 0, 0, 1, 0, NoDiags;
    }

    /** next_char (src/lexer.c:48-61). */
    method NextChar() returns (c: CharCode)
      requires Valid()
      modifies this
      ensures Valid() && State() == LexerSpec.NextChar(input, old(State())) && c == cur
    {
      if pos == |input| {
        cur := EOF;
        return cur;
      }
      cur := input[pos] as int;
      pos := pos + 1;
      if cur == '\n' as int {
        line := Inc16(line);
        col := 0;
      } else {
        col := Inc16(col);
      }
      c := cur;
    }

    method Report(l: int, c: int, m: Message)
      modifies this
      ensures State() == LexerSpec.Report(old(State()), l, c, m)
    {
      diags := AddError(diags, l, c, m);
    }

    /** lex_name (src/lexer.c:66-137). */
    method LexName() returns (t: Token)
      requires Valid() && (IsAlpha(cur) || cur == '_' as int)
      modifies this
      ensures Valid() && (t, State()) == LexerSpec.LexName(input, old(State()))
    {
      var startLine, startCol := line, col;
      if (cur == 'V' as int || cur == 'v' as int) && IsXDigit(Peek(input, pos)) {
        var d := NextChar();
        var reg := DigitValue(d);
        d := NextChar();
        return Tok(NameReg, startLine, startCol, reg, "");
      }
      ghost var s0 := State();
      var name := "";
      while |name| < 32 && IsLabelChar(cur)
        invariant Valid() && |name| <= 32 && line == State().line
        invariant Accumulate(input, State(), name) == Accumulate(input, s0, "")
        decreases 32 - |name|
      {
        LabelCharIsAlnumOrUnderscore(cur);
        name := name + [cur as char];
        var _ := NextChar();
      }
      if |name| == 32 && (IsAlnum(cur) || cur == '_' as int) {
        Report(startLine, startCol, LabelTooLong);
      }
      if cur == ':' as int {
        var _ := NextChar();
        return Tok(NameLblDef, startLine, startCol, 0, name);
      }
      var i := FindKeyword(name);
      if i == |Keywords| {
        t := Tok(NameLblRef, startLine, startCol, 0, name);
      } else {
        t := Tok(KeywordTypes[i], startLine, startCol, 0, "");
      }
    }

    /** One accumulation loop of lex_int: shift in valid digits until
        whitespace or EOF. Where the C loop would spin on an invalid digit
        forever, this method stops and answers `Spins`. */
    method DigitLoop(r: Radix, acc0: nat) returns (d: DigitResult)
      requires Valid()
      modifies this
      ensures Valid()
      ensures d == LexerSpec.DigitLoop(input, old(State()), r, acc0)
      ensures d.Done? ==> State() == d.state
    {
      var acc: nat := acc0;
      while !(IsSpace(cur) || cur == EOF)
        invariant Valid()
        invariant LexerSpec.DigitLoop(input, State(), r, acc) == LexerSpec.DigitLoop(input, old(State()), r, acc0)
        decreases Remaining(input, State())
      {
        if !IsDigitOf(r, cur) {
          return Spins;
        }
        acc := ShiftIn(acc, r, cur);
        var _ := NextChar();
      }
      d := Done(State(), acc);
    }

    method Finish(d: DigitResult, l: int, c: int) returns (res: LexIntResult)
      modifies this
      ensures res == LexerSpec.Finish(d, l, c)
      ensures State() == if d.Done? && d.value > 4095 then LexerSpec.Report(old(State()), l, c, IntTooLarge) else old(State())
    {
      if d.Spins? {
        return Hang;
      }
      if d.value > 4095 {
        Report(l, c, IntTooLarge);
        return TooLarge(LexerSpec.Report(d.state, l, c, IntTooLarge));
      }
      res := Lexed(Tok(ConstInt, l, c, d.value, ""), d.state);
    }

    method Prefixed(r: Radix, l: int, c: int) returns (res: LexIntResult)
      requires Valid()
      modifies this
      ensures Valid()
      ensures res == LexerSpec.Prefixed(input, old(State()), r, l, c)
      ensures !res.Hang? ==> State() == res.state
    {
      if !IsDigitOf(r, cur) {
        Report(l, c, InvalidDigits(r));
      }
      var d := DigitLoop(r, 0);
      res := Finish(d, l, c);
    }

    /** lex_int (src/lexer.c:147-272). */
    method LexInt() returns (res: LexIntResult)
      requires Valid() && IsDec(cur)
      modifies this
      ensures Valid()
      ensures res == LexerSpec.LexInt(input, old(State()))
      ensures !res.Hang? ==> State() == res.state
    {
      var startLine, startCol := line, col;
      DecIsDigitRange(cur);
      var decimalValue: nat := cur - '0' as int;
      var c := NextChar();
      if decimalValue == 0 {
        res := AfterZero(startLine, startCol);
      } else {
        var d := DigitLoop(Dec, decimalValue);
        res := Finish(d, startLine, startCol);
      }
    }

    /** The rest of lex_int once a leading `0` has been consumed. */
    method AfterZero(l: int, c: int) returns (res: LexIntResult)
      requires Valid()
      modifies this
      ensures Valid()
      ensures res == LexerSpec.AfterZero(input, old(State()), l, c)
      ensures !res.Hang? ==> State() == res.state
    {
      if IsAlpha(cur) {
        if cur == 'X' as int || cur == 'x' as int {
          var _ := NextChar();
          res := Prefixed(Hex, l, c);
        } else if cur == 'B' as int || cur == 'b' as int {
          var _ := NextChar();
          res := Prefixed(Bin, l, c);
        } else if cur == 'O' as int || cur == 'o' as int {
          var _ := NextChar();
          res := Prefixed(Oct, l, c);
        } else {
          Report(l, c, ExpectedRadixPrefix);
          res := Lexed(Tok(ConstInt, l, c, 0, ""), State());
        }
      } else {
        var _ := NextChar();
        var d := DigitLoop(Dec, 0);
        res := Finish(d, l, c);
      }
    }

    /** One pass of the body of the scan loop (src/main.c:81-94). */
    method Step() returns (st: Step)
      requires Valid() && cur != EOF
      modifies this
      ensures Valid() && st == ScanStep(input, old(State()))
      ensures !st.Stuck? ==> State() == st.next
    {
      if IsDec(cur) {
        var r := LexInt();
        if r.Hang? {
          return Stuck;
        }
        st := Emits(if r.Lexed? then r.tok else Indeterminate, r.state);
      } else if cur == Value(SymComma) || cur == Value(NameI) {
        var t := CharToken(State());
        var _ := NextChar();
        st := Emits(t, State());
      } else if IsAlpha(cur) || cur == '_' as int {
        var t := LexName();
        st := Emits(t, State());
      } else {
        var _ := NextChar();
        st := Skips(State());
      }
    }

    /** The scan loop of src/main.c:79-95. The token buffer has one slot
        more than the input has characters, which is what the sentinel
        needs (see the finding on src/main.c:73). `diverged` says that C
        would never leave the loop. */
    method Run() returns (tokens: array<Token>, count: nat, diverged: bool)
      requires Valid() && State() == Start
      modifies this
      ensures fresh(tokens) && count <= tokens.Length == |input| + 1
      ensures diverged <==> Scan(input).Diverges?
      ensures !diverged ==> tokens[..count] == Scan(input).tokens && State() == Scan(input).state
    {
      tokens := new Token[|input| + 1](_ => EndToken);
      var _ := NextChar();
      count := 0;
      while cur != EOF
        invariant Valid() && count + Remaining(input, State()) <= |input|
        invariant ScanLoop(input, State(), tokens[..count]) == Scan(input)
        decreases Remaining(input, State())
      {
        ghost var before := tokens[..count];
        var st := Step();
        if st.Stuck? {
          return tokens, count, true;
        }
        if st.Emits? {
          tokens[count] := st.tok;
          count := count + 1;
          assert tokens[..count] == before + [st.tok];
        }
      }
      tokens[count] := EndToken;
      count := count + 1;
      diverged := false;
    }
  }

  /** The keyword search of src/lexer.c:122. */
  method FindKeyword(name: string) returns (i: nat)
    ensures i == KeywordIndex(name)
  {
    i := 0;
    while i < |Keywords| && name != Keywords[i]
      invariant i <= |Keywords|
      invariant KeywordIndexFrom(name, i) == KeywordIndex(name)
    {
      i := i + 1;
    }
  }
}
