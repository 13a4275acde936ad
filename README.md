# c8asm in Dafny

c8asm is a CHIP-8 assembler written in C. It reads a source file, turns
its characters into a stream of tokens, encodes each statement into a
two-byte CHIP-8 instruction word, and then resolves the label references
left in that output. It writes the image only when no error was counted.
This project models that core and proves properties of it:

- **Scanner** (`src/lexer.c`, `src/lexer.h`, the scan loop of
  `src/main.c:78-95`). `next_char` tracks 16-bit line and column
  counters. `lex_name` produces registers (`v0`..`vF`), keywords, label
  references and label definitions (`name:`). `lex_int` reads decimal
  and `0x`/`0b`/`0o` literals up to 4095. The scan loop stores one token
  per lexeme and ends the stream with a `STREAM_END` sentinel.
  - `LexerSpec` is this scanner written as functions over the C globals.
  - The `Scanner.Scanner` class holds the same globals as fields. Its
    methods update them in place and are proved equal to those functions.
- **Encoder** (`src/parser.c`, `next_tkn` of `src/parser.h`).
  `parse_tkn_stream` reads statements until the sentinel. It writes one
  word per instruction through `byte_ptr[0]`/`byte_ptr[1]`, records
  label definitions at address `0x200 + 2 * word`, and pushes a label
  reference for every jump to a label.
  - `EncoderSpec` is the encoder as functions.
  - `Encoder.Encoder` writes the output buffer in place.
  - `Encodings` proves, family by family, the word each well-formed
    statement produces, and what happens to operands the encoder rejects.
- **Resolver and output gate** (`src/main.c:119-167`).
  - Every pair of label definitions with the same name is an error.
  - Every reference gets the address of its label or'ed into its word.
    A reference to an undefined label is an error.
  - The image (the words written) is produced only when the error count
    is zero.
  - `ResolverSpec` holds the functions and `Resolver.Resolver` runs the
    loops in place.
  - `Pipeline.Assemble` and `Pipeline.Run` chain the three phases.
- **Walkthrough**. `Walkthrough` takes one four-line program through
  every phase, statement by statement, down to the image it writes.

What the code does governs the model, including these behaviours:

- A literal loop that meets a character of the wrong radix reports it
  and never consumes it, so C's loop never ends. The model returns
  `Hang`/`Diverges` there.
- `lex_int` falls off its end after "integer constant is too large" and
  returns an indeterminate token. The token slot holds `Indeterminate`.
- A `0` followed by anything but a letter takes the decimal branch. That
  branch reads one more character before its loop, so the character
  after the `0` is skipped: `0 7` is the single literal 7
  (`LexerProps.ZeroBlankSeven`, `LexerProps.ZeroSkips`).
- A truncated last statement makes the encoder read tokens past the
  sentinel, because `next_tkn` never checks for it. The model stops
  there (`Outcome.Undefined`) and proves that an error has always been
  counted by then (`EncoderProps.OverrunIsReported`).
- `se`/`sne` print "too large" for an immediate above 255 but do not
  count it, so the image is still written. `mov` counts it.

## Model

| member | source | states |
|---|---|---|
| CharClass.OctIsDigitRange | src/lexer.h:9 | ISOCT, computed with unsigned wrap-around, holds exactly for '0'..'7' |
| CharClass.DecIsDigitRange | src/lexer.h:10 | ISDEC holds exactly for '0'..'9' |
| CharClass.UpperLowerAreAsciiLetters | src/lexer.h:11-12 | ISUPPER and ISLOWER hold exactly for the ASCII upper and lower case letters |
| CharClass.LabelCharIsAlnumOrUnderscore | src/lexer.h:13 | ISLABELCHAR is exactly `isalnum(c) \|\| c == '_'`, the test of the too-long check, and only ASCII characters pass it |
| CharClass.DigitClassesNest | src/lexer.h:8-10 | binary digits are octal, octal are decimal, decimal are hex digits and never letters |
| CharClass.DigitValue | src/lexer.c:165-181 | the value the literal loops give a hex digit is below 16 |
| CharClass.DigitValueMeaning | src/lexer.c:165-181 | decimal digits keep their value, `a`-`f` and `A`-`F` are 10-15, and case does not matter |
| Tokens.OfValueInvertsValue | src/lexer.h:17-57 | every TokenType enumerator is recovered from its C value |
| Tokens.ValuesAreDistinct | src/lexer.h:17-57 | no two enumerators share a C value, despite the explicit `'I'`, `','`, `':'` |
| Tokens.KeywordIndexIsEnumValue | src/lexer.c:15-43 | keyword `i` spells the enumerator whose value is `i`, and the table has NAME_REG (27) entries |
| Tokens.SpecialValuesOutsideTable | src/lexer.h:44-56 | exactly NAME_I, the two symbols, CONST_INT and STREAM_END have values outside 0..29 |
| LexerSpec.NextChar | src/lexer.c:48-61 | never passes the end of the input, leaves the diagnostics alone, and consumes a character unless at EOF |
| LexerSpec.Accumulate | src/lexer.c:97-100 | the name grows by what is read, never beyond 32 characters, and a longer name means input was consumed |
| LexerSpec.KeywordIndexFrom | src/lexer.c:122 | the first index whose keyword equals the name, or 27 when no keyword does |
| LexerSpec.LexRegister | src/lexer.c:72-90 | a register consumes input and stays within it |
| LexerSpec.LengthCheck | src/lexer.c:101-105 | the too-long report reads no character |
| LexerSpec.LabelTail | src/lexer.c:111-137 | the token after a name is never STREAM_END and reads at most the colon |
| LexerSpec.NameToken | src/lexer.c:122-137 | a name without colon never becomes STREAM_END |
| LexerSpec.LexLabel | src/lexer.c:92-137 | a label or keyword consumes input and is never STREAM_END |
| LexerSpec.LexName | src/lexer.c:66-137 | lex_name always returns a token, never STREAM_END, and consumes input |
| LexerSpec.DigitOfIsHexDigit | src/lexer.c:165-256 | every digit a radix's loop accepts is a hex digit whose value is below its base |
| LexerSpec.DigitLoop | src/lexer.c:165-181 | a literal loop that ends stops on whitespace or EOF, within the input |
| LexerSpec.LexInt | src/lexer.c:147-272 | lex_int consumes input unless it spins, and a token it returns is CONST_INT |
| LexerSpec.AfterZero | src/lexer.c:153-259 | after a leading 0 the result stays within the input and any token is CONST_INT |
| LexerSpec.ScanStep | src/main.c:81-94 | a pass of the scan loop body consumes input unless lex_int spins, and stores no STREAM_END |
| LexerProps.NextCharAdvances | src/lexer.c:48-61 | at EOF next_char changes nothing, otherwise the cursor moves one character and `current_char` is the character under it |
| LexerProps.FirstChar | src/main.c:79 | the first next_char puts the first character (or EOF) in `current_char` |
| LexerProps.StartTracks | src/main.c:21 | before any character is read the counters say line 1, column 0 |
| LexerProps.NextCharTracks | src/lexer.c:53-59 | `line_count` stays 1 + the line feeds read and `col_count` the characters since the last one, both modulo 2^16 |
| LexerProps.RegisterLexed | src/lexer.c:72-90 | `V`/`v` and a hex digit give NAME_REG with the digit's value, consuming exactly two characters |
| LexerProps.AccumulateStops | src/lexer.c:97-100 | the loop stops at the end of the run of label characters under the cursor, at most 32 characters in all, with the cursor on the first character not taken |
| LexerProps.AccumulateText | src/lexer.c:97-100 | the name gains exactly the characters the loop reads, one per turn |
| LexerProps.TakeRunSlice | src/lexer.c:97-100 | the characters taken are the slice of the input from the cursor to the end of the run |
| LexerProps.AccumulateTakesRun | src/lexer.c:97-100 | the loop takes exactly the run of label characters under the cursor, up to 32 in all |
| LexerProps.LabelTextIs | src/lexer.c:97-100 | from an empty name the loop yields the text of the run and stops on the character after it |
| LexerProps.LabelTooLongOnce | src/lexer.c:101-105 | exactly one error when 32 label characters are followed by another, none otherwise |
| LexerProps.LabelDefinition | src/lexer.c:111-119 | a name followed by `:` is NAME_LBLDEF with that text, and the colon is consumed |
| LexerProps.LabelName | src/lexer.c:122-137 | a name without a colon is the name's token and nothing after the name is read |
| LexerProps.KeywordFound | src/lexer.c:122 | the keyword search stops at the index where the name is spelled |
| LexerProps.KeywordToken | src/lexer.c:122-131 | a keyword (case-sensitive) gives the token type whose value is its index, with no text |
| LexerProps.ReferenceToken | src/lexer.c:132-137 | any other name is NAME_LBLREF carrying the name |
| LexerProps.DigitLoopEnds | src/lexer.c:165-181 | a literal loop ends if and only if whitespace or EOF follows the run of digits |
| LexerProps.DigitLoopStops | src/lexer.c:165-181 | a loop that ends leaves the cursor just past the run of digits and adds no diagnostic |
| LexerProps.DigitLoopShifts | src/lexer.c:165-181 | a loop that ends holds the accumulator with every digit of the run shifted in, one per turn |
| LexerProps.RunFromShiftAll | src/lexer.c:165-181 | shifting the run in one index at a time is shifting in the whole slice of digits |
| LexerProps.DigitLoopValue | src/lexer.c:165-181 | a loop that ends has read exactly the run of digits and holds their value shifted into the accumulator |
| LexerProps.FinishLiteral | src/lexer.c:262-271 | a literal up to 4095 becomes CONST_INT with its value; a larger one is one error and no token |
| LexerProps.DecimalLiteral | src/lexer.c:243-267 | a literal starting with 1-9: its base-10 value, the hang and range cases included |
| LexerProps.PrefixedLiteral | src/lexer.c:158-184 | after a prefix, the radix's literal, with one more error when no digit follows the prefix |
| LexerProps.ZeroPrefixed | src/lexer.c:153-236 | `0x`, `0b`, `0o` in either case read the digits of that radix from the third character |
| LexerProps.ZeroLetter | src/lexer.c:238-241 | `0` and a non-prefix letter: one error, the value 0, and the letter left for the next token |
| LexerProps.ZeroSkips | src/lexer.c:243-259 | `0` followed by a non-letter skips that character and reads the decimal run after it, from 0 |
| LexerProps.ZeroBlankSeven | src/lexer.c:243-259 | `0 7` scans to the single literal 7 and the sentinel |
| LexerProps.ScanLoopLength | src/main.c:80-95 | a scan that ends stores at most one token per character left, then the sentinel |
| LexerProps.ScanLoopEnds | src/main.c:80-95 | the stream ends with the sentinel and has no other STREAM_END |
| LexerProps.ScanShape | src/main.c:79-95 | every scan that ends: sealed by the sentinel, at most `\|input\| + 1` tokens |
| LexerProps.InertSkips | src/main.c:92-93 | a character that starts no lexeme is a step that only advances the cursor |
| LexerProps.ScanLoopSkips | src/main.c:92-93 | characters that start no lexeme are skipped without a token or diagnostic |
| LexerProps.SkipOnly | src/main.c:79-95 | input made only of such characters scans to the sentinel alone, with no diagnostic |
| LexerProps.CommaOverflows | src/main.c:73 | a lone `,` scans to two tokens, one more than the slots allocated for it |
| Scanner.Scanner.NextChar | src/lexer.c:48-61 | updates the globals as LexerSpec.NextChar says and returns the new `current_char` |
| Scanner.Scanner.LexName | src/lexer.c:66-137 | returns LexerSpec.LexName's token and leaves its state |
| Scanner.Scanner.DigitLoop | src/lexer.c:165-181 | computes LexerSpec.DigitLoop, answering `Spins` where C loops forever |
| Scanner.Scanner.Finish | src/lexer.c:262-271 | the range check of LexerSpec.Finish, reporting a value above 4095 |
| Scanner.Scanner.Prefixed | src/lexer.c:156-236 | a literal after its prefix, as LexerSpec.Prefixed |
| Scanner.Scanner.LexInt | src/lexer.c:147-272 | returns LexerSpec.LexInt's result and leaves its state |
| Scanner.Scanner.AfterZero | src/lexer.c:153-259 | the branches after a leading 0, as LexerSpec.AfterZero |
| Scanner.Scanner.Step | src/main.c:81-94 | one pass of the scan loop body, as LexerSpec.ScanStep |
| Scanner.Scanner.Run | src/main.c:79-95 | the token array holds `Scan(input).tokens` in `\|input\| + 1` slots; `diverged` exactly when the scan never ends |
| Scanner.FindKeyword | src/lexer.c:122 | the index of the keyword search |
| EncoderSpec.NextTkn | src/parser.h:42-44 | next_tkn reads the next token; the token after the stream's last is the sentinel |
| EncoderSpec.Expect | src/parser.c:142-145 | reads one token, which becomes current |
| EncoderSpec.Hi4 | src/parser.c:85 | `(n & 0xF00) >> 8` is one hex digit |
| EncoderSpec.Emit | src/parser.c:562 | writing the parsed bytes through `byte_ptr` changes only the current word's stored bytes |
| EncoderSpec.RefAt | src/parser.c:31-48 | push_label_ref records at most one reference, at the current word |
| EncoderSpec.Statement | src/parser.c:562-699 | a label definition records the next word's address and emits nothing; any other token emits one word and touches no other word |
| EncoderSpec.EncodeLoop | src/parser.c:560-701 | the loop keeps the buffer's size, writes at most one word per token and always reads on |
| EncoderSpec.Initial | src/main.c:104-113 | one word of output per token, empty label tables |
| Encoder.Encoder.Next | src/parser.h:42-44 | next_tkn on the object, only the reader changes |
| Encoder.Encoder.ExpectTkn | src/parser.c:142-145 | reads a token, reports a mismatch, and returns whether the type matched |
| Encoder.Encoder.PushRef | src/parser.c:31-48 | appends a reference to the current word and changes nothing else |
| Encoder.Encoder.ParseAddr | src/parser.c:75-134 | parse_jmp/vjmp/call store what EncoderSpec.ParseAddr says |
| Encoder.Encoder.ParseSkip | src/parser.c:139-202 | parse_sne/se store what EncoderSpec.ParseSkip says |
| Encoder.Encoder.ParseMov | src/parser.c:207-300 | parse_mov as EncoderSpec.ParseMov |
| Encoder.Encoder.MovSource | src/parser.c:217-282 | mov's source operand as EncoderSpec.MovSource |
| Encoder.Encoder.ParseAlu | src/parser.c:305-430 | parse_or/and/xor/sub/subn as EncoderSpec.ParseAlu |
| Encoder.Encoder.ParseRnd | src/parser.c:435-459 | parse_rnd as EncoderSpec.ParseRnd |
| Encoder.Encoder.ParseDrw | src/parser.c:464-502 | parse_drw as EncoderSpec.ParseDrw |
| Encoder.Encoder.DrwSprite | src/parser.c:473-491 | drw's second register and height as EncoderSpec.DrwSprite |
| Encoder.Encoder.ParseAdd | src/parser.c:507-555 | parse_add as EncoderSpec.ParseAdd |
| Encoder.Encoder.AddSource | src/parser.c:517-544 | add's source operand as EncoderSpec.AddSource |
| Encoder.Encoder.AddToIndex | src/parser.c:534-544 | `add I, vx` as EncoderSpec.AddToIndex |
| Encoder.Encoder.AddToReg | src/parser.c:517-533 | `add vx, ...` as EncoderSpec.AddToReg |
| Encoder.Encoder.ParseOneReg | src/parser.c:580-678 | the one-register mnemonics as EncoderSpec.ParseOneReg |
| Encoder.Encoder.Dispatch | src/parser.c:564-697 | the dispatch switch as EncoderSpec.Dispatch |
| Encoder.Encoder.Store | src/parser.c:562 | the buffer is EncoderSpec.Emit of the bytes stored this statement |
| Encoder.Encoder.Statement | src/parser.c:562-699 | one loop pass leaves the state EncoderSpec.Statement describes |
| Encoder.Encoder.Run | src/parser.c:560-701 | parse_tkn_stream leaves the state EncoderSpec.EncodeLoop describes |
| EncoderProps.ExpectReads | src/parser.c:142-145 | expecting anything but STREAM_END counts an error if the sentinel is read |
| EncoderProps.ParseAddrReads | src/parser.c:75-134 | parse_jmp/vjmp/call read forward, never lose an error, and count one if they read the sentinel |
| EncoderProps.ParseSkipReads | src/parser.c:139-202 | the same for parse_sne/se |
| EncoderProps.ParseMovReads | src/parser.c:207-300 | the same for parse_mov |
| EncoderProps.MovSourceReads | src/parser.c:217-282 | the same for mov's source operand |
| EncoderProps.ParseAluReads | src/parser.c:305-430 | the same for the ALU mnemonics |
| EncoderProps.ParseRndReads | src/parser.c:435-459 | the same for parse_rnd |
| EncoderProps.DrwHeightReads | src/parser.c:481-491 | the same for drw's height |
| EncoderProps.DrwSpriteReads | src/parser.c:473-491 | the same for drw's second register and height |
| EncoderProps.ParseDrwReads | src/parser.c:464-502 | the same for parse_drw |
| EncoderProps.ParseAddReads | src/parser.c:507-555 | the same for parse_add |
| EncoderProps.ParseOneRegReads | src/parser.c:580-678 | the same for the one-register mnemonics |
| EncoderProps.DispatchReads | src/parser.c:564-697 | the same for every statement body |
| EncoderProps.EncodeLoopReads | src/parser.c:560-701 | the loop never takes an error back, and a run that ends past the stream has counted an error |
| EncoderProps.OverrunIsReported | src/parser.c:560-701 | the encoder reads past the sentinel only after counting an error, and keeps the scanner's errors |
| EncoderProps.Lo8Value | src/parser.c:86 | `n & 0xFF` stored in a byte is `n` mod 256 |
| EncoderProps.TwelveBits | src/main.c:141-142 | the two patched parts of an address make its low twelve bits |
| EncoderProps.LabelAddrEven | src/parser.c:66 | a definition's address is even, and `0x200 + 2w` while it does not wrap |
| EncoderProps.StatementKeeps | src/parser.c:562-699 | a pass moves the word cursor by at most one and keeps every definition at a word's address |
| EncoderProps.EncodeLoopKeeps | src/parser.c:560-701 | words left behind are never rewritten, the tables only grow, references point at written words, definitions at word addresses |
| EncoderProps.EncodeKeeps | src/parser.c:560-701 | over a whole stream: at most one word per token, references below the cursor, definitions at word addresses |
| EncoderProps.StatementAscending | src/parser.c:31-48 | a reference is pushed above every earlier one |
| EncoderProps.EncodeLoopAscending | src/parser.c:560-701 | the references stay in strictly increasing word order |
| EncoderProps.EncodeRefsAscending | src/parser.c:560-701 | no two references of an encoding share a word |
| EncoderProps.EmptyStream | src/parser.c:561 | the sentinel alone encodes to no words, no labels and no diagnostics |
| Encodings.NoOperandWords | src/parser.c:679-688 | cls is 00E0 and ret is 00EE, reading nothing |
| Encodings.OneRegDispatch | src/parser.c:580-678 | each one-register mnemonic passes its opcode bytes to the register parser |
| Encodings.OneRegisterWords | src/parser.c:580-678 | shr, shl, wkp, skd, sku, ldf, bcd, lod, str with `vx` store 8x06, 8x0E, Fx0A, Ex9E, ExA1, Fx29, Fx33, Fx65, Fx55 |
| Encodings.OneRegisterMissing | src/parser.c:581-588 | without its register a one-register mnemonic counts one error and still stores both bytes |
| Encodings.AddrDispatch | src/parser.c:567-578 | jmp, call, vjmp dispatch to the address parser with 0x10, 0x20, 0xB0 |
| Encodings.AddrDiags | src/parser.c:81-84 | an address below 0x200 is one warning, never an error |
| Encodings.AddrWords | src/parser.c:75-134 | jmp/call/vjmp with an integer store 1nnn/2nnn/Bnnn with its low twelve bits |
| Encodings.AddrLabel | src/parser.c:77-79 | with a label only the opcode byte is stored and the label is pushed as a reference |
| Encodings.AddrOther | src/parser.c:87-90 | any other operand is one error and nothing is stored |
| Encodings.SkipDispatch | src/parser.c:565-568 | se and sne dispatch with 3xkk/5xy0 and 4xkk/9xy0 |
| Encodings.SkipImmWords | src/parser.c:139-202 | `se vx, kk` is 3xkk, `sne vx, kk` 4xkk, a too-large kk printed but not counted |
| Encodings.SkipRegWords | src/parser.c:139-202 | `se vx, vy` is 5xy0, `sne vx, vy` 9xy0 |
| Encodings.MovOperands | src/parser.c:210-215 | a destination and a comma are read without error before the source |
| Encodings.MovEncodes | src/parser.c:207-300 | what the source operand stores is what the mov statement stores |
| Encodings.MovImmWords | src/parser.c:218-228 | `mov vx, kk` is 6xkk |
| Encodings.MovImmTooLarge | src/parser.c:219-223 | mov counts an immediate above 255 as an error and stores nothing |
| Encodings.MovRegWords | src/parser.c:229-233 | `mov vx, vy` is 8xy0 |
| Encodings.MovDelayWords | src/parser.c:234-238 | `mov vx, dtimer` is Fx07 |
| Encodings.MovSoundWords | src/parser.c:248-258 | `mov stimer, vx` is Fx18 |
| Encodings.MovDelaySetWords | src/parser.c:259-269 | `mov dtimer, vx` is Fx15 |
| Encodings.MovIndexWords | src/parser.c:270-283 | `mov I, nnn` is Annn with the low twelve bits |
| Encodings.MovBadDest | src/parser.c:285-288 | a destination mov does not accept is one error and nothing is stored |
| Encodings.AluDispatch | src/parser.c:566-576 | or, and, xor, sub, subn dispatch with 8xy1, 8xy2, 8xy3, 8xy5, 8xy7 |
| Encodings.AluWords | src/parser.c:305-430 | `or/and/xor/sub/subn vx, vy` are 8xy1, 8xy2, 8xy3, 8xy5, 8xy7 |
| Encodings.AluFirstMissing | src/parser.c:306-307 | without the first register nothing is stored |
| Encodings.AddOperands | src/parser.c:510-515 | a destination and a comma are read without error before the source |
| Encodings.AddRegWords | src/parser.c:518-520 | `add vx, vy` is 8xy4 |
| Encodings.AddImmWords | src/parser.c:521-528 | `add vx, kk` is 7xkk; an immediate above 255 is counted and stored anyway |
| Encodings.AddIndexWords | src/parser.c:534-544 | `add I, vx` is Fx1E |
| Encodings.RndWords | src/parser.c:435-459 | `rnd vx, kk` is Cxkk with the low eight bits of kk |
| Encodings.DrwShape | src/parser.c:464-492 | what parse_drw stores for `vx, vy, n` |
| Encodings.DrwWords | src/parser.c:464-502 | `drw vx, vy, n` is Dxyn |
| Encodings.DrwTooTall | src/parser.c:486-491 | a height above 15 is counted and the word is stored anyway |
| Resolver.Resolver.CheckDuplicates | src/main.c:119-127 | the uniqueness loops leave the diagnostics ResolverSpec.CheckDuplicates describes |
| Resolver.Resolver.ResolveReferences | src/main.c:129-151 | the resolution loops leave the buffer and diagnostics ResolverSpec.Resolve describes |
| ResolverSpec.RefLoop | src/main.c:136-143 | patching never changes the buffer's length |
| ResolverSpec.Resolve | src/main.c:129-151 | resolution never changes the buffer's length |
| ResolverProps.DupsFromErrors | src/main.c:122-127 | the inner loop appends only multiple-definition errors, and none exactly when no later definition shares the name |
| ResolverProps.DupsOuterErrors | src/main.c:120-127 | the outer loop appends none exactly when the names from `i` on are distinct |
| ResolverProps.CheckDuplicatesIff | src/main.c:119-127 | only multiple-definition errors are added, and none exactly when all label names are distinct |
| ResolverProps.DupsFromCount | src/main.c:122-126 | the inner loop for definition `i` counts one error per later definition `b >= j` with the same name, each logged at definition `b` |
| ResolverProps.DupsOuterCount | src/main.c:121-126 | the outer loop counts one error per pair `a < b` of equal names from `i` on, each logged at definition `b` |
| ResolverProps.TwinsSplit | src/main.c:121-122 | the pairs from `i` on are row `i`'s pairs and the pairs from `i + 1`, with no overlap |
| ResolverProps.CheckDuplicatesCount | src/main.c:119-127 | the uniqueness check counts exactly one error per pair of definitions with equal names, and every new log entry is a multiple-definition report at the later definition of such a pair |
| ResolverProps.RefLoopFound | src/main.c:133-144 | `found` holds exactly when some definition has the name; only the reference's word changes |
| ResolverProps.RefLoopUnique | src/main.c:136-143 | with distinct names the word is patched with the one matching definition's address |
| ResolverProps.RefResolved | src/main.c:145 | a reference is found exactly when its name is defined |
| ResolverProps.ResolveFromErrors | src/main.c:133-151 | only undefined-reference errors are appended, one per undefined reference |
| ResolverProps.ResolveErrors | src/main.c:129-151 | resolution adds exactly one error per reference to an undefined name |
| ResolverProps.ResolveFromWords | src/main.c:133-151 | each defined reference's word gets its label's address; every other byte keeps the encoder's value |
| ResolverProps.ResolveWords | src/main.c:129-151 | the same over the whole reference table |
| ResolverProps.ResolvedImage | src/main.c:129-167 | the written words, cut at the output cursor, are the encoder's words with every reference patched |
| Pipeline.Run | src/main.c:55-167 | running scanner, encoder and resolver objects in order gives exactly `Assemble(input)` |
| Pipeline.AssembledMeans | src/main.c:153-158 | an image means no scanner, encoder, duplicate or undefined-reference error, and two bytes per word written |
| Pipeline.AssembledShape | src/main.c:160-167 | the image is the resolved buffer up to the output cursor |
| Pipeline.AssembledImage | src/main.c:129-167 | the image is the encoder's words with each label reference patched with its label's address |
| Pipeline.ErrorsRefuse | src/main.c:155-158 | any error counted by the encoder or before it means no image |
| Pipeline.UndefinedOnlyAfterError | src/parser.h:42-44 | reading past the sentinel happens only in a program that already has an error |
| Walkthrough.EndToEnd | src/main.c:55-167 | the source `mov v0, 5` / `jmp target` / `target:` / `cls` assembles with no diagnostic into the image `60 05 12 04 00 E0`, the forward jump carrying the address of the label defined after it |
| Walkthrough.ScanProgram | src/main.c:79-95 | the scan loop turns that text into `mov`, `v0`, `,`, `5`, `jmp`, a reference to `target`, a definition of `target`, `cls` and the sentinel, each at its own line and column, and logs nothing |
| Walkthrough.KeywordAt | src/lexer.c:122 | the keyword search stops at a keyword's own index when no earlier keyword starts with the same letter |
| Walkthrough.ProgramKeywords | src/lexer.c:122-137 | `mov`, `jmp` and `cls` become their instruction tokens, with no text kept |
| Walkthrough.TargetIsLabel | src/lexer.c:122-137 | `target` matches no keyword, so it becomes a label reference that keeps its text |
| Walkthrough.RegisterStep | src/lexer.c:72-90 | `v0` is register 0, and both of its characters are consumed |
| Walkthrough.CommaStep | src/main.c:83-89 | a comma becomes a one-character token at its own position |
| Walkthrough.FiveStep | src/lexer.c:243-267 | `5` before a newline is the decimal constant 5, and the newline is where the scan goes on |
| Walkthrough.TargetRefStep | src/lexer.c:97-137 | `target` at the end of a line is a reference token, and the newline is not consumed |
| Walkthrough.TargetDefStep | src/lexer.c:97-119 | `target:` is a definition token, and the colon is consumed |
| Walkthrough.ClsStep | src/lexer.c:97-137 | `cls` at the end of the input is a keyword token, and the scan reaches end of file |
| Walkthrough.MovWord | src/parser.c:207-230 | `mov v0, 5` writes `0x60` or'ed with register 0, then `5`, and reading stops on the constant |
| Walkthrough.JmpWord | src/parser.c:75-80 | `jmp target` writes the opcode byte `0x10` alone and pushes a reference for the label |
| Walkthrough.EncodeProgram | src/parser.c:560-701 | the encoder writes three words (`6005`, `1000`, `00E0`), records `target` at address 0x204, holds one reference to word 1, and stops on the sentinel |
| Walkthrough.NoDuplicates | src/main.c:119-127 | a single definition draws no multiple-definition error |
| Walkthrough.ResolveProgram | src/main.c:129-151 | the reference is found: word 1 becomes `1204`, nothing is reported, and the other words keep their bytes |

## Left out

- Reading and writing files, the command line and `argc`/`argv`, and the
  name `out.ch8`. The source text is a parameter and the image a result.
- Printing diagnostics and warning or error totals, and the exit codes
  of `panic`. A diagnostic is a record in a log; only the two counters
  matter for the outcome.
- `malloc`/`realloc` and their failure paths, and the one-at-a-time
  growth of the label tables. Tables are sequences.
- The content of freshly allocated output: C's `malloc` leaves it
  indeterminate. The model starts from zeros, which can show only in a
  byte that a label patch or'es into. Such a byte was always stored
  first (`Encodings.AddrLabel`).
- Bytes, not characters: the source is read as `char`, and a byte
  above 0x7F is negative in C. The input here is a sequence of
  characters, and a character outside ASCII belongs to no class.
- Reading one byte past the input buffer (`infile_buffer_ptr[0]` after
  the last character, in the register test) is modelled as reading NUL.
- After the encoder reads past the sentinel, C's behaviour is undefined.
  The model stops there with `Outcome.Undefined`.
- LexerSpec.ShiftIn: the literal accumulator of lex_int is a C `int`
  (src/lexer.c:148), multiplied and added to with no overflow guard
  (lines 167, 198, 223, 249). The model accumulates in an unbounded
  `nat`, so a literal beyond the `int` range is reported as too large.
  In C that signed overflow is undefined; a build that wraps could
  accept `jmp 0x100000200` as `jmp 0x200`.
- Tokens.NumOf: a token's value is a C union of `num` and `text`
  (src/lexer.h:62-65). For label, keyword, `I`, sentinel and
  indeterminate tokens the model reads `num` as 0, where C reads pointer
  bits or garbage. So after `rnd v0, name` the range test of
  src/parser.c:453 counts no second error in the model, where C may.
- Tokens.EndToken: src/main.c:95 sets only the sentinel's type. The
  model gives it line 0, column 0 and value 0. Only a diagnostic
  reported at the sentinel shows them; C would print whatever the
  allocated slot held.
- A word whose bytes the encoder never stores: `Encodings.WordOf` counts
  a byte that is not stored as 0.
- ResolverProps.ResolveWords: gives the patched value only when label
  names are distinct. With duplicates every definition is or'ed in turn,
  but that program has already failed the uniqueness check and writes
  nothing.
- The per-parser value lemmas of `Encodings` cover well-formed operands
  and the main error cases. Every other error path is covered by the
  `EncoderProps.*Reads` lemmas and `Pipeline.ErrorsRefuse`: an error
  means no image.

## Findings

| source | as written | input that shows it | evidently intended | confidence | as-written member | corrected member |
|---|---|---|---|---|---|---|
| src/main.c:73 | the token buffer has one slot per input character, and the sentinel store at src/main.c:95 adds one token more | `,` (one character, two tokens) | room for one more token than characters, for the sentinel | not executed | LexerProps.CommaOverflows | Scanner.Scanner.Run |

The corrected scanner allocates `|input| + 1` slots.
`LexerProps.ScanShape` proves that every scan fits in that many slots.
