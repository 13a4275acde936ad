/** The whole of main (src/main.c:55-167) from the bytes of the source
    file to what is written: scan, encode, check the label definitions,
    resolve the references, and write the image only when no error was
    counted. `Assemble` is the function; `Run` drives the three objects. */
module Pipeline {
  import opened Tokens
  import opened Diagnostics
  import opened LexerSpec
  import opened LexerProps
  import opened EncoderSpec
  import opened EncoderProps
  import opened ResolverSpec
  import opened ResolverProps
  import Scanner
  import Encoder
  import Resolver

  /** How a run of the assembler ends: an empty source file is refused
      (src/main.c:56-59); the scanner may never leave its loop; the
      encoder may read past the sentinel, after which C's behaviour is
      undefined; errors were counted and nothing is written
      (src/main.c:155-158); or the image is written. */
  datatype Outcome =
    | EmptyFile
    | NeverEnds
    | Undefined
    | Failed(diags: Diags)
    | Assembled(image: seq<bv8>, diags: Diags)

  /** The references of a whole encoding all point into its buffer. */
  lemma EncodedRefsIn(toks: seq<Token>, d: Diags)
    ensures RefsIn(Encode(toks, d).refs, Encode(toks, d).out)
  {
    EncodeKeeps(toks, d);
  }

  function Assemble(input: seq<char>): Outcome {
    if |input| == 0 then EmptyFile
    else
      match Scan(input)
      case Diverges => NeverEnds
      case Scanned(toks, st) =>
        var e := Encode(toks, st.diags);
        if Overrun(toks, e.rd) then Undefined
        else
          EncodedRefsIn(toks, st.diags);
          var res := Resolve(e.out, e.defs, e.refs, CheckDuplicates(e.defs, e.rd.diags));
          if res.1.errors > 0 then Failed(res.1) else Assembled(res.0[..2 * e.wp], res.1)
  }

  /** main's sequence of phases, on the objects that run them. */
  method Run(input: seq<char>) returns (r: Outcome)
    ensures r == Assemble(input)
  {
    if |input| == 0 {
      return EmptyFile;
    }
    var sc := new Scanner.Scanner(input);
    var tokens, count, diverged := sc.Run();
    if diverged {
      return NeverEnds;
    }
    var toks := tokens[..count];
    var enc := new Encoder.Encoder(toks, sc.diags);
    enc.Run();
    assert enc.State() == Encode(toks, sc.diags);
    if Overrun(toks, enc.Rd()) {
      return Undefined;
    }
    EncodedRefsIn(toks, sc.diags);
    var res := new Resolver.Resolver(enc.out, enc.defs, enc.refs, enc.diags);
    res.CheckDuplicates();
    res.ResolveReferences();
    if res.diags.errors > 0 {
      return Failed(res.diags);
    }
    r := Assembled(enc.out[..2 * enc.wp], res.diags);
  }

  /** An image is written only when the scanner, the encoder, the
      uniqueness check and resolution all counted no error: every label is
      defined once, every reference names one of them, and the image is
      the words the encoder wrote, two bytes each
      (src/main.c:104, 119-158). */
  lemma AssembledMeans(input: seq<char>)
    requires Assemble(input).Assembled?
    ensures Scan(input).Scanned? && Sealed(Scan(input).tokens)
    ensures Scan(input).state.diags.errors == 0
    ensures var e := Encode(Scan(input).tokens, Scan(input).state.diags);
      e.rd.diags.errors == 0 && Distinct(e.defs) && UndefinedCount(e.defs, e.refs) == 0 &&
      |Assemble(input).image| == 2 * e.wp && e.wp <= |input| + 1
  {
    ScanShape(input);
    var toks := Scan(input).tokens;
    var d := Scan(input).state.diags;
    var e := Encode(toks, d);
    OverrunIsReported(toks, d);
    EncodeKeeps(toks, d);
    EncodedRefsIn(toks, d);
    var d1 := CheckDuplicates(e.defs, e.rd.diags);
    CheckDuplicatesIff(e.defs, e.rd.diags);
    ResolveErrors(e.out, e.defs, e.refs, d1);
  }

  /** The image of an accepted program, stated on the phases' results. */
  lemma AssembledShape(input: seq<char>)
    requires Assemble(input).Assembled?
    ensures Scan(input).Scanned?
    ensures var e := Encode(Scan(input).tokens, Scan(input).state.diags);
      RefsIn(e.refs, e.out) &&
      Assemble(input).image == Resolve(e.out, e.defs, e.refs, CheckDuplicates(e.defs, e.rd.diags)).0[..2 * e.wp]
  {
    EncodedRefsIn(Scan(input).tokens, Scan(input).state.diags);
  }

  lemma AscendingDistinct(refs: seq<LabelRef>)
    requires RefsAscending(refs)
    ensures WordsDistinct(refs)
  {
  }

  /** What the written image holds: the words the encoder wrote, with the
      word of every reference patched with its label's address
      (src/main.c:136-144) and every other byte as encoded. */
  lemma AssembledImage(input: seq<char>)
    requires Assemble(input).Assembled?
    ensures Scan(input).Scanned?
    ensures var e := Encode(Scan(input).tokens, Scan(input).state.diags);
      PatchedImage(Assemble(input).image, e.out, e.defs, e.refs)
  {
    AssembledMeans(input);
    AssembledShape(input);
    var toks := Scan(input).tokens;
    var d := Scan(input).state.diags;
    var e := Encode(toks, d);
    EncodeKeeps(toks, d);
    EncodeRefsAscending(toks, d);
    AscendingDistinct(e.refs);
    ResolvedImage(e.out, e.defs, e.refs, CheckDuplicates(e.defs, e.rd.diags), e.wp);
  }

  /** Any error counted on the way, by any phase, means no image
      (src/main.c:155-158): the later phases only ever add errors. */
  lemma ErrorsRefuse(input: seq<char>)
    requires |input| > 0 && Scan(input).Scanned?
    requires Encode(Scan(input).tokens, Scan(input).state.diags).rd.diags.errors > 0
    ensures !Assemble(input).Assembled?
  {
    var toks := Scan(input).tokens;
    var d := Scan(input).state.diags;
    var e := Encode(toks, d);
    EncodedRefsIn(toks, d);
    var d1 := CheckDuplicates(e.defs, e.rd.diags);
    CheckDuplicatesIff(e.defs, e.rd.diags);
    ResolveErrors(e.out, e.defs, e.refs, d1);
  }

  /** Reading past the sentinel happens only in a program that already
      has an error, so the undefined path is never taken by a program
      the assembler would accept. */
  lemma UndefinedOnlyAfterError(input: seq<char>)
    requires Assemble(input).Undefined?
    ensures Scan(input).Scanned?
    ensures Encode(Scan(input).tokens, Scan(input).state.diags).rd.diags.errors > 0
  {
    ScanShape(input);
    OverrunIsReported(Scan(input).tokens, Scan(input).state.diags);
  }
}
