/** What the two passes of module ResolverSpec guarantee: the uniqueness
    check reports an error exactly when two definitions share a name, and
    resolution patches each reference's word with the address of its
    definition, touches no other byte, and reports one error per reference
    to an undefined name. */
module ResolverProps {
  import opened Diagnostics
  import opened EncoderSpec
  import opened ResolverSpec

  /** `r` is `d` with errors appended: the warnings are the same, the
      old log is kept, and there is one new entry per new error, each an
      error: a multiple definition when `multiple`, an undefined reference
      otherwise. */
  predicate ErrorsAppended(d: Diags, r: Diags, multiple: bool) {
    r.warnings == d.warnings && d.errors <= r.errors && d.log <= r.log &&
    |r.log| - |d.log| == r.errors - d.errors &&
    forall k :: |d.log| <= k < |r.log| ==>
      r.log[k].severity == Error &&
      (if multiple then r.log[k].msg.MultipleDefinition? else r.log[k].msg.UndefinedReference?)
  }

  lemma ErrorsAppendedStep(d: Diags, line: int, col: int, m: Message, multiple: bool)
    requires if multiple then m.MultipleDefinition? else m.UndefinedReference?
    ensures ErrorsAppended(d, AddError(d, line, col, m), multiple)
  {
  }

  lemma ErrorsAppendedTrans(d0: Diags, d1: Diags, d2: Diags, multiple: bool)
    requires ErrorsAppended(d0, d1, multiple) && ErrorsAppended(d1, d2, multiple)
    ensures ErrorsAppended(d0, d2, multiple)
  {
    forall k | |d0.log| <= k < |d2.log|
      ensures d2.log[k].severity == Error &&
        (if multiple then d2.log[k].msg.MultipleDefinition? else d2.log[k].msg.UndefinedReference?)
    {
      if k < |d1.log| {
        assert d2.log[k] == d1.log[k];
      }
    }
  }

  lemma ErrorsAppendedRefl(d: Diags, multiple: bool)
    ensures ErrorsAppended(d, d, multiple)
  {
  }

  /** No definition from `j` on shares the name of definition `i`. */
  predicate NoLaterTwin(defs: seq<LabelDef>, i: nat, j: nat)
    requires i < |defs|
  {
    forall k :: j <= k < |defs| ==> defs[k].text != defs[i].text
  }

  /** The inner loop only appends duplicate errors, and appends none
      exactly when no later definition has the same name
      (src/main.c:122-127). */
  lemma {:induction false} DupsFromErrors(defs: seq<LabelDef>, i: nat, j: nat, d: Diags)
    requires i < j <= |defs|
    ensures ErrorsAppended(d, DupsFrom(defs, i, j, d), true)
    ensures DupsFrom(defs, i, j, d).errors == d.errors <==> NoLaterTwin(defs, i, j)
    decreases |defs| - j
  {
    if j < |defs| {
      var d1 := if defs[i].text == defs[j].text
        then AddError(d, defs[j].line, defs[j].col, MultipleDefinition(defs[j].text)) else d;
      if defs[i].text == defs[j].text {
        ErrorsAppendedStep(d, defs[j].line, defs[j].col, MultipleDefinition(defs[j].text), true);
      } else {
        ErrorsAppendedRefl(d, true);
      }
      DupsFromErrors(defs, i, j + 1, d1);
      ErrorsAppendedTrans(d, d1, DupsFrom(defs, i, j + 1, d1), true);
    }
  }

  /** No two definitions from `i` on share a name with a later one. */
  predicate DistinctFrom(defs: seq<LabelDef>, i: nat) {
    forall a, b :: i <= a < b < |defs| ==> defs[a].text != defs[b].text
  }

  lemma {:induction false} DupsOuterErrors(defs: seq<LabelDef>, i: nat, d: Diags)
    requires i <= |defs|
    ensures ErrorsAppended(d, DupsOuter(defs, i, d), true)
    ensures DupsOuter(defs, i, d).errors == d.errors <==> DistinctFrom(defs, i)
    decreases |defs| - i
  {
    if i == |defs| {
      ErrorsAppendedRefl(d, true);
    } else {
      var d1 := DupsFrom(defs, i, i + 1, d);
      DupsFromErrors(defs, i, i + 1, d);
      DupsOuterErrors(defs, i + 1, d1);
      ErrorsAppendedTrans(d, d1, DupsOuter(defs, i + 1, d1), true);
      assert DistinctFrom(defs, i) <==> NoLaterTwin(defs, i, i + 1) && DistinctFrom(defs, i + 1);
    }
  }

  /** The uniqueness check adds errors, of the multiple-definition kind
      only, and adds none exactly when all names are distinct
      (src/main.c:119-127). */
  lemma CheckDuplicatesIff(defs: seq<LabelDef>, d: Diags)
    ensures ErrorsAppended(d, CheckDuplicates(defs, d), true)
    ensures CheckDuplicates(defs, d).errors == d.errors <==> Distinct(defs)
  {
    DupsOuterErrors(defs, 0, d);
  }

  /** The pairs `(i, b)` with `j <= b` whose names are equal: the
      reports the inner loop for definition `i` still owes. */
  function RowTwins(defs: seq<LabelDef>, i: nat, j: nat): set<(nat, nat)>
    requires i < |defs|
  {
    set b: nat | j <= b < |defs| && defs[b].text == defs[i].text :: (i, b)
  }

  /** Every pair `a < b` from `i` on whose names are equal. */
  function Twins(defs: seq<LabelDef>, i: nat): set<(nat, nat)> {
    set a: nat, b: nat | i <= a < b < |defs| && defs[a].text == defs[b].text :: (a, b)
  }

  /** The diagnostic main logs for a second definition of a name, at that
      definition (src/main.c:123-124). */
  function DupReport(l: LabelDef): Diag {
    Diag(Error, l.line, l.col, MultipleDefinition(l.text))
  }

  /** `e` reports definition `b` of some pair `a < b` of equal names. */
  predicate ReportsLaterTwin(defs: seq<LabelDef>, e: Diag) {
    exists a: nat, b: nat :: a < b < |defs| && defs[a].text == defs[b].text && e == DupReport(defs[b])
  }

  /** Every log entry from index `n` on reports the later of a pair. */
  predicate TwinReportsFrom(defs: seq<LabelDef>, log: seq<Diag>, n: nat) {
    forall k :: n <= k < |log| ==> ReportsLaterTwin(defs, log[k])
  }

  /** The inner loop logs one report per pair `(i, b)`, `b >= j`
      (src/main.c:122-126). */
  lemma {:induction false} DupsFromCount(defs: seq<LabelDef>, i: nat, j: nat, d: Diags)
    requires i < j <= |defs|
    ensures DupsFrom(defs, i, j, d).errors == d.errors + |RowTwins(defs, i, j)|
    ensures d.log <= DupsFrom(defs, i, j, d).log && TwinReportsFrom(defs, DupsFrom(defs, i, j, d).log, |d.log|)
    decreases |defs| - j
  {
    if j == |defs| {
      assert RowTwins(defs, i, j) == {};
    } else {
      var twin := defs[i].text == defs[j].text;
      var d1 := if twin then AddError(d, defs[j].line, defs[j].col, MultipleDefinition(defs[j].text)) else d;
      DupsFromCount(defs, i, j + 1, d1);
      var r := DupsFrom(defs, i, j + 1, d1);
      assert (i, j) !in RowTwins(defs, i, j + 1);
      if twin {
        assert RowTwins(defs, i, j) == {(i, j)} + RowTwins(defs, i, j + 1);
        assert r.log[|d.log|] == d1.log[|d.log|] == DupReport(defs[j]);
        assert ReportsLaterTwin(defs, r.log[|d.log|]);
      } else {
        assert RowTwins(defs, i, j) == RowTwins(defs, i, j + 1);
      }
    }
  }

  /** The outer loop logs one report per pair from `i` on. */
  lemma {:induction false} DupsOuterCount(defs: seq<LabelDef>, i: nat, d: Diags)
    requires i <= |defs|
    ensures DupsOuter(defs, i, d).errors == d.errors + |Twins(defs, i)|
    ensures d.log <= DupsOuter(defs, i, d).log && TwinReportsFrom(defs, DupsOuter(defs, i, d).log, |d.log|)
    decreases |defs| - i
  {
    if i == |defs| {
      assert Twins(defs, i) == {};
    } else {
      var d1 := DupsFrom(defs, i, i + 1, d);
      DupsFromCount(defs, i, i + 1, d);
      DupsOuterCount(defs, i + 1, d1);
      TwinsSplit(defs, i);
    }
  }

  /** The pairs from `i` on are those of row `i` and those from `i + 1`. */
  lemma TwinsSplit(defs: seq<LabelDef>, i: nat)
    requires i < |defs|
    ensures |Twins(defs, i)| == |RowTwins(defs, i, i + 1)| + |Twins(defs, i + 1)|
  {
    assert Twins(defs, i) == RowTwins(defs, i, i + 1) + Twins(defs, i + 1);
    assert RowTwins(defs, i, i + 1) * Twins(defs, i + 1) == {};
  }

  /** The uniqueness check counts exactly one error per pair of
      definitions with equal names, and each new log entry reports the
      later definition of such a pair, at its line and column
      (src/main.c:119-127). */
  lemma CheckDuplicatesCount(defs: seq<LabelDef>, d: Diags)
    ensures CheckDuplicates(defs, d).errors == d.errors + |Twins(defs, 0)|
    ensures d.log <= CheckDuplicates(defs, d).log && TwinReportsFrom(defs, CheckDuplicates(defs, d).log, |d.log|)
  {
    DupsOuterCount(defs, 0, d);
  }

  // ---------------------------------------------------------------------
  // Resolution

  /** Some definition from `j` on has the name of `rf`. */
  predicate DefinedFrom(defs: seq<LabelDef>, name: string, j: nat) {
    exists k :: j <= k < |defs| && defs[k].text == name
  }

  /** The inner loop reports a match exactly when some definition from
      `j` on has the reference's name, and changes only the reference's
      word (src/main.c:133-144). */
  lemma {:induction false} RefLoopFound(out: seq<bv8>, defs: seq<LabelDef>, rf: LabelRef, j: nat, found: bool)
    requires j <= |defs| && 2 * rf.word + 1 < |out|
    ensures RefLoop(out, defs, rf, j, found).1 <==> found || DefinedFrom(defs, rf.text, j)
    ensures forall p :: 0 <= p < |out| && p != 2 * rf.word && p != 2 * rf.word + 1 ==> RefLoop(out, defs, rf, j, found).0[p] == out[p]
    ensures !DefinedFrom(defs, rf.text, j) ==> RefLoop(out, defs, rf, j, found).0 == out
    decreases |defs| - j
  {
    if j < |defs| {
      var o := if rf.text == defs[j].text then Patch(out, rf.word, defs[j].addr) else out;
      RefLoopFound(o, defs, rf, j + 1, found || rf.text == defs[j].text);
      assert DefinedFrom(defs, rf.text, j) <==> rf.text == defs[j].text || DefinedFrom(defs, rf.text, j + 1);
    }
  }

  /** With one definition of its name, at `j`, the reference's word is
      patched with that definition's address and nothing else changes. */
  lemma {:induction false} RefLoopUnique(out: seq<bv8>, defs: seq<LabelDef>, rf: LabelRef, j: nat, k: nat, found: bool)
    requires j <= k < |defs| && 2 * rf.word + 1 < |out|
    requires Distinct(defs) && defs[k].text == rf.text
    ensures RefLoop(out, defs, rf, j, found).0 == Patch(out, rf.word, defs[k].addr)
    decreases |defs| - j
  {
    if j == k {
      RefLoopFound(Patch(out, rf.word, defs[k].addr), defs, rf, j + 1, true);
    } else {
      assert defs[j].text != rf.text;
      RefLoopUnique(out, defs, rf, j + 1, k, found);
    }
  }

  /** A reference to a name some definition has resolves, in the sense of
      src/main.c:145: no error. */
  lemma RefResolved(out: seq<bv8>, defs: seq<LabelDef>, rf: LabelRef)
    requires 2 * rf.word + 1 < |out|
    ensures RefLoop(out, defs, rf, 0, false).1 <==> Defined(defs, rf.text)
  {
    RefLoopFound(out, defs, rf, 0, false);
    assert DefinedFrom(defs, rf.text, 0) <==> Defined(defs, rf.text);
  }

  /** The number of references whose name no definition has. */
  function UndefinedCount(defs: seq<LabelDef>, refs: seq<LabelRef>): nat {
    if |refs| == 0 then 0
    else (if Defined(defs, refs[0].text) then 0 else 1) + UndefinedCount(defs, refs[1..])
  }

  /** Resolution appends undefined-reference errors only, one per
      reference to an undefined name (src/main.c:146-150). */
  lemma {:induction false} ResolveFromErrors(out: seq<bv8>, defs: seq<LabelDef>, refs: seq<LabelRef>, i: nat, d: Diags)
    requires i <= |refs| && RefsIn(refs, out)
    ensures ErrorsAppended(d, ResolveFrom(out, defs, refs, i, d).1, false)
    ensures ResolveFrom(out, defs, refs, i, d).1.errors == d.errors + UndefinedCount(defs, refs[i..])
    decreases |refs| - i
  {
    if i == |refs| {
      ErrorsAppendedRefl(d, false);
    } else {
      var (o, found) := RefLoop(out, defs, refs[i], 0, false);
      RefResolved(out, defs, refs[i]);
      var d1 := if found then d else AddError(d, refs[i].line, refs[i].col, UndefinedReference(refs[i].text));
      if found {
        ErrorsAppendedRefl(d, false);
      } else {
        ErrorsAppendedStep(d, refs[i].line, refs[i].col, UndefinedReference(refs[i].text), false);
      }
      ResolveFromErrors(o, defs, refs, i + 1, d1);
      ErrorsAppendedTrans(d, d1, ResolveFrom(o, defs, refs, i + 1, d1).1, false);
      assert refs[i..][1..] == refs[i + 1..];
    }
  }

  lemma ResolveErrors(out: seq<bv8>, defs: seq<LabelDef>, refs: seq<LabelRef>, d: Diags)
    requires RefsIn(refs, out)
    ensures ErrorsAppended(d, Resolve(out, defs, refs, d).1, false)
    ensures Resolve(out, defs, refs, d).1.errors == d.errors + UndefinedCount(defs, refs)
  {
    ResolveFromErrors(out, defs, refs, 0, d);
    assert refs[0..] == refs;
  }

  /** No two references point at the same word; the encoder pushes at
      most one per word. */
  predicate WordsDistinct(refs: seq<LabelRef>) {
    forall a, b :: 0 <= a < b < |refs| ==> refs[a].word != refs[b].word
  }

  /** Byte `p` belongs to the word of no reference from `i` on whose name
      is defined. */
  predicate Untouched(defs: seq<LabelDef>, refs: seq<LabelRef>, i: nat, p: nat) {
    forall k :: i <= k < |refs| && Defined(defs, refs[k].text) ==> p / 2 != refs[k].word
  }

  /** With distinct names and distinct words, the word of every reference
      whose name is defined is patched with that definition's address, and
      every other byte is left as the encoder wrote it (src/main.c:129-150). */
  lemma {:induction false} ResolveFromWords(out: seq<bv8>, defs: seq<LabelDef>, refs: seq<LabelRef>, i: nat, d: Diags)
    requires i <= |refs| && RefsIn(refs, out) && Distinct(defs) && WordsDistinct(refs)
    ensures forall k, j :: i <= k < |refs| && 0 <= j < |defs| && defs[j].text == refs[k].text ==>
      ResolveFrom(out, defs, refs, i, d).0[2 * refs[k].word] == out[2 * refs[k].word] | Hi4(defs[j].addr) as bv8 &&
      ResolveFrom(out, defs, refs, i, d).0[2 * refs[k].word + 1] == Lo8(defs[j].addr)
    ensures forall p :: 0 <= p < |out| && Untouched(defs, refs, i, p) ==> ResolveFrom(out, defs, refs, i, d).0[p] == out[p]
    decreases |refs| - i
  {
    if i < |refs| {
      var rf := refs[i];
      var (o, found) := RefLoop(out, defs, rf, 0, false);
      RefLoopFound(out, defs, rf, 0, false);
      var d1 := if found then d else AddError(d, rf.line, rf.col, UndefinedReference(rf.text));
      ResolveFromWords(o, defs, refs, i + 1, d1);
      var r := ResolveFrom(o, defs, refs, i + 1, d1).0;
      assert ResolveFrom(out, defs, refs, i, d).0 == r;
      forall k, j | i <= k < |refs| && 0 <= j < |defs| && defs[j].text == refs[k].text
        ensures r[2 * refs[k].word] == out[2 * refs[k].word] | Hi4(defs[j].addr) as bv8
        ensures r[2 * refs[k].word + 1] == Lo8(defs[j].addr)
      {
        if k == i {
          RefLoopUnique(out, defs, rf, 0, j, false);
          assert Untouched(defs, refs, i + 1, 2 * rf.word);
          assert Untouched(defs, refs, i + 1, 2 * rf.word + 1);
        } else {
          assert refs[k].word != rf.word;
        }
      }
      forall p | 0 <= p < |out| && Untouched(defs, refs, i, p)
        ensures r[p] == out[p]
      {
        assert Untouched(defs, refs, i + 1, p);
        if Defined(defs, rf.text) {
          assert p / 2 != rf.word;
        }
      }
    }
  }

  /** Resolution over the whole table (src/main.c:129-150). */
  lemma ResolveWords(out: seq<bv8>, defs: seq<LabelDef>, refs: seq<LabelRef>, d: Diags)
    requires RefsIn(refs, out) && Distinct(defs) && WordsDistinct(refs)
    ensures forall k, j :: 0 <= k < |refs| && 0 <= j < |defs| && defs[j].text == refs[k].text ==>
      Resolve(out, defs, refs, d).0[2 * refs[k].word] == out[2 * refs[k].word] | Hi4(defs[j].addr) as bv8 &&
      Resolve(out, defs, refs, d).0[2 * refs[k].word + 1] == Lo8(defs[j].addr)
    ensures forall p :: 0 <= p < |out| && Untouched(defs, refs, 0, p) ==> Resolve(out, defs, refs, d).0[p] == out[p]
  {
    ResolveFromWords(out, defs, refs, 0, d);
  }

  /** `image` is `out` with the word of every reference whose name is
      defined patched with its definition's address: the check the
      output gate's image passes. */
  predicate PatchedImage(image: seq<bv8>, out: seq<bv8>, defs: seq<LabelDef>, refs: seq<LabelRef>) {
    (forall k, j :: 0 <= k < |refs| && 0 <= j < |defs| && defs[j].text == refs[k].text ==>
      2 * refs[k].word + 1 < |image| && 2 * refs[k].word + 1 < |out| &&
      image[2 * refs[k].word] == out[2 * refs[k].word] | Hi4(defs[j].addr) as bv8 &&
      image[2 * refs[k].word + 1] == Lo8(defs[j].addr)) &&
    (forall p :: 0 <= p < |image| && Untouched(defs, refs, 0, p) ==> p < |out| && image[p] == out[p])
  }

  /** The first `wp` words after resolution, when every reference points
      below word `wp`. */
  lemma ResolvedImage(out: seq<bv8>, defs: seq<LabelDef>, refs: seq<LabelRef>, d: Diags, wp: nat)
    requires RefsIn(refs, out) && RefsBelow(refs, wp) && 2 * wp <= |out|
    requires Distinct(defs) && WordsDistinct(refs)
    ensures PatchedImage(Resolve(out, defs, refs, d).0[..2 * wp], out, defs, refs)
  {
    ResolveWords(out, defs, refs, d);
  }
}
