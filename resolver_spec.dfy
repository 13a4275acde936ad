/** The two passes main runs over the label tables once the encoder is
    done (src/main.c:119-150): every pair of definitions with the same
    name is an error reported at the later one, and every reference is
    patched with the address of each definition of its name, or reported
    when there is none. Functions over the tables, the output bytes and
    the diagnostics; module Resolver runs the same loops in place. */
module ResolverSpec {
  import opened Diagnostics
  import opened EncoderSpec

  // ---------------------------------------------------------------------
  // Uniqueness of label definitions (src/main.c:120-127)

  /** The inner loop: definition `i` against definitions `j` and later. */
  function DupsFrom(defs: seq<LabelDef>, i: nat, j: nat, d: Diags): Diags
    requires i < j <= |defs|
    decreases |defs| - j
  {
    if j == |defs| then d
    else
      var d1 := if defs[i].text == defs[j].text
        then AddError(d, defs[j].line, defs[j].col, MultipleDefinition(defs[j].text)) else d;
      DupsFrom(defs, i, j + 1, d1)
  }

  /** The outer loop, from definition `i` on. */
  function DupsOuter(defs: seq<LabelDef>, i: nat, d: Diags): Diags
    requires i <= |defs|
    decreases |defs| - i
  {
    if i == |defs| then d else DupsOuter(defs, i + 1, DupsFrom(defs, i, i + 1, d))
  }

  function CheckDuplicates(defs: seq<LabelDef>, d: Diags): Diags {
    DupsOuter(defs, 0, d)
  }

  /** No two definitions share a name. */
  predicate Distinct(defs: seq<LabelDef>) {
    forall i, j :: 0 <= i < j < |defs| ==> defs[i].text != defs[j].text
  }

  // ---------------------------------------------------------------------
  // Resolution of label references (src/main.c:129-150)

  /** A definition of `name` exists. */
  predicate Defined(defs: seq<LabelDef>, name: string) {
    exists j :: 0 <= j < |defs| && defs[j].text == name
  }

  /** The patch of src/main.c:141-142: the address's third hex digit is
      or-ed into the first byte of the word, its low byte replaces the
      second. */
  function Patch(out: seq<bv8>, w: nat, addr: nat): (r: seq<bv8>)
    requires 2 * w + 1 < |out|
  {
    out[2 * w := out[2 * w] | Hi4(addr) as bv8][2 * w + 1 := Lo8(addr)]
  }

  /** Every reference points at a word of the buffer. */
  predicate RefsIn(refs: seq<LabelRef>, out: seq<bv8>) {
    forall k :: 0 <= k < |refs| ==> 2 * refs[k].word + 1 < |out|
  }

  /** The inner loop for one reference: from definition `j` on, patch for
      every definition of its name and remember that one was found. */
  function RefLoop(out: seq<bv8>, defs: seq<LabelDef>, rf: LabelRef, j: nat, found: bool): (r: (seq<bv8>, bool))
    requires j <= |defs| && 2 * rf.word + 1 < |out|
    ensures |r.0| == |out|
    decreases |defs| - j
  {
    if j == |defs| then (out, found)
    else if rf.text == defs[j].text then RefLoop(Patch(out, rf.word, defs[j].addr), defs, rf, j + 1, true)
    else RefLoop(out, defs, rf, j + 1, found)
  }

  /** The outer loop, from reference `i` on: an undefined one is an error
      at the reference. */
  function ResolveFrom(out: seq<bv8>, defs: seq<LabelDef>, refs: seq<LabelRef>, i: nat, d: Diags): (r: (seq<bv8>, Diags))
    requires i <= |refs| && RefsIn(refs, out)
    ensures |r.0| == |out|
    decreases |refs| - i
  {
    if i == |refs| then (out, d)
    else
      var (o, found) := RefLoop(out, defs, refs[i], 0, false);
      var d1 := if found then d else AddError(d, refs[i].line, refs[i].col, UndefinedReference(refs[i].text));
      ResolveFrom(o, defs, refs, i + 1, d1)
  }

  function Resolve(out: seq<bv8>, defs: seq<LabelDef>, refs: seq<LabelRef>, d: Diags): (r: (seq<bv8>, Diags))
    requires RefsIn(refs, out)
    ensures |r.0| == |out|
  {
    ResolveFrom(out, defs, refs, 0, d)
  }
}
