/** The tail of main (src/main.c:119-150) as it runs: a `Resolver` holds
    the output buffer the encoder filled, the two label tables and the
    diagnostics, and its two methods run the nested loops of the source,
    updating the diagnostics and patching the buffer in place. Each is
    proved to do what its namesake in ResolverSpec describes. */
module Resolver {
  import opened Diagnostics
  import opened EncoderSpec
  import opened ResolverSpec

  class Resolver {
    const out: array<bv8>
    const defs: seq<LabelDef>
    const refs: seq<LabelRef>
    var diags: Diags

    constructor (buffer: array<bv8>, labelDefs: seq<LabelDef>, labelRefs: seq<LabelRef>, d: Diags)
      ensures out == buffer && defs == labelDefs && refs == labelRefs && diags == d
    {
      out, defs, refs, diags := buffer, labelDefs, labelRefs, d;
    }

    /** The uniqueness check (src/main.c:119-127). */
    method CheckDuplicates()
      modifies this
      ensures diags == ResolverSpec.CheckDuplicates(defs, old(diags))
    {
      var i := 0;
      while i < |defs|
        invariant i <= |defs|
        invariant DupsOuter(defs, i, diags) == ResolverSpec.CheckDuplicates(defs, old(diags))
        decreases |defs| - i
      {
        var j := i + 1;
        while j < |defs|
          invariant i < j <= |defs|
          invariant DupsOuter(defs, i + 1, DupsFrom(defs, i, j, diags)) == ResolverSpec.CheckDuplicates(defs, old(diags))
          decreases |defs| - j
        {
          if defs[i].text == defs[j].text {
            diags := AddError(diags, defs[j].line, defs[j].col, MultipleDefinition(defs[j].text));
          }
          j := j + 1;
        }
        i := i + 1;
      }
    }

    /** Resolution of every reference (src/main.c:129-150): the inner loop
        patches the word for each definition of the name; an undefined
        name is an error at the reference. */
    method ResolveReferences()
      requires RefsIn(refs, out[..])
      modifies this, out
      ensures (out[..], diags) == Resolve(old(out[..]), defs, refs, old(diags))
    {
      var i := 0;
      while i < |refs|
        invariant i <= |refs| && RefsIn(refs, out[..])
        invariant ResolveFrom(out[..], defs, refs, i, diags) == Resolve(old(out[..]), defs, refs, old(diags))
        decreases |refs| - i
      {
        var rf := refs[i];
        var found := false;
        var j := 0;
        ghost var start := out[..];
        ghost var d := diags;
        while j < |defs|
          invariant j <= |defs| && |out[..]| == |start|
          invariant RefLoop(out[..], defs, rf, j, found) == RefLoop(start, defs, rf, 0, false)
          invariant diags == d
          decreases |defs| - j
        {
          if rf.text == defs[j].text {
            found := true;
            ghost var before := out[..];
            out[2 * rf.word] := out[2 * rf.word] | Hi4(defs[j].addr) as bv8;
            out[2 * rf.word + 1] := Lo8(defs[j].addr);
            assert out[..] == Patch(before, rf.word, defs[j].addr);
          }
          j := j + 1;
        }
        if !found {
          diags := AddError(diags, rf.line, rf.col, UndefinedReference(rf.text));
        }
        i := i + 1;
      }
    }
  }
}
