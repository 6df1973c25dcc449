/**
 * RenderPipelineGFX: remembers the program and blend settings of a pipeline
 * descriptor and writes them into blend target 0 of a pipeline-state record.
 */
module RenderPipeline {
  import opened GfxTypes

  /** backend::BlendDescriptor */
  datatype BlendDescriptor = BlendDescriptor(
    writeMask: bv32,
    blendEnabled: bool,
    rgbBlendOperation: BlendOperation,
    alphaBlendOperation: BlendOperation,
    sourceRGBBlendFactor: BlendFactor,
    destinationRGBBlendFactor: BlendFactor,
    sourceAlphaBlendFactor: BlendFactor,
    destinationAlphaBlendFactor: BlendFactor)

  /** backend::PipelineDescriptor: the program state is a pointer the source dereferences. */
  datatype PipelineDescriptor = PipelineDescriptor(
    programState: Option<ProgramStateRef>,
    blendDescriptor: BlendDescriptor)

  function DefaultBlendDescriptor(): BlendDescriptor {
    BlendDescriptor(0xF, false, 0, 0, 1, 0, 1, 0)
  }

  /** The object a program slot holds, if any. */
  function ProgramId(p: Option<Program>): Option<Handle> {
    if p.Some? then Some(p.value.id) else None
  }

  /**
   * The gfx colour mask for a backend write mask: each of R, G, B, A is set
   * exactly when the matching write-mask bit is, and no other bit is set.
   */
  ghost predicate MaskMatches(mask: bv32, writeMask: bv32) {
    && (HasFlag(mask, MASK_R) <==> HasFlag(writeMask, WRITE_RED))
    && (HasFlag(mask, MASK_G) <==> HasFlag(writeMask, WRITE_GREEN))
    && (HasFlag(mask, MASK_B) <==> HasFlag(writeMask, WRITE_BLUE))
    && (HasFlag(mask, MASK_A) <==> HasFlag(writeMask, WRITE_ALPHA))
    && mask & !MASK_ALL == 0
  }

  class RenderPipelineGFX {
    /** Identity of this pipeline as a reference-counted object. */
    const id: Handle
    /** `_programGFX` */
    var program: Option<Program>
    /** `_blendDescriptor` */
    var blendDescriptor: BlendDescriptor
    /** The retain and release calls this pipeline has made, in order. */
    var refOps: seq<RefOp>

    /** The calls balance out: the only reference left is the one to the held program. */
    ghost predicate Valid()
      reads this
    {
      forall h :: Net(refOps, h) == Holds(ProgramId(program), h)
    }

    constructor (id: Handle)
      ensures Valid() && this.id == id
      ensures program == None && blendDescriptor == DefaultBlendDescriptor()
      ensures refOps == []
    {
      this.id := id;
      program := None;
      blendDescriptor := DefaultBlendDescriptor();
      refOps := [];
    }

    /**
     * Takes the program of the descriptor's program state, releasing the old
     * one and retaining the new one only when the handles differ, and saves the
     * blend descriptor.
     */
    method Update(descriptor: PipelineDescriptor)
      requires Valid()
      requires descriptor.programState.Some?
      modifies this`program, this`blendDescriptor, this`refOps
      ensures Valid()
      ensures var p := descriptor.programState.value.program;
        if ProgramId(old(program)) == Some(p.id) then program == old(program) && refOps == old(refOps)
        else program == Some(p) && refOps == old(refOps) + Reassign(ProgramId(old(program)), Some(p.id))
      ensures blendDescriptor == descriptor.blendDescriptor
    {
      var p := descriptor.programState.value.program;
      if ProgramId(program) != Some(p.id) {
        var ops := Reassign(ProgramId(program), Some(p.id));
        forall h
          ensures Net(refOps + ops, h) == Holds(Some(p.id), h)
        {
          NetAppend(refOps, ops, h);
          ReassignMovesReference(ProgramId(program), Some(p.id), h);
        }
        program := Some(p);
        refOps := refOps + ops;
      }
      blendDescriptor := descriptor.blendDescriptor;
    }

    /**
     * Writes the saved blend settings into blend target 0 of the given
     * pipeline-state record; nothing else of the record changes. With no
     * record, nothing happens.
     */
    method DoUpdate(psinfo: Option<PipelineStateInfo>) returns (r: Option<PipelineStateInfo>)
      requires psinfo.Some? ==> |psinfo.value.blendTargets| >= 1
      ensures psinfo.None? ==> r.None?
      ensures psinfo.Some? ==> (
        && r.Some?
        && |r.value.blendTargets| == |psinfo.value.blendTargets|
        && r.value.blendTargets[1..] == psinfo.value.blendTargets[1..]
        && r.value == psinfo.value.(blendTargets := r.value.blendTargets)
        && TargetFollows(psinfo.value.blendTargets[0], r.value.blendTargets[0], blendDescriptor))
    {
      if psinfo.None? {
        return None;
      }
      var info := psinfo.value;
      var target := ApplyBlend(info.blendTargets[0]);
      var targets := info.blendTargets[0 := target];
      assert targets[1..] == info.blendTargets[1..];
      r := Some(info.(blendTargets := targets));
    }

    /** Blend target 0 after applying the saved blend descriptor. */
    method ApplyBlend(t0: BlendTarget) returns (target: BlendTarget)
      ensures TargetFollows(t0, target, blendDescriptor)
    {
      target := t0;
      var descriptor := blendDescriptor;
      if descriptor.blendEnabled {
        target := target.(
          blend := 1,
          blendSrc := descriptor.sourceRGBBlendFactor,
          blendDst := descriptor.destinationRGBBlendFactor,
          blendEq := descriptor.rgbBlendOperation,
          blendSrcAlpha := descriptor.sourceAlphaBlendFactor,
          blendDstAlpha := descriptor.destinationAlphaBlendFactor,
          blendAlphaEq := descriptor.alphaBlendOperation);
      } else {
        target := target.(blend := 0);
      }
      var mask := ColorMaskOf(descriptor.writeMask);
      target := target.(blendColorMask := mask);
    }
  }

  /**
   * Blend target `t` is target `t0` after applying descriptor `d`: blending
   * is on exactly when `d` enables it; when on, all six factors and
   * operations come from `d`; when off, they keep their previous values; the
   * colour mask follows the write mask.
   */
  ghost predicate TargetFollows(t0: BlendTarget, t: BlendTarget, d: BlendDescriptor) {
    && (t.blend == if d.blendEnabled then 1 else 0)
    && (d.blendEnabled ==>
          && t.blendSrc == d.sourceRGBBlendFactor
          && t.blendDst == d.destinationRGBBlendFactor
          && t.blendEq == d.rgbBlendOperation
          && t.blendSrcAlpha == d.sourceAlphaBlendFactor
          && t.blendDstAlpha == d.destinationAlphaBlendFactor
          && t.blendAlphaEq == d.alphaBlendOperation)
    && (!d.blendEnabled ==> t == t0.(blend := 0, blendColorMask := t.blendColorMask))
    && MaskMatches(t.blendColorMask, d.writeMask)
  }

  /** Builds the gfx colour mask from a write mask, one channel bit at a time. */
  method ColorMaskOf(writeMask: bv32) returns (mask: bv32)
    ensures MaskMatches(mask, writeMask)
  {
    var writeMaskRed := writeMask & WRITE_RED;
    var writeMaskGreen := writeMask & WRITE_GREEN;
    var writeMaskBlue := writeMask & WRITE_BLUE;
    var writeMaskAlpha := writeMask & WRITE_ALPHA;

    mask := MASK_NONE;
    if writeMaskRed != 0 {
      mask := mask | MASK_R;
    }
    if writeMaskGreen != 0 {
      mask := mask | MASK_G;
    }
    if writeMaskBlue != 0 {
      mask := mask | MASK_B;
    }
    if writeMaskAlpha != 0 {
      mask := mask | MASK_A;
    }
  }

  /** The colour mask is NONE exactly when the write mask has none of R, G, B, A. */
  lemma MaskNoneIffWriteMaskEmpty(mask: bv32, writeMask: bv32)
    requires MaskMatches(mask, writeMask)
    ensures mask == MASK_NONE <==> writeMask & 0xF == 0
  {
  }
}
