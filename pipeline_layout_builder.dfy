// `PipelineLayoutBuilder` (src/pipeline_layout_builder.cpp): descriptor
// set layouts and push-constant ranges are appended, and `build` creates
// the pipeline layout from them. A descriptor set layout is kept twice:
// its Vulkan handle, which the create info lists, and the shared pointer
// to the VKDL object, which the new pipeline layout holds on to.
module PipelineLayoutBuilder {
  import opened Gpu

  /** `vk::PushConstantRange`. */
  datatype PushConstantRange = PushConstantRange(stage: nat, offset: nat, size: nat)

  /** What `build` hands over: the create info's two lists and their
      counts, and the layout objects the pipeline layout keeps alive. */
  datatype PipelineLayoutInfo = PipelineLayoutInfo(
    setLayoutCount: nat, setLayouts: seq<Handle>,
    pushConstantRangeCount: nat, pushConstantRanges: seq<PushConstantRange>,
    kept: seq<Handle>)

  /** The builder: descriptor set layouts, each identified by its handle
      (both in the create info and as the object kept alive), and the
      push-constant ranges. */
  class PipelineLayoutBuilder {
    var descLayouts: seq<Handle>
    var descLayoutPtrs: seq<Handle>
    var pcRanges: seq<PushConstantRange>

    /** `clear` forgets the handles but not the objects: the handles are
        those of the objects added last. */
    ghost predicate Valid()
      reads this
    {
      |descLayouts| <= |descLayoutPtrs| && descLayouts == descLayoutPtrs[|descLayoutPtrs| - |descLayouts|..]
    }

    /** The constructor clears; the objects start empty too. */
    constructor ()
      ensures descLayouts == [] && descLayoutPtrs == [] && pcRanges == [] && Valid()
    {
      descLayouts := [];
      descLayoutPtrs := [];
      pcRanges := [];
    }

    /** `clear()`: no handles and no ranges, but the objects stay. */
    method Clear()
      requires Valid()
      modifies this`descLayouts, this`pcRanges
      ensures descLayouts == [] && pcRanges == []
      ensures Valid()
    {
      descLayouts := [];
      pcRanges := [];
    }

    /** `addDescriptorSetLayout(layout)`: the object and its handle. */
    method AddDescriptorSetLayout(layout: Handle)
      requires Valid()
      modifies this`descLayouts, this`descLayoutPtrs
      ensures descLayoutPtrs == old(descLayoutPtrs) + [layout]
      ensures descLayouts == old(descLayouts) + [layout]
      ensures Valid()
    {
      descLayoutPtrs := descLayoutPtrs + [layout];
      descLayouts := descLayouts + [layout];
      assert descLayoutPtrs[|descLayoutPtrs| - |descLayouts|..] ==
        old(descLayoutPtrs)[|old(descLayoutPtrs)| - |old(descLayouts)|..] + [layout];
    }

    /** `addPushConstant(stage, offset, size)`. */
    method AddPushConstant(stage: nat, offset: nat, size: nat)
      modifies this`pcRanges
      ensures pcRanges == old(pcRanges) + [PushConstantRange(stage, offset, size)]
    {
      pcRanges := pcRanges + [PushConstantRange(stage, offset, size)];
    }

    /** `build()`: the create info counts and lists the handles and the
        ranges added since the last `clear`, and the pipeline layout keeps
        every object ever added. Every set layout the create info names is
        one the pipeline layout keeps alive, and they are the last ones
        added, in order. */
    method Build() returns (info: PipelineLayoutInfo)
      requires Valid()
      ensures info.setLayoutCount == |info.setLayouts| == |descLayouts| && info.setLayouts == descLayouts
      ensures info.pushConstantRangeCount == |info.pushConstantRanges| && info.pushConstantRanges == pcRanges
      ensures info.kept == descLayoutPtrs
      ensures info.setLayouts == info.kept[|info.kept| - info.setLayoutCount..]
      ensures forall i :: 0 <= i < |info.setLayouts| ==> info.setLayouts[i] in info.kept
    {
      info := PipelineLayoutInfo(|descLayouts|, descLayouts, |pcRanges|, pcRanges, descLayoutPtrs);
      forall i | 0 <= i < |info.setLayouts|
        ensures info.setLayouts[i] in info.kept
      {
        assert info.setLayouts[i] == info.kept[|info.kept| - |descLayouts| + i];
      }
    }
  }
}
