// `PipelineBuilder` (src/pipeline_builder.cpp): the fixed-function state
// of a graphics pipeline is held in create-info structures the setters
// change; shader stages, vertex inputs, viewports and scissors, dynamic
// states and blend attachments are appended to lists; `build` assembles
// the create info and creates the pipeline. Floats are exact reals.
module PipelineBuilder {
  import opened Wrappers
  import opened Vk
  import opened Gpu

  /** Enumerator values the defaults use. */
  const TopologyTriangleList: nat := 3
  const PolygonModeFill: nat := 0
  const CullModeNone: nat := 0
  const FrontFaceCounterClockwise: nat := 0
  const SampleCount1: nat := 1
  const CompareOpNever: nat := 0
  const LogicOpClear: nat := 0
  const BlendFactorZero: nat := 0
  const BlendOpAdd: nat := 0

  /** `vk::ColorComponentFlagBits`. */
  const ComponentR: bv32 := 0x1
  const ComponentG: bv32 := 0x2
  const ComponentB: bv32 := 0x4
  const ComponentA: bv32 := 0x8

  /** `vk::PipelineShaderStageCreateInfo`: the stage, its module and
      entry point. */
  datatype ShaderStage = ShaderStage(stage: nat, shaderModule: Handle, entryPoint: string)

  /** `vk::VertexInputBindingDescription` and
      `vk::VertexInputAttributeDescription`. */
  datatype VertexBinding = VertexBinding(binding: nat, stride: nat, inputRate: nat)
  datatype VertexAttribute = VertexAttribute(location: nat, binding: nat, format: Format, offset: nat)

  datatype InputAssembly = InputAssembly(topology: nat, primitiveRestart: bool)

  datatype Rasterization = Rasterization(
    depthClamp: bool, rasterizerDiscard: bool, polygonMode: nat, cullMode: nat, frontFace: nat,
    depthBias: bool, depthBiasConstant: real, depthBiasClamp: real, depthBiasSlope: real, lineWidth: real)

  /** `vk::PipelineMultisampleStateCreateInfo`; the sample mask is always
      null. */
  datatype Multisample = Multisample(
    samples: nat, sampleShading: bool, minSampleShading: real, alphaToCoverage: bool, alphaToOne: bool)

  /** `vk::StencilOpState`; all zero by default. */
  datatype StencilOpState = StencilOpState(
    failOp: nat, passOp: nat, depthFailOp: nat, compareOp: nat, compareMask: nat, writeMask: nat, reference: nat)

  const DefaultStencilOpState := StencilOpState(0, 0, 0, 0, 0, 0, 0)

  datatype DepthStencil = DepthStencil(
    depthTest: bool, depthWrite: bool, depthCompareOp: nat, depthBoundsTest: bool, stencilTest: bool,
    front: StencilOpState, back: StencilOpState, minDepthBounds: real, maxDepthBounds: real)

  /** `vk::PipelineColorBlendStateCreateInfo`, its attachments aside. */
  datatype ColorBlend = ColorBlend(
    logicOpEnable: bool, logicOp: nat, attachmentCount: nat, constants: (real, real, real, real))

  /** `vk::PipelineColorBlendAttachmentState`; by default blending off,
      zero factors, add, and no component written. */
  datatype BlendAttachment = BlendAttachment(
    blendEnable: bool, srcColorFactor: nat, dstColorFactor: nat, colorOp: nat,
    srcAlphaFactor: nat, dstAlphaFactor: nat, alphaOp: nat, colorWriteMask: bv32)

  const DefaultBlendAttachment :=
    BlendAttachment(false, BlendFactorZero, BlendFactorZero, BlendOpAdd, BlendFactorZero, BlendFactorZero, BlendOpAdd, 0)

  /** The state `clear` restores: triangle lists without restart; no
      clamp or discard, filled, no culling, counter-clockwise front faces,
      no depth bias, lines one wide; one sample without shading or alpha
      tricks; no depth, bounds or stencil test, comparison never, zero
      stencil operations and bounds; no logic op (clear), no blend
      attachments, zero blend constants. */
  const DefaultInputAssembly := InputAssembly(TopologyTriangleList, false)
  const DefaultRasterization :=
    Rasterization(false, false, PolygonModeFill, CullModeNone, FrontFaceCounterClockwise, false, 0.0, 0.0, 0.0, 1.0)
  const DefaultMultisample := Multisample(SampleCount1, false, 0.0, false, false)
  const DefaultDepthStencil :=
    DepthStencil(false, false, CompareOpNever, false, false, DefaultStencilOpState, DefaultStencilOpState, 0.0, 0.0)
  const DefaultColorBlend := ColorBlend(false, LogicOpClear, 0, (0.0, 0.0, 0.0, 0.0))

  /** `vk::PipelineViewportStateCreateInfo`: the counts, and the arrays
      when there are any. */
  datatype ViewportState = ViewportState(
    viewportCount: nat, viewports: Option<seq<Viewport>>, scissorCount: nat, scissors: Option<seq<Rect2D>>)

  /** The viewport state `build` makes: without viewports, one viewport
      and one scissor and no arrays (both are then dynamic); otherwise the
      two lists with their own lengths. */
  function ViewportStateOf(viewports: seq<Viewport>, scissors: seq<Rect2D>): (r: ViewportState)
    ensures r.viewports.None? <==> viewports == []
    ensures r.viewports.None? <==> r.scissors.None?
    ensures viewports != [] ==> r.viewports == Some(viewports) && r.viewportCount == |viewports| &&
                                r.scissors == Some(scissors) && r.scissorCount == |scissors|
    ensures viewports == [] ==> r.viewportCount == 1 && r.scissorCount == 1
  {
    if viewports == [] then ViewportState(1, None, 1, None)
    else ViewportState(|viewports|, Some(viewports), |scissors|, Some(scissors))
  }

  /** Viewport and scissor counts agree exactly when there are no
      viewports or as many scissors as viewports; a builder that was
      cleared keeps its scissors, so they then disagree. */
  lemma ViewportScissorCounts(viewports: seq<Viewport>, scissors: seq<Rect2D>)
    ensures ViewportStateOf(viewports, scissors).viewportCount == ViewportStateOf(viewports, scissors).scissorCount
      <==> viewports == [] || |viewports| == |scissors|
  {
  }

  /** The mask `setColorWriteMask(r, g, b, a)` builds: exactly the
      components passed as true. */
  function ColorComponents(r: bool, g: bool, b: bool, a: bool): (m: bv32)
    ensures (m & ComponentR != 0 <==> r) && (m & ComponentG != 0 <==> g)
    ensures (m & ComponentB != 0 <==> b) && (m & ComponentA != 0 <==> a)
    ensures m & !(ComponentR | ComponentG | ComponentB | ComponentA) == 0
  {
    (if r then ComponentR else 0) | (if g then ComponentG else 0) |
    (if b then ComponentB else 0) | (if a then ComponentA else 0)
  }

  /** `enableBlend()` as written: its statement reads `blendEnable` and
      discards it, so the blend attachment state is unchanged. */
  function EnableBlendAsWritten(s: BlendAttachment): (r: BlendAttachment)
    ensures r == s
  {
    s
  }

  /** What `enableBlend()` evidently means: blending on, everything else
      as it was. */
  function EnableBlend(s: BlendAttachment): (r: BlendAttachment)
    ensures r.blendEnable
    ensures r.(blendEnable := s.blendEnable) == s
  {
    s.(blendEnable := true)
  }

  /** On a fresh blend attachment state, `enableBlend()` leaves blending
      off, where it was meant to turn it on. */
  lemma EnableBlendIsNoOp()
    ensures !EnableBlendAsWritten(DefaultBlendAttachment).blendEnable
    ensures EnableBlend(DefaultBlendAttachment).blendEnable
  {
  }

  /** The create info `build` hands to `createGraphicsPipelines`. */
  datatype GraphicsPipelineInfo = GraphicsPipelineInfo(
    stageCount: nat, stages: seq<ShaderStage>,
    vertexBindingCount: nat, vertexBindings: seq<VertexBinding>,
    vertexAttributeCount: nat, vertexAttributes: seq<VertexAttribute>,
    inputAssembly: InputAssembly, viewportState: ViewportState, rasterization: Rasterization,
    multisample: Multisample, depthStencil: DepthStencil,
    colorBlend: ColorBlend, blendAttachments: seq<BlendAttachment>,
    dynamicStateCount: nat, dynamicStates: seq<nat>,
    layout: Handle, renderPass: Handle, subpass: nat)

  /** The pipeline object: its handle's create info, its layout and the
      shader modules it keeps alive. */
  datatype Pipeline = Pipeline(info: GraphicsPipelineInfo, layout: Handle, modules: seq<Handle>)

  class PipelineBuilder {
    var stages: seq<ShaderStage>
    var vertexBindings: seq<VertexBinding>
    var vertexAttributes: seq<VertexAttribute>
    var viewports: seq<Viewport>
    var scissors: seq<Rect2D>
    var dynamicStates: seq<nat>
    var blendStates: seq<BlendAttachment>
    var modules: seq<Handle>
    var inputAssembly: InputAssembly
    var rasterization: Rasterization
    var multisample: Multisample
    var depthStencil: DepthStencil
    var colorBlend: ColorBlend
    /** The pipeline layout and render pass objects, null until set. */
    var layout: Option<Handle>
    var renderPass: Option<Handle>
    var currBlend: BlendAttachment

    /** `clear` shortens the stage and viewport lists but not the module
        and scissor lists, so those are never the shorter. */
    ghost predicate Valid()
      reads this
    {
      |stages| <= |modules| && |viewports| <= |scissors|
    }

    ghost predicate FixedFunctionDefaults()
      reads this
    {
      inputAssembly == DefaultInputAssembly && rasterization == DefaultRasterization &&
      multisample == DefaultMultisample && depthStencil == DefaultDepthStencil && colorBlend == DefaultColorBlend
    }

    /** The constructor clears, on a builder whose lists are empty and
        whose layout, render pass and blend state are unset. */
    constructor ()
      ensures stages == [] && vertexBindings == [] && vertexAttributes == [] && viewports == [] && scissors == []
      ensures dynamicStates == [] && blendStates == [] && modules == []
      ensures FixedFunctionDefaults() && layout.None? && renderPass.None? && currBlend == DefaultBlendAttachment
      ensures Valid()
    {
      stages := [];
      vertexBindings := [];
      vertexAttributes := [];
      viewports := [];
      scissors := [];
      dynamicStates := [];
      blendStates := [];
      modules := [];
      inputAssembly := DefaultInputAssembly;
      rasterization := DefaultRasterization;
      multisample := DefaultMultisample;
      depthStencil := DefaultDepthStencil;
      colorBlend := DefaultColorBlend;
      layout := None;
      renderPass := None;
      currBlend := DefaultBlendAttachment;
    }

    /** `clear()`: no stages, vertex inputs or viewports, and the default
        fixed-function state. Scissors, dynamic states, blend attachments,
        modules, layout, render pass and the current blend state stay. */
    method Clear()
      requires Valid()
      modifies this`stages, this`vertexBindings, this`vertexAttributes, this`viewports
      modifies this`inputAssembly, this`rasterization, this`multisample, this`depthStencil, this`colorBlend
      ensures stages == [] && vertexBindings == [] && vertexAttributes == [] && viewports == []
      ensures FixedFunctionDefaults()
      ensures Valid()
    {
      stages := [];
      vertexBindings := [];
      vertexAttributes := [];
      viewports := [];
      inputAssembly := DefaultInputAssembly;
      rasterization := DefaultRasterization;
      multisample := DefaultMultisample;
      depthStencil := DefaultDepthStencil;
      colorBlend := DefaultColorBlend;
    }

    /** `addShaderStage(module, info)`: the module and the stage. */
    method AddShaderStage(shaderModule: Handle, info: ShaderStage)
      requires Valid()
      modifies this`modules, this`stages
      ensures modules == old(modules) + [shaderModule] && stages == old(stages) + [info]
      ensures Valid()
    {
      modules := modules + [shaderModule];
      stages := stages + [info];
    }

    method AddVertexInput(binding: nat, stride: nat, inputRate: nat)
      modifies this`vertexBindings
      ensures vertexBindings == old(vertexBindings) + [VertexBinding(binding, stride, inputRate)]
    {
      vertexBindings := vertexBindings + [VertexBinding(binding, stride, inputRate)];
    }

    /** `addVertexInputAtrribute(binding, location, format, offset)`: the
        description takes location first. */
    method AddVertexInputAttribute(binding: nat, location: nat, format: Format, offset: nat)
      modifies this`vertexAttributes
      ensures vertexAttributes == old(vertexAttributes) + [VertexAttribute(location, binding, format, offset)]
    {
      vertexAttributes := vertexAttributes + [VertexAttribute(location, binding, format, offset)];
    }

    method SetPrimitiveTopology(topology: nat, enableRestart: bool)
      modifies this`inputAssembly
      ensures inputAssembly == InputAssembly(topology, enableRestart)
    {
      inputAssembly := InputAssembly(topology, enableRestart);
    }

    /** `addViewportScissor(viewport, scissor)`: one to each list. */
    method AddViewportScissor(viewport: Viewport, scissor: Rect2D)
      requires Valid()
      modifies this`viewports, this`scissors
      ensures viewports == old(viewports) + [viewport] && scissors == old(scissors) + [scissor]
      ensures Valid()
    {
      viewports := viewports + [viewport];
      scissors := scissors + [scissor];
    }

    method EnableRasterizerDepthClamp()
      modifies this`rasterization
      ensures rasterization == old(rasterization).(depthClamp := true)
    {
      rasterization := rasterization.(depthClamp := true);
    }

    method EnableRasterizerDiscard()
      modifies this`rasterization
      ensures rasterization == old(rasterization).(rasterizerDiscard := true)
    {
      rasterization := rasterization.(rasterizerDiscard := true);
    }

    method SetRasterizerPolygonMode(mode: nat)
      modifies this`rasterization
      ensures rasterization == old(rasterization).(polygonMode := mode)
    {
      rasterization := rasterization.(polygonMode := mode);
    }

    method SetRasterizerCullMode(flags: nat)
      modifies this`rasterization
      ensures rasterization == old(rasterization).(cullMode := flags)
    {
      rasterization := rasterization.(cullMode := flags);
    }

    method SetRasterizerFrontFace(frontFace: nat)
      modifies this`rasterization
      ensures rasterization == old(rasterization).(frontFace := frontFace)
    {
      rasterization := rasterization.(frontFace := frontFace);
    }

    /** `setRasterizerDepthBias(constant, clamp, slope)` also turns depth
        bias on. */
    method SetRasterizerDepthBias(constantFactor: real, clamp: real, slopeFactor: real)
      modifies this`rasterization
      ensures rasterization == old(rasterization).(depthBias := true, depthBiasConstant := constantFactor,
                                                   depthBiasClamp := clamp, depthBiasSlope := slopeFactor)
    {
      rasterization := rasterization.(depthBias := true, depthBiasConstant := constantFactor,
                                      depthBiasClamp := clamp, depthBiasSlope := slopeFactor);
    }

    method SetRasterizerLineWidth(lineWidth: real)
      modifies this`rasterization
      ensures rasterization == old(rasterization).(lineWidth := lineWidth)
    {
      rasterization := rasterization.(lineWidth := lineWidth);
    }

    method SetRasterizationSamples(samples: nat)
      modifies this`multisample
      ensures multisample == old(multisample).(samples := samples)
    {
      multisample := multisample.(samples := samples);
    }

    /** `setSampleShading(min)` also turns sample shading on. */
    method SetSampleShading(minSampleShading: real)
      modifies this`multisample
      ensures multisample == old(multisample).(sampleShading := true, minSampleShading := minSampleShading)
    {
      multisample := multisample.(sampleShading := true, minSampleShading := minSampleShading);
    }

    method EnableAlphaToCoverage()
      modifies this`multisample
      ensures multisample == old(multisample).(alphaToCoverage := true)
    {
      multisample := multisample.(alphaToCoverage := true);
    }

    method EnableAlphaToOne()
      modifies this`multisample
      ensures multisample == old(multisample).(alphaToOne := true)
    {
      multisample := multisample.(alphaToOne := true);
    }

    method EnableDepthTest()
      modifies this`depthStencil
      ensures depthStencil == old(depthStencil).(depthTest := true)
    {
      depthStencil := depthStencil.(depthTest := true);
    }

    method EnableDepthWrite()
      modifies this`depthStencil
      ensures depthStencil == old(depthStencil).(depthWrite := true)
    {
      depthStencil := depthStencil.(depthWrite := true);
    }

    method SetDepthCompareOp(op: nat)
      modifies this`depthStencil
      ensures depthStencil == old(depthStencil).(depthCompareOp := op)
    {
      depthStencil := depthStencil.(depthCompareOp := op);
    }

    method EnableDepthBoundsTest()
      modifies this`depthStencil
      ensures depthStencil == old(depthStencil).(depthBoundsTest := true)
    {
      depthStencil := depthStencil.(depthBoundsTest := true);
    }

    /** `enableStencilTest(front, back)` stores the two operation states
        but leaves the stencil test as it was. */
    method EnableStencilTest(front: StencilOpState, back: StencilOpState)
      modifies this`depthStencil
      ensures depthStencil == old(depthStencil).(front := front, back := back)
      ensures depthStencil.stencilTest == old(depthStencil).stencilTest
    {
      depthStencil := depthStencil.(front := front, back := back);
    }

    method SetDepthBounds(min: real, max: real)
      modifies this`depthStencil
      ensures depthStencil == old(depthStencil).(minDepthBounds := min, maxDepthBounds := max)
    {
      depthStencil := depthStencil.(minDepthBounds := min, maxDepthBounds := max);
    }

    method EnableBlendLogicOp()
      modifies this`colorBlend
      ensures colorBlend == old(colorBlend).(logicOpEnable := true)
    {
      colorBlend := colorBlend.(logicOpEnable := true);
    }

    method SetBlendLogicOp(op: nat)
      modifies this`colorBlend
      ensures colorBlend == old(colorBlend).(logicOp := op)
    {
      colorBlend := colorBlend.(logicOp := op);
    }

    method SetBlendConstants(c0: real, c1: real, c2: real, c3: real)
      modifies this`colorBlend
      ensures colorBlend == old(colorBlend).(constants := (c0, c1, c2, c3))
    {
      colorBlend := colorBlend.(constants := (c0, c1, c2, c3));
    }

    /** `enableBlend()`: nothing changes (see `EnableBlendAsWritten`). */
    method EnableBlend()
      ensures currBlend == EnableBlendAsWritten(currBlend)
    {
    }

    method SetColorBlend(srcFactor: nat, dstFactor: nat, op: nat)
      modifies this`currBlend
      ensures currBlend == old(currBlend).(srcColorFactor := srcFactor, dstColorFactor := dstFactor, colorOp := op)
    {
      currBlend := currBlend.(srcColorFactor := srcFactor, dstColorFactor := dstFactor, colorOp := op);
    }

    method SetAlphaBlend(srcFactor: nat, dstFactor: nat, op: nat)
      modifies this`currBlend
      ensures currBlend == old(currBlend).(srcAlphaFactor := srcFactor, dstAlphaFactor := dstFactor, alphaOp := op)
    {
      currBlend := currBlend.(srcAlphaFactor := srcFactor, dstAlphaFactor := dstFactor, alphaOp := op);
    }

    /** `setColorWriteMask(r, g, b, a)`: the mask is emptied and each
        component passed as true is or-ed in. */
    method SetColorWriteMask(r: bool, g: bool, b: bool, a: bool)
      modifies this`currBlend
      ensures currBlend == old(currBlend).(colorWriteMask := ColorComponents(r, g, b, a))
    {
      var mask: bv32 := 0;
      if r { mask := mask | ComponentR; }
      if g { mask := mask | ComponentG; }
      if b { mask := mask | ComponentB; }
      if a { mask := mask | ComponentA; }
      currBlend := currBlend.(colorWriteMask := mask);
    }

    /** `pushCurrentColorBlendAttachmentState()`: append the current blend
        state and start a default one. */
    method PushCurrentColorBlendAttachmentState()
      modifies this`blendStates, this`currBlend
      ensures blendStates == old(blendStates) + [old(currBlend)]
      ensures currBlend == DefaultBlendAttachment
    {
      blendStates := blendStates + [currBlend];
      currBlend := DefaultBlendAttachment;
    }

    method AddDynamicState(state: nat)
      modifies this`dynamicStates
      ensures dynamicStates == old(dynamicStates) + [state]
    {
      dynamicStates := dynamicStates + [state];
    }

    method SetPipelineLayout(layout: Handle)
      modifies this`layout
      ensures this.layout == Some(layout)
    {
      this.layout := Some(layout);
    }

    method SetRenderPass(renderPass: Handle)
      modifies this`renderPass
      ensures this.renderPass == Some(renderPass)
    {
      this.renderPass := Some(renderPass);
    }

    /** `build()`, `success` being whether the driver created the
        pipeline. The blend state's attachment count becomes the number of
        blend attachments, in the builder itself. The create info lists
        every stage, vertex input, blend attachment and dynamic state, the
        viewport state of `ViewportStateOf`, the fixed-function state, the
        layout and the render pass, subpass 0. The check after creation
        throws when its condition holds, so a pipeline the driver created
        is reported as "Failed to create graphics pipeline", and only a
        failed creation returns a pipeline. */
    method Build(success: bool) returns (r: Result<Pipeline>)
      requires layout.Some? && renderPass.Some?
      modifies this`colorBlend
      ensures colorBlend == old(colorBlend).(attachmentCount := |blendStates|)
      ensures success <==> r.Err?
      ensures r.Err? ==> r.message == "Failed to create graphics pipeline"
      ensures r.Ok? ==> r.value == Pipeline(PipelineInfo(), layout.value, modules)
    {
      colorBlend := colorBlend.(attachmentCount := |blendStates|);
      var info := PipelineInfo();
      if success {
        return Err("Failed to create graphics pipeline");
      }
      r := Ok(Pipeline(info, layout.value, modules));
    }

    /** The create info of the builder's present state. */
    function PipelineInfo(): (info: GraphicsPipelineInfo)
      requires layout.Some? && renderPass.Some?
      reads this
      ensures info.stageCount == |info.stages| && info.stages == stages
      ensures info.vertexBindingCount == |vertexBindings| && info.vertexAttributeCount == |vertexAttributes|
      ensures info.viewportState == ViewportStateOf(viewports, scissors)
      ensures info.colorBlend.attachmentCount == colorBlend.attachmentCount && info.blendAttachments == blendStates
      ensures info.dynamicStateCount == |info.dynamicStates| && info.dynamicStates == dynamicStates
      ensures info.subpass == 0
    {
      GraphicsPipelineInfo(
        |stages|, stages, |vertexBindings|, vertexBindings, |vertexAttributes|, vertexAttributes,
        inputAssembly, ViewportStateOf(viewports, scissors), rasterization, multisample, depthStencil,
        colorBlend, blendStates, |dynamicStates|, dynamicStates, layout.value, renderPass.value, 0)
    }
  }
}
