// `RenderPassBuilder` (src/renderpass_builder.cpp): attachments, subpasses
// and dependencies are assembled one "current" item at a time and pushed.
// The attachment references of all subpasses go to five flat lists
// (input, color, resolve, depth-stencil, preserve); a subpass only counts
// how many it added, and `build` points each subpass's arrays into the
// lists at the running offsets.
module RenderPassBuilder {
  import opened Vk
  import opened Placement

  /** The index of a vk::ImageLayout, vk::AttachmentLoadOp and so on. */
  type Enum = nat

  /** `vk::AttachmentDescription`; by default of undefined format, one
      sample, load and store, and undefined layouts. */
  datatype AttachmentDescription = AttachmentDescription(
    format: Format, samples: nat, loadOp: Enum, storeOp: Enum,
    stencilLoadOp: Enum, stencilStoreOp: Enum, initialLayout: Enum, finalLayout: Enum)

  const DefaultAttachment := AttachmentDescription(Undefined, 1, 0, 0, 0, 0, 0, 0)

  /** `vk::AttachmentReference`. */
  datatype AttachmentReference = AttachmentReference(attachment: nat, layout: Enum)

  /** `vk::SubpassDescription`: the counts of its arrays and where they
      are. The resolve array has no count of its own (it has the color
      count), and there is at most one depth-stencil reference. */
  datatype SubpassDescription = SubpassDescription(
    bindPoint: Enum,
    inputCount: nat, inputs: Pointer,
    colorCount: nat, colors: Pointer, resolves: Pointer,
    depthStencil: Pointer,
    preserveCount: nat, preserves: Pointer)

  /** The default subpass: graphics bind point, no arrays. */
  const DefaultSubpass := SubpassDescription(0, 0, Null, 0, Null, Null, Null, 0, Null)

  /** `vk::SubpassDependency`; all zero by default. */
  datatype SubpassDependency = SubpassDependency(
    srcSubpass: nat, dstSubpass: nat, srcStage: nat, dstStage: nat,
    srcAccess: nat, dstAccess: nat, flags: nat)

  const DefaultDependency := SubpassDependency(0, 0, 0, 0, 0, 0, 0)

  /** What `build` hands to `createRenderPass`. */
  datatype RenderPassInfo = RenderPassInfo(
    attachmentCount: nat, attachments: seq<AttachmentDescription>,
    subpassCount: nat, subpasses: seq<SubpassDescription>,
    dependencyCount: nat, dependencies: seq<SubpassDependency>)

  /** The five flat lists of references. */
  datatype List = Inputs | Colors | Resolves | DepthStencils | Preserves

  /** How many entries of list `l` subpass `p` takes: its count for
      inputs, colors and preserves; its color count for resolves, when it
      has colors and asked for resolves; one depth-stencil reference when
      it has one. */
  function Span(p: SubpassDescription, l: List): nat
  {
    match l
    case Inputs => p.inputCount
    case Colors => p.colorCount
    case Resolves => if p.colorCount > 0 && p.resolves != Null then p.colorCount else 0
    case DepthStencils => if p.depthStencil != Null then 1 else 0
    case Preserves => p.preserveCount
  }

  /** The pointer of subpass `p` into list `l`. */
  function PointerOf(p: SubpassDescription, l: List): Pointer
  {
    match l
    case Inputs => p.inputs
    case Colors => p.colors
    case Resolves => p.resolves
    case DepthStencils => p.depthStencil
    case Preserves => p.preserves
  }

  /** The entries of list `l` that subpasses `s` take together. */
  function Total(s: seq<SubpassDescription>, l: List): nat
    decreases |s|
  {
    if s == [] then 0 else Total(s[..|s| - 1], l) + Span(s[|s| - 1], l)
  }

  /** Subpass `p` after `build`, `before` being the subpasses ahead of it:
      every array it takes entries of points at the entries the subpasses
      ahead of it take in that list. */
  function Place(p: SubpassDescription, before: seq<SubpassDescription>): SubpassDescription
  {
    p.(inputs := if Span(p, Inputs) > 0 then At(Total(before, Inputs)) else p.inputs,
       colors := if Span(p, Colors) > 0 then At(Total(before, Colors)) else p.colors,
       resolves := if Span(p, Resolves) > 0 then At(Total(before, Resolves)) else p.resolves,
       depthStencil := if Span(p, DepthStencils) > 0 then At(Total(before, DepthStencils)) else p.depthStencil,
       preserves := if Span(p, Preserves) > 0 then At(Total(before, Preserves)) else p.preserves)
  }

  /** All subpasses after `build`. */
  function Built(s: seq<SubpassDescription>): (r: seq<SubpassDescription>)
    ensures |r| == |s|
    decreases |s|
  {
    if s == [] then [] else Built(s[..|s| - 1]) + [Place(s[|s| - 1], s[..|s| - 1])]
  }

  /** Only a `build` sets a pointer to an offset, and only a pointer whose
      array takes entries. */
  predicate WellFormed(p: SubpassDescription)
  {
    (p.inputs.At? ==> Span(p, Inputs) > 0) && (p.colors.At? ==> Span(p, Colors) > 0) &&
    (p.resolves.At? ==> Span(p, Resolves) > 0) && (p.depthStencil.At? ==> Span(p, DepthStencils) > 0) &&
    (p.preserves.At? ==> Span(p, Preserves) > 0)
  }

  predicate AllWellFormed(s: seq<SubpassDescription>)
  {
    forall j :: 0 <= j < |s| ==> WellFormed(s[j])
  }

  /** A subpass still being assembled has no offsets. */
  predicate Unplaced(p: SubpassDescription)
  {
    !p.inputs.At? && !p.colors.At? && !p.resolves.At? && !p.depthStencil.At? && !p.preserves.At?
  }

  lemma PlaceSpan(p: SubpassDescription, before: seq<SubpassDescription>, l: List)
    ensures Span(Place(p, before), l) == Span(p, l)
    ensures PointerOf(Place(p, before), l) == if Span(p, l) > 0 then At(Total(before, l)) else PointerOf(p, l)
  {
  }

  lemma TotalSnoc(s: seq<SubpassDescription>, p: SubpassDescription, l: List)
    ensures Total(s + [p], l) == Total(s, l) + Span(p, l)
  {
    assert (s + [p])[..|s|] == s;
  }

  /** `build` keeps the subpasses and their order, and changes nothing but
      pointers: subpass k is placed after the k subpasses ahead of it. */
  lemma {:induction false} BuiltAt(s: seq<SubpassDescription>, k: nat)
    requires k < |s|
    ensures Built(s)[k] == Place(s[k], s[..k])
    decreases |s|
  {
    var init := s[..|s| - 1];
    if k < |s| - 1 {
      BuiltAt(init, k);
      assert s[..k] == init[..k];
    } else {
      assert s[..k] == init;
    }
  }

  /** The prefix of the built subpasses is the built prefix. */
  lemma {:induction false} BuiltPrefix(s: seq<SubpassDescription>, k: nat)
    requires k <= |s|
    ensures Built(s)[..k] == Built(s[..k])
    decreases |s|
  {
    if k < |s| {
      var init := s[..|s| - 1];
      BuiltPrefix(init, k);
      assert init[..k] == s[..k];
      assert Built(s)[..k] == Built(init)[..k];
    } else {
      assert s[..k] == s;
    }
  }

  /** `build` changes no span, so every list's total stays the same. */
  lemma {:induction false} BuiltTotal(s: seq<SubpassDescription>, l: List)
    ensures Total(Built(s), l) == Total(s, l)
    decreases |s|
  {
    if s != [] {
      var init := s[..|s| - 1];
      BuiltTotal(init, l);
      PlaceSpan(s[|s| - 1], init, l);
      TotalSnoc(Built(init), Place(s[|s| - 1], init), l);
    }
  }

  /** Totals of longer prefixes are larger by what the subpasses between
      take. */
  lemma {:induction false} TotalPrefix(s: seq<SubpassDescription>, i: nat, j: nat, l: List)
    requires i <= j <= |s|
    ensures Total(s[..i], l) <= Total(s[..j], l)
    ensures i < j ==> Total(s[..i], l) + Span(s[i], l) <= Total(s[..j], l)
    decreases j - i
  {
    if i < j {
      TotalPrefix(s, i + 1, j, l);
      assert s[..i + 1] == s[..i] + [s[i]];
      TotalSnoc(s[..i], s[i], l);
    }
  }

  /** In every list, a subpass's array after `build` points at the
      entries the subpasses ahead of it take, when it takes any, and is
      left as it was (and not at an offset) when it takes none; the
      entries it takes lie within those all subpasses take. */
  lemma BuiltArray(s: seq<SubpassDescription>, l: List, k: nat)
    requires AllWellFormed(s)
    requires k < |s|
    ensures Span(s[k], l) > 0 ==> PointerOf(Built(s)[k], l) == At(Total(s[..k], l))
    ensures Span(s[k], l) == 0 ==> PointerOf(Built(s)[k], l) == PointerOf(s[k], l) && !PointerOf(s[k], l).At?
    ensures Total(s[..k], l) + Span(s[k], l) <= Total(s, l)
  {
    BuiltAt(s, k);
    PlaceSpan(s[k], s[..k], l);
    assert WellFormed(s[k]);
    TotalPrefix(s, k, |s|, l);
    assert s[..|s|] == s;
  }

  /** The arrays of two subpasses follow each other in subpass order
      without overlapping. */
  lemma BuiltArraysOrdered(s: seq<SubpassDescription>, l: List, k: nat, k': nat)
    requires k < k' < |s|
    ensures Total(s[..k], l) + Span(s[k], l) <= Total(s[..k'], l)
  {
    TotalPrefix(s, k, k', l);
  }

  /** Building twice is building once: the offsets only depend on the
      spans, which `build` keeps. */
  lemma BuildIdempotent(s: seq<SubpassDescription>)
    ensures Built(Built(s)) == Built(s)
  {
    forall k | 0 <= k < |s|
      ensures Built(Built(s))[k] == Built(s)[k]
    {
      BuiltAt(s, k);
      BuiltAt(Built(s), k);
      BuiltPrefix(s, k);
      forall l: List
        ensures Total(Built(s)[..k], l) == Total(s[..k], l)
      {
        BuiltTotal(s[..k], l);
      }
      PlaceTwice(s[k], s[..k], Built(s)[..k]);
    }
  }

  lemma PlaceTwice(p: SubpassDescription, before: seq<SubpassDescription>, again: seq<SubpassDescription>)
    requires forall l: List :: Total(again, l) == Total(before, l)
    ensures Place(Place(p, before), again) == Place(p, before)
  {
    assert Total(again, Inputs) == Total(before, Inputs);
    assert Total(again, Colors) == Total(before, Colors);
    assert Total(again, Resolves) == Total(before, Resolves);
    assert Total(again, DepthStencils) == Total(before, DepthStencils);
    assert Total(again, Preserves) == Total(before, Preserves);
  }

  lemma BuiltWellFormed(s: seq<SubpassDescription>)
    requires AllWellFormed(s)
    ensures AllWellFormed(Built(s))
  {
    forall j | 0 <= j < |s|
      ensures WellFormed(Built(s)[j])
    {
      BuiltAt(s, j);
      assert WellFormed(s[j]);
    }
  }

  /** One turn of `build`'s loop: the subpass's arrays that take entries
      point at the running offsets, which then advance past them. */
  method PlaceSubpass(p: SubpassDescription, ghost before: seq<SubpassDescription>,
                      inputIdx: nat, colorIdx: nat, resolveIdx: nat, depthStencilIdx: nat, preserveIdx: nat)
    returns (q: SubpassDescription, inputNext: nat, colorNext: nat, resolveNext: nat,
             depthStencilNext: nat, preserveNext: nat)
    requires inputIdx == Total(before, Inputs) && colorIdx == Total(before, Colors)
    requires resolveIdx == Total(before, Resolves) && depthStencilIdx == Total(before, DepthStencils)
    requires preserveIdx == Total(before, Preserves)
    ensures q == Place(p, before)
    ensures inputNext == Total(before + [p], Inputs) && colorNext == Total(before + [p], Colors)
    ensures resolveNext == Total(before + [p], Resolves) && depthStencilNext == Total(before + [p], DepthStencils)
    ensures preserveNext == Total(before + [p], Preserves)
  {
    TotalSnoc(before, p, Inputs);
    TotalSnoc(before, p, Colors);
    TotalSnoc(before, p, Resolves);
    TotalSnoc(before, p, DepthStencils);
    TotalSnoc(before, p, Preserves);
    q := p;
    inputNext, colorNext, resolveNext, depthStencilNext, preserveNext :=
      inputIdx, colorIdx, resolveIdx, depthStencilIdx, preserveIdx;
    if 0 < q.inputCount {
      q := q.(inputs := At(inputNext));
      inputNext := inputNext + q.inputCount;
    }
    if 0 < q.colorCount {
      q := q.(colors := At(colorNext));
      colorNext := colorNext + q.colorCount;
      if q.resolves != Null {
        q := q.(resolves := At(resolveNext));
        resolveNext := resolveNext + q.colorCount;
      }
    }
    if q.depthStencil != Null {
      q := q.(depthStencil := At(depthStencilNext));
      depthStencilNext := depthStencilNext + 1;
    }
    if 0 < q.preserveCount {
      q := q.(preserves := At(preserveNext));
      preserveNext := preserveNext + q.preserveCount;
    }
  }

  /** The loop of `build` keeps its invariant: placing subpass i extends
      the built prefix by one. */
  lemma BuildStep(s0: seq<SubpassDescription>, i: nat, prev: seq<SubpassDescription>, next: seq<SubpassDescription>)
    requires i < |s0| == |prev|
    requires prev[..i] == Built(s0[..i]) && prev[i..] == s0[i..]
    requires next == prev[i := Place(s0[i], s0[..i])]
    ensures next[..i + 1] == Built(s0[..i + 1]) && next[i + 1..] == s0[i + 1..]
  {
    assert s0[..i + 1][..i] == s0[..i];
    assert next[..i + 1] == prev[..i] + [Place(s0[i], s0[..i])];
    assert forall j :: i + 1 <= j < |s0| ==> next[j] == prev[i..][j - i];
  }

  class RenderPassBuilder {
    var attachments: seq<AttachmentDescription>
    var subpasses: seq<SubpassDescription>
    var inputAttachments: seq<AttachmentReference>
    var colorAttachments: seq<AttachmentReference>
    var resolveAttachments: seq<AttachmentReference>
    var depthStencilAttachments: seq<AttachmentReference>
    var preserveAttachments: seq<nat>
    var dependencies: seq<SubpassDependency>
    var currAttachment: AttachmentDescription
    var currSubpass: SubpassDescription
    var currDependency: SubpassDependency

    /** The flat lists hold exactly the references the pushed subpasses
        and the current one counted (resolves excepted, which nothing
        counts), and only pushed subpasses can have been placed. */
    ghost predicate Valid()
      reads this
    {
      AllWellFormed(subpasses) && Unplaced(currSubpass) &&
      |inputAttachments| == Total(subpasses, Inputs) + currSubpass.inputCount &&
      |colorAttachments| == Total(subpasses, Colors) + currSubpass.colorCount &&
      |depthStencilAttachments| == Total(subpasses, DepthStencils) + Span(currSubpass, DepthStencils) &&
      |preserveAttachments| == Total(subpasses, Preserves) + currSubpass.preserveCount
    }

    /** A builder starts with every list empty and the three current items
        at their defaults. */
    constructor ()
      ensures Valid() && Cleared()
    {
      attachments, subpasses, dependencies := [], [], [];
      inputAttachments, colorAttachments, resolveAttachments, depthStencilAttachments := [], [], [], [];
      preserveAttachments := [];
      currAttachment, currSubpass, currDependency := DefaultAttachment, DefaultSubpass, DefaultDependency;
    }

    ghost predicate Cleared()
      reads this
    {
      attachments == [] && subpasses == [] && dependencies == [] &&
      inputAttachments == [] && colorAttachments == [] && resolveAttachments == [] &&
      depthStencilAttachments == [] && preserveAttachments == [] &&
      currAttachment == DefaultAttachment && currSubpass == DefaultSubpass && currDependency == DefaultDependency
    }

    /** `clear()`: all eight lists empty, the three current items reset. */
    method Clear()
      modifies this
      ensures Valid() && Cleared()
    {
      attachments := [];
      subpasses := [];
      inputAttachments := [];
      colorAttachments := [];
      resolveAttachments := [];
      depthStencilAttachments := [];
      preserveAttachments := [];
      dependencies := [];
      currAttachment := DefaultAttachment;
      currSubpass := DefaultSubpass;
      currDependency := DefaultDependency;
    }

    method SetAttachmentFormat(format: Format)
      modifies this`currAttachment
      ensures currAttachment == old(currAttachment).(format := format)
    {
      currAttachment := currAttachment.(format := format);
    }

    method SetAttachmentSampleCount(samples: nat)
      modifies this`currAttachment
      ensures currAttachment == old(currAttachment).(samples := samples)
    {
      currAttachment := currAttachment.(samples := samples);
    }

    method SetAttachmentLoadOp(op: Enum)
      modifies this`currAttachment
      ensures currAttachment == old(currAttachment).(loadOp := op)
    {
      currAttachment := currAttachment.(loadOp := op);
    }

    method SetAttachmentStoreOp(op: Enum)
      modifies this`currAttachment
      ensures currAttachment == old(currAttachment).(storeOp := op)
    {
      currAttachment := currAttachment.(storeOp := op);
    }

    method SetAttachmentStencilLoadOp(op: Enum)
      modifies this`currAttachment
      ensures currAttachment == old(currAttachment).(stencilLoadOp := op)
    {
      currAttachment := currAttachment.(stencilLoadOp := op);
    }

    method SetAttachmentStencilStoreOp(op: Enum)
      modifies this`currAttachment
      ensures currAttachment == old(currAttachment).(stencilStoreOp := op)
    {
      currAttachment := currAttachment.(stencilStoreOp := op);
    }

    method SetAttachmentInitialLayout(layout: Enum)
      modifies this`currAttachment
      ensures currAttachment == old(currAttachment).(initialLayout := layout)
    {
      currAttachment := currAttachment.(initialLayout := layout);
    }

    method SetAttachmentFinalLayout(layout: Enum)
      modifies this`currAttachment
      ensures currAttachment == old(currAttachment).(finalLayout := layout)
    {
      currAttachment := currAttachment.(finalLayout := layout);
    }

    /** `pushCurrentAttachment()`: append the current attachment and
        start a default one. */
    method PushCurrentAttachment()
      modifies this`attachments, this`currAttachment
      ensures attachments == old(attachments) + [old(currAttachment)]
      ensures currAttachment == DefaultAttachment
    {
      attachments := attachments + [currAttachment];
      currAttachment := DefaultAttachment;
    }

    method SetSubpassPipelineBindPoint(bindPoint: Enum)
      requires Valid()
      modifies this`currSubpass
      ensures currSubpass == old(currSubpass).(bindPoint := bindPoint)
      ensures Valid()
    {
      currSubpass := currSubpass.(bindPoint := bindPoint);
    }

    /** `addSubpassInputAttachment(attachment, layout)`: one more input
        reference, counted by the current subpass. */
    method AddSubpassInputAttachment(attachment: nat, layout: Enum)
      requires Valid()
      modifies this`inputAttachments, this`currSubpass
      ensures inputAttachments == old(inputAttachments) + [AttachmentReference(attachment, layout)]
      ensures currSubpass == old(currSubpass).(inputCount := old(currSubpass).inputCount + 1)
      ensures Valid()
    {
      inputAttachments := inputAttachments + [AttachmentReference(attachment, layout)];
      currSubpass := currSubpass.(inputCount := currSubpass.inputCount + 1);
    }

    /** `addSubpassColorAttachment(attachment, layout)`: one more color
        reference, counted by the current subpass. */
    method AddSubpassColorAttachment(attachment: nat, layout: Enum)
      requires Valid()
      modifies this`colorAttachments, this`currSubpass
      ensures colorAttachments == old(colorAttachments) + [AttachmentReference(attachment, layout)]
      ensures currSubpass == old(currSubpass).(colorCount := old(currSubpass).colorCount + 1)
      ensures Valid()
    {
      colorAttachments := colorAttachments + [AttachmentReference(attachment, layout)];
      currSubpass := currSubpass.(colorCount := currSubpass.colorCount + 1);
    }

    /** `addSubpassResolveAttachment(attachment, layout)`: one more resolve
        reference; the current subpass is only marked as resolving, no
        count changes. */
    method AddSubpassResolveAttachment(attachment: nat, layout: Enum)
      requires Valid()
      modifies this`resolveAttachments, this`currSubpass
      ensures resolveAttachments == old(resolveAttachments) + [AttachmentReference(attachment, layout)]
      ensures currSubpass == old(currSubpass).(resolves := Marked)
      ensures Valid()
    {
      resolveAttachments := resolveAttachments + [AttachmentReference(attachment, layout)];
      currSubpass := currSubpass.(resolves := Marked);
    }

    /** `setSubpassDepthStencilAttachment(attachment, layout)`: the first
        call in a subpass appends the reference and marks the subpass;
        later calls overwrite that last reference. */
    method SetSubpassDepthStencilAttachment(attachment: nat, layout: Enum)
      requires Valid()
      modifies this`depthStencilAttachments, this`currSubpass
      ensures old(currSubpass).depthStencil == Null ==>
        depthStencilAttachments == old(depthStencilAttachments) + [AttachmentReference(attachment, layout)] &&
        currSubpass == old(currSubpass).(depthStencil := Marked)
      ensures old(currSubpass).depthStencil != Null ==>
        |old(depthStencilAttachments)| > 0 &&
        depthStencilAttachments ==
          old(depthStencilAttachments)[|old(depthStencilAttachments)| - 1 := AttachmentReference(attachment, layout)] &&
        currSubpass == old(currSubpass)
      ensures Valid()
    {
      if currSubpass.depthStencil == Null {
        depthStencilAttachments := depthStencilAttachments + [AttachmentReference(attachment, layout)];
        currSubpass := currSubpass.(depthStencil := Marked);
      } else {
        depthStencilAttachments :=
          depthStencilAttachments[|depthStencilAttachments| - 1 := AttachmentReference(attachment, layout)];
      }
    }

    /** `addSubpassPreserveAttachment(attachment)`: one more preserved
        attachment, counted by the current subpass. */
    method AddSubpassPreserveAttachment(attachment: nat)
      requires Valid()
      modifies this`preserveAttachments, this`currSubpass
      ensures preserveAttachments == old(preserveAttachments) + [attachment]
      ensures currSubpass == old(currSubpass).(preserveCount := old(currSubpass).preserveCount + 1)
      ensures Valid()
    {
      preserveAttachments := preserveAttachments + [attachment];
      currSubpass := currSubpass.(preserveCount := currSubpass.preserveCount + 1);
    }

    /** `pushCurrentSubpass()`: append the current subpass and start a
        default one. */
    method PushCurrentSubpass()
      requires Valid()
      modifies this`subpasses, this`currSubpass
      ensures subpasses == old(subpasses) + [old(currSubpass)]
      ensures currSubpass == DefaultSubpass
      ensures Valid()
    {
      forall l: List
        ensures Total(subpasses + [currSubpass], l) == Total(subpasses, l) + Span(currSubpass, l)
      {
        TotalSnoc(subpasses, currSubpass, l);
      }
      subpasses := subpasses + [currSubpass];
      currSubpass := DefaultSubpass;
    }

    method SetDependencySrc(subpass: nat, stage: nat, access: nat)
      modifies this`currDependency
      ensures currDependency == old(currDependency).(srcSubpass := subpass, srcStage := stage, srcAccess := access)
    {
      currDependency := currDependency.(srcSubpass := subpass, srcStage := stage, srcAccess := access);
    }

    method SetDependencyDst(subpass: nat, stage: nat, access: nat)
      modifies this`currDependency
      ensures currDependency == old(currDependency).(dstSubpass := subpass, dstStage := stage, dstAccess := access)
    {
      currDependency := currDependency.(dstSubpass := subpass, dstStage := stage, dstAccess := access);
    }

    method SetDependencyFlags(flags: nat)
      modifies this`currDependency
      ensures currDependency == old(currDependency).(flags := flags)
    {
      currDependency := currDependency.(flags := flags);
    }

    /** `pushCurrentDependency()`: append the current dependency and start
        a default one. */
    method PushCurrentDependency()
      modifies this`dependencies, this`currDependency
      ensures dependencies == old(dependencies) + [old(currDependency)]
      ensures currDependency == DefaultDependency
    {
      dependencies := dependencies + [currDependency];
      currDependency := DefaultDependency;
    }

    /** `build()`: every pushed subpass is placed (in the builder itself,
        as the loop runs over references to them) with five running
        offsets, and the create info lists all attachments, subpasses and
        dependencies. The references each placed array points at are in
        its list (see `BuiltArray`, with `Valid` for the lengths). */
    method Build() returns (info: RenderPassInfo)
      requires Valid()
      modifies this`subpasses
      ensures subpasses == Built(old(subpasses))
      ensures info == RenderPassInfo(|attachments|, attachments, |subpasses|, subpasses, |dependencies|, dependencies)
      ensures Valid()
    {
      ghost var s0 := subpasses;
      var inputIdx, colorIdx, resolveIdx, depthStencilIdx, preserveIdx := 0, 0, 0, 0, 0;
      var i := 0;
      while i < |subpasses|
        invariant 0 <= i <= |subpasses| == |s0|
        invariant subpasses[..i] == Built(s0[..i]) && subpasses[i..] == s0[i..]
        invariant inputIdx == Total(s0[..i], Inputs) && colorIdx == Total(s0[..i], Colors)
        invariant resolveIdx == Total(s0[..i], Resolves) && depthStencilIdx == Total(s0[..i], DepthStencils)
        invariant preserveIdx == Total(s0[..i], Preserves)
      {
        assert subpasses[i] == s0[i] by {
          assert subpasses[i..][0] == s0[i..][0];
        }
        ghost var prev := subpasses;
        assert s0[..i + 1] == s0[..i] + [s0[i]];
        var placed;
        placed, inputIdx, colorIdx, resolveIdx, depthStencilIdx, preserveIdx :=
          PlaceSubpass(subpasses[i], s0[..i], inputIdx, colorIdx, resolveIdx, depthStencilIdx, preserveIdx);
        subpasses := subpasses[i := placed];
        BuildStep(s0, i, prev, subpasses);
        i := i + 1;
      }
      assert subpasses == subpasses[..i] && s0 == s0[..i];
      BuiltWellFormed(s0);
      BuiltTotal(s0, Inputs);
      BuiltTotal(s0, Colors);
      BuiltTotal(s0, DepthStencils);
      BuiltTotal(s0, Preserves);
      info := RenderPassInfo(|attachments|, attachments, |subpasses|, subpasses, |dependencies|, dependencies);
    }
  }
}
