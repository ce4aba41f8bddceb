// `DescriptorSetLayoutBuilder` (src/descriptor_set_layout_builder.cpp):
// bindings are assembled one at a time and pushed; the immutable samplers
// of all bindings go to one flat list, and `build` points each binding
// that has them at its run in that list.
module DescriptorSetLayoutBuilder {
  import opened Gpu
  import opened Placement

  /** `vk::DescriptorType::eSampler` and `eCombinedImageSampler`. */
  const DescriptorSampler: nat := 0
  const DescriptorCombinedImageSampler: nat := 1

  /** `vk::DescriptorSetLayoutBinding`; by default binding 0 of sampler
      type with no descriptors, no stages and no immutable samplers. */
  datatype Binding = Binding(binding: nat, descriptorType: nat, descriptorCount: nat, stageFlags: nat,
                             immutableSamplers: Pointer)

  const DefaultBinding := Binding(0, DescriptorSampler, 0, 0, Null)

  /** What `build` hands to `createDescriptorSetLayout`. */
  datatype LayoutInfo = LayoutInfo(bindingCount: nat, bindings: seq<Binding>)

  /** Whether `build` points binding `b` into the sampler list: it is of
      a sampler type and was given a sampler. */
  predicate TakesSamplers(b: Binding)
  {
    (b.descriptorType == DescriptorSampler || b.descriptorType == DescriptorCombinedImageSampler) &&
    b.immutableSamplers != Null
  }

  /** How far the sampler offset advances past binding `b`: all of its
      descriptors, when it takes samplers. */
  function Span(b: Binding): nat
  {
    if TakesSamplers(b) then b.descriptorCount else 0
  }

  /** The sampler entries bindings `s` take together. */
  function Total(s: seq<Binding>): nat
    decreases |s|
  {
    if s == [] then 0 else Total(s[..|s| - 1]) + Span(s[|s| - 1])
  }

  /** Binding `b` after `build`, `before` being the bindings ahead of it. */
  function Place(b: Binding, before: seq<Binding>): Binding
  {
    if TakesSamplers(b) then b.(immutableSamplers := At(Total(before))) else b
  }

  /** All bindings after `build`. */
  function Built(s: seq<Binding>): (r: seq<Binding>)
    ensures |r| == |s|
    decreases |s|
  {
    if s == [] then [] else Built(s[..|s| - 1]) + [Place(s[|s| - 1], s[..|s| - 1])]
  }

  /** Only `build` sets an offset, and only in a binding that takes
      samplers. */
  predicate WellFormed(b: Binding)
  {
    b.immutableSamplers.At? ==> TakesSamplers(b)
  }

  predicate AllWellFormed(s: seq<Binding>)
  {
    forall j :: 0 <= j < |s| ==> WellFormed(s[j])
  }

  lemma TotalSnoc(s: seq<Binding>, b: Binding)
    ensures Total(s + [b]) == Total(s) + Span(b)
  {
    assert (s + [b])[..|s|] == s;
  }

  /** `build` keeps the bindings and their order: binding k is placed
      after the k bindings ahead of it. */
  lemma {:induction false} BuiltAt(s: seq<Binding>, k: nat)
    requires k < |s|
    ensures Built(s)[k] == Place(s[k], s[..k])
    decreases |s|
  {
    var init := s[..|s| - 1];
    if k < |s| - 1 {
      BuiltAt(init, k);
      assert s[..k] == init[..k];
    } else {
      assert s[..k] == init;
    }
  }

  /** The prefix of the built bindings is the built prefix. */
  lemma {:induction false} BuiltPrefix(s: seq<Binding>, k: nat)
    requires k <= |s|
    ensures Built(s)[..k] == Built(s[..k])
    decreases |s|
  {
    if k < |s| {
      var init := s[..|s| - 1];
      BuiltPrefix(init, k);
      assert init[..k] == s[..k];
      assert Built(s)[..k] == Built(init)[..k];
    } else {
      assert s[..k] == s;
    }
  }

  /** `build` changes no span, so the total stays the same. */
  lemma {:induction false} BuiltTotal(s: seq<Binding>)
    ensures Total(Built(s)) == Total(s)
    decreases |s|
  {
    if s != [] {
      var init := s[..|s| - 1];
      BuiltTotal(init);
      TotalSnoc(Built(init), Place(s[|s| - 1], init));
    }
  }

  lemma {:induction false} TotalPrefix(s: seq<Binding>, i: nat, j: nat)
    requires i <= j <= |s|
    ensures Total(s[..i]) <= Total(s[..j])
    ensures i < j ==> Total(s[..i]) + Span(s[i]) <= Total(s[..j])
    decreases j - i
  {
    if i < j {
      TotalPrefix(s, i + 1, j);
      assert s[..i + 1] == s[..i] + [s[i]];
      TotalSnoc(s[..i], s[i]);
    }
  }

  /** A binding that takes samplers points after `build` at the run of
      all samplers the bindings ahead of it take, and that run lies within
      the total; every other binding is left exactly as it was. */
  lemma BuiltBinding(s: seq<Binding>, k: nat)
    requires AllWellFormed(s)
    requires k < |s|
    ensures TakesSamplers(s[k]) ==> Built(s)[k] == s[k].(immutableSamplers := At(Total(s[..k])))
    ensures !TakesSamplers(s[k]) ==> Built(s)[k] == s[k] && !s[k].immutableSamplers.At?
    ensures Total(s[..k]) + Span(s[k]) <= Total(s)
  {
    BuiltAt(s, k);
    assert WellFormed(s[k]);
    TotalPrefix(s, k, |s|);
    assert s[..|s|] == s;
  }

  /** The sampler runs of two bindings follow each other in binding order
      without overlapping. */
  lemma BuiltRunsOrdered(s: seq<Binding>, k: nat, k': nat)
    requires k < k' < |s|
    ensures Total(s[..k]) + Span(s[k]) <= Total(s[..k'])
  {
    TotalPrefix(s, k, k');
  }

  /** Building twice is building once. */
  lemma BuildIdempotent(s: seq<Binding>)
    ensures Built(Built(s)) == Built(s)
  {
    forall k | 0 <= k < |s|
      ensures Built(Built(s))[k] == Built(s)[k]
    {
      BuiltAt(s, k);
      BuiltAt(Built(s), k);
      BuiltPrefix(s, k);
      BuiltTotal(s[..k]);
      assert Total(Built(s)[..k]) == Total(s[..k]);
    }
  }

  lemma BuiltWellFormed(s: seq<Binding>)
    requires AllWellFormed(s)
    ensures AllWellFormed(Built(s))
  {
    forall j | 0 <= j < |s|
      ensures WellFormed(Built(s)[j])
    {
      BuiltAt(s, j);
      assert WellFormed(s[j]);
    }
  }

  class DescriptorSetLayoutBuilder {
    var bindings: seq<Binding>
    var samplers: seq<Handle>
    var currBinding: Binding

    /** Only pushed bindings can have been placed. */
    ghost predicate Valid()
      reads this
    {
      AllWellFormed(bindings) && !currBinding.immutableSamplers.At?
    }

    /** The constructor clears. */
    constructor ()
      ensures bindings == [] && samplers == [] && currBinding == DefaultBinding && Valid()
    {
      bindings := [];
      samplers := [];
      currBinding := DefaultBinding;
    }

    /** `clear()`: no bindings, no samplers, a default current binding. */
    method Clear()
      modifies this
      ensures bindings == [] && samplers == [] && currBinding == DefaultBinding && Valid()
    {
      bindings := [];
      samplers := [];
      currBinding := DefaultBinding;
    }

    method SetBinding(binding: nat)
      requires Valid()
      modifies this`currBinding
      ensures currBinding == old(currBinding).(binding := binding) && Valid()
    {
      currBinding := currBinding.(binding := binding);
    }

    method SetDescriptorType(descriptorType: nat)
      requires Valid()
      modifies this`currBinding
      ensures currBinding == old(currBinding).(descriptorType := descriptorType) && Valid()
    {
      currBinding := currBinding.(descriptorType := descriptorType);
    }

    method SetShaderStage(stage: nat)
      requires Valid()
      modifies this`currBinding
      ensures currBinding == old(currBinding).(stageFlags := stage) && Valid()
    {
      currBinding := currBinding.(stageFlags := stage);
    }

    /** `addSampler(sampler)`: one more descriptor in the current binding
        whatever the sampler; only a non-null sampler is kept, and it marks
        the binding as having immutable samplers. */
    method AddSampler(sampler: Handle)
      requires Valid()
      modifies this`samplers, this`currBinding
      ensures sampler != 0 ==> samplers == old(samplers) + [sampler]
      ensures sampler != 0 ==>
        currBinding == old(currBinding).(immutableSamplers := Marked, descriptorCount := old(currBinding).descriptorCount + 1)
      ensures sampler == 0 ==> samplers == old(samplers)
      ensures sampler == 0 ==> currBinding == old(currBinding).(descriptorCount := old(currBinding).descriptorCount + 1)
      ensures Valid()
    {
      if sampler != 0 {
        samplers := samplers + [sampler];
        currBinding := currBinding.(immutableSamplers := Marked);
      }
      currBinding := currBinding.(descriptorCount := currBinding.descriptorCount + 1);
    }

    /** `pushCurrentBinding()`: append the current binding and start a
        default one. */
    method PushCurrentBinding()
      requires Valid()
      modifies this`bindings, this`currBinding
      ensures bindings == old(bindings) + [old(currBinding)]
      ensures currBinding == DefaultBinding && Valid()
    {
      bindings := bindings + [currBinding];
      currBinding := DefaultBinding;
    }

    /** `build()`: every pushed binding that takes samplers is placed at
        the running sampler offset (in the builder itself, as the loop runs
        over references to them), and the create info lists all
        bindings. */
    method Build() returns (info: LayoutInfo)
      requires Valid()
      modifies this`bindings
      ensures bindings == Built(old(bindings))
      ensures info == LayoutInfo(|bindings|, bindings)
      ensures Valid()
    {
      ghost var s0 := bindings;
      var samplerIdx := 0;
      var i := 0;
      while i < |bindings|
        invariant 0 <= i <= |bindings| == |s0|
        invariant bindings[..i] == Built(s0[..i]) && bindings[i..] == s0[i..]
        invariant samplerIdx == Total(s0[..i])
      {
        var binding := bindings[i];
        assert binding == s0[i] by {
          assert bindings[i..][0] == s0[i..][0];
        }
        assert s0[..i + 1] == s0[..i] + [s0[i]];
        TotalSnoc(s0[..i], s0[i]);
        ghost var prev := bindings;
        if binding.descriptorType == DescriptorSampler || binding.descriptorType == DescriptorCombinedImageSampler {
          if binding.immutableSamplers != Null {
            binding := binding.(immutableSamplers := At(samplerIdx));
            samplerIdx := samplerIdx + binding.descriptorCount;
          }
        }
        bindings := bindings[i := binding];
        BuildStep(s0, i, prev, bindings);
        i := i + 1;
      }
      assert bindings == bindings[..i] && s0 == s0[..i];
      BuiltWellFormed(s0);
      info := LayoutInfo(|bindings|, bindings);
    }
  }

  /** `addSampler` counts a null sampler as a descriptor without storing
      it, so a sampler binding given one sampler and one null sampler is
      pointed by `build` at a run of two entries in a list that holds
      one. */
  method MixedSamplersOverrun() returns (b: DescriptorSetLayoutBuilder, info: LayoutInfo)
    ensures |b.samplers| == 1 && |info.bindings| == 1
    ensures info.bindings[0].immutableSamplers == At(0) && info.bindings[0].descriptorCount == 2
    ensures info.bindings[0].immutableSamplers.offset + info.bindings[0].descriptorCount > |b.samplers|
  {
    b := new DescriptorSetLayoutBuilder();
    b.AddSampler(7);
    b.AddSampler(0);
    b.PushCurrentBinding();
    info := b.Build();
    assert Built([Binding(0, DescriptorSampler, 2, 0, Marked)])[0] == Binding(0, DescriptorSampler, 2, 0, At(0)) by {
      BuiltAt([Binding(0, DescriptorSampler, 2, 0, Marked)], 0);
    }
  }

  /** The loop of `build` keeps its invariant. */
  lemma BuildStep(s0: seq<Binding>, i: nat, prev: seq<Binding>, next: seq<Binding>)
    requires i < |s0| == |prev|
    requires prev[..i] == Built(s0[..i]) && prev[i..] == s0[i..]
    requires next == prev[i := Place(s0[i], s0[..i])]
    ensures next[..i + 1] == Built(s0[..i + 1]) && next[i + 1..] == s0[i + 1..]
  {
    assert s0[..i + 1][..i] == s0[..i];
    assert next[..i + 1] == prev[..i] + [Place(s0[i], s0[..i])];
    assert forall j :: i + 1 <= j < |s0| ==> next[j] == prev[i..][j - i];
  }
}
