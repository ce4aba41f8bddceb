// `TextureCreator` and `Texture` (src/texture.cpp): a sampled image with
// its memory, view, sampler and descriptor set. The creator holds the
// image and sampler creation parameters, which its setters change field by
// field; `create` builds the texture from them. `update` stages the pixels
// in a host-visible buffer and copies them into the image between two
// layout transitions.
module Texture {
  import opened Wrappers
  import opened Vk
  import opened Gpu
  import Buffer
  import Context

  const TWO_32: int := 0x1_0000_0000

  /** `format_size_in_byte(format)`: the bytes of one texel for every
      uncompressed format in its table, and an error for any other format
      (`Undefined` and everything outside the table). */
  function FormatSizeInByte(f: Format): (r: Result<nat>)
    ensures r.Err? ==> r.message == "Unknown format"
  {
    if f in {R4G4UnormPack8, R8Unorm, R8Snorm, R8Uscaled, R8Sscaled, R8Uint, R8Sint, R8Srgb} then Ok(1)
    else if f in {R4G4B4A4UnormPack16, B4G4R4A4UnormPack16, R5G6B5UnormPack16, B5G6R5UnormPack16,
                  R5G5B5A1UnormPack16, B5G5R5A1UnormPack16, A1R5G5B5UnormPack16,
                  R8G8Unorm, R8G8Snorm, R8G8Uscaled, R8G8Sscaled, R8G8Uint, R8G8Sint, R8G8Srgb,
                  R16Unorm, R16Snorm, R16Uscaled, R16Sscaled, R16Uint, R16Sint, R16Sfloat} then Ok(2)
    else if f in {R8G8B8Unorm, R8G8B8Snorm, R8G8B8Uscaled, R8G8B8Sscaled, R8G8B8Uint, R8G8B8Sint, R8G8B8Srgb,
                  B8G8R8Unorm, B8G8R8Snorm, B8G8R8Uscaled, B8G8R8Sscaled, B8G8R8Uint, B8G8R8Sint, B8G8R8Srgb} then Ok(3)
    else if f in {R32Uint, R32Sint, R32Sfloat,
                  R16G16Unorm, R16G16Snorm, R16G16Uscaled, R16G16Sscaled, R16G16Uint, R16G16Sint, R16G16Sfloat,
                  R8G8B8A8Unorm, R8G8B8A8Snorm, R8G8B8A8Uscaled, R8G8B8A8Sscaled, R8G8B8A8Uint, R8G8B8A8Sint,
                  R8G8B8A8Srgb,
                  B8G8R8A8Unorm, B8G8R8A8Snorm, B8G8R8A8Uscaled, B8G8R8A8Sscaled, B8G8R8A8Uint, B8G8R8A8Sint,
                  B8G8R8A8Srgb,
                  A8B8G8R8UnormPack32, A8B8G8R8SnormPack32, A8B8G8R8UscaledPack32, A8B8G8R8SscaledPack32,
                  A8B8G8R8UintPack32, A8B8G8R8SintPack32, A8B8G8R8SrgbPack32,
                  A2R10G10B10UnormPack32, A2R10G10B10SnormPack32, A2R10G10B10UscaledPack32,
                  A2R10G10B10SscaledPack32, A2R10G10B10UintPack32, A2R10G10B10SintPack32,
                  A2B10G10R10UnormPack32, A2B10G10R10SnormPack32, A2B10G10R10UscaledPack32,
                  A2B10G10R10SscaledPack32, A2B10G10R10UintPack32, A2B10G10R10SintPack32,
                  B10G11R11UfloatPack32, E5B9G9R9UfloatPack32} then Ok(4)
    else if f in {R16G16B16Unorm, R16G16B16Snorm, R16G16B16Uscaled, R16G16B16Sscaled, R16G16B16Uint,
                  R16G16B16Sint, R16G16B16Sfloat} then Ok(6)
    else if f in {R64Uint, R64Sint, R64Sfloat, R32G32Uint, R32G32Sint, R32G32Sfloat,
                  R16G16B16A16Unorm, R16G16B16A16Snorm, R16G16B16A16Uscaled, R16G16B16A16Sscaled,
                  R16G16B16A16Uint, R16G16B16A16Sint, R16G16B16A16Sfloat} then Ok(8)
    else if f in {R32G32B32Uint, R32G32B32Sint, R32G32B32Sfloat} then Ok(12)
    else if f in {R64G64Uint, R64G64Sint, R64G64Sfloat, R32G32B32A32Uint, R32G32B32A32Sint, R32G32B32A32Sfloat} then Ok(16)
    else if f in {R64G64B64Uint, R64G64B64Sint, R64G64B64Sfloat} then Ok(24)
    else if f in {R64G64B64A64Uint, R64G64B64A64Sint, R64G64B64A64Sfloat} then Ok(32)
    else Err("Unknown format")
  }

  /** The texel block size the Vulkan specification gives the
      uncompressed formats 1..123, read off their numbering: the formats
      come in runs that share a channel layout (seven numeric kinds of
      one 8-bit channel, and so on), and the size is the number of
      channels times the bytes per channel, or the pack width of a packed
      format. */
  function TexelBlockSize(f: Format): nat
    requires 1 <= f <= 123
  {
    if f == 1 then 1                 // R4G4 packed in 8 bits
    else if f <= 8 then 2            // 16-bit packed
    else if f <= 15 then 1 * 1       // one 8-bit channel
    else if f <= 22 then 2 * 1       // two 8-bit channels
    else if f <= 36 then 3 * 1       // three 8-bit channels, RGB and BGR
    else if f <= 50 then 4 * 1       // four 8-bit channels, RGBA and BGRA
    else if f <= 69 then 4           // 32-bit packed
    else if f <= 76 then 1 * 2       // 16-bit channels: one ...
    else if f <= 83 then 2 * 2
    else if f <= 90 then 3 * 2
    else if f <= 97 then 4 * 2       // ... to four
    else if f <= 100 then 1 * 4      // 32-bit channels: one ...
    else if f <= 103 then 2 * 4
    else if f <= 106 then 3 * 4
    else if f <= 109 then 4 * 4      // ... to four
    else if f <= 112 then 1 * 8      // 64-bit channels: one ...
    else if f <= 115 then 2 * 8
    else if f <= 118 then 3 * 8
    else if f <= 121 then 4 * 8      // ... to four
    else 4                           // the two 32-bit packed float formats
  }

  /** The table covers exactly the uncompressed formats 1..123, and agrees
      with the Vulkan texel block size on every one of them. */
  lemma FormatSizeIsTexelBlockSize(f: Format)
    ensures FormatSizeInByte(f).Ok? <==> 1 <= f <= 123
    ensures 1 <= f <= 123 ==> FormatSizeInByte(f).value == TexelBlockSize(f)
  {
    if f <= 36 {
      FormatSizeLow(f);
    } else if f <= 97 {
      FormatSizeMiddle(f);
    } else {
      FormatSizeHigh(f);
    }
  }

  lemma FormatSizeLow(f: Format)
    requires f <= 36
    ensures FormatSizeInByte(f).Ok? <==> 1 <= f
    ensures 1 <= f ==> FormatSizeInByte(f).value == TexelBlockSize(f)
  {
  }

  lemma FormatSizeMiddle(f: Format)
    requires 36 < f <= 97
    ensures FormatSizeInByte(f).Ok? && FormatSizeInByte(f).value == TexelBlockSize(f)
  {
  }

  lemma FormatSizeHigh(f: Format)
    requires 97 < f
    ensures FormatSizeInByte(f).Ok? <==> f <= 123
    ensures f <= 123 ==> FormatSizeInByte(f).value == TexelBlockSize(f)
  {
  }

  /** The sizes the table can give. */
  lemma FormatSizes(f: Format)
    requires FormatSizeInByte(f).Ok?
    ensures FormatSizeInByte(f).value in {1, 2, 3, 4, 6, 8, 12, 16, 24, 32}
  {
  }

  /** `VkImageType` and `VkImageViewType`: 1D, 2D and 3D. */
  type ImageType = nat
  const ImageType1D: ImageType := 0
  const ImageType2D: ImageType := 1
  const ImageType3D: ImageType := 2
  type ImageViewType = nat
  const ViewType1D: ImageViewType := 0
  const ViewType2D: ImageViewType := 1
  const ViewType3D: ImageViewType := 2

  /** `to_image_view_type(type)`: the view type of the same dimension, or
      an error for anything else. */
  function ToImageViewType(t: ImageType): (r: Result<ImageViewType>)
    ensures r.Ok? <==> t in {ImageType1D, ImageType2D, ImageType3D}
    ensures r.Err? ==> r.message == "Unknown image type"
  {
    if t == ImageType1D then Ok(ViewType1D)
    else if t == ImageType2D then Ok(ViewType2D)
    else if t == ImageType3D then Ok(ViewType3D)
    else Err("Unknown image type")
  }

  /** The view of an image has its dimension: 1D, 2D and 3D images get
      different view types, each the one of its own dimension. */
  lemma ViewTypeKeepsDimension(s: ImageType, t: ImageType)
    requires ToImageViewType(s).Ok? && ToImageViewType(t).Ok?
    ensures ToImageViewType(s).value == ToImageViewType(t).value <==> s == t
    ensures ToImageViewType(ImageType2D) == Ok(ViewType2D) && ToImageViewType(ImageType3D) == Ok(ViewType3D)
  {
  }

  /** `VkExtent3D`. */
  datatype Extent3D = Extent3D(width: nat, height: nat, depth: nat)

  /** The fields of `VkImageCreateInfo` that VKDL sets. */
  datatype ImageInfo = ImageInfo(imageType: ImageType, format: Format, extent: Extent3D, mipLevels: nat,
                                 arrayLayers: nat, samples: nat, tiling: nat, usage: nat,
                                 sharingMode: SharingMode, initialLayout: Context.Layout)

  /** The fields of `VkSamplerCreateInfo`; its floats are exact reals. */
  datatype SamplerInfo = SamplerInfo(magFilter: nat, minFilter: nat, mipmapMode: nat,
                                     addressModeU: nat, addressModeV: nat, addressModeW: nat,
                                     mipLodBias: real, anisotropyEnable: bool, maxAnisotropy: real,
                                     compareEnable: bool, compareOp: nat, minLod: real, maxLod: real,
                                     borderColor: nat, unnormalizedCoordinates: bool)

  /** Enumerator values the defaults use. */
  const SampleCount1: nat := 1
  const TilingOptimal: nat := 0
  const FilterLinear: nat := 1
  const MipmapModeLinear: nat := 1
  const AddressModeRepeat: nat := 0
  const CompareOpNever: nat := 0
  const BorderFloatTransparentBlack: nat := 0

  /** The creator's image defaults: a 1D image of undefined format and
      zero extent, one mip level and one layer, one sample, optimal
      tiling, no usage, exclusive, undefined initial layout. */
  const DefaultImageInfo: ImageInfo :=
    ImageInfo(ImageType1D, Undefined, Extent3D(0, 0, 0), 1, 1, SampleCount1, TilingOptimal, 0,
              Exclusive, Context.LayoutUndefined)

  /** The creator's sampler defaults: linear filtering and mipmapping,
      repeat on all three axes, no bias, no anisotropy (at most 1), no
      comparison (never), level of detail in [-1000, 1000], transparent
      black border, normalised coordinates. */
  const DefaultSamplerInfo: SamplerInfo :=
    SamplerInfo(FilterLinear, FilterLinear, MipmapModeLinear,
                AddressModeRepeat, AddressModeRepeat, AddressModeRepeat,
                0.0, false, 1.0, false, CompareOpNever, -1000.0, 1000.0,
                BorderFloatTransparentBlack, false)

  /** What the image view is created with: the view type of the image's
      dimension, its format and its mip levels; the colour aspect, base
      level and layer 0, one layer, identity swizzles. */
  datatype ViewInfo = ViewInfo(viewType: ImageViewType, format: Format, levelCount: nat)

  /** The one descriptor write `create` makes: binding 0, element 0, one
      combined image sampler in the shader-read layout. */
  datatype DescriptorWrite = DescriptorWrite(binding: nat, arrayElement: nat, count: nat,
                                             combinedImageSampler: bool, imageLayout: Context.Layout)

  const TextureWrite := DescriptorWrite(0, 0, 1, true, Context.LayoutShaderReadOnly)

  /** What the driver answers `getImageMemoryRequirements` with. */
  datatype MemoryRequirements = MemoryRequirements(size: nat, typeBits: bv32)

  /** `VK_BUFFER_USAGE_TRANSFER_SRC_BIT` and
      `VK_MEMORY_PROPERTY_HOST_VISIBLE_BIT`, the staging buffer's masks. */
  const UsageTransferSrc: nat := 0x1
  const MemoryHostVisible: nat := 0x2

  // ---------------------------------------------------------------------
  // The staging size of `update`

  /** The staging size as `update` computes it: width, height and depth
      are 32-bit unsigned and multiplied as such, so their product wraps
      modulo 2^32 before it is widened and multiplied by the texel size. */
  function StagingSizeAsWritten(e: Extent3D, texel: nat): nat
  {
    (((e.width * e.height) % TWO_32) * e.depth % TWO_32) * texel
  }

  /** A legal 2048 x 2048 x 1024 3D texture of 4-byte texels needs 16 GiB
      of staging, but the 32-bit product wraps to 0 and nothing is
      staged. */
  lemma StagingSizeWraps()
    ensures StagingSizeAsWritten(Extent3D(2048, 2048, 1024), 4) == 0
    ensures 2048 * 2048 * 1024 * 4 == 0x4_0000_0000
  {
  }

  /** The staging size `update` means: one texel size per texel of the
      whole extent. */
  function StagingSize(e: Extent3D, texel: nat): (r: nat)
    ensures e.width > 0 && e.height > 0 && e.depth > 0 && texel > 0 ==> r >= e.width * e.height * e.depth
    ensures r == ((e.width * e.height) * e.depth) * texel
  {
    Positive(e.width, e.height);
    Positive(e.width * e.height, e.depth);
    MulGrows(e.width * e.height * e.depth, texel);
    ((e.width * e.height) * e.depth) * texel
  }

  lemma Positive(a: nat, b: nat)
    ensures a > 0 && b > 0 ==> a * b > 0
  {
  }

  lemma MulGrows(a: nat, b: nat)
    ensures b > 0 ==> a * b >= a
  {
  }

  /** The two agree whenever the texel count fits in 32 bits, which is
      where the wrap-around is harmless. */
  lemma StagingSizeAgrees(e: Extent3D, texel: nat)
    requires e.width * e.height * e.depth < TWO_32
    ensures StagingSizeAsWritten(e, texel) == StagingSize(e, texel)
  {
    var wh := e.width * e.height;
    if e.depth > 0 {
      MulGrows(wh, e.depth);
      assert wh % TWO_32 == wh;
      assert (wh * e.depth) % TWO_32 == wh * e.depth;
    } else {
      assert wh * e.depth == 0;
    }
  }

  class TextureCreator {
    var imageInfo: ImageInfo
    var samplerInfo: SamplerInfo
    var memoryProps: bv32
    var descriptorSetLayout: Handle

    /** `TextureCreator()`: the default image and sampler information, no
        memory properties and the null descriptor-set layout. */
    constructor ()
      ensures imageInfo == DefaultImageInfo && samplerInfo == DefaultSamplerInfo
      ensures memoryProps == 0 && descriptorSetLayout == 0
    {
      imageInfo := DefaultImageInfo;
      samplerInfo := DefaultSamplerInfo;
      memoryProps := 0;
      descriptorSetLayout := 0;
    }

    method SetImageFormat(format: Format)
      modifies this`imageInfo
      ensures imageInfo == old(imageInfo).(format := format)
    {
      imageInfo := imageInfo.(format := format);
    }

    /** `setImageExtent(width, height)` and `setImageExtent(Extent2D)`: a
        2D image of depth 1. */
    method SetImageExtent2D(width: nat, height: nat)
      modifies this`imageInfo
      ensures imageInfo == old(imageInfo).(extent := Extent3D(width, height, 1), imageType := ImageType2D)
    {
      imageInfo := imageInfo.(extent := Extent3D(width, height, 1), imageType := ImageType2D);
    }

    /** `setImageExtent(width, height, depth)` and
        `setImageExtent(Extent3D)`: a 3D image, whatever the depth. */
    method SetImageExtent3D(extent: Extent3D)
      modifies this`imageInfo
      ensures imageInfo == old(imageInfo).(extent := extent, imageType := ImageType3D)
    {
      imageInfo := imageInfo.(extent := extent, imageType := ImageType3D);
    }

    method SetImageMipLevels(levels: nat)
      modifies this`imageInfo
      ensures imageInfo == old(imageInfo).(mipLevels := levels)
    {
      imageInfo := imageInfo.(mipLevels := levels);
    }

    method SetImageSamples(samples: nat)
      modifies this`imageInfo
      ensures imageInfo == old(imageInfo).(samples := samples)
    {
      imageInfo := imageInfo.(samples := samples);
    }

    method SetImageTiling(tiling: nat)
      modifies this`imageInfo
      ensures imageInfo == old(imageInfo).(tiling := tiling)
    {
      imageInfo := imageInfo.(tiling := tiling);
    }

    method SetImageUsage(usage: nat)
      modifies this`imageInfo
      ensures imageInfo == old(imageInfo).(usage := usage)
    {
      imageInfo := imageInfo.(usage := usage);
    }

    method SetImageSharingMode(mode: SharingMode)
      modifies this`imageInfo
      ensures imageInfo == old(imageInfo).(sharingMode := mode)
    {
      imageInfo := imageInfo.(sharingMode := mode);
    }

    method SetImageMemoryProperties(props: bv32)
      modifies this`memoryProps
      ensures memoryProps == props
    {
      memoryProps := props;
    }

    method SetSamplerMagFilter(filter: nat)
      modifies this`samplerInfo
      ensures samplerInfo == old(samplerInfo).(magFilter := filter)
    {
      samplerInfo := samplerInfo.(magFilter := filter);
    }

    method SetSamplerMinFilter(filter: nat)
      modifies this`samplerInfo
      ensures samplerInfo == old(samplerInfo).(minFilter := filter)
    {
      samplerInfo := samplerInfo.(minFilter := filter);
    }

    method SetSamplerMipMapMode(mode: nat)
      modifies this`samplerInfo
      ensures samplerInfo == old(samplerInfo).(mipmapMode := mode)
    {
      samplerInfo := samplerInfo.(mipmapMode := mode);
    }

    method SetSamplerAddressMode(u: nat, v: nat, w: nat)
      modifies this`samplerInfo
      ensures samplerInfo == old(samplerInfo).(addressModeU := u, addressModeV := v, addressModeW := w)
    {
      samplerInfo := samplerInfo.(addressModeU := u, addressModeV := v, addressModeW := w);
    }

    /** `setSamplerMipLodBias(bool)`: the flag is stored in the float
        `mipLodBias`, so the bias becomes 1 or 0. */
    method SetSamplerMipLodBias(value: bool)
      modifies this`samplerInfo
      ensures samplerInfo == old(samplerInfo).(mipLodBias := if value then 1.0 else 0.0)
    {
      samplerInfo := samplerInfo.(mipLodBias := if value then 1.0 else 0.0);
    }

    /** `setSamplerAnisotropy(max)` also turns anisotropy on. */
    method SetSamplerAnisotropy(maxAnisotropy: real)
      modifies this`samplerInfo
      ensures samplerInfo == old(samplerInfo).(anisotropyEnable := true, maxAnisotropy := maxAnisotropy)
    {
      samplerInfo := samplerInfo.(anisotropyEnable := true, maxAnisotropy := maxAnisotropy);
    }

    /** `setSamplerCompare(op)` also turns comparison on. */
    method SetSamplerCompare(op: nat)
      modifies this`samplerInfo
      ensures samplerInfo == old(samplerInfo).(compareEnable := true, compareOp := op)
    {
      samplerInfo := samplerInfo.(compareEnable := true, compareOp := op);
    }

    method SetSamplerLod(min: real, max: real)
      modifies this`samplerInfo
      ensures samplerInfo == old(samplerInfo).(minLod := min, maxLod := max)
    {
      samplerInfo := samplerInfo.(minLod := min, maxLod := max);
    }

    method SetSamplerBorderColor(color: nat)
      modifies this`samplerInfo
      ensures samplerInfo == old(samplerInfo).(borderColor := color)
    {
      samplerInfo := samplerInfo.(borderColor := color);
    }

    method SetSamplerUnnormalizedCoordinates(value: bool)
      modifies this`samplerInfo
      ensures samplerInfo == old(samplerInfo).(unnormalizedCoordinates := value)
    {
      samplerInfo := samplerInfo.(unnormalizedCoordinates := value);
    }

    method SetDescriptorSetLayout(layout: Handle)
      modifies this`descriptorSetLayout
      ensures descriptorSetLayout == layout
    {
      descriptorSetLayout := layout;
    }

    /** `create()`, the driver answering the image's memory requirements
        with `req` and the chosen device having the memory types `types`.
        The memory is allocated before the view is made, so a missing
        memory type is reported before an unknown image type. On success
        the texture holds the creation information, the requirement's
        size, the first suitable memory type, the view of the image's
        dimension with its format and mip levels, the sampler information,
        a descriptor set of the creator's layout written as one combined
        image sampler, and the image's extent and format. */
    method Create(req: MemoryRequirements, types: seq<bv32>) returns (r: Result<Texture>)
      requires |types| <= 32
      ensures r.Ok? ==> fresh(r.value) && fresh(r.value.staging)
      ensures r.Ok? ==> var t := r.value;
        t.imageInfo == Some(imageInfo) && t.allocatedSize == req.size &&
        t.memoryType.Some? && Context.FirstSuitable(req.typeBits, memoryProps, types, t.memoryType.value) &&
        ToImageViewType(imageInfo.imageType).Ok? &&
        t.view == Some(ViewInfo(ToImageViewType(imageInfo.imageType).value, imageInfo.format, imageInfo.mipLevels)) &&
        t.sampler == Some(samplerInfo) && t.descriptorSetLayout == descriptorSetLayout &&
        t.descriptorWrite == Some(TextureWrite) &&
        t.extent == imageInfo.extent && t.format == imageInfo.format
      ensures r.Ok? ==> r.value.Staging()
      ensures r.Err? <==>
        (forall j :: 0 <= j < |types| ==> !Context.Suitable(req.typeBits, memoryProps, types, j)) ||
        ToImageViewType(imageInfo.imageType).Err?
      ensures r.Err? && (exists j :: 0 <= j < |types| && Context.Suitable(req.typeBits, memoryProps, types, j)) ==>
        r.message == "Unknown image type"
    {
      var t := new Texture();
      var memoryType := Context.FindMemoryType(req.typeBits, memoryProps, types);
      if memoryType.Err? {
        return Err(memoryType.message);
      }
      var viewType := ToImageViewType(imageInfo.imageType);
      if viewType.Err? {
        return Err(viewType.message);
      }
      t.Build(imageInfo, req.size, memoryType.value, ViewInfo(viewType.value, imageInfo.format, imageInfo.mipLevels),
              samplerInfo, descriptorSetLayout);
      r := Ok(t);
    }
  }

  class Texture {
    /** `Buffer<uint8_t>` for the staging copies. */
    const staging: Buffer.Buffer
    var imageInfo: Option<ImageInfo>
    var allocatedSize: nat
    var memoryType: Option<nat>
    var view: Option<ViewInfo>
    var sampler: Option<SamplerInfo>
    var descriptorSetLayout: Handle
    var descriptorWrite: Option<DescriptorWrite>
    var extent: Extent3D
    var format: Format
    /** What the image holds, and the layout it was last moved to. */
    var contents: seq<bv8>
    var layout: Context.Layout
    /** The layout transitions recorded so far. */
    var barriers: seq<Context.Barrier>

    /** The staging buffer is a byte buffer for transfer sources in
        host-visible memory. */
    ghost predicate Staging()
      reads this, staging
    {
      staging.elemSize == 1 && staging.usage == UsageTransferSrc && staging.memoryProps == MemoryHostVisible &&
      staging.Valid()
    }

    /** `Texture()`: every handle null, zero extent, allocation zero,
        undefined format, and an empty staging buffer. */
    constructor ()
      ensures fresh(staging) && Staging() && staging.actualSize == 0
      ensures imageInfo.None? && memoryType.None? && view.None? && sampler.None? && descriptorWrite.None?
      ensures extent == Extent3D(0, 0, 0) && allocatedSize == 0 && format == Undefined
      ensures contents == [] && layout == Context.LayoutUndefined && barriers == []
    {
      staging := new Buffer.Buffer(1, UsageTransferSrc, MemoryHostVisible, Exclusive);
      imageInfo := None;
      allocatedSize := 0;
      memoryType := None;
      view := None;
      sampler := None;
      descriptorSetLayout := 0;
      descriptorWrite := None;
      extent := Extent3D(0, 0, 0);
      format := Undefined;
      contents := [];
      layout := Context.LayoutUndefined;
      barriers := [];
    }

    /** The assignments `create` makes once memory type and view type are
        known. */
    method Build(info: ImageInfo, size: nat, memType: nat, v: ViewInfo, s: SamplerInfo, layoutHandle: Handle)
      modifies this
      ensures imageInfo == Some(info) && allocatedSize == size && memoryType == Some(memType)
      ensures view == Some(v) && sampler == Some(s) && descriptorSetLayout == layoutHandle
      ensures descriptorWrite == Some(TextureWrite) && extent == info.extent && format == info.format
      ensures contents == old(contents) && layout == old(layout) && barriers == old(barriers)
    {
      imageInfo := Some(info);
      allocatedSize := size;
      memoryType := Some(memType);
      view := Some(v);
      sampler := Some(s);
      descriptorSetLayout := layoutHandle;
      descriptorWrite := Some(TextureWrite);
      extent := info.extent;
      format := info.format;
    }

    /** `update(pixels)`, the driver asking `required` bytes for the new
        staging buffer and the context answering with a memory type. An
        unknown format is an error before anything happens. Otherwise the
        staging buffer is resized to `StagingSize` bytes (see the findings
        for the size as written); since its usage and memory properties
        are both set, that resize is refused by its check. Were it not,
        the first bytes of `pixels` would be copied to the image between a
        transition from the undefined to the transfer-destination layout
        and one from there to the shader-read layout. */
    method Update(device: Device, pixels: seq<bv8>, required: nat, memoryType: Result<nat>) returns (r: Result<()>)
      requires FormatSizeInByte(format).Ok? ==> |pixels| >= StagingSize(extent, FormatSizeInByte(format).value)
      requires FormatSizeInByte(format).Ok? ==> required >= staging.elemSize * StagingSize(extent, FormatSizeInByte(format).value)
      modifies this`contents, this`layout, this`barriers, staging, device
      ensures FormatSizeInByte(format).Err? ==> r == Err("Unknown format") && unchanged(staging) && unchanged(device)
      ensures FormatSizeInByte(format).Ok? && staging.Rejected() ==> r == Err("error")
      ensures r.Err? ==> contents == old(contents) && layout == old(layout) && barriers == old(barriers)
      ensures r.Ok? ==> var size := StagingSize(extent, FormatSizeInByte(format).value);
        staging.actualSize == size && contents == pixels[..size] && layout == Context.LayoutShaderReadOnly &&
        barriers == old(barriers) + [Context.TransitionImageLayout(Context.LayoutUndefined, Context.LayoutTransferDst).value,
                                     Context.TransitionImageLayout(Context.LayoutTransferDst, Context.LayoutShaderReadOnly).value]
    {
      var texel := FormatSizeInByte(format);
      if texel.Err? {
        return Err(texel.message);
      }
      var size := StagingSize(extent, texel.value);
      r := staging.Resize(device, size, required, memoryType);
      if r.Err? {
        return;
      }
      var toTransfer := Context.TransitionImageLayout(Context.LayoutUndefined, Context.LayoutTransferDst);
      var toShader := Context.TransitionImageLayout(Context.LayoutTransferDst, Context.LayoutShaderReadOnly);
      barriers := barriers + [toTransfer.value];
      contents := pixels[..size];
      barriers := barriers + [toShader.value];
      layout := Context.LayoutShaderReadOnly;
    }
  }

  /** Every texture `create` makes has a staging buffer whose check
      refuses every resize, so `update` on it never copies anything: it
      answers "Unknown format" or "error". */
  lemma TextureUpdateRefused(t: Texture)
    requires t.Staging()
    ensures t.staging.Rejected()
  {
  }
}
