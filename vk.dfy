// Vulkan enumerations and records that several parts of VKDL share, with
// the numeric values the Vulkan specification gives them. Handles (buffers,
// images, pipelines, ...) are opaque values and appear elsewhere as ids.
module Vk {
  /** `VkFormat`: the uncompressed colour formats 0..123 of the core
      specification, in its numbering. */
  type Format = nat

  const Undefined: Format := 0
  const R4G4UnormPack8: Format := 1
  const R4G4B4A4UnormPack16: Format := 2
  const B4G4R4A4UnormPack16: Format := 3
  const R5G6B5UnormPack16: Format := 4
  const B5G6R5UnormPack16: Format := 5
  const R5G5B5A1UnormPack16: Format := 6
  const B5G5R5A1UnormPack16: Format := 7
  const A1R5G5B5UnormPack16: Format := 8
  const R8Unorm: Format := 9
  const R8Snorm: Format := 10
  const R8Uscaled: Format := 11
  const R8Sscaled: Format := 12
  const R8Uint: Format := 13
  const R8Sint: Format := 14
  const R8Srgb: Format := 15
  const R8G8Unorm: Format := 16
  const R8G8Snorm: Format := 17
  const R8G8Uscaled: Format := 18
  const R8G8Sscaled: Format := 19
  const R8G8Uint: Format := 20
  const R8G8Sint: Format := 21
  const R8G8Srgb: Format := 22
  const R8G8B8Unorm: Format := 23
  const R8G8B8Snorm: Format := 24
  const R8G8B8Uscaled: Format := 25
  const R8G8B8Sscaled: Format := 26
  const R8G8B8Uint: Format := 27
  const R8G8B8Sint: Format := 28
  const R8G8B8Srgb: Format := 29
  const B8G8R8Unorm: Format := 30
  const B8G8R8Snorm: Format := 31
  const B8G8R8Uscaled: Format := 32
  const B8G8R8Sscaled: Format := 33
  const B8G8R8Uint: Format := 34
  const B8G8R8Sint: Format := 35
  const B8G8R8Srgb: Format := 36
  const R8G8B8A8Unorm: Format := 37
  const R8G8B8A8Snorm: Format := 38
  const R8G8B8A8Uscaled: Format := 39
  const R8G8B8A8Sscaled: Format := 40
  const R8G8B8A8Uint: Format := 41
  const R8G8B8A8Sint: Format := 42
  const R8G8B8A8Srgb: Format := 43
  const B8G8R8A8Unorm: Format := 44
  const B8G8R8A8Snorm: Format := 45
  const B8G8R8A8Uscaled: Format := 46
  const B8G8R8A8Sscaled: Format := 47
  const B8G8R8A8Uint: Format := 48
  const B8G8R8A8Sint: Format := 49
  const B8G8R8A8Srgb: Format := 50
  const A8B8G8R8UnormPack32: Format := 51
  const A8B8G8R8SnormPack32: Format := 52
  const A8B8G8R8UscaledPack32: Format := 53
  const A8B8G8R8SscaledPack32: Format := 54
  const A8B8G8R8UintPack32: Format := 55
  const A8B8G8R8SintPack32: Format := 56
  const A8B8G8R8SrgbPack32: Format := 57
  const A2R10G10B10UnormPack32: Format := 58
  const A2R10G10B10SnormPack32: Format := 59
  const A2R10G10B10UscaledPack32: Format := 60
  const A2R10G10B10SscaledPack32: Format := 61
  const A2R10G10B10UintPack32: Format := 62
  const A2R10G10B10SintPack32: Format := 63
  const A2B10G10R10UnormPack32: Format := 64
  const A2B10G10R10SnormPack32: Format := 65
  const A2B10G10R10UscaledPack32: Format := 66
  const A2B10G10R10SscaledPack32: Format := 67
  const A2B10G10R10UintPack32: Format := 68
  const A2B10G10R10SintPack32: Format := 69
  const R16Unorm: Format := 70
  const R16Snorm: Format := 71
  const R16Uscaled: Format := 72
  const R16Sscaled: Format := 73
  const R16Uint: Format := 74
  const R16Sint: Format := 75
  const R16Sfloat: Format := 76
  const R16G16Unorm: Format := 77
  const R16G16Snorm: Format := 78
  const R16G16Uscaled: Format := 79
  const R16G16Sscaled: Format := 80
  const R16G16Uint: Format := 81
  const R16G16Sint: Format := 82
  const R16G16Sfloat: Format := 83
  const R16G16B16Unorm: Format := 84
  const R16G16B16Snorm: Format := 85
  const R16G16B16Uscaled: Format := 86
  const R16G16B16Sscaled: Format := 87
  const R16G16B16Uint: Format := 88
  const R16G16B16Sint: Format := 89
  const R16G16B16Sfloat: Format := 90
  const R16G16B16A16Unorm: Format := 91
  const R16G16B16A16Snorm: Format := 92
  const R16G16B16A16Uscaled: Format := 93
  const R16G16B16A16Sscaled: Format := 94
  const R16G16B16A16Uint: Format := 95
  const R16G16B16A16Sint: Format := 96
  const R16G16B16A16Sfloat: Format := 97
  const R32Uint: Format := 98
  const R32Sint: Format := 99
  const R32Sfloat: Format := 100
  const R32G32Uint: Format := 101
  const R32G32Sint: Format := 102
  const R32G32Sfloat: Format := 103
  const R32G32B32Uint: Format := 104
  const R32G32B32Sint: Format := 105
  const R32G32B32Sfloat: Format := 106
  const R32G32B32A32Uint: Format := 107
  const R32G32B32A32Sint: Format := 108
  const R32G32B32A32Sfloat: Format := 109
  const R64Uint: Format := 110
  const R64Sint: Format := 111
  const R64Sfloat: Format := 112
  const R64G64Uint: Format := 113
  const R64G64Sint: Format := 114
  const R64G64Sfloat: Format := 115
  const R64G64B64Uint: Format := 116
  const R64G64B64Sint: Format := 117
  const R64G64B64Sfloat: Format := 118
  const R64G64B64A64Uint: Format := 119
  const R64G64B64A64Sint: Format := 120
  const R64G64B64A64Sfloat: Format := 121
  const B10G11R11UfloatPack32: Format := 122
  const E5B9G9R9UfloatPack32: Format := 123

  /** `VkExtent2D`, `VkOffset2D`, `VkRect2D`: 32-bit unsigned extents and
      signed offsets. `Rect2D()` is the all-zero rectangle. */
  datatype Extent2D = Extent2D(width: nat, height: nat)
  datatype Offset2D = Offset2D(x: int, y: int)
  datatype Rect2D = Rect2D(offset: Offset2D, extent: Extent2D)

  const ZeroRect: Rect2D := Rect2D(Offset2D(0, 0), Extent2D(0, 0))

  /** `VkSharingMode`. */
  datatype SharingMode = Exclusive | Concurrent

  /** `VkViewport`. Its fields are floats; the model keeps them as exact
      reals. */
  datatype Viewport = Viewport(x: real, y: real, width: real, height: real, minDepth: real, maxDepth: real)

  /** The rectangle at the origin covering a framebuffer of the given size. */
  function FullRect(fb: Extent2D): (r: Rect2D)
    ensures r.offset == Offset2D(0, 0) && r.extent == fb
  {
    Rect2D(Offset2D(0, 0), fb)
  }
}
