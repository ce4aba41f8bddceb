# VKDL core, modelled in Dafny

VKDL is a small C++ 2D graphics library built on Vulkan, Win32 and FreeType. Its logic is bookkeeping wrapped around driver and operating-system calls. This project models that bookkeeping and proves what it guarantees:

- the 2D draw list's batching of vertices, indices and commands;
- the render-state cache that suppresses redundant commands;
- the frame and present loop of the platform window;
- buffer, texture, font-atlas and transformable resources;
- the context's selection rules and registries;
- the four builders that turn vectors into Vulkan create infos;
- the value types UUID, Flags, Color, Image and Rect;
- the Win32 message handling, keyboard table and cursor.

Every Vulkan, Win32 or FreeType call becomes an event appended to a trace (`Gpu.Device` records them and hands out fresh handles), or an opaque input passed as a parameter. Floating-point values are either opaque (vertex contents, `Transform2D`, which keeps only its identity and composition) or exact reals, where only linear arithmetic is involved.

## Modules

One Dafny module per core source file, in a file of the same name:

- `drawlist` is `DrawList2D` (`src/drawlist_2d.cpp`):
  - emitters reserve counts on the last command and append vertices and absolute indices;
  - the texture, clip-rect and transform stacks open or reuse commands;
  - `draw` replays the commands against the render-state cache.
- `render_states` covers `Updatable<T>` and `RenderStates`.
- `texture_view` covers `TextureView`.
- `window_base` covers `PlatformWindowBase`: the swapchain rules, frames and semaphores, and the acquire retry loop.
- `platform_window` covers `PlatformWindow::render` and `display`.
- `win32_window` covers the Win32 implementation: UTF-16 decoding (section 2.2 of RFC 2781), window styles and the `WndProc` state updates.
- `keyboard` and `cursor` are the Win32 key table and cursor.
- `buffer` is `Buffer<T>`.
- The font atlas is split across three files:
  - `font` is `Font` and its `Page`: the glyph cache, the shelf packer and the glyph pixel fill;
  - `placement` is the packer's pure part;
  - `glyph` holds the glyph values.
- `context` covers `Context` and `ContextCreator`.
- `texture` covers `TextureCreator` and `Texture`.
- The builders are `renderpass_builder`, `descriptor_set_layout_builder`, `pipeline_layout_builder` and `pipeline_builder`.
- The value types are `uuid`, `flags`, `window_style`, `window_event`, `color`, `image`, `rect`, `transform` and `transformable`.
- Vulkan value types and a few shared helpers are in `vk`, `gpu` and `wrappers`.

Objects whose fields the library updates in place are classes whose methods state their whole new state. Pure switches and tables are functions. Loops are methods with invariants, specified by functions on sequences on which the properties are proved as lemmas.

## Where the model follows the code rather than its intent

`VKDL_CHECK(e)` and `VKDL_CHECK_MSG(e, m)` raise their error when `e` is *true* (`include/vkdl/core/exception.h:8-9`). Most callers pass the condition that should hold, so their error branches are inverted. The model keeps the macro's literal meaning, and its consequences are proved:

- `Buffer::init` and `Buffer::resize` raise when the usage and the memory properties are both nonzero.
- Every texture staging buffer has both, so `Texture::update` always raises (`Texture.TextureUpdateRefused`).
- `ContextCreator::enableDebug` raises for every level below 6.
- `ColorImage::blit` raises when `offset.x + size.x` is below the width or below the height. Its second check looks at `offset.x + size.x` again, so `offset.y + size.y` is never checked (see Findings).
- `PipelineBuilder::build` raises when pipeline creation *succeeds*.
- `Font::setCurrentSize` raises for every FreeType result except the invalid-pixel-size one.
- `CursorImpl::loadFromPixels` raises when the bitmap *was* created. When it was not, the bitmap memory is NULL and the copy loop writes through it for any nonzero pixel count, so only a cursor of no pixels is ever loaded.

Other behaviour is also kept as written:

- `newCommand` never records a clip rect. Every command therefore keeps the default one, and `draw` always requests a full-framebuffer scissor.
- `popTexture` opens no command when the current command uses the popped texture.
- `addFilledCircleFan` reserves `seg + 1` vertices but appends `seg + 2`.
- `addFilledRoundRect` takes its four corner radii from a `vec4`, but `vec4` is an alias of `glm::vec2` (`include/vkdl/math/vector_type.h:18`), so `radius[2]` and `radius[3]` read past the vector. The model takes them as two more free radii.
- `addText` with an empty string pushes a texture that it never pops, and `addText` walks bytes, not code points.
- `PipelineBuilder::clear` keeps the scissors while emptying the viewports.
- `enableStencilTest` stores the two operation states but does not turn the test on.
- `Color(Colors)` reinterprets the 32-bit value in little-endian memory order.
- `UUID::to_string` prints without zero padding, so only UUIDs without leading zeros in a group round-trip.
- `DescriptorSetLayoutBuilder::addSampler(nullptr)` counts a descriptor without storing a sampler. A sampler binding given one sampler and one null sampler is then pointed at a run of two entries in a list of one (`DescriptorSetLayoutBuilder.MixedSamplersOverrun`).

## Model

| member | source | states |
|---|---|---|
| Uuid.Default | VKDL/include/vkdl/util/uuid.h:9-11 | the default UUID is empty: both halves are zero |
| Uuid.EmptyIsDefault | VKDL/include/vkdl/util/uuid.h:54-57 | `empty()` holds of a UUID exactly when it is the default one |
| Uuid.EqIsEquality | VKDL/include/vkdl/util/uuid.h:82-90 | `==` holds exactly of equal values and `!=` exactly of different ones |
| Uuid.LessIsStrictTotalOrder | VKDL/include/vkdl/util/uuid.h:59-80 | `<` compares `hi` first and `lo` on a tie; it is irreflexive, transitive and total; `>`, `<=` and `>=` agree with it and with equality |
| Uuid.CollectNibbles | VKDL/include/vkdl/util/uuid.h:20-30 | the first loop leaves the 32-entry buffer holding the string's hex digit values in order (digits, letters up to F of either case unless the previous character is an I), zeros after them |
| Uuid.PackNibbles | VKDL/include/vkdl/util/uuid.h:32-35 | the second loop makes `hi` the value of buffer entries 0-15 and `lo` that of entries 16-31, most significant nibble first |
| Uuid.FromString | VKDL/include/vkdl/util/uuid.h:17-36 | the string constructor yields the UUID whose 32 nibbles are the collected digits padded with zeros |
| Uuid.HexValueInjective | VKDL/include/vkdl/util/uuid.h:32-35 | two equally long nibble sequences with the same value are the same sequence, so packing loses nothing |
| Uuid.HexDigits | VKDL/include/vkdl/util/uuid.h:42-48 | `std::hex` prints at least one digit, each a nibble |
| Uuid.Printed | VKDL/include/vkdl/util/uuid.h:38-52 | the five groups `to_string` prints hold at most 32 hex digits together |
| Uuid.NibblesOfToString | VKDL/include/vkdl/util/uuid.h:17-52 | parsing the text `to_string` prints reads back exactly the printed digits, the braces and dashes contributing none |
| Uuid.FromFullNibbles | VKDL/include/vkdl/util/uuid.h:32-35 | packing the 32 nibbles of a UUID gives that UUID back |
| Uuid.RoundTripIff | VKDL/include/vkdl/util/uuid.h:17-52 | parsing the printed text gives the UUID back exactly when its printed digits padded to 32 are its 32 nibbles |
| Uuid.RoundTripFullWidth | VKDL/include/vkdl/util/uuid.h:17-52 | a UUID whose five groups all print at full width (8-4-4-4-12 digits) round-trips through `to_string` and the string constructor |
| Uuid.RoundTripFailsOnLeadingZero | VKDL/include/vkdl/util/uuid.h:42-48 | the UUID (0, 1) prints without padding and parses back as a different UUID |
| Uuid.EmptyRoundTrips | VKDL/include/vkdl/util/uuid.h:42-48 | the empty UUID prints as `{0-0-0-0-0}` and parses back to itself |
| Flags.ConstructorBits | VKDL/include/vkdl/util/flags.h:17-19 | a default mask has no bit set; a mask built from a single-bit enumerator has exactly that bit |
| Flags.OperatorsAreBitwise | VKDL/include/vkdl/util/flags.h:60-73 | bit i of the and, or and xor of two masks is the and, or and exclusive or of their bits i |
| Flags.ComplementFlipsAll | VKDL/include/vkdl/util/flags.h:75-78 | `~` flips exactly the bits of the enumeration's `allFlags` mask, so applying it twice is the identity |
| Flags.BoolMeansSomeBit | VKDL/include/vkdl/util/flags.h:55-58 | `bool` holds exactly when some bit is set, and `!` is its negation |
| Flags.ComparisonsAreConsistent | VKDL/include/vkdl/util/flags.h:25-53 | the six comparisons order masks as signed `int`s (the `MaskType`, flags.h:15), consistently with each other and with equality |
| Flags.NegativeFirst | VKDL/include/vkdl/util/flags.h:25-28 | a mask with bit 31 set, negative as an `int`, is below every mask without it |
| Flags.BelowEmpty | VKDL/include/vkdl/util/flags.h:25-33 | exactly the negative masks are below the empty mask, all-ones (-1) among them, and 0x8000_0000 (-2^31) is at or below every mask |
| Flags.FlagsVar.OrAssign | VKDL/include/vkdl/util/flags.h:82-86 | the or-assignment leaves the mask that the or operator gives |
| Flags.FlagsVar.AndAssign | VKDL/include/vkdl/util/flags.h:88-92 | the and-assignment leaves the mask that the and operator gives |
| Flags.FlagsVar.XorAssign | VKDL/include/vkdl/util/flags.h:94-98 | the xor-assignment leaves the mask that the xor operator gives |
| WindowStyle.DefaultStyle | VKDL/include/vkdl/system/platform_window.h:53-58 | a window created without a style gets the `Default` mask |
| WindowStyle.SingleBits | VKDL/include/vkdl/system/platform_window.h:21-31 | the six named styles are the single bits 0 to 5 in declaration order, and `None` is 0 |
| WindowStyle.CompositeBits | VKDL/include/vkdl/system/platform_window.h:30-31 | `Titlebar` is exactly minimize, maximize and close; `Default` adds resizable and visible but not top-most |
| WindowEvent.Plain | VKDL/include/vkdl/system/window_event.h:8-34 | an event of a payload-free type carries that type and no data |
| WindowEvent.FromOrdinal | VKDL/include/vkdl/system/window_event.h:9-34 | any value stored in the `Type` field reads back as a tag with that ordinal, including values outside the enumeration |
| WindowEvent.NamesOfValues | VKDL/include/vkdl/system/window_event.h:36-65 | `getEventTypeName` answers "Unknown" exactly for values outside 0-23, and the 24 enumerators get 24 distinct names |
| WindowEvent.TextEnteredName | VKDL/include/vkdl/system/window_event.h:62 | only `TextEntered`'s name ends in a colon |
| Keyboard.RoundTrip | VKDL/src/platforms/windows_keyboard_impl.h:9-224 | every key the table lists reads back as itself through its virtual-key code; any other key gets code 0, which reads back as `Unknown` |
| Keyboard.CodeRoundTrip | VKDL/src/platforms/windows_keyboard_impl.h:9-224 | a virtual-key code that does not read back as `Unknown` reads back as a listed key whose code it is |
| Keyboard.ToVirtualKeyInjective | VKDL/src/platforms/windows_keyboard_impl.h:9-115 | distinct listed keys get distinct codes, none of them 0 |
| Keyboard.LettersAndDigits | VKDL/src/platforms/windows_keyboard_impl.h:12-47 | letter A+i has code 'A'+i and digit i has code '0'+i, in both directions |
| Color.FromColors | VKDL/include/vkdl/graphics/color.h:156-158 | constructing from a `Colors` word stores that word's bytes as r, g, b, a in memory order |
| Color.Rgb | VKDL/include/vkdl/graphics/color.h:160-164 | the `uint8_t` constructor stores its components and defaults alpha to 255 |
| Color.FromInts | VKDL/include/vkdl/graphics/color.h:166-170 | the `int32_t` constructor keeps each argument modulo 256 |
| Color.LowByteFacts | VKDL/include/vkdl/graphics/color.h:166-170 | an argument already in 0-255 is kept as it is, and arguments that differ by a multiple of 256 give the same component |
| Color.WordRoundTrip | VKDL/include/vkdl/graphics/color.h:156-158 | reading a colour's memory word and reinterpreting a word as a colour are inverse to each other |
| Color.EqualityIsComponentwise | VKDL/include/vkdl/graphics/color.h:208-214 | `==` holds exactly of equal colours and `!=` exactly of different ones |
| Color.RedAndBlue | VKDL/include/vkdl/graphics/color.h:15-78 | `Red` reads as (255, 0, 0, 255) and `Blue` as (0, 0, 255, 255): the low byte of the word is red |
| Color.TransparentAndAquaCyan | VKDL/include/vkdl/graphics/color.h:8-58 | `Transparent` is zero in every component, and `Aqua` and `Cyan` are the same colour |
| Color.WhiteIsAllOnes | VKDL/include/vkdl/graphics/color.h:148 | `White` is 255 in every component |
| Rect.GetPosition | VKDL/include/vkdl/math/rect.h:49-51 | `getPosition` is (left, top) |
| Rect.GetSize | VKDL/include/vkdl/math/rect.h:58-60 | `getSize` is (width, height) |
| Rect.FromPositionSize | VKDL/include/vkdl/math/rect.h:33-37 | the (position, size) constructor gives a rectangle with that position and that size |
| Rect.Convert | VKDL/include/vkdl/math/rect.h:39-44 | the converting constructor casts each field on its own into the target type, modulo 2^32 |
| Rect.Cast | VKDL/include/vkdl/math/rect.h:41-44 | `static_cast` between the 32-bit instances lands in the target type and agrees with the value modulo 2^32 |
| Rect.Half | VKDL/include/vkdl/math/rect.h:67-72 | dividing by 2 truncates toward zero, as C++ integer division does |
| Rect.Add | VKDL/include/vkdl/math/rect.h:69-79 | adding two fields stays in the type and agrees with the exact sum modulo 2^32; signed overflow is excluded |
| Rect.AccessorsRoundTrip | VKDL/include/vkdl/math/rect.h:49-65 | each setter is read back by its getter and leaves the other pair alone; setting what the getter returns changes nothing |
| Rect.ContainIsClosedBox | VKDL/include/vkdl/math/rect.h:78-80 | when the far edges do not wrap, `contain` holds exactly in the closed box from (left, top) to (left + width, top + height) |
| Rect.WrappedRectContainsNothing | VKDL/include/vkdl/math/rect.h:78-80 | an unsigned rectangle whose right edge wraps past 2^32 contains no point at or right of `left` |
| Rect.CenterInside | VKDL/include/vkdl/math/rect.h:67-80 | the centre of a rectangle of non-negative size is contained in it and lies within one unit of the exact midpoint |
| Rect.CastRoundTrip | VKDL/include/vkdl/math/rect.h:41-44 | a signed value cast to unsigned and back is unchanged, and casting a value the target type holds leaves it alone |
| Rect.ConvertRoundTrip | VKDL/include/vkdl/math/rect.h:39-44 | converting a signed rectangle to unsigned and back gives it back |
| Rect.RectVar.SetPosition | VKDL/include/vkdl/math/rect.h:53-56 | `setPosition` leaves the rectangle `WithPosition` describes |
| Rect.RectVar.SetSize | VKDL/include/vkdl/math/rect.h:62-65 | `setSize` leaves the rectangle `WithSize` describes |
| Image.CopyRange | VKDL/src/image.cpp:87 | `memcpy` between two distinct buffers replaces exactly the n destination elements at the offset by the n source elements at theirs |
| Image.RowMajor | VKDL/include/vkdl/graphics/image.h:207-217 | row-major addressing maps the pixels of a width x height image one-to-one into the buffer's first width x height entries |
| Image.Image.constructor | VKDL/include/vkdl/graphics/image.h:69-76 | the default constructor has no buffer, zero size and the default format, so the image is empty |
| Image.Image.Copy | VKDL/include/vkdl/graphics/image.h:78-86 | the copy constructor gets its own fresh buffer with the source's dimensions, format and pixels |
| Image.Image.Move | VKDL/include/vkdl/graphics/image.h:88-95 | the move constructor takes over the source's buffer, dimensions and format and leaves the source empty, with zero size and the default format |
| Image.Image.Sized | VKDL/include/vkdl/graphics/image.h:97-104 | `Image(width, height, format)` allocates the 32-bit product of width and height pixels and records the dimensions and the format; the buffer covers the dimensions exactly when the product is below 2^32 |
| Image.Image.Filled | VKDL/include/vkdl/graphics/image.h:106-114 | `Image(value, width, height, format)` allocates the 32-bit product of width and height pixels, each equal to `value`; the buffer covers the dimensions exactly when the product is below 2^32 |
| Image.Image.Wrap | VKDL/include/vkdl/graphics/image.h:116-123 | `Image(pixels, width, height, format)` adopts the caller's buffer without copying it |
| Image.Image.Create | VKDL/include/vkdl/graphics/image.h:155-160 | `create` allocates a fresh buffer of the 32-bit product of the given width and height, filled with `value`, but leaves the dimensions and the format as they were |
| Image.Image.LoadFromMemory | VKDL/include/vkdl/graphics/image.h:162-169 | `loadFromMemory` adopts the given buffer, dimensions and format |
| Image.Image.Clear | VKDL/include/vkdl/graphics/image.h:171-178 | `clear` drops the buffer and resets the dimensions and the format; the image is empty |
| Image.Image.Release | VKDL/include/vkdl/graphics/image.h:180-187 | `release` hands the old buffer to the caller and leaves the image as `clear` does |
| Image.Image.AtIsRowMajor | VKDL/include/vkdl/graphics/image.h:207-217 | inside the image `at(x, y)` reads pixel x of row y of the row-major contents, and distinct positions address distinct pixels |
| Image.NewColorImage | VKDL/src/image.cpp:37-40 | a sized colour image gets the 32-bit product of width and height pixels in the RGBA8 format, covering its dimensions exactly when the product is below 2^32 |
| Image.NewFilledColorImage | VKDL/src/image.cpp:42-45 | a filled colour image has every allocated pixel (the 32-bit product of width and height) equal to the value, in the RGBA8 format, covering its dimensions exactly when the product is below 2^32 |
| Image.WrapColorImage | VKDL/src/image.cpp:47-50 | a wrapping colour image adopts the caller's buffer, in the RGBA8 format |
| Image.CopyRows | VKDL/src/image.cpp:85-88 | the row loop makes row r of the new image the size.x source pixels that start at (offset.x, offset.y + r), for every row |
| Image.Blit | VKDL/src/image.cpp:76-91 | `blit` raises "error" exactly when one of its two checks fires (offset.x + size.x, as a 32-bit sum, below the width or below the height); past the checks, a region whose rows leave the source buffer or whose 32-bit sizes overflow is a fault; otherwise it returns a fresh size.x x size.y RGBA8 image each of whose rows is copied from the source |
| Image.BlitPastBottom | VKDL/src/image.cpp:77-87 | on a 1 x 1 image both checks let a 1 x 2 blit at the origin through, and its second row lies past the buffer |
| Image.BlitFitsReadable | VKDL/src/image.cpp:77-87 | when the region fits inside a 32-bit image whose buffer covers its pixels, every row the copy reads lies inside the buffer |
| Image.Product32 | VKDL/include/vkdl/graphics/image.h:98 | the `uint32_t` product of width and height used for every allocation and for the mask loop bound (image.cpp:97): the product itself below 2^32, never more than it, and 0 for a 65536 x 65536 image |
| Image.CreateMask | VKDL/src/image.cpp:93-102 | `createMask` returns an image sharing the source's buffer in which every pixel equal to `from` among the first `Product32` (the 32-bit product of width and height) has become `to`, and every other pixel is unchanged; it accepts every image whose buffer holds that many pixels, the wrapped images of 2^32 or more pixels included |
| Image.MaskOfWrappedImage | VKDL/src/image.cpp:93-102 | a 65536 x 65536 colour image (image.cpp:37-40) has an empty buffer, and `createMask` on it returns a mask of the same dimensions and no pixel |
| Transform.Then | VKDL/src/transform_2d.cpp:20-93 | `translate`, `shear`, `rotate` and `scale` keep every operation already in the transform and add theirs last |
| Transform.Mul | VKDL/src/transform_2d.cpp:124-140 | the product of two transforms is built from all the operations of both |
| Transform.MulLaws | VKDL/src/transform_2d.cpp:5-13 | on the recorded sequences of elementary operations (the term, not the float matrix), the identity is a unit of the product on both sides and the product is associative; the float matrix products are not associative and are not modelled |
| Transformable.ComposeOrder | VKDL/include/vkdl/graphics/transformable_2d.h:162-175 | the transform `getTransform` rebuilds is translate(position), shear, rotate, scale and translate(origin), in that order |
| Transformable.ComposeInjective | VKDL/include/vkdl/graphics/transformable_2d.h:162-175 | two parameter sets record the same sequence of elementary operations only when all six parameters are equal; as float matrices they can coincide (every `scale(0, 0)` transform is the same), which the term does not capture |
| Transformable.Transformable2D.constructor | VKDL/include/vkdl/graphics/transformable_2d.h:64-74 | a new object has zero position, origin, rotation and shears, unit scale, and the identity cached as up to date |
| Transformable.Transformable2D.SetOrigin | VKDL/include/vkdl/graphics/transformable_2d.h:81-85 | setting the origin changes only the origin and marks the cache stale |
| Transformable.Transformable2D.SetPosition | VKDL/include/vkdl/graphics/transformable_2d.h:92-96 | setting the position changes only the position and marks the cache stale |
| Transformable.Transformable2D.SetScale | VKDL/include/vkdl/graphics/transformable_2d.h:103-107 | setting the scale changes only the scale and marks the cache stale |
| Transformable.Transformable2D.SetRotation | VKDL/include/vkdl/graphics/transformable_2d.h:114-118 | setting the rotation changes only the rotation and marks the cache stale |
| Transformable.Transformable2D.SetShearX | VKDL/include/vkdl/graphics/transformable_2d.h:125-129 | setting the x shear changes only it and marks the cache stale |
| Transformable.Transformable2D.SetShearY | VKDL/include/vkdl/graphics/transformable_2d.h:136-140 | setting the y shear changes only it and marks the cache stale |
| Transformable.Transformable2D.Move | VKDL/include/vkdl/graphics/transformable_2d.h:142-154 | `move` adds the delta to the position, changes nothing else and marks the cache stale |
| Transformable.Transformable2D.Rotate | VKDL/include/vkdl/graphics/transformable_2d.h:156-160 | `rotate` adds the angle to the rotation, changes nothing else and marks the cache stale |
| Transformable.Transformable2D.GetTransform | VKDL/include/vkdl/graphics/transformable_2d.h:162-175 | `getTransform` returns the cached transform when it is up to date and otherwise rebuilds and caches it; the result is the composed transform of the current parameters, or the identity of an untouched object; the parameters do not change |
| RenderStates.CheckOnce | VKDL/include/vkdl/core/render_states.h:15-18 | `check_and_update()` reports a pending value exactly when the flag was clear, then sets the flag and keeps the value, so a second call reports nothing |
| RenderStates.CheckWithCases | VKDL/include/vkdl/core/render_states.h:20-28 | with no new value it is the plain check; a new value equal to the stored one reports nothing and changes nothing; a different value is stored, reported and marked applied |
| RenderStates.UpdateValueCases | VKDL/include/vkdl/core/render_states.h:30-34 | `update_value` with a different value stores it as pending, with the stored value changes nothing, and doing it twice is doing it once |
| RenderStates.ResetIsPending | VKDL/include/vkdl/core/render_states.h:36-40 | after `reset(v)` the next check reports `v` |
| RenderStates.Updatable.constructor | VKDL/include/vkdl/core/render_states.h:12-44 | an `Updatable` starts with the value and flag given (the source leaves the flag indeterminate) |
| RenderStates.Updatable.CheckAndUpdate | VKDL/include/vkdl/core/render_states.h:15-18 | the method leaves the state and the answer `CheckCell` describes |
| RenderStates.Updatable.CheckAndUpdateWith | VKDL/include/vkdl/core/render_states.h:20-28 | the method leaves the state and the answer `CheckCellWith` describes |
| RenderStates.Updatable.UpdateValue | VKDL/include/vkdl/core/render_states.h:30-34 | the method leaves the state `UpdateCell` describes |
| RenderStates.Updatable.Reset | VKDL/include/vkdl/core/render_states.h:36-40 | the method leaves the state `ResetCell` describes |
| RenderStates.FirstBindAfterReset | VKDL/src/render_states.cpp:46-88 | after `reset` the UUIDs are empty and the viewport and scissor cover the framebuffer, and the next `bind` with default options records begin-render-pass, bind-pipeline, set-viewport and set-scissor, in that order, for those values |
| RenderStates.SecondBindIsSilent | VKDL/src/render_states.cpp:56-88 | after a `bind` every state is applied with its value kept, and binding again with the same options records nothing |
| RenderStates.BindOrder | VKDL/src/render_states.cpp:56-88 | `bind` records at most four commands in the order render pass, pipeline, viewport, scissor; it begins the render pass exactly when that UUID is pending, binds the pipeline exactly when that UUID is pending, and sets the viewport or scissor exactly when its option supplies a different value or, without an option, when the stored one is pending |
| RenderStates.RenderStates.constructor | VKDL/include/vkdl/core/render_states.h:46-63 | a default `RenderStates` holds default values and the flags given |
| RenderStates.RenderStates.UpdateRenderPassUUID | VKDL/src/render_states.cpp:26-29 | only the render-pass cell changes, as `update_value` changes it |
| RenderStates.RenderStates.UpdatePipelineUUID | VKDL/src/render_states.cpp:31-34 | only the pipeline cell changes, as `update_value` changes it |
| RenderStates.RenderStates.UpdateViewport | VKDL/src/render_states.cpp:36-39 | only the viewport cell changes, as `update_value` changes it |
| RenderStates.RenderStates.UpdateScissor | VKDL/src/render_states.cpp:41-44 | only the scissor cell changes, as `update_value` changes it |
| RenderStates.RenderStates.Reset | VKDL/src/render_states.cpp:46-54 | `reset` leaves the states `ResetStates` describes for the framebuffer size |
| RenderStates.RenderStates.Bind | VKDL/src/render_states.cpp:56-88 | `bind` appends to the command trace exactly the commands `BindStates` gives and leaves its states; earlier commands are kept |
| RenderStates.RenderStates.BindRenderPass | VKDL/src/render_states.cpp:61-75 | the render pass is begun over the whole framebuffer exactly when its UUID was pending |
| RenderStates.RenderStates.BindPipeline | VKDL/src/render_states.cpp:77-79 | the pipeline is bound exactly when its UUID was pending |
| RenderStates.RenderStates.BindViewport | VKDL/src/render_states.cpp:81-83 | the viewport is set exactly when the option-aware check reports it |
| RenderStates.RenderStates.BindScissor | VKDL/src/render_states.cpp:85-87 | the scissor is set exactly when the option-aware check reports it |
| DrawList.Reserve | VKDL/src/drawlist_2d.cpp:533-545 | `reservePrimitives` adds the counts to the last command, keeps the number of commands, sets the upload flag and returns the current vertex count |
| DrawList.Emit | VKDL/src/drawlist_2d.cpp:30-58 | an emitter reserves, then appends its vertices and its indices offset by the returned base, keeping the number of commands |
| DrawList.TilesWithLast | VKDL/src/drawlist_2d.cpp:533-545 | growing the last command's index count keeps the commands' index ranges tiling the index list in order |
| DrawList.TilesAppend | VKDL/src/drawlist_2d.cpp:520-531 | appending an empty command at the end of the index list keeps the tiling |
| DrawList.EmitLastExact | VKDL/src/drawlist_2d.cpp:533-545 | with room left in 32 bits, the last command's vertex and index counts grow by exactly what is reserved |
| DrawList.EmitShape | VKDL/src/drawlist_2d.cpp:30-58 | an emitter appends its vertices, appends indices that are the vertex count before it plus its offsets, grows only the last command, sets the upload flag and leaves the three stacks alone |
| DrawList.EmitPreserves | VKDL/src/drawlist_2d.cpp:30-58 | an emitter whose offsets name the vertices it appends keeps the invariant: a command always exists, the index ranges tile the index list, every index names an existing vertex, no command is clipped, and the sizes fit 32 bits |
| DrawList.NewCommandState | VKDL/src/drawlist_2d.cpp:520-531 | `newCommand` always leaves a command |
| DrawList.NewCommandShape | VKDL/src/drawlist_2d.cpp:520-531 | `newCommand` appends a command exactly when the last one has indices and otherwise reuses it; either way the last command starts at the current vertex and index counts, has no indices, takes the top texture (or none) and the top transform (or the identity), and no clip rectangle; nothing else changes |
| DrawList.NewCommandPreserves | VKDL/src/drawlist_2d.cpp:520-531 | `newCommand` keeps the invariant |
| DrawList.PushTextureState | VKDL/src/drawlist_2d.cpp:349-356 | `pushTexture` pushes the texture and keeps the geometry |
| DrawList.PopTextureState | VKDL/src/drawlist_2d.cpp:358-366 | `popTexture` pops the texture and leaves a command |
| DrawList.IntersectIsOverlap | VKDL/src/drawlist_2d.cpp:374-408 | when no edge overflows, an intersecting push starts at the larger near edges and, on each axis where the two overlap, ends at the smaller far edge |
| DrawList.IntersectX | VKDL/src/drawlist_2d.cpp:387-405 | the x-axis half of the intersection |
| DrawList.IntersectY | VKDL/src/drawlist_2d.cpp:387-405 | the y-axis half of the intersection |
| DrawList.PushClipRectState | VKDL/src/drawlist_2d.cpp:374-408 | `pushClipRect` pushes the (possibly intersected) rectangle and opens a command |
| DrawList.PushClipRectFullScreenState | VKDL/src/drawlist_2d.cpp:368-372 | `pushClipRectFullScreen` pushes the default rectangle and opens a command |
| DrawList.PopClipRectState | VKDL/src/drawlist_2d.cpp:415-419 | `popClipRect` pops and opens a command |
| DrawList.PushTransformState | VKDL/src/drawlist_2d.cpp:421-425 | `pushTransform` pushes and opens a command |
| DrawList.PopTransformState | VKDL/src/drawlist_2d.cpp:427-431 | `popTransform` pops and opens a command |
| DrawList.TextureDedup | VKDL/src/drawlist_2d.cpp:349-366 | pushing the texture the last command already uses opens no command; after a push the last command uses that texture; popping it right away opens none either; the invariant is kept |
| DrawList.ClipOpsPreserve | VKDL/src/drawlist_2d.cpp:368-419 | every clip-rectangle push and pop keeps the invariant; in particular no command ever receives a clip rectangle |
| DrawList.TransformOpsPreserve | VKDL/src/drawlist_2d.cpp:358-366 | transform pushes and pops and texture pops keep the invariant |
| DrawList.ClearedIsValid | VKDL/src/drawlist_2d.cpp:433-446 | after `clear` there is exactly one default command, no geometry, the upload flag is set, and the invariant holds |
| DrawList.FanVertices | VKDL/src/drawlist_2d.cpp:112-127 | the fan is the centre followed by seg + 1 arc points, all of the colour |
| DrawList.FanOffsets | VKDL/src/drawlist_2d.cpp:122-126 | a fan of seg segments has 3 x seg index offsets |
| DrawList.FanOffsetsShape | VKDL/src/drawlist_2d.cpp:122-126 | triangle k of the fan is (0, k + 1, k + 2), so every offset names one of the seg + 2 vertices appended |
| DrawList.EmitQuadsSizes | VKDL/src/drawlist_2d.cpp:304-347 | n glyph or line quads add 4n vertices and 6n indices |
| DrawList.EmitQuadsShape | VKDL/src/drawlist_2d.cpp:304-347 | n quads append 4n vertices of the colour and 6n indices, keep the earlier commands and the stacks, and set the upload flag when n > 0 |
| DrawList.TextLoop | VKDL/src/drawlist_2d.cpp:245-293 | the loop of `addText` keeps the number of commands and the texture stack |
| DrawList.TextState | VKDL/src/drawlist_2d.cpp:219-302 | `addText` pushes the font texture; an empty text returns there without popping it; otherwise the loop's quads and the closing lines are emitted and the texture popped |
| DrawList.TextLoopSizes | VKDL/src/drawlist_2d.cpp:245-293 | the loop adds four vertices and six indices per quad it counts |
| DrawList.TextLoopStep | VKDL/src/drawlist_2d.cpp:245-293 | one pass of the loop for byte i emits that byte's quads after those of the bytes before it, and the previous character becomes the byte unless it is a carriage return |
| DrawList.LoopQuadsPrefix | VKDL/src/drawlist_2d.cpp:245-293 | a prefix of the text emits no more quads than the whole text |
| DrawList.PlainTextQuadPerByte | VKDL/src/drawlist_2d.cpp:245-293 | without blanks and carriage returns each byte is one glyph quad, so a character of several UTF-8 bytes gives several quads |
| DrawList.CarriageReturnIgnored | VKDL/src/drawlist_2d.cpp:246 | a carriage return anywhere in the text changes neither the quads nor the previous character |
| DrawList.LineFeedRunUnderlinedOnce | VKDL/src/drawlist_2d.cpp:250-254 | a run of line feeds is underlined once, at its first feed |
| DrawList.ReplayExtend | VKDL/src/drawlist_2d.cpp:467-517 | the trace of the first i commands followed by that of command i is the trace of the first i + 1 |
| DrawList.DrawHead | VKDL/src/drawlist_2d.cpp:452-470 | before its loop `draw` records the upload exactly when the upload flag was set, and then binds the vertex and index buffers |
| DrawList.DrawCalls | VKDL/src/drawlist_2d.cpp:516 | the draw calls are picked out of the recorded events |
| DrawList.BindDrawsNothing | VKDL/src/render_states.cpp:56-88 | binding the render states records no draw call |
| DrawList.StepDrawCalls | VKDL/src/drawlist_2d.cpp:472-516 | one command makes exactly one draw call, for its index count and offset |
| DrawList.IndexRanges | VKDL/src/drawlist_2d.cpp:472-516 | there is one index range per command |
| DrawList.ReplayDrawCalls | VKDL/src/drawlist_2d.cpp:472-517 | the loop of `draw` makes, in order, one draw call per command for its index range |
| DrawList.DrawTrace | VKDL/src/drawlist_2d.cpp:448-470 | `draw` records nothing and keeps the upload flag when there is no command or the first has no indices; otherwise it clears the flag, starts with the upload exactly when the flag was set, and then binds the vertex and index buffers |
| DrawList.DrawCallsInOrder | VKDL/src/drawlist_2d.cpp:448-518 | when it draws, `draw` makes one draw call per command, in order, for its index range |
| DrawList.StepSelects | VKDL/src/drawlist_2d.cpp:472-511 | a textured command selects the textured built-in pipeline and an untextured one the other; the render pass cell is that after one check; without a clip rectangle or a scissor option the scissor covers the framebuffer; a textured command starts by binding its descriptor set and pushing its texture size |
| DrawList.StepScissor | VKDL/src/drawlist_2d.cpp:495-511 | without a scissor option one command sets no scissor other than the one it selected |
| DrawList.BindScissors | VKDL/src/render_states.cpp:85-87 | binding without a scissor option sets the stored scissor exactly when it is pending, and no other |
| DrawList.ReplayFullScissor | VKDL/src/drawlist_2d.cpp:495-511 | since no command has a clip rectangle, `draw` without a scissor option sets no scissor other than the whole framebuffer |
| DrawList.CornerCentres | VKDL/src/drawlist_2d.cpp:165-168 | the four corner fans of `addFilledRoundRect` are centred inside the corners, clockwise from the top left |
| DrawList.EdgeRects | VKDL/src/drawlist_2d.cpp:170-175 | the four edge rectangles and the centre rectangle |
| DrawList.RoundRect | VKDL/src/drawlist_2d.cpp:163-176 | `addFilledRoundRect` is four corner fans followed by five rectangles, keeping the number of commands |
| DrawList.FanPoints | VKDL/src/drawlist_2d.cpp:116-120 | the first loop of `addFilledCircleFan` appends the centre and then seg + 1 arc points |
| DrawList.FanTriangles | VKDL/src/drawlist_2d.cpp:122-126 | the second loop appends the triangles (idx, idx + i, idx + i + 1) for i = 1 to seg as 32-bit indices |
| DrawList.SelectCommand | VKDL/src/drawlist_2d.cpp:473-496 | the first part of a loop pass records the texture binding and selects the pipeline and the scissor as `SelectStates` describes |
| DrawList.DrawCommand | VKDL/src/drawlist_2d.cpp:472-517 | one loop pass appends exactly the events and leaves the states `Step` describes |
| DrawList.StepSplit | VKDL/src/drawlist_2d.cpp:472-517 | the texture events, the transform, the binds and the draw call together make one command's events |
| DrawList.DrawPrologue | VKDL/src/drawlist_2d.cpp:452-470 | the start of `draw` records the upload and the buffer bindings and selects the built-in render pass |
| DrawList.DrawCommands | VKDL/src/drawlist_2d.cpp:472-517 | the loop of `draw` appends the events of each command in turn |
| DrawList.DrawSplit | VKDL/src/drawlist_2d.cpp:448-518 | the prologue's events followed by the loop's are `draw`'s |
| DrawList.DrawList2D.constructor | VKDL/src/drawlist_2d.cpp:19-28 | a new list registers the two built-in pipelines and holds exactly one default command with nothing to upload |
| DrawList.DrawList2D.ReservePrimitives | VKDL/src/drawlist_2d.cpp:533-545 | the method leaves the state and returns the base `Reserve` describes |
| DrawList.DrawList2D.AddRawTriangle | VKDL/src/drawlist_2d.cpp:30-41 | three vertices and the indices base + 0, 1, 2; the invariant is kept |
| DrawList.DrawList2D.AddRawQuad | VKDL/src/drawlist_2d.cpp:43-58 | four vertices and the indices base + 0, 1, 2, 2, 3, 0; the invariant is kept |
| DrawList.DrawList2D.AddDot | VKDL/src/drawlist_2d.cpp:60-77 | a quad whose corners are the point plus and minus the radius on each axis; the invariant is kept |
| DrawList.DrawList2D.AddLine | VKDL/src/drawlist_2d.cpp:79-97 | a quad of the colour with the line's six indices; the invariant is kept |
| DrawList.DrawList2D.AddFilledTriangle | VKDL/src/drawlist_2d.cpp:99-110 | the three points in the colour as one triangle; the invariant is kept |
| DrawList.DrawList2D.AddFilledCircleFan | VKDL/src/drawlist_2d.cpp:112-127 | reserves seg + 1 vertices but appends seg + 2 (the centre and seg + 1 arc points), with the fan's triangles; the invariant is kept |
| DrawList.DrawList2D.AddQuad | VKDL/src/drawlist_2d.cpp:129-144 | the four points in the colour as a quad; the invariant is kept |
| DrawList.DrawList2D.AddFilledRect | VKDL/src/drawlist_2d.cpp:146-161 | the rectangle's four corners in the colour as a quad; the invariant is kept |
| DrawList.DrawList2D.AddFilledRoundRect | VKDL/src/drawlist_2d.cpp:163-176 | the state `RoundRect` describes; the invariant is kept |
| DrawList.DrawList2D.AddRoundRectCorners | VKDL/src/drawlist_2d.cpp:165-168 | the four corner fans, leaving room for the rectangles |
| DrawList.DrawList2D.AddRoundRectSides | VKDL/src/drawlist_2d.cpp:170-175 | the five rectangles |
| DrawList.DrawList2D.AddTexturedImage | VKDL/src/drawlist_2d.cpp:178-183 | the image quad emitted between pushing and popping the texture; the invariant is kept |
| DrawList.DrawList2D.AddImage | VKDL/src/drawlist_2d.cpp:185-200 | the image quad with its uv corners and six indices; the texture stack is unchanged |
| DrawList.DrawList2D.AddImageQuad | VKDL/src/drawlist_2d.cpp:202-217 | the four points with their uvs as an image quad; the invariant is kept |
| DrawList.DrawList2D.AddGlyphQuad | VKDL/src/drawlist_2d.cpp:304-327 | the glyph's four padded and sheared corners with the strip indices 0, 1, 2, 2, 1, 3; the invariant is kept |
| DrawList.DrawList2D.AddTextLine | VKDL/src/drawlist_2d.cpp:329-347 | the line's four corners with the strip indices; the invariant is kept |
| DrawList.DrawList2D.AddAlignedQuad | VKDL/src/drawlist_2d.cpp:283-285 | a quad of `addText` whose corners are moved afterwards: four vertices of the colour and six strip indices |
| DrawList.DrawList2D.AddText | VKDL/src/drawlist_2d.cpp:219-302 | the method leaves the state `TextState` describes; the invariant is kept |
| DrawList.DrawList2D.AddTextLoop | VKDL/src/drawlist_2d.cpp:245-293 | the loop leaves the state `TextLoop` describes |
| DrawList.DrawList2D.AddClosingLines | VKDL/src/drawlist_2d.cpp:295-299 | the closing underline and strike-through lines, drawn when the pen ended right of the origin |
| DrawList.DrawList2D.AddCharQuads | VKDL/src/drawlist_2d.cpp:246-292 | one pass of the loop emits the byte's quads, and the new previous character is the byte unless it is a carriage return |
| DrawList.DrawList2D.Draw | VKDL/src/drawlist_2d.cpp:448-518 | `draw` appends exactly the events, and leaves the states and the upload flag, that `DrawEvents` gives for the list |
| DrawList.DrawList2D.PushTexture | VKDL/src/drawlist_2d.cpp:349-356 | the state `PushTextureState` describes; the invariant is kept |
| DrawList.DrawList2D.PopTexture | VKDL/src/drawlist_2d.cpp:358-366 | the state `PopTextureState` describes; the invariant is kept |
| DrawList.DrawList2D.PushClipRectFullScreen | VKDL/src/drawlist_2d.cpp:368-372 | the state `PushClipRectFullScreenState` describes; the invariant is kept |
| DrawList.DrawList2D.PushClipRect | VKDL/src/drawlist_2d.cpp:374-408 | the state `PushClipRectState` describes; the invariant is kept |
| DrawList.DrawList2D.PushClipRectAt | VKDL/src/drawlist_2d.cpp:410-413 | the rectangle built from the four numbers, pushed as `pushClipRect` does |
| DrawList.DrawList2D.PopClipRect | VKDL/src/drawlist_2d.cpp:415-419 | the state `PopClipRectState` describes; the invariant is kept |
| DrawList.DrawList2D.PushTransform | VKDL/src/drawlist_2d.cpp:421-425 | the state `PushTransformState` describes; the invariant is kept |
| DrawList.DrawList2D.PopTransform | VKDL/src/drawlist_2d.cpp:427-431 | the state `PopTransformState` describes; the invariant is kept |
| DrawList.DrawList2D.Clear | VKDL/src/drawlist_2d.cpp:433-446 | the cleared state; the invariant holds |
| DrawList.DrawList2D.NewCommand | VKDL/src/drawlist_2d.cpp:520-531 | the state `NewCommandState` describes |
| TextureView.Corners | VKDL/src/texture_view.cpp:65-68 | the four vertices pushed are the corners of the view's rectangle |
| TextureView.BindDrawsNoVertices | VKDL/src/render_states.cpp:56-88 | binding the render states records no draw |
| TextureView.ViewDrawShape | VKDL/src/texture_view.cpp:45-84 | a textured `draw` binds the texture's descriptor set, pushes the framebuffer-normalising transform times the view's transform with the colour and the four corners, and ends with one draw of six vertices; nothing else draws |
| TextureView.ViewDrawStates | VKDL/src/texture_view.cpp:42-82 | afterwards the built-in render pass and the third built-in pipeline are applied and the scissor is the option or the whole framebuffer; the render pass begins, and the pipeline is bound, exactly when it was not already the applied one |
| TextureView.ViewSplit | VKDL/src/texture_view.cpp:45-84 | the texture binding and push constants, then the binds, then the draw make `draw`'s commands |
| TextureView.TextureView.constructor | VKDL/src/texture_view.cpp:9-15 | no texture, zero offset and size, white, at rest, and the third built-in pipeline registered |
| TextureView.TextureView.Of | VKDL/src/texture_view.cpp:17-24 | that texture, offset and size, white, at rest, and the third built-in pipeline registered |
| TextureView.TextureView.Empty | VKDL/src/texture_view.cpp:26-29 | the view is empty exactly when it has no texture |
| TextureView.TextureView.Draw | VKDL/src/texture_view.cpp:31-85 | without a texture nothing is recorded and nothing changes; otherwise the commands appended and the new states are those `ViewDraw` gives for the current transform, and the transform parameters are kept |
| TextureView.TextureView.DrawTextured | VKDL/src/texture_view.cpp:35-84 | the textured part of `draw`, as `ViewDraw` describes |
| TextureView.TextureView.RecordView | VKDL/src/texture_view.cpp:42-84 | the commands of a textured `draw` for a given transform, as `ViewDraw` describes |
| WindowBase.ImageCount | VKDL/src/platforms/platform_window_base.h:239-247 | the image count never exceeds a nonzero maximum |
| WindowBase.ImageCountInRange | VKDL/src/platforms/platform_window_base.h:239-247 | for consistent capabilities the count lies between the minimum and the maximum (when there is one), and it is one more than the minimum exactly when the maximum leaves room |
| WindowBase.Clamp | VKDL/src/platforms/platform_window_base.h:232-233 | `std::clamp` gives the point of the interval nearest to the value, and the value itself when it is inside |
| WindowBase.SwapchainExtentRule | VKDL/src/platforms/platform_window_base.h:224-237 | a defined current extent is used as it is; otherwise each side of the window size is clamped into the allowed range, and a size already inside is kept |
| WindowBase.Find | VKDL/src/platforms/platform_window_base.h:142 | `std::find` gives the first position holding the mode, or the length when none does |
| WindowBase.FrameHandles | VKDL/src/platforms/platform_window_base.h:13-24 | a frame owns five objects, listed in creation order |
| WindowBase.FramesTeardown | VKDL/src/platforms/platform_window_base.h:328-341 | the teardown of the frames makes five calls per frame |
| WindowBase.SemaphoresTeardown | VKDL/src/platforms/platform_window_base.h:343-353 | the teardown of the semaphores makes two calls per pair |
| WindowBase.TeardownReleasesFrame | VKDL/src/platforms/platform_window_base.h:332-338 | every object a frame owns is destroyed, and its command buffer freed, by the teardown of a list holding it |
| WindowBase.TeardownReleasesSemaphores | VKDL/src/platforms/platform_window_base.h:347-350 | both semaphores of every pair are destroyed by the teardown |
| WindowBase.CreationCounts | VKDL/src/platforms/platform_window_base.h:159-200 | building the swapchain, its frames and its semaphores neither waits for the device nor acquires an image |
| WindowBase.TeardownCounts | VKDL/src/platforms/platform_window_base.h:150-152 | the first half of a recreation waits for the device once and acquires nothing |
| WindowBase.RecreateCounts | VKDL/src/platforms/platform_window_base.h:145-201 | a recreation waits for the device once and acquires nothing |
| WindowBase.FirstDone | VKDL/src/platforms/platform_window_base.h:210-221 | the acquire loop ends at the first result that is neither suboptimal nor out of date, all results before it being one of those two |
| WindowBase.PlatformWindowBase.constructor | VKDL/src/platforms/platform_window_base.h:33-60 | no surface, swapchain, frames, semaphores or events, the present family all ones, FIFO presentation, and a swapchain to be made before the first frame |
| WindowBase.PlatformWindowBase.SendEventMsg | VKDL/src/platforms/platform_window_base.h:134-138 | the `OnEventRecieved` delegate is handed the event, and the event joins the back of the queue |
| WindowBase.PlatformWindowBase.CheckPresentModeCompatibility | VKDL/src/platforms/platform_window_base.h:140-143 | true exactly when the mode is among the surface's present modes |
| WindowBase.PlatformWindowBase.DestroyWindowFrame | VKDL/src/platforms/platform_window_base.h:328-341 | every frame's objects are released in order and the list is emptied; nothing else changes |
| WindowBase.PlatformWindowBase.DestroyFrameSemaphores | VKDL/src/platforms/platform_window_base.h:343-353 | both semaphores of every pair are released in order and the list is emptied; nothing else changes |
| WindowBase.PlatformWindowBase.CreateWindowFrame | VKDL/src/platforms/platform_window_base.h:249-310 | one frame per swapchain image, each with five fresh objects and fresh render states, appended to the list |
| WindowBase.PlatformWindowBase.CreateFrameSemaphores | VKDL/src/platforms/platform_window_base.h:312-326 | exactly one fresh pair of semaphores per frame, and the ring restarts at its first pair |
| WindowBase.PlatformWindowBase.RecreateSwapchain | VKDL/src/platforms/platform_window_base.h:145-201 | the driver sees the recreation's calls; on a zero-sided extent both lists are left empty and the swapchain and the update flag unchanged; otherwise the swapchain, one frame per image and one semaphore pair per frame are made fresh and the update flag is cleared |
| WindowBase.PlatformWindowBase.Teardown | VKDL/src/platforms/platform_window_base.h:150-152 | wait for the device, then release the frames and the semaphores |
| WindowBase.PlatformWindowBase.Build | VKDL/src/platforms/platform_window_base.h:161-200 | the swapchain, its frames and semaphores, with the calls `Creation` gives |
| WindowBase.PlatformWindowBase.MakeSwapchain | VKDL/src/platforms/platform_window_base.h:161-198 | the new swapchain, created from the image-count and extent rules, replaces the old one, which is then destroyed |
| WindowBase.PlatformWindowBase.AcquireOnce | VKDL/src/platforms/platform_window_base.h:211-216 | one acquisition on the current semaphore pair, the driver writing the frame index |
| WindowBase.PlatformWindowBase.Reacquire | VKDL/src/platforms/platform_window_base.h:219-220 | a recreation followed by an acquisition waits for the device and acquires once each and leaves a complete ring of fresh frames |
| WindowBase.PlatformWindowBase.AcquireSwapchainImage | VKDL/src/platforms/platform_window_base.h:203-222 | the frame index is the image of the first result that ends the loop; there is one acquisition per result up to it, and one wait for the device per retry plus one when an update was pending; with no pending update and no retry the frames, semaphores and swapchain are untouched |
| WindowBase.PlatformWindowBase.RetryAcquire | VKDL/src/platforms/platform_window_base.h:210-221 | each retried result costs one recreation and one more acquisition |
| WindowBase.NewFrames | VKDL/src/platforms/platform_window_base.h:256-309 | the loop of `create_window_frame` makes five new objects and fresh render states per image |
| WindowBase.NewFrame | VKDL/src/platforms/platform_window_base.h:257-306 | one pass makes the image view, command pool, framebuffer, command buffer and fence, in that order |
| WindowBase.NewPairs | VKDL/src/platforms/platform_window_base.h:316-323 | the loop of `create_frame_semaphores` makes n pairs of new semaphores |
| PlatformWindow.DisplayEvents | VKDL/src/platforms/platform_window.cpp:43-63 | `display` makes four calls: end the render pass, end the command buffer, submit it, present the image |
| PlatformWindow.FrameProtocol | VKDL/src/platforms/platform_window.cpp:16-63 | the buffer submitted is the one `render` began, it is ended before the submission, the submission signals the fence `render` waited on and reset, and the presentation waits for the very semaphore the submission signals |
| PlatformWindow.Step | VKDL/src/platforms/platform_window.cpp:65 | the ring step stays inside the ring |
| PlatformWindow.AdvanceInRound | VKDL/src/platforms/platform_window.cpp:65 | within one round the semaphore index counts up and wraps at most once |
| PlatformWindow.AdvanceIsSum | VKDL/src/platforms/platform_window.cpp:65 | k displays within a round move the index from i to (i + k) mod n |
| PlatformWindow.RingRound | VKDL/src/platforms/platform_window.cpp:65 | the index is back where it started after exactly one round's worth of displays, and not before: every pair is used once per round |
| PlatformWindow.StartFrame | VKDL/src/platforms/platform_window.cpp:16-24 | begin the frame's command buffer, wait for and reset its fence, and reset its render states to the framebuffer size |
| PlatformWindow.PlatformWindow.Render | VKDL/src/platforms/platform_window.cpp:9-30 | outside a frame: acquire an image, then exactly the frame-begin calls, the frame's states reset, and the frame marked begun; inside a frame nothing changes; in both cases the current frame's render states are the ones handed on |
| PlatformWindow.PlatformWindow.BeginFrame | VKDL/src/platforms/platform_window.cpp:11-27 | the frame-begin sequence: the calls after the acquisition are those of `StartFrame` for the acquired frame, the acquisition counts are those of `acquireSwapchainImage`, and only the begun flag changes among the settings |
| PlatformWindow.PlatformWindow.Display | VKDL/src/platforms/platform_window.cpp:32-67 | the four calls of `DisplayEvents` on the current frame and semaphore pair, then the ring index steps on and the frame is no longer begun |
| PlatformWindow.PlatformWindow.Clear | VKDL/src/platforms/platform_window.cpp:69-94 | `clear` records nothing and changes nothing |
| Win32Window.Decode | VKDL/src/platforms/windows_platform_window_impl.h:133-154 | one code point per step, which consumes one unit or two and never runs past the end |
| Win32Window.ToUtf32 | VKDL/src/platforms/windows_platform_window_impl.h:156-166 | the loop writes exactly the code points of `Utf32Of`, one per decoding step |
| Win32Window.DecodePassThrough | VKDL/src/platforms/windows_platform_window_impl.h:149-151 | a unit that is not a high surrogate, a lone low surrogate included, is passed through and consumes one unit |
| Win32Window.DecodePair | VKDL/src/platforms/windows_platform_window_impl.h:137-141 | a high surrogate followed by a low one consumes both and yields a supplementary code point from which the pair is recovered |
| Win32Window.DecodeReplacement | VKDL/src/platforms/windows_platform_window_impl.h:142-148 | a high surrogate followed by something else, or at the end, yields the replacement and consumes both units or the last one |
| Win32Window.Encode | VKDL/src/platforms/windows_platform_window_impl.h:137-141 | the UTF-16 encoding of a scalar value takes one unit below 0x10000 and two above (section 2.1 of RFC 2781) |
| Win32Window.DecodeEncode | VKDL/src/platforms/windows_platform_window_impl.h:133-154 | decoding the front of an encoded scalar gives that scalar and moves past exactly its units |
| Win32Window.Utf32OfEncodeAll | VKDL/src/platforms/windows_platform_window_impl.h:156-166 | `to_utf32` inverts UTF-16 encoding: an encoded sequence of scalars decodes to those scalars |
| Win32Window.Utf32Length | VKDL/src/platforms/windows_platform_window_impl.h:156-166 | n units give between n/2 and n code points |
| Win32Window.LoneLowSurrogateOverflows | VKDL/src/platforms/windows_platform_window_impl.h:778-786 | as written, a low surrogate with no high surrogate stored makes `to_utf32` write two code points into the single `character` |
| Win32Window.CombineChar | VKDL/src/platforms/windows_platform_window_impl.h:775-786 | the evidently intended combination: after a high surrogate the pair's supplementary code point, otherwise the low surrogate itself |
| Win32Window.CombineCharAgrees | VKDL/src/platforms/windows_platform_window_impl.h:778-782 | the code as written writes one code point exactly when a high surrogate is stored, and it is the combined one; otherwise it writes the stored unit and then the combined one |
| Win32Window.CombineEncoded | VKDL/src/platforms/windows_platform_window_impl.h:775-782 | the two WM_CHAR units of a supplementary character combine back into it |
| Win32Window.CreateStyleBits | VKDL/src/platforms/windows_platform_window_impl.h:66-83 | the clip-siblings, clip-children and popup bits are always set, each optional bit is set exactly when its flag is, the caption exactly for the title-bar flags, and no other bit |
| Win32Window.CreateExStyleBits | VKDL/src/platforms/windows_platform_window_impl.h:85-93 | always an application window, topmost exactly for `TopMost`, and no other bit |
| Win32Window.SignedShort | VKDL/src/platforms/windows_platform_window_impl.h:691 | a 16-bit pattern read as two's complement |
| Win32Window.PointRoundTrip | VKDL/src/platforms/windows_platform_window_impl.h:875-876 | coordinates packed into an lParam come back unchanged |
| Win32Window.ParamRange | VKDL/src/platforms/windows_platform_window_impl.h:875-876 | the coordinates read from an lParam are 16-bit signed values |
| Win32Window.LowDword | VKDL/src/platforms/windows_platform_window_impl.h:773 | `static_cast<uint32_t>(wParam)`: the low 32 bits |
| Win32Window.MouseMoveShape | VKDL/src/platforms/windows_platform_window_impl.h:889-916 | a move makes one `MouseMoved` at the position, preceded by `MouseEntered` or `MouseLeft` exactly when the pointer crosses the client rectangle; entering resets the delta to zero, and otherwise the delta is the step from the previous position |
| Win32Window.PlatformWindowImpl.constructor | VKDL/src/platforms/windows_platform_window_impl.h:194-203 | no surrogate stored, not in a size/move loop, the pointer outside, key repeat enabled, and the shared state freshly constructed |
| Win32Window.PlatformWindowImpl.OnDestroy | VKDL/src/platforms/windows_platform_window_impl.h:635-643 | `WM_DESTROY` falls through into `WM_CLOSE`: `Destroy` and then `Close` |
| Win32Window.PlatformWindowImpl.OnClose | VKDL/src/platforms/windows_platform_window_impl.h:639-643 | one `Close` |
| Win32Window.PlatformWindowImpl.OnSize | VKDL/src/platforms/windows_platform_window_impl.h:644-677 | the minimized and maximized flags follow wParam; when a size changes both are stored, a new swapchain is asked for, and `Resize` is sent unless minimized; `EnterResize` is sent once per size/move loop |
| Win32Window.PlatformWindowImpl.OnMove | VKDL/src/platforms/windows_platform_window_impl.h:684-696 | the new position and a `Move` with it, preceded by `EnterMove` once per size/move loop |
| Win32Window.PlatformWindowImpl.OnEnterSizeMove | VKDL/src/platforms/windows_platform_window_impl.h:697-699 | the size/move loop is entered |
| Win32Window.PlatformWindowImpl.OnExitSizeMove | VKDL/src/platforms/windows_platform_window_impl.h:700-716 | the loop is left, an open resize is closed with `ExitResize` and a new swapchain, and an open move with `ExitMove` |
| Win32Window.PlatformWindowImpl.OnChar | VKDL/src/platforms/windows_platform_window_impl.h:771-789 | a repeat is dropped unless repeats are enabled; a high surrogate is stored without an event; a low surrogate is combined with the store, which is cleared, into one `TextEntered`; any other character is sent as it is |
| Win32Window.PlatformWindowImpl.OnMouseLeave | VKDL/src/platforms/windows_platform_window_impl.h:866-873 | `MouseLeft` only when the pointer was inside, and it is outside afterwards |
| Win32Window.PlatformWindowImpl.OnMouseMove | VKDL/src/platforms/windows_platform_window_impl.h:874-917 | the inside flag follows the position, the events are those of `MouseMoveEvents`, and the position becomes the previous one |
| Win32Window.PlatformWindowImpl.OnSetFocus | VKDL/src/platforms/windows_platform_window_impl.h:918-922 | `Focussed`, and the window is focussed |
| Win32Window.PlatformWindowImpl.OnKillFocus | VKDL/src/platforms/windows_platform_window_impl.h:923-927 | `LostFocus`, and the window is not focussed |
| Cursor.SystemShapeMapping | VKDL/src/platforms/windows_cursor_impl.h:94-117 | every listed type has a shape and only an unlisted value lacks one; the one-sided size cursors share the shape of their two-sided cursor |
| Cursor.SystemShapeSingle | VKDL/src/platforms/windows_cursor_impl.h:95-115 | every other shape belongs to exactly one type |
| Cursor.PixelRoundTrip | VKDL/src/platforms/windows_cursor_impl.h:65 | the packed word (a, r, g, b from the top byte down) gives back each byte of the quadruple |
| Cursor.PackPixels | VKDL/src/platforms/windows_cursor_impl.h:64-66 | one word per pixel |
| Cursor.PackPixelsRoundTrip | VKDL/src/platforms/windows_cursor_impl.h:64-66 | word i of the bitmap holds exactly quadruple i of the pixels |
| Cursor.WritePixels | VKDL/src/platforms/windows_cursor_impl.h:63-66 | on bitmap memory that exists, the loop writes the packed words to its front and nothing past them |
| Cursor.PixelCount | VKDL/src/platforms/windows_cursor_impl.h:64 | the pixel count is size.x * size.y modulo 2^32: the product itself below 2^32, and 0 for a 65536 x 65536 cursor |
| Cursor.CursorImpl.constructor | VKDL/src/platforms/windows_cursor_impl.h:30-32 | not a system cursor, no handle, not valid |
| Cursor.CursorImpl.LoadFromPixels | VKDL/src/platforms/windows_cursor_impl.h:34-89 | with the bitmap memory NULL exactly when the bitmap was not created: the check fails exactly when the bitmap was created; otherwise a nonzero 32-bit pixel count makes the copy write through NULL, a fault; both change nothing; only a cursor of no pixels becomes the new icon, not a system cursor |
| Cursor.CursorImpl.LoadFromSystem | VKDL/src/platforms/windows_cursor_impl.h:91-123 | an unlisted type is an error that changes nothing; otherwise the cursor is the shape's system cursor, marked as such |
| Cursor.CursorImpl.Destroy | VKDL/src/platforms/windows_cursor_impl.h:125-130 | a cursor this object made is destroyed and forgotten; a system cursor or no cursor is left alone |
| Cursor.CursorGlobals.constructor | VKDL/src/platforms/windows_cursor_impl.h:140-141 | the system arrow, visible, nothing shown yet |
| Cursor.CursorGlobals.Displayed | VKDL/src/platforms/windows_cursor_impl.h:18 | the OS is shown the last cursor while visible and NULL while hidden |
| Cursor.CursorGlobals.SetVisible | VKDL/src/platforms/windows_cursor_impl.h:16-19 | the visibility is stored and the displayed cursor shown |
| Cursor.CursorGlobals.SetCursor | VKDL/src/platforms/windows_cursor_impl.h:21-24 | the cursor is remembered first and then the displayed cursor shown |
| Cursor.CursorGlobals.UpdateCursor | VKDL/src/platforms/windows_cursor_impl.h:26-28 | the displayed cursor is shown again, nothing changes |
| Buffer.Allocation | VKDL/include/vkdl/core/buffer.h:209-220 | the allocation after binding grows to the requirement when that is larger and otherwise stays: it never shrinks |
| Buffer.AllocationMonotone | VKDL/include/vkdl/core/buffer.h:209-220 | only a larger requirement moves the allocation, and growing twice is growing once to the larger requirement |
| Buffer.Buffer.Capacity | VKDL/include/vkdl/core/buffer.h:154-158 | `capacity()` is the number of whole elements the allocation holds |
| Buffer.Buffer.CapacityCoversSize | VKDL/include/vkdl/core/buffer.h:154-158 | the capacity of a valid buffer is at least its size |
| Buffer.Buffer.constructor | VKDL/include/vkdl/core/buffer.h:49-71 | no buffer and no memory, size and allocation zero, with the given usage, memory properties and sharing mode |
| Buffer.Buffer.Moved | VKDL/include/vkdl/core/buffer.h:99-108 | the move constructor takes over the handles, usage, sharing mode and sizes and zeroes the source's; the memory properties are not carried over and start empty |
| Buffer.Buffer.Clear | VKDL/include/vkdl/core/buffer.h:225-235 | wait for the device, destroy the buffer, free the memory, forget both and zero the sizes, so the buffer is empty |
| Buffer.Buffer.Init | VKDL/include/vkdl/core/buffer.h:118-128 | the check fires, changing nothing, exactly when both the usage and the memory properties are set; otherwise the buffer is cleared and takes the three |
| Buffer.Buffer.Resize | VKDL/include/vkdl/core/buffer.h:187-223 | the check fires first when both masks are set; resizing to the current size changes nothing; otherwise a new buffer of the byte size replaces the old, the memory is reallocated only when the requirement exceeds the allocation, which then becomes the requirement, and the buffer is bound; the size is the new one |
| Buffer.Buffer.Release | VKDL/include/vkdl/core/buffer.h:110-116 | the destructor destroys the buffer and frees the memory |
| Buffer.NewSized | VKDL/include/vkdl/core/buffer.h:73-78 | a buffer of the three, resized to the size: it fails when the masks clash or no memory type fits |
| Buffer.CopyOf | VKDL/include/vkdl/core/buffer.h:80-97 | a buffer of the same kind resized to the source's size, then the source copied into it by one copy command of its whole byte size; when the resize raises, no copy is made |
| Font.CombineFields | VKDL/src/font.cpp:23-26 | for glyph indices below 2^31 the key keeps its parts apart: the thickness bits are the top 32, bold is bit 31 and the index the low 31 bits |
| Font.CombineInjective | VKDL/src/font.cpp:23-26 | for indices below 2^31 two keys are equal exactly when thickness, bold and index all are |
| Font.BoldCollision | VKDL/src/font.cpp:25 | bit 31 of the index is the bold bit: a bold glyph of index i shares its key with the regular glyph of index i + 2^31 |
| Font.FirstFit | VKDL/src/font.cpp:411-430 | the row chosen is the first whose height suits the glyph (ratio between 0.7 and 1) and whose free width holds it, and when none is chosen no row passes the tests |
| Font.FirstFitUnique | VKDL/src/font.cpp:411-430 | any row that is first to pass the tests is the one `FirstFit` finds |
| Font.Grow | VKDL/src/font.cpp:435-443 | the doubling loop never shrinks the texture, keeps it square, stops within the maximum size once the row and the glyph fit, and fails only when another doubling would pass the maximum |
| Font.GrowNotNeeded | VKDL/src/font.cpp:435 | when the row and the glyph already fit, the texture keeps its size |
| Font.NewRowFits | VKDL/src/font.cpp:434 | a new row 10% taller than the glyph passes the tests for it |
| Font.PlaceFound | VKDL/src/font.cpp:450-453 | with a fitting row the glyph gets the left end of its free part and only that row grows, by the glyph's width |
| Font.PlaceNotFound | VKDL/src/font.cpp:433-453 | with no fitting row the texture is doubled as needed; when the maximum is reached the error leaves the rows alone; otherwise a row 10% taller than the glyph opens at the next row top and the glyph gets its left end |
| Font.PlaceInRow | VKDL/src/font.cpp:450-451 | handing out the left end of a fitting row's free part keeps the packing |
| Font.OpenRow | VKDL/src/font.cpp:445-446 | opening a row at the next row top, inside the texture, keeps the packing |
| Font.Widen | VKDL/src/font.cpp:438 | a larger texture within the maximum keeps the packing |
| Font.PlaceNewRow | VKDL/src/font.cpp:445-451 | opening a row for a glyph and handing out its left end keeps the packing |
| Font.PlaceKeeps | VKDL/src/font.cpp:407-454 | `findGlyphRect` keeps the packing: the rectangle it returns has the glyph's size and becomes a new area inside the texture that overlaps no area handed out before |
| Font.AreasInside | VKDL/src/font.cpp:67-68 | every area lies inside the texture and below the white corner a page starts with (rows start at 3) |
| Font.TexelColors | VKDL/src/font.cpp:70-75 | the words written are the colours white and transparent |
| Font.CornerWrites | VKDL/src/font.cpp:70-75 | writing the four corner texels into a transparent image gives the white 2 x 2 corner |
| Font.WriteCorner | VKDL/src/font.cpp:72-75 | the four writes at (0, 0), (0, 1), (1, 0) and (1, 1) |
| Font.CornerImage | VKDL/src/font.cpp:70-75 | a page's image is transparent except for the white 2 x 2 corner |
| Font.Page.constructor | VKDL/src/font.cpp:67-90 | a new page has no glyphs, no rows, next row 3, a 128 x 128 texture and one upload, of the corner image (the upload assumed to succeed) |
| Font.Page.SearchRows | VKDL/src/font.cpp:409-430 | the row loop finds `FirstFit` and stops at it |
| Font.Page.GrowTexture | VKDL/src/font.cpp:435-443 | the doubling loop leaves the extent and the outcome `Grow` gives |
| Font.Page.UseRow | VKDL/src/font.cpp:450-453 | the left end of fitting row i's free part is handed out and the row widened by the glyph; the packing is kept |
| Font.Page.GrowForRow | VKDL/src/font.cpp:434-443 | the doubling loop for a new row, keeping the packing |
| Font.Page.UseNewRow | VKDL/src/font.cpp:445-453 | a row 10% taller than the glyph opens at the next row top and its left end is handed out |
| Font.Page.FindGlyphRect | VKDL/src/font.cpp:407-454 | the method does exactly what `Place` does, and records the area it hands out, which overlaps no earlier one |
| Font.Page.PackGlyph | VKDL/src/font.cpp:351-400 | a glyph padded by 2 on every side is packed and its texture rectangle shrunk back by the padding; the padded buffer is uploaded at the area; a full page raises before anything is rendered |
| Font.MonoMsbFirst | VKDL/src/font.cpp:383 | mono pixels are read most significant bit first within each byte |
| Font.Blanked | VKDL/src/font.cpp:371-376 | after the fill loop every texel is white with alpha 0 |
| Font.WriteAlpha | VKDL/src/font.cpp:383-391 | writing texel (x, y)'s alpha changes no other byte |
| Font.StepTexel | VKDL/src/font.cpp:380-394 | writing one interior alpha moves the fill on by one texel |
| Font.NextRow | VKDL/src/font.cpp:380-394 | the end of an interior row is the start of the next |
| Font.Finished | VKDL/src/font.cpp:378-395 | past the last interior row the buffer is the padded glyph image |
| Font.FillGlyphBuffer | VKDL/src/font.cpp:366-395 | the buffer is white with alpha 0 in the padding and the bitmap's alpha inside, mono or grey |
| Font.SetCurrentSize | VKDL/src/font.cpp:456-471 | the current size answers true; otherwise the check fires, with a message naming the size, unless the result is an invalid pixel size, and then the answer is false |
| Font.Decimal | VKDL/src/font.cpp:464-465 | `std::to_string` of the size: at least one character, all decimal digits, no leading zero for a nonzero number |
| Font.DecimalRoundTrip | VKDL/src/font.cpp:464-465 | the printed digits spell the size back |
| Font.EarlyExit | VKDL/src/font.cpp:286-340 | without a face the empty glyph; a size other than the current one (for which the size check raises or answers false), a failed load or a failed glyph fetch gives the empty glyph or the error; a bitmap glyph with an outline thickness raises; only an outline glyph, or a thickness of zero, goes on |
| Font.Metrics | VKDL/src/font.cpp:342-347 | the advance is the 16.16 advance made whole, plus 1 for bold; the side-bearing deltas are the face's |
| Font.PlacedInPage | VKDL/src/font.cpp:358-364 | the texture rectangle has the bitmap's size, lies inside the page by at least the padding and below the white corner, and its area is apart from every other glyph's |
| Font.InsertGrows | VKDL/src/font.cpp:174 | inserting under a new key caches the glyph and keeps every entry |
| Font.KerningValue | VKDL/src/font.cpp:195-202 | for a fixed-size face the raw kerning; for a scalable one the delta-corrected kerning divided by 64 and rounded half up |
| Font.KerningSteps | VKDL/src/font.cpp:202 | for a scalable face, 64 more units of kerning raise the value by exactly one, and more kerning never lowers it |
| Font.Font.constructor | VKDL/src/font.cpp:92-95 | no handles, not smooth, no pages |
| Font.Font.Cleanup | VKDL/src/font.cpp:272-277 | the handles, the pages and the pixel buffer are dropped |
| Font.Font.LoadPage | VKDL/src/font.cpp:279-282 | the page of that size, created on first use, so there is never more than one per size; an existing page is returned unchanged |
| Font.Font.PackAt | VKDL/src/font.cpp:349-400 | the nonempty-bitmap branch on the size's page |
| Font.Font.LoadGlyph | VKDL/src/font.cpp:284-405 | an early exit returns its glyph and changes nothing; otherwise the size's page is loaded and an empty bitmap gives the metrics only, a nonempty one is packed into it |
| Font.Font.CacheMiss | VKDL/src/font.cpp:172-174 | on a miss the glyph is loaded and, unless loading raised, inserted under the key |
| Font.Font.GetGlyph | VKDL/src/font.cpp:161-175 | a cached glyph is returned without loading and nothing else changes; otherwise it is loaded once and inserted under its key; the table only grows |
| Font.Font.KerningWith | VKDL/src/font.cpp:193-202 | the second glyph is looked up and the deltas combined with the kerning |
| Font.Font.PairKerning | VKDL/src/font.cpp:189-202 | the kerning of two glyphs of the size's page, 0 when the face has none |
| Font.Font.GetKerning | VKDL/src/font.cpp:182-206 | 0 for a null code point or no face; the size check may raise; a failed size gives 0; otherwise the kerning of the two cached glyphs |
| Context.AlignMemorySize | VKDL/src/context.cpp:252-256 | without 64-bit wrap-around the result is a multiple of the alignment at or above the size and less than one alignment above it |
| Context.AlignExact | VKDL/src/context.cpp:255 | without wrap-around the 64-bit arithmetic is plain rounding up |
| Context.AlignIsLeast | VKDL/src/context.cpp:252-256 | no smaller multiple of the alignment lies at or above the size: the size is rounded up to the least one |
| Context.AlignZeroWraps | VKDL/src/context.cpp:255 | a size of 0 wraps in the subtraction and, for an alignment dividing 2^64, is rounded to 0 |
| Context.FindMemoryType | VKDL/src/context.cpp:258-269 | the first type allowed by the filter that has every requested property, or the error when no type does |
| Context.FirstSuitableUnique | VKDL/src/context.cpp:261-264 | there is at most one first suitable type |
| Context.TransitionImageLayout | VKDL/src/context.cpp:189-250 | exactly the five supported layout pairs give a barrier between the two layouts; every other pair is an error |
| Context.TransitionBarrierRule | VKDL/src/context.cpp:209-238 | every supported barrier waits for the access of the old layout and makes the access of the new one wait, each at its own pipeline stage |
| Context.TransitionsChain | VKDL/src/context.cpp:209-238 | two supported transitions in a row chain: the second waits for exactly the access and stage the first made available, and they lead from undefined to shader-read-only |
| Context.TransitionsEnd | VKDL/src/context.cpp:209-238 | nothing leaves the shader-read-only layout and nothing goes to the undefined one |
| Context.DebugFlagsCumulative | VKDL/src/context.cpp:303-310 | a higher debug level reports everything a lower one does, level 5 and above report every kind, and level 0 asks for nothing |
| Context.DebugFlagsDistinct | VKDL/src/context.cpp:305-310 | levels 0 to 5 ask for different sets of reports |
| Context.MessageTypeKnown | VKDL/src/context.cpp:18-28 | only a single known flag has its own tag; no flag or several at once give "[Unknown]" |
| Context.PreferredDevice | VKDL/src/context.cpp:319-337 | the device chosen is one of those reported |
| Context.FirstOfTypeSpec | VKDL/src/context.cpp:323-330 | the search from an index stops at the first device of the preferred type, or gives 0 when there is none |
| Context.PreferredDeviceSpec | VKDL/src/context.cpp:319-337 | the chosen device is the first of the preferred type when there is one, and otherwise the first device |
| Context.SelectPhysicalDevice | VKDL/src/context.cpp:319-337 | the loop chooses the device `PreferredDevice` gives |
| Context.LastGraphics | VKDL/src/context.cpp:346-348 | the graphics family is the last family with the graphics bit, and there is none exactly when no family has it |
| Context.LastGraphicsSnoc | VKDL/src/context.cpp:346-348 | one more family replaces the graphics family exactly when it has the graphics bit |
| Context.CheckLayerSupport | VKDL/src/context.cpp:9-16 | true exactly when the instance reports a layer of that name |
| Context.ScanQueueFamilies | VKDL/src/context.cpp:341-358 | the graphics family is the last one with the graphics bit (all ones when there is none), and there is one request of one queue of priority 1.0 per family, in family order |
| Context.FetchQueues | VKDL/src/context.cpp:362-363 | one queue per family, each queue 0 of the graphics family |
| Context.ContextCreator.constructor | VKDL/src/context.cpp:56-60 | a discrete GPU, debug level 0, no layers and no extensions |
| Context.ContextCreator.SetApplicationInfo | VKDL/src/context.cpp:62-66 | the application info is replaced |
| Context.ContextCreator.AddLayer | VKDL/src/context.cpp:68-72 | the layer is appended |
| Context.ContextCreator.AddExtension | VKDL/src/context.cpp:74-78 | the extension is appended |
| Context.ContextCreator.AddDeviceExtension | VKDL/src/context.cpp:80-84 | the device extension is appended |
| Context.ContextCreator.SetPhysicalDeviceType | VKDL/src/context.cpp:86-90 | the preferred type is replaced |
| Context.ContextCreator.EnableDebug | VKDL/src/context.cpp:92-104 | the check fires, changing nothing, for every level below 6; for the others the level is stored, and the validation layer and the debug-report extension are added when the layer is reported and an error is raised when it is not |
| Context.ContextCreator.Create | VKDL/src/context.cpp:106-113 | the platform-surface and surface extensions and the swapchain device extension are appended, then the context is constructed; a second context is an error, and no debug callback is requested other than for every kind |
| Context.NewContext | VKDL/src/context.cpp:117-134 | an existing context is an error; otherwise the new context is the one `Created` describes |
| Context.Insert | VKDL/src/context.cpp:278 | `map::insert`: a key already present keeps its value, and other keys are untouched |
| Context.InsertKeeps | VKDL/src/context.cpp:276-294 | a second registration under the same id is ignored |
| Context.Context.constructor | VKDL/src/context.cpp:117-134 | the instance takes the creator's layers and extensions; the debug callback follows the debug level; the physical device is the preferred one; the graphics family is the last with the graphics bit, with one queue request per family and one queue per family fetched from the graphics family; the descriptor pool and the command pool on the graphics family are created; both registries are empty |
| Context.Context.Destroy | VKDL/src/context.cpp:156 | the destructor frees the context slot |
| Context.Context.RegisterPipeline | VKDL/src/context.cpp:276-279 | the pipeline is inserted, an id already registered keeping its pipeline, and the id is registered afterwards |
| Context.Context.RegisterRenderPass | VKDL/src/context.cpp:291-294 | the render pass is inserted, an id already registered keeping its render pass, and the id is registered afterwards |
| Context.Context.GetPipeline | VKDL/src/context.cpp:281-284 | `pipelines[uuid]` leaves the id registered (with an empty pointer if it was not), and the result is the registered pipeline, or the null-dereference fault for an id that was not registered |
| Context.Context.GetRenderPass | VKDL/src/context.cpp:296-299 | as `GetPipeline`, on the render passes |
| Context.Subscript | VKDL/src/context.cpp:283 | `operator[]` adds the id, holding an empty pointer when it was absent, and changes no other entry |
| Context.Deref | VKDL/src/context.cpp:283 | dereferencing yields the object exactly when the pointer is non-empty, and the null-dereference fault otherwise |
| Context.LookupAfterRegister | VKDL/src/context.cpp:276-284 | after registrations under a fresh id, the lookup returns the first object registered and leaves the map unchanged |
| Context.LookupBeforeRegister | VKDL/src/context.cpp:276-284 | a lookup of an unregistered id faults and registers it with an empty pointer, so a later registration is ignored and the next lookup faults again |
| Texture.FormatSizeInByte | VKDL/src/texture.cpp:14-153 | a format outside the table is the error "Unknown format" |
| Texture.FormatSizeIsTexelBlockSize | VKDL/src/texture.cpp:14-153 | the table covers exactly the uncompressed formats 1 to 123 and gives each one its Vulkan texel block size |
| Texture.FormatSizes | VKDL/src/texture.cpp:14-153 | every size in the table is one of 1, 2, 3, 4, 6, 8, 12, 16, 24 and 32 bytes |
| Texture.ToImageViewType | VKDL/src/texture.cpp:5-12 | the 1D, 2D and 3D image types have view types and every other value is the error "Unknown image type" |
| Texture.ViewTypeKeepsDimension | VKDL/src/texture.cpp:5-12 | each image type gets the view type of its own dimension, and different types different views |
| Texture.StagingSizeWraps | VKDL/src/texture.cpp:453 | as written the texel count is a 32-bit product, so a 2048 x 2048 x 1024 texture of 4-byte texels stages 0 bytes instead of 2^34 |
| Texture.StagingSize | VKDL/src/texture.cpp:453 | the evidently intended staging size: one texel size per texel of the whole extent |
| Texture.StagingSizeAgrees | VKDL/src/texture.cpp:453 | the size as written and the intended size agree whenever the texel count fits in 32 bits |
| Texture.TextureCreator.constructor | VKDL/src/texture.cpp:157-192 | the default image and sampler information, no memory properties and the null descriptor-set layout |
| Texture.TextureCreator.SetImageFormat | VKDL/src/texture.cpp:194-198 | only the format changes |
| Texture.TextureCreator.SetImageExtent2D | VKDL/src/texture.cpp:200-212 | a 2D image of depth 1 |
| Texture.TextureCreator.SetImageExtent3D | VKDL/src/texture.cpp:214-226 | a 3D image of that extent, whatever its depth |
| Texture.TextureCreator.SetImageMipLevels | VKDL/src/texture.cpp:228-232 | only the mip levels change |
| Texture.TextureCreator.SetImageSamples | VKDL/src/texture.cpp:234-238 | only the sample count changes |
| Texture.TextureCreator.SetImageTiling | VKDL/src/texture.cpp:240-244 | only the tiling changes |
| Texture.TextureCreator.SetImageUsage | VKDL/src/texture.cpp:246-250 | only the usage changes |
| Texture.TextureCreator.SetImageSharingMode | VKDL/src/texture.cpp:252-256 | only the sharing mode changes |
| Texture.TextureCreator.SetImageMemoryProperties | VKDL/src/texture.cpp:258-262 | the memory properties are replaced |
| Texture.TextureCreator.SetSamplerMagFilter | VKDL/src/texture.cpp:264-268 | only the magnification filter changes |
| Texture.TextureCreator.SetSamplerMinFilter | VKDL/src/texture.cpp:270-274 | only the minification filter changes |
| Texture.TextureCreator.SetSamplerMipMapMode | VKDL/src/texture.cpp:276-280 | only the mipmap mode changes |
| Texture.TextureCreator.SetSamplerAddressMode | VKDL/src/texture.cpp:282-288 | only the three address modes change |
| Texture.TextureCreator.SetSamplerMipLodBias | VKDL/src/texture.cpp:290-294 | the flag is stored in the float bias, which becomes 1 or 0 |
| Texture.TextureCreator.SetSamplerAnisotropy | VKDL/src/texture.cpp:296-301 | the maximum is stored and anisotropy turned on |
| Texture.TextureCreator.SetSamplerCompare | VKDL/src/texture.cpp:303-308 | the operation is stored and comparison turned on |
| Texture.TextureCreator.SetSamplerLod | VKDL/src/texture.cpp:310-315 | only the two level-of-detail bounds change |
| Texture.TextureCreator.SetSamplerBorderColor | VKDL/src/texture.cpp:317-321 | only the border colour changes |
| Texture.TextureCreator.SetSamplerUnnormalizedCoordinates | VKDL/src/texture.cpp:323-327 | only the coordinate flag changes |
| Texture.TextureCreator.SetDescriptorSetLayout | VKDL/src/texture.cpp:329-333 | the descriptor-set layout is replaced |
| Texture.TextureCreator.Create | VKDL/src/texture.cpp:335-373 | the texture takes the image information, the memory size reported, the first suitable memory type, a view of the image's dimension, format and mip levels, the sampler information, the layout and one combined-image-sampler write; it fails exactly when no memory type suits or the image type has no view |
| Texture.Texture.constructor | VKDL/src/texture.cpp:423-434 | every handle null, zero extent and allocation, undefined format, and an empty staging buffer for transfer from host-visible memory |
| Texture.Texture.Build | VKDL/src/texture.cpp:340-370 | the assignments of `create` once the memory type and the view type are known |
| Texture.Texture.Update | VKDL/src/texture.cpp:448-491 | an unknown format is an error that changes nothing; the staging resize may raise; otherwise the staging buffer holds the pixels of the staging size and two barriers take the image from undefined through transfer-destination to shader-read-only |
| Texture.TextureUpdateRefused | VKDL/src/texture.cpp:429 | the staging buffer has both a usage and memory properties, so its resize check always fires and `update` always raises |
| RenderPassBuilder.Built | VKDL/src/renderpass_builder.cpp:169-190 | `build` keeps the number of subpasses |
| RenderPassBuilder.PlaceSpan | VKDL/src/renderpass_builder.cpp:169-190 | placing a subpass keeps how many entries it takes from each list, and points each list that it takes entries from at that list's running offset |
| RenderPassBuilder.BuiltAt | VKDL/src/renderpass_builder.cpp:169-190 | subpass k after `build` depends only on itself and the subpasses ahead of it, and the order is kept |
| RenderPassBuilder.BuiltPrefix | VKDL/src/renderpass_builder.cpp:169-190 | building a prefix gives the prefix of the built subpasses |
| RenderPassBuilder.BuiltTotal | VKDL/src/renderpass_builder.cpp:169-190 | `build` does not change how many entries of any list the subpasses take together |
| RenderPassBuilder.TotalPrefix | VKDL/src/renderpass_builder.cpp:163-190 | every running offset never goes down along the subpasses, and each subpass's array ends before the next offset |
| RenderPassBuilder.BuiltArray | VKDL/src/renderpass_builder.cpp:169-190 | an array a subpass takes entries for (input, color, resolve when marked, depth-stencil when marked, preserve) points at the entries of all subpasses ahead of it and lies inside its list; any other array pointer is left as it was |
| RenderPassBuilder.BuiltArraysOrdered | VKDL/src/renderpass_builder.cpp:169-190 | the arrays of two subpasses in one list follow subpass order and do not overlap |
| RenderPassBuilder.BuildIdempotent | VKDL/src/renderpass_builder.cpp:158-200 | building the built subpasses again changes nothing |
| RenderPassBuilder.PlaceTwice | VKDL/src/renderpass_builder.cpp:169-190 | placing a placed subpass again at the same offsets changes nothing |
| RenderPassBuilder.BuiltWellFormed | VKDL/src/renderpass_builder.cpp:169-190 | after `build` only an array that takes entries points into its list |
| RenderPassBuilder.PlaceSubpass | VKDL/src/renderpass_builder.cpp:170-189 | one loop turn places the subpass and advances each of the five offsets by what it takes; resolve advances by the color count and depth-stencil by one |
| RenderPassBuilder.BuildStep | VKDL/src/renderpass_builder.cpp:169-190 | each loop turn places one more subpass and leaves the rest untouched |
| RenderPassBuilder.RenderPassBuilder.constructor | VKDL/include/vkdl/builder/renderpass_builder.h:38-49 | every list empty and the current attachment, subpass and dependency at their defaults |
| RenderPassBuilder.RenderPassBuilder.Clear | VKDL/src/renderpass_builder.cpp:7-20 | all eight lists empty and the three current items reset |
| RenderPassBuilder.RenderPassBuilder.SetAttachmentFormat | VKDL/src/renderpass_builder.cpp:22-26 | only the current attachment's format changes |
| RenderPassBuilder.RenderPassBuilder.SetAttachmentSampleCount | VKDL/src/renderpass_builder.cpp:28-32 | only the current attachment's sample count changes |
| RenderPassBuilder.RenderPassBuilder.SetAttachmentLoadOp | VKDL/src/renderpass_builder.cpp:34-38 | only the current attachment's load operation changes |
| RenderPassBuilder.RenderPassBuilder.SetAttachmentStoreOp | VKDL/src/renderpass_builder.cpp:40-44 | only the current attachment's store operation changes |
| RenderPassBuilder.RenderPassBuilder.SetAttachmentStencilLoadOp | VKDL/src/renderpass_builder.cpp:46-50 | only the current attachment's stencil load operation changes |
| RenderPassBuilder.RenderPassBuilder.SetAttachmentStencilStoreOp | VKDL/src/renderpass_builder.cpp:52-56 | only the current attachment's stencil store operation changes |
| RenderPassBuilder.RenderPassBuilder.SetAttachmentInitialLayout | VKDL/src/renderpass_builder.cpp:58-62 | only the current attachment's initial layout changes |
| RenderPassBuilder.RenderPassBuilder.SetAttachmentFinalLayout | VKDL/src/renderpass_builder.cpp:64-68 | only the current attachment's final layout changes |
| RenderPassBuilder.RenderPassBuilder.PushCurrentAttachment | VKDL/src/renderpass_builder.cpp:70-75 | the current attachment is appended and a default one started |
| RenderPassBuilder.RenderPassBuilder.SetSubpassPipelineBindPoint | VKDL/src/renderpass_builder.cpp:77-81 | only the current subpass's bind point changes |
| RenderPassBuilder.RenderPassBuilder.AddSubpassInputAttachment | VKDL/src/renderpass_builder.cpp:83-88 | one input reference is appended and counted by the current subpass |
| RenderPassBuilder.RenderPassBuilder.AddSubpassColorAttachment | VKDL/src/renderpass_builder.cpp:90-95 | one color reference is appended and counted by the current subpass |
| RenderPassBuilder.RenderPassBuilder.AddSubpassResolveAttachment | VKDL/src/renderpass_builder.cpp:97-102 | one resolve reference is appended and the subpass marked as resolving, with no count of its own |
| RenderPassBuilder.RenderPassBuilder.SetSubpassDepthStencilAttachment | VKDL/src/renderpass_builder.cpp:104-113 | the first call appends a reference and marks the subpass; a later call overwrites the last reference |
| RenderPassBuilder.RenderPassBuilder.AddSubpassPreserveAttachment | VKDL/src/renderpass_builder.cpp:115-120 | one preserved attachment is appended and counted by the current subpass |
| RenderPassBuilder.RenderPassBuilder.PushCurrentSubpass | VKDL/src/renderpass_builder.cpp:122-127 | the current subpass is appended and a default one started |
| RenderPassBuilder.RenderPassBuilder.SetDependencySrc | VKDL/src/renderpass_builder.cpp:129-135 | only the source subpass, stage and access of the current dependency change |
| RenderPassBuilder.RenderPassBuilder.SetDependencyDst | VKDL/src/renderpass_builder.cpp:137-143 | only the destination subpass, stage and access of the current dependency change |
| RenderPassBuilder.RenderPassBuilder.SetDependencyFlags | VKDL/src/renderpass_builder.cpp:145-149 | only the current dependency's flags change |
| RenderPassBuilder.RenderPassBuilder.PushCurrentDependency | VKDL/src/renderpass_builder.cpp:151-156 | the current dependency is appended and a default one started |
| RenderPassBuilder.RenderPassBuilder.Build | VKDL/src/renderpass_builder.cpp:158-200 | the subpasses become their built form and the create info counts and lists the attachments, subpasses and dependencies |
| DescriptorSetLayoutBuilder.Built | VKDL/src/descriptor_set_layout_builder.cpp:58-68 | `build` keeps the number of bindings |
| DescriptorSetLayoutBuilder.BuiltAt | VKDL/src/descriptor_set_layout_builder.cpp:60-68 | binding k after `build` depends only on itself and the bindings ahead of it, and the order is kept |
| DescriptorSetLayoutBuilder.BuiltPrefix | VKDL/src/descriptor_set_layout_builder.cpp:60-68 | building a prefix gives the prefix of the built bindings |
| DescriptorSetLayoutBuilder.BuiltTotal | VKDL/src/descriptor_set_layout_builder.cpp:60-68 | `build` does not change how many samplers the bindings take together |
| DescriptorSetLayoutBuilder.TotalPrefix | VKDL/src/descriptor_set_layout_builder.cpp:58-68 | the sampler offset never goes down along the bindings, and each binding's run ends before the next offset |
| DescriptorSetLayoutBuilder.BuiltBinding | VKDL/src/descriptor_set_layout_builder.cpp:60-67 | a sampler or combined-image-sampler binding with immutable samplers points at the offset of all descriptors the sampler bindings ahead of it take, and its run ends within the total descriptor count of all such bindings (not within the sampler list: see `MixedSamplersOverrun`); every other binding is left as it was |
| DescriptorSetLayoutBuilder.MixedSamplersOverrun | VKDL/src/descriptor_set_layout_builder.cpp:38-67 | a sampler binding given one sampler and one null sampler: the list holds one sampler, and the built binding points at offset 0 with two descriptors, past its end |
| DescriptorSetLayoutBuilder.BuiltRunsOrdered | VKDL/src/descriptor_set_layout_builder.cpp:60-67 | the sampler runs of two bindings follow binding order and do not overlap |
| DescriptorSetLayoutBuilder.BuildIdempotent | VKDL/src/descriptor_set_layout_builder.cpp:54-75 | building the built bindings again changes nothing |
| DescriptorSetLayoutBuilder.BuiltWellFormed | VKDL/src/descriptor_set_layout_builder.cpp:60-67 | after `build` only a binding that takes samplers points into the sampler list |
| DescriptorSetLayoutBuilder.BuildStep | VKDL/src/descriptor_set_layout_builder.cpp:60-68 | each iteration of the loop places one more binding and leaves the rest untouched |
| DescriptorSetLayoutBuilder.DescriptorSetLayoutBuilder.constructor | VKDL/src/descriptor_set_layout_builder.cpp:7-10 | an empty builder with a default current binding |
| DescriptorSetLayoutBuilder.DescriptorSetLayoutBuilder.Clear | VKDL/src/descriptor_set_layout_builder.cpp:12-17 | no bindings, no samplers and a default current binding |
| DescriptorSetLayoutBuilder.DescriptorSetLayoutBuilder.SetBinding | VKDL/src/descriptor_set_layout_builder.cpp:19-23 | only the current binding's number changes |
| DescriptorSetLayoutBuilder.DescriptorSetLayoutBuilder.SetDescriptorType | VKDL/src/descriptor_set_layout_builder.cpp:25-29 | only the current binding's descriptor type changes |
| DescriptorSetLayoutBuilder.DescriptorSetLayoutBuilder.SetShaderStage | VKDL/src/descriptor_set_layout_builder.cpp:31-35 | only the current binding's stages change |
| DescriptorSetLayoutBuilder.DescriptorSetLayoutBuilder.AddSampler | VKDL/src/descriptor_set_layout_builder.cpp:37-45 | the descriptor count always goes up by one; a non-null sampler is appended to the list and marks the binding, a null one changes nothing else |
| DescriptorSetLayoutBuilder.DescriptorSetLayoutBuilder.PushCurrentBinding | VKDL/src/descriptor_set_layout_builder.cpp:47-52 | the current binding is appended and a default one started |
| DescriptorSetLayoutBuilder.DescriptorSetLayoutBuilder.Build | VKDL/src/descriptor_set_layout_builder.cpp:54-75 | the bindings become their built form and the create info counts and lists all of them |
| PipelineLayoutBuilder.PipelineLayoutBuilder.constructor | VKDL/src/pipeline_layout_builder.cpp:7-10 | no layouts, no objects and no push-constant ranges |
| PipelineLayoutBuilder.PipelineLayoutBuilder.Clear | VKDL/src/pipeline_layout_builder.cpp:12-16 | the layout handles and the ranges are dropped while the kept objects stay |
| PipelineLayoutBuilder.PipelineLayoutBuilder.AddDescriptorSetLayout | VKDL/src/pipeline_layout_builder.cpp:18-23 | the layout is appended both as a kept object and as a handle |
| PipelineLayoutBuilder.PipelineLayoutBuilder.AddPushConstant | VKDL/src/pipeline_layout_builder.cpp:25-29 | one range of that stage, offset and size is appended |
| PipelineLayoutBuilder.PipelineLayoutBuilder.Build | VKDL/src/pipeline_layout_builder.cpp:31-43 | the create info counts and lists the handles and ranges added since the last clear; the pipeline layout keeps every object ever added, and the listed handles are the last ones kept, in order |
| PipelineBuilder.ViewportStateOf | VKDL/src/pipeline_builder.cpp:290-301 | with no viewports the state names none and counts one of each; otherwise it lists the viewports and the scissors with their own counts |
| PipelineBuilder.ViewportScissorCounts | VKDL/src/pipeline_builder.cpp:290-301 | the viewport and scissor counts agree exactly when there are no viewports or as many scissors as viewports |
| PipelineBuilder.ColorComponents | VKDL/src/pipeline_builder.cpp:241-250 | the mask holds exactly the components passed as true and no other bit |
| PipelineBuilder.EnableBlendAsWritten | VKDL/src/pipeline_builder.cpp:219-223 | as written the statement only reads the blend flag, so the state comes back unchanged |
| PipelineBuilder.EnableBlend | VKDL/src/pipeline_builder.cpp:219-223 | the evidently intended operation: blending on and everything else as it was |
| PipelineBuilder.EnableBlendIsNoOp | VKDL/src/pipeline_builder.cpp:219-223 | on a fresh blend state the code as written leaves blending off while the intended one turns it on |
| PipelineBuilder.PipelineBuilder.constructor | VKDL/src/pipeline_builder.cpp:7-10 | the builder starts cleared, with empty lists, fixed-function defaults, no layout, no render pass and a default blend state |
| PipelineBuilder.PipelineBuilder.Clear | VKDL/src/pipeline_builder.cpp:12-55 | stages, vertex bindings, vertex attributes and viewports are emptied and the fixed-function states get their defaults; scissors, dynamic states, blend attachments, modules, layout, render pass and the current blend state stay |
| PipelineBuilder.PipelineBuilder.AddShaderStage | VKDL/src/pipeline_builder.cpp:57-62 | the module and the stage are appended |
| PipelineBuilder.PipelineBuilder.AddVertexInput | VKDL/src/pipeline_builder.cpp:64-68 | one vertex binding is appended |
| PipelineBuilder.PipelineBuilder.AddVertexInputAttribute | VKDL/src/pipeline_builder.cpp:70-74 | one attribute is appended, its location and binding in the order of the description |
| PipelineBuilder.PipelineBuilder.SetPrimitiveTopology | VKDL/src/pipeline_builder.cpp:76-81 | the input assembly takes the topology and the restart flag |
| PipelineBuilder.PipelineBuilder.AddViewportScissor | VKDL/src/pipeline_builder.cpp:83-88 | one viewport and one scissor are appended |
| PipelineBuilder.PipelineBuilder.EnableRasterizerDepthClamp | VKDL/src/pipeline_builder.cpp:90-94 | only depth clamping turns on |
| PipelineBuilder.PipelineBuilder.EnableRasterizerDiscard | VKDL/src/pipeline_builder.cpp:96-100 | only rasterizer discard turns on |
| PipelineBuilder.PipelineBuilder.SetRasterizerPolygonMode | VKDL/src/pipeline_builder.cpp:102-106 | only the polygon mode changes |
| PipelineBuilder.PipelineBuilder.SetRasterizerCullMode | VKDL/src/pipeline_builder.cpp:108-112 | only the cull mode changes |
| PipelineBuilder.PipelineBuilder.SetRasterizerFrontFace | VKDL/src/pipeline_builder.cpp:114-118 | only the front face changes |
| PipelineBuilder.PipelineBuilder.SetRasterizerDepthBias | VKDL/src/pipeline_builder.cpp:120-127 | depth bias turns on with the three factors |
| PipelineBuilder.PipelineBuilder.SetRasterizerLineWidth | VKDL/src/pipeline_builder.cpp:129-133 | only the line width changes |
| PipelineBuilder.PipelineBuilder.SetRasterizationSamples | VKDL/src/pipeline_builder.cpp:135-139 | only the sample count changes |
| PipelineBuilder.PipelineBuilder.SetSampleShading | VKDL/src/pipeline_builder.cpp:141-146 | sample shading turns on with that minimum |
| PipelineBuilder.PipelineBuilder.EnableAlphaToCoverage | VKDL/src/pipeline_builder.cpp:148-152 | only alpha-to-coverage turns on |
| PipelineBuilder.PipelineBuilder.EnableAlphaToOne | VKDL/src/pipeline_builder.cpp:154-158 | only alpha-to-one turns on |
| PipelineBuilder.PipelineBuilder.EnableDepthTest | VKDL/src/pipeline_builder.cpp:160-164 | only the depth test turns on |
| PipelineBuilder.PipelineBuilder.EnableDepthWrite | VKDL/src/pipeline_builder.cpp:166-170 | only depth writes turn on |
| PipelineBuilder.PipelineBuilder.SetDepthCompareOp | VKDL/src/pipeline_builder.cpp:172-176 | only the depth compare operation changes |
| PipelineBuilder.PipelineBuilder.EnableDepthBoundsTest | VKDL/src/pipeline_builder.cpp:178-182 | only the depth bounds test turns on |
| PipelineBuilder.PipelineBuilder.EnableStencilTest | VKDL/src/pipeline_builder.cpp:184-189 | the front and back operation states are stored while the stencil test flag stays as it was |
| PipelineBuilder.PipelineBuilder.SetDepthBounds | VKDL/src/pipeline_builder.cpp:191-196 | only the two depth bounds change |
| PipelineBuilder.PipelineBuilder.EnableBlendLogicOp | VKDL/src/pipeline_builder.cpp:198-202 | only the logic operation turns on |
| PipelineBuilder.PipelineBuilder.SetBlendLogicOp | VKDL/src/pipeline_builder.cpp:204-208 | only the logic operation changes |
| PipelineBuilder.PipelineBuilder.SetBlendConstants | VKDL/src/pipeline_builder.cpp:210-217 | only the four blend constants change |
| PipelineBuilder.PipelineBuilder.EnableBlend | VKDL/src/pipeline_builder.cpp:219-223 | the current blend state is what the code as written leaves it: unchanged |
| PipelineBuilder.PipelineBuilder.SetColorBlend | VKDL/src/pipeline_builder.cpp:225-231 | only the color factors and operation change |
| PipelineBuilder.PipelineBuilder.SetAlphaBlend | VKDL/src/pipeline_builder.cpp:233-239 | only the alpha factors and operation change |
| PipelineBuilder.PipelineBuilder.SetColorWriteMask | VKDL/src/pipeline_builder.cpp:241-250 | only the write mask changes, to exactly the components passed as true |
| PipelineBuilder.PipelineBuilder.PushCurrentColorBlendAttachmentState | VKDL/src/pipeline_builder.cpp:252-257 | the current blend state is appended and a default one started |
| PipelineBuilder.PipelineBuilder.AddDynamicState | VKDL/src/pipeline_builder.cpp:259-263 | one dynamic state is appended |
| PipelineBuilder.PipelineBuilder.SetPipelineLayout | VKDL/src/pipeline_builder.cpp:265-269 | the layout is set |
| PipelineBuilder.PipelineBuilder.SetRenderPass | VKDL/src/pipeline_builder.cpp:271-275 | the render pass is set |
| PipelineBuilder.PipelineBuilder.Build | VKDL/src/pipeline_builder.cpp:277-332 | the blend state counts the pushed attachments; a successful creation makes the check fire and raises "Failed to create graphics pipeline", and a failed one returns a pipeline of the create info, the layout and the modules |
| PipelineBuilder.PipelineBuilder.PipelineInfo | VKDL/src/pipeline_builder.cpp:282-326 | the create info counts and lists the stages, vertex input, blend attachments and dynamic states, takes its viewport state from ViewportStateOf, and uses subpass 0 |

## Left out

- The driver, operating-system and FreeType calls themselves (device, memory, swapchain and pipeline creation, command recording, submit and present, window creation, rasterising). They appear only as trace events or as parameters holding their results.
- Fences and semaphores are events. The GPU/CPU concurrency they order is not modelled.
- Floating-point numerics:
  - the `Transform2D` matrix arithmetic;
  - vertex positions, UVs, line normals, circle-fan sines and cosines;
  - `addText` kerning, bounding box and alignment shift;
  - the `TextureView` UVs and projection;
  - the Color float constructors and `to_vec4`;
  - `Rect`'s float instance and `area`, which returns a float.
- The `findGlyphRect` ratio test uses the exact bound 7/10 where the code compares against the float literal `0.7f`.
- `Context::beginSingleTimeCommmand`, `endSingleTimeCommmand`, the debug report callback's output and the pipeline cache: they only forward to the driver.
- `~Texture` and the driver destroy calls of `~Context` are not modelled: they only release driver objects. `Context.Context.Destroy` models the freeing of the singleton slot, and `Buffer.Buffer.Release` models `~Buffer`.
- Context.Context.GetPipeline and Context.Context.GetRenderPass: `operator[]` on an unregistered id inserts an empty `shared_ptr`, so the id counts as registered from then on, and the code then dereferences that pointer, which is undefined behaviour. The model records the inserted empty entry and returns the fault `Err(NullDereference)` in place of the undefined behaviour.
- `Image` copy and move assignment are not modelled: both lack a return statement, which is undefined behaviour.
- `ColorImage::loadFromFile`, `saveToFile` and the path constructor are not modelled because they are file I/O.
- `Font::loadFromFile`, `loadFromMemory`, line spacing, the underline metrics, `hasGlyph` and the FreeType half of `loadGlyph` are not modelled because they are FreeType calls. The font's metrics come in as parameters.
- The `check_update` helpers at the top of `src/render_states.cpp` are unused by the library and not modelled.
- The builtin render pass and pipeline UUIDs come from `builtin_objects.h`, which is not part of this model. They are distinct constants here.
- `PlatformWindowBase` init and destroy, `pollEventMsg` and `waitEventMsg` are not modelled: they wrap the OS message loop. Only `sendEventMsg` is modelled.
- The keyboard scancode lookup behind `VK_SHIFT`, `isKeyPressed` and the other OS key queries are not modelled because they ask the OS.
- Win32 property setters, the mouse queries and DPI awareness are not modelled because they only call Win32.
- The builders' `(uint32_t)` casts of vector sizes are not modelled: counts are unbounded naturals, since no list approaches 2^32 entries.
- Uuid.FromString: requires at most 32 nibbles in the string, because the code writes the 33rd and later nibbles past its 32-entry buffer.
- DrawList.DrawList2D.AddText and the other emitters: require that the vertex and index counts stay below 2^32, where the code's 32-bit indices would wrap.
- DrawList.DrawList2D.PopTexture, PopClipRect and PopTransform: require a non-empty stack; popping an empty `std::vector` is undefined behaviour.
- DrawList.DrawList2D.PushClipRect: requires a non-empty stack when intersecting, because the code reads the top of the stack.
- Context.AlignMemorySize: requires a nonzero alignment, since the code divides by it.
- Buffer.Buffer.Resize: requires that the driver's memory requirement covers the new byte size; the driver's answer is a parameter.
- WindowBase.PlatformWindowBase.AcquireSwapchainImage: takes the driver's successive acquire results as a list that ends in a result other than suboptimal or out-of-date. It requires a nonzero extent whenever it must recreate, since acquiring after a zero-extent recreate has no semaphores. Every recreation uses the same surface capabilities and swapchain image list, while the code queries both again on each `recreate_swapchain` (`src/platforms/platform_window_base.h:154` and `:254`). A surface whose extent or image count changes between retries is not modelled.
- WindowBase.PlatformWindowBase.RetryAcquire: uses one surface capability value and one image list for every retry, as above.
- WindowBase.PlatformWindowBase.SendEventMsg: records only that the `OnEventRecieved` delegate is invoked with the event. What its handlers do is user code and is not modelled.
- Context.SelectPhysicalDevice, Context.ContextCreator.Create, Context.NewContext and Context.Context.constructor: require at least one physical device. With none, the code calls `front()` on an empty list (`src/context.cpp:333`), which is undefined behaviour.
- PipelineBuilder.PipelineBuilder.Build and PipelineBuilder.PipelineBuilder.PipelineInfo: require that the layout and the render pass are set. The code dereferences both (`src/pipeline_builder.cpp:322-323`); an unset one is an empty `shared_ptr`.
- Font.Page.constructor, Font.Page.PackGlyph, Font.Page.GrowTexture: the page texture is an extent and a list of uploads. It stands for a `Texture` with `extent()`, `resize` and a three-argument `update` (`src/font.cpp:89`, `:399`, `:420`, `:435-438`), which `include/vkdl/graphics/texture.h` does not declare. Its resize and uploads are assumed to succeed, although under `Texture.Texture.Update` as modelled the page constructor's upload would raise.
- Cursor.CursorImpl.LoadFromPixels: a write through the NULL bitmap memory is a fault result that changes nothing; in the code it is undefined behaviour.
- Cursor.CursorImpl.LoadFromPixels and Cursor.CursorImpl.LoadFromSystem: follow a release build. `VKDL_ASSERT_MSG` is the standard `assert` (exception.h:11), so its checks that the mask bitmap and the cursor were created (windows_cursor_impl.h:70, :88, :122) are compiled out under `NDEBUG`; the aborts of a debug build are not modelled.
- Image.Blit: a read or write outside the two buffers, and a 32-bit wrap of the row or size arithmetic, are a fault result; the code reads or writes whatever memory lies there.
- Image.Image.Copy: requires a source whose buffer covers its dimensions, and allocates the full product of the dimensions. The code allocates the 32-bit product but copies `sizeof(DataType) * img_w * img_h` bytes with `size_t` arithmetic (image.h:85), so for an image of 2^32 or more pixels it overruns the new buffer; that copy is not modelled.
- DrawList.DrawList2D.AddFilledRoundRect: the radii `radius[2]` and `radius[3]` are reads past a two-component vector (`vec4` is `glm::vec2`, vector_type.h:18), which is undefined behaviour; the model takes them as two free radii `r2` and `r3`, chosen by the caller, and does not model what memory the code reads there.
- DrawList.ToRadian: `to_radian` is not part of this model; it is taken to be the conversion of radian.h's `_deg`, on reals, without rounding to `float`.
- TextureView.TextureView.Draw: the UV coordinates pushed beside the four corners are not modelled, because they are float arithmetic.
- Texture.Texture.Update: the contract also states the success branch. A texture made by the constructor never reaches it, because its staging resize always raises (`Texture.TextureUpdateRefused`).

## Findings

| source | as written | input that shows it | evidently intended | confidence | as-written member | corrected member |
|---|---|---|---|---|---|---|
| VKDL/src/platforms/windows_platform_window_impl.h:778-786 | a WM_CHAR low surrogate with no stored high surrogate is decoded as two units, and `to_utf32` writes two code points into a one-word output | WM_CHAR 0xDC00 with no stored high surrogate | a lone low surrogate is emitted as one character | not executed | Win32Window.LoneLowSurrogateOverflows | Win32Window.CombineChar |
| VKDL/src/texture.cpp:453 | the texel count width x height x depth is a 32-bit product that wraps before it is multiplied by the texel size | a 2048 x 2048 x 1024 texture of 4-byte texels stages 0 bytes | the full product, 2^34 bytes | not executed | Texture.StagingSizeWraps | Texture.StagingSize |
| VKDL/src/pipeline_builder.cpp:219-223 | `enableBlend` reads `blendEnable` and discards it, so blending stays off | `enableBlend()` on a fresh builder leaves `blendEnable` false | `blendEnable = true` | not executed | PipelineBuilder.EnableBlendIsNoOp | PipelineBuilder.EnableBlend |
| VKDL/src/image.cpp:78-79 | the second check of `blit` compares offset.x + size.x with the height, so offset.y + size.y is never checked and rows below the image are read | a 1 x 1 image, offset (0, 0), size (1, 2) | the second check tests offset.y + size.y against the height, so only regions inside the image are copied | not executed | Image.BlitPastBottom | Image.BlitFitsReadable |

`Texture.Texture.Update` and `Win32Window.PlatformWindowImpl.OnChar` use the corrected definitions. `Texture.StagingSizeAgrees` and `Win32Window.CombineCharAgrees` prove that the as-written code agrees with the corrected definitions wherever it does not overflow. `PipelineBuilder.PipelineBuilder.EnableBlend` keeps the code's behaviour, which is what a caller of the library sees, and `PipelineBuilder.EnableBlend` states the intended one. `Image.Blit` keeps the code's two checks and gives the region past the buffer a fault result; `Image.BlitFits` is the intended check, and `Image.BlitFitsReadable` proves that a region passing it is read inside the buffer.
