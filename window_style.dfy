// `PlatformWindowStyle` (include/vkdl/system/platform_window.h): the style
// bits a window is created with, combined as `Flags<PlatformWindowStyle>`.
module WindowStyle {
  import opened Flags

  const None: bv32 := 0
  const Resizable: bv32 := 1 << 0
  const TopMost: bv32 := 1 << 1
  const Visible: bv32 := 1 << 2
  const Minimize: bv32 := 1 << 3
  const Maximize: bv32 := 1 << 4
  const Close: bv32 := 1 << 5
  const Titlebar: bv32 := Minimize | Maximize | Close
  const Default: bv32 := Titlebar | Resizable | Visible

  /** The style a window gets when its constructor or `create` is called
      without one. */
  function DefaultStyle(): (s: Flags)
    ensures s.mask == Default
  {
    FromBit(Default)
  }

  /** The six named styles are the single bits 0..5, in declaration order. */
  lemma SingleBits()
    ensures Resizable == 1 && TopMost == 2 && Visible == 4
    ensures Minimize == 8 && Maximize == 16 && Close == 32
    ensures None == 0
  {
  }

  /** Bit i of `Titlebar` is set exactly for Minimize, Maximize and Close;
      bit i of `Default` for those plus Resizable and Visible, so it leaves
      out TopMost. */
  lemma CompositeBits(i: bv5)
    ensures Has(Flags(Titlebar), i) <==> i == 3 || i == 4 || i == 5
    ensures Has(DefaultStyle(), i) <==> i == 0 || i == 2 || i == 3 || i == 4 || i == 5
    ensures !Has(DefaultStyle(), 1)
  {
  }
}
