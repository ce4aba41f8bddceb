// The array pointers the builders fill in. While a render pass or a
// descriptor-set layout is assembled, its descriptions only mark that an
// array will be there (the pointer is set to a non-null sentinel); `build`
// then points each marked array into the builder's flat list, at the
// running offset. A pointer is therefore null, the sentinel, or an offset
// into that list.
module Placement {
  datatype Pointer = Null | Marked | At(offset: nat)
}
