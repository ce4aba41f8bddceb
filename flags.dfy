// `Flags<BitType>` (include/vkdl/util/flags.h): a typed wrapper around the
// mask of a bit enumeration. The mask is the enumeration's underlying type,
// `int` for every enumeration it is used with here, held as its 32-bit
// two's-complement word.
module Flags {
  datatype Flags = Flags(mask: bv32)

  /** Bit i of the mask is set. */
  predicate Has(f: Flags, i: bv5) { f.mask & (1 << i) != 0 }

  /** Default construction: the empty mask. */
  function Empty(): Flags { Flags(0) }

  /** Construction from one enumerator takes its value as the mask. */
  function FromBit(bit: bv32): Flags { Flags(bit) }

  function And(a: Flags, b: Flags): Flags { Flags(a.mask & b.mask) }
  function Or(a: Flags, b: Flags): Flags { Flags(a.mask | b.mask) }
  function Xor(a: Flags, b: Flags): Flags { Flags(a.mask ^ b.mask) }

  /** `~`: the mask XOR-ed with the enumeration's `allFlags` mask. */
  function Complement(f: Flags, all: Flags): Flags { Flags(f.mask ^ all.mask) }

  /** Explicit `bool`. */
  function ToBool(f: Flags): bool { f.mask != 0 }

  /** `!`. */
  function Not(f: Flags): bool { f.mask == 0 }

  /** The mask is negative as the `MaskType` it is stored in: the
      enumerations' underlying type is `int`, so bit 31 is the sign. */
  predicate Negative(m: bv32) { m >= 0x8000_0000 }

  /** `<` on two `int`s: a negative one is below every non-negative one,
      and two of the same sign compare as their two's-complement words. */
  predicate SignedLess(x: bv32, y: bv32) {
    if Negative(x) != Negative(y) then Negative(x) else x < y
  }

  /** The four ordering comparisons compare the masks as signed `int`s. */
  predicate Less(a: Flags, b: Flags) { SignedLess(a.mask, b.mask) }
  predicate LessEq(a: Flags, b: Flags) { !SignedLess(b.mask, a.mask) }
  predicate Greater(a: Flags, b: Flags) { SignedLess(b.mask, a.mask) }
  predicate GreaterEq(a: Flags, b: Flags) { !SignedLess(a.mask, b.mask) }
  predicate Eq(a: Flags, b: Flags) { a.mask == b.mask }
  predicate NotEq(a: Flags, b: Flags) { a.mask != b.mask }

  /** The empty mask has no bit; a single-bit enumerator has exactly its bit. */
  lemma ConstructorBits(i: bv5, j: bv5)
    ensures !Has(Empty(), i)
    ensures Has(FromBit(1 << j), i) <==> i == j
  {
  }

  /** `&`, `|` and `^` combine the two masks bit by bit. */
  lemma OperatorsAreBitwise(a: Flags, b: Flags, i: bv5)
    ensures Has(And(a, b), i) <==> Has(a, i) && Has(b, i)
    ensures Has(Or(a, b), i) <==> Has(a, i) || Has(b, i)
    ensures Has(Xor(a, b), i) <==> Has(a, i) != Has(b, i)
  {
  }

  /** `~` flips exactly the bits of `allFlags`. */
  lemma ComplementFlipsAll(f: Flags, all: Flags, i: bv5)
    ensures Has(Complement(f, all), i) <==> (if Has(all, i) then !Has(f, i) else Has(f, i))
    ensures Complement(Complement(f, all), all) == f
  {
  }

  /** `bool` is true iff some bit is set, `!` is its negation. */
  lemma BoolMeansSomeBit(f: Flags, i: bv5)
    ensures Has(f, i) ==> ToBool(f)
    ensures Not(f) <==> !ToBool(f)
    ensures ToBool(f) <==> f != Empty()
    ensures ToBool(Or(f, FromBit(1 << i)))
  {
  }

  /** A mask with bit 31 set is negative: it orders below every mask
      without it, the empty mask first among them. */
  lemma NegativeFirst(a: Flags, b: Flags)
    requires Negative(a.mask) && !Negative(b.mask)
    ensures Less(a, b) && !LessEq(b, a)
  {
  }

  /** Exactly the negative masks are below the empty mask: -1 < 0, and
      -2^31 is the least of all. */
  lemma BelowEmpty(a: Flags)
    ensures Negative(a.mask) <==> Less(a, Empty())
    ensures Less(Flags(0xffff_ffff), Empty())
    ensures LessEq(Flags(0x8000_0000), a)
  {
  }

  lemma ComparisonsAreConsistent(a: Flags, b: Flags)
    ensures LessEq(a, b) <==> !Less(b, a)
    ensures Greater(a, b) <==> Less(b, a)
    ensures GreaterEq(a, b) <==> !Less(a, b)
    ensures Eq(a, b) <==> a == b
    ensures NotEq(a, b) <==> !Eq(a, b)
    ensures Less(a, b) ==> !Less(b, a)
  {
  }

  /** A variable of type Flags, for the compound assignments that update it
      in place. */
  class FlagsVar {
    var value: Flags

    constructor (init: Flags)
      ensures value == init
    {
      value := init;
    }

    /** `|=` leaves the mask `|` gives. */
    method OrAssign(rhs: Flags)
      modifies this
      ensures value == Or(old(value), rhs)
    {
      value := Flags(value.mask | rhs.mask);
    }

    /** `&=` leaves the mask `&` gives. */
    method AndAssign(rhs: Flags)
      modifies this
      ensures value == And(old(value), rhs)
    {
      value := Flags(value.mask & rhs.mask);
    }

    /** `^=` leaves the mask `^` gives. */
    method XorAssign(rhs: Flags)
      modifies this
      ensures value == Xor(old(value), rhs)
    {
      value := Flags(value.mask ^ rhs.mask);
    }
  }
}
