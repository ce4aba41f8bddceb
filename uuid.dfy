// The 128-bit identifier `UUID` used for pipeline and render-pass ids
// (include/vkdl/util/uuid.h): two unsigned 64-bit halves, a parser that
// reads hexadecimal nibbles out of a C string, a printer, and the ordering.
module Uuid {
  import opened Wrappers

  const TWO_64: int := 0x1_0000_0000_0000_0000
  type u64 = x: int | 0 <= x < TWO_64

  datatype UUID = UUID(hi: u64, lo: u64)

  // ---------------------------------------------------------------- values

  /** The default constructor: both halves zero. */
  function Default(): (u: UUID)
    ensures Empty(u)
  {
    UUID(0, 0)
  }

  predicate Empty(u: UUID) { u.hi == 0 && u.lo == 0 }

  predicate Eq(a: UUID, b: UUID) { a.hi == b.hi && a.lo == b.lo }
  predicate NotEq(a: UUID, b: UUID) { !Eq(a, b) }

  predicate Less(a: UUID, b: UUID) { if a.hi == b.hi then a.lo < b.lo else a.hi < b.hi }
  predicate Greater(a: UUID, b: UUID) { Less(b, a) }
  predicate LessEq(a: UUID, b: UUID) { !Less(b, a) }
  predicate GreaterEq(a: UUID, b: UUID) { !Less(a, b) }

  /** `empty()` holds only of the default value. */
  lemma EmptyIsDefault(u: UUID)
    ensures Empty(u) <==> u == Default()
  {
  }

  /** `==` is equality of the value and `!=` its negation. */
  lemma EqIsEquality(a: UUID, b: UUID)
    ensures Eq(a, b) <==> a == b
    ensures NotEq(a, b) <==> a != b
  {
  }

  /** `<` is the lexicographic order on (hi, lo), a strict total order that the
      other three comparisons are derived from consistently with `==`. */
  lemma LessIsStrictTotalOrder(a: UUID, b: UUID, c: UUID)
    ensures Less(a, b) <==> a.hi < b.hi || (a.hi == b.hi && a.lo < b.lo)
    ensures !Less(a, a)
    ensures Less(a, b) && Less(b, c) ==> Less(a, c)
    ensures Less(a, b) || a == b || Less(b, a)
    ensures Greater(a, b) <==> Less(b, a)
    ensures LessEq(a, b) <==> Less(a, b) || a == b
    ensures GreaterEq(a, b) <==> Less(b, a) || a == b
  {
  }

  // ---------------------------------------------------- hexadecimal digits

  function Pow16(n: nat): (p: nat)
    ensures p >= 1
  {
    if n == 0 then 1 else 16 * Pow16(n - 1)
  }

  lemma Pow16Facts()
    ensures Pow16(3) == 0x1000 && Pow16(4) == 0x1_0000 && Pow16(7) == 0x1000_0000
    ensures Pow16(8) == 0x1_0000_0000 && Pow16(11) == 0x1000_0000_0000
    ensures Pow16(12) == 0x1_0000_0000_0000 && Pow16(16) == TWO_64
  {
    assert Pow16(1) == 16;
    assert Pow16(2) == 0x100;
    assert Pow16(3) == 0x1000;
    assert Pow16(4) == 0x1_0000;
    assert Pow16(5) == 0x10_0000;
    assert Pow16(6) == 0x100_0000;
    assert Pow16(7) == 0x1000_0000;
    assert Pow16(8) == 0x1_0000_0000;
    assert Pow16(9) == 0x10_0000_0000;
    assert Pow16(10) == 0x100_0000_0000;
    assert Pow16(11) == 0x1000_0000_0000;
    assert Pow16(12) == 0x1_0000_0000_0000;
    assert Pow16(13) == 0x10_0000_0000_0000;
    assert Pow16(14) == 0x100_0000_0000_0000;
    assert Pow16(15) == 0x1000_0000_0000_0000;
  }

  predicate IsNibbleSeq(ds: seq<nat>) { forall i :: 0 <= i < |ds| ==> ds[i] < 16 }

  /** Big-endian value of a sequence of nibbles. */
  function HexValue(ds: seq<nat>): nat
  {
    if ds == [] then 0 else HexValue(ds[..|ds| - 1]) * 16 + ds[|ds| - 1]
  }

  /** The last `w` hexadecimal digits of `n`, most significant first. */
  function Digits(n: nat, w: nat): (ds: seq<nat>)
    ensures |ds| == w && IsNibbleSeq(ds)
  {
    if w == 0 then [] else Digits(n / 16, w - 1) + [n % 16]
  }

  lemma {:induction false} HexValueBound(ds: seq<nat>)
    requires IsNibbleSeq(ds)
    ensures HexValue(ds) < Pow16(|ds|)
  {
    if ds != [] {
      var init := ds[..|ds| - 1];
      HexValueBound(init);
      assert HexValue(init) + 1 <= Pow16(|init|);
      assert HexValue(ds) == HexValue(init) * 16 + ds[|ds| - 1];
      assert HexValue(ds) < (HexValue(init) + 1) * 16;
    }
  }

  /** Sixteen nibbles make a 64-bit value. */
  lemma HalfBound(ds: seq<nat>)
    requires |ds| == 16 && IsNibbleSeq(ds)
    ensures HexValue(ds) < TWO_64
  {
    HexValueBound(ds);
    Pow16Facts();
  }

  /** Two nibble sequences of one length with one value are equal. */
  lemma {:induction false} HexValueInjective(p: seq<nat>, q: seq<nat>)
    requires IsNibbleSeq(p) && IsNibbleSeq(q) && |p| == |q|
    requires HexValue(p) == HexValue(q)
    ensures p == q
  {
    if p != [] {
      var n := |p|;
      var a, b := HexValue(p[..n - 1]), HexValue(q[..n - 1]);
      assert a * 16 + p[n - 1] == b * 16 + q[n - 1];
      assert p[n - 1] == q[n - 1] && a == b by { ModUnique(a, p[n - 1], b, q[n - 1]); }
      HexValueInjective(p[..n - 1], q[..n - 1]);
      assert p == p[..n - 1] + [p[n - 1]];
      assert q == q[..n - 1] + [q[n - 1]];
    }
  }

  lemma ModUnique(a: nat, x: nat, b: nat, y: nat)
    requires x < 16 && y < 16 && a * 16 + x == b * 16 + y
    ensures a == b && x == y
  {
    DivModUnique(a * 16 + x, 16, a, x);
    DivModUnique(b * 16 + y, 16, b, y);
  }

  /** The digits of a value below 16^w spell that value. */
  lemma {:induction false} HexValueOfDigits(n: nat, w: nat)
    requires n < Pow16(w)
    ensures HexValue(Digits(n, w)) == n
  {
    if w > 0 {
      var ds := Digits(n, w);
      assert ds[..w - 1] == Digits(n / 16, w - 1);
      HexValueOfDigits(n / 16, w - 1);
    }
  }

  lemma MulSign(k: int, d: int)
    requires d > 0
    ensures k >= 1 ==> k * d >= d
    ensures k <= -1 ==> k * d <= -d
  {
  }

  lemma DivModUnique(n: int, d: int, q: int, r: int)
    requires d > 0 && n == q * d + r && 0 <= r < d
    ensures n / d == q && n % d == r
  {
    var q0, r0 := n / d, n % d;
    assert (q - q0) * d == r0 - r;
    MulSign(q - q0, d);
  }

  // -------------------------------------------------------------- parsing

  predicate IsDigit(c: char) { '0' <= c <= '9' }
  predicate IsAlpha(c: char) { 'A' <= c <= 'Z' || 'a' <= c <= 'z' }
  function ToUpper(c: char): char { if 'a' <= c <= 'z' then (c as int - 32) as char else c }

  /** Length of the C string held in `s`: up to the first NUL, or all of it. */
  function CStrLen(s: seq<char>): (n: nat)
    ensures n <= |s|
    ensures forall i :: 0 <= i < n ==> s[i] != '\0'
    ensures n < |s| ==> s[n] == '\0'
  {
    if |s| == 0 || s[0] == '\0' then 0 else 1 + CStrLen(s[1..])
  }

  /** The nibble the parser takes from position i (uuid.h:23-29): a digit's
      value, or a letter up to F of either case, unless the character before
      it is an 'I' or 'i'. Everything else contributes nothing. */
  function NibbleAt(s: seq<char>, i: nat): Option<nat>
    requires i < |s|
  {
    var c := s[i];
    if IsDigit(c) then Some(c as int - '0' as int)
    else if IsAlpha(c) then
      var up := ToUpper(c);
      if 'F' < up || (i != 0 && ToUpper(s[i - 1]) == 'I') then None
      else Some(up as int - 'A' as int + 10)
    else None
  }

  function NibblesUpTo(s: seq<char>, n: nat): (ds: seq<nat>)
    requires n <= |s|
    ensures IsNibbleSeq(ds) && |ds| <= n
  {
    if n == 0 then []
    else NibblesUpTo(s, n - 1) + (match NibbleAt(s, n - 1) case Some(v) => [v] case None => [])
  }

  /** The nibbles the parser collects from the C string `s`, in order. */
  function Nibbles(s: seq<char>): (ds: seq<nat>)
    ensures IsNibbleSeq(ds)
  {
    NibblesUpTo(s, CStrLen(s))
  }

  /** The 32-entry buffer: the nibbles followed by zeros. */
  function Pad32(ds: seq<nat>): (p: seq<nat>)
    requires |ds| <= 32 && IsNibbleSeq(ds)
    ensures |p| == 32 && IsNibbleSeq(p) && p[..|ds|] == ds
    ensures forall k :: |ds| <= k < 32 ==> p[k] == 0
  {
    ds + seq(32 - |ds|, _ => 0)
  }

  /** The value the string constructor builds: buffer entries 0..15 form
      `hi` and 16..31 form `lo`, most significant first (uuid.h:32-35). */
  function FromNibbles(ds: seq<nat>): (u: UUID)
    requires |ds| <= 32 && IsNibbleSeq(ds)
    ensures u.hi == HexValue(Pad32(ds)[..16]) && u.lo == HexValue(Pad32(ds)[16..])
  {
    var p := Pad32(ds);
    HalfBound(p[..16]);
    HalfBound(p[16..]);
    UUID(HexValue(p[..16]), HexValue(p[16..]))
  }

  /** Parse as a function of the string, used by the lemmas below. */
  function Parse(s: seq<char>): UUID
    requires |Nibbles(s)| <= 32
  {
    FromNibbles(Nibbles(s))
  }

  lemma {:induction false} NibblesUpToGrow(s: seq<char>, i: nat, n: nat)
    requires i <= n <= |s|
    ensures |NibblesUpTo(s, i)| <= |NibblesUpTo(s, n)|
    decreases n - i
  {
    if i < n {
      NibblesUpToGrow(s, i, n - 1);
    }
  }

  function Pow256(n: nat): (p: nat)
    ensures p >= 1
  {
    if n == 0 then 1 else 256 * Pow256(n - 1)
  }

  /** OR-ing byte k of a buffer region in at shift 56 - 8k extends the
      region's big-endian value by that byte. */
  lemma PackStep(b: seq<nat>, base: nat, k: nat, acc: nat, byte: nat, shift: nat)
    requires k < 8 && base + 2 * k + 2 <= |b|
    requires acc == HexValue(b[base..base + 2 * k]) * Pow256(8 - k)
    requires byte == b[base + 2 * k] * 16 + b[base + 2 * k + 1] && shift == Pow256(7 - k)
    ensures acc + byte * shift == HexValue(b[base..base + 2 * (k + 1)]) * Pow256(8 - (k + 1))
  {
    var s := b[base..base + 2 * k];
    assert b[base..base + 2 * (k + 1)] == s + [b[base + 2 * k], b[base + 2 * k + 1]];
    HexValueAppend2(s, b[base + 2 * k], b[base + 2 * k + 1]);
    assert Pow256(8 - k) == 256 * shift;
    ShiftDistrib(HexValue(s), byte, shift);
  }

  lemma ShiftDistrib(h: int, byte: int, p: int)
    ensures h * (256 * p) + byte * p == (h * 256 + byte) * p
  {
  }

  lemma HexValueAppend2(s: seq<nat>, a: nat, b: nat)
    ensures HexValue(s + [a, b]) == HexValue(s) * 256 + a * 16 + b
  {
    var t := s + [a, b];
    assert t[..|t| - 1] == s + [a];
    assert (s + [a])[..|s|] == s;
  }

  /** The string constructor (uuid.h:17-36). The loop over the characters
      fills the nibble buffer with a running index; the second loop ORs each
      byte of the buffer into `hi` and `lo` at its shift. The bytes occupy
      disjoint bit ranges, so the OR is a sum. More than 32 nibbles would
      write past the buffer. */
  method FromString(str: seq<char>) returns (u: UUID)
    requires |Nibbles(str)| <= 32
    ensures u == Parse(str)
  {
    var buf := CollectNibbles(str);
    u := PackNibbles(buf);
  }

  /** First loop of the string constructor: the running index j fills the
      zero-initialised 32-entry buffer. */
  method CollectNibbles(str: seq<char>) returns (buf: array<nat>)
    requires |Nibbles(str)| <= 32
    ensures fresh(buf) && buf[..] == Pad32(Nibbles(str))
  {
    buf := new nat[32](_ => 0);
    var i, j := 0, 0;
    while i < |str| && str[i] != '\0'
      invariant 0 <= i <= CStrLen(str)
      invariant j == |NibblesUpTo(str, i)| <= 32
      invariant buf[..] == Pad32(NibblesUpTo(str, i))
    {
      CollectStep(str, i);
      j := CollectOne(buf, str, i, j);
      i := i + 1;
    }
    CollectDone(str, i);
  }

  /** One character of the first loop: a digit or hexadecimal letter is
      written at the running index j, which then moves on. */
  method CollectOne(buf: array<nat>, str: seq<char>, i: nat, j: nat) returns (next: nat)
    requires buf.Length == 32 && i < |str|
    requires j == |NibblesUpTo(str, i)| && |NibblesUpTo(str, i + 1)| <= 32
    requires buf[..] == Pad32(NibblesUpTo(str, i))
    modifies buf
    ensures next == |NibblesUpTo(str, i + 1)| && buf[..] == Pad32(NibblesUpTo(str, i + 1))
  {
    next := j;
    var nibble := NibbleAt(str, i);
    if nibble.Some? {
      PadPush(NibblesUpTo(str, i), nibble.value);
      buf[j] := nibble.value;
      next := j + 1;
    }
  }

  /** Inside the C string, one more character adds its nibble, if any, and
      the nibbles still fit the buffer. */
  lemma CollectStep(str: seq<char>, i: nat)
    requires i < |str| && str[i] != '\0' && i <= CStrLen(str) && |Nibbles(str)| <= 32
    ensures i < CStrLen(str)
    ensures NibblesUpTo(str, i + 1) ==
      NibblesUpTo(str, i) + (if NibbleAt(str, i).Some? then [NibbleAt(str, i).value] else [])
    ensures |NibblesUpTo(str, i + 1)| <= 32
  {
    NibblesUpToGrow(str, i + 1, CStrLen(str));
  }

  /** The first loop stops at the end of the C string. */
  lemma CollectDone(str: seq<char>, i: nat)
    requires i <= CStrLen(str) && !(i < |str| && str[i] != '\0')
    ensures i == CStrLen(str)
  {
  }

  /** Writing the next nibble into the padded buffer pads the longer list. */
  lemma PadPush(ds: seq<nat>, v: nat)
    requires |ds| < 32 && IsNibbleSeq(ds) && v < 16
    ensures Pad32(ds)[|ds| := v] == Pad32(ds + [v])
  {
  }

  /** Second loop of the string constructor: byte k of each half is OR-ed in
      at shift 56 - 8k. */
  method PackNibbles(buf: array<nat>) returns (u: UUID)
    requires buf.Length == 32 && IsNibbleSeq(buf[..])
    ensures u.hi == HexValue(buf[..16]) && u.lo == HexValue(buf[16..])
  {
    var hi, lo := 0, 0;
    var k := 0;
    while k < 8
      invariant 0 <= k <= 8
      invariant hi == Packed(buf[..], 0, k) && lo == Packed(buf[..], 16, k)
    {
      hi := OrByte(buf, 0, k, hi);
      lo := OrByte(buf, 16, k, lo);
      k := k + 1;
    }
    assert buf[..][0..16] == buf[..16] && buf[..][16..32] == buf[16..];
    HalfBound(buf[..16]);
    HalfBound(buf[16..]);
    u := UUID(hi, lo);
  }

  /** One step of the second loop: byte k of the half starting at base,
      OR-ed in at shift 56 - 8k (a sum, as the bits are still clear). */
  method OrByte(buf: array<nat>, base: nat, k: nat, acc: nat) returns (r: nat)
    requires k < 8 && base + 2 * k + 2 <= buf.Length
    requires acc == Packed(buf[..], base, k)
    ensures r == Packed(buf[..], base, k + 1)
  {
    var shift := Pow256(7 - k);
    var byte := buf[base + 2 * k] * 16 + buf[base + 2 * k + 1];
    PackStep(buf[..], base, k, acc, byte, shift);
    r := acc + byte * shift;
  }

  /** The first k bytes of the half starting at base, each at its shift. */
  function Packed(b: seq<nat>, base: nat, k: nat): nat
    requires k <= 8 && base + 2 * k <= |b|
  {
    HexValue(b[base..base + 2 * k]) * Pow256(8 - k)
  }

  // ------------------------------------------------------------- printing

  function HexChar(d: nat): (c: char)
    requires d < 16
  {
    if d < 10 then ('0' as int + d) as char else ('A' as int + d - 10) as char
  }

  /** Hexadecimal digits of n without leading zeros ("0" for zero), as
      `std::hex` prints them. */
  function HexDigits(n: nat): (ds: seq<nat>)
    ensures 1 <= |ds| && IsNibbleSeq(ds)
  {
    if n < 16 then [n] else HexDigits(n / 16) + [n % 16]
  }

  function HexChars(ds: seq<nat>): (s: string)
    requires IsNibbleSeq(ds)
    ensures |s| == |ds|
  {
    if ds == [] then [] else HexChars(ds[..|ds| - 1]) + [HexChar(ds[|ds| - 1])]
  }

  /** The five groups `to_string` prints (uuid.h:44-48). */
  function Groups(u: UUID): seq<nat>
  {
    [u.hi / 0x1_0000_0000, u.hi / 0x1_0000 % 0x1_0000, u.hi % 0x1_0000,
     u.lo / 0x1_0000_0000_0000, u.lo % 0x1_0000_0000_0000]
  }

  /** `to_string` (uuid.h:38-52): the five groups in upper-case hexadecimal
      without zero padding, separated by '-', inside braces. */
  function ToString(u: UUID): string
  {
    var g := Groups(u);
    Braced(HexDigits(g[0]), HexDigits(g[1]), HexDigits(g[2]), HexDigits(g[3]), HexDigits(g[4]))
  }

  /** Five digit groups, separated by '-', inside braces. */
  function Braced(d0: seq<nat>, d1: seq<nat>, d2: seq<nat>, d3: seq<nat>, d4: seq<nat>): string
    requires IsNibbleSeq(d0) && IsNibbleSeq(d1) && IsNibbleSeq(d2) && IsNibbleSeq(d3) && IsNibbleSeq(d4)
  {
    "{" + HexChars(d0) + "-" + HexChars(d1) + "-" + HexChars(d2) + "-" + HexChars(d3) + "-" + HexChars(d4) + "}"
  }

  /** The nibbles a printed UUID holds, group after group; at most 32. */
  function Printed(u: UUID): (ds: seq<nat>)
    ensures IsNibbleSeq(ds) && |ds| <= 32
  {
    var g := Groups(u);
    Pow16Facts();
    HexDigitsLength(g[0], 8);
    HexDigitsLength(g[1], 4);
    HexDigitsLength(g[2], 4);
    HexDigitsLength(g[3], 4);
    HexDigitsLength(g[4], 12);
    HexDigits(g[0]) + HexDigits(g[1]) + HexDigits(g[2]) + HexDigits(g[3]) + HexDigits(g[4])
  }

  /** All 32 nibbles of the value, with leading zeros. */
  function FullNibbles(u: UUID): (ds: seq<nat>)
    ensures |ds| == 32 && IsNibbleSeq(ds)
  {
    Digits(u.hi, 16) + Digits(u.lo, 16)
  }

  lemma {:induction false} HexDigitsLength(n: nat, w: nat)
    requires w >= 1 && n < Pow16(w)
    ensures |HexDigits(n)| <= w
  {
    if n >= 16 {
      assert w >= 2 by {
        assert Pow16(0) == 1 && Pow16(1) == 16;
      }
      assert Pow16(w) == 16 * Pow16(w - 1);
      assert n / 16 < Pow16(w - 1);
      HexDigitsLength(n / 16, w - 1);
      assert |HexDigits(n)| == |HexDigits(n / 16)| + 1;
    }
  }

  // --------------------------------------------- parsing a printed string

  /** No NUL and no 'I'/'i': the parser then treats every position alike. */
  predicate Plain(s: seq<char>)
  {
    forall i :: 0 <= i < |s| ==> s[i] != '\0' && ToUpper(s[i]) != 'I'
  }

  lemma {:induction false} CStrLenPlain(s: seq<char>)
    requires Plain(s)
    ensures CStrLen(s) == |s|
  {
    if |s| > 0 {
      assert Plain(s[1..]) by {
        forall i | 0 <= i < |s[1..]| ensures s[1..][i] != '\0' && ToUpper(s[1..][i]) != 'I' {
          assert s[1..][i] == s[i + 1];
        }
      }
      CStrLenPlain(s[1..]);
    }
  }

  lemma {:induction false} NibblesUpToPrefix(s: seq<char>, t: seq<char>, n: nat)
    requires n <= |s|
    ensures NibblesUpTo(s + t, n) == NibblesUpTo(s, n)
  {
    if n > 0 {
      NibblesUpToPrefix(s, t, n - 1);
      assert (s + t)[n - 1] == s[n - 1];
      assert n - 1 != 0 ==> (s + t)[n - 2] == s[n - 2];
      assert NibbleAt(s + t, n - 1) == NibbleAt(s, n - 1);
    }
  }

  lemma {:induction false} NibblesUpToConcat(s: seq<char>, t: seq<char>, n: nat)
    requires Plain(s) && n <= |t|
    ensures NibblesUpTo(s + t, |s| + n) == NibblesUpTo(s, |s|) + NibblesUpTo(t, n)
  {
    if n == 0 {
      NibblesUpToPrefix(s, t, |s|);
    } else {
      NibblesUpToConcat(s, t, n - 1);
      var st := s + t;
      var i := |s| + n - 1;
      assert st[i] == t[n - 1];
      if n - 1 == 0 {
        assert i != 0 ==> st[i - 1] == s[|s| - 1] && ToUpper(st[i - 1]) != 'I';
      } else {
        assert st[i - 1] == t[n - 2];
      }
      assert NibbleAt(st, i) == NibbleAt(t, n - 1);
    }
  }

  lemma NibblesConcat(s: seq<char>, t: seq<char>)
    requires Plain(s) && Plain(t)
    ensures Plain(s + t)
    ensures Nibbles(s + t) == Nibbles(s) + Nibbles(t)
  {
    assert Plain(s + t) by {
      forall i | 0 <= i < |s + t| ensures (s + t)[i] != '\0' && ToUpper((s + t)[i]) != 'I' {
        if i < |s| { assert (s + t)[i] == s[i]; } else { assert (s + t)[i] == t[i - |s|]; }
      }
    }
    CStrLenPlain(s);
    CStrLenPlain(t);
    CStrLenPlain(s + t);
    NibblesUpToConcat(s, t, |t|);
  }

  lemma {:induction false} HexCharsPlain(ds: seq<nat>)
    requires IsNibbleSeq(ds)
    ensures Plain(HexChars(ds)) && Nibbles(HexChars(ds)) == ds
  {
    if ds != [] {
      var init := ds[..|ds| - 1];
      HexCharsPlain(init);
      var c := HexChar(ds[|ds| - 1]);
      assert Plain([c]);
      CStrLenPlain([c]);
      assert NibbleAt([c], 0) == Some(ds[|ds| - 1]);
      NibblesConcat(HexChars(init), [c]);
      assert init + [ds[|ds| - 1]] == ds;
    }
  }

  lemma PunctuationPlain(c: char)
    requires c == '{' || c == '-' || c == '}'
    ensures Plain([c]) && Nibbles([c]) == []
  {
    CStrLenPlain([c]);
  }

  /** Appending a plain piece to a plain string appends its nibbles. */
  lemma Step(acc: string, piece: string, before: seq<nat>, digits: seq<nat>)
    requires Plain(acc) && Nibbles(acc) == before
    requires Plain(piece) && Nibbles(piece) == digits
    ensures Plain(acc + piece) && Nibbles(acc + piece) == before + digits
  {
    NibblesConcat(acc, piece);
  }

  /** The parser reads back exactly the printed digits. */
  lemma NibblesOfToString(u: UUID)
    ensures Nibbles(ToString(u)) == Printed(u)
  {
    var g := Groups(u);
    NibblesOfBraced(HexDigits(g[0]), HexDigits(g[1]), HexDigits(g[2]), HexDigits(g[3]), HexDigits(g[4]));
  }

  /** The nibbles of five braced groups are the groups' digits, in order:
      neither the braces nor the dashes are read as digits. */
  lemma NibblesOfBraced(d0: seq<nat>, d1: seq<nat>, d2: seq<nat>, d3: seq<nat>, d4: seq<nat>)
    requires IsNibbleSeq(d0) && IsNibbleSeq(d1) && IsNibbleSeq(d2) && IsNibbleSeq(d3) && IsNibbleSeq(d4)
    ensures Nibbles(Braced(d0, d1, d2, d3, d4)) == d0 + d1 + d2 + d3 + d4
  {
    HexCharsPlain(d0);
    HexCharsPlain(d1);
    HexCharsPlain(d2);
    HexCharsPlain(d3);
    HexCharsPlain(d4);
    PunctuationPlain('{');
    PunctuationPlain('-');
    PunctuationPlain('}');
    var s0 := "{";
    var s1 := s0 + HexChars(d0);
    Step(s0, HexChars(d0), [], d0);
    var s2 := s1 + "-";
    Step(s1, "-", d0, []);
    var s3 := s2 + HexChars(d1);
    Step(s2, HexChars(d1), d0, d1);
    var s4 := s3 + "-";
    Step(s3, "-", d0 + d1, []);
    var s5 := s4 + HexChars(d2);
    Step(s4, HexChars(d2), d0 + d1, d2);
    var s6 := s5 + "-";
    Step(s5, "-", d0 + d1 + d2, []);
    var s7 := s6 + HexChars(d3);
    Step(s6, HexChars(d3), d0 + d1 + d2, d3);
    var s8 := s7 + "-";
    Step(s7, "-", d0 + d1 + d2 + d3, []);
    var s9 := s8 + HexChars(d4);
    Step(s8, HexChars(d4), d0 + d1 + d2 + d3, d4);
    var s10 := s9 + "}";
    Step(s9, "}", d0 + d1 + d2 + d3 + d4, []);
  }

  lemma FromFullNibbles(u: UUID)
    ensures FromNibbles(FullNibbles(u)) == u
  {
    var f := FullNibbles(u);
    assert Pad32(f) == f;
    assert f[..16] == Digits(u.hi, 16) && f[16..] == Digits(u.lo, 16);
    Pow16Facts();
    HexValueOfDigits(u.hi, 16);
    HexValueOfDigits(u.lo, 16);
  }

  /** Printing and parsing back recovers the UUID exactly when the printed
      digits, padded with zeros to 32, are its 32 nibbles. */
  lemma RoundTripIff(u: UUID)
    ensures |Nibbles(ToString(u))| <= 32
    ensures Parse(ToString(u)) == u <==> Pad32(Printed(u)) == FullNibbles(u)
  {
    NibblesOfToString(u);
    var p := Pad32(Printed(u));
    var f := FullNibbles(u);
    FromFullNibbles(u);
    assert Pad32(f) == f;
    if Parse(ToString(u)) == u {
      assert FromNibbles(Printed(u)) == FromNibbles(f);
      HexValueInjective(p[..16], f[..16]);
      HexValueInjective(p[16..], f[16..]);
      assert p == p[..16] + p[16..] && f == f[..16] + f[16..];
    }
  }

  // ------------------------------------------- groups printed at full width

  /** A group whose digits fill its whole width prints as exactly those digits. */
  lemma {:induction false} HexDigitsFullWidth(n: nat, w: nat)
    requires w >= 1 && Pow16(w - 1) <= n < Pow16(w)
    ensures HexDigits(n) == Digits(n, w)
  {
    if w > 1 {
      assert Pow16(w - 1) == 16 * Pow16(w - 2);
      assert Pow16(w) == 16 * Pow16(w - 1);
      assert n >= 16;
      assert Pow16(w - 2) <= n / 16 < Pow16(w - 1);
      HexDigitsFullWidth(n / 16, w - 1);
    } else {
      assert Pow16(1) == 16;
    }
  }

  /** Only the last w digits of n matter to Digits(n, w). */
  lemma {:induction false} DigitsMod(n: nat, w: nat)
    ensures Digits(n % Pow16(w), w) == Digits(n, w)
  {
    if w > 0 {
      var p := Pow16(w - 1);
      assert Pow16(w) == 16 * p;
      var q, r := n / 16, n % 16;
      var bigQ, bigR := q / p, q % p;
      assert n == bigQ * (16 * p) + (16 * bigR + r);
      DivModUnique(n, 16 * p, bigQ, 16 * bigR + r);
      var m := n % Pow16(w);
      assert m == 16 * bigR + r;
      DivModUnique(m, 16, bigR, r);
      DigitsMod(q, w - 1);
    }
  }

  lemma DivDiv16(n: nat, p: nat)
    requires p > 0
    ensures n / 16 / p == n / (16 * p)
  {
    var q, r := n / 16, n % 16;
    var bigQ, bigR := q / p, q % p;
    assert n == bigQ * (16 * p) + (16 * bigR + r);
    DivModUnique(n, 16 * p, bigQ, 16 * bigR + r);
  }

  /** n without its last b hexadecimal digits. */
  function DropDigits(n: nat, b: nat): nat
  {
    if b == 0 then n else DropDigits(n / 16, b - 1)
  }

  lemma {:induction false} DropDigitsIsDiv(n: nat, b: nat)
    ensures DropDigits(n, b) == n / Pow16(b)
  {
    if b > 0 {
      DropDigitsIsDiv(n / 16, b - 1);
      DivDiv16(n, Pow16(b - 1));
    }
  }

  /** The digits of n split into those of n / 16^b and its last b digits. */
  lemma {:induction false} DigitsSplit(n: nat, a: nat, b: nat)
    ensures Digits(n, a + b) == Digits(DropDigits(n, b), a) + Digits(n, b)
  {
    if b > 0 {
      DigitsSplit(n / 16, a, b - 1);
    }
  }

  /** No group of the printed form starts with a zero digit. */
  predicate FullWidth(u: UUID)
  {
    var g := Groups(u);
    g[0] >= Pow16(7) && g[1] >= Pow16(3) && g[2] >= Pow16(3) && g[3] >= Pow16(3) && g[4] >= Pow16(11)
  }

  /** When every group is printed at its full width, parsing the printed
      string gives back the UUID. */
  lemma RoundTripFullWidth(u: UUID)
    requires FullWidth(u)
    ensures |Nibbles(ToString(u))| <= 32 && Parse(ToString(u)) == u
  {
    var g := Groups(u);
    Pow16Facts();
    HexDigitsFullWidth(g[0], 8);
    HexDigitsFullWidth(g[1], 4);
    HexDigitsFullWidth(g[2], 4);
    HexDigitsFullWidth(g[3], 4);
    HexDigitsFullWidth(g[4], 12);
    // hi: digits of g0, then g1, then g2
    DigitsSplit(u.hi, 8, 8);
    DigitsSplit(u.hi, 4, 4);
    DropDigitsIsDiv(u.hi, 8);
    DropDigitsIsDiv(u.hi, 4);
    DropDigitsIsDiv(u.lo, 12);
    DigitsMod(u.hi, 4);
    DigitsMod(u.hi / Pow16(4), 4);
    DivDiv16(u.hi / 0x1000, 4096);
    DivDiv16(u.hi, 0x1000);
    DivDiv16(u.hi, 0x1000_0000);
    assert Digits(u.hi, 16) == Digits(g[0], 8) + Digits(g[1], 4) + Digits(g[2], 4);
    // lo: digits of g3, then g4
    DigitsSplit(u.lo, 4, 12);
    DigitsMod(u.lo, 12);
    assert Digits(u.lo, 16) == Digits(g[3], 4) + Digits(g[4], 12);
    assert Printed(u) == FullNibbles(u);
    RoundTripIff(u);
  }

  lemma {:induction false} ZeroDigits(w: nat)
    ensures forall k :: 0 <= k < w ==> Digits(0, w)[k] == 0
  {
    if w > 0 { ZeroDigits(w - 1); }
  }

  /** A leading zero in a group that is not all zero loses a digit:
      "{0-0-0-0-1}" parses as a different value. */
  lemma RoundTripFailsOnLeadingZero(u: UUID)
    requires u.hi == 0 && u.lo == 1
    ensures |Nibbles(ToString(u))| <= 32
    ensures Parse(ToString(u)) != u
  {
    RoundTripIff(u);
    assert Groups(u) == [0, 0, 0, 0, 1];
    assert Printed(u) == [0, 0, 0, 0, 1];
    assert Pad32(Printed(u))[4] == 1;
    ZeroDigits(16);
    assert FullNibbles(u)[4] == 0;
  }

  /** The empty UUID prints as "{0-0-0-0-0}" and does round-trip, although
      each of its groups has fewer digits than its width. */
  lemma EmptyRoundTrips()
    ensures |Nibbles(ToString(Default()))| <= 32
    ensures Parse(ToString(Default())) == Default()
  {
    var u := Default();
    RoundTripIff(u);
    ZeroDigits(16);
    assert Groups(u) == [0, 0, 0, 0, 0];
    assert Printed(u) == [0, 0, 0, 0, 0];
    assert Pad32(Printed(u)) == FullNibbles(u);
  }
}
