/** The 24-bit unsigned integer that numbers notifications, and the freshness order that
    section 3.4 of RFC 7641 puts on such numbers. */
module U24 {
  import opened Wrappers

  const TWO_TO_8: int := 0x100
  const TWO_TO_23: int := 0x80_0000
  const TWO_TO_24: int := 0x100_0000
  const TWO_TO_32: int := 0x1_0000_0000

  type u8 = x: int | 0 <= x < TWO_TO_8
  type u24 = x: int | 0 <= x < TWO_TO_24
  type u32 = x: int | 0 <= x < TWO_TO_32

  const MAX: u24 := 0xff_ffff

  function TryFromU32(value: u32): (r: Option<u24>)
    ensures r.Some? <==> value < TWO_TO_24
    ensures r.Some? ==> r.value == value
  {
    if value > MAX then None else Some(value)
  }

  /** The native 32-bit `wrapping_add`. */
  function WrappingAddU32(a: u32, b: u32): u32 {
    (a + b) % TWO_TO_32
  }

  /** The native 32-bit `wrapping_sub`. */
  function WrappingSubU32(a: u32, b: u32): u32 {
    (a - b) % TWO_TO_32
  }

  /** `value & 0xffffff`: the low 24 bits. */
  function Mask(value: u32): (r: u32)
    ensures r < TWO_TO_24
  {
    value % TWO_TO_24
  }

  /** Addition in the ring of integers modulo 2^24.  The `unwrap` of the source cannot fail. */
  function WrappingAdd(a: u24, b: u24): (r: u24)
    ensures r == if a + b < TWO_TO_24 then a + b else a + b - TWO_TO_24
  {
    TryFromU32(Mask(WrappingAddU32(a, b))).value
  }

  /** Subtraction in the same ring.  The native operation wraps at 2^32, a multiple of 2^24, so
      masking its result still gives the ring's answer. */
  function WrappingSub(a: u24, b: u24): (r: u24)
    ensures r == if b <= a then a - b else a - b + TWO_TO_24
  {
    TryFromU32(Mask(WrappingSubU32(a, b))).value
  }

  function CheckedAdd(a: u24, b: u24): (r: Option<u24>)
    ensures r.Some? <==> a + b < TWO_TO_24
    ensures r.Some? ==> CheckedSub(r.value, b) == Some(a) && WrappingAdd(a, b) == r.value
  {
    // The 32-bit addition underneath cannot overflow: both operands are below 2^24.
    TryFromU32(a + b)
  }

  function CheckedSub(a: u24, b: u24): (r: Option<u24>)
    ensures r.Some? <==> b <= a
    ensures r.Some? ==> WrappingAdd(r.value, b) == a
  {
    if a < b then None else TryFromU32(a - b)
  }

  function FromLeBytes(b0: u8, b1: u8, b2: u8): (r: u24)
    ensures r % 0x100 == b0 && r / 0x100 % 0x100 == b1 && r / 0x1_0000 == b2
  {
    TryFromU32(b0 + 0x100 * b1 + 0x1_0000 * b2).value
  }

  /** Every 24-bit number is the image of exactly one triple of bytes, so three random bytes give
      every registration number. */
  lemma LeBytesCoverEveryNumber(v: u24)
    ensures exists b0: u8, b1: u8, b2: u8 :: FromLeBytes(b0, b1, b2) == v
  {
    var b0: u8 := v % 0x100;
    var b1: u8 := v / 0x100 % 0x100;
    var b2: u8 := v / 0x1_0000;
    assert FromLeBytes(b0, b1, b2) == v;
  }

  /** The number reached from `v` after `k` increments. */
  function Advance(v: u24, k: nat): u24 {
    if k == 0 then v else WrappingAdd(Advance(v, k - 1), 1)
  }

  lemma {:induction false} AdvanceClosedForm(v: u24, k: nat)
    ensures Advance(v, k) == (v + k) % TWO_TO_24
  {
    if k > 0 {
      AdvanceClosedForm(v, k - 1);
      var m := (v + k - 1) % TWO_TO_24;
      assert v + k == TWO_TO_24 * ((v + k - 1) / TWO_TO_24) + m + 1;
      if m + 1 == TWO_TO_24 {
        assert v + k == TWO_TO_24 * ((v + k - 1) / TWO_TO_24 + 1);
        assert (v + k) % TWO_TO_24 == 0;
      } else {
        assert (v + k) % TWO_TO_24 == m + 1;
      }
    }
  }

  lemma {:induction false} AdvanceSplit(v: u24, i: nat, k: nat)
    ensures Advance(v, i + k) == Advance(Advance(v, i), k)
  {
    if k > 0 {
      AdvanceSplit(v, i, k - 1);
    }
  }

  /** Fewer than 2^24 increments wrap at most once. */
  lemma AdvanceShort(v: u24, k: nat)
    requires k < TWO_TO_24
    ensures Advance(v, k) == if v + k < TWO_TO_24 then v + k else v + k - TWO_TO_24
  {
    AdvanceClosedForm(v, k);
  }

  lemma ShortDistance(a: u24, k: nat, b: u24)
    requires 0 < k < TWO_TO_24 && b == if a + k < TWO_TO_24 then a + k else a + k - TWO_TO_24
    ensures a != b && (Newer(a, b) <==> k < TWO_TO_23)
  {
  }

  /** Fewer than 2^24 increments never come back to the number they started from. */
  lemma AdvanceDistinct(v: u24, i: nat, j: nat)
    requires i < j < i + TWO_TO_24
    ensures Advance(v, i) != Advance(v, j)
  {
    AdvanceSplit(v, i, j - i);
    AdvanceShort(Advance(v, i), j - i);
    ShortDistance(Advance(v, i), j - i, Advance(v, j));
  }

  /** Section 3.4 of RFC 7641, without its clause on elapsed time: the notification numbered `v2`
      is more recent than the one numbered `v1`. */
  predicate Newer(v1: u24, v2: u24) {
    || (v1 < v2 && v2 - v1 < TWO_TO_23)
    || (v1 > v2 && v1 - v2 > TWO_TO_23)
  }

  lemma AdvanceNewerFrom(a: u24, k: nat)
    requires 0 < k < TWO_TO_24
    ensures Newer(a, Advance(a, k)) <==> k < TWO_TO_23
  {
    AdvanceShort(a, k);
    ShortDistance(a, k, Advance(a, k));
  }

  /** Within one turn of the counter, the freshness order agrees with the number of increments
      in between exactly when there are fewer than 2^23 of them, wrap-around included. */
  lemma AdvanceNewer(v: u24, i: nat, j: nat)
    requires i <= j < i + TWO_TO_24
    ensures Newer(Advance(v, i), Advance(v, j)) <==> 1 <= j - i < TWO_TO_23
  {
    if i < j {
      AdvanceSplit(v, i, j - i);
      AdvanceNewerFrom(Advance(v, i), j - i);
    }
  }
}
