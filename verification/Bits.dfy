/** Bit arithmetic on 64-bit words: the power-of-two rounding of internal/timerwheel.go. */
module Bits {

  /** Copy the highest one bit into every position below it. */
  function Smear(y: bv64): bv64 {
    var a := y | (y >> 1);
    var b := a | (a >> 2);
    var c := b | (b >> 4);
    var d := c | (c >> 8);
    var e := d | (d >> 16);
    e | (e >> 32)
  }

  function Next2Power(x: bv64): bv64 {
    Smear(x - 1) + 1
  }

  lemma PowerNonzero(x: bv64)
    requires 1 <= x <= 0x8000_0000_0000_0000
    ensures Next2Power(x) != 0
  {
  }

  lemma PowerSingle(x: bv64)
    ensures Next2Power(x) & (Next2Power(x) - 1) == 0
  {
  }

  lemma SmearAbove(y: bv64)
    requires y < 0x8000_0000_0000_0000
    ensures y + 1 <= Smear(y) + 1
  {
  }

  lemma PowerAbove(x: bv64)
    requires 1 <= x <= 0x8000_0000_0000_0000
    ensures x <= Next2Power(x)
  {
    SmearAbove(x - 1);
  }

  /** The highest one bit of y is the half of the power above it. */
  lemma HalfIsBit(y: bv64)
    requires 0 < y < 0x8000_0000_0000_0000
    ensures ((Smear(y) + 1) >> 1) & !y == 0
  {
  }

  lemma HalfSingle(p: bv64)
    requires p & (p - 1) == 0
    ensures (p >> 1) & ((p >> 1) - 1) == 0
  {
  }

  lemma BitBelow(y: bv64, h: bv64)
    requires h & !y == 0 && y < 0x8000_0000_0000_0000 && h & (h - 1) == 0
    ensures h < y + 1
  {
  }

  lemma HalfBelow(y: bv64, p: bv64)
    requires y < 0x8000_0000_0000_0000 && p & (p - 1) == 0 && (p >> 1) & !y == 0
    ensures p >> 1 < y + 1
  {
    HalfSingle(p);
    BitBelow(y, p >> 1);
  }

  lemma Single(y: bv64)
    ensures (Smear(y) + 1) & ((Smear(y) + 1) - 1) == 0
  {
  }

  lemma SmearClose(y: bv64)
    requires 0 < y < 0x8000_0000_0000_0000
    ensures (Smear(y) + 1) >> 1 < y + 1
  {
    HalfIsBit(y);
    Single(y);
    HalfBelow(y, Smear(y) + 1);
  }

  lemma Predecessor(x: bv64) returns (y: bv64)
    requires 1 < x <= 0x8000_0000_0000_0000
    ensures 0 < y < 0x8000_0000_0000_0000 && x - 1 == y && y + 1 == x
  {
    y := x - 1;
  }

  lemma PowerClose(x: bv64)
    requires 1 < x <= 0x8000_0000_0000_0000
    ensures Next2Power(x) >> 1 < x
  {
    var y := Predecessor(x);
    SmearClose(y);
  }

  /** `p` is the least power of two not below x: a single one bit, not below x, and its half is. */
  predicate LeastPower(x: bv64, p: bv64) {
    p != 0 && p & (p - 1) == 0 && x <= p && (x > 1 ==> p >> 1 < x)
  }

  /** For every size from 1 to 2^63, next2Power returns the least power of two not below it. */
  lemma Next2PowerIsLeast(x: bv64)
    requires 1 <= x <= 0x8000_0000_0000_0000
    ensures LeastPower(x, Next2Power(x))
  {
    PowerNonzero(x);
    PowerSingle(x);
    PowerAbove(x);
    if x > 1 {
      PowerClose(x);
    }
  }

  /** The spans of the timer wheel: a second, a minute, an hour and a day in nanoseconds, rounded up. */
  lemma WheelSpans()
    ensures Next2Power(1_000_000_000) == 0x4000_0000
    ensures Next2Power(60_000_000_000) == 0x10_0000_0000
    ensures Next2Power(3_600_000_000_000) == 0x400_0000_0000
    ensures Next2Power(86_400_000_000_000) == 0x8000_0000_0000
  {
  }
}
