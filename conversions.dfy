/** The conversions of raw sensor and battery readings into report units
    (main.c:87-89), written with exact integer arithmetic. */
module Conversions {
  import opened CTypes

  /** Integer division truncating toward zero, as C's conversion of a float
      quotient to an integer type does (Dafny's own `/` is Euclidean). */
  function TruncDiv(a: int, d: int): (q: int)
    requires d > 0
    ensures a >= 0 ==> d * q <= a < d * q + d
    ensures a < 0 ==> d * q - d < a <= d * q
  {
    if a >= 0 then a / d else -((-a) / d)
  }

  /** The value of `(float)t / 8.0F + 0.5F` truncated toward zero. For every
      `s16` t the float expression is exact: t/8 + 1/2 is a multiple of 1/8 of
      magnitude at most 4096.5, which a single-precision mantissa holds. */
  function TemperatureValue(t: s16): int
  {
    TruncDiv(t + 4, 8)
  }

  /** The cast `(s8)` of a float is defined in C only when the truncated value
      is representable in `s8`. */
  predicate TemperatureFits(t: s16)
  {
    -0x80 <= TemperatureValue(t) < 0x80
  }

  /** main.c:87. A raw reading in 1/8 degree units becomes whole degrees:
      rounded half up when t >= -4, and truncated toward zero (so rounded up,
      never down) below that, because `+ 0.5F` is applied before a cast that
      truncates toward zero. */
  function Temperature(t: s16): (r: s8)
    requires TemperatureFits(t)
    ensures t >= -4 ==> 8 * r - 4 <= t < 8 * r + 4
    ensures t < -4 ==> 8 * r - 12 < t <= 8 * r - 4
  {
    TemperatureValue(t)
  }

  /** main.c:88. `(u8)(h / 2)`: the raw humidity in 1/2 %RH units halved and
      reduced modulo 256; r is the unique byte with h - 2r congruent to the
      discarded half unit modulo 512. */
  function Humidity(h: u16): (r: u8)
    ensures (h - 2 * r) % 0x200 == h % 2
    ensures h - 2 * r >= 0
  {
    ToU8(h / 2)
  }

  /** main.c:89. `(u8)(b / 100)`: the raw battery reading divided by 100 and
      reduced modulo 256; r is the unique byte with b - 100r congruent to a
      remainder below 100 modulo 25600. */
  function Battery(b: u16): (r: u8)
    ensures (b - 100 * r) % 25600 == b % 100
    ensures b - 100 * r >= 0
  {
    ToU8(b / 100)
  }

  /** The readings for which the `s8` cast is defined are exactly raw values
      -1035..1019, about -129.4 to 127.4 degrees. */
  lemma TemperatureFitsRange(t: s16)
    ensures TemperatureFits(t) <==> -1035 <= t <= 1019
  {
    if t >= -4 {
      assert 8 * TemperatureValue(t) <= t + 4 < 8 * TemperatureValue(t) + 8;
    } else {
      assert 8 * TemperatureValue(t) - 8 < t + 4 <= 8 * TemperatureValue(t);
    }
  }

  /** Round half up (`floor((t + 4) / 8)`), which Dafny's Euclidean division
      computes directly. */
  function RoundHalfUp(t: s16): int
  {
    (t + 4) / 8
  }

  /** The conversion agrees with rounding half up exactly when t >= -4 or
      t + 4 is a multiple of 8; raw -5 (-0.625 degrees) is reported as 0,
      where rounding half up gives -1. */
  lemma TemperatureVersusRounding(t: s16)
    requires TemperatureFits(t)
    ensures Temperature(t) == RoundHalfUp(t) <==> t >= -4 || (t + 4) % 8 == 0
    ensures !(t >= -4 || (t + 4) % 8 == 0) ==> Temperature(t) == RoundHalfUp(t) + 1
  {
  }

  /** For physically meaningful humidity (h <= 511, i.e. at most 255.5 %RH) the
      byte cast loses nothing: the result is h / 2 rounded down. */
  lemma HumidityExact(h: u16)
    requires h < 0x200
    ensures 2 * Humidity(h) <= h < 2 * Humidity(h) + 2
  {
  }

  /** For readings below 25600 the byte cast loses nothing: the result is
      b / 100 rounded down. */
  lemma BatteryExact(b: u16)
    requires b < 25600
    ensures 100 * Battery(b) <= b < 100 * Battery(b) + 100
  {
  }
}
