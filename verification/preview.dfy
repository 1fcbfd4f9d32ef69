/**
 * The two pure helpers of the preview loop: the mapping from trackbar
 * positions to grading parameters, and the decoding of a capture device's
 * FOURCC code into its four characters.
 */
module Preview {
  import opened Pixel
  import opened Arith
  import opened Colour

  // ---------------------------------------------------------------------
  // Trackbars
  // ---------------------------------------------------------------------

  /** Trackbar ranges and the common initial position. */
  const TempMax: nat := 200
  const TintMax: nat := 200
  const GainMax: nat := 400
  const SliderDefault: nat := 100

  datatype Sliders = Sliders(temp: real, tint: real, gain: real)

  /**
   * `read_sliders`: temperature and tint are centred on 100 and scaled to
   * [-1, 1]; gain is scaled so that 100 means unity.
   */
  function ReadSliders(t: int, n: int, g: int): (s: Sliders)
    ensures s.temp * 100.0 + 100.0 == t as real
    ensures s.tint * 100.0 + 100.0 == n as real
    ensures s.gain * 100.0 == g as real
    ensures 0 <= t <= TempMax ==> -1.0 <= s.temp <= 1.0
    ensures 0 <= n <= TintMax ==> -1.0 <= s.tint <= 1.0
    ensures 0 <= g <= GainMax ==> 0.0 <= s.gain <= 4.0
  {
    Sliders((t - 100) as real / 100.0, (n - 100) as real / 100.0, g as real / 100.0)
  }

  /** The initial trackbar positions are the neutral grade. */
  lemma DefaultSlidersNeutral()
    ensures ReadSliders(SliderDefault, SliderDefault, SliderDefault) == Sliders(0.0, 0.0, 1.0)
  {
  }

  /** Moving a trackbar right strictly increases its parameter. */
  lemma ReadSlidersMonotone(t1: int, n1: int, g1: int, t2: int, n2: int, g2: int)
    ensures t1 < t2 ==> ReadSliders(t1, n1, g1).temp < ReadSliders(t2, n2, g2).temp
    ensures n1 < n2 ==> ReadSliders(t1, n1, g1).tint < ReadSliders(t2, n2, g2).tint
    ensures g1 < g2 ==> ReadSliders(t1, n1, g1).gain < ReadSliders(t2, n2, g2).gain
  {
  }

  /** Every trackbar position gives white-balance multipliers that exist and are positive. */
  lemma SlidersGivePositiveWb(t: int, n: int, g: int)
    requires 0 <= t <= TempMax && 0 <= n <= TintMax
    ensures var s := ReadSliders(t, n, g);
      WbMultipliers(s.temp, s.tint).Some? &&
      WbMultipliers(s.temp, s.tint).value.r > 0.0 &&
      WbMultipliers(s.temp, s.tint).value.g > 0.0 &&
      WbMultipliers(s.temp, s.tint).value.b > 0.0
  {
    var s := ReadSliders(t, n, g);
    WbPositive(s.temp, s.tint);
  }

  // ---------------------------------------------------------------------
  // FOURCC
  // ---------------------------------------------------------------------

  const Pow32: int := 0x1_0000_0000

  /** 256 to the power i: shifting right by 8*i bits is division by this. */
  function Pow256(i: nat): (p: nat)
    ensures p > 0
  {
    if i == 0 then 1 else 256 * Pow256(i - 1)
  }

  /**
   * `(v >> 8*i) & 0xFF` on a Python integer: the shift floors and the mask
   * keeps the non-negative low byte, which is Euclidean division and
   * remainder here, also for negative v.
   */
  function ByteAt(v: int, i: nat): (c: Byte)
    ensures i < 4 ==> c == (v % Pow32) / Pow256(i) % 256
  {
    ByteLow32(v, i);
    (v / Pow256(i)) % 256
  }

  /** For the first four bytes only the low 32 bits of v matter. */
  lemma ByteLow32(v: int, i: nat)
    ensures i < 4 ==> (v / Pow256(i)) % 256 == (v % Pow32) / Pow256(i) % 256
  {
    if i == 0 {
      DropHighBytes(v, 1, 16777216);
    } else if i == 1 {
      assert Pow256(i) == 256;
      DropHighBytes(v, 256, 65536);
    } else if i == 2 {
      assert Pow256(i) == 65536;
      DropHighBytes(v, 65536, 256);
    } else if i == 3 {
      assert Pow256(i) == 16777216;
      DropHighBytes(v, 16777216, 1);
    }
  }

  /** Reducing v modulo a multiple of 256*d does not change byte (v / d) % 256. */
  lemma DropHighBytes(v: int, d: int, k: int)
    requires d > 0 && k > 0
    ensures (v / d) % 256 == (v % (k * 256 * d)) / d % 256
  {
    var m := k * 256 * d;
    var q, r := v / m, v % m;
    // v / d == q * k * 256 + r / d: the high part of v is a whole number of d-sized steps
    assert v == (q * k * 256 + r / d) * d + r % d by {
      assert v == q * m + r;
      assert q * m == (q * k * 256) * d;
      assert r == (r / d) * d + r % d;
    }
    DivModRowMajor(d, q * k * 256 + r / d, r % d);
    // ... and a whole number of 256s, which the mask drops
    assert r / d == (r / d / 256) * 256 + r / d % 256;
    DivModRowMajor(256, q * k + r / d / 256, r / d % 256);
  }

  /** Python's `int()` on a float: truncation toward zero. */
  function TruncToInt(x: real): (v: int)
    ensures x >= 0.0 ==> v as real <= x < v as real + 1.0
    ensures x < 0.0 ==> v as real - 1.0 < x <= v as real
  {
    if x >= 0.0 then x.Floor else -((-x).Floor)
  }

  /** The characters of `fourcc_str` for an integer code: its four low bytes, least significant first. */
  function FourccChars(v: int): (s: string)
    ensures |s| == 4
    ensures forall i :: 0 <= i < 4 ==> s[i] as int == ByteAt(v, i)
  {
    seq(4, i requires 0 <= i < 4 => ByteAt(v, i) as char)
  }

  /** `fourcc_str`: the capture property is a float; it is truncated to an integer first. */
  function FourccStr(v: real): (s: string)
    ensures |s| == 4
    ensures forall i :: 0 <= i < 4 ==> s[i] as int == ByteAt(TruncToInt(v), i) && s[i] as int < 256
  {
    FourccChars(TruncToInt(v))
  }

  /** Codes congruent modulo 2^32 print the same four characters. */
  lemma FourccLow32(v: int)
    ensures FourccChars(v) == FourccChars(v % Pow32)
  {
    forall i | 0 <= i < 4
      ensures FourccChars(v)[i] == FourccChars(v % Pow32)[i]
    {
      assert ByteAt(v, i) == (v % Pow32) / Pow256(i) % 256;
      assert (v % Pow32) % Pow32 == v % Pow32;
      assert ByteAt(v % Pow32, i) == (v % Pow32) / Pow256(i) % 256;
    }
  }

  /** Every character of s fits in a byte, as a FOURCC's characters must. */
  predicate ByteChars(s: string) {
    forall i :: 0 <= i < |s| ==> s[i] as int < 256
  }

  /** `VideoWriter_fourcc`: four characters packed little-endian into a 32-bit code. */
  function PackFourcc(s: string): (v: int)
    requires |s| == 4 && ByteChars(s)
    ensures 0 <= v < Pow32
  {
    s[0] as int + 256 * s[1] as int + 65536 * s[2] as int + 16777216 * s[3] as int
  }

  /** Decoding the byte positions of a packed code gives back each byte. */
  lemma UnpackBytes(c0: Byte, c1: Byte, c2: Byte, c3: Byte)
    ensures var v := c0 + 256 * c1 + 65536 * c2 + 16777216 * c3;
      ByteAt(v, 0) == c0 && ByteAt(v, 1) == c1 && ByteAt(v, 2) == c2 && ByteAt(v, 3) == c3
  {
    var v := c0 + 256 * c1 + 65536 * c2 + 16777216 * c3;
    assert Pow256(1) == 256;
    assert Pow256(2) == 65536;
    assert Pow256(3) == 16777216;
    DivModRowMajor(256, c1 + 256 * c2 + 65536 * c3, c0);
    DivModRowMajor(65536, c2 + 256 * c3, 256 * c1 + c0);
    DivModRowMajor(16777216, c3, 65536 * c2 + 256 * c1 + c0);
    DivModRowMajor(256, c2 + 256 * c3, c1);
    DivModRowMajor(256, c3, c2);
    DivModRowMajor(256, 0, c3);
  }

  /** Packing then printing gives back the four characters. */
  lemma FourccRoundTrip(s: string)
    requires |s| == 4 && ByteChars(s)
    ensures FourccChars(PackFourcc(s)) == s
  {
    UnpackBytes(s[0] as int, s[1] as int, s[2] as int, s[3] as int);
  }

  /** Printing then packing gives back every 32-bit code. */
  lemma FourccPackInverse(v: int)
    requires 0 <= v < Pow32
    ensures ByteChars(FourccChars(v)) && PackFourcc(FourccChars(v)) == v
  {
    var s := FourccChars(v);
    assert Pow256(1) == 256 && Pow256(2) == 65536 && Pow256(3) == 16777216;
    var w1, c0 := v / 256, v % 256;
    var w2, c1 := w1 / 256, w1 % 256;
    var w3, c2 := w2 / 256, w2 % 256;
    // the quotients by 65536 and 16777216 are the repeated quotients by 256
    DivModRowMajor(65536, w2, 256 * c1 + c0);
    DivModRowMajor(16777216, w3, 65536 * c2 + 256 * c1 + c0);
    DivModRowMajor(256, 0, w3);
    assert s[0] as int == c0 && s[1] as int == c1 && s[2] as int == c2 && s[3] as int == w3;
  }

  /** The code the preview requests, read back as a float, prints as "MJPG". */
  lemma MjpgRoundTrip()
    ensures PackFourcc("MJPG") == 1196444237
    ensures FourccStr(1196444237.0) == "MJPG"
  {
    FourccRoundTrip("MJPG");
    assert TruncToInt(1196444237.0) == 1196444237;
  }
}
