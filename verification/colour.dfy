/**
 * The frame pipeline around the LUT: white-balance multipliers from the
 * temperature/tint sliders, and the per-pixel steps of `process_bgr_u8`
 * (8-bit BGR to float RGB, LUT lookup, scale-and-clamp in place, truncating
 * cast back to 8-bit BGR).
 */
module Colour {
  import opened Wrappers
  import opened Pixel
  import opened Ocio

  // ---------------------------------------------------------------------
  // White balance
  // ---------------------------------------------------------------------

  /**
   * `wb_multipliers_from_temp_tint`: temperature pushes red up and blue down
   * by the same amount, tint pushes green, and all three are divided by their
   * mean. The mean is a Python float, so a zero mean raises ZeroDivisionError:
   * that is the None result.
   */
  function WbMultipliers(temp: real, tint: real, sliderStrength: real := 0.5): (m: Option<RGB>)
    ensures m.Some? <==> tint * sliderStrength != -3.0
    ensures m.Some? ==> (m.value.r + m.value.g + m.value.b) / 3.0 == 1.0
    ensures m.Some? ==> var avg := (3.0 + tint * sliderStrength) / 3.0;
      m.value.r * avg == 1.0 + temp * sliderStrength &&
      m.value.g * avg == 1.0 + tint * sliderStrength &&
      m.value.b * avg == 1.0 - temp * sliderStrength
  {
    var r := 1.0 + temp * sliderStrength;
    var b := 1.0 - temp * sliderStrength;
    var g := 1.0 + tint * sliderStrength;
    var avg := (r + g + b) / 3.0;
    if avg == 0.0 then None
    else
      assert r / avg + g / avg + b / avg == (r + g + b) / avg;
      Some(RGB(r / avg, g / avg, b / avg))
  }

  /** Neutral sliders give unit multipliers. */
  lemma WbNeutral(sliderStrength: real)
    ensures WbMultipliers(0.0, 0.0, sliderStrength) == Some(RGB(1.0, 1.0, 1.0))
  {
  }

  /** With the default strength and sliders in [-1, 1] every multiplier is strictly positive. */
  lemma WbPositive(temp: real, tint: real)
    requires -1.0 <= temp <= 1.0 && -1.0 <= tint <= 1.0
    ensures WbMultipliers(temp, tint).Some?
    ensures var m := WbMultipliers(temp, tint).value; m.r > 0.0 && m.g > 0.0 && m.b > 0.0
  {
    var avg := (3.0 + tint * 0.5) / 3.0;
    assert avg > 0.0;
    PositiveQuotient(1.0 + temp * 0.5, avg);
    PositiveQuotient(1.0 + tint * 0.5, avg);
    PositiveQuotient(1.0 - temp * 0.5, avg);
  }

  lemma PositiveQuotient(x: real, d: real)
    requires x > 0.0 && d > 0.0
    ensures x / d > 0.0
  {
  }

  /** The green multiplier does not depend on temperature: red and blue always sum to 2. */
  lemma WbGreenIgnoresTemp(temp1: real, temp2: real, tint: real, sliderStrength: real)
    ensures WbMultipliers(temp1, tint, sliderStrength).Some? == WbMultipliers(temp2, tint, sliderStrength).Some?
    ensures WbMultipliers(temp1, tint, sliderStrength).Some? ==>
      WbMultipliers(temp1, tint, sliderStrength).value.g == WbMultipliers(temp2, tint, sliderStrength).value.g
  {
  }

  /** For positive strength (and a positive mean) red is at least blue exactly when the temperature is warm. */
  lemma WbWarmth(temp: real, tint: real, sliderStrength: real)
    requires sliderStrength > 0.0 && tint * sliderStrength > -3.0
    ensures var m := WbMultipliers(temp, tint, sliderStrength).value; m.r >= m.b <==> temp >= 0.0
  {
    var r := 1.0 + temp * sliderStrength;
    var b := 1.0 - temp * sliderStrength;
    var avg := (r + (1.0 + tint * sliderStrength) + b) / 3.0;
    assert avg > 0.0;
    QuotientOrder(r, b, avg);
    assert r >= b <==> temp * sliderStrength >= 0.0;
    SignOfProduct(temp, sliderStrength);
  }

  lemma QuotientOrder(x: real, y: real, d: real)
    requires d > 0.0
    ensures x / d >= y / d <==> x >= y
  {
    assert x / d - y / d == (x - y) / d;
  }

  lemma SignOfProduct(x: real, s: real)
    requires s > 0.0
    ensures x * s >= 0.0 <==> x >= 0.0
  {
  }

  // ---------------------------------------------------------------------
  // Per-pixel conversions
  // ---------------------------------------------------------------------

  /** `cvtColor(BGR2RGB).astype(float32) * (1/255)`: channel order reversed, bytes scaled to [0, 1]. */
  function ToUnitRgb(px: Bgr): (c: RGB)
    ensures InUnitCube(c)
    ensures c.r * 255.0 == px.r as real && c.g * 255.0 == px.g as real && c.b * 255.0 == px.b as real
  {
    RGB(px.r as real * (1.0 / 255.0), px.g as real * (1.0 / 255.0), px.b as real * (1.0 / 255.0))
  }

  /** `np.clip(x * 255, 0, 255)` on one channel. */
  function ScaleClamp(x: real): (y: real)
    ensures 0.0 <= y <= 255.0
    ensures 0.0 <= x * 255.0 <= 255.0 ==> y == x * 255.0
    ensures x * 255.0 < 0.0 ==> y == 0.0
    ensures x * 255.0 > 255.0 ==> y == 255.0
  {
    var v := x * 255.0;
    if v < 0.0 then 0.0 else if v > 255.0 then 255.0 else v
  }

  function ScaleClampRgb(c: RGB): RGB {
    RGB(ScaleClamp(c.r), ScaleClamp(c.g), ScaleClamp(c.b))
  }

  /** All three channels lie in [0, 255], as after the clamp. */
  predicate InByteRange(c: RGB) {
    0.0 <= c.r <= 255.0 && 0.0 <= c.g <= 255.0 && 0.0 <= c.b <= 255.0
  }

  /** `astype(np.uint8)` on a clamped value: truncation toward zero, which is floor for x >= 0. */
  function Truncate(x: real): (v: Byte)
    requires 0.0 <= x <= 255.0
    ensures v as real <= x < v as real + 1.0
  {
    x.Floor
  }

  /** `astype(np.uint8)` followed by `cvtColor(RGB2BGR)`. */
  function ToBgr(c: RGB): (px: Bgr)
    requires InByteRange(c)
    ensures px.b as real <= c.b < px.b as real + 1.0
    ensures px.g as real <= c.g < px.g as real + 1.0
    ensures px.r as real <= c.r < px.r as real + 1.0
  {
    Bgr(Truncate(c.b), Truncate(c.g), Truncate(c.r))
  }

  /** The output quantisation of one float pixel: scale, clamp, truncate, reorder to BGR. */
  function Quantize(c: RGB): (px: Bgr)
    ensures px.r as real <= ScaleClamp(c.r) < px.r as real + 1.0
    ensures px.g as real <= ScaleClamp(c.g) < px.g as real + 1.0
    ensures px.b as real <= ScaleClamp(c.b) < px.b as real + 1.0
  {
    ToBgr(ScaleClampRgb(c))
  }

  /** Quantisation truncates: mid-grey 0.5 becomes 127, not 128. */
  lemma QuantizeTruncates()
    ensures Quantize(RGB(0.5, 0.25, 0.75)) == Bgr(191, 63, 127)
  {
    assert (127.5).Floor == 127;
    assert (63.75).Floor == 63;
    assert (191.25).Floor == 191;
  }

  /** Byte to float and back is the identity, in exact arithmetic. */
  lemma ByteRoundTrip(px: Bgr)
    ensures Quantize(ToUnitRgb(px)) == px
  {
    var c := ToUnitRgb(px);
    assert ScaleClampRgb(c) == RGB(px.r as real, px.g as real, px.b as real);
    assert (px.r as real).Floor == px.r;
    assert (px.g as real).Floor == px.g;
    assert (px.b as real).Floor == px.b;
  }

  /** One pixel through `process_bgr_u8` after resizing: to float, LUT lookup, quantise. */
  function ProcessPixel(atlas: seq<seq<RGB>>, remap: Remap, px: Bgr): Bgr {
    var c := ToUnitRgb(px);
    Quantize(remap(atlas, SampleX(Res, c), SampleY(Res, c)))
  }

  /** If the lookup returns its pixel unchanged, the whole pixel path returns the input byte triple. */
  lemma IdentityLookupPreservesPixel(atlas: seq<seq<RGB>>, remap: Remap, px: Bgr)
    requires var c := ToUnitRgb(px); remap(atlas, SampleX(Res, c), SampleY(Res, c)) == c
    ensures ProcessPixel(atlas, remap, px) == px
  {
    ByteRoundTrip(px);
  }

  // ---------------------------------------------------------------------
  // Frame buffers
  // ---------------------------------------------------------------------

  /** The float working copy of an 8-bit frame, in a fresh buffer. */
  method ToFloatFrame(frame: array<Bgr>) returns (rgb: array<RGB>)
    ensures fresh(rgb) && rgb.Length == frame.Length
    ensures forall p :: 0 <= p < frame.Length ==> rgb[p] == ToUnitRgb(frame[p])
  {
    rgb := new RGB[frame.Length](p requires 0 <= p < frame.Length reads frame => ToUnitRgb(frame[p]));
  }

  /** `np.clip(processed * 255.0, 0, 255, out=processed)`: scale and clamp every channel in place. */
  method ScaleClampInPlace(buf: array<RGB>)
    modifies buf
    ensures forall p :: 0 <= p < buf.Length ==> buf[p] == ScaleClampRgb(old(buf[p])) && InByteRange(buf[p])
  {
    var p := 0;
    while p < buf.Length
      invariant 0 <= p <= buf.Length
      invariant forall q :: 0 <= q < p ==> buf[q] == ScaleClampRgb(old(buf[q])) && InByteRange(buf[q])
      invariant forall q :: p <= q < buf.Length ==> buf[q] == old(buf[q])
    {
      buf[p] := ScaleClampRgb(buf[p]);
      p := p + 1;
    }
  }

  /** `processed.astype(np.uint8)` then `cvtColor(RGB2BGR)`, into a fresh 8-bit buffer. */
  method ToByteFrame(buf: array<RGB>) returns (out: array<Bgr>)
    requires forall p :: 0 <= p < buf.Length ==> InByteRange(buf[p])
    ensures fresh(out) && out.Length == buf.Length
    ensures forall p :: 0 <= p < buf.Length ==> out[p] == ToBgr(buf[p])
  {
    out := new Bgr[buf.Length](p requires 0 <= p < buf.Length && InByteRange(buf[p]) reads buf => ToBgr(buf[p]));
  }

  class ColourPipeline {
    /** Output (display) size. */
    const w: nat
    const h: nat
    /** Working size the frame is downsampled to before grading. */
    const cw: nat
    const ch: nat
    const ocio: OcioPipeline

    constructor (workingWidth: nat, workingHeight: nat, width: nat, height: nat, ocioPipe: OcioPipeline)
      ensures w == width && h == height && cw == workingWidth && ch == workingHeight && ocio == ocioPipe
    {
      w, h := width, height;
      ocio := ocioPipe;
      cw, ch := workingWidth, workingHeight;
    }

    /**
     * The per-pixel part of `process_bgr_u8`. `small` is the frame after the
     * resize to the working size and the horizontal flip. The slider values
     * are accepted and, as in the program, not used. Without a baked atlas
     * the lookup fails and no output is produced.
     */
    method ProcessBgrU8(small: array<Bgr>, temp: real, tint: real, gain: real, remap: Remap)
      returns (ok: bool, out: array<Bgr>)
      ensures ok == ocio.lutMap.Some?
      ensures ok ==> fresh(out) && out.Length == small.Length
      ensures ok ==> forall p :: 0 <= p < small.Length ==> out[p] == ProcessPixel(ocio.lutMap.value, remap, small[p])
    {
      var rgb := ToFloatFrame(small);
      ok := ocio.ApplyLut(rgb, remap);
      if !ok {
        out := new Bgr[0];
        return;
      }
      ScaleClampInPlace(rgb);
      out := ToByteFrame(rgb);
    }
  }
}
