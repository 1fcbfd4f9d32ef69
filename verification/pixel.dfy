/** Pixel types shared by the LUT pipeline and the frame pipeline. */
module Pixel {
  /** One channel of an 8-bit (uint8) image. */
  type Byte = x: int | 0 <= x < 256

  /** One pixel of a float RGB image: float32 in the program, exact reals here. */
  datatype RGB = RGB(r: real, g: real, b: real)

  /** One pixel of an 8-bit image in OpenCV's blue-green-red storage order. */
  datatype Bgr = Bgr(b: Byte, g: Byte, r: Byte)

  /** All three channels lie in [0, 1]. */
  predicate InUnitCube(c: RGB) {
    0.0 <= c.r <= 1.0 && 0.0 <= c.g <= 1.0 && 0.0 <= c.b <= 1.0
  }

  /** Applies `f` to every pixel of a buffer, position by position. */
  function MapPixels(s: seq<RGB>, f: RGB -> RGB): seq<RGB> {
    seq(|s|, p requires 0 <= p < |s| => f(s[p]))
  }
}
