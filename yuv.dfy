/** The integer Y'CbCr -> RGB conversion of the firmware's colour header (libwebp's
    fixed-point version of the ITU-R BT.601 matrix):
      R = 1.164 (Y-16)                 + 1.596 (V-128)
      G = 1.164 (Y-16) - 0.391 (U-128) - 0.813 (V-128)
      B = 1.164 (Y-16) + 2.018 (U-128)
    computed with 14 fractional bits and clipped to [0, 255], then packed as RGB565. */
module Yuv {
  import opened Bytes

  // The anonymous enum of the header.
  const YUV_FIX: int := 16                 // fixed-point precision for RGB -> YUV
  const YUV_HALF: int := 0x8000            // 1 << (YUV_FIX - 1)
  const YUV_MASK: int := 0xFF_FFFF         // (256 << YUV_FIX) - 1
  const YUV_RANGE_MIN: int := -227         // min value of r/g/b output
  const YUV_RANGE_MAX: int := 256 + 226    // max value of r/g/b output
  const YUV_FIX2: int := 14                // fixed-point precision for YUV -> RGB
  const YUV_HALF2: int := 0x2000           // 1 << (YUV_FIX2 - 1)
  const YUV_MASK2: int := 0x3F_FFFF        // (256 << YUV_FIX2) - 1

  /** 1 << YUV_FIX2: `v >> YUV_FIX2` on a C `int` is floor division by this. */
  const YUV_ONE2: int := 0x4000

  // 14-bit fixed-point BT.601 constants.
  const K_Y_SCALE: int := 19077   // 1.164 = 255 / 219
  const K_V_TO_R: int := 26149    // 1.596 = 255 / 112 * 0.701
  const K_U_TO_G: int := 6419     // 0.391 = 255 / 112 * 0.886 * 0.114 / 0.587
  const K_V_TO_G: int := 13320    // 0.813 = 255 / 112 * 0.701 * 0.299 / 0.587
  const K_U_TO_B: int := 33050    // 2.018 = 255 / 112 * 0.886
  const K_R_CST: int := -K_Y_SCALE * 16 - K_V_TO_R * 128 + YUV_HALF2
  const K_G_CST: int := -K_Y_SCALE * 16 + K_U_TO_G * 128 + K_V_TO_G * 128 + YUV_HALF2
  const K_B_CST: int := -K_Y_SCALE * 16 - K_U_TO_B * 128 + YUV_HALF2

  /** A value of C type `int` (32 bits on the RP2040). */
  predicate IsInt(v: int)
  {
    -0x8000_0000 <= v < 0x8000_0000
  }

  /** VP8Clip8: a 14-bit fixed-point value scaled down to a clipped 8-bit channel.
      `(v & ~YUV_MASK2) == 0` tests that every bit of v's 32-bit two's-complement
      form above bit 21 is clear; `v >> YUV_FIX2` is floor division by 2^14. */
  function Clip8(v: int): (r: Byte)
    requires IsInt(v)
    ensures 0 <= v <= YUV_MASK2 ==> r == v / YUV_ONE2
    ensures v < 0 ==> r == 0
    ensures v > YUV_MASK2 ==> r == 255
  {
    var bits := Wrap32(v);
    var highBits := bits - bits % (YUV_MASK2 + 1);
    if highBits == 0 then v / YUV_ONE2
    else if v < 0 then 0
    else 255
  }

  /** VP8YUVToR. The ensures writes the same value in the factored BT.601 form, with
      K_R_CST multiplied out; what the formula means is stated by the lemmas below
      (monotonicity, grey for neutral chroma, the black and white points). */
  function YuvToR(y: Byte, v: Byte): (r: Byte)
    ensures r == Clip8(K_Y_SCALE * (y - 16) + K_V_TO_R * (v - 128) + YUV_HALF2)
  {
    Clip8(K_Y_SCALE * y + K_V_TO_R * v + K_R_CST)
  }

  /** VP8YUVToG. The ensures writes the same value in the factored BT.601 form, with
      K_G_CST multiplied out; what the formula means is stated by the lemmas below
      (monotonicity, grey for neutral chroma, the black and white points). */
  function YuvToG(y: Byte, u: Byte, v: Byte): (g: Byte)
    ensures g == Clip8(K_Y_SCALE * (y - 16) - K_U_TO_G * (u - 128) - K_V_TO_G * (v - 128) + YUV_HALF2)
  {
    Clip8(K_Y_SCALE * y - K_U_TO_G * u - K_V_TO_G * v + K_G_CST)
  }

  /** VP8YUVToB. The ensures writes the same value in the factored BT.601 form, with
      K_B_CST multiplied out; what the formula means is stated by the lemmas below
      (monotonicity, grey for neutral chroma, the black and white points). */
  function YuvToB(y: Byte, u: Byte): (b: Byte)
    ensures b == Clip8(K_Y_SCALE * (y - 16) + K_U_TO_B * (u - 128) + YUV_HALF2)
  {
    Clip8(K_Y_SCALE * y + K_U_TO_B * u + K_B_CST)
  }

  /** The two bytes VP8YuvToRgb565 stores: rgb[0] and rgb[1]. */
  datatype Rgb565Bytes = Rgb565Bytes(lo: Byte, hi: Byte)

  /** The RGB565 pixel of three 8-bit channels: the top 5 bits of red in bits 11..15,
      the top 6 bits of green in bits 5..10 and the top 5 bits of blue in bits 0..4. */
  function Rgb565(r: Byte, g: Byte, b: Byte): U16
  {
    (r / 8) * 0x800 + (g / 4) * 0x20 + b / 8
  }

  /** The byte packing of VP8YuvToRgb565 with WEBP_SWAP_16BIT_CSP defined:
      rgb[1] = (r & 0xf8) | (g >> 5) and rgb[0] = ((g << 3) & 0xe0) | (b >> 3).
      `(g << 3) & 0xe0` keeps bits 2..4 of g in bits 5..7. The two bytes, read as a
      little-endian uint16_t, are the RGB565 pixel. */
  function Pack565(r: Byte, g: Byte, b: Byte): (rgb: Rgb565Bytes)
    ensures Le16(rgb.lo, rgb.hi) == Rgb565(r, g, b)
  {
    var rg := (r / 8) * 8 + g / 32;
    var gb := ((g / 4) % 8) * 32 + b / 8;
    assert g / 4 == (g / 32) * 8 + (g / 4) % 8;
    Rgb565Bytes(gb, rg)
  }

  /** VP8YuvToRgb565: convert one Y'CbCr sample and store it as an RGB565 pixel. */
  function YuvToRgb565(y: Byte, u: Byte, v: Byte): (rgb: Rgb565Bytes)
    ensures Le16(rgb.lo, rgb.hi) == Rgb565(YuvToR(y, v), YuvToG(y, u, v), YuvToB(y, u))
  {
    Pack565(YuvToR(y, v), YuvToG(y, u, v), YuvToB(y, u))
  }

  /** Clip8 never decreases when its argument grows. */
  lemma Clip8Monotone(a: int, b: int)
    requires IsInt(a) && IsInt(b) && a <= b
    ensures Clip8(a) <= Clip8(b)
  {
  }

  /** Neutral chroma (U = V = 128) gives a grey: R = G = B for every Y. */
  lemma NeutralChromaIsGrey(y: Byte)
    ensures YuvToR(y, 128) == YuvToG(y, 128, 128) == YuvToB(y, 128)
  {
  }

  /** Studio-swing black (Y = 16) and white (Y = 235) map to full-range black and white. */
  lemma BlackAndWhitePoints()
    ensures YuvToR(16, 128) == 0 && YuvToG(16, 128, 128) == 0 && YuvToB(16, 128) == 0
    ensures YuvToR(235, 128) == 255 && YuvToG(235, 128, 128) == 255 && YuvToB(235, 128) == 255
  {
  }

  /** R grows with Y and with V. */
  lemma RedMonotone(y1: Byte, v1: Byte, y2: Byte, v2: Byte)
    requires y1 <= y2 && v1 <= v2
    ensures YuvToR(y1, v1) <= YuvToR(y2, v2)
  {
    Clip8Monotone(K_Y_SCALE * y1 + K_V_TO_R * v1 + K_R_CST, K_Y_SCALE * y2 + K_V_TO_R * v2 + K_R_CST);
  }

  /** G grows with Y and falls as U or V grows. */
  lemma GreenMonotone(y1: Byte, u1: Byte, v1: Byte, y2: Byte, u2: Byte, v2: Byte)
    requires y1 <= y2 && u1 >= u2 && v1 >= v2
    ensures YuvToG(y1, u1, v1) <= YuvToG(y2, u2, v2)
  {
    Clip8Monotone(K_Y_SCALE * y1 - K_U_TO_G * u1 - K_V_TO_G * v1 + K_G_CST,
                  K_Y_SCALE * y2 - K_U_TO_G * u2 - K_V_TO_G * v2 + K_G_CST);
  }

  /** B grows with Y and with U. */
  lemma BlueMonotone(y1: Byte, u1: Byte, y2: Byte, u2: Byte)
    requires y1 <= y2 && u1 <= u2
    ensures YuvToB(y1, u1) <= YuvToB(y2, u2)
  {
    Clip8Monotone(K_Y_SCALE * y1 + K_U_TO_B * u1 + K_B_CST, K_Y_SCALE * y2 + K_U_TO_B * u2 + K_B_CST);
  }

  /** Studio-swing black comes out as the RGB565 pixel 0x0000. */
  lemma BlackRgb565()
    ensures YuvToRgb565(16, 128, 128) == Rgb565Bytes(0x00, 0x00)
  {
    BlackAndWhitePoints();
    var black := YuvToRgb565(16, 128, 128);
    assert Le16(black.lo, black.hi) == 0;
  }

  /** Studio-swing white comes out as the RGB565 pixel 0xFFFF. */
  lemma WhiteRgb565()
    ensures YuvToRgb565(235, 128, 128) == Rgb565Bytes(0xFF, 0xFF)
  {
    BlackAndWhitePoints();
    var white := YuvToRgb565(235, 128, 128);
    assert Le16(white.lo, white.hi) == 0xFFFF;
  }
}
