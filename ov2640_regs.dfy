/** The OV2640 register tables and bit-field encoders of the sensor header: the
    `VAL_SET` family of macros that spread a size or a setting over register fields,
    the (register, value) command lists that are written to the sensor over SCCB, and
    the table of supported window sizes.

    Register values are `bv8` as the sensor stores them. The macros compute on C `int`
    and are modelled on `bv32`; a result is stored into the `uint8_t` value of a
    command, which keeps its low byte. */
module Ov2640Regs {

  /** One entry of a register list: write `value` to register `reg`. */
  datatype Command = Command(reg: bv8, value: bv8)

  /** The sentinel that ends every register list. A BANK_SEL write `{0xff, v}` with
      v != 0xff is an ordinary entry. */
  const ENDMARKER: Command := Command(0xFF, 0xFF)

  /** An entry of a register list other than its sentinel. */
  type Entry = c: Command | c != ENDMARKER witness Command(0x00, 0x00)

  /** A register list as stored: its entries followed by ENDMARKER. */
  function Terminated(body: seq<Entry>): (t: seq<Command>)
    ensures |t| == |body| + 1 && t[|body|] == ENDMARKER
    ensures t[..|body|] == body
    ensures forall i :: 0 <= i < |body| ==> t[i] != ENDMARKER
  {
    body + [ENDMARKER]
  }

  // ---------------------------------------------------------------------------
  // Pixel formats and window sizes

  /** pixformat_t */
  datatype PixFormat = Rgb565 | Yuv422 | Yuv420 | Grayscale | Jpeg | Rgb888 | Raw | Rgb444 | Rgb555

  const QCIF_WIDTH: bv32 := 176
  const QCIF_HEIGHT: bv32 := 144
  const QVGA_WIDTH: bv32 := 320
  const QVGA_HEIGHT: bv32 := 240
  const CIF_WIDTH: bv32 := 352
  const CIF_HEIGHT: bv32 := 288
  const VGA_WIDTH: bv32 := 640
  const VGA_HEIGHT: bv32 := 480
  const SVGA_WIDTH: bv32 := 800
  const SVGA_HEIGHT: bv32 := 600
  const XGA_WIDTH: bv32 := 1024
  const XGA_HEIGHT: bv32 := 768
  const SXGA_WIDTH: bv32 := 1280
  const SXGA_HEIGHT: bv32 := 1024
  const UXGA_WIDTH: bv32 := 1600
  const UXGA_HEIGHT: bv32 := 1200

  // ---------------------------------------------------------------------------
  // DSP registers (BANK_SEL == BANK_SEL_DSP)

  const R_BYPASS: bv8 := 0x05
  const R_BYPASS_USE_DSP: bv8 := 0x00
  const CTRLI: bv8 := 0x50
  const CTRLI_LP_DP: bv8 := 0x80
  const HSIZE: bv8 := 0x51
  const VSIZE: bv8 := 0x52
  const XOFFL: bv8 := 0x53
  const YOFFL: bv8 := 0x54
  const VHYX: bv8 := 0x55
  const TEST: bv8 := 0x57
  const ZMOW: bv8 := 0x5A
  const ZMOH: bv8 := 0x5B
  const ZMHH: bv8 := 0x5C
  const BPADDR: bv8 := 0x7C
  const BPDATA: bv8 := 0x7D
  const CTRL2: bv8 := 0x86
  const CTRL2_DCW_EN: bv8 := 0x20
  const CTRL2_SDE_EN: bv8 := 0x10
  const CTRL2_UV_ADJ_EN: bv8 := 0x08
  const CTRL2_UV_AVG_EN: bv8 := 0x04
  const CTRL2_CMX_EN: bv8 := 0x01
  const CTRL3: bv8 := 0x87
  const CTRL3_BPC_EN: bv8 := 0x80
  const CTRL3_WPC_EN: bv8 := 0x40
  const SIZEL: bv8 := 0x8C
  const HSIZE8: bv8 := 0xC0
  const VSIZE8: bv8 := 0xC1
  const CTRL0: bv8 := 0xC2
  const CTRL0_YUV422: bv8 := 0x08
  const CTRL0_YUV_EN: bv8 := 0x04
  const CTRL0_RGB_EN: bv8 := 0x02
  const R_DVP_SP: bv8 := 0xD3
  const R_DVP_SP_AUTO_MODE: bv8 := 0x80
  const IMAGE_MODE: bv8 := 0xDA
  const IMAGE_MODE_JPEG_EN: bv8 := 0x10
  const IMAGE_MODE_YUV422: bv8 := 0x00
  const IMAGE_MODE_RGB565: bv8 := 0x08
  const IMAGE_MODE_HREF_VSYNC: bv8 := 0x02
  const IMAGE_MODE_LBYTE_FIRST: bv8 := 0x01
  const RESET: bv8 := 0xE0
  const RESET_JPEG: bv8 := 0x10
  const RESET_DVP: bv8 := 0x04
  const MC_BIST: bv8 := 0xF9
  const MC_BIST_RESET: bv8 := 0x80
  const MC_BIST_BOOT_ROM_SEL: bv8 := 0x40
  const BANK_SEL: bv8 := 0xFF
  const BANK_SEL_DSP: bv8 := 0x00
  const BANK_SEL_SENS: bv8 := 0x01

  // ---------------------------------------------------------------------------
  // Sensor registers (BANK_SEL == BANK_SEL_SENS)

  const REG04: bv8 := 0x04
  const REG04_DEF: bv8 := 0x20
  const REG04_HREF_EN: bv8 := 0x08
  const COM2: bv8 := 0x09
  const COM3: bv8 := 0x0C
  const COM3_BAND_AUTO: bv8 := 0x02
  const CLKRC: bv8 := 0x11
  const COM7: bv8 := 0x12
  const COM7_RES_UXGA: bv8 := 0x00
  const COM7_ZOOM_EN: bv8 := 0x04
  const COM8: bv8 := 0x13
  const COM8_DEF: bv8 := 0xC0
  const COM8_BNDF_EN: bv8 := 0x20
  const COM8_AGC_EN: bv8 := 0x04
  const COM8_AEC_EN: bv8 := 0x01
  const COM9: bv8 := 0x14
  const COM9_AGC_GAIN_8x: bv8 := 0x40
  const AEW: bv8 := 0x24
  const AEB: bv8 := 0x25
  const VV: bv8 := 0x26
  const ARCOM2: bv8 := 0x34
  const FLL: bv8 := 0x46
  const COM25: bv8 := 0x4E
  const BD50: bv8 := 0x4F
  const BD60: bv8 := 0x50
  const REG5A: bv8 := 0x5A
  const REG5D: bv8 := 0x5D
  const REG5E: bv8 := 0x5E
  const REG5F: bv8 := 0x5F
  const REG60: bv8 := 0x60
  const HISTO_LOW: bv8 := 0x61
  const HISTO_HIGH: bv8 := 0x62

  // ---------------------------------------------------------------------------
  // Bit-field encoders

  /** VAL_SET(x, mask, rshift, lshift): the field of x that starts at bit rshift,
      masked and moved up to bit lshift. */
  function ValSet(x: bv32, mask: bv32, rshift: bv32, lshift: bv32): bv32
    requires rshift < 32 && lshift < 32
  {
    ((x >> rshift) & mask) << lshift
  }

  /** The conversion of a C `int` to the `uint8_t` value of a command. */
  function ToU8(x: bv32): bv8
  {
    (x & 0xFF) as bv8
  }

  /** A k-bit mask places the field below bit k + lshift and clears the lshift bits
      under it. */
  lemma ValSetField(x: bv32, k: bv32, rshift: bv32, lshift: bv32)
    requires rshift < 32 && lshift < 32 && k < 32 && k + lshift < 32
    ensures ValSet(x, ((1 as bv32) << k) - 1, rshift, lshift) < (1 as bv32) << (k + lshift)
    ensures ValSet(x, ((1 as bv32) << k) - 1, rshift, lshift) & (((1 as bv32) << lshift) - 1) == 0
  {
  }

  function CtrliVDivSet(x: bv32): bv8 { ToU8(ValSet(x, 0x3, 0, 3)) }
  function CtrliHDivSet(x: bv32): bv8 { ToU8(ValSet(x, 0x3, 0, 0)) }
  function HsizeSet(x: bv32): bv8 { ToU8(ValSet(x, 0xFF, 2, 0)) }
  function VsizeSet(x: bv32): bv8 { ToU8(ValSet(x, 0xFF, 2, 0)) }
  function XofflSet(x: bv32): bv8 { ToU8(ValSet(x, 0xFF, 0, 0)) }
  function YofflSet(x: bv32): bv8 { ToU8(ValSet(x, 0xFF, 0, 0)) }
  function VhyxVsizeSet(x: bv32): bv8 { ToU8(ValSet(x, 0x1, 8 + 2, 7)) }
  function VhyxHsizeSet(x: bv32): bv8 { ToU8(ValSet(x, 0x1, 8 + 2, 3)) }
  function VhyxYoffSet(x: bv32): bv8 { ToU8(ValSet(x, 0x3, 8, 4)) }
  function VhyxXoffSet(x: bv32): bv8 { ToU8(ValSet(x, 0x3, 8, 0)) }
  function TestHsizeSet(x: bv32): bv8 { ToU8(ValSet(x, 0x1, 9 + 2, 7)) }
  function ZmowOutwSet(x: bv32): bv8 { ToU8(ValSet(x, 0xFF, 2, 0)) }
  function ZmohOuthSet(x: bv32): bv8 { ToU8(ValSet(x, 0xFF, 2, 0)) }
  function ZmhhZspeedSet(x: bv32): bv8 { ToU8(ValSet(x, 0x0F, 0, 4)) }
  function ZmhhOuthSet(x: bv32): bv8 { ToU8(ValSet(x, 0x1, 8 + 2, 2)) }
  function ZmhhOutwSet(x: bv32): bv8 { ToU8(ValSet(x, 0x3, 8 + 2, 0)) }
  function SizelHsize811Set(x: bv32): bv8 { ToU8(ValSet(x, 0x1, 11, 6)) }
  function SizelHsize8Set(x: bv32): bv8 { ToU8(ValSet(x, 0x7, 0, 3)) }
  function SizelVsize8Set(x: bv32): bv8 { ToU8(ValSet(x, 0x7, 0, 0)) }
  function Hsize8Set(x: bv32): bv8 { ToU8(ValSet(x, 0xFF, 3, 0)) }
  function Vsize8Set(x: bv32): bv8 { ToU8(ValSet(x, 0xFF, 3, 0)) }
  function Reg04AecSet(x: bv32): bv8 { ToU8(ValSet(x, 0x3, 0, 0)) }
  function VvHighThSet(x: bv32): bv8 { ToU8(ValSet(x, 0xF, 0, 4)) }
  function VvLowThSet(x: bv32): bv8 { ToU8(ValSet(x, 0xF, 0, 0)) }
  function Com25Bd50AecMsbsSet(x: bv32): bv8 { ToU8(ValSet(x, 0x3, 8, 6)) }
  function Com25Bd60AecMsbsSet(x: bv32): bv8 { ToU8(ValSet(x, 0x3, 8, 4)) }
  function Bd50AecLsbsSet(x: bv32): bv8 { ToU8(ValSet(x, 0xFF, 0, 0)) }
  function Bd60AecLsbsSet(x: bv32): bv8 { ToU8(ValSet(x, 0xFF, 0, 0)) }
  function Bd50MaxAecStepSet(x: bv32): bv8 { ToU8(ValSet(x - 1, 0x0F, 0, 4)) }
  function Bd60MaxAecStepSet(x: bv32): bv8 { ToU8(ValSet(x - 1, 0x0F, 0, 0)) }

  /** COM2_OCAP_Nx_SET(N): output drive capability N x, for N = 1 .. 4. */
  function Com2OcapNxSet(n: bv32): bv8 { ToU8((n - 1) & 0x03) }

  /** CLKRC_DIV_SET(x): internal clock XVCLK / x. */
  function ClkrcDivSet(x: bv32): bv8 { ToU8((x - 1) & 0x1F) }

  // ov2640_init_regs, lines 314-327
  const INIT_REGS_HEAD_1: seq<Entry> := [
    Command(BANK_SEL, BANK_SEL_DSP), Command(0x2c, 0xff), Command(0x2e, 0xdf),
    Command(BANK_SEL, BANK_SEL_SENS), Command(0x3c, 0x32), Command(CLKRC, 0x00),
    Command(COM2, Com2OcapNxSet(3)), Command(REG04, REG04_DEF | REG04_HREF_EN),
    Command(COM8, COM8_DEF | COM8_BNDF_EN | COM8_AGC_EN | COM8_AEC_EN),
    Command(COM9, COM9_AGC_GAIN_8x | 0x08), Command(0x2c, 0x0c), Command(0x33, 0x78),
    Command(0x3a, 0x33), Command(0x3b, 0xfb)
  ]

  // ov2640_init_regs, lines 328-341
  const INIT_REGS_HEAD_2: seq<Entry> := [
    Command(0x3e, 0x00), Command(0x43, 0x11), Command(0x16, 0x10), Command(0x39, 0x02),
    Command(0x35, 0x88), Command(0x22, 0x0a), Command(0x37, 0x40), Command(0x23, 0x00),
    Command(ARCOM2, 0xc0), Command(0x06, 0x88), Command(0x07, 0xc0), Command(0x0d, 0x87),
    Command(0x0e, 0x41), Command(0x4c, 0x00)
  ]

  // ov2640_init_regs, lines 342-355
  const INIT_REGS_HEAD_3: seq<Entry> := [
    Command(0x4a, 0x81), Command(0x21, 0x99), Command(AEW, 0x40), Command(AEB, 0x38),
    Command(VV, VvHighThSet(0x08) | VvLowThSet(0x02)), Command(0x5c, 0x00), Command(0x63, 0x00),
    Command(FLL, 0x22), Command(COM3, 0x38 | COM3_BAND_AUTO), Command(REG5D, 0x55),
    Command(REG5E, 0x7d), Command(REG5F, 0x7d), Command(REG60, 0x55), Command(HISTO_LOW, 0x70)
  ]

  // ov2640_init_regs, lines 356-367
  const INIT_REGS_HEAD_4: seq<Entry> := [
    Command(HISTO_HIGH, 0x80), Command(0x7c, 0x05), Command(0x20, 0x80), Command(0x28, 0x30),
    Command(0x6c, 0x00), Command(0x6d, 0x80), Command(0x6e, 0x00), Command(0x70, 0x02),
    Command(0x71, 0x94), Command(0x73, 0xc1), Command(0x3d, 0x34),
    Command(COM7, COM7_RES_UXGA | COM7_ZOOM_EN)
  ]

  /** The banding entries of ov2640_init_regs. */
  const INIT_REGS_BANDING: seq<Entry> := [
    Command(REG5A, Bd50MaxAecStepSet(6) | Bd60MaxAecStepSet(8)),
    Command(COM25, Com25Bd50AecMsbsSet(0x0bb) | Com25Bd60AecMsbsSet(0x09c)),
    Command(BD50, Bd50AecLsbsSet(0x0bb)), Command(BD60, Bd60AecLsbsSet(0x09c))
  ]

  // ov2640_init_regs, lines 372-385
  const INIT_REGS_TAIL_1: seq<Entry> := [
    Command(BANK_SEL, BANK_SEL_DSP), Command(0xe5, 0x7f),
    Command(MC_BIST, MC_BIST_RESET | MC_BIST_BOOT_ROM_SEL), Command(0x41, 0x24),
    Command(RESET, RESET_JPEG | RESET_DVP), Command(0x76, 0xff), Command(0x33, 0xa0),
    Command(0x42, 0x20), Command(0x43, 0x18), Command(0x4c, 0x00),
    Command(CTRL3, CTRL3_BPC_EN | CTRL3_WPC_EN | 0x10), Command(0x88, 0x3f), Command(0xd7, 0x03),
    Command(0xd9, 0x10)
  ]

  // ov2640_init_regs, lines 386-399
  const INIT_REGS_TAIL_2: seq<Entry> := [
    Command(R_DVP_SP, R_DVP_SP_AUTO_MODE | 0x2), Command(0xc8, 0x08), Command(0xc9, 0x80),
    Command(BPADDR, 0x00), Command(BPDATA, 0x00), Command(BPADDR, 0x03), Command(BPDATA, 0x48),
    Command(BPDATA, 0x48), Command(BPADDR, 0x08), Command(BPDATA, 0x20), Command(BPDATA, 0x10),
    Command(BPDATA, 0x0e), Command(0x90, 0x00), Command(0x91, 0x0e)
  ]

  // ov2640_init_regs, lines 400-413
  const INIT_REGS_TAIL_3: seq<Entry> := [
    Command(0x91, 0x1a), Command(0x91, 0x31), Command(0x91, 0x5a), Command(0x91, 0x69),
    Command(0x91, 0x75), Command(0x91, 0x7e), Command(0x91, 0x88), Command(0x91, 0x8f),
    Command(0x91, 0x96), Command(0x91, 0xa3), Command(0x91, 0xaf), Command(0x91, 0xc4),
    Command(0x91, 0xd7), Command(0x91, 0xe8)
  ]

  // ov2640_init_regs, lines 414-427
  const INIT_REGS_TAIL_4: seq<Entry> := [
    Command(0x91, 0x20), Command(0x92, 0x00), Command(0x93, 0x06), Command(0x93, 0xe3),
    Command(0x93, 0x03), Command(0x93, 0x03), Command(0x93, 0x00), Command(0x93, 0x02),
    Command(0x93, 0x00), Command(0x93, 0x00), Command(0x93, 0x00), Command(0x93, 0x00),
    Command(0x93, 0x00), Command(0x93, 0x00)
  ]

  // ov2640_init_regs, lines 428-441
  const INIT_REGS_TAIL_5: seq<Entry> := [
    Command(0x93, 0x00), Command(0x96, 0x00), Command(0x97, 0x08), Command(0x97, 0x19),
    Command(0x97, 0x02), Command(0x97, 0x0c), Command(0x97, 0x24), Command(0x97, 0x30),
    Command(0x97, 0x28), Command(0x97, 0x26), Command(0x97, 0x02), Command(0x97, 0x98),
    Command(0x97, 0x80), Command(0x97, 0x00)
  ]

  // ov2640_init_regs, lines 442-455
  const INIT_REGS_TAIL_6: seq<Entry> := [
    Command(0x97, 0x00), Command(0xa4, 0x00), Command(0xa8, 0x00), Command(0xc5, 0x11),
    Command(0xc6, 0x51), Command(0xbf, 0x80), Command(0xc7, 0x10), Command(0xb6, 0x66),
    Command(0xb8, 0xA5), Command(0xb7, 0x64), Command(0xb9, 0x7C), Command(0xb3, 0xaf),
    Command(0xb4, 0x97), Command(0xb5, 0xFF)
  ]

  // ov2640_init_regs, lines 456-469
  const INIT_REGS_TAIL_7: seq<Entry> := [
    Command(0xb0, 0xC5), Command(0xb1, 0x94), Command(0xb2, 0x0f), Command(0xc4, 0x5c),
    Command(0xa6, 0x00), Command(0xa7, 0x20), Command(0xa7, 0xd8), Command(0xa7, 0x1b),
    Command(0xa7, 0x31), Command(0xa7, 0x00), Command(0xa7, 0x18), Command(0xa7, 0x20),
    Command(0xa7, 0xd8), Command(0xa7, 0x19)
  ]

  // ov2640_init_regs, lines 470-483
  const INIT_REGS_TAIL_8: seq<Entry> := [
    Command(0xa7, 0x31), Command(0xa7, 0x00), Command(0xa7, 0x18), Command(0xa7, 0x20),
    Command(0xa7, 0xd8), Command(0xa7, 0x19), Command(0xa7, 0x31), Command(0xa7, 0x00),
    Command(0xa7, 0x18), Command(0x7f, 0x00), Command(0xe5, 0x1f), Command(0xe1, 0x77),
    Command(0xdd, 0x7f), Command(CTRL0, CTRL0_YUV422 | CTRL0_YUV_EN | CTRL0_RGB_EN)
  ]

  /** The entries of ov2640_init_regs. */
  const INIT_REGS_BODY: seq<Entry> :=
    INIT_REGS_HEAD_1 + INIT_REGS_HEAD_2 + INIT_REGS_HEAD_3 + INIT_REGS_HEAD_4
    + INIT_REGS_BANDING
    + INIT_REGS_TAIL_1 + INIT_REGS_TAIL_2 + INIT_REGS_TAIL_3 + INIT_REGS_TAIL_4
    + INIT_REGS_TAIL_5 + INIT_REGS_TAIL_6 + INIT_REGS_TAIL_7 + INIT_REGS_TAIL_8

  /** ov2640_init_regs */
  const INIT_REGS: seq<Command> := Terminated(INIT_REGS_BODY)

  const SETTINGS_JPEG_BODY: seq<Entry> := [
    Command(BANK_SEL, BANK_SEL_DSP), Command(RESET, RESET_JPEG | RESET_DVP),
    Command(IMAGE_MODE, IMAGE_MODE_JPEG_EN | IMAGE_MODE_HREF_VSYNC), Command(0xD7, 0x03),
    Command(0xE1, 0x77), Command(0xE5, 0x1F), Command(0xD9, 0x10), Command(0xDF, 0x80),
    Command(0x33, 0x80), Command(0x3C, 0x10), Command(0xEB, 0x30), Command(0xDD, 0x7F),
    Command(RESET, 0x00)
  ]

  /** ov2640_settings_jpeg */
  const SETTINGS_JPEG: seq<Command> := Terminated(SETTINGS_JPEG_BODY)

  /** The preamble sets the DSP up for a UXGA (1600x1200) input image; the per-size
      lists then set the zoomed output size. */
  const SIZE_CHANGE_PREAMBLE_BODY: seq<Entry> := [
    Command(BANK_SEL, BANK_SEL_DSP), Command(RESET, RESET_DVP),
    Command(SIZEL, SizelHsize811Set(UXGA_WIDTH) | SizelHsize8Set(UXGA_WIDTH) | SizelVsize8Set(UXGA_HEIGHT)),
    Command(HSIZE8, Hsize8Set(UXGA_WIDTH)), Command(VSIZE8, Vsize8Set(UXGA_HEIGHT)),
    Command(CTRL2, CTRL2_DCW_EN | CTRL2_SDE_EN | CTRL2_UV_AVG_EN | CTRL2_CMX_EN | CTRL2_UV_ADJ_EN),
    Command(HSIZE, HsizeSet(UXGA_WIDTH)), Command(VSIZE, VsizeSet(UXGA_HEIGHT)),
    Command(XOFFL, XofflSet(0)), Command(YOFFL, YofflSet(0)),
    Command(VHYX, VhyxHsizeSet(UXGA_WIDTH) | VhyxVsizeSet(UXGA_HEIGHT) | VhyxXoffSet(0) | VhyxYoffSet(0)),
    Command(TEST, TestHsizeSet(UXGA_WIDTH))
  ]

  /** ov2640_size_change_preamble_regs */
  const SIZE_CHANGE_PREAMBLE: seq<Command> := Terminated(SIZE_CHANGE_PREAMBLE_BODY)

  /** PER_SIZE_REG_SEQ(x, y, v_div, h_div, pclk_div): the zoom output size x by y,
      the DSP dividers and the DVP clock divider. */
  function PerSizeRegSeq(x: bv32, y: bv32, vDiv: bv32, hDiv: bv32, pclkDiv: bv8): (s: seq<Entry>)
    ensures |s| == 7
  {
    [Command(CTRLI, CTRLI_LP_DP | CtrliVDivSet(vDiv) | CtrliHDivSet(hDiv)),
     Command(RESET, RESET_DVP),
     Command(ZMOW, ZmowOutwSet(x)),
     Command(ZMOH, ZmohOuthSet(y)),
     Command(ZMHH, ZmhhOutwSet(x) | ZmhhOuthSet(y)),
     Command(R_DVP_SP, pclkDiv),
     Command(RESET, 0x00)]
  }

  const QCIF_REGS: seq<Command> := Terminated(PerSizeRegSeq(QCIF_WIDTH, QCIF_HEIGHT, 3, 3, 4))
  const QVGA_BODY: seq<Entry> := PerSizeRegSeq(QVGA_WIDTH, QVGA_HEIGHT, 2, 2, 4)
  const QVGA_REGS: seq<Command> := Terminated(QVGA_BODY)
  const CIF_REGS: seq<Command> := Terminated(PerSizeRegSeq(CIF_WIDTH, CIF_HEIGHT, 2, 2, 8))
  const VGA_REGS: seq<Command> := Terminated(PerSizeRegSeq(VGA_WIDTH, VGA_HEIGHT, 0, 0, 2))
  const SVGA_REGS: seq<Command> := Terminated(PerSizeRegSeq(SVGA_WIDTH, SVGA_HEIGHT, 1, 1, 2))
  const XGA_REGS: seq<Command> :=
    Terminated(PerSizeRegSeq(XGA_WIDTH, XGA_HEIGHT, 0, 0, 2) + [Command(CTRLI, 0x00)])
  const SXGA_REGS: seq<Command> :=
    Terminated(PerSizeRegSeq(SXGA_WIDTH, SXGA_HEIGHT, 0, 0, 2)
               + [Command(CTRLI, 0x00), Command(R_DVP_SP, 2 | R_DVP_SP_AUTO_MODE)])
  const UXGA_REGS: seq<Command> :=
    Terminated(PerSizeRegSeq(UXGA_WIDTH, UXGA_HEIGHT, 0, 0, 0)
               + [Command(CTRLI, 0x00), Command(R_DVP_SP, 0 | R_DVP_SP_AUTO_MODE)])

  /** struct ov2640_win_size */
  datatype WinSize = WinSize(name: string, width: bv32, height: bv32, regs: seq<Command>)

  /** ov2640_supported_win_sizes */
  const SUPPORTED_WIN_SIZES: seq<WinSize> := [
    WinSize("QCIF", QCIF_WIDTH, QCIF_HEIGHT, QCIF_REGS),
    WinSize("QVGA", QVGA_WIDTH, QVGA_HEIGHT, QVGA_REGS),
    WinSize("CIF", CIF_WIDTH, CIF_HEIGHT, CIF_REGS),
    WinSize("VGA", VGA_WIDTH, VGA_HEIGHT, VGA_REGS),
    WinSize("SVGA", SVGA_WIDTH, SVGA_HEIGHT, SVGA_REGS),
    WinSize("XGA", XGA_WIDTH, XGA_HEIGHT, XGA_REGS),
    WinSize("SXGA", SXGA_WIDTH, SXGA_HEIGHT, SXGA_REGS),
    WinSize("UXGA", UXGA_WIDTH, UXGA_HEIGHT, UXGA_REGS)
  ]

  const FORMAT_CHANGE_PREAMBLE_BODY: seq<Entry> := [
    Command(BANK_SEL, BANK_SEL_DSP), Command(R_BYPASS, R_BYPASS_USE_DSP)
  ]

  /** ov2640_format_change_preamble_regs */
  const FORMAT_CHANGE_PREAMBLE: seq<Command> := Terminated(FORMAT_CHANGE_PREAMBLE_BODY)

  const YUYV_BODY: seq<Entry> := [
    Command(IMAGE_MODE, IMAGE_MODE_YUV422), Command(0xd7, 0x03), Command(0x33, 0xa0),
    Command(0xe5, 0x1f), Command(0xe1, 0x67), Command(RESET, 0x00),
    Command(R_BYPASS, R_BYPASS_USE_DSP)
  ]

  /** ov2640_yuyv_regs: YUV422, high byte first. */
  const YUYV_REGS: seq<Command> := Terminated(YUYV_BODY)

  const UYVY_BODY: seq<Entry> := [
    Command(IMAGE_MODE, IMAGE_MODE_LBYTE_FIRST | IMAGE_MODE_YUV422), Command(0xd7, 0x01),
    Command(0x33, 0xa0), Command(0xe1, 0x67), Command(RESET, 0x00),
    Command(R_BYPASS, R_BYPASS_USE_DSP)
  ]

  /** ov2640_uyvy_regs: YUV422, low byte first. */
  const UYVY_REGS: seq<Command> := Terminated(UYVY_BODY)

  const RGB565_BE_BODY: seq<Entry> := [
    Command(IMAGE_MODE, IMAGE_MODE_RGB565), Command(0xd7, 0x03), Command(RESET, 0x00),
    Command(R_BYPASS, R_BYPASS_USE_DSP)
  ]

  /** ov2640_rgb565_be_regs: RGB565, high byte first. */
  const RGB565_BE_REGS: seq<Command> := Terminated(RGB565_BE_BODY)

  const RGB565_LE_BODY: seq<Entry> := [
    Command(IMAGE_MODE, IMAGE_MODE_LBYTE_FIRST | IMAGE_MODE_RGB565), Command(0xd7, 0x03),
    Command(RESET, 0x00), Command(R_BYPASS, R_BYPASS_USE_DSP)
  ]

  /** ov2640_rgb565_le_regs: RGB565, low byte first. */
  const RGB565_LE_REGS: seq<Command> := Terminated(RGB565_LE_BODY)

  // ---------------------------------------------------------------------------
  // Properties of the encoders and tables

  /** The values noted beside the banding entries of ov2640_init_regs. */
  lemma BandingValues()
    ensures INIT_REGS_BANDING ==
            [Command(REG5A, 0x57), Command(COM25, 0x00), Command(BD50, 0xbb), Command(BD60, 0x9c)]
  {
  }

  /** HSIZE holds bits 2..9 of a width and VHYX bit 3 its bit 10: together the width / 4. */
  lemma HsizeSplit(x: bv32)
    requires x < 2048
    ensures (HsizeSet(x) as bv32) + 256 * ((VhyxHsizeSet(x) as bv32) >> 3) == x / 4
  {
  }

  /** VSIZE holds bits 2..9 of a height and VHYX bit 7 its bit 10: together the height / 4. */
  lemma VsizeSplit(y: bv32)
    requires y < 2048
    ensures (VsizeSet(y) as bv32) + 256 * ((VhyxVsizeSet(y) as bv32) >> 7) == y / 4
  {
  }

  /** The four fields of VHYX do not overlap, so OR-ing them adds them. */
  lemma VhyxFieldsDisjoint(w: bv32, h: bv32, xoff: bv32, yoff: bv32)
    ensures VhyxHsizeSet(w) & VhyxVsizeSet(h) == 0
    ensures (VhyxHsizeSet(w) | VhyxVsizeSet(h)) & (VhyxXoffSet(xoff) | VhyxYoffSet(yoff)) == 0
    ensures VhyxXoffSet(xoff) & VhyxYoffSet(yoff) == 0
  {
  }

  /** HSIZE8 holds bits 3..10 of a width, SIZEL bits 3..5 its bits 0..2 and SIZEL bit 6
      its bit 11: together the whole width. */
  lemma Hsize8Split(w: bv32)
    requires w < 4096
    ensures 8 * (Hsize8Set(w) as bv32) + ((SizelHsize8Set(w) as bv32) >> 3)
            + 2048 * ((SizelHsize811Set(w) as bv32) >> 6) == w
  {
  }

  /** VSIZE8 holds bits 3..10 of a height and SIZEL bits 0..2 its bits 0..2. */
  lemma Vsize8Split(h: bv32)
    requires h < 2048
    ensures 8 * (Vsize8Set(h) as bv32) + (SizelVsize8Set(h) as bv32) == h
  {
  }

  /** The three fields of SIZEL do not overlap, so OR-ing them adds them. */
  lemma SizelFieldsDisjoint(w: bv32, h: bv32)
    ensures SizelHsize811Set(w) & SizelHsize8Set(w) == 0
    ensures (SizelHsize811Set(w) | SizelHsize8Set(w)) & SizelVsize8Set(h) == 0
    ensures (SizelHsize811Set(w) | SizelHsize8Set(w) | SizelVsize8Set(h)) as bv32
            == (SizelHsize811Set(w) as bv32) + (SizelHsize8Set(w) as bv32) + (SizelVsize8Set(h) as bv32)
  {
  }

  /** ZMOW holds bits 2..9 of the output width and ZMHH bits 0..1 its bits 10..11. */
  lemma ZoomWidthSplit(x: bv32)
    requires x < 4096
    ensures (ZmowOutwSet(x) as bv32) + 256 * (ZmhhOutwSet(x) as bv32) == x / 4
  {
  }

  /** ZMOH holds bits 2..9 of the output height and ZMHH bit 2 its bit 10. */
  lemma ZoomHeightSplit(y: bv32)
    requires y < 2048
    ensures (ZmohOuthSet(y) as bv32) + 256 * ((ZmhhOuthSet(y) as bv32) >> 2) == y / 4
  {
  }

  /** The two size fields of ZMHH do not overlap, so OR-ing them adds them. */
  lemma ZmhhFieldsDisjoint(x: bv32, y: bv32)
    ensures ZmhhOutwSet(x) & ZmhhOuthSet(y) == 0
    ensures (ZmhhOutwSet(x) | ZmhhOuthSet(y)) as bv32 == (ZmhhOutwSet(x) as bv32) + (ZmhhOuthSet(y) as bv32)
  {
  }

  /** Drive capability 1x .. 4x is encoded as 0 .. 3; the clock divider 1 .. 32 as 0 .. 31. */
  lemma DriveAndClockCodes(n: bv32, d: bv32)
    ensures 1 <= n <= 4 ==> Com2OcapNxSet(n) as bv32 == n - 1
    ensures 1 <= d <= 32 ==> ClkrcDivSet(d) as bv32 == d - 1
    ensures ClkrcDivSet(0) == 0x1F && ClkrcDivSet(33) == ClkrcDivSet(1)
  {
  }

  /** The zoom entries of a per-size list program an output of exactly x by y (in units
      of four pixels). */
  lemma PerSizeZoom(x: bv32, y: bv32, vDiv: bv32, hDiv: bv32, pclkDiv: bv8)
    requires x < 4096 && y < 2048
    ensures var s := PerSizeRegSeq(x, y, vDiv, hDiv, pclkDiv);
            s[2].reg == ZMOW && s[3].reg == ZMOH && s[4].reg == ZMHH &&
            (s[2].value as bv32) + 256 * ((s[4].value as bv32) & 0x3) == x / 4 &&
            (s[3].value as bv32) + 256 * (((s[4].value as bv32) >> 2) & 0x1) == y / 4
  {
    ZoomWidthSplit(x);
    ZoomHeightSplit(y);
  }

  /** The preamble describes the 1600x1200 input image in all three of its encodings. */
  lemma PreambleIsUxga()
    ensures var p := SIZE_CHANGE_PREAMBLE_BODY;
            var sizel := p[2].value as bv32;
            var vhyx := p[10].value as bv32;
            8 * (p[3].value as bv32) + ((sizel >> 3) & 0x7) + 2048 * ((sizel >> 6) & 0x1) == UXGA_WIDTH &&
            8 * (p[4].value as bv32) + (sizel & 0x7) == UXGA_HEIGHT &&
            (p[6].value as bv32) + 256 * ((vhyx >> 3) & 0x1) == UXGA_WIDTH / 4 &&
            (p[7].value as bv32) + 256 * ((vhyx >> 7) & 0x1) == UXGA_HEIGHT / 4
  {
  }

  /** Each supported window is larger than the one before it in both dimensions. */
  lemma WinSizesIncreasing()
    ensures |SUPPORTED_WIN_SIZES| == 8
    ensures forall i, j :: 0 <= i < j < |SUPPORTED_WIN_SIZES| ==>
              SUPPORTED_WIN_SIZES[i].width < SUPPORTED_WIN_SIZES[j].width &&
              SUPPORTED_WIN_SIZES[i].height < SUPPORTED_WIN_SIZES[j].height
  {
  }
}
