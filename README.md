# rp2040-uvc: a Dafny model of the camera-to-USB video path

The rp2040-uvc firmware turns a Raspberry Pi RP2040 with an OV2640 camera into a
USB Video Class webcam. It can also show a preview on an ILI9341 TFT panel. This
project models the core of that firmware and proves properties of the model:

- `streaming.dfy` models the cooperative video scheduler of `main.c` (the build
  without FreeRTOS). `VideoStreamer` is a class whose fields are the scheduler's
  statics: `frame_num`, `tx_busy`, `interval_ms`, `start_ms` and `already_sent`.
  `Tick`, `Complete` and `Commit` model `video_task`,
  `tud_video_frame_xfer_complete_cb` and `tud_video_commit_cb`. Each one is
  proved against a pure specification: `TickSpec`, `CompleteSpec` or
  `CommitSpec`. Runs of events then show three things: the frame pacing does
  not drift, even across the 32-bit wrap of the millisecond clock; at most one
  paced transfer is in flight; and a busy USB pipe drops frames instead of
  queueing them.
- `jpeg_markers.dfy` models the SOI and EOI scans of the frame buffer
  (`cam_verify_jpeg_soi` and `cam_verify_jpeg_eoi`) as loops over an array.
  They are proved equal to first-match and last-match specification functions.
- `ili9341.dfy` models the LCD driver as the sequence of bus operations it
  performs: a command byte, a data byte, or a delay. This covers the
  command/parameter writer, the walk over the length-prefixed init table, the
  address window, and both preview paths (raw RGB565, and YUV422 converted per
  pixel). It also covers the in-place RGB565 to YUV422 rewrite of the frame
  buffer.
- `yuv.dfy` models the 14-bit fixed-point BT.601 YUV to RGB formulas of `yuv.h`
  and the RGB565 packing.
- `ov2640_regs.dfy` models the register tables of `ov2640_init.h`. The tables are
  built from `VAL_SET` field macros, and each one ends with the `0xff, 0xff`
  end marker.
- `ov2640.dfy` models the sensor driver: the window-size selection, the table
  writer, `ov2640_set_params`, and the frame capture. In the capture, the VSYNC
  line is a sampled trace and the DMA transfer is a copy from the receive FIFO.
- `bytes.dfy` holds the byte, 16-bit and 32-bit helpers that stand for C's
  unsigned types. Wrap-around is explicit.

### Behaviour of the code that a reader might not expect

The model follows the code in each of these cases:

- **Byte order of the EOI marker.** The buffer must hold `FF D9` at the EOI
  offset (`main.c:193`, `main.c:209-210`).
- **The first frame ignores `tx_busy`.** The first frame after streaming starts
  is captured and handed to USB whatever the state of `tx_busy`. Stopping the
  stream does not clear `tx_busy` (`main.c:248-272`). See
  `Streaming.FirstFrameSends` and `Streaming.NotStreamingResets`.
- **Only the first RGB565 frame is converted.** In RGB565 mode, only the first
  frame is rewritten to YUV422 before transfer. Paced frames are sent as
  captured (`main.c:263-265` against `main.c:283-285`). See
  `Streaming.PacedSend`.
- **JPEG markers are checked on the previous frame.** The marker scans run on
  the buffer before the capture of the tick, so they check the previous frame
  (`main.c:253-262`).

## Model

| member | source | states |
|---|---|---|
| Bytes.Wrap32 | main.c:188-190 | the value an `unsigned` holds: congruent to the exact result modulo 2^32 |
| Bytes.Wrap32Shift | main.c:281 | reducing modulo 2^32 before adding again gives the same `unsigned`, so repeated `start_ms += interval_ms` is one wrapped sum |
| Bytes.Sub32 | main.c:275 | `cur - start_ms` on `unsigned`: the plain difference when `cur >= start_ms`, otherwise the difference plus 2^32 |
| Bytes.Add32 | main.c:281 | `start_ms += interval_ms`: the plain sum when it fits in 32 bits, otherwise the sum minus 2^32 |
| Bytes.Lo8 | ili9341_lcd.c:236 | `x & 0xFF` leaves a value that is already a byte unchanged |
| Bytes.Hi8 | ili9341_lcd.c:235 | `x >> 8` of a 16-bit value is the byte that, times 256 plus the low byte, gives back the value |
| Bytes.Le16Bytes | ili9341_lcd.c:249-251 | a `uint16_t` read from two bytes on the little-endian RP2040 has the second byte as its high byte and the first as its low byte |
| Bytes.Le32Lanes | ili9341_lcd.c:305-308 | the lanes `w & 0xff`, `(w >> 8) & 0xff`, `(w >> 16) & 0xff` and `w >> 24` of a little-endian word are its four stored bytes in memory order |
| Bytes.Le32Halves | ili9341_lcd.c:267-268 | `w & 0xffff` and `(w >> 16) & 0xffff` are the little-endian half-words at byte offsets 0 and 2 |
| Yuv.Clip8 | yuv.h:60-63 | a value inside the 14-bit fixed-point range is scaled down by 2^14; a negative value clips to 0 and one above the range clips to 255 |
| Yuv.YuvToR | yuv.h:64-66 | the same value written in the factored BT.601 form, with `kRCst` multiplied out: clip of 1.164·(Y−16) + 1.596·(V−128) in 14-bit fixed point, rounded |
| Yuv.YuvToG | yuv.h:67-69 | likewise for green: 1.164·(Y−16) − 0.391·(U−128) − 0.813·(V−128) |
| Yuv.YuvToB | yuv.h:70-72 | likewise for blue: 1.164·(Y−16) + 2.018·(U−128) |
| Yuv.Pack565 | yuv.h:80-84 | the two stored bytes, read as a little-endian `uint16_t`, are the RGB565 pixel with 5 bits of red, 6 of green and 5 of blue |
| Yuv.YuvToRgb565 | yuv.h:75-89 | the two stored bytes, read as a little-endian `uint16_t`, are the RGB565 pixel of the BT.601 red, green and blue of (Y, U, V) |
| Yuv.Clip8Monotone | yuv.h:60-63 | clipping preserves order |
| Yuv.NeutralChromaIsGrey | yuv.h:64-72 | with U = V = 128 the three channels are equal, so the pixel is grey |
| Yuv.BlackAndWhitePoints | yuv.h:51-72 | studio-swing black (Y = 16) maps to 0,0,0 and white (Y = 235) to 255,255,255 |
| Yuv.RedMonotone | yuv.h:64-66 | red does not decrease when Y or V increases |
| Yuv.GreenMonotone | yuv.h:67-69 | green does not decrease when Y increases or U or V decreases |
| Yuv.BlueMonotone | yuv.h:70-72 | blue does not decrease when Y or U increases |
| Yuv.BlackRgb565 | yuv.h:74-89 | black packs to the bytes 00 00 |
| Yuv.WhiteRgb565 | yuv.h:74-89 | white packs to the bytes FF FF |
| JpegMarkers.MarkerBytes | main.c:192-193 | the little-endian constants `0xffd8ff` and `0xd9ff` compared through `memcmp` are the byte strings FF D8 FF and FF D9 |
| JpegMarkers.SoiFrom | main.c:196-200 | the forward scan from offset i finds the first offset at or after i holding a whole SOI marker, or gives −1 when there is none |
| JpegMarkers.SoiIndex | main.c:195-203 | the least offset of a complete SOI marker, and −1 exactly when the buffer holds none |
| JpegMarkers.EoiFrom | main.c:207-214 | the backward scan from p finds the last offset in [1, p] holding FF D9, or gives −1 when there is none |
| JpegMarkers.EoiIndex | main.c:205-217 | the greatest offset in [1, length−2] holding an EOI marker, and −1 exactly when no offset from 1 on holds one |
| JpegMarkers.VerifyJpegSoi | main.c:195-203 | the loop returns SoiIndex of the first `length` bytes (of nothing when `length <= 0`) |
| JpegMarkers.VerifyJpegEoi | main.c:205-217 | the loop returns EoiIndex of the first `length` bytes (of nothing when `length <= 0`) |
| JpegMarkers.CompleteImageMarkers | main.c:195-217 | a buffer that starts FF D8 FF and ends FF D9 has its SOI at 0 and its EOI at length−2 |
| JpegMarkers.EoiAtOffsetZeroMissed | main.c:208 | the backward loop stops before offset 0, so an EOI at offset 0 is never reported |
| JpegMarkers.SoiScanAsWritten | main.c:196-197 | the scan as written: it compares three bytes at every i < length, so it reads up to two bytes past the buffer |
| JpegMarkers.SoiAsWrittenDiffersOnlyAtEnd | main.c:196-197 | the scan as written agrees with the corrected scan, except when the buffer holds no marker and one straddles its end; then it reports length−2 or length−1 |
| JpegMarkers.SoiOverreadCounterexample | main.c:196-197 | a 2-byte buffer `00 FF` followed in memory by `D8 FF` is reported as holding an SOI at 1, though it holds none |
| Ili9341.CommandWrites | ili9341_lcd.c:214-222 | one command step, then one data step per parameter, in order |
| Ili9341.WriteCmd | ili9341_lcd.c:214-222 | with `count >= 2` the command and `count − 1` parameters are sent; otherwise only the command |
| Ili9341.EncodeCmd | ili9341_lcd.c:51 | a record of the init table is its count, delay and command bytes followed by its parameters |
| Ili9341.Parse | ili9341_lcd.c:224-231 | a table that parses is not empty (it holds at least the zero count that ends it) |
| Ili9341.ParseEncode | ili9341_lcd.c:51-82 | parsing an encoded list of records gives the list back |
| Ili9341.EncodeParse | ili9341_lcd.c:224-231 | re-encoding the records that the walk finds gives back the table up to and including its zero count, so the walk neither skips nor invents a byte |
| Ili9341.WalkParse | ili9341_lcd.c:224-231 | the offset walk of `lcd_init` stays inside the table exactly when the table parses, and it sends the parsed records' bus steps |
| Ili9341.WalkStep | ili9341_lcd.c:226-229 | one step of the walk sends one record's command and parameters, then a delay of 5 ms times the record's delay byte |
| Ili9341.LcdInit | ili9341_lcd.c:224-231 | the loop sends, for every record that Parse finds, the command with its parameters followed by its delay |
| Ili9341.InitSeqWellFormed | ili9341_lcd.c:54-82 | the bytes of `ili9341_init_seq`, written line by line as in the source, are the encoding of its 25 records; so the walk yields those records and ends exactly on the final zero count |
| Ili9341.InitLinesAreRecords | ili9341_lcd.c:55-80 | each of the 25 lines of the table is the count, delay, command and parameter bytes of its record |
| Ili9341.EncodeLines | ili9341_lcd.c:54-82 | lines that each encode a record join, with the final zero, into the encoding of the record list |
| Ili9341.OpenWindowWrites | ili9341_lcd.c:233-247 | twelve steps: CASET with 4 data bytes, PASET with 4 data bytes, a 100 µs delay, then RAMWR |
| Ili9341.Be16OfInt | ili9341_lcd.c:235-238 | the high byte then the low byte of x, read big-endian, give x modulo 2^16 |
| Ili9341.OpenWindowDecodes | ili9341_lcd.c:233-247 | the column bytes read back as x1 and (x1 + x2 − 1) mod 2^16; the row bytes likewise as y1 and (y1 + y2 − 1) mod 2^16 |
| Ili9341.OpenWindowBounds | ili9341_lcd.c:233-247 | when the window fits in 16 bits, its last column is x1 + x2 − 1 and its last row is y1 + y2 − 1 |
| Ili9341.Rgb565Writes | ili9341_lcd.c:249-253 | two data steps per pixel |
| Ili9341.Rgb565WritesSwapped | ili9341_lcd.c:249-253 | each pixel goes out with its high byte first: step k sends byte k+1 for even k and byte k−1 for odd k |
| Ili9341.ShowRgb565Data | ili9341_lcd.c:249-253 | the loop sends Rgb565Writes of the first max(len, 0) pixels of the buffer |
| Ili9341.Yuv422ToRgb565 | ili9341_lcd.c:255-261 | the returned `uint16_t` is the RGB565 pixel of the BT.601 red, green and blue of (Y, U, V) |
| Ili9341.Yuv422Writes | ili9341_lcd.c:298-318 | four data steps per YUYV word, that is, two per displayed pixel |
| Ili9341.Yuv422WritesWord | ili9341_lcd.c:303-317 | word i becomes steps 4i to 4i+3: the pixels (Y0, U, V) and then (Y1, U, V) |
| Ili9341.Yuv422WritesStep | ili9341_lcd.c:305-308 | extracting Y0, U, Y1 and V from the word with shifts and masks gives the same pixels as taking its stored bytes |
| Ili9341.ShowYuv422With | ili9341_lcd.c:298-318 | the loop sends Yuv422Writes of the first max(len, 0) words, whatever the pixel converter |
| Ili9341.ShowYuv422Data | ili9341_lcd.c:298-318 | the same loop with `yuv422_to_rgb565` as the converter |
| Ili9341.ConvertPair | ili9341_lcd.c:286-293 | two RGB565 pixels become four bytes: Y of the first, U of the sum, Y of the second, V of the sum |
| Ili9341.ConvertedWords | ili9341_lcd.c:263-296 | the converted prefix has four bytes per converted word |
| Ili9341.Converted | ili9341_lcd.c:263-296 | the in-place conversion keeps the buffer length |
| Ili9341.WordPixels | ili9341_lcd.c:267-268 | the low and high half-words of word i, read before it is rewritten, are the original pixels 2i and 2i+1 |
| Ili9341.ConvertStep | ili9341_lcd.c:266-293 | rewriting word i extends the converted prefix by one word and leaves the rest of the buffer untouched |
| Ili9341.ConvertWord | ili9341_lcd.c:266-293 | the four bytes of word i are overwritten with the conversion of its two half-word pixels, and nothing else changes |
| Ili9341.Rgb565ToYuv422 | ili9341_lcd.c:263-296 | the buffer becomes Converted(old buffer, max(len, 0)) |
| Ili9341.ConvertedWordsAt | ili9341_lcd.c:266-293 | word i of the converted prefix is ConvertPair of the original pixels 2i and 2i+1 |
| Ili9341.ConvertedWordAt | ili9341_lcd.c:263-296 | word i of the converted buffer is ConvertPair of the original pixels 2i and 2i+1 |
| Ili9341.ConvertedKeepsTail | ili9341_lcd.c:263-296 | bytes past the 4·len converted bytes are left as they were |
| Ili9341.ConvertPairSwap | ili9341_lcd.c:289-293 | swapping the two pixels swaps the two luma bytes and keeps both chroma bytes |
| Ili9341.ConvertPairFirstLuma | ili9341_lcd.c:289 | the first luma byte depends only on the first pixel |
| Ili9341.MainLcdInit | ili9341_lcd.c:320-343 | bring-up sends the records of the init table, then opens the full 320×240 window at the origin |
| Ov2640Regs.Terminated | ov2640_init.h:310-311 | a table is its entries followed by one end marker, and no entry before it is the end marker |
| Ov2640Regs.ValSetField | ov2640_init.h:47-48 | `VAL_SET` with a k-bit mask and left shift l gives a value below 2^(k+l) whose low l bits are clear |
| Ov2640Regs.PerSizeRegSeq | ov2640_init.h:527-535 | the per-size block is seven register writes |
| Ov2640Regs.BandingValues | ov2640_init.h:368-371 | the banding entries evaluate to 0x57, 0x00, 0xbb and 0x9c |
| Ov2640Regs.HsizeSplit | ov2640_init.h:63-72 | HSIZE and the VHYX high bit together hold width/4 |
| Ov2640Regs.VsizeSplit | ov2640_init.h:65-71 | VSIZE and the VHYX high bit together hold height/4 |
| Ov2640Regs.VhyxFieldsDisjoint | ov2640_init.h:71-74 | the four VHYX fields occupy disjoint bits, so OR-ing them loses nothing |
| Ov2640Regs.Hsize8Split | ov2640_init.h:98-102 | HSIZE8 with the two SIZEL width fields reassembles a width below 4096 |
| Ov2640Regs.Vsize8Split | ov2640_init.h:100-104 | VSIZE8 with the SIZEL height field reassembles a height below 2048 |
| Ov2640Regs.SizelFieldsDisjoint | ov2640_init.h:98-100 | the three SIZEL fields occupy disjoint bits, so their OR is their sum |
| Ov2640Regs.ZoomWidthSplit | ov2640_init.h:79-85 | ZMOW with the ZMHH width bits holds the output width / 4 |
| Ov2640Regs.ZoomHeightSplit | ov2640_init.h:81-84 | ZMOH with the ZMHH height bit holds the output height / 4 |
| Ov2640Regs.ZmhhFieldsDisjoint | ov2640_init.h:84-85 | the ZMHH width and height fields occupy disjoint bits |
| Ov2640Regs.DriveAndClockCodes | ov2640_init.h:197-208 | the drive strength N is coded as N − 1 for N in 1..4, and the clock divider d as d − 1 for d in 1..32 (0 and 33 wrap) |
| Ov2640Regs.PerSizeZoom | ov2640_init.h:527-535 | a per-size block writes ZMOW, ZMOH and ZMHH so that they decode to x/4 and y/4 |
| Ov2640Regs.PreambleIsUxga | ov2640_init.h:508-526 | the size-change preamble sets the input size to UXGA (1600×1200) in both the SIZEL/HSIZE8/VSIZE8 and the HSIZE/VSIZE/VHYX encodings |
| Ov2640Regs.WinSizesIncreasing | ov2640_init.h:580-589 | the eight supported window sizes strictly increase in both width and height |
| Ov2640.SelectWinFrom | ov2640.c:48-52 | the search from i gives the first size at or after i that covers the request, or the default size when none does |
| Ov2640.SelectWinIndex | ov2640.c:45-54 | the first supported size at least as wide and as tall as the request, or the default size when none is |
| Ov2640.SelectWin | ov2640.c:45-54 | the loop returns SelectWinIndex |
| Ov2640.SelectedIsSmallest | ov2640.c:45-54 | on an increasing size list, the chosen size is no larger than any other covering size |
| Ov2640.SelectQvga | ov2640.c:68 | the 320×240 request of `set_params` selects QVGA and its register table |
| Ov2640.UpToEnd | ov2640.c:56-63 | the entries written are a prefix of the table, end just before its first end marker, and contain no end marker |
| Ov2640.WritesBody | ov2640.c:56-63 | writing a terminated table writes exactly its entries |
| Ov2640.RegsWrite | ov2640.c:56-63 | the loop writes UpToEnd of the table |
| Ov2640.FormatRegs | ov2640.c:72-87 | every format selects a terminated table |
| Ov2640.FormatDispatch | ov2640.c:72-87 | RGB565 selects the big-endian RGB565 table, JPEG the JPEG settings, and every other format UYVY; the YUYV and little-endian RGB565 tables are never selected |
| Ov2640.SetParams | ov2640.c:65-88 | the writes are, in order: the init table, the size preamble, the QVGA table, the format preamble and the format's table |
| Ov2640.RisingEdgeFrom | ov2640.c:148-152 | the first VSYNC rising edge at or after i |
| Ov2640.FirstRisingEdge | ov2640.c:148-152 | the first VSYNC rising edge of the trace |
| Ov2640.CaptureFrame | ov2640.c:133-164 | the DMA is configured, started at the first rising edge, waited for and aborted; the first `image_buf_size` bytes become the FIFO's bytes and the rest of the buffer is unchanged |
| Streaming.IntervalMs | main.c:306-307 | the 100 ns frame interval truncated to whole milliseconds: ms·10000 ≤ dwFrameInterval < (ms+1)·10000 |
| Streaming.VideoStreamer.constructor | main.c:188-190 | all statics start at zero, except the interval, which is 1000 / FRAME_RATE |
| Streaming.VideoStreamer.Tick | main.c:246-290 | the new statics and the calls made are TickSpec's |
| Streaming.VideoStreamer.Complete | main.c:294-300 | the new statics are CompleteSpec's and no call is made |
| Streaming.VideoStreamer.Commit | main.c:302-310 | the new statics are CommitSpec's and no call is made |
| Streaming.NotStreamingResets | main.c:248-252 | when not streaming: no calls, `already_sent` and `frame_num` reset, `tx_busy` kept |
| Streaming.FirstFrameSends | main.c:258-272 | the first frame is captured and transferred whatever `tx_busy` is; `start_ms` becomes now; in RGB565 mode the frame is shown and converted before transfer |
| Streaming.NotDueNoChange | main.c:274-276 | before the interval has elapsed nothing changes and nothing is captured or sent |
| Streaming.BusyDropsFrame | main.c:277-278 | while a transfer is in flight nothing changes and nothing is captured or sent |
| Streaming.PacedSend | main.c:279-290 | a due tick with a free pipe sets `tx_busy`, advances `start_ms` by exactly the interval, and captures, previews and transfers without converting |
| Streaming.CompletionCounts | main.c:294-300 | completion clears `tx_busy`, increments `frame_num` modulo 2^32 and changes nothing else |
| Streaming.CommitThirtyFps | main.c:307 | a commit of 333333 (30 fps) sets a 33 ms interval, so 30 frames take 990 ms |
| Streaming.ElapsedAcrossWrap | main.c:274-281 | the elapsed time `cur - start_ms` is right even when the clock wraps past 2^32 |
| Streaming.TickKeepsFlags | main.c:246-300 | `already_sent` and `tx_busy` stay 0 or 1 |
| Streaming.SendsAppend | main.c:270-290 | the transfer count of two traces is the sum of their counts |
| Streaming.PacedTickSends | main.c:274-290 | after the first frame, a tick transfers one frame exactly when the pipe is free and the interval has elapsed, and none otherwise |
| Streaming.StepDrift | main.c:274-300 | after one event `start_ms` has advanced by the interval times the number of transfers, modulo 2^32 |
| Streaming.DriftFree | main.c:274-281 | over any run of streaming ticks and completions, `start_ms` equals the first deadline plus the interval times the frames sent, modulo 2^32: late ticks do not accumulate drift |
| Streaming.OneTransferInFlight | main.c:277-290 | ticks with no completion in between send at most one frame, and none while a transfer is already in flight |

## Left out

- USB, timers, the camera and the panel are outside the model. TinyUSB's
  streaming state, `board_millis()`, the VSYNC pin and the PIO receive FIFO
  become parameters. The frame transfer, the captures and the previews become
  actions recorded in a trace.
- The FreeRTOS build of `video_task` and the board bring-up are not modelled.
  This includes `main`, the LED blink task and the mount/suspend callbacks.
- Not modelled: `sleep_ms`, `printf`, the GPIO, I²C, PIO and DMA setup, and
  the bit-banged SPI shift-out. An LCD write is one bus step; a delay is a
  step with its length.
- `color16to24` and `VP8RGBToY`/`VP8RGBToU`/`VP8RGBToV` are not part of this
  model. `ColorOps` takes them as parameters, so the RGB565 to YUV422 results
  are proved for any such functions.
- Ili9341.ShowYuv422With: the display loop is stated for any pixel converter.
  `ShowYuv422Data` instantiates it with `yuv422_to_rgb565`.
- Ov2640.SelectWin: takes the size table as a parameter. `SelectQvga` applies
  it to `ov2640_supported_win_sizes`.
- Ov2640.CaptureFrame: the DMA copy is one step from the receive FIFO. The
  PIO program, channel setup and chaining are not modelled.
- Ov2640.CaptureFrame: VSYNC is a finite sampled trace that is assumed to hold
  a rising edge. A camera that never raises VSYNC would hang the firmware; the
  model does not capture this.
- Streaming.VideoStreamer.Commit: the `VIDEO_ERROR_NONE` return value is not
  modelled. The callback always returns it.
- `FRAME_RATE` and `usb_descriptors.h` are not part of this model. The
  constructor takes the frame rate as a parameter.
- Ili9341.LcdInit: requires that the offset walk over the table stays in
  bounds, as `ili9341_init_seq` does (`InitSeqWellFormed`). The C loop would
  read past a malformed table.
- Ov2640.SetParams: the I²C writes are the sequence of table entries written;
  the bus transactions are not modelled.
- The `#if 0` RGB565 to YUV variant in `rgb565_to_yuv422` is not modelled.
- `ov2640.h` is not part of this model. The configuration record is reduced
  to the fields the core reads: the pixel format and the buffer and its size.

## Findings

| source | as written | input that shows it | evidently intended | confidence | as-written member | corrected member |
|---|---|---|---|---|---|---|
| main.c:195-203 | `cam_verify_jpeg_soi` compares three bytes at every offset `i < length`, so it reads up to two bytes past the buffer and can report a marker that straddles the end | a 2-byte buffer `00 FF` followed in memory by `D8 FF` is reported as holding an SOI at offset 1 | scan only offsets with `i + 3 <= length` | not executed | JpegMarkers.SoiOverreadCounterexample | JpegMarkers.VerifyJpegSoi |
