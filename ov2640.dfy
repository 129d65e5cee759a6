/** The OV2640 driver: choosing a window size, writing register lists, the
    configuration sequence, and the capture of one frame.

    Each SCCB register write is recorded as the Command it sends, in order. The
    VSYNC line is given as the sequence of levels that successive `gpio_get` calls
    return. The DMA channel appears as a trace of events plus its effect on the frame
    buffer. */
module Ov2640 {
  import opened Bytes
  import opened Ov2640Regs

  /** The number of supported windows ov2640_select_win searches. */
  const NUM_WIN_SIZES: nat := 8

  /** The entry ov2640_select_win falls back to: UXGA. */
  const DEFAULT_SIZE: nat := 7

  /** A window at least as wide and as high as the request. */
  predicate Covers(win: WinSize, width: bv32, height: bv32)
  {
    win.width >= width && win.height >= height
  }

  /** Every window is larger than the ones before it in both dimensions. */
  predicate Increasing(sizes: seq<WinSize>)
  {
    forall i, j :: 0 <= i < j < |sizes| ==> sizes[i].width < sizes[j].width && sizes[i].height < sizes[j].height
  }

  /** The first window of sizes from index i on that covers the request, or
      DEFAULT_SIZE when none does. */
  function SelectWinFrom(sizes: seq<WinSize>, width: bv32, height: bv32, i: nat): (r: nat)
    requires |sizes| == NUM_WIN_SIZES && i <= |sizes|
    decreases |sizes| - i
    ensures r < |sizes|
    ensures r == DEFAULT_SIZE || (i <= r && Covers(sizes[r], width, height))
    ensures forall j :: i <= j < r ==> !Covers(sizes[j], width, height)
    ensures (forall j :: i <= j < |sizes| ==> !Covers(sizes[j], width, height)) ==> r == DEFAULT_SIZE
  {
    if i == |sizes| then DEFAULT_SIZE
    else if Covers(sizes[i], width, height) then i
    else SelectWinFrom(sizes, width, height, i + 1)
  }

  /** The index ov2640_select_win picks in sizes: the first covering window, else the
      last (UXGA). */
  function SelectWinIndex(sizes: seq<WinSize>, width: bv32, height: bv32): (r: nat)
    requires |sizes| == NUM_WIN_SIZES
    ensures r < |sizes|
    ensures (exists j :: 0 <= j < |sizes| && Covers(sizes[j], width, height))
            ==> Covers(sizes[r], width, height) && forall j :: 0 <= j < r ==> !Covers(sizes[j], width, height)
    ensures (forall j :: 0 <= j < |sizes| ==> !Covers(sizes[j], width, height)) ==> r == DEFAULT_SIZE
  {
    SelectWinFrom(sizes, width, height, 0)
  }

  /** ov2640_select_win, searching the table `sizes` (ov2640_supported_win_sizes). */
  method SelectWin(sizes: seq<WinSize>, width: bv32, height: bv32) returns (r: nat)
    requires |sizes| == NUM_WIN_SIZES
    ensures r == SelectWinIndex(sizes, width, height)
  {
    var i := 0;
    while i < 8
      invariant 0 <= i <= |sizes|
      invariant SelectWinFrom(sizes, width, height, i) == SelectWinFrom(sizes, width, height, 0)
    {
      if sizes[i].width >= width && sizes[i].height >= height {
        return i;
      }
      i := i + 1;
    }
    return DEFAULT_SIZE;
  }

  /** In a table that grows in both dimensions, the window picked is the smallest
      window of the table that covers the request. */
  lemma SelectedIsSmallest(sizes: seq<WinSize>, width: bv32, height: bv32)
    requires |sizes| == NUM_WIN_SIZES && Increasing(sizes)
    ensures var r := SelectWinIndex(sizes, width, height);
            forall j :: 0 <= j < |sizes| && Covers(sizes[j], width, height) ==>
              r <= j && sizes[r].width <= sizes[j].width && sizes[r].height <= sizes[j].height
  {
  }

  /** The supported windows grow in both dimensions, and ov2640_set_params asks for
      320x240 and gets the QVGA window. */
  lemma SelectQvga()
    ensures |SUPPORTED_WIN_SIZES| == NUM_WIN_SIZES && Increasing(SUPPORTED_WIN_SIZES)
    ensures SelectWinIndex(SUPPORTED_WIN_SIZES, 320, 240) == 1
    ensures SUPPORTED_WIN_SIZES[1].name == "QVGA"
    ensures SUPPORTED_WIN_SIZES[1].regs == QVGA_REGS
  {
    WinSizesIncreasing();
    assert !Covers(SUPPORTED_WIN_SIZES[0], 320, 240);
    assert Covers(SUPPORTED_WIN_SIZES[1], 320, 240);
  }

  // ---------------------------------------------------------------------------
  // Register lists

  /** The entries of a register list before its first ENDMARKER. */
  function UpToEnd(t: seq<Command>): (r: seq<Command>)
    requires ENDMARKER in t
    ensures |r| < |t| && t[..|r|] == r && t[|r|] == ENDMARKER
    ensures ENDMARKER !in r
  {
    if t[0] == ENDMARKER then [] else [t[0]] + UpToEnd(t[1..])
  }

  /** A list whose first ENDMARKER is at k is written up to k. */
  lemma UpToFirstEnd(t: seq<Command>, k: nat)
    requires k < |t| && t[k] == ENDMARKER && ENDMARKER !in t[..k]
    ensures UpToEnd(t) == t[..k]
  {
  }

  /** A table stored as its entries followed by ENDMARKER writes exactly its entries;
      in particular a BANK_SEL entry {0xff, v} with v != 0xff is written. */
  lemma WritesBody(body: seq<Entry>)
    ensures UpToEnd(Terminated(body)) == body
  {
    var t := Terminated(body);
    forall i | 0 <= i < |body|
      ensures t[..|body|][i] != ENDMARKER
    {
    }
    UpToFirstEnd(t, |body|);
  }

  /** ov2640_regs_write: the writes it performs, one per entry, until the sentinel. */
  method RegsWrite(table: seq<Command>) returns (writes: seq<Command>)
    requires ENDMARKER in table
    ensures writes == UpToEnd(table)
  {
    var i := 0;
    writes := [];
    while !(table[i].reg == 0xff && table[i].value == 0xff)
      invariant 0 <= i < |table|
      invariant ENDMARKER in table[i..]
      invariant writes == table[..i]
      invariant ENDMARKER !in writes
      decreases |table| - i
    {
      writes := writes + [table[i]];
      i := i + 1;
      assert table[i - 1..] == [table[i - 1]] + table[i..];
    }
    UpToFirstEnd(table, i);
  }

  // ---------------------------------------------------------------------------
  // Configuration

  /** The format table ov2640_set_params writes for a pixel format. */
  function FormatRegs(f: PixFormat): (t: seq<Command>)
    ensures ENDMARKER in t
  {
    match f
    case Rgb565 => RGB565_BE_REGS
    case Yuv422 => UYVY_REGS
    case Jpeg => SETTINGS_JPEG
    case _ => UYVY_REGS
  }

  /** RGB565 is sent high byte first, YUV422 as UYVY, JPEG with the JPEG settings, and
      every other format falls back to UYVY; the YUYV and little-endian RGB565 tables
      are never chosen. */
  lemma FormatDispatch(f: PixFormat)
    ensures UpToEnd(FormatRegs(f)) ==
            if f == Rgb565 then RGB565_BE_BODY
            else if f == Jpeg then SETTINGS_JPEG_BODY
            else UYVY_BODY
    ensures FormatRegs(f) != YUYV_REGS && FormatRegs(f) != RGB565_LE_REGS
  {
    WritesBody(RGB565_BE_BODY);
    WritesBody(SETTINGS_JPEG_BODY);
    WritesBody(UYVY_BODY);
    assert RGB565_BE_REGS[0] != YUYV_REGS[0] && RGB565_BE_REGS[0] != RGB565_LE_REGS[0];
    assert UYVY_REGS[0] != YUYV_REGS[0] && UYVY_REGS[0] != RGB565_LE_REGS[0];
    assert SETTINGS_JPEG[1] != YUYV_REGS[1] && SETTINGS_JPEG[1] != RGB565_LE_REGS[1];
  }

  /** ov2640_set_params: the whole register write sequence. The sensor and DSP defaults,
      the UXGA input preamble, the QVGA output size, the format preamble and then
      exactly one format table, each up to its sentinel. */
  method SetParams(pixformat: PixFormat) returns (writes: seq<Command>)
    ensures writes == INIT_REGS_BODY + SIZE_CHANGE_PREAMBLE_BODY
                      + QVGA_BODY
                      + FORMAT_CHANGE_PREAMBLE_BODY + UpToEnd(FormatRegs(pixformat))
  {
    WritesBody(INIT_REGS_BODY);
    WritesBody(SIZE_CHANGE_PREAMBLE_BODY);
    WritesBody(QVGA_BODY);
    WritesBody(FORMAT_CHANGE_PREAMBLE_BODY);
    SelectQvga();

    var initWrites := RegsWrite(INIT_REGS);
    var preambleWrites := RegsWrite(SIZE_CHANGE_PREAMBLE);
    var win := SelectWin(SUPPORTED_WIN_SIZES, 320, 240);
    var sizeWrites := RegsWrite(SUPPORTED_WIN_SIZES[win].regs);
    var formatPreambleWrites := RegsWrite(FORMAT_CHANGE_PREAMBLE);
    var formatWrites := RegsWrite(FormatRegs(pixformat));
    writes := initWrites + preambleWrites + sizeWrites + formatPreambleWrites + formatWrites;
  }

  // ---------------------------------------------------------------------------
  // Frame capture

  /** Sample j is high and the sample before it low. */
  predicate RisingEdgeAt(vsync: seq<bool>, j: int)
  {
    1 <= j < |vsync| && vsync[j] && !vsync[j - 1]
  }

  /** The first rising edge at or after sample i. */
  function RisingEdgeFrom(vsync: seq<bool>, i: nat): (e: nat)
    requires 1 <= i && exists j :: i <= j && RisingEdgeAt(vsync, j)
    decreases |vsync| - i
    ensures i <= e && RisingEdgeAt(vsync, e)
    ensures forall j :: i <= j < e ==> !RisingEdgeAt(vsync, j)
  {
    if RisingEdgeAt(vsync, i) then i else RisingEdgeFrom(vsync, i + 1)
  }

  /** The first rising edge of the sampled VSYNC line. */
  function FirstRisingEdge(vsync: seq<bool>): (e: nat)
    requires exists j :: RisingEdgeAt(vsync, j)
    ensures RisingEdgeAt(vsync, e)
    ensures forall j :: 0 <= j < e ==> !RisingEdgeAt(vsync, j)
  {
    RisingEdgeFrom(vsync, 1)
  }

  /** What happens to the DMA channel, in order. Start records the VSYNC sample after
      which the channel is started. */
  datatype DmaEvent = Configure(count: nat) | Start(sample: nat) | Finish | Abort

  /** ov2640_capture_frame: the channel is configured first, the line is waited on
      while high and then while low, and the transfer starts at the first rising edge.
      The channel then moves imageBufSize bytes from the PIO receive FIFO (fixed read
      address) into the buffer from offset 0 (incrementing write address), and is
      aborted. */
  method CaptureFrame(vsync: seq<bool>, rxFifo: seq<Byte>, imageBuf: array<Byte>, imageBufSize: nat)
      returns (events: seq<DmaEvent>)
    requires exists j :: RisingEdgeAt(vsync, j)
    requires imageBufSize <= imageBuf.Length && imageBufSize <= |rxFifo|
    modifies imageBuf
    ensures events == [Configure(imageBufSize), Start(FirstRisingEdge(vsync)), Finish, Abort]
    ensures imageBuf[..imageBufSize] == rxFifo[..imageBufSize]
    ensures imageBuf[imageBufSize..] == old(imageBuf[imageBufSize..])
  {
    events := [Configure(imageBufSize)];
    ghost var e := FirstRisingEdge(vsync);
    var i := 0;
    while vsync[i]
      invariant 0 <= i < e
      decreases e - i
    {
      i := i + 1;
    }
    i := i + 1;
    while !vsync[i]
      invariant 0 < i <= e
      invariant !vsync[i - 1]
      decreases e - i
    {
      i := i + 1;
    }
    assert RisingEdgeAt(vsync, i);
    events := events + [Start(i)];
    forall k | 0 <= k < imageBufSize {
      imageBuf[k] := rxFifo[k];
    }
    events := events + [Finish, Abort];
  }
}
