/** The ILI9341 LCD driver: the bytes it clocks out to the panel. A byte sent with the
    register-select line low is a command (`Cmd`), one sent with it high is a parameter
    or pixel byte (`Data`); delays are recorded where the driver sleeps. */
module Ili9341 {
  import opened Bytes
  import opened Yuv

  /** One step of the panel's serial bus, in the order the driver performs them. */
  datatype LcdOp = Cmd(b: Byte) | Data(b: Byte) | DelayMs(ms: nat) | DelayUs(us: nat)

  // Commands of sections 8.2.20 to 8.2.22 of the ILI9341 datasheet.
  const CASET: Byte := 0x2A   // column address set
  const PASET: Byte := 0x2B   // page (row) address set
  const RAMWR: Byte := 0x2C   // memory write

  const SCREEN_WIDTH: U16 := 240
  const SCREEN_HEIGHT: U16 := 320

  /** A negative C `int` count makes the driver's loops run zero times. */
  function Count(len: int): nat
  {
    if len < 0 then 0 else len
  }

  /** The bus steps of one command with its parameters: the command byte with RS low,
      then each parameter byte with RS high. */
  function CommandWrites(cmd: Byte, params: seq<Byte>): (ops: seq<LcdOp>)
    ensures |ops| == |params| + 1 && ops[0] == Cmd(cmd)
    ensures forall k :: 0 <= k < |params| ==> ops[k + 1] == Data(params[k])
  {
    [Cmd(cmd)] + seq(|params|, k requires 0 <= k < |params| => Data(params[k]))
  }

  /** lcd_write_cmd(cmd, count) with `cmd` pointing at offset `at` of `mem`: `count`
      counts the command byte together with its parameters, so `count - 1` parameter
      bytes follow when count >= 2. */
  method WriteCmd(mem: seq<Byte>, at: nat, count: nat) returns (ops: seq<LcdOp>)
    requires at < |mem| && at + count <= |mem|
    ensures |ops| == (if count >= 2 then count else 1)
    ensures ops == CommandWrites(mem[at], mem[at + 1..at + |ops|])
  {
    ops := [Cmd(mem[at])];
    if count >= 2 {
      var i := 0;
      while i < count - 1
        invariant 0 <= i <= count - 1
        invariant ops == CommandWrites(mem[at], mem[at + 1..at + 1 + i])
      {
        ops := ops + [Data(mem[at + 1 + i])];
        i := i + 1;
      }
    }
  }

  // ---------------------------------------------------------------------------
  // The initialisation table: records [n, d, cmd, n - 1 parameter bytes], where n
  // counts the command byte and d is the delay after the command in units of 5 ms,
  // ended by a record whose count is zero.

  /** At most 254 parameters: the count byte also counts the command. */
  type Params = p: seq<Byte> | |p| < 255

  datatype InitCmd = InitCmd(cmd: Byte, params: Params, delay: Byte)

  /** The bytes of one record. */
  function EncodeCmd(c: InitCmd): (s: seq<Byte>)
    ensures |s| == |c.params| + 3
  {
    [|c.params| + 1, c.delay, c.cmd] + c.params
  }

  /** A table of records followed by the terminating zero count. */
  function Encode(cs: seq<InitCmd>): (s: seq<Byte>)
  {
    if cs == [] then [0] else EncodeCmd(cs[0]) + Encode(cs[1..])
  }

  /** The records found by walking a table as lcd_init does, or None when the walk
      would read past its end. */
  function Parse(s: seq<Byte>): (r: Option<seq<InitCmd>>)
    decreases |s|
    ensures r.Some? ==> |s| > 0
  {
    if |s| == 0 then None
    else if s[0] == 0 then Some([])
    else
      var n: int := s[0];
      if 2 + n > |s| then None
      else
        match Parse(s[2 + n..])
        case None => None
        case Some(rest) => Some([InitCmd(s[2], s[3..2 + n], s[1])] + rest)
  }

  /** The bus steps of the records, each followed by its 5 * d ms delay. */
  function InitWrites(cs: seq<InitCmd>): seq<LcdOp>
  {
    if cs == [] then []
    else CommandWrites(cs[0].cmd, cs[0].params) + [DelayMs(5 * cs[0].delay)] + InitWrites(cs[1..])
  }

  /** Walking an encoded table gives back its records. */
  lemma {:induction false} ParseEncode(cs: seq<InitCmd>)
    ensures Parse(Encode(cs)) == Some(cs)
    decreases |cs|
  {
    if cs != [] {
      var c, rest := cs[0], cs[1..];
      var e := EncodeCmd(c);
      var s := Encode(cs);
      assert s == e + Encode(rest);
      assert s[0] == |c.params| + 1;
      assert s[2 + s[0]..] == Encode(rest);
      ParseEncode(rest);
      assert s[3..2 + s[0]] == c.params;
      assert [c] + rest == cs;
    }
  }

  /** Re-encoding the records a walk finds gives back the table up to and including
      its terminating zero count: the walk loses and invents no byte. */
  lemma {:induction false} EncodeParse(s: seq<Byte>)
    requires Parse(s).Some?
    ensures var e := Encode(Parse(s).value);
            |e| <= |s| && s[..|e|] == e
    decreases |s|
  {
    if s[0] != 0 {
      var n: int := s[0];
      var tail := s[2 + n..];
      EncodeParse(tail);
      var c := InitCmd(s[2], s[3..2 + n], s[1]);
      var rest := Parse(tail).value;
      assert Parse(s).value == [c] + rest;
      assert Encode(Parse(s).value) == EncodeCmd(c) + Encode(rest);
      assert EncodeCmd(c) == s[..2 + n];
      PrefixThenPrefix(s, 2 + n, Encode(rest));
    }
  }

  /** A prefix of the suffix s[k..] extends the prefix s[..k]. */
  lemma PrefixThenPrefix(s: seq<Byte>, k: nat, e: seq<Byte>)
    requires k <= |s| && |e| <= |s| - k && s[k..][..|e|] == e
    ensures k + |e| <= |s| && s[..k + |e|] == s[..k] + e
  {
    assert s[..k + |e|] == s[..k] + s[k..][..|e|];
  }

  /** The walk of lcd_init from offset pos stays inside the table and ends at a record
      whose count is zero. */
  predicate Walks(s: seq<Byte>, pos: nat)
    decreases |s| - pos
  {
    pos < |s| && (s[pos] == 0 || (pos + 2 + s[pos] <= |s| && Walks(s, pos + 2 + s[pos])))
  }

  /** The bus steps of the walk from offset pos, record by record. */
  function WalkWrites(s: seq<Byte>, pos: nat): seq<LcdOp>
    requires Walks(s, pos)
    decreases |s| - pos
  {
    if s[pos] == 0 then []
    else
      var n: int := s[pos];
      CommandWrites(s[pos + 2], s[pos + 3..pos + 2 + n]) + [DelayMs(5 * (s[pos + 1] as int))] + WalkWrites(s, pos + 2 + n)
  }

  /** The walk by offsets is the walk over suffixes: it succeeds exactly when Parse
      does, and sends the bus steps of the records Parse finds. */
  lemma {:induction false} WalkParse(s: seq<Byte>, pos: nat)
    requires pos <= |s|
    ensures Walks(s, pos) <==> Parse(s[pos..]).Some?
    ensures Walks(s, pos) ==> WalkWrites(s, pos) == InitWrites(Parse(s[pos..]).value)
    decreases |s| - pos
  {
    if pos < |s| && s[pos] != 0 {
      var t := s[pos..];
      var n: int := s[pos];
      if pos + 2 + n <= |s| {
        WalkParse(s, pos + 2 + n);
        assert t[2 + n..] == s[pos + 2 + n..];
        if Walks(s, pos) {
          var c := InitCmd(t[2], t[3..2 + n], t[1]);
          var rest := Parse(t[2 + n..]).value;
          assert t[3..2 + n] == s[pos + 3..pos + 2 + n];
          assert Parse(t).value == [c] + rest;
          assert ([c] + rest)[1..] == rest;
        }
      }
    }
  }

  /** A slice of a + b that lies in a, or that is all of b. */
  lemma SliceOfAppend<T>(a: seq<T>, b: seq<T>, i: nat, j: nat)
    requires i <= j <= |a| || (i == |a| && j == |a| + |b|)
    ensures j <= |a| ==> (a + b)[i..j] == a[i..j]
    ensures i == |a| && j == |a| + |b| ==> (a + b)[i..j] == b
  {
  }

  lemma AppendAssoc<T>(a: seq<T>, b: seq<T>, c: seq<T>, d: seq<T>)
    ensures a + (b + c + d) == a + b + c + d
  {
  }

  /** One record of the walk: its command writes and its delay come first. */
  lemma WalkStep(s: seq<Byte>, pos: nat, n: nat)
    requires Walks(s, pos) && n == s[pos] && n != 0
    ensures pos + 2 + n <= |s| && Walks(s, pos + 2 + n)
    ensures WalkWrites(s, pos) == CommandWrites(s[pos + 2], s[pos + 3..pos + 2 + n]) + [DelayMs(5 * (s[pos + 1] as int))]
                                  + WalkWrites(s, pos + 2 + n)
  {
  }

  /** lcd_init: walk the table, sending each record's command and parameters and then
      sleeping 5 * d ms, until a record with count zero. */
  method LcdInit(initSeq: seq<Byte>) returns (ops: seq<LcdOp>)
    requires Walks(initSeq, 0)
    ensures Parse(initSeq).Some? && ops == InitWrites(Parse(initSeq).value)
  {
    ghost var total := WalkWrites(initSeq, 0);
    var pos: nat := 0;
    ops := [];
    while initSeq[pos] != 0
      invariant Walks(initSeq, pos)
      invariant ops + WalkWrites(initSeq, pos) == total
      decreases |initSeq| - pos
    {
      var n: int := initSeq[pos];
      var w := WriteCmd(initSeq, pos + 2, n);
      var delay := DelayMs(5 * (initSeq[pos + 1] as int));
      assert |w| == n;
      WalkStep(initSeq, pos, n);
      AppendAssoc(ops, w, [delay], WalkWrites(initSeq, pos + 2 + n));
      ops := ops + w + [delay];
      pos := pos + 2 + n;
    }
    WalkParse(initSeq, 0);
    assert initSeq[0..] == initSeq;
  }

  /** The records of ili9341_init_seq, one per line of the table. */
  const INIT_CMDS: seq<InitCmd> := [
    InitCmd(0x01, [], 10),                        // software reset
    InitCmd(0x11, [], 5),                         // exit sleep mode
    InitCmd(0xEF, [0x03, 0x80, 0x02], 0),
    InitCmd(0xED, [0x64, 0x03, 0x12, 0x81], 0),   // power on sequence control
    InitCmd(0xCF, [0x00, 0xC1, 0x30], 0),         // power control B
    InitCmd(0xE8, [0x85, 0x00, 0x78], 0),         // driver timing control A
    InitCmd(0xF7, [0x20], 2),                     // pump ratio control
    InitCmd(0xEA, [0x00, 0x00], 0),               // driver timing control B
    InitCmd(0xC0, [0x23], 0),                     // power control 1
    InitCmd(0xC1, [0x10], 0),                     // power control 2
    InitCmd(0xC5, [0x3E, 0x28], 0),               // VCOM control 1
    InitCmd(0xC7, [0x86], 0),                     // VCOM control 2
    InitCmd(0x3A, [0x55], 2),                     // 16-bit colour mode
    InitCmd(0x36, [0x68], 0),                     // memory access control
    InitCmd(CASET, [0x00, 0x00, Hi8(SCREEN_WIDTH), Lo8(SCREEN_WIDTH)], 0),
    InitCmd(PASET, [0x00, 0x00, Hi8(SCREEN_HEIGHT), Lo8(SCREEN_HEIGHT)], 0),
    InitCmd(0xB1, [0x00, 0x10], 2),               // frame rate control, normal mode
    InitCmd(0xB3, [0x00, 0x10], 2),               // frame rate control, partial mode
    InitCmd(0xB6, [0x00, 0x82, 0x27], 2),         // display function control
    InitCmd(0xF2, [0x00], 2),
    InitCmd(0x26, [0x01], 0),
    InitCmd(0xE0, [0x1F, 0x36, 0x36, 0x3A, 0x0C, 0x05, 0x4F, 0x87, 0x3C, 0x08, 0x11, 0x35, 0x19, 0x13, 0x00], 0),
    InitCmd(0xE1, [0x00, 0x09, 0x09, 0x05, 0x13, 0x0A, 0x30, 0x78, 0x43, 0x07, 0x0E, 0x0A, 0x26, 0x2C, 0x1F], 0),
    InitCmd(0x13, [], 0),                         // normal display on
    InitCmd(0x29, [], 0)                          // display on
  ]

  /** The lines of ili9341_init_seq, one record per line, as the bytes the source
      writes: count (command byte included), delay in units of 5 ms, command,
      parameters. */
  const INIT_SEQ_LINES: seq<seq<Byte>> := [
    [1, 10, 0x01],
    [1, 5, 0x11],
    [4, 0, 0xEF, 0x03, 0x80, 0x02],
    [5, 0, 0xED, 0x64, 0x03, 0x12, 0x81],
    [4, 0, 0xCF, 0x00, 0xC1, 0x30],
    [4, 0, 0xE8, 0x85, 0x00, 0x78],
    [2, 2, 0xF7, 0x20],
    [3, 0, 0xEA, 0x00, 0x00],
    [2, 0, 0xC0, 0x23],
    [2, 0, 0xC1, 0x10],
    [3, 0, 0xC5, 0x3E, 0x28],
    [2, 0, 0xC7, 0x86],
    [2, 2, 0x3A, 0x55],
    [2, 0, 0x36, 0x68],
    [5, 0, 0x2A, 0x00, 0x00, Hi8(SCREEN_WIDTH), Lo8(SCREEN_WIDTH)],
    [5, 0, 0x2B, 0x00, 0x00, Hi8(SCREEN_HEIGHT), Lo8(SCREEN_HEIGHT)],
    [3, 2, 0xB1, 0x00, 0x10],
    [3, 2, 0xB3, 0x00, 0x10],
    [4, 2, 0xB6, 0x00, 0x82, 0x27],
    [2, 2, 0xF2, 0x00],
    [2, 0, 0x26, 0x01],
    [16, 0, 0xE0, 0x1F, 0x36, 0x36, 0x3A, 0x0C, 0x05, 0x4F, 0x87, 0x3C, 0x08, 0x11, 0x35, 0x19, 0x13, 0x00],
    [16, 0, 0xE1, 0x00, 0x09, 0x09, 0x05, 0x13, 0x0A, 0x30, 0x78, 0x43, 0x07, 0x0E, 0x0A, 0x26, 0x2C, 0x1F],
    [1, 0, 0x13],
    [1, 0, 0x29]
  ]

  /** The lines from line k on, followed by the terminating zero count. */
  function JoinLines(lines: seq<seq<Byte>>, k: nat): seq<Byte>
    requires k <= |lines|
    decreases |lines| - k
  {
    if k == |lines| then [0] else lines[k] + JoinLines(lines, k + 1)
  }

  /** ili9341_init_seq: its lines, then the zero count that ends it. */
  const ILI9341_INIT_SEQ: seq<Byte> := JoinLines(INIT_SEQ_LINES, 0)

  /** Each line of the table is the encoding of the corresponding record. */
  lemma InitLinesAreRecords()
    ensures |INIT_SEQ_LINES| == |INIT_CMDS| == 25
    ensures forall i :: 0 <= i < 25 ==> EncodeCmd(INIT_CMDS[i]) == INIT_SEQ_LINES[i]
  {
    forall i | 0 <= i < 25
      ensures EncodeCmd(INIT_CMDS[i]) == INIT_SEQ_LINES[i]
    {
      if i < 5 { LinesAreRecords0To4(i); }
      else if i < 10 { LinesAreRecords5To9(i); }
      else if i < 15 { LinesAreRecords10To14(i); }
      else if i < 20 { LinesAreRecords15To19(i); }
      else if i < 21 { LineIsRecord20(); }
      else if i < 22 { LineIsRecord21(); }
      else if i < 23 { LineIsRecord22(); }
      else { LinesAreRecords23To24(i); }
    }
  }

  // The record checks are split so that each proof stays small.
  lemma LinesAreRecords0To4(i: nat)
    requires 0 <= i < 5
    ensures i < |INIT_CMDS| && i < |INIT_SEQ_LINES| && EncodeCmd(INIT_CMDS[i]) == INIT_SEQ_LINES[i]
  {
  }

  lemma LinesAreRecords5To9(i: nat)
    requires 5 <= i < 10
    ensures i < |INIT_CMDS| && i < |INIT_SEQ_LINES| && EncodeCmd(INIT_CMDS[i]) == INIT_SEQ_LINES[i]
  {
  }

  lemma LinesAreRecords10To14(i: nat)
    requires 10 <= i < 15
    ensures i < |INIT_CMDS| && i < |INIT_SEQ_LINES| && EncodeCmd(INIT_CMDS[i]) == INIT_SEQ_LINES[i]
  {
  }

  lemma LinesAreRecords15To19(i: nat)
    requires 15 <= i < 20
    ensures i < |INIT_CMDS| && i < |INIT_SEQ_LINES| && EncodeCmd(INIT_CMDS[i]) == INIT_SEQ_LINES[i]
  {
  }

  lemma LineIsRecord20()
    ensures 20 < |INIT_CMDS| && 20 < |INIT_SEQ_LINES| && EncodeCmd(INIT_CMDS[20]) == INIT_SEQ_LINES[20]
  {
  }

  lemma LineIsRecord21()
    ensures 21 < |INIT_CMDS| && 21 < |INIT_SEQ_LINES| && EncodeCmd(INIT_CMDS[21]) == INIT_SEQ_LINES[21]
  {
  }

  lemma LineIsRecord22()
    ensures 22 < |INIT_CMDS| && 22 < |INIT_SEQ_LINES| && EncodeCmd(INIT_CMDS[22]) == INIT_SEQ_LINES[22]
  {
  }

  lemma LinesAreRecords23To24(i: nat)
    requires 23 <= i < 25
    ensures i < |INIT_CMDS| && i < |INIT_SEQ_LINES| && EncodeCmd(INIT_CMDS[i]) == INIT_SEQ_LINES[i]
  {
  }

  /** Lines that encode records join into the encoding of the records. */
  lemma {:induction false} EncodeLines(cs: seq<InitCmd>, lines: seq<seq<Byte>>, k: nat)
    requires |cs| == |lines| && k <= |cs|
    requires forall i :: k <= i < |cs| ==> EncodeCmd(cs[i]) == lines[i]
    ensures Encode(cs[k..]) == JoinLines(lines, k)
    decreases |cs| - k
  {
    if k < |cs| {
      EncodeLines(cs, lines, k + 1);
      assert cs[k..][1..] == cs[k + 1..];
    } else {
      assert cs[k..] == [];
    }
  }

  /** The bytes of ili9341_init_seq are the encoding of its 25 records, so the walk
      over them yields those records and ends exactly on the final zero. */
  lemma InitSeqWellFormed()
    ensures ILI9341_INIT_SEQ == Encode(INIT_CMDS)
    ensures Parse(ILI9341_INIT_SEQ) == Some(INIT_CMDS) && |INIT_CMDS| == 25
    ensures Encode(Parse(ILI9341_INIT_SEQ).value) == ILI9341_INIT_SEQ
  {
    InitLinesAreRecords();
    EncodeLines(INIT_CMDS, INIT_SEQ_LINES, 0);
    assert INIT_CMDS[0..] == INIT_CMDS;
    ParseEncode(INIT_CMDS);
  }

  // ---------------------------------------------------------------------------
  // Address window.

  /** The 16-bit value of a big-endian byte pair. */
  function Be16(hi: Byte, lo: Byte): U16
  {
    0x100 * hi + lo
  }

  /** ili9341_openwindow: CASET with start column x1 and end column x1 + x2 - 1, PASET
      with start row y1 and end row y1 + y2 - 1, each big-endian, a 100 us pause, then
      RAMWR. The end is a C `int` sum; `>> 8` and the conversion to uint8_t keep bits
      8..15 and 0..7 of it. The values of the data bytes are stated by
      OpenWindowDecodes and OpenWindowBounds. */
  function OpenWindowWrites(x1: U16, y1: U16, x2: U16, y2: U16): (ops: seq<LcdOp>)
    ensures |ops| == 12
    ensures ops[0] == Cmd(CASET) && ops[5] == Cmd(PASET) && ops[10] == DelayUs(100) && ops[11] == Cmd(RAMWR)
    ensures ops[1].Data? && ops[2].Data? && ops[3].Data? && ops[4].Data?
    ensures ops[6].Data? && ops[7].Data? && ops[8].Data? && ops[9].Data?
  {
    var xe := x1 + x2 - 1;
    var ye := y1 + y2 - 1;
    [Cmd(CASET), Data(Hi8(x1)), Data(Lo8(x1)), Data(Lo8(xe / 0x100)), Data(Lo8(xe)),
     Cmd(PASET), Data(Hi8(y1)), Data(Lo8(y1)), Data(Lo8(ye / 0x100)), Data(Lo8(ye)),
     DelayUs(100), Cmd(RAMWR)]
  }

  /** Bits 8..15 and 0..7 of a C `int`, read back big-endian, are its low 16 bits. */
  lemma Be16OfInt(x: int)
    ensures Be16(Lo8(x / 0x100), Lo8(x)) == x % 0x1_0000
  {
    var q := x / 0x100;
    assert x == 0x100 * q + x % 0x100;
    assert q == 0x100 * (q / 0x100) + q % 0x100;
    assert x == 0x1_0000 * (q / 0x100) + (0x100 * (q % 0x100) + x % 0x100);
  }

  /** The parameters of the address commands read back as the window's first and last
      column and row; the last ones modulo 2^16. */
  lemma OpenWindowDecodes(x1: U16, y1: U16, x2: U16, y2: U16)
    ensures var ops := OpenWindowWrites(x1, y1, x2, y2);
            Be16(ops[1].b, ops[2].b) == x1 && Be16(ops[3].b, ops[4].b) == (x1 + x2 - 1) % 0x1_0000 &&
            Be16(ops[6].b, ops[7].b) == y1 && Be16(ops[8].b, ops[9].b) == (y1 + y2 - 1) % 0x1_0000
  {
    Be16OfInt(x1 + x2 - 1);
    Be16OfInt(y1 + y2 - 1);
  }

  /** A window that fits the 16-bit address space is sent as its exact bounds. */
  lemma OpenWindowBounds(x1: U16, y1: U16, x2: U16, y2: U16)
    requires 1 <= x2 && x1 + x2 <= 0x1_0000 && 1 <= y2 && y1 + y2 <= 0x1_0000
    ensures var ops := OpenWindowWrites(x1, y1, x2, y2);
            Be16(ops[3].b, ops[4].b) == x1 + x2 - 1 && Be16(ops[8].b, ops[9].b) == y1 + y2 - 1
  {
    OpenWindowDecodes(x1, y1, x2, y2);
  }

  // ---------------------------------------------------------------------------
  // Pixels. The frame buffer holds bytes; the C code reads it as little-endian
  // uint16_t pixels (RGB565) or uint32_t words (YUV422).

  /** shiftout(val, 16): a 16-bit pixel goes out high byte first, RS left high. */
  function PixelWrites(px: U16): seq<LcdOp>
  {
    [Data(Hi8(px)), Data(Lo8(px))]
  }

  /** The pixel stored little-endian at bytes 2i and 2i + 1. */
  function HalfWord(s: seq<Byte>, i: nat): U16
    requires 2 * i + 1 < |s|
  {
    Le16(s[2 * i], s[2 * i + 1])
  }

  /** What ili9341_show_rgb565_data sends for the first n pixels of s; the byte sent
      at each step is stated by Rgb565WritesSwapped. */
  function Rgb565Writes(s: seq<Byte>, n: nat): (ops: seq<LcdOp>)
    requires 2 * n <= |s|
    ensures |ops| == 2 * n
  {
    if n == 0 then [] else Rgb565Writes(s, n - 1) + PixelWrites(HalfWord(s, n - 1))
  }

  /** Every stored byte pair goes out swapped: the byte at 2i + 1 (the pixel's high
      byte) first, then the byte at 2i. */
  lemma {:induction false} Rgb565WritesSwapped(s: seq<Byte>, n: nat, k: nat)
    requires 2 * n <= |s| && k < 2 * n
    ensures Rgb565Writes(s, n)[k] == Data(if k % 2 == 0 then s[k + 1] else s[k - 1])
    decreases n
  {
    var prev := Rgb565Writes(s, n - 1);
    if k < 2 * (n - 1) {
      Rgb565WritesSwapped(s, n - 1, k);
    } else {
      Le16Bytes(s[2 * (n - 1)], s[2 * (n - 1) + 1]);
    }
  }

  /** ili9341_show_rgb565_data(data, len) */
  method ShowRgb565Data(data: array<Byte>, len: int) returns (ops: seq<LcdOp>)
    requires 2 * len <= data.Length
    ensures ops == Rgb565Writes(data[..], Count(len))
  {
    ops := [];
    var i := 0;
    while i < len
      invariant 0 <= i <= Count(len)
      invariant ops == Rgb565Writes(data[..], i)
    {
      var px := Le16(data[2 * i], data[2 * i + 1]);
      ops := ops + PixelWrites(px);
      i := i + 1;
    }
  }

  /** yuv422_to_rgb565: the RGB565 pixel of one Y'CbCr sample, as the uint16_t that
      VP8YuvToRgb565 fills byte by byte; the driver also pushes it with PixelWrites. */
  function Yuv422ToRgb565(y: Byte, u: Byte, v: Byte): (rgb: U16)
    ensures rgb == Rgb565(YuvToR(y, v), YuvToG(y, u, v), YuvToB(y, u))
  {
    var p := YuvToRgb565(y, u, v);
    Le16(p.lo, p.hi)
  }

  /** A Y'CbCr -> RGB565 pixel conversion. The layout of ili9341_show_yuv422_data is
      stated for any conversion and used with Yuv422ToRgb565. */
  type PixelConverter = (Byte, Byte, Byte) -> U16

  /** The two pixels of one YUYV word with bytes Y0 U Y1 V: (Y0, U, V) then (Y1, U, V). */
  function PairWrites(conv: PixelConverter, y1: Byte, u: Byte, y2: Byte, v: Byte): seq<LcdOp>
  {
    PixelWrites(conv(y1, u, v)) + PixelWrites(conv(y2, u, v))
  }

  /** The word stored little-endian at bytes 4i .. 4i + 3. */
  function Word(s: seq<Byte>, i: nat): U32
    requires 4 * i + 3 < |s|
  {
    Le32(s[4 * i], s[4 * i + 1], s[4 * i + 2], s[4 * i + 3])
  }

  /** What ili9341_show_yuv422_data sends for the first n words of s: word i, with
      bytes Y0 U Y1 V, becomes the pixels (Y0, U, V) and (Y1, U, V), as Yuv422WritesWord
      states. */
  function Yuv422Writes(s: seq<Byte>, n: nat, conv: PixelConverter): (ops: seq<LcdOp>)
    requires 4 * n <= |s|
    ensures |ops| == 4 * n
  {
    if n == 0 then []
    else
      var i := n - 1;
      Yuv422Writes(s, i, conv) + PairWrites(conv, s[4 * i], s[4 * i + 1], s[4 * i + 2], s[4 * i + 3])
  }

  /** Word i of the buffer lands at output steps 4i .. 4i + 3. */
  lemma {:induction false} Yuv422WritesWord(s: seq<Byte>, n: nat, conv: PixelConverter, i: nat)
    requires 4 * n <= |s| && i < n
    ensures Yuv422Writes(s, n, conv)[4 * i..4 * i + 4] == PairWrites(conv, s[4 * i], s[4 * i + 1], s[4 * i + 2], s[4 * i + 3])
    decreases n
  {
    var prev := Yuv422Writes(s, n - 1, conv);
    var last := PairWrites(conv, s[4 * (n - 1)], s[4 * (n - 1) + 1], s[4 * (n - 1) + 2], s[4 * (n - 1) + 3]);
    if i < n - 1 {
      Yuv422WritesWord(s, n - 1, conv, i);
      SliceOfAppend(prev, last, 4 * i, 4 * i + 4);
    } else {
      SliceOfAppend(prev, last, |prev|, |prev| + |last|);
    }
  }

  /** One more word, split into its byte lanes with shifts and masks, extends the
      output by that word's two pixels. */
  lemma Yuv422WritesStep(s: seq<Byte>, i: nat, conv: PixelConverter)
    requires 4 * (i + 1) <= |s|
    ensures var w := Word(s, i);
            Yuv422Writes(s, i + 1, conv)
            == Yuv422Writes(s, i, conv) + PairWrites(conv, Lo8(w), Lo8(w / 0x100), Lo8(w / 0x1_0000), Lo8(w / 0x100_0000))
  {
    Le32Lanes(s[4 * i], s[4 * i + 1], s[4 * i + 2], s[4 * i + 3]);
  }

  /** The loop of ili9341_show_yuv422_data with the pixel conversion it calls given as
      conv: each uint32_t word is split with shifts and masks into Y0 (bits 0..7),
      U (8..15), Y1 (16..23) and V (24..31), and two converted pixels are sent. */
  method ShowYuv422With(data: array<Byte>, len: int, conv: PixelConverter) returns (ops: seq<LcdOp>)
    requires 4 * len <= data.Length
    ensures ops == Yuv422Writes(data[..], Count(len), conv)
  {
    ops := [];
    var i := 0;
    while i < len
      invariant 0 <= i <= Count(len)
      invariant ops == Yuv422Writes(data[..], i, conv)
    {
      var w := Word(data[..], i);
      Yuv422WritesStep(data[..], i, conv);
      var y1, u, y2, v := Lo8(w), Lo8(w / 0x100), Lo8(w / 0x1_0000), Lo8(w / 0x100_0000);
      ops := ops + PairWrites(conv, y1, u, y2, v);
      i := i + 1;
    }
    assert i == Count(len);
  }

  /** ili9341_show_yuv422_data(data, len): 2 * len pixels converted by yuv422_to_rgb565. */
  method ShowYuv422Data(data: array<Byte>, len: int) returns (ops: seq<LcdOp>)
    requires 4 * len <= data.Length
    ensures ops == Yuv422Writes(data[..], Count(len), Yuv422ToRgb565)
  {
    ops := ShowYuv422With(data, len, Yuv422ToRgb565);
  }

  // ---------------------------------------------------------------------------
  // rgb565_to_yuv422: in place, one uint32_t word (two RGB565 pixels) at a time.

  /** The three channels color16to24 stores into `uint8_t rgb[3]`. */
  datatype Rgb24 = Rgb24(r: Byte, g: Byte, b: Byte)

  /** The colour helpers rgb565_to_yuv422 calls, whose definitions are not part of this
      model: color16to24 and libwebp's VP8RGBToY/U/V (red, green, blue, rounding), each
      taken as an arbitrary function with an 8-bit result. */
  datatype ColorOps = ColorOps(
    color16to24: U16 -> Rgb24,
    rgbToY: (int, int, int, int) -> Byte,
    rgbToU: (int, int, int, int) -> Byte,
    rgbToV: (int, int, int, int) -> Byte)

  /** The four bytes written over a word whose low half-word is pixel `first` and high
      half-word is pixel `second`: Y of the first pixel, U of the pair, Y of the second,
      V of the pair. Chroma is computed on the channel sums with rounding
      YUV_HALF << 2. */
  function ConvertPair(ops: ColorOps, first: U16, second: U16): (w: seq<Byte>)
    ensures |w| == 4
  {
    var c1 := ops.color16to24(first);
    var c2 := ops.color16to24(second);
    [ops.rgbToY(c1.r, c1.g, c1.b, YUV_HALF),
     ops.rgbToU(c1.r + c2.r, c1.g + c2.g, c1.b + c2.b, YUV_HALF * 4),
     ops.rgbToY(c2.r, c2.g, c2.b, YUV_HALF),
     ops.rgbToV(c1.r + c2.r, c1.g + c2.g, c1.b + c2.b, YUV_HALF * 4)]
  }

  /** The converted form of the first n words of s; word i of it is stated by
      ConvertedWordsAt. */
  function ConvertedWords(s: seq<Byte>, n: nat, ops: ColorOps): (r: seq<Byte>)
    requires 4 * n <= |s|
    ensures |r| == 4 * n
  {
    if n == 0 then []
    else ConvertedWords(s, n - 1, ops) + ConvertPair(ops, HalfWord(s, 2 * (n - 1)), HalfWord(s, 2 * (n - 1) + 1))
  }

  /** The buffer after converting its first n words in place; its words are stated
      by ConvertedWordAt and its unchanged tail by ConvertedKeepsTail. */
  function Converted(s: seq<Byte>, n: nat, ops: ColorOps): (r: seq<Byte>)
    requires 4 * n <= |s|
    ensures |r| == |s|
  {
    ConvertedWords(s, n, ops) + s[4 * n..]
  }

  /** Overwriting four consecutive elements in the order 0, 2, 1, 3. */
  lemma ReplaceFour<T>(p: seq<T>, rest: seq<T>, x: seq<T>)
    requires |x| == 4 <= |rest|
    ensures (p + rest)[|p| := x[0]][|p| + 2 := x[2]][|p| + 1 := x[1]][|p| + 3 := x[3]] == p + x + rest[4..]
  {
  }

  /** Word i, read from the buffer converted up to word i, still holds the two pixels
      of the original buffer: `w & 0xffff` is the first and `(w >> 16) & 0xffff` the
      second. */
  lemma WordPixels(s0: seq<Byte>, i: nat, ops: ColorOps, before: seq<Byte>)
    requires 4 * (i + 1) <= |s0| && before == ConvertedWords(s0, i, ops) + s0[4 * i..]
    ensures Word(before, i) % 0x1_0000 == HalfWord(s0, 2 * i)
    ensures (Word(before, i) / 0x1_0000) % 0x1_0000 == HalfWord(s0, 2 * i + 1)
  {
    assert before[4 * i..4 * i + 4] == s0[4 * i..4 * i + 4];
    Le32Halves(s0[4 * i], s0[4 * i + 1], s0[4 * i + 2], s0[4 * i + 3]);
  }

  /** One iteration of rgb565_to_yuv422: converting the pixels read from word i and
      writing the result over it extends the converted prefix by one word. */
  lemma ConvertStep(s0: seq<Byte>, i: nat, ops: ColorOps, before: seq<Byte>, after: seq<Byte>)
    requires 4 * (i + 1) <= |s0| && before == ConvertedWords(s0, i, ops) + s0[4 * i..]
    requires var w := Word(before, i);
             var x := ConvertPair(ops, w % 0x1_0000, (w / 0x1_0000) % 0x1_0000);
             after == before[4 * i := x[0]][4 * i + 2 := x[2]][4 * i + 1 := x[1]][4 * i + 3 := x[3]]
    ensures after == ConvertedWords(s0, i + 1, ops) + s0[4 * (i + 1)..]
  {
    WordPixels(s0, i, ops, before);
    var x := ConvertPair(ops, HalfWord(s0, 2 * i), HalfWord(s0, 2 * i + 1));
    ReplaceFour(ConvertedWords(s0, i, ops), s0[4 * i..], x);
    assert s0[4 * i..][4..] == s0[4 * (i + 1)..];
  }

  /** The body of rgb565_to_yuv422's loop for word i: both pixels are read with
      `& 0xffff` and `(>> 16) & 0xffff` before the word's bytes are overwritten, in the
      order dst[0], dst[2], dst[1], dst[3]. */
  method ConvertWord(data: array<Byte>, i: nat, ops: ColorOps)
    requires 4 * i + 3 < data.Length
    modifies data
    ensures var w := Word(old(data[..]), i);
            var x := ConvertPair(ops, w % 0x1_0000, (w / 0x1_0000) % 0x1_0000);
            data[..] == old(data[..])[4 * i := x[0]][4 * i + 2 := x[2]][4 * i + 1 := x[1]][4 * i + 3 := x[3]]
  {
    var w := Le32(data[4 * i], data[4 * i + 1], data[4 * i + 2], data[4 * i + 3]);
    var first: U16 := w % 0x1_0000;
    var second: U16 := (w / 0x1_0000) % 0x1_0000;
    var x := ConvertPair(ops, first, second);
    data[4 * i] := x[0];
    data[4 * i + 2] := x[2];
    data[4 * i + 1] := x[1];
    data[4 * i + 3] := x[3];
  }

  /** rgb565_to_yuv422(data, len): converts the first len words in place and leaves
      the rest of the buffer alone. */
  method Rgb565ToYuv422(data: array<Byte>, len: int, ops: ColorOps)
    requires 4 * len <= data.Length
    modifies data
    ensures data[..] == Converted(old(data[..]), Count(len), ops)
  {
    ghost var s0 := data[..];
    var i := 0;
    while i < len
      invariant 0 <= i <= Count(len)
      invariant data[..] == ConvertedWords(s0, i, ops) + s0[4 * i..]
    {
      ghost var before := data[..];
      ConvertWord(data, i, ops);
      ConvertStep(s0, i, ops, before, data[..]);
      i := i + 1;
    }
    assert i == Count(len);
  }

  /** Word i of the converted prefix is the conversion of the original word i. */
  lemma {:induction false} ConvertedWordsAt(s: seq<Byte>, n: nat, ops: ColorOps, i: nat)
    requires 4 * n <= |s| && i < n
    ensures ConvertedWords(s, n, ops)[4 * i..4 * i + 4] == ConvertPair(ops, HalfWord(s, 2 * i), HalfWord(s, 2 * i + 1))
    decreases n
  {
    var j := n - 1;
    var prev := ConvertedWords(s, j, ops);
    var last := ConvertPair(ops, HalfWord(s, 2 * j), HalfWord(s, 2 * j + 1));
    assert ConvertedWords(s, n, ops) == prev + last;
    if i < j {
      ConvertedWordsAt(s, j, ops, i);
      SliceOfAppend(prev, last, 4 * i, 4 * i + 4);
    } else {
      assert i == j;
      SliceOfAppend(prev, last, |prev|, |prev| + |last|);
    }
  }

  /** Word i of the converted buffer is the conversion of the original word i: its low
      half-word as the first pixel and its high half-word as the second. */
  lemma ConvertedWordAt(s: seq<Byte>, n: nat, ops: ColorOps, i: nat)
    requires 4 * n <= |s| && i < n
    ensures Converted(s, n, ops)[4 * i..4 * i + 4] == ConvertPair(ops, HalfWord(s, 2 * i), HalfWord(s, 2 * i + 1))
  {
    ConvertedWordsAt(s, n, ops, i);
    SliceOfAppend(ConvertedWords(s, n, ops), s[4 * n..], 4 * i, 4 * i + 4);
  }

  /** Bytes past the first n words are not touched. */
  lemma ConvertedKeepsTail(s: seq<Byte>, n: nat, ops: ColorOps)
    requires 4 * n <= |s|
    ensures Converted(s, n, ops)[4 * n..] == s[4 * n..]
  {
  }

  /** Swapping the two pixels of a word swaps its Y bytes and keeps its shared chroma. */
  lemma ConvertPairSwap(ops: ColorOps, p: U16, q: U16)
    ensures var w := ConvertPair(ops, p, q);
            ConvertPair(ops, q, p) == [w[2], w[1], w[0], w[3]]
  {
  }

  /** The first Y byte depends only on the first pixel. */
  lemma ConvertPairFirstLuma(ops: ColorOps, p: U16, q1: U16, q2: U16)
    ensures ConvertPair(ops, p, q1)[0] == ConvertPair(ops, p, q2)[0]
  {
  }

  /** main_lcd_init (after pin set-up): the table, then a window of SCREEN_HEIGHT columns
      by SCREEN_WIDTH rows at the origin. */
  method MainLcdInit() returns (ops: seq<LcdOp>)
    ensures ops == InitWrites(INIT_CMDS) + OpenWindowWrites(0, 0, SCREEN_HEIGHT, SCREEN_WIDTH)
  {
    InitSeqWellFormed();
    WalkParse(ILI9341_INIT_SEQ, 0);
    assert ILI9341_INIT_SEQ[0..] == ILI9341_INIT_SEQ;
    ops := LcdInit(ILI9341_INIT_SEQ);
    ops := ops + OpenWindowWrites(0, 0, SCREEN_HEIGHT, SCREEN_WIDTH);
  }
}
