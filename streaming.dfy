/** The frame pacing of the main loop without an RTOS: video_task, called on every
    pass of the loop, and the two USB video callbacks (transfer complete and commit).

    The statics start_ms, already_sent, tx_busy, frame_num and interval_ms are
    `unsigned` (32 bits). The millisecond clock, the streaming flag of the USB video
    interface, the camera, the LCD and the USB transfer are outside the model: the
    clock reading and the streaming flag are parameters of a tick, and the calls into
    the camera, the LCD and the USB stack are recorded, in order, as Actions. */
module Streaming {
  import opened Bytes
  import opened Ov2640Regs

  /** A call video_task makes. Lengths are the arguments passed. */
  datatype Action =
    | CheckJpegEoi(length: nat)      // cam_verify_jpeg_eoi(image_buf, size); result unused
    | CheckJpegSoi(length: nat)      // cam_verify_jpeg_soi(image_buf, size); result unused
    | Capture                        // ov2640_capture_frame
    | ShowRgb565(pixels: nat)        // ili9341_show_rgb565_data(image_buf, size / 2)
    | ShowYuv422(words: nat)         // ili9341_show_yuv422_data(image_buf, size / 4)
    | ConvertToYuv422(words: nat)    // rgb565_to_yuv422(image_buf, size / 4)
    | Transfer(bytes: nat)           // tud_video_n_frame_xfer(0, 0, image_buf, size)

  /** The statics of the scheduler. */
  datatype StreamState = StreamState(startMs: U32, alreadySent: U32, txBusy: U32, frameNum: U32, intervalMs: U32)

  /** already_sent and tx_busy only ever hold 0 or 1. */
  predicate Flags(s: StreamState)
  {
    s.alreadySent <= 1 && s.txBusy <= 1
  }

  /** The state after a call, and the calls it made. */
  datatype Step = Step(next: StreamState, actions: seq<Action>)

  /** The JPEG checks made on every streaming tick, before any capture. */
  function JpegChecks(fmt: PixFormat, size: nat): seq<Action>
  {
    if fmt == Jpeg then [CheckJpegEoi(size), CheckJpegSoi(size)] else []
  }

  /** The LCD preview and conversion of the first frame after (re)start. */
  function FirstFramePreview(fmt: PixFormat, size: nat): seq<Action>
  {
    if fmt == Rgb565 then [ShowRgb565(size / 2), ConvertToYuv422(size / 4)]
    else if fmt == Yuv422 then [ShowYuv422(size / 4)]
    else []
  }

  /** The LCD preview of a paced frame; RGB565 frames are sent unconverted. */
  function PacedPreview(fmt: PixFormat, size: nat): seq<Action>
  {
    if fmt == Rgb565 then [ShowRgb565(size / 2)]
    else if fmt == Yuv422 then [ShowYuv422(size / 4)]
    else []
  }

  /** A frame is due once interval_ms have passed since start_ms, measured with
      unsigned wrap-around. */
  predicate Due(s: StreamState, now: U32)
  {
    Sub32(now, s.startMs) >= s.intervalMs
  }

  /** One call of video_task at clock reading `now`; `streaming` is the answer of
      tud_video_n_streaming, `fmt` and `size` the camera's pixel format and
      image_buf_size. */
  function TickSpec(s: StreamState, now: U32, streaming: bool, fmt: PixFormat, size: nat): Step
  {
    if !streaming then
      Step(s.(alreadySent := 0, frameNum := 0), [])
    else if s.alreadySent == 0 then
      Step(s.(alreadySent := 1, txBusy := 1, startMs := now),
           JpegChecks(fmt, size) + [Capture] + FirstFramePreview(fmt, size) + [Transfer(size)])
    else if !Due(s, now) || s.txBusy != 0 then
      Step(s, JpegChecks(fmt, size))
    else
      Step(s.(txBusy := 1, startMs := Add32(s.startMs, s.intervalMs)),
           JpegChecks(fmt, size) + [Capture] + PacedPreview(fmt, size) + [Transfer(size)])
  }

  /** tud_video_frame_xfer_complete_cb */
  function CompleteSpec(s: StreamState): StreamState
  {
    s.(txBusy := 0, frameNum := Add32(s.frameNum, 1))
  }

  /** dwFrameInterval is in units of 100 ns (section 4.3.1.1 of the USB Device Class
      Definition for Video Devices, version 1.5); interval_ms is it in whole
      milliseconds, rounded down. */
  function IntervalMs(dwFrameInterval: U32): (ms: U32)
    ensures ms * 10000 <= dwFrameInterval < (ms + 1) * 10000
  {
    dwFrameInterval / 10000
  }

  /** tud_video_commit_cb */
  function CommitSpec(s: StreamState, dwFrameInterval: U32): StreamState
  {
    s.(intervalMs := IntervalMs(dwFrameInterval))
  }

  // ---------------------------------------------------------------------------
  // The scheduler as the firmware runs it

  class VideoStreamer {
    var startMs: U32
    var alreadySent: U32
    var txBusy: U32
    var frameNum: U32
    var intervalMs: U32
    /** The calls made so far. */
    var trace: seq<Action>
    const pixformat: PixFormat
    const imageBufSize: nat

    function Snapshot(): StreamState
      reads this
    {
      StreamState(startMs, alreadySent, txBusy, frameNum, intervalMs)
    }

    predicate Valid()
      reads this
    {
      Flags(Snapshot())
    }

    /** The statics at start-up: all zero, interval_ms = 1000 / FRAME_RATE. */
    constructor(frameRate: nat, pixformat: PixFormat, imageBufSize: nat)
      requires 0 < frameRate
      ensures Valid()
      ensures Snapshot() == StreamState(0, 0, 0, 0, 1000 / frameRate)
      ensures this.pixformat == pixformat && this.imageBufSize == imageBufSize
      ensures trace == []
    {
      startMs := 0;
      alreadySent := 0;
      txBusy := 0;
      frameNum := 0;
      intervalMs := 1000 / frameRate;
      trace := [];
      this.pixformat := pixformat;
      this.imageBufSize := imageBufSize;
    }

    /** video_task, with `now` the value board_millis() returns in this call and
        `streaming` the value of tud_video_n_streaming(0, 0). */
    method Tick(now: U32, streaming: bool)
      requires Valid()
      modifies this
      ensures Valid()
      ensures Snapshot() == TickSpec(old(Snapshot()), now, streaming, pixformat, imageBufSize).next
      ensures trace == old(trace) + TickSpec(old(Snapshot()), now, streaming, pixformat, imageBufSize).actions
    {
      if !streaming {
        alreadySent := 0;
        frameNum := 0;
        return;
      }
      ghost var before := trace;
      if pixformat == Jpeg {
        trace := trace + [CheckJpegEoi(imageBufSize), CheckJpegSoi(imageBufSize)];
      }
      assert trace == before + JpegChecks(pixformat, imageBufSize);
      if alreadySent == 0 {
        alreadySent := 1;
        txBusy := 1;
        startMs := now;
        trace := trace + [Capture];
        ghost var captured := trace;
        if pixformat == Rgb565 {
          trace := trace + [ShowRgb565(imageBufSize / 2)];
          trace := trace + [ConvertToYuv422(imageBufSize / 4)];
        } else if pixformat == Yuv422 {
          trace := trace + [ShowYuv422(imageBufSize / 4)];
        }
        assert trace == captured + FirstFramePreview(pixformat, imageBufSize);
        trace := trace + [Transfer(imageBufSize)];
        AppendFour(before, JpegChecks(pixformat, imageBufSize), [Capture], FirstFramePreview(pixformat, imageBufSize),
                   [Transfer(imageBufSize)]);
        return;
      }
      var cur := now;
      if Sub32(cur, startMs) < intervalMs {
        return;
      }
      if txBusy != 0 {
        return;
      }
      txBusy := 1;
      startMs := Add32(startMs, intervalMs);
      trace := trace + [Capture];
      ghost var captured := trace;
      if pixformat == Rgb565 {
        trace := trace + [ShowRgb565(imageBufSize / 2)];
      } else if pixformat == Yuv422 {
        trace := trace + [ShowYuv422(imageBufSize / 4)];
      }
      assert trace == captured + PacedPreview(pixformat, imageBufSize);
      trace := trace + [Transfer(imageBufSize)];
      AppendFour(before, JpegChecks(pixformat, imageBufSize), [Capture], PacedPreview(pixformat, imageBufSize),
                 [Transfer(imageBufSize)]);
    }

    /** tud_video_frame_xfer_complete_cb */
    method Complete()
      requires Valid()
      modifies this
      ensures Valid()
      ensures Snapshot() == CompleteSpec(old(Snapshot()))
      ensures trace == old(trace)
    {
      txBusy := 0;
      frameNum := Add32(frameNum, 1);
    }

    /** tud_video_commit_cb */
    method Commit(dwFrameInterval: U32)
      requires Valid()
      modifies this
      ensures Valid()
      ensures Snapshot() == CommitSpec(old(Snapshot()), dwFrameInterval)
      ensures trace == old(trace)
    {
      intervalMs := dwFrameInterval / 10000;
    }
  }

  /** Appending four pieces one after another appends their concatenation. */
  lemma AppendFour(a: seq<Action>, b: seq<Action>, c: seq<Action>, d: seq<Action>, e: seq<Action>)
    ensures a + b + c + d + e == a + (b + c + d + e)
  {
  }

  // ---------------------------------------------------------------------------
  // Properties of one call

  /** When the host is not streaming, nothing is captured or sent and the first-frame
      flag and frame counter are reset; tx_busy keeps its value. */
  lemma NotStreamingResets(s: StreamState, now: U32, fmt: PixFormat, size: nat)
    ensures var st := TickSpec(s, now, false, fmt, size);
            st.actions == [] &&
            st.next == s.(alreadySent := 0, frameNum := 0) &&
            st.next.txBusy == s.txBusy
  {
  }

  /** The first streaming tick after a reset captures and sends at once, whatever
      tx_busy says, and starts the pacing clock at `now`. In RGB565 mode the LCD shows
      the frame before it is converted in place to YUV422 for the host. */
  lemma FirstFrameSends(s: StreamState, now: U32, fmt: PixFormat, size: nat)
    requires s.alreadySent == 0
    ensures var st := TickSpec(s, now, true, fmt, size);
            st.next == s.(alreadySent := 1, txBusy := 1, startMs := now) &&
            Capture in st.actions && st.actions[|st.actions| - 1] == Transfer(size) &&
            (fmt == Rgb565 ==>
               st.actions == [Capture, ShowRgb565(size / 2), ConvertToYuv422(size / 4), Transfer(size)])
  {
  }

  /** A paced tick before the frame is due changes nothing and sends nothing. */
  lemma NotDueNoChange(s: StreamState, now: U32, fmt: PixFormat, size: nat)
    requires s.alreadySent != 0 && Sub32(now, s.startMs) < s.intervalMs
    ensures var st := TickSpec(s, now, true, fmt, size);
            st.next == s && Capture !in st.actions && Transfer(size) !in st.actions
  {
  }

  /** A frame that falls due while the previous transfer is in flight is dropped:
      nothing is captured or sent and start_ms does not advance. */
  lemma BusyDropsFrame(s: StreamState, now: U32, fmt: PixFormat, size: nat)
    requires s.alreadySent != 0 && s.txBusy != 0
    ensures var st := TickSpec(s, now, true, fmt, size);
            st.next == s && Capture !in st.actions && Transfer(size) !in st.actions
  {
  }

  /** A paced send advances start_ms by exactly interval_ms, not to `now`, marks the
      transfer busy, and sends the buffer without converting it. */
  lemma PacedSend(s: StreamState, now: U32, fmt: PixFormat, size: nat)
    requires s.alreadySent != 0 && s.txBusy == 0 && Due(s, now)
    ensures var st := TickSpec(s, now, true, fmt, size);
            st.next == s.(txBusy := 1, startMs := Add32(s.startMs, s.intervalMs)) &&
            st.actions == JpegChecks(fmt, size) + [Capture] + PacedPreview(fmt, size) + [Transfer(size)] &&
            ConvertToYuv422(size / 4) !in st.actions
  {
  }

  /** The completion callback clears tx_busy, counts the frame and changes nothing
      else. */
  lemma CompletionCounts(s: StreamState)
    ensures CompleteSpec(s).txBusy == 0
    ensures CompleteSpec(s).frameNum == (s.frameNum + 1) % TWO_32
    ensures CompleteSpec(s).(txBusy := s.txBusy, frameNum := s.frameNum) == s
  {
  }

  /** 333333 x 100 ns (30 frames per second) becomes 33 ms, so thirty paced frames take
      990 ms rather than 1000. */
  lemma CommitThirtyFps(s: StreamState)
    ensures CommitSpec(s, 333333).intervalMs == 33
    ensures 30 * CommitSpec(s, 333333).intervalMs == 990
  {
  }

  /** The elapsed time is measured correctly across the wrap of the millisecond
      counter: a clock `elapsed` ms past start_ms reads as `elapsed`. */
  lemma ElapsedAcrossWrap(startMs: U32, elapsed: U32)
    ensures Sub32(Add32(startMs, elapsed), startMs) == elapsed
  {
  }

  /** Every call keeps already_sent and tx_busy in {0, 1}. */
  lemma TickKeepsFlags(s: StreamState, now: U32, streaming: bool, fmt: PixFormat, size: nat)
    requires Flags(s)
    ensures Flags(TickSpec(s, now, streaming, fmt, size).next)
    ensures Flags(CompleteSpec(s))
  {
  }

  // ---------------------------------------------------------------------------
  // Runs of calls

  /** What reaches the firmware: a pass of the main loop, or a USB callback. */
  datatype Event = TickEvent(now: U32, streaming: bool) | CompleteEvent | CommitEvent(dwFrameInterval: U32)

  function Apply(s: StreamState, e: Event, fmt: PixFormat, size: nat): Step
  {
    match e
    case TickEvent(now, streaming) => TickSpec(s, now, streaming, fmt, size)
    case CompleteEvent => Step(CompleteSpec(s), [])
    case CommitEvent(d) => Step(CommitSpec(s, d), [])
  }

  /** The state after a sequence of events, and all the calls made. */
  function Run(s: StreamState, events: seq<Event>, fmt: PixFormat, size: nat): Step
    decreases |events|
  {
    if events == [] then Step(s, [])
    else
      var first := Apply(s, events[0], fmt, size);
      var rest := Run(first.next, events[1..], fmt, size);
      Step(rest.next, first.actions + rest.actions)
  }

  /** The number of frames handed to the USB stack. */
  function Sends(actions: seq<Action>): nat
  {
    if actions == [] then 0
    else (if actions[0].Transfer? then 1 else 0) + Sends(actions[1..])
  }

  lemma {:induction false} SendsAppend(a: seq<Action>, b: seq<Action>)
    ensures Sends(a + b) == Sends(a) + Sends(b)
  {
    if a == [] {
      assert a + b == b;
    } else {
      assert (a + b)[1..] == a[1..] + b;
      SendsAppend(a[1..], b);
    }
  }

  /** Calls other than transfers send nothing. */
  lemma {:induction false} NoSends(a: seq<Action>)
    requires forall i :: 0 <= i < |a| ==> !a[i].Transfer?
    ensures Sends(a) == 0
  {
    if a != [] {
      NoSends(a[1..]);
    }
  }

  /** A streaming tick after the first frame sends one frame exactly when it takes the
      paced branch. */
  lemma PacedTickSends(s: StreamState, now: U32, fmt: PixFormat, size: nat)
    requires s.alreadySent != 0
    ensures Sends(TickSpec(s, now, true, fmt, size).actions) == (if s.txBusy == 0 && Due(s, now) then 1 else 0)
  {
    var checks := JpegChecks(fmt, size);
    NoSends(checks);
    if s.txBusy == 0 && Due(s, now) {
      var preview := PacedPreview(fmt, size);
      NoSends(checks + [Capture] + preview);
      SendsAppend(checks + [Capture] + preview, [Transfer(size)]);
      assert Sends([Transfer(size)]) == 1 + Sends([]);
    }
  }

  /** One event of a stream in progress advances start_ms by interval_ms per frame sent. */
  lemma StepDrift(s: StreamState, e: Event, fmt: PixFormat, size: nat)
    requires s.alreadySent != 0
    requires (e.TickEvent? && e.streaming) || e.CompleteEvent?
    ensures var first := Apply(s, e, fmt, size);
            first.next.startMs == Wrap32(s.startMs + Sends(first.actions) * s.intervalMs) &&
            first.next.intervalMs == s.intervalMs && first.next.alreadySent != 0
  {
    if e.TickEvent? {
      PacedTickSends(s, e.now, fmt, size);
    } else {
      NoSends([]);
    }
  }

  /** Events of a stream in progress: the host keeps streaming and does not commit
      new parameters. */
  predicate Streaming(events: seq<Event>)
  {
    forall i :: 0 <= i < |events| ==> (events[i].TickEvent? && events[i].streaming) || events[i].CompleteEvent?
  }

  /** Drift-free pacing: once the first frame has gone, start_ms is the starting value
      plus interval_ms for every frame sent since (modulo 2^32), however late each tick
      came. */
  lemma {:induction false} DriftFree(s: StreamState, events: seq<Event>, fmt: PixFormat, size: nat)
    requires s.alreadySent != 0 && Streaming(events)
    ensures var r := Run(s, events, fmt, size);
            r.next.startMs == Wrap32(s.startMs + Sends(r.actions) * s.intervalMs) &&
            r.next.intervalMs == s.intervalMs && r.next.alreadySent != 0
    decreases |events|
  {
    if events != [] {
      var first := Apply(s, events[0], fmt, size);
      var rest := Run(first.next, events[1..], fmt, size);
      StreamingTail(events);
      StepDrift(s, events[0], fmt, size);
      DriftFree(first.next, events[1..], fmt, size);
      DriftCompose(s, first, rest, Run(s, events, fmt, size));
    } else {
      assert Run(s, events, fmt, size) == Step(s, []);
      assert Sends([]) == 0;
    }
  }

  lemma StreamingTail(events: seq<Event>)
    requires events != [] && Streaming(events)
    ensures Streaming(events[1..])
  {
    forall i | 0 <= i < |events[1..]|
      ensures (events[1..][i].TickEvent? && events[1..][i].streaming) || events[1..][i].CompleteEvent?
    {
      assert events[1..][i] == events[i + 1];
    }
  }

  /** Two stretches that each keep the drift-free relation compose into one. */
  lemma DriftCompose(s: StreamState, first: Step, rest: Step, r: Step)
    requires first.next.startMs == Wrap32(s.startMs + Sends(first.actions) * s.intervalMs)
    requires first.next.intervalMs == s.intervalMs && first.next.alreadySent != 0
    requires rest.next.startMs == Wrap32(first.next.startMs + Sends(rest.actions) * first.next.intervalMs)
    requires rest.next.intervalMs == first.next.intervalMs && rest.next.alreadySent != 0
    requires r == Step(rest.next, first.actions + rest.actions)
    ensures r.next.startMs == Wrap32(s.startMs + Sends(r.actions) * s.intervalMs)
    ensures r.next.intervalMs == s.intervalMs && r.next.alreadySent != 0
  {
    SendsAppend(first.actions, rest.actions);
    WrapAddMultiple(s.startMs, s.intervalMs, first.next.intervalMs, Sends(first.actions), Sends(rest.actions),
                    first.next.startMs, rest.next.startMs, Sends(r.actions));
  }

  /** Reducing modulo 2^32 in between does not change the final residue: advancing by
      k intervals and then by m more is advancing by k + m. */
  lemma WrapAddMultiple(a: int, d: int, d': int, k: nat, m: nat, mid: int, last: int, n: nat)
    requires mid == Wrap32(a + k * d) && last == Wrap32(mid + m * d') && d == d' && n == k + m
    ensures last == Wrap32(a + n * d)
  {
    Wrap32Shift(a + k * d, m * d);
    assert n * d == k * d + m * d;
  }

  /** Without a completion callback, a stream in progress sends at most one more frame,
      and none while a transfer is in flight. */
  lemma {:induction false} OneTransferInFlight(s: StreamState, nows: seq<U32>, fmt: PixFormat, size: nat)
    requires s.alreadySent != 0
    ensures var r := Run(s, Ticks(nows), fmt, size);
            Sends(r.actions) <= (if s.txBusy == 0 then 1 else 0) &&
            (s.txBusy != 0 ==> r.next == s)
    decreases |nows|
  {
    if nows != [] {
      var events := Ticks(nows);
      assert events[1..] == Ticks(nows[1..]);
      var first := TickSpec(s, nows[0], true, fmt, size);
      OneTransferInFlight(first.next, nows[1..], fmt, size);
      var rest := Run(first.next, events[1..], fmt, size);
      SendsAppend(first.actions, rest.actions);
      PacedTickSends(s, nows[0], fmt, size);
    }
  }

  /** Streaming ticks at the given clock readings. */
  function Ticks(nows: seq<U32>): (events: seq<Event>)
    ensures |events| == |nows|
    ensures forall i :: 0 <= i < |nows| ==> events[i] == TickEvent(nows[i], true)
  {
    if nows == [] then [] else [TickEvent(nows[0], true)] + Ticks(nows[1..])
  }
}
