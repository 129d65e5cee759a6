/** The JPEG marker scans of the streaming loop: the first start-of-image marker
    (FF D8 FF) and the last end-of-image marker (FF D9) in the frame buffer. The markers
    are compared with memcmp against integer constants, so the bytes sought are those
    constants' little-endian memory images. */
module JpegMarkers {
  import opened Bytes

  const JPEG_SOI_MARKER: U32 := 0xFFD8FF
  const JPEG_EOI_MARKER: U16 := 0xD9FF

  /** The first three bytes of JPEG_SOI_MARKER as stored in memory. */
  const SOI_BYTES: seq<Byte> := [Lo8(JPEG_SOI_MARKER), Lo8(JPEG_SOI_MARKER / 0x100), Lo8(JPEG_SOI_MARKER / 0x1_0000)]

  /** The two bytes of JPEG_EOI_MARKER as stored in memory. */
  const EOI_BYTES: seq<Byte> := [Lo8(JPEG_EOI_MARKER), Hi8(JPEG_EOI_MARKER)]

  /** The little-endian constants are the JPEG markers SOI + next marker prefix and EOI. */
  lemma MarkerBytes()
    ensures SOI_BYTES == [0xFF, 0xD8, 0xFF]
    ensures EOI_BYTES == [0xFF, 0xD9]
  {
  }

  /** A start-of-image marker lies wholly inside s at offset i. */
  predicate SoiAt(s: seq<Byte>, i: int)
  {
    0 <= i && i + 3 <= |s| && s[i] == SOI_BYTES[0] && s[i + 1] == SOI_BYTES[1] && s[i + 2] == SOI_BYTES[2]
  }

  /** An end-of-image marker lies wholly inside s at offset i. */
  predicate EoiAt(s: seq<Byte>, i: int)
  {
    0 <= i && i + 2 <= |s| && s[i] == EOI_BYTES[0] && s[i + 1] == EOI_BYTES[1]
  }

  /** The forward scan from offset i. */
  function SoiFrom(s: seq<Byte>, i: nat): (r: int)
    requires i <= |s|
    decreases |s| - i
    ensures r == -1 || (i <= r < |s| && SoiAt(s, r))
    ensures r == -1 ==> forall j :: i <= j < |s| ==> !SoiAt(s, j)
    ensures r != -1 ==> forall j :: i <= j < r ==> !SoiAt(s, j)
  {
    if i == |s| then -1
    else if SoiAt(s, i) then i
    else SoiFrom(s, i + 1)
  }

  /** cam_verify_jpeg_soi on the bytes of the buffer: the least offset of a start-of-image
      marker, or -1 when there is none. */
  function SoiIndex(s: seq<Byte>): (r: int)
    ensures -1 <= r < |s|
    ensures r != -1 ==> SoiAt(s, r) && forall j :: 0 <= j < r ==> !SoiAt(s, j)
    ensures r == -1 <==> forall j :: 0 <= j < |s| ==> !SoiAt(s, j)
  {
    SoiFrom(s, 0)
  }

  /** The backward scan from offset p down to offset 1. */
  function EoiFrom(s: seq<Byte>, p: int): (r: int)
    requires p <= |s| - 2
    decreases p
    ensures r == -1 || (1 <= r <= p && EoiAt(s, r))
    ensures r == -1 ==> forall j :: 1 <= j <= p ==> !EoiAt(s, j)
    ensures r != -1 ==> forall j :: r < j <= p ==> !EoiAt(s, j)
  {
    if p <= 0 then -1
    else if EoiAt(s, p) then p
    else EoiFrom(s, p - 1)
  }

  /** cam_verify_jpeg_eoi on the bytes of the buffer: the greatest offset in
      [1, |s| - 2] of an end-of-image marker, or -1. Offset 0 is never examined. */
  function EoiIndex(s: seq<Byte>): (r: int)
    ensures r == -1 || 1 <= r <= |s| - 2
    ensures r != -1 ==> EoiAt(s, r) && forall j :: r < j < |s| ==> !EoiAt(s, j)
    ensures r == -1 <==> forall j :: 1 <= j < |s| ==> !EoiAt(s, j)
  {
    EoiFrom(s, |s| - 2)
  }

  /** The bytes cam_verify_jpeg_* look at: a non-positive length means none. */
  function Window(inbuf: seq<Byte>, length: int): seq<Byte>
    requires length <= |inbuf|
  {
    if length <= 0 then [] else inbuf[..length]
  }

  /** cam_verify_jpeg_soi: forward scan over i < length. A marker is only matched where
      all three of its bytes lie inside the buffer. */
  method VerifyJpegSoi(inbuf: array<Byte>, length: int) returns (r: int)
    requires length <= inbuf.Length
    ensures r == SoiIndex(Window(inbuf[..], length))
  {
    ghost var s := Window(inbuf[..], length);
    var i := 0;
    while i < length
      invariant 0 <= i <= |s|
      invariant length > 0 ==> |s| == length
      invariant SoiFrom(s, i) == SoiFrom(s, 0)
    {
      if i + 3 <= length && inbuf[i] == SOI_BYTES[0] && inbuf[i + 1] == SOI_BYTES[1] && inbuf[i + 2] == SOI_BYTES[2] {
        return i;
      }
      i := i + 1;
    }
    return -1;
  }

  /** cam_verify_jpeg_eoi: backward scan with a cursor starting at length - 2 and
      stopping before offset 0. */
  method VerifyJpegEoi(inbuf: array<Byte>, length: int) returns (r: int)
    requires length <= inbuf.Length
    ensures r == EoiIndex(Window(inbuf[..], length))
  {
    ghost var s := Window(inbuf[..], length);
    var d := length - 2;
    while d > 0
      invariant d <= |s| - 2
      invariant length > 0 ==> |s| == length
      invariant EoiFrom(s, d) == EoiFrom(s, |s| - 2)
    {
      if inbuf[d] == EOI_BYTES[0] && inbuf[d + 1] == EOI_BYTES[1] {
        return d;
      }
      d := d - 1;
    }
    return -1;
  }

  /** A complete JPEG image in the buffer: it starts with SOI and ends with EOI. */
  lemma CompleteImageMarkers(s: seq<Byte>)
    requires |s| >= 5
    requires s[0] == 0xFF && s[1] == 0xD8 && s[2] == 0xFF
    requires s[|s| - 2] == 0xFF && s[|s| - 1] == 0xD9
    ensures SoiIndex(s) == 0
    ensures EoiIndex(s) == |s| - 2
  {
    MarkerBytes();
    assert SoiAt(s, 0);
    assert EoiAt(s, |s| - 2);
  }

  /** An end-of-image marker at offset 0 alone is not found. */
  lemma EoiAtOffsetZeroMissed()
    ensures EoiAt([0xFF, 0xD9, 0x00], 0)
    ensures EoiIndex([0xFF, 0xD9, 0x00]) == -1
  {
    MarkerBytes();
  }

  /** cam_verify_jpeg_soi as written: memcmp reads three bytes at every i < length, so at
      i = length - 2 and i = length - 1 it reads one or two bytes past the buffer.
      `mem` is the memory from inbuf onwards; it holds at least length + 2 bytes. */
  function SoiScanAsWritten(mem: seq<Byte>, length: nat, i: nat): (r: int)
    requires length + 2 <= |mem| && i <= length
    decreases length - i
    ensures r == -1 || (i <= r < length && SoiAt(mem, r))
  {
    if i == length then -1
    else if SoiAt(mem, i) then i
    else SoiScanAsWritten(mem, length, i + 1)
  }

  /** The scan as written agrees with SoiIndex except where no marker lies inside the
      buffer and one straddles its end. */
  lemma {:induction false} SoiAsWrittenDiffersOnlyAtEnd(mem: seq<Byte>, length: nat, i: nat)
    requires length + 2 <= |mem| && i <= length
    ensures var r := SoiScanAsWritten(mem, length, i);
            var c := SoiFrom(mem[..length], i);
            r == c || (c == -1 && length - 2 <= r < length)
    decreases length - i
  {
    var s := mem[..length];
    if i < length {
      if SoiAt(mem, i) {
        if !SoiAt(s, i) {
          assert length - 2 <= i;
          assert forall j :: i < j < length ==> !SoiAt(s, j);
        }
      } else {
        assert !SoiAt(s, i);
        SoiAsWrittenDiffersOnlyAtEnd(mem, length, i + 1);
      }
    }
  }

  /** A two-byte buffer 00 FF followed in memory by D8 FF: the scan as written reports a
      start-of-image marker at offset 1 although the buffer holds none. */
  lemma SoiOverreadCounterexample()
    ensures SoiScanAsWritten([0x00, 0xFF, 0xD8, 0xFF], 2, 0) == 1
    ensures SoiIndex([0x00, 0xFF]) == -1
  {
    MarkerBytes();
    assert SoiAt([0x00, 0xFF, 0xD8, 0xFF], 1);
    assert !SoiAt([0x00, 0xFF, 0xD8, 0xFF], 0);
  }
}
