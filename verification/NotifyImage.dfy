/** The image hint of a notification: conversion from and to 32-bit ARGB pixels with
    independent row strides (src/lib/notification/notification.c), and the length of the
    buffer that is sent (src/lib/notification/marshal.c). A 32-bit pixel lies in memory with
    its low byte first. */
module NotifyImage {

  /** E_Notification_Image. */
  class Image {
    var width: int
    var height: int
    var rowstride: int
    var hasAlpha: bool
    var bitsPerSample: int
    var channels: int
    var data: array<bv8>

    constructor ()
      ensures bitsPerSample == 8 && width == height == rowstride == channels == 0 && !hasAlpha
      ensures fresh(data) && data.Length == 0
    {
      width, height, rowstride, hasAlpha, bitsPerSample, channels := 0, 0, 0, false, 8, 0;
      data := new bv8[0];
    }
  }

  // ----- pixels

  function Pixel(b0: bv8, b1: bv8, b2: bv8, b3: bv8): bv32 {
    ((b3 as bv32) << 24) | ((b2 as bv32) << 16) | ((b1 as bv32) << 8) | (b0 as bv32)
  }

  function Byte(p: bv32, shift: nat): bv8
    requires shift <= 24
  {
    ((p >> shift) & 0xff) as bv8
  }

  lemma PixelBytes(b0: bv8, b1: bv8, b2: bv8, b3: bv8)
    ensures var p := Pixel(b0, b1, b2, b3);
            Byte(p, 0) == b0 && Byte(p, 8) == b1 && Byte(p, 16) == b2 && Byte(p, 24) == b3
  {}

  // ----- rows

  /** The bytes of row y of a buffer whose rows start stride bytes apart. */
  function Row(buf: seq<bv8>, stride: nat, y: nat, len: nat): seq<bv8>
    requires y * stride + len <= |buf|
  {
    buf[y * stride..y * stride + len]
  }

  /** ARGB pixels as red, green, blue, alpha samples. */
  function ToSamples(row: seq<bv8>): seq<bv8>
    requires |row| % 4 == 0
  {
    seq(|row|, k requires 0 <= k < |row| => if k % 4 == 3 then row[k] else row[k - k % 4 + (2 - k % 4)])
  }

  predicate Readable(bytes: nat, s0: nat, w: nat, channels: nat, alpha: bool) {
    forall x :: 0 <= x < w ==> s0 + x * channels + (if alpha then 3 else 2) < bytes
  }

  /** w samples groups from offset s0, channels apart, as ARGB pixels. */
  function ToPixels(data: seq<bv8>, s0: nat, w: nat, channels: nat, alpha: bool): seq<bv8>
    requires Readable(|data|, s0, w, channels, alpha)
  {
    seq(4 * w, k requires 0 <= k < 4 * w => PixelByte(data, s0 + k / 4 * channels, k % 4, alpha))
  }

  function PixelByte(data: seq<bv8>, s: nat, k: nat, alpha: bool): bv8
    requires k < 4 && s + (if alpha then 3 else 2) < |data|
  {
    if k == 3 then (if alpha then data[s + 3] else 0xff) else data[s + (2 - k)]
  }

  /** The pixel at position x of a row of samples: blue, green and red in memory, which are the
      third, second and first sample, and the fourth as alpha; without alpha it is opaque. */
  lemma PixelOfSamples(data: seq<bv8>, s0: nat, w: nat, channels: nat, alpha: bool, x: nat, s: nat)
    requires Readable(|data|, s0, w, channels, alpha) && x < w && s == s0 + x * channels
    ensures s + (if alpha then 3 else 2) < |data|
    ensures ToPixels(data, s0, w, channels, alpha)[4 * x..4 * x + 4] ==
            [data[s + 2], data[s + 1], data[s], if alpha then data[s + 3] else 255]
  {
    var all := ToPixels(data, s0, w, channels, alpha);
    assert all[4 * x + 0] == PixelByte(data, s, 0, alpha) && all[4 * x + 1] == PixelByte(data, s, 1, alpha);
    assert all[4 * x + 2] == PixelByte(data, s, 2, alpha) && all[4 * x + 3] == PixelByte(data, s, 3, alpha);
  }

  /** The samples of the pixel at position x of a row: red, green, blue, alpha. */
  lemma SamplesOfPixel(row: seq<bv8>, x: nat)
    requires |row| % 4 == 0 && 4 * x + 4 <= |row|
    ensures ToSamples(row)[4 * x..4 * x + 4] == [row[4 * x + 2], row[4 * x + 1], row[4 * x], row[4 * x + 3]]
  {}

  /** Pixels converted to samples convert back to themselves. */
  lemma PixelsRoundTrip(data: seq<bv8>, s0: nat, w: nat, row: seq<bv8>)
    requires |row| == 4 * w && s0 + 4 * w <= |data| && data[s0..s0 + 4 * w] == ToSamples(row)
    ensures Readable(|data|, s0, w, 4, true) && ToPixels(data, s0, w, 4, true) == row
  {
    forall k | 0 <= k < 4 * w ensures PixelByte(data, s0 + k / 4 * 4, k % 4, true) == row[k] {
      var j := k - k % 4 + if k % 4 == 3 then 3 else 2 - k % 4;
      assert data[s0 + j] == data[s0..s0 + 4 * w][j] == row[k];
    }
  }

  // ----- the buffer that is sent

  /** Length computed when an image is marshalled. */
  function DataLength(width: int, height: int, rowstride: int, channels: int, bitsPerSample: int): int {
    (height - 1) * rowstride + width * ((channels * bitsPerSample + 7) / 8)
  }

  /** A pixel takes as many bytes as its bits need, rounded up; the length ends with the last pixel of
      the last row. */
  lemma LengthRoundsUp(width: nat, height: nat, rowstride: nat, channels: nat, bits: nat, pixel: nat)
    requires 8 * pixel >= channels * bits && (pixel == 0 || 8 * (pixel - 1) < channels * bits)
    ensures DataLength(width, height, rowstride, channels, bits) == (height - 1) * rowstride + width * pixel
  {
    assert (channels * bits + 7) / 8 == pixel;
  }

  /** Offset of a sample that filling an object reads. */
  function SampleOffset(rowstride: int, channels: int, y: int, x: int, c: int): int {
    y * rowstride + x * channels + c
  }

  lemma LastIsLargest(a: nat, n: nat, stride: nat)
    requires a <= n
    ensures a * stride <= n * stride
  {}

  /** An image made from an object is sent whole. */
  lemma InitLength(w: nat, h: nat)
    ensures DataLength(w, h, 4 * w, 4, 8) == 4 * w * h
  {
    assert (h - 1) * (4 * w) == 4 * w * h - 4 * w;
  }

  /** All bytes that filling reads are among those sent exactly when a pixel has a sample for
      each component read. */
  lemma ReadsAreSentIff(w: nat, h: nat, rowstride: nat, channels: nat, alpha: bool)
    requires w > 0 && h > 0
    ensures (forall y, x, c :: 0 <= y < h && 0 <= x < w && 0 <= c <= (if alpha then 3 else 2)
               ==> SampleOffset(rowstride, channels, y, x, c) < DataLength(w, h, rowstride, channels, 8))
            <==> channels >= if alpha then 4 else 3
  {
    var top := if alpha then 3 else 2;
    assert (channels * 8 + 7) / 8 == channels;
    var len := DataLength(w, h, rowstride, channels, 8);
    assert (w - 1) * channels == w * channels - channels;
    assert SampleOffset(rowstride, channels, h - 1, w - 1, top) == len - channels + top;
    if channels > top {
      forall y, x, c | 0 <= y < h && 0 <= x < w && 0 <= c <= top
        ensures SampleOffset(rowstride, channels, y, x, c) < len
      {
        LastIsLargest(y, h - 1, rowstride);
        LastIsLargest(x, w - 1, channels);
      }
    }
  }

  // ----- from an object to an image

  /** Byte k of the samples of the pixels that start at s0. */
  function SampleByte(buf: seq<bv8>, s0: nat, k: nat): bv8 {
    var from := s0 + if k % 4 == 3 then k else k - k % 4 + (2 - k % 4);
    if from < |buf| then buf[from] else 0
  }

  method InitPixel(data: array<bv8>, d: nat, src: array<bv8>, s: nat)
    requires data != src && d + 4 <= data.Length && s + 4 <= src.Length
    modifies data
    ensures data[d] == src[s + 2] && data[d + 1] == src[s + 1] && data[d + 2] == src[s] && data[d + 3] == src[s + 3]
    ensures forall k :: 0 <= k < data.Length && !(d <= k < d + 4) ==> data[k] == old(data[k])
  {
    PixelBytes(src[s], src[s + 1], src[s + 2], src[s + 3]);
    var p := Pixel(src[s], src[s + 1], src[s + 2], src[s + 3]);
    data[d] := Byte(p, 16);
    data[d + 1] := Byte(p, 8);
    data[d + 2] := Byte(p, 0);
    data[d + 3] := Byte(p, 24);
  }

  /** A row of samples, byte by byte. */
  lemma RowOfSamples(data: seq<bv8>, d0: nat, src: seq<bv8>, s0: nat, w: nat)
    requires d0 + 4 * w <= |data| && s0 + 4 * w <= |src|
    requires forall k :: d0 <= k < d0 + 4 * w ==> data[k] == SampleByte(src, s0, k - d0)
    ensures data[d0..d0 + 4 * w] == ToSamples(src[s0..s0 + 4 * w])
  {
    var row, pixels := data[d0..d0 + 4 * w], src[s0..s0 + 4 * w];
    var samples := ToSamples(pixels);
    forall k | 0 <= k < 4 * w ensures row[k] == samples[k] {
      assert row[k] == data[d0 + k] == SampleByte(src, s0, k);
      var from := if k % 4 == 3 then k else k - k % 4 + (2 - k % 4);
      assert pixels[from] == src[s0 + from];
    }
  }

  /** The pixel at position x of a row. */
  method InitPixelAt(data: array<bv8>, d0: nat, src: array<bv8>, s0: nat, w: nat, x: nat, d: nat)
    requires data != src && x < w && d == d0 + 4 * x && d0 + 4 * w <= data.Length && s0 + 4 * w <= src.Length
    modifies data
    ensures forall k :: d <= k < d + 4 ==> data[k] == SampleByte(src[..], s0, k - d0)
    ensures forall k :: 0 <= k < data.Length && !(d <= k < d + 4) ==> data[k] == old(data[k])
  {
    InitPixel(data, d, src, s0 + 4 * x);
    forall k | d <= k < d + 4 ensures data[k] == SampleByte(src[..], s0, k - d0) {
      assert (k - d0) % 4 == k - d;
    }
  }

  /** Inner loop of e_notification_image_init: one row of pixels is written as samples. */
  method InitRow(data: array<bv8>, d0: nat, src: array<bv8>, s0: nat, w: nat)
    requires data != src && d0 + 4 * w <= data.Length && s0 + 4 * w <= src.Length
    modifies data
    ensures data[d0..d0 + 4 * w] == ToSamples(src[s0..s0 + 4 * w])
    ensures data[..d0] == old(data[..d0]) && data[d0 + 4 * w..] == old(data[d0 + 4 * w..])
  {
    var d := d0;
    ghost var buf := src[..];
    for x := 0 to w
      invariant d == d0 + 4 * x
      invariant forall k :: 0 <= k < data.Length && !(d0 <= k < d) ==> data[k] == old(data[k])
      invariant forall k :: d0 <= k < d ==> data[k] == SampleByte(buf, s0, k - d0)
    {
      InitPixelAt(data, d0, src, s0, w, x, d);
      d := d + 4;
    }
    RowOfSamples(data[..], d0, buf, s0, w);
  }

  /** y rows of stride bytes end before row n starts. */
  lemma RowsBefore(y: nat, n: nat, stride: nat)
    requires y < n
    ensures y * stride + stride <= n * stride
  {
    assert (y + 1) * stride == y * stride + stride;
    LastIsLargest(y + 1, n, stride);
  }

  /** Every row of w pixels lies in the buffer. */
  predicate Fits(bytes: nat, w: nat, h: nat, stride: nat) {
    4 * w <= stride && (h > 0 ==> (h - 1) * stride + 4 * w <= bytes)
  }

  lemma RowFits(bytes: nat, w: nat, h: nat, stride: nat, y: nat)
    requires Fits(bytes, w, h, stride) && y < h
    ensures y * stride + 4 * w <= bytes
  {
    LastIsLargest(y, h - 1, stride);
  }

  /** n rows of data, packed and ending at d, are the samples of n rows of src that are stride
      apart, the next one of which would start at s. */
  ghost predicate SampleRows(data: seq<bv8>, d: nat, src: seq<bv8>, s: nat, stride: nat, w: nat, n: nat) {
    n == 0 || (
      && 4 * w <= d <= |data| && stride <= s && s - stride + 4 * w <= |src|
      && data[d - 4 * w..d] == ToSamples(src[s - stride..s - stride + 4 * w])
      && SampleRows(data, d - 4 * w, src, s - stride, stride, w, n - 1))
  }

  lemma SameSlices(before: seq<bv8>, after: seq<bv8>, len: nat, start: nat, n: nat)
    requires len <= |before| && len <= |after| && before[..len] == after[..len] && start + n <= len
    ensures before[..start] == after[..start] && before[start..start + n] == after[start..start + n]
  {
    assert before[..start] == before[..len][..start] && after[..start] == after[..len][..start];
    assert before[start..start + n] == before[..len][start..start + n];
    assert after[start..start + n] == after[..len][start..start + n];
  }

  /** Row y starts where row y - 1 ends. */
  lemma RowStep(y: nat, stride: nat)
    requires y > 0
    ensures (y - 1) * stride + stride == y * stride
  {}

  lemma {:induction false} SampleRowsKept(before: seq<bv8>, after: seq<bv8>, d: nat, src: seq<bv8>, s: nat, stride: nat,
                                          w: nat, n: nat)
    requires SampleRows(before, d, src, s, stride, w, n)
    requires d <= |before| && d <= |after| && before[..d] == after[..d]
    ensures SampleRows(after, d, src, s, stride, w, n)
  {
    if n > 0 {
      SameSlices(before, after, d, d - 4 * w, 4 * w);
      SampleRowsKept(before, after, d - 4 * w, src, s - stride, stride, w, n - 1);
    }
  }

  /** What this says of row y. */
  lemma {:induction false} SampleRowAt(data: seq<bv8>, d: nat, src: seq<bv8>, s: nat, stride: nat, w: nat,
                                       n: nat, y: nat)
    requires SampleRows(data, d, src, s, stride, w, n) && y < n && d == n * (4 * w) && s == n * stride
    ensures y * (4 * w) + 4 * w <= |data| && y * stride + 4 * w <= |src|
    ensures Row(data, 4 * w, y, 4 * w) == ToSamples(Row(src, stride, y, 4 * w))
  {
    RowStep(n, 4 * w);
    RowStep(n, stride);
    if y < n - 1 {
      SampleRowAt(data, d - 4 * w, src, s - stride, stride, w, n - 1, y);
    }
  }

  lemma SampleRowsNext(data: seq<bv8>, d: nat, src: seq<bv8>, s: nat, stride: nat, w: nat, n: nat)
    requires SampleRows(data, d, src, s, stride, w, n) && d + 4 * w <= |data| && s + 4 * w <= |src|
    requires data[d..d + 4 * w] == ToSamples(src[s..s + 4 * w])
    ensures SampleRows(data, d + 4 * w, src, s + stride, stride, w, n + 1)
  {}

  /** One row more: it is written, the others are left alone, so that every byte of the image is
      written in exactly one row. */
  method InitRowAt(data: array<bv8>, d: nat, src: array<bv8>, s: nat, stride: nat, w: nat, ghost n: nat)
    requires data != src && d + 4 * w <= data.Length && s + 4 * w <= src.Length
    requires SampleRows(data[..], d, src[..], s, stride, w, n)
    modifies data
    ensures SampleRows(data[..], d + 4 * w, src[..], s + stride, stride, w, n + 1)
    ensures data[..d] == old(data[..d]) && data[d + 4 * w..] == old(data[d + 4 * w..])
  {
    ghost var before := data[..];
    InitRow(data, d, src, s, w);
    assert data[..][..d] == before[..d];
    SampleRowsKept(before, data[..], d, src[..], s, stride, w, n);
    assert data[..][d..d + 4 * w] == data[d..d + 4 * w] && src[..][s..s + 4 * w] == src[s..s + 4 * w];
    SampleRowsNext(data[..], d, src[..], s, stride, w, n);
  }

  /** Where row y is read and written. */
  lemma InitRowFits(bytes: nat, length: nat, stride: nat, w: nat, h: nat, y: nat, d0: nat, s0: nat)
    requires y < h && length == h * (4 * w) && Fits(bytes, w, h, stride)
    requires d0 == y * (4 * w) && s0 == y * stride
    ensures d0 + 4 * w <= length && s0 + 4 * w <= bytes
    ensures d0 + 4 * w == (y + 1) * (4 * w) && s0 + stride == (y + 1) * stride
  {
    RowFits(bytes, w, h, stride, y);
    RowsBefore(y, h, 4 * w);
  }

  /** Outer loop of e_notification_image_init. */
  method InitRows(data: array<bv8>, src: array<bv8>, stride: nat, w: nat, h: nat)
    requires data != src && data.Length == h * (4 * w) && Fits(src.Length, w, h, stride)
    modifies data
    ensures SampleRows(data[..], h * (4 * w), src[..], h * stride, stride, w, h)
  {
    var row := 4 * w;
    var d0, s0 := 0, 0;
    for y := 0 to h
      invariant d0 == y * row && s0 == y * stride
      invariant SampleRows(data[..], d0, src[..], s0, stride, w, y)
    {
      InitRowFits(src.Length, data.Length, stride, w, h, y, d0, s0);
      InitRowAt(data, d0, src, s0, stride, w, y);
      d0, s0 := d0 + row, s0 + stride;
    }
  }

  /** e_notification_image_init over the object's size, pixels and stride. */
  method Init(img: Image, w: int, h: int, src: array<bv8>, stride: nat) returns (ok: bool)
    requires w > 0 && h > 0 ==> Fits(src.Length, w, h, stride)
    modifies img
    ensures ok <==> w > 0 && h > 0
    ensures !ok ==> unchanged(img)
    ensures ok ==>
              && img.width == w && img.height == h && img.rowstride == 4 * w && img.channels == 4
              && img.bitsPerSample == 8 && img.hasAlpha
              && fresh(img.data) && img.data.Length == 4 * w * h
              && SampleRows(img.data[..], img.data.Length, src[..], h * stride, stride, w, h)
  {
    if w <= 0 || h <= 0 {
      return false;
    }
    var data := new bv8[4 * w * h];
    assert h * (4 * w) == 4 * w * h;
    InitRows(data, src, stride, w, h);
    img.data := data;
    img.channels, img.rowstride, img.width, img.height, img.bitsPerSample, img.hasAlpha := 4, 4 * w, w, h, 8, true;
    ok := true;
  }

  // ----- from an image to an object

  method FillPixel(dst: array<bv8>, d: nat, data: array<bv8>, s: nat, alpha: bool)
    requires dst != data && d + 4 <= dst.Length && s + (if alpha then 3 else 2) < data.Length
    modifies dst
    ensures forall k :: d <= k < d + 4 ==> dst[k] == PixelByte(data[..], s, k - d, alpha)
    ensures forall k :: 0 <= k < dst.Length && !(d <= k < d + 4) ==> dst[k] == old(dst[k])
  {
    var a := if alpha then data[s + 3] else 0xff;
    PixelBytes(data[s + 2], data[s + 1], data[s], a);
    var p := Pixel(data[s + 2], data[s + 1], data[s], a);
    dst[d] := Byte(p, 0);
    dst[d + 1] := Byte(p, 8);
    dst[d + 2] := Byte(p, 16);
    dst[d + 3] := Byte(p, 24);
  }

  /** The pixel at position x of a row. */
  method FillPixelAt(dst: array<bv8>, d0: nat, data: array<bv8>, s0: nat, w: nat, channels: nat, alpha: bool,
                     x: nat, d: nat, s: nat)
    requires dst != data && x < w && d0 + 4 * w <= dst.Length && Readable(data.Length, s0, w, channels, alpha)
    requires d == d0 + 4 * x && s == s0 + x * channels
    modifies dst
    ensures forall k :: d <= k < d + 4 ==> dst[k] == ToPixels(data[..], s0, w, channels, alpha)[k - d0]
    ensures forall k :: 0 <= k < dst.Length && !(d <= k < d + 4) ==> dst[k] == old(dst[k])
  {
    FillPixel(dst, d, data, s, alpha);
    forall k | d <= k < d + 4 ensures dst[k] == ToPixels(data[..], s0, w, channels, alpha)[k - d0] {
      assert (k - d0) / 4 == x && (k - d0) % 4 == k - d;
    }
  }

  lemma Later(x: nat, channels: nat)
    ensures x * channels + channels == (x + 1) * channels
  {}

  /** Inner loop of _e_notification_image_evas_object_fill. */
  method FillRow(dst: array<bv8>, d0: nat, data: array<bv8>, s0: nat, w: nat, channels: nat, alpha: bool)
    requires dst != data && d0 + 4 * w <= dst.Length && Readable(data.Length, s0, w, channels, alpha)
    modifies dst
    ensures dst[d0..d0 + 4 * w] == ToPixels(data[..], s0, w, channels, alpha)
    ensures dst[..d0] == old(dst[..d0]) && dst[d0 + 4 * w..] == old(dst[d0 + 4 * w..])
  {
    var s, d := s0, d0;
    ghost var buf := data[..];
    for x := 0 to w
      invariant d == d0 + 4 * x && s == s0 + x * channels
      invariant forall k :: 0 <= k < dst.Length && !(d0 <= k < d) ==> dst[k] == old(dst[k])
      invariant forall k :: d0 <= k < d ==> dst[k] == ToPixels(buf, s0, w, channels, alpha)[k - d0]
    {
      FillPixelAt(dst, d0, data, s0, w, channels, alpha, x, d, s);
      Later(x, channels);
      s, d := s + channels, d + 4;
    }
    assert dst[d0..d] == ToPixels(buf, s0, w, channels, alpha);
  }

  /** n rows of dst, dstride apart, are the pixels of n rows of an image, rowstride apart; the
      next ones would start at d and s. */
  ghost predicate PixelRows(dst: seq<bv8>, d: nat, dstride: nat, data: seq<bv8>, s: nat, rowstride: nat, w: nat,
                            channels: nat, alpha: bool, n: nat) {
    n == 0 || (
      && dstride <= d && d - dstride + 4 * w <= |dst|
      && rowstride <= s && Readable(|data|, s - rowstride, w, channels, alpha)
      && dst[d - dstride..d - dstride + 4 * w] == ToPixels(data, s - rowstride, w, channels, alpha)
      && PixelRows(dst, d - dstride, dstride, data, s - rowstride, rowstride, w, channels, alpha, n - 1))
  }

  lemma {:induction false} PixelRowsKept(before: seq<bv8>, after: seq<bv8>, d: nat, dstride: nat, data: seq<bv8>,
                                         s: nat, rowstride: nat, w: nat, channels: nat, alpha: bool, n: nat)
    requires PixelRows(before, d, dstride, data, s, rowstride, w, channels, alpha, n) && 4 * w <= dstride
    requires d <= |before| && d <= |after| && before[..d] == after[..d]
    ensures PixelRows(after, d, dstride, data, s, rowstride, w, channels, alpha, n)
  {
    if n > 0 {
      SameSlices(before, after, d, d - dstride, 4 * w);
      PixelRowsKept(before, after, d - dstride, dstride, data, s - rowstride, rowstride, w, channels, alpha, n - 1);
    }
  }

  /** What the description of all rows says of row y. */
  lemma {:induction false} PixelRowAt(dst: seq<bv8>, d: nat, dstride: nat, data: seq<bv8>, s: nat, rowstride: nat,
                                      w: nat, channels: nat, alpha: bool, n: nat, y: nat, p: nat, q: nat)
    requires PixelRows(dst, d, dstride, data, s, rowstride, w, channels, alpha, n) && y < n
    requires d == n * dstride && s == n * rowstride && p == y * dstride && q == y * rowstride
    ensures p + 4 * w <= |dst| && Readable(|data|, q, w, channels, alpha)
    ensures dst[p..p + 4 * w] == ToPixels(data, q, w, channels, alpha)
  {
    RowStep(n, dstride);
    RowStep(n, rowstride);
    if y == n - 1 {
      assert p == d - dstride && q == s - rowstride;
    } else {
      PixelRowAt(dst, d - dstride, dstride, data, s - rowstride, rowstride, w, channels, alpha, n - 1, y, p, q);
    }
  }

  lemma SliceOfSlice(buf: seq<bv8>, start: nat, len: nat, k: nat)
    requires start + len <= |buf| && k + 4 <= len
    ensures buf[start..start + len][k..k + 4] == buf[start + k..start + k + 4]
  {
    var row, all := buf[start..start + len][k..k + 4], buf[start + k..start + k + 4];
    forall i | 0 <= i < 4 ensures row[i] == all[i] {
      assert buf[start..start + len][k + i] == buf[start + (k + i)];
    }
  }

  /** The pixel at x, y of an object filled from an image, for any channels and strides: the
      samples of the image's pixel at x, y, in the order of the bytes of an ARGB pixel, opaque if
      the image has no alpha. */
  lemma FilledPixel(dst: seq<bv8>, d: nat, dstride: nat, data: seq<bv8>, e: nat, rowstride: nat, w: nat, h: nat,
                    channels: nat, alpha: bool, x: nat, y: nat, p: nat, q: nat, s: nat)
    requires PixelRows(dst, d, dstride, data, e, rowstride, w, channels, alpha, h) && x < w && y < h
    requires d == h * dstride && e == h * rowstride && p == y * dstride && q == y * rowstride && s == q + x * channels
    ensures p + 4 * x + 4 <= |dst| && s + (if alpha then 3 else 2) < |data|
    ensures dst[p + 4 * x..p + 4 * x + 4] == [data[s + 2], data[s + 1], data[s], if alpha then data[s + 3] else 255]
  {
    PixelRowAt(dst, d, dstride, data, e, rowstride, w, channels, alpha, h, y, p, q);
    PixelOfSamples(data, q, w, channels, alpha, x, s);
    SliceOfSlice(dst, p, 4 * w, 4 * x);
  }

  lemma PixelRowsNext(dst: seq<bv8>, d: nat, dstride: nat, data: seq<bv8>, s: nat, rowstride: nat, w: nat,
                      channels: nat, alpha: bool, n: nat)
    requires PixelRows(dst, d, dstride, data, s, rowstride, w, channels, alpha, n)
    requires d + 4 * w <= |dst| && Readable(|data|, s, w, channels, alpha)
    requires dst[d..d + 4 * w] == ToPixels(data, s, w, channels, alpha)
    ensures PixelRows(dst, d + dstride, dstride, data, s + rowstride, rowstride, w, channels, alpha, n + 1)
  {}

  /** One row more: it is written and the others are left alone. */
  method FillRowAt(dst: array<bv8>, d: nat, dstride: nat, data: array<bv8>, s: nat, rowstride: nat, w: nat,
                   channels: nat, alpha: bool, ghost n: nat)
    requires dst != data && 4 * w <= dstride && d + 4 * w <= dst.Length && Readable(data.Length, s, w, channels, alpha)
    requires PixelRows(dst[..], d, dstride, data[..], s, rowstride, w, channels, alpha, n)
    modifies dst
    ensures PixelRows(dst[..], d + dstride, dstride, data[..], s + rowstride, rowstride, w, channels, alpha, n + 1)
    ensures dst[..d] == old(dst[..d]) && dst[d + 4 * w..] == old(dst[d + 4 * w..])
  {
    ghost var before := dst[..];
    FillRow(dst, d, data, s, w, channels, alpha);
    assert dst[..][..d] == before[..d];
    PixelRowsKept(before, dst[..], d, dstride, data[..], s, rowstride, w, channels, alpha, n);
    assert dst[..][d..d + 4 * w] == dst[d..d + 4 * w];
    PixelRowsNext(dst[..], d, dstride, data[..], s, rowstride, w, channels, alpha, n);
  }

  lemma RowReadable(bytes: nat, w: nat, h: nat, rowstride: nat, channels: nat, alpha: bool, y: nat)
    requires y < h && w > 0 && channels >= (if alpha then 4 else 3)
    requires DataLength(w, h, rowstride, channels, 8) <= bytes
    ensures Readable(bytes, y * rowstride, w, channels, alpha)
  {
    ReadsAreSentIff(w, h, rowstride, channels, alpha);
    forall x | 0 <= x < w ensures y * rowstride + x * channels + (if alpha then 3 else 2) < bytes {
      assert SampleOffset(rowstride, channels, y, x, if alpha then 3 else 2) < bytes;
    }
  }

  /** Where row y is read and written. */
  lemma FillRowFits(length: nat, stride: nat, bytes: nat, rowstride: nat, w: nat, h: nat, channels: nat, alpha: bool,
                    y: nat, d: nat, s: nat)
    requires y < h && w > 0 && Fits(length, w, h, stride) && channels >= (if alpha then 4 else 3)
    requires DataLength(w, h, rowstride, channels, 8) <= bytes && d == y * stride && s == y * rowstride
    ensures d + 4 * w <= length && Readable(bytes, s, w, channels, alpha)
    ensures d + stride == (y + 1) * stride && s + rowstride == (y + 1) * rowstride
  {
    RowFits(length, w, h, stride, y);
    RowReadable(bytes, w, h, rowstride, channels, alpha, y);
  }

  /** Outer loop of _e_notification_image_evas_object_fill. */
  method FillRows(dst: array<bv8>, stride: nat, data: array<bv8>, rowstride: nat, w: nat, h: nat, channels: nat,
                  alpha: bool)
    requires dst != data && w > 0 && Fits(dst.Length, w, h, stride) && channels >= (if alpha then 4 else 3)
    requires DataLength(w, h, rowstride, channels, 8) <= data.Length
    modifies dst
    ensures PixelRows(dst[..], h * stride, stride, data[..], h * rowstride, rowstride, w, channels, alpha, h)
  {
    var d, s := 0, 0;
    for y := 0 to h
      invariant d == y * stride && s == y * rowstride
      invariant PixelRows(dst[..], d, stride, data[..], s, rowstride, w, channels, alpha, y)
    {
      FillRowFits(dst.Length, stride, data.Length, rowstride, w, h, channels, alpha, y, d, s);
      FillRowAt(dst, d, stride, data, s, rowstride, w, channels, alpha, y);
      d, s := d + stride, s + rowstride;
    }
  }

  /** _e_notification_image_evas_object_fill, once the object has the size of the image:
      dst are its pixels, stride its row stride. Images of another depth are left alone. */
  method Fill(img: Image, dst: array<bv8>, stride: nat)
    requires img.data != dst
    requires img.bitsPerSample == 8 && img.width > 0 && img.height > 0 ==>
               && Fits(dst.Length, img.width, img.height, stride)
               && img.rowstride >= 0 && img.channels >= (if img.hasAlpha then 4 else 3)
               && DataLength(img.width, img.height, img.rowstride, img.channels, 8) <= img.data.Length
    modifies dst
    ensures img.bitsPerSample == 8 && img.width > 0 && img.height > 0 ==>
              PixelRows(dst[..], img.height * stride, stride, img.data[..], img.height * img.rowstride, img.rowstride,
                        img.width, img.channels, img.hasAlpha, img.height)
    ensures !(img.bitsPerSample == 8 && img.width > 0 && img.height > 0) ==> dst[..] == old(dst[..])
  {
    if img.bitsPerSample != 8 || img.width <= 0 || img.height <= 0 {
      return;
    }
    var w, h: nat, rs: nat, ch: nat := img.width, img.height, img.rowstride, img.channels;
    FillRows(dst, stride, img.data, rs, w, h, ch, img.hasAlpha);
  }

  // ----- there and back

  /** n rows of two objects show the same pixels; the next ones would start at d and s. */
  ghost predicate SameRows(a: seq<bv8>, d: nat, astride: nat, b: seq<bv8>, s: nat, bstride: nat, w: nat, n: nat) {
    n == 0 || (
      && astride <= d && d - astride + 4 * w <= |a| && bstride <= s && s - bstride + 4 * w <= |b|
      && a[d - astride..d - astride + 4 * w] == b[s - bstride..s - bstride + 4 * w]
      && SameRows(a, d - astride, astride, b, s - bstride, bstride, w, n - 1))
  }

  /** Row y of two objects shows the same pixels. */
  ghost predicate SameRow(a: seq<bv8>, astride: nat, b: seq<bv8>, bstride: nat, w: nat, y: nat) {
    y * astride + 4 * w <= |a| && y * bstride + 4 * w <= |b| && Row(a, astride, y, 4 * w) == Row(b, bstride, y, 4 * w)
  }

  /** So do the first n rows. */
  ghost predicate SamePixels(a: seq<bv8>, astride: nat, b: seq<bv8>, bstride: nat, w: nat, n: nat) {
    forall y :: 0 <= y < n ==> SameRow(a, astride, b, bstride, w, y)
  }

  lemma {:induction false} SameRowAt(a: seq<bv8>, d: nat, astride: nat, b: seq<bv8>, s: nat, bstride: nat, w: nat,
                                     n: nat, y: nat, p: nat, q: nat)
    requires SameRows(a, d, astride, b, s, bstride, w, n) && y < n && d == n * astride && s == n * bstride
    requires p == y * astride && q == y * bstride
    ensures p + 4 * w <= |a| && q + 4 * w <= |b| && a[p..p + 4 * w] == b[q..q + 4 * w]
  {
    RowStep(n, astride);
    RowStep(n, bstride);
    if y == n - 1 {
      assert p == d - astride && q == s - bstride;
    } else {
      SameRowAt(a, d - astride, astride, b, s - bstride, bstride, w, n - 1, y, p, q);
    }
  }

  lemma SameRowsMean(a: seq<bv8>, d: nat, astride: nat, b: seq<bv8>, s: nat, bstride: nat, w: nat, n: nat)
    requires SameRows(a, d, astride, b, s, bstride, w, n) && d == n * astride && s == n * bstride
    ensures SamePixels(a, astride, b, bstride, w, n)
  {
    forall y | 0 <= y < n ensures SameRow(a, astride, b, bstride, w, y) {
      SameRowAt(a, d, astride, b, s, bstride, w, n, y, y * astride, y * bstride);
    }
  }

  lemma {:induction false} RowsRoundTrip(dst: seq<bv8>, d: nat, dstride: nat, data: seq<bv8>, e: nat,
                                         src: seq<bv8>, s: nat, sstride: nat, w: nat, n: nat)
    requires SampleRows(data, e, src, s, sstride, w, n)
    requires PixelRows(dst, d, dstride, data, e, 4 * w, w, 4, true, n)
    ensures SameRows(dst, d, dstride, src, s, sstride, w, n)
  {
    if n > 0 {
      RowsRoundTrip(dst, d - dstride, dstride, data, e - 4 * w, src, s - sstride, sstride, w, n - 1);
      PixelsRoundTrip(data, e - 4 * w, w, src[s - sstride..s - sstride + 4 * w]);
    }
  }

  /** Filling an object from an image made of another object copies every pixel, for any two
      row strides that hold a row. */
  method InitThenFill(img: Image, w: nat, h: nat, src: array<bv8>, sstride: nat, dst: array<bv8>, dstride: nat)
    requires w > 0 && h > 0 && src != dst
    requires Fits(src.Length, w, h, sstride) && Fits(dst.Length, w, h, dstride)
    modifies img, dst
    ensures SamePixels(dst[..], dstride, src[..], sstride, w, h)
  {
    var ok := Init(img, w, h, src, sstride);
    InitLength(w, h);
    Fill(img, dst, dstride);
    RowsRoundTrip(dst[..], h * dstride, dstride, img.data[..], h * (4 * w), src[..], h * sstride, sstride, w, h);
    SameRowsMean(dst[..], h * dstride, dstride, src[..], h * sstride, sstride, w, h);
  }
}
