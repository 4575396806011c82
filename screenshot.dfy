/** SpacecraftRenderingTools::screenshot (src/application.cpp) and the path buffer the
    constructor prepares for it (include/application.h).

    The framebuffer is read back as tightly packed RGB bytes with a pack alignment of 4, so
    every row is padded to a multiple of four bytes, and the buffer is handed to the PNG
    writer with that row stride. The pixel bytes themselves, the GL read-back and the PNG
    encoding are not modelled: a capture is described by its layout. */
module Screenshot {

  /** RGB: three bytes per pixel. */
  const Channels: nat := 3
  /** `stride = 3 * width; stride += (stride % 4) ? (4 - stride % 4) : 0;`: three bytes per
      pixel, each row padded to the default GL_PACK_ALIGNMENT of four bytes. */
  function RowStride(width: nat): (stride: nat)
    ensures stride % 4 == 0
    ensures 3 * width <= stride < 3 * width + 4
  {
    var stride := 3 * width;
    stride + (if stride % 4 != 0 then 4 - stride % 4 else 0)
  }

  /** The stride is the row size rounded up to the alignment: the smallest multiple of four
      that holds a row, which is also 4 * ceil(3 * width / 4). */
  lemma StrideIsRoundedUp(width: nat, aligned: nat)
    requires aligned % 4 == 0 && 3 * width <= aligned
    ensures RowStride(width) <= aligned
    ensures RowStride(width) == 4 * ((3 * width + 3) / 4)
  {
  }

  /** A row of a width divisible by four needs no padding. */
  lemma NoPaddingForWidthsDivisibleByFour(width: nat)
    requires width % 4 == 0
    ensures RowStride(width) == 3 * width
  {
    var m := 3 * (width / 4);
    assert 3 * width == 4 * m;
    assert (4 * m) % 4 == 0;
  }

  function BufferSize(width: nat, height: nat): nat
  {
    RowStride(width) * height
  }

  /** What one capture does: the framebuffer area read back (readWidth x readHeight from the
      lower-left corner), the row stride and buffer size used, and the image handed to the PNG
      writer (its width and height, channel count, row stride, whether rows are flipped, and
      the file name, the C string in the path buffer). */
  datatype Capture = Capture(readWidth: nat, readHeight: nat, stride: nat, bufferSize: nat,
                             imageWidth: int, imageHeight: nat, channels: nat,
                             flipped: bool, path: string)

  /** The PNG writer reads imageHeight rows of imageWidth * channels bytes, row r starting
      at r * stride: they must all lie inside the buffer. */
  predicate RowsInBuffer(c: Capture)
  {
    && 0 <= c.imageWidth
    && c.imageWidth * c.channels <= c.stride
    && (c.imageHeight == 0 || c.stride * (c.imageHeight - 1) + c.imageWidth * c.channels <= c.bufferSize)
  }

  /** The image covers the whole area read: every pixel read back is written to the PNG. */
  predicate WholeFramebuffer(c: Capture)
  {
    c.imageWidth == c.readWidth && c.imageHeight == c.readHeight
  }

  /** The capture as the source writes it: the image width is windowWidth_, not the width of
      the framebuffer that was read. */
  function CaptureAsWritten(fbWidth: nat, fbHeight: nat, windowWidth: int, pathBuffer: seq<char>): Capture
  {
    Capture(fbWidth, fbHeight, RowStride(fbWidth), BufferSize(fbWidth, fbHeight),
            windowWidth, fbHeight, Channels, true, CString(pathBuffer))
  }

  /** When windowWidth_ differs from the framebuffer width the written image does not match
      the bytes read: a framebuffer twice the window's width (a high-density display before
      any resize event) gives a PNG of the left half of every row, and a window wider than its
      framebuffer makes the writer read past the end of the buffer. */
  lemma WindowWidthMismatch(pathBuffer: seq<char>)
    ensures var c := CaptureAsWritten(2560, 1920, 1280, pathBuffer);
            RowsInBuffer(c) && !WholeFramebuffer(c)
    ensures var c := CaptureAsWritten(500, 400, 1000, pathBuffer);
            !RowsInBuffer(c) && c.stride * (c.imageHeight - 1) + c.imageWidth * c.channels > c.bufferSize
  {
    assert RowStride(2560) == 7680;
    assert RowStride(500) == 1500;
  }

  /** The capture with the image width taken from the framebuffer that was read. */
  function CaptureOf(fbWidth: nat, fbHeight: nat, pathBuffer: seq<char>): (c: Capture)
    ensures RowsInBuffer(c) && WholeFramebuffer(c)
    ensures c.stride % 4 == 0 && c.bufferSize == c.stride * c.readHeight
    ensures c.channels == Channels && c.flipped
  {
    var c := Capture(fbWidth, fbHeight, RowStride(fbWidth), BufferSize(fbWidth, fbHeight),
                     fbWidth, fbHeight, Channels, true, CString(pathBuffer));
    LastRowFits(c.stride, fbWidth * Channels, fbHeight);
    c
  }

  /** With rows no longer than the stride, the last of h rows ends inside h strides. */
  lemma LastRowFits(stride: nat, row: nat, h: nat)
    requires row <= stride
    ensures h > 0 ==> stride * (h - 1) + row <= stride * h
  {
  }

  /** Wherever the two agree on the width they describe the same capture. */
  lemma CaptureAgreesWhenWidthsMatch(fbWidth: nat, fbHeight: nat, pathBuffer: seq<char>)
    ensures CaptureAsWritten(fbWidth, fbHeight, fbWidth, pathBuffer) == CaptureOf(fbWidth, fbHeight, pathBuffer)
  {
  }

  // The path buffer: a std::vector<char> of 256 characters holding a NUL-terminated string.

  const PathCapacity: nat := 256
  const Nul: char := '\0'

  /** The C string a character buffer holds: everything before its first NUL. */
  function CString(buffer: seq<char>): (s: seq<char>)
    ensures s <= buffer
    ensures Nul !in s
    ensures |s| < |buffer| ==> buffer[|s|] == Nul
  {
    if buffer == [] || buffer[0] == Nul then [] else [buffer[0]] + CString(buffer[1..])
  }

  function Min(a: nat, b: nat): nat
  {
    if a <= b then a else b
  }

  /** The constructor's buffer: `resize(256)` fills it with NULs, `strncpy` copies at most
      255 characters of the current directory's C string and pads with NULs, and the last
      character is set to NUL. */
  function PathBuffer(cwd: string): (buffer: seq<char>)
    ensures |buffer| == PathCapacity && buffer[PathCapacity - 1] == Nul
  {
    var path := CString(cwd);
    var n := Min(|path|, PathCapacity - 1);
    seq(PathCapacity, i requires 0 <= i < PathCapacity => if i < n then path[i] else Nul)
  }

  /** The buffer holds a terminated string of at most 255 characters. */
  predicate PathBufferValid(buffer: seq<char>)
  {
    |buffer| == PathCapacity && buffer[PathCapacity - 1] == Nul
  }

  /** Reading the buffer back as a C string gives the directory, cut to 255 characters when
      it is longer. */
  lemma {:induction false} PathBufferRoundTrip(cwd: string)
    ensures PathBufferValid(PathBuffer(cwd))
    ensures var path := CString(cwd);
            CString(PathBuffer(cwd)) == path[..Min(|path|, PathCapacity - 1)]
  {
    var path := CString(cwd);
    var n := Min(|path|, PathCapacity - 1);
    var buffer := PathBuffer(cwd);
    assert buffer[..n] == path[..n];
    assert buffer[n] == Nul;
    CStringOfTerminated(buffer, n);
  }

  /** A buffer whose first NUL is at position n holds the C string of its first n characters. */
  lemma {:induction false} CStringOfTerminated(buffer: seq<char>, n: nat)
    requires n < |buffer| && buffer[n] == Nul
    requires Nul !in buffer[..n]
    ensures CString(buffer) == buffer[..n]
  {
    if n > 0 {
      assert buffer[0] in buffer[..n];
      assert buffer[1..][..n - 1] == buffer[1..n];
      assert forall c :: c in buffer[1..n] ==> c in buffer[..n];
      CStringOfTerminated(buffer[1..], n - 1);
    }
  }
}
