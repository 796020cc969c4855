/**
 * The SSD1306 OLED example (examples/i2c_ssd1306/main.cpp): a 128x64 monochrome
 * framebuffer of 1024 bytes, one byte per column of an 8-row page, drawn in place.
 *
 * Pixel (x, y) lives in byte x + (y / 8) * 128, bit y % 8.  The contracts speak about
 * pixels (`PixelOn`); the lemmas below connect that view to the bytes.  Streaming the
 * buffer to the panel (`begin`, `display`) is I2C traffic and is not modelled.
 */
module OledSSD1306 {
  import opened Common

  const SSD1306_ADDR: int := 0x3C
  const DISPLAY_WIDTH: int := 128
  const DISPLAY_HEIGHT: int := 64
  const BUFFER_SIZE: int := (128 * 64) / 8

  predicate OnScreen(x: int, y: int)
  {
    0 <= x < DISPLAY_WIDTH && 0 <= y < DISPLAY_HEIGHT
  }

  /** The byte holding pixel (x, y): column x of page y / 8. */
  function ByteIndex(x: int, y: int): (i: int)
    requires OnScreen(x, y)
    ensures 0 <= i < BUFFER_SIZE
  {
    x + (y / 8) * 128
  }

  /** `1 << k`, as k doublings of 1. */
  function RowBit(k: int): (m: bv8)
    requires 0 <= k < 8
  {
    if k == 0 then 1 else RowBit(k - 1) << 1
  }

  /** `RowBit` is the shift `1 << k`, so exactly bit k is set. */
  lemma RowBitIsShift(k: int)
    requires 0 <= k < 8
    ensures RowBit(k) == (1 as bv8) << k
  {
    if k == 0 { } else if k == 1 { } else if k == 2 { } else if k == 3 { }
    else if k == 4 { } else if k == 5 { } else if k == 6 { } else { }
  }

  /** The bit of that byte: row y % 8 of the page. */
  function BitMask(y: int): (m: bv8)
    requires 0 <= y
  {
    RowBit(y % 8)
  }

  /** Distinct on-screen pixels never share both byte and bit. */
  lemma PixelAddressInjective(x: int, y: int, x': int, y': int)
    requires OnScreen(x, y) && OnScreen(x', y')
    requires ByteIndex(x, y) == ByteIndex(x', y') && y % 8 == y' % 8
    ensures x == x' && y == y'
  {
    assert y == (y / 8) * 8 + y % 8 && y' == (y' / 8) * 8 + y' % 8;
  }

  /** Distinct rows have disjoint, non-zero bits. */
  lemma RowBitsDisjoint(i: int, j: int)
    requires 0 <= i < 8 && 0 <= j < 8
    ensures RowBit(i) != 0
    ensures i != j ==> RowBit(i) & RowBit(j) == 0
  {
    RowBitIsShift(i);
    RowBitIsShift(j);
  }

  /** Or-ing in or masking out bits of m leaves the bits of a disjoint n alone. */
  lemma MaskIndependence(byte: bv8, m: bv8, n: bv8)
    requires m & n == 0
    ensures ((byte | m) & n != 0) == (byte & n != 0)
    ensures ((byte & !m) & n != 0) == (byte & n != 0)
  {
  }

  /** Or-ing in a non-zero mask sets it; masking it out clears it. */
  lemma MaskSelf(byte: bv8, m: bv8)
    requires m != 0
    ensures (byte | m) & m != 0
    ensures (byte & !m) & m == 0
  {
  }

  /** Setting a clear mask and masking it out again gives back the byte. */
  lemma MaskRestore(byte: bv8, m: bv8)
    requires byte & m == 0
    ensures (byte | m) & !m == byte
  {
  }

  /** The byte after `setPixel` sets (`|=`) or clears (`&= ~`) the bit of row y. */
  function PixelByte(byte: bv8, y: int, on: bool): bv8
    requires 0 <= y
  {
    if on then byte | BitMask(y) else byte & !BitMask(y)
  }

  /** Only the bit of row y changes, and it becomes `on`. */
  lemma PixelByteEffect(byte: bv8, y: int, on: bool, b: int)
    requires 0 <= y && 0 <= b
    ensures (PixelByte(byte, y, on) & BitMask(b) != 0) == (if b % 8 == y % 8 then on else byte & BitMask(b) != 0)
  {
    if b % 8 == y % 8 {
      PixelByteSameRow(byte, y, on, b);
    } else {
      PixelByteOtherRow(byte, y, on, b);
    }
  }

  lemma PixelByteSameRow(byte: bv8, y: int, on: bool, b: int)
    requires 0 <= y && 0 <= b && b % 8 == y % 8
    ensures (PixelByte(byte, y, on) & BitMask(b) != 0) == on
  {
    RowBitsDisjoint(y % 8, y % 8);
    MaskSelf(byte, BitMask(y));
  }

  lemma PixelByteOtherRow(byte: bv8, y: int, on: bool, b: int)
    requires 0 <= y && 0 <= b && b % 8 != y % 8
    ensures (PixelByte(byte, y, on) & BitMask(b) != 0) == (byte & BitMask(b) != 0)
  {
    RowBitsDisjoint(y % 8, b % 8);
    MaskIndependence(byte, BitMask(y), BitMask(b));
  }

  /** Setting a clear bit and clearing it again gives back the byte. */
  lemma PixelByteRestore(byte: bv8, y: int)
    requires 0 <= y && byte & BitMask(y) == 0
    ensures PixelByte(PixelByte(byte, y, true), y, false) == byte
  {
    MaskRestore(byte, BitMask(y));
  }

  /** Whether pixel (x, y) is lit in framebuffer `buf`; off-screen pixels never are. */
  ghost predicate PixelOn(buf: seq<bv8>, x: int, y: int)
  {
    OnScreen(x, y) && |buf| == BUFFER_SIZE && buf[ByteIndex(x, y)] & BitMask(y) != 0
  }

  /** The framebuffer after `setPixel(x, y, on)`. */
  function WithPixel(buf: seq<bv8>, x: int, y: int, on: bool): (r: seq<bv8>)
    requires |buf| == BUFFER_SIZE
    ensures |r| == BUFFER_SIZE
  {
    if !OnScreen(x, y) then buf
    else
      var i := ByteIndex(x, y);
      buf[i := PixelByte(buf[i], y, on)]
  }

  /** The effect of `setPixel(x, y, on)` on one pixel (a, b). */
  lemma WithPixelAt(buf: seq<bv8>, x: int, y: int, on: bool, a: int, b: int)
    requires |buf| == BUFFER_SIZE
    ensures PixelOn(WithPixel(buf, x, y, on), a, b) == (if a == x && b == y && OnScreen(x, y) then on else PixelOn(buf, a, b))
  {
    if OnScreen(x, y) && OnScreen(a, b) {
      if ByteIndex(a, b) == ByteIndex(x, y) {
        WithPixelSameByte(buf, x, y, on, a, b);
      } else {
        WithPixelOtherByte(buf, x, y, on, a, b);
      }
    }
  }

  lemma WithPixelSameByte(buf: seq<bv8>, x: int, y: int, on: bool, a: int, b: int)
    requires |buf| == BUFFER_SIZE && OnScreen(x, y) && OnScreen(a, b)
    requires ByteIndex(a, b) == ByteIndex(x, y)
    ensures PixelOn(WithPixel(buf, x, y, on), a, b) == (if a == x && b == y then on else PixelOn(buf, a, b))
  {
    var i := ByteIndex(x, y);
    if b % 8 == y % 8 {
      PixelAddressInjective(a, b, x, y);
    }
    PixelByteEffect(buf[i], y, on, b);
  }

  lemma WithPixelOtherByte(buf: seq<bv8>, x: int, y: int, on: bool, a: int, b: int)
    requires |buf| == BUFFER_SIZE && OnScreen(x, y) && OnScreen(a, b)
    requires ByteIndex(a, b) != ByteIndex(x, y)
    ensures PixelOn(WithPixel(buf, x, y, on), a, b) == PixelOn(buf, a, b)
  {
    var k := ByteIndex(a, b);
    assert WithPixel(buf, x, y, on)[k] == buf[k];
  }

  /** `setPixel` changes exactly the pixel it names, and only when that pixel is on screen. */
  lemma WithPixelEffect(buf: seq<bv8>, x: int, y: int, on: bool)
    requires |buf| == BUFFER_SIZE
    ensures forall a, b ::
      PixelOn(WithPixel(buf, x, y, on), a, b) == (if a == x && b == y && OnScreen(x, y) then on else PixelOn(buf, a, b))
  {
    forall a, b
      ensures PixelOn(WithPixel(buf, x, y, on), a, b) == (if a == x && b == y && OnScreen(x, y) then on else PixelOn(buf, a, b))
    {
      WithPixelAt(buf, x, y, on, a, b);
    }
  }

  /** Lighting a dark pixel and then clearing it gives back the original bytes. */
  lemma SetThenClearRestores(buf: seq<bv8>, x: int, y: int)
    requires |buf| == BUFFER_SIZE && !PixelOn(buf, x, y)
    ensures WithPixel(WithPixel(buf, x, y, true), x, y, false) == buf
  {
    if OnScreen(x, y) {
      var i := ByteIndex(x, y);
      var lit := WithPixel(buf, x, y, true);
      PixelByteRestore(buf[i], y);
      assert lit[i] == PixelByte(buf[i], y, true);
      assert WithPixel(lit, x, y, false) == buf[i := buf[i]];
    }
  }

  /** An all-zero buffer shows no pixel; an all-0xFF buffer shows every on-screen pixel. */
  lemma UniformBuffers(buf: seq<bv8>)
    requires |buf| == BUFFER_SIZE
    ensures (forall i :: 0 <= i < |buf| ==> buf[i] == 0) ==> forall x, y :: !PixelOn(buf, x, y)
    ensures (forall i :: 0 <= i < |buf| ==> buf[i] == 0xFF) ==> forall x, y :: OnScreen(x, y) ==> PixelOn(buf, x, y)
  {
    forall y | 0 <= y
      ensures BitMask(y) != 0
    {
      RowBitsDisjoint(y % 8, y % 8);
    }
  }

  /**
   * `after` shows what `before` shows plus the on-screen pixels of `cells`, and nothing
   * else: lit pixels stay lit, and a pixel outside `cells` keeps its state.
   */
  ghost predicate Painted(before: seq<bv8>, after: seq<bv8>, cells: set<(int, int)>)
  {
    forall a, b :: PixelOn(after, a, b) == (PixelOn(before, a, b) || (OnScreen(a, b) && (a, b) in cells))
  }

  /** Lighting one more pixel adds its cell to what has been painted. */
  lemma PaintPixel(original: seq<bv8>, before: seq<bv8>, cells: set<(int, int)>, x: int, y: int)
    requires |before| == BUFFER_SIZE && Painted(original, before, cells)
    ensures Painted(original, WithPixel(before, x, y, true), cells + {(x, y)})
  {
    WithPixelEffect(before, x, y, true);
  }

  /** Painting in two rounds paints the union of the cells. */
  lemma PaintedTrans(a: seq<bv8>, b: seq<bv8>, c: seq<bv8>, s: set<(int, int)>, t: set<(int, int)>)
    requires Painted(a, b, s) && Painted(b, c, t)
    ensures Painted(a, c, s + t)
  {
  }

  /** Every cell lies in the box [xlo, xhi] x [ylo, yhi]. */
  ghost predicate WithinBox(cells: set<(int, int)>, xlo: int, xhi: int, ylo: int, yhi: int)
  {
    forall c :: c in cells ==> xlo <= c.0 <= xhi && ylo <= c.1 <= yhi
  }

  function Min(a: int, b: int): (m: int)
    ensures m <= a && m <= b && (m == a || m == b)
  {
    if a < b then a else b
  }

  function Max(a: int, b: int): (m: int)
    ensures m >= a && m >= b && (m == a || m == b)
  {
    if a < b then b else a
  }

  lemma MulLeftMonotone(a: int, b: int, c: int)
    requires a >= 0 && b <= c
    ensures a * b <= a * c
  {
    assert a * c - a * b == a * (c - b);
  }

  /**
   * One step of Bresenham's loop after px of dx horizontal and py of dy vertical moves:
   * with err = dx - dy - dy * px + dx * py, a horizontal move only happens while px < dx,
   * a vertical one only while py < dy, and at least one of them happens.
   */
  lemma BresenhamStep(dx: int, dy: int, px: int, py: int)
    requires 0 <= px <= dx && 0 <= py <= dy && !(px == dx && py == dy)
    ensures var err := dx - dy - dy * px + dx * py;
      (2 * err > -dy ==> px < dx) && (2 * err < dx ==> py < dy) && (2 * err > -dy || 2 * err < dx)
  {
    if px == dx {
      MulLeftMonotone(dx, py, dy - 1);
    }
    if py == dy {
      MulLeftMonotone(dy, px, dx - 1);
    }
  }

  /** How Bresenham's error term moves with each horizontal and vertical step. */
  lemma ErrStep(dx: int, dy: int, px: int, py: int)
    ensures dx - dy - dy * (px + 1) + dx * py == (dx - dy - dy * px + dx * py) - dy
    ensures dx - dy - dy * px + dx * (py + 1) == (dx - dy - dy * px + dx * py) + dx
    ensures dx - dy - dy * (px + 1) + dx * (py + 1) == (dx - dy - dy * px + dx * py) - dy + dx
  {
  }

  /** The cells of the w x h rectangle with top-left corner (x, y). */
  ghost function RectCells(x: int, y: int, w: int, h: int): (cells: set<(int, int)>)
    ensures forall a, b :: (a, b) in cells <==> x <= a < x + w && y <= b < y + h
    ensures w <= 0 || h <= 0 ==> cells == {}
  {
    set a, b | x <= a < x + w && y <= b < y + h :: (a, b)
  }

  /** The framebuffer after lighting (x, y), (x + 1, y), ..., (x + j - 1, y) in that order. */
  function RowImage(buf: seq<bv8>, x: int, y: int, j: int): (r: seq<bv8>)
    requires |buf| == BUFFER_SIZE
    ensures |r| == BUFFER_SIZE
    decreases j
  {
    if j <= 0 then buf else WithPixel(RowImage(buf, x, y, j - 1), x + j - 1, y, true)
  }

  /** The framebuffer after lighting rows y, ..., y + i - 1 of the w-wide rectangle at (x, y). */
  function RectImage(buf: seq<bv8>, x: int, y: int, w: int, i: int): (r: seq<bv8>)
    requires |buf| == BUFFER_SIZE
    ensures |r| == BUFFER_SIZE
    decreases i
  {
    if i <= 0 then buf else RowImage(RectImage(buf, x, y, w, i - 1), x, y + i - 1, w)
  }

  /** The cells (x, y), ..., (x + j - 1, y). */
  ghost function RowCells(x: int, y: int, j: int): (cells: set<(int, int)>)
    ensures forall a, b :: (a, b) in cells <==> b == y && x <= a < x + j
  {
    set a | x <= a < x + j :: (a, y)
  }

  lemma RowImageStep(buf: seq<bv8>, x: int, y: int, j: int)
    requires |buf| == BUFFER_SIZE && 0 <= j
    ensures RowImage(buf, x, y, j + 1) == WithPixel(RowImage(buf, x, y, j), x + j, y, true)
  {
  }

  lemma RectImageStep(buf: seq<bv8>, x: int, y: int, w: int, i: int)
    requires |buf| == BUFFER_SIZE && 0 <= i
    ensures RectImage(buf, x, y, w, i + 1) == RowImage(RectImage(buf, x, y, w, i), x, y + i, w)
  {
  }

  /** A row adds exactly its on-screen cells to what is lit. */
  lemma {:induction false} RowImagePixels(buf: seq<bv8>, x: int, y: int, j: int)
    requires |buf| == BUFFER_SIZE
    ensures Painted(buf, RowImage(buf, x, y, j), RowCells(x, y, j))
    decreases j
  {
    if j > 0 {
      var prev := RowImage(buf, x, y, j - 1);
      RowImagePixels(buf, x, y, j - 1);
      PaintPixel(buf, prev, RowCells(x, y, j - 1), x + j - 1, y);
      assert RowCells(x, y, j - 1) + {(x + j - 1, y)} == RowCells(x, y, j);
    }
  }

  /** The filled rectangle adds exactly its on-screen cells to what is lit. */
  lemma {:induction false} RectImagePixels(buf: seq<bv8>, x: int, y: int, w: int, i: int)
    requires |buf| == BUFFER_SIZE
    ensures Painted(buf, RectImage(buf, x, y, w, i), RectCells(x, y, w, i))
    decreases i
  {
    if i > 0 {
      var prev := RectImage(buf, x, y, w, i - 1);
      RectImagePixels(buf, x, y, w, i - 1);
      RowImagePixels(prev, x, y + i - 1, w);
      PaintedTrans(buf, prev, RowImage(prev, x, y + i - 1, w), RectCells(x, y, w, i - 1), RowCells(x, y + i - 1, w));
      assert RectCells(x, y, w, i - 1) + RowCells(x, y + i - 1, w) == RectCells(x, y, w, i);
    } else {
      assert RectCells(x, y, w, i) == {};
    }
  }

  /** A rectangle with no width or no height leaves every byte as it was. */
  lemma {:induction false} RectImageEmpty(buf: seq<bv8>, x: int, y: int, w: int, h: int)
    requires |buf| == BUFFER_SIZE && (w <= 0 || h <= 0)
    ensures RectImage(buf, x, y, w, h) == buf
    decreases h
  {
    if h > 0 {
      RectImageEmpty(buf, x, y, w, h - 1);
    }
  }

  /** The 5x8 glyphs of the partial font: 'A', 'B', 'C' and space, one byte per column. */
  const FONT: seq<seq<bv8>> := [
    [0x7E, 0x11, 0x11, 0x11, 0x7E],
    [0x7F, 0x49, 0x49, 0x49, 0x36],
    [0x3E, 0x41, 0x41, 0x41, 0x22],
    [0x00, 0x00, 0x00, 0x00, 0x00]
  ]

  /** The glyph of a character, or -1 when the font has none. */
  function GlyphIndex(c: char): (index: int)
    ensures -1 <= index < |FONT|
    ensures index >= 0 <==> ('A' <= c <= 'C' || c == ' ')
    ensures c == ' ' <==> index == 3
  {
    if 'A' <= c <= 'C' then (c as int) - ('A' as int)
    else if c == ' ' then 3
    else -1
  }

  /** Whether column i, row j of the glyph for c is lit. */
  ghost predicate GlyphBit(c: char, i: int, j: int)
  {
    GlyphIndex(c) >= 0 && 0 <= i < 5 && 0 <= j < 8 && FontBit(GlyphIndex(c), i, j)
  }

  /** Bit j of column i of glyph `index`: `font[index][i] & (1 << j)`. */
  predicate FontBit(index: int, i: int, j: int)
    requires 0 <= index < |FONT| && 0 <= i < 5 && 0 <= j < 8
  {
    FONT[index][i] & BitMask(j) != 0
  }

  /** The space glyph is blank. */
  lemma SpaceIsBlank(i: int, j: int)
    ensures !GlyphBit(' ', i, j)
  {
  }

  /**
   * The framebuffer after visiting every bit of columns 0..i-1 of glyph `index` and rows
   * 0..j-1 of column i, drawn at (x, y), lighting the pixels whose bit is set.
   */
  function GlyphImage(buf: seq<bv8>, index: int, x: int, y: int, i: int, j: int): (r: seq<bv8>)
    requires |buf| == BUFFER_SIZE && 0 <= index < |FONT| && 0 <= i <= 5 && 0 <= j <= 8
    ensures |r| == BUFFER_SIZE
    decreases i, j
  {
    if j > 0 then
      var prev := GlyphImage(buf, index, x, y, i, j - 1);
      if i < 5 && FontBit(index, i, j - 1) then WithPixel(prev, x + i, y + j - 1, true) else prev
    else if i > 0 then GlyphImage(buf, index, x, y, i - 1, 8)
    else buf
  }

  lemma GlyphImageStep(buf: seq<bv8>, index: int, x: int, y: int, i: int, j: int)
    requires |buf| == BUFFER_SIZE && 0 <= index < |FONT| && 0 <= i < 5 && 0 <= j < 8
    ensures GlyphImage(buf, index, x, y, i, j + 1) ==
      if FontBit(index, i, j) then WithPixel(GlyphImage(buf, index, x, y, i, j), x + i, y + j, true)
      else GlyphImage(buf, index, x, y, i, j)
    ensures j == 7 ==> GlyphImage(buf, index, x, y, i + 1, 0) == GlyphImage(buf, index, x, y, i, 8)
  {
  }

  /** The framebuffer after `drawChar(x, y, c)`: unchanged for a character outside the font. */
  function CharImage(buf: seq<bv8>, x: int, y: int, c: char): (r: seq<bv8>)
    requires |buf| == BUFFER_SIZE
    ensures |r| == BUFFER_SIZE
    ensures GlyphIndex(c) < 0 ==> r == buf
  {
    if GlyphIndex(c) < 0 then buf else GlyphImage(buf, GlyphIndex(c), x, y, 5, 0)
  }

  /** The cells of c's glyph drawn at (x, y), among columns 0..i-1 and rows 0..j-1 of column i. */
  ghost function GlyphCells(c: char, x: int, y: int, i: int, j: int): (cells: set<(int, int)>)
    ensures forall a, b :: (a, b) in cells <==> GlyphBit(c, a - x, b - y) && (a - x < i || (a - x == i && b - y < j))
  {
    set a, b | x <= a < x + 5 && y <= b < y + 8 && GlyphBit(c, a - x, b - y) && (a - x < i || (a - x == i && b - y < j)) :: (a, b)
  }

  lemma {:induction false} GlyphImagePixels(buf: seq<bv8>, c: char, x: int, y: int, i: int, j: int)
    requires |buf| == BUFFER_SIZE && GlyphIndex(c) >= 0 && 0 <= i <= 5 && 0 <= j <= 8
    ensures Painted(buf, GlyphImage(buf, GlyphIndex(c), x, y, i, j), GlyphCells(c, x, y, i, j))
    decreases i, j
  {
    var index := GlyphIndex(c);
    if j > 0 {
      var prev := GlyphImage(buf, index, x, y, i, j - 1);
      GlyphImagePixels(buf, c, x, y, i, j - 1);
      if i < 5 && FontBit(index, i, j - 1) {
        PaintPixel(buf, prev, GlyphCells(c, x, y, i, j - 1), x + i, y + j - 1);
        assert GlyphCells(c, x, y, i, j - 1) + {(x + i, y + j - 1)} == GlyphCells(c, x, y, i, j);
      } else {
        assert GlyphCells(c, x, y, i, j - 1) == GlyphCells(c, x, y, i, j);
      }
    } else if i > 0 {
      GlyphImagePixels(buf, c, x, y, i - 1, 8);
      assert GlyphCells(c, x, y, i - 1, 8) == GlyphCells(c, x, y, i, 0);
    } else {
      assert GlyphCells(c, x, y, 0, 0) == {};
    }
  }

  /**
   * `drawChar` lights exactly the on-screen pixels of c's glyph in addition to what was lit;
   * a space, whose glyph is blank, and a character outside the font change nothing visible.
   */
  lemma CharImagePixels(buf: seq<bv8>, x: int, y: int, c: char)
    requires |buf| == BUFFER_SIZE
    ensures forall a, b ::
      PixelOn(CharImage(buf, x, y, c), a, b) == (PixelOn(buf, a, b) || (OnScreen(a, b) && GlyphBit(c, a - x, b - y)))
  {
    if GlyphIndex(c) >= 0 {
      GlyphImagePixels(buf, c, x, y, 5, 0);
    }
  }

  class SSD1306 {
    const address: int
    const buffer: array<bv8>

    ghost predicate Valid()
      reads this
    {
      buffer.Length == BUFFER_SIZE
    }

    /** `SSD1306(addr)`: a blank 1024-byte framebuffer. */
    constructor (addr: int)
      ensures Valid() && address == addr && fresh(buffer)
      ensures forall i :: 0 <= i < BUFFER_SIZE ==> buffer[i] == 0
    {
      address := addr;
      buffer := new bv8[BUFFER_SIZE](_ => 0);
    }

    /** `clear()`: every byte 0x00. */
    method Clear()
      requires Valid()
      modifies buffer
      ensures forall i :: 0 <= i < BUFFER_SIZE ==> buffer[i] == 0
    {
      forall i | 0 <= i < buffer.Length {
        buffer[i] := 0;
      }
    }

    /** `fill()`: every byte 0xFF. */
    method Fill()
      requires Valid()
      modifies buffer
      ensures forall i :: 0 <= i < BUFFER_SIZE ==> buffer[i] == 0xFF
    {
      forall i | 0 <= i < buffer.Length {
        buffer[i] := 0xFF;
      }
    }

    /** `setPixel(x, y, on)`: off-screen coordinates are ignored. */
    method SetPixel(x: int, y: int, on: bool)
      requires Valid()
      modifies buffer
      ensures buffer[..] == WithPixel(old(buffer[..]), x, y, on)
    {
      if x < 0 || x >= DISPLAY_WIDTH || y < 0 || y >= DISPLAY_HEIGHT {
        return;
      }
      ghost var before := buffer[..];
      var byteIndex := ByteIndex(x, y);
      var mask := BitMask(y);
      if on {
        buffer[byteIndex] := buffer[byteIndex] | mask;
      } else {
        buffer[byteIndex] := buffer[byteIndex] & !mask;
      }
      assert buffer[..] == before[byteIndex := buffer[byteIndex]];
    }

    /**
     * `drawLine(x0, y0, x1, y1)`: Bresenham's walk from one end to the other.  It always
     * terminates and paints a set of cells that holds both ends and lies within the line's
     * bounding box.
     */
    method DrawLine(x0: int, y0: int, x1: int, y1: int) returns (ghost cells: set<(int, int)>)
      requires Valid()
      modifies buffer
      ensures Painted(old(buffer[..]), buffer[..], cells)
      ensures (x0, y0) in cells && (x1, y1) in cells
      ensures WithinBox(cells, Min(x0, x1), Max(x0, x1), Min(y0, y1), Max(y0, y1))
    {
      var dx: int := Abs(x1 - x0);
      var dy: int := Abs(y1 - y0);
      var sx := if x0 < x1 then 1 else -1;
      var sy := if y0 < y1 then 1 else -1;
      var err: int := dx - dy;
      var x, y := x0, y0;
      ghost var px: int, py: int := 0, 0;
      ghost var original := buffer[..];
      cells := {};
      while true
        invariant 0 <= px <= dx && 0 <= py <= dy
        invariant x == (if x0 < x1 then x0 + px else x0 - px)
        invariant y == (if y0 < y1 then y0 + py else y0 - py)
        invariant err == dx - dy - dy * px + dx * py
        invariant (px != 0 || py != 0) ==> (x0, y0) in cells
        invariant Painted(original, buffer[..], cells)
        invariant WithinBox(cells, Min(x0, x1), Max(x0, x1), Min(y0, y1), Max(y0, y1))
        decreases (dx - px) + (dy - py)
      {
        PaintPixel(original, buffer[..], cells, x, y);
        SetPixel(x, y, true);
        cells := cells + {(x, y)};
        if x == x1 && y == y1 {
          break;
        }
        BresenhamStep(dx, dy, px, py);
        ErrStep(dx, dy, px, py);
        var e2 := 2 * err;
        if e2 > -dy {
          err := err - dy;
          x := x + sx;
          px := px + 1;
        }
        if e2 < dx {
          err := err + dx;
          y := y + sy;
          py := py + 1;
        }
      }
    }

    /**
     * `drawRect(x, y, w, h, fill)`: a filled rectangle lights every pixel of the w by h box
     * row by row; an outline is four lines along its edges, corner to corner.
     */
    method DrawRect(x: int, y: int, w: int, h: int, fill: bool) returns (ghost cells: set<(int, int)>)
      requires Valid()
      modifies buffer
      ensures Painted(old(buffer[..]), buffer[..], cells)
      ensures fill ==> buffer[..] == RectImage(old(buffer[..]), x, y, w, h) && cells == RectCells(x, y, w, h)
      ensures !fill ==>
        (x, y) in cells && (x + w - 1, y) in cells && (x + w - 1, y + h - 1) in cells && (x, y + h - 1) in cells
      ensures !fill ==> WithinBox(cells, Min(x, x + w - 1), Max(x, x + w - 1), Min(y, y + h - 1), Max(y, y + h - 1))
    {
      if fill {
        cells := FillRect(x, y, w, h);
      } else {
        cells := OutlineRect(x, y, w, h);
      }
    }

    /** The filled branch of `drawRect`: rows y .. y + h - 1, each from x to x + w - 1. */
    method FillRect(x: int, y: int, w: int, h: int) returns (ghost cells: set<(int, int)>)
      requires Valid()
      modifies buffer
      ensures buffer[..] == RectImage(old(buffer[..]), x, y, w, h) && cells == RectCells(x, y, w, h)
      ensures Painted(old(buffer[..]), buffer[..], cells)
    {
      ghost var original := buffer[..];
      var i := 0;
      while i < h
        invariant 0 <= i && (i <= h || i == 0)
        invariant buffer[..] == RectImage(original, x, y, w, i)
      {
        ghost var rowStart := buffer[..];
        var j := 0;
        while j < w
          invariant 0 <= j && (j <= w || j == 0)
          invariant buffer[..] == RowImage(rowStart, x, y + i, j)
        {
          RowImageStep(rowStart, x, y + i, j);
          SetPixel(x + j, y + i, true);
          j := j + 1;
        }
        RectImageStep(original, x, y, w, i);
        i := i + 1;
      }
      RectImagePixels(original, x, y, w, i);
      cells := RectCells(x, y, w, h);
    }

    /** The outline branch of `drawRect`: top, right, bottom and left edges, in that order. */
    method OutlineRect(x: int, y: int, w: int, h: int) returns (ghost cells: set<(int, int)>)
      requires Valid()
      modifies buffer
      ensures Painted(old(buffer[..]), buffer[..], cells)
      ensures (x, y) in cells && (x + w - 1, y) in cells && (x + w - 1, y + h - 1) in cells && (x, y + h - 1) in cells
      ensures WithinBox(cells, Min(x, x + w - 1), Max(x, x + w - 1), Min(y, y + h - 1), Max(y, y + h - 1))
    {
      ghost var original := buffer[..];
      var c1 := DrawLine(x, y, x + w - 1, y);
      ghost var s1 := buffer[..];
      var c2 := DrawLine(x + w - 1, y, x + w - 1, y + h - 1);
      ghost var s2 := buffer[..];
      PaintedTrans(original, s1, s2, c1, c2);
      var c3 := DrawLine(x + w - 1, y + h - 1, x, y + h - 1);
      ghost var s3 := buffer[..];
      PaintedTrans(original, s2, s3, c1 + c2, c3);
      var c4 := DrawLine(x, y + h - 1, x, y);
      PaintedTrans(original, s3, buffer[..], c1 + c2 + c3, c4);
      cells := c1 + c2 + c3 + c4;
    }

    /** `drawChar(x, y, c)`: the glyph's set bits are lit column by column (see `CharImagePixels`). */
    method DrawChar(x: int, y: int, c: char)
      requires Valid()
      modifies buffer
      ensures buffer[..] == CharImage(old(buffer[..]), x, y, c)
    {
      ghost var original := buffer[..];
      var index := -1;
      if 'A' <= c && c <= 'C' {
        index := (c as int) - ('A' as int);
      } else if c == ' ' {
        index := 3;
      }
      if index >= 0 {
        var i := 0;
        while i < 5
          invariant 0 <= i <= 5 && index == GlyphIndex(c)
          invariant buffer[..] == GlyphImage(original, index, x, y, i, 0)
        {
          var j := 0;
          while j < 8
            invariant 0 <= j <= 8
            invariant buffer[..] == GlyphImage(original, index, x, y, i, j)
          {
            GlyphImageStep(original, index, x, y, i, j);
            if FontBit(index, i, j) {
              SetPixel(x + i, y + j, true);
            }
            j := j + 1;
          }
          i := i + 1;
        }
      }
    }
  }
}
