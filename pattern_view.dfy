/** The debugger's pattern-table view (`GetPatternTable`): a 4 KB pattern
    table is 16x16 tiles of 8x8 pixels; each tile row is two bitplane bytes
    (the low plane, and 8 bytes further on the high plane), whose bit 7 is
    the leftmost pixel. The view is a 128x128 RGBA image, four bytes per
    pixel, row by row. */
module PatternView {
  import opened Word

  datatype Rgba = Rgba(r: bv8, g: bv8, b: bv8, a: bv8)

  /** `uint16(i)*0x1000 + k`: byte `k` of pattern table `i`, in 16-bit
      arithmetic (`uint16` of a negative or large `i` wraps). */
  function TableAddr(i: int, k: nat): (a: Addr)
    ensures 0 <= i < 16 && k < 0x1000 ==> a == i * 0x1000 + k
  {
    (i * 0x1000 + k) % 0x10000
  }

  /** The table offset of row `row` of tile (`tileX`, `tileY`) in the low
      bitplane (`plane` 0) or the high one (`plane` 8). */
  function PlaneOffset(tileX: nat, tileY: nat, row: nat, plane: nat): nat {
    tileY * 256 + tileX * 16 + row + plane
  }

  /** Each byte of a table is one row of one plane of one tile: the offsets
      of the 16x16 tiles' rows and planes are exactly 0 to $FFF. */
  lemma PlaneOffsetsCoverTable(k: nat)
    requires k < 0x1000
    ensures k / 256 < 16 && k / 16 % 16 < 16 && k % 8 < 8
    ensures k == PlaneOffset(k / 16 % 16, k / 256, k % 8, k % 16 / 8 * 8)
  {
    var q := k / 16;
    assert k == q * 16 + k % 16;
    assert q == (q / 16) * 16 + q % 16;
    assert q / 16 == k / 256;
    assert k % 16 == (k % 16 / 8) * 8 + k % 8;
  }

  lemma PlaneOffsetInTable(tileX: nat, tileY: nat, row: nat, plane: nat)
    requires tileX < 16 && tileY < 16 && row < 8 && plane in {0, 8}
    ensures PlaneOffset(tileX, tileY, row, plane) < 0x1000
    ensures var k := PlaneOffset(tileX, tileY, row, plane);
      k / 256 == tileY && k / 16 % 16 == tileX && k % 8 == row && k % 16 / 8 * 8 == plane
  {
    var k := PlaneOffset(tileX, tileY, row, plane);
    var q := tileY * 16 + tileX;
    assert k == q * 16 + (row + plane) && row + plane < 16;
    assert k / 16 == q && k % 16 == row + plane;
    assert q / 16 == tileY && q % 16 == tileX;
    assert k / 256 == q / 16;
  }

  /** The palette entry address of pixel value `p` in palette `palette`,
      `0x3F00 + uint16(palette)*4 + uint16(p)`, which does not wrap. */
  function EntryAddr(palette: bv8, p: bv8): (a: Addr)
    requires p < 4
    ensures 0x3F00 <= a < 0x4300
  {
    0x3F00 + palette as int * 4 + p as int
  }

  /** Bit `col` of the low plane, with bit `col` of the high plane above it. */
  function PixelBits(lsb: bv8, msb: bv8, col: nat): (p: bv8)
    requires col < 8
    ensures p < 4
  {
    ((lsb >> col) & 1) | (((msb >> col) & 1) << 1)
  }

  /** The value of pixel `px` (0 = leftmost) of a tile row: bit `7 - px`. */
  function TilePixel(lsb: bv8, msb: bv8, px: nat): (p: bv8)
    requires px < 8
    ensures p < 4
  {
    PixelBits(lsb, msb, 7 - px)
  }

  /** The eight pixel values of a tile row, left to right. */
  function RowPixels(lsb: bv8, msb: bv8): (ps: seq<bv8>)
    ensures |ps| == 8
    ensures forall px | 0 <= px < 8 :: ps[px] == TilePixel(lsb, msb, px)
  {
    seq(8, px requires 0 <= px < 8 => TilePixel(lsb, msb, px))
  }

  /** Eight pixel values of 0 to 3 are a row's two bitplane bytes. */
  predicate IsRow(ps: seq<bv8>) {
    |ps| == 8 && forall px | 0 <= px < 8 :: ps[px] < 4
  }

  /** The two planes of a row of pixel values: the leftmost pixel's bits
      become bit 7. */
  function RowPlanes(ps: seq<bv8>): (bv8, bv8)
    requires IsRow(ps)
  {
    (((ps[0] & 1) << 7) | ((ps[1] & 1) << 6) | ((ps[2] & 1) << 5) | ((ps[3] & 1) << 4)
       | ((ps[4] & 1) << 3) | ((ps[5] & 1) << 2) | ((ps[6] & 1) << 1) | (ps[7] & 1),
     ((ps[0] >> 1) << 7) | ((ps[1] >> 1) << 6) | ((ps[2] >> 1) << 5) | ((ps[3] >> 1) << 4)
       | ((ps[4] >> 1) << 3) | ((ps[5] >> 1) << 2) | ((ps[6] >> 1) << 1) | (ps[7] >> 1))
  }

  /** Decoding the planes of a row gives back its pixels... */
  lemma RowPlanesDecode(ps: seq<bv8>)
    requires IsRow(ps)
    ensures RowPixels(RowPlanes(ps).0, RowPlanes(ps).1) == ps
  {
    var lsb, msb := RowPlanes(ps).0, RowPlanes(ps).1;
    forall px | 0 <= px < 8
      ensures TilePixel(lsb, msb, px) == ps[px]
    {
      PlanesBit(ps, px);
    }
  }

  /** Bit `7 - px` of the planes of a row holds the bits of pixel `px`. */
  lemma PlanesBit(ps: seq<bv8>, px: nat)
    requires IsRow(ps) && px < 8
    ensures TilePixel(RowPlanes(ps).0, RowPlanes(ps).1, px) == ps[px]
  {
    var p0, p1, p2, p3, p4, p5, p6, p7 := ps[0], ps[1], ps[2], ps[3], ps[4], ps[5], ps[6], ps[7];
    assert p0 < 4 && p1 < 4 && p2 < 4 && p3 < 4 && p4 < 4 && p5 < 4 && p6 < 4 && p7 < 4;
    if px == 0 {
    } else if px == 1 {
    } else if px == 2 {
    } else if px == 3 {
    } else if px == 4 {
    } else if px == 5 {
    } else if px == 6 {
    } else {
    }
  }

  /** ...and encoding the pixels of a row gives back its planes. */
  lemma RowPixelsEncode(lsb: bv8, msb: bv8)
    ensures IsRow(RowPixels(lsb, msb))
    ensures RowPlanes(RowPixels(lsb, msb)) == (lsb, msb)
  {
  }

  /** The colour of a pixel: value 0 is black whatever the palette holds;
      any other value is the system colour of its palette entry. Alpha is
      always 255. */
  function Shade(p: bv8, entry: bv8, colour: bv8 -> Rgba): (c: Rgba)
    ensures c.a == 255
    ensures p == 0 ==> c == Rgba(0, 0, 0, 255)
    ensures p != 0 ==> c == colour(entry).(a := 255)
  {
    if p == 0 then Rgba(0, 0, 0, 255)
    else var s := colour(entry); Rgba(s.r, s.g, s.b, 255)
  }

  /** The colour of image pixel (`x`, `y`) drawn from the 4 KB `table` and
      the four palette `entries`. */
  function Pixel(table: seq<bv8>, entries: seq<bv8>, colour: bv8 -> Rgba, x: nat, y: nat): Rgba
    requires |table| == 0x1000 && |entries| == 4 && x < 128 && y < 128
  {
    var k := PlaneOffset(x / 8, y / 8, y % 8, 0);
    var p := TilePixel(table[k], table[k + 8], x % 8);
    Shade(p, entries[p], colour)
  }

  /** The first of the four bytes of pixel (`x`, `y`). */
  function Offset(x: nat, y: nat): nat {
    (y * 128 + x) * 4
  }

  /** The pixels' byte groups lie inside a 65536-byte buffer and are apart:
      the offset gives back the pixel it came from ... */
  lemma OffsetInverse(x: nat, y: nat)
    requires x < 128 && y < 128
    ensures Offset(x, y) + 3 < 65536 && Offset(x, y) % 4 == 0
    ensures Offset(x, y) / 4 % 128 == x && Offset(x, y) / 512 == y
  {
  }

  /** Two different pixels have disjoint groups of four bytes. */
  lemma OffsetsApart(x: nat, y: nat, x': nat, y': nat)
    requires x < 128 && y < 128 && x' < 128 && y' < 128 && (x != x' || y != y')
    ensures Offset(x, y) + 3 < Offset(x', y') || Offset(x', y') + 3 < Offset(x, y)
  {
    assert y * 128 + x != y' * 128 + x';
  }

  /** ... and every byte of the buffer belongs to one pixel. */
  lemma EveryByteOnePixel(k: nat)
    requires k < 65536
    ensures k / 4 % 128 < 128 && k / 512 < 128
    ensures k == Offset(k / 4 % 128, k / 512) + k % 4
  {
  }

  /** The colour stored at pixel (`x`, `y`) of the buffer `s`. */
  function RgbaAt(s: seq<bv8>, x: nat, y: nat): Rgba
    requires |s| >= 65536 && x < 128 && y < 128
  {
    var o := Offset(x, y);
    Rgba(s[o], s[o + 1], s[o + 2], s[o + 3])
  }

  /** The four bytes of pixel (`x`, `y`): red, green, blue, alpha. */
  method PutPixel(dest: array<bv8>, x: nat, y: nat, c: Rgba)
    requires dest.Length >= 65536 && x < 128 && y < 128
    modifies dest
    ensures RgbaAt(dest[..], x, y) == c
    ensures forall x', y' | 0 <= x' < 128 && 0 <= y' < 128 && (x' != x || y' != y) ::
      RgbaAt(dest[..], x', y') == RgbaAt(old(dest[..]), x', y')
    ensures forall k | 65536 <= k < dest.Length :: dest[k] == old(dest[k])
  {
    var idx := (y * 128 + x) * 4;
    dest[idx] := c.r;
    dest[idx + 1] := c.g;
    dest[idx + 2] := c.b;
    dest[idx + 3] := c.a;
    forall x', y' | 0 <= x' < 128 && 0 <= y' < 128 && (x' != x || y' != y)
      ensures RgbaAt(dest[..], x', y') == RgbaAt(old(dest[..]), x', y')
    {
      OffsetsApart(x, y, x', y');
    }
  }

  /** Pixel `px` of row `row` of tile (`tileX`, `tileY`) is image pixel
      (`tileX*8 + px`, `tileY*8 + row`), and its plane bytes are at the
      offset of that tile row. */
  lemma TileCoordinates(tileX: nat, tileY: nat, row: nat, px: nat)
    requires tileX < 16 && tileY < 16 && row < 8 && px < 8
    ensures tileX * 8 + px < 128 && tileY * 8 + row < 128
    ensures (tileX * 8 + px) / 8 == tileX && (tileX * 8 + px) % 8 == px
    ensures (tileY * 8 + row) / 8 == tileY && (tileY * 8 + row) % 8 == row
  {
  }

  /** A plane byte after `col` of the decoder's one-bit right shifts. */
  function Plane(b: bv8, col: nat): bv8
    requires col <= 8
  {
    if col == 0 then b else Plane(b, col - 1) >> 1
  }

  /** `col` one-bit shifts are one shift by `col`. */
  lemma {:induction false} PlaneIsShift(b: bv8, col: nat)
    requires col <= 8
    ensures Plane(b, col) == b >> col
  {
    if col > 0 {
      PlaneIsShift(b, col - 1);
      if col == 1 {
      } else if col == 2 {
      } else if col == 3 {
      } else if col == 4 {
      } else if col == 5 {
      } else if col == 6 {
      } else if col == 7 {
      } else {
      }
    }
  }

  /** One more shift of the plane; its bit 0 is then the plane's bit
      `col`, so the two planes' low bits make the value of pixel `7 - col`. */
  lemma ShiftPlanes(lsb: bv8, msb: bv8, col: nat)
    requires col < 8
    ensures Plane(lsb, col) >> 1 == Plane(lsb, col + 1) && Plane(msb, col) >> 1 == Plane(msb, col + 1)
    ensures (Plane(lsb, col) & 0x01) | ((Plane(msb, col) & 0x01) << 1) == TilePixel(lsb, msb, 7 - col)
  {
    PlaneIsShift(lsb, col);
    PlaneIsShift(msb, col);
    if col == 0 {
    } else if col == 1 {
    } else if col == 2 {
    } else if col == 3 {
    } else if col == 4 {
    } else if col == 5 {
    } else if col == 6 {
    } else {
    }
  }

  /** The pixel step (`tileY`, `tileX`, `row`, `col`) draws: its value
      from the plane bytes of that tile row, its colour from the entry of
      that value. */
  lemma PixelOfStep(table: seq<bv8>, entries: seq<bv8>, colour: bv8 -> Rgba,
                    tileY: nat, tileX: nat, row: nat, col: nat)
    requires |table| == 0x1000 && |entries| == 4
    requires tileY < 16 && tileX < 16 && row < 8 && col < 8
    ensures tileX * 8 + (7 - col) < 128 && tileY * 8 + row < 128
    ensures tileY * 256 + tileX * 16 + row + 8 < 0x1000
    ensures var k := tileY * 256 + tileX * 16 + row;
      var p := TilePixel(table[k], table[k + 8], 7 - col);
      Pixel(table, entries, colour, tileX * 8 + (7 - col), tileY * 8 + row) == Shade(p, entries[p], colour)
  {
    TileCoordinates(tileX, tileY, row, 7 - col);
  }

  /** The drawing order of `GetPatternTable`: tile rows top to bottom, tiles
      left to right, pixel rows top to bottom, and within a row the columns
      right to left (step `col` draws pixel `7 - col`). Pixel (`x`, `y`) is
      drawn before the loops reach (`tileY`, `tileX`, `row`, `col`). */
  predicate DrawnBefore(x: nat, y: nat, tileY: nat, tileX: nat, row: nat, col: nat)
    requires x < 128 && y < 128
  {
    y / 8 < tileY
      || (y / 8 == tileY
        && (x / 8 < tileX
          || (x / 8 == tileX && (y % 8 < row || (y % 8 == row && 7 - x % 8 < col)))))
  }

  /** One step of the innermost loop draws exactly one more pixel. */
  lemma DrawnStep(x: nat, y: nat, tileY: nat, tileX: nat, row: nat, col: nat)
    requires x < 128 && y < 128 && tileY < 16 && tileX < 16 && row < 8 && col < 8
    ensures DrawnBefore(x, y, tileY, tileX, row, col + 1) <==>
      DrawnBefore(x, y, tileY, tileX, row, col) || (x == tileX * 8 + (7 - col) && y == tileY * 8 + row)
  {
    assert x == x / 8 * 8 + x % 8;
    assert y == y / 8 * 8 + y % 8;
    TileCoordinates(tileX, tileY, row, 7 - col);
  }

  /** Every pixel drawn before the loops reach (`tileY`, `tileX`, `row`,
      `col`) holds its colour in `d`. */
  ghost predicate Drawn(d: seq<bv8>, table: seq<bv8>, entries: seq<bv8>, colour: bv8 -> Rgba,
                        tileY: nat, tileX: nat, row: nat, col: nat)
    requires |d| >= 65536 && |table| == 0x1000 && |entries| == 4
  {
    forall x: nat, y: nat | x < 128 && y < 128 && DrawnBefore(x, y, tileY, tileX, row, col) ::
      RgbaAt(d, x, y) == Pixel(table, entries, colour, x, y)
  }

  /** Drawing the pixel of step (`tileY`, `tileX`, `row`, `col`) and
      keeping the others extends the drawn part by that pixel. */
  lemma DrawnAfterPut(d0: seq<bv8>, d1: seq<bv8>, table: seq<bv8>, entries: seq<bv8>, colour: bv8 -> Rgba,
                      tileY: nat, tileX: nat, row: nat, col: nat)
    requires |d0| >= 65536 && |d1| >= 65536 && |table| == 0x1000 && |entries| == 4
    requires tileY < 16 && tileX < 16 && row < 8 && col < 8
    requires Drawn(d0, table, entries, colour, tileY, tileX, row, col)
    requires var k := tileY * 256 + tileX * 16 + row;
      var p := TilePixel(table[k], table[k + 8], 7 - col);
      RgbaAt(d1, tileX * 8 + (7 - col), tileY * 8 + row) == Shade(p, entries[p], colour)
    requires forall x: nat, y: nat | x < 128 && y < 128 && (x != tileX * 8 + (7 - col) || y != tileY * 8 + row) ::
      RgbaAt(d1, x, y) == RgbaAt(d0, x, y)
    ensures Drawn(d1, table, entries, colour, tileY, tileX, row, col + 1)
  {
    forall x: nat, y: nat | x < 128 && y < 128 && DrawnBefore(x, y, tileY, tileX, row, col + 1)
      ensures RgbaAt(d1, x, y) == Pixel(table, entries, colour, x, y)
    {
      DrawnStep(x, y, tileY, tileX, row, col);
    }
    PixelOfStep(table, entries, colour, tileY, tileX, row, col);
  }

  /** The loop boundaries: eight columns finish a row, eight rows a tile,
      sixteen tiles a tile row; after sixteen tile rows every pixel is drawn. */
  lemma DrawnCarry(d: seq<bv8>, table: seq<bv8>, entries: seq<bv8>, colour: bv8 -> Rgba,
                   tileY: nat, tileX: nat, row: nat)
    requires |d| >= 65536 && |table| == 0x1000 && |entries| == 4
    ensures Drawn(d, table, entries, colour, tileY, tileX, row, 8) ==>
      Drawn(d, table, entries, colour, tileY, tileX, row + 1, 0)
    ensures Drawn(d, table, entries, colour, tileY, tileX, 8, 0) ==>
      Drawn(d, table, entries, colour, tileY, tileX + 1, 0, 0)
    ensures Drawn(d, table, entries, colour, tileY, 16, 0, 0) ==>
      Drawn(d, table, entries, colour, tileY + 1, 0, 0, 0)
    ensures Drawn(d, table, entries, colour, 16, 0, 0, 0) ==>
      forall x: nat, y: nat | x < 128 && y < 128 :: RgbaAt(d, x, y) == Pixel(table, entries, colour, x, y)
  {
  }
}
