/**
 * The paletted bitmaps an OSD is made of (the host's `cBitmap`, as far as
 * `cSoftOsd::Flush` uses it), dirty rectangles and their clipping to the OSD
 * size, and the conversion of a rectangle into a row-major ARGB buffer.
 */
module Bitmaps {
  import opened Wrappers
  import opened Engine

  /** An inclusive rectangle [x1, x2] x [y1, y2]. */
  datatype Box = Box(x1: int, y1: int, x2: int, y2: int) {
    function Width(): int { x2 - x1 + 1 }
    function Height(): int { y2 - y1 + 1 }
  }

  /** The whole extent of a `width` x `height` bitmap. */
  function FullBox(width: nat, height: nat): Box {
    Box(0, 0, width - 1, height - 1)
  }

  function Min(a: int, b: int): int {
    if a <= b then a else b
  }

  /**
   * Flush's clipping of a box to the OSD size: the origin stays, and a side
   * longer than the OSD is cut to the OSD's length.
   */
  function Clip(b: Box, osdWidth: nat, osdHeight: nat): (r: Box)
    ensures r.x1 == b.x1 && r.y1 == b.y1
    ensures r.Width() <= osdWidth && r.Height() <= osdHeight
    ensures b.Width() <= osdWidth ==> r.x2 == b.x2
    ensures b.Height() <= osdHeight ==> r.y2 == b.y2
    ensures b.Width() > osdWidth ==> r.Width() == osdWidth
    ensures b.Height() > osdHeight ==> r.Height() == osdHeight
    ensures 0 <= b.Width() ==> 0 <= r.Width() <= b.Width()
    ensures 0 <= b.Height() ==> 0 <= r.Height() <= b.Height()
  {
    var x2 := if b.Width() > osdWidth then b.x1 + osdWidth - 1 else b.x2;
    var y2 := if b.Height() > osdHeight then b.y1 + osdHeight - 1 else b.y2;
    Box(b.x1, b.y1, x2, y2)
  }

  /** Proof helper: a hint for the nonlinear index bounds; it models nothing of the plugin. */
  lemma MulMonotone(a: int, b: int, w: int)
    ensures a <= b && 0 <= w ==> a * w <= b * w
  {
    assert b * w - a * w == (b - a) * w;
  }

  class Bitmap {
    const width: nat
    const height: nat
    /** The bitmap's offset inside the OSD (`X0()`, `Y0()`). */
    const x0: int
    const y0: int
    const palette: seq<Argb>
    /** Palette index of every pixel, row by row: pixel (x, y) is pixels[y][x]. */
    const pixels: seq<seq<bv8>>
    /** The dirty rectangle, the result of `Dirty(x1, y1, x2, y2)`. */
    var dirty: Option<Box>

    predicate Shaped() {
      |pixels| == height && forall y :: 0 <= y < height ==> |pixels[y]| == width
    }

    /** The box lies inside the bitmap (it may be empty). */
    predicate Covers(b: Box) {
      0 <= b.x1 && 0 <= b.Width() && b.x2 < width &&
      0 <= b.y1 && 0 <= b.Height() && b.y2 < height
    }

    ghost predicate Valid()
      reads this
    {
      Shaped() && (dirty.Some? ==> Covers(dirty.value))
    }

    constructor (width: nat, height: nat, x0: int, y0: int, palette: seq<Argb>, pixels: seq<seq<bv8>>)
      requires |pixels| == height && forall y :: 0 <= y < height ==> |pixels[y]| == width
      ensures Valid() && dirty == None
      ensures this.width == width && this.height == height && this.x0 == x0 && this.y0 == y0
      ensures this.palette == palette && this.pixels == pixels
    {
      this.width, this.height := width, height;
      this.x0, this.y0 := x0, y0;
      this.palette, this.pixels := palette, pixels;
      dirty := None;
    }

    /** The colour of pixel (x, y): its palette entry, 0 past the palette's end. */
    function GetColor(x: int, y: int): Argb
      requires Shaped() && 0 <= x < width && 0 <= y < height
    {
      var i := pixels[y][x] as int;
      if i < |palette| then palette[i] else 0
    }

    /** Row y of box `b`, left to right. */
    function RowColors(b: Box, y: int): seq<Argb>
      requires Shaped() && Covers(b) && b.y1 <= y <= b.y2
    {
      seq(b.Width(), i requires 0 <= i < b.Width() => GetColor(b.x1 + i, y))
    }

    /** The first n rows of box `b`, top to bottom, one after the other. */
    function Rows(b: Box, n: nat): seq<Argb>
      requires Shaped() && Covers(b) && n <= b.Height()
    {
      if n == 0 then [] else Rows(b, n - 1) + RowColors(b, b.y1 + n - 1)
    }

    /** The colours of box `b` in row-major order. */
    function AreaColors(b: Box): seq<Argb>
      requires Shaped() && Covers(b)
    {
      Rows(b, b.Height())
    }

    lemma {:induction false} RowsLength(b: Box, n: nat)
      requires Shaped() && Covers(b) && n <= b.Height()
      ensures |Rows(b, n)| == n * b.Width()
    {
      if n > 0 {
        RowsLength(b, n - 1);
        assert n * b.Width() == (n - 1) * b.Width() + b.Width();
      }
    }

    /** Cell i + j * w of the first n rows is pixel (x1 + i, y1 + j). */
    lemma {:induction false} RowsAt(b: Box, n: nat, i: int, j: int)
      requires Shaped() && Covers(b) && n <= b.Height()
      requires 0 <= i < b.Width() && 0 <= j < n
      ensures 0 <= i + j * b.Width() < |Rows(b, n)|
      ensures Rows(b, n)[i + j * b.Width()] == GetColor(b.x1 + i, b.y1 + j)
    {
      var w := b.Width();
      RowsLength(b, n);
      RowsLength(b, n - 1);
      MulMonotone(0, j, w);
      MulMonotone(j, n - 1, w);
      assert n * w == (n - 1) * w + w;
      if j < n - 1 {
        RowsAt(b, n - 1, i, j);
        MulMonotone(j + 1, n - 1, w);
        assert (j + 1) * w == j * w + w;
      }
    }

    /** The area has one cell per pixel of the box. */
    lemma AreaColorsLength(b: Box)
      requires Shaped() && Covers(b)
      ensures |AreaColors(b)| == b.Width() * b.Height()
    {
      RowsLength(b, b.Height());
    }

    /** Cell `(x - x1) + (y - y1) * w` of the area holds the colour of (x, y). */
    lemma AreaColorsAt(b: Box, x: int, y: int)
      requires Shaped() && Covers(b)
      requires b.x1 <= x <= b.x2 && b.y1 <= y <= b.y2
      ensures 0 <= (x - b.x1) + (y - b.y1) * b.Width() < |AreaColors(b)|
      ensures AreaColors(b)[(x - b.x1) + (y - b.y1) * b.Width()] == GetColor(x, y)
    {
      RowsAt(b, b.Height(), x - b.x1, y - b.y1);
    }

    /** `Clean()`: nothing is dirty any more. */
    method Clean()
      modifies this`dirty
      ensures dirty == None
    {
      dirty := None;
    }

    /**
     * Flush's conversion loop: a fresh w*h buffer whose cell
     * `x - x1 + (y - y1) * w` receives GetColor(x, y) for every pixel of `b`.
     */
    method ToArgb(b: Box) returns (argb: array<Argb>)
      requires Shaped() && Covers(b)
      ensures fresh(argb)
      ensures argb[..] == AreaColors(b)
    {
      var w, h := b.Width(), b.Height();
      argb := new Argb[w * h];
      ghost var want := AreaColors(b);
      AreaColorsLength(b);
      ghost var row := 0;
      MulMonotone(0, h, w);
      var y := b.y1;
      while y <= b.y2
        invariant b.y1 <= y <= b.y2 + 1
        invariant row == (y - b.y1) * w <= w * h
        invariant forall k :: 0 <= k < row ==> argb[k] == want[k]
      {
        MulMonotone(y - b.y1 + 1, h, w);
        assert row + w <= w * h;
        var x := b.x1;
        while x <= b.x2
          invariant b.x1 <= x <= b.x2 + 1
          invariant forall k :: 0 <= k < row + (x - b.x1) ==> argb[k] == want[k]
        {
          AreaColorsAt(b, x, y);
          assert x - b.x1 + (y - b.y1) * w == row + (x - b.x1);
          argb[x - b.x1 + (y - b.y1) * w] := GetColor(x, y);
          x := x + 1;
        }
        row := row + w;
        y := y + 1;
      }
      assert (y - b.y1) * w == w * h;
    }
  }
}
