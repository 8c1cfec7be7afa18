/** The software pixel buffer of include/core/Drawable.hpp: 32-bit RGBA pixels and a
    width × height buffer with bounds-checked access and a dirty flag. */
module Drawing {
  import opened Prelude

  newtype byte = x: int | 0 <= x < 256

  /** A pixel: four 8-bit channels sharing storage with one 32-bit word. */
  datatype Pixel = Pixel(r: byte, g: byte, b: byte, a: byte)

  /** The 32-bit word that shares storage with a pixel's channels. The engine targets
      little-endian machines, where `r` is the lowest byte and `a` the highest. */
  function ToWord(p: Pixel): (n: uint32)
    ensures n % 256 == p.r as int && n / 0x100_0000 == p.a as int
  {
    p.r as int + 0x100 * p.g as int + 0x1_0000 * p.b as int + 0x100_0000 * p.a as int
  }

  /** `Pixel(uint32_t n)`: the pixel whose storage holds the word `n`, taken apart one byte at
      a time from the low end. */
  function FromWord(n: uint32): (p: Pixel)
    ensures ToWord(p) == n
  {
    var q1 := n / 0x100;
    var q2 := q1 / 0x100;
    var q3 := q2 / 0x100;
    assert n == n % 0x100 + 0x100 * q1;
    assert q1 == q1 % 0x100 + 0x100 * q2;
    assert q2 == q2 % 0x100 + 0x100 * q3;
    Pixel((n % 0x100) as byte, (q1 % 0x100) as byte, (q2 % 0x100) as byte, q3 as byte)
  }

  /** Reading a pixel back through its word gives the same channels. */
  lemma {:induction false} WordRoundTrip(p: Pixel)
    ensures FromWord(ToWord(p)) == p
  {
    var n := ToWord(p);
    var q := FromWord(n);
    assert n / 0x100 == p.g as int + 0x100 * p.b as int + 0x1_0000 * p.a as int;
    assert n / 0x1_0000 == p.b as int + 0x100 * p.a as int;
  }

  /** `Pixel(0)`, what the buffer answers outside its bounds. */
  const TRANSPARENT_BLACK: Pixel := Pixel(0, 0, 0, 0)

  /** The word 0 is the pixel with all four channels zero. */
  lemma TransparentBlack()
    ensures FromWord(0) == TRANSPARENT_BLACK
  {
    WordRoundTrip(TRANSPARENT_BLACK);
  }

  /** `c` is `v` truncated toward zero. */
  predicate Truncates(v: real, c: byte) {
    (v >= 0.0 ==> c as real <= v < c as real + 1.0) && (v < 0.0 ==> c == 0)
  }

  /** `static_cast<uint8_t>(v)` of a float: truncation toward zero. C++ leaves the cast undefined
      when the truncated value does not fit in a byte; there the model keeps the low eight bits,
      as the targets' conversion instructions do. */
  function CastToByte(v: real): (c: byte)
    ensures -1.0 < v < 256.0 ==> Truncates(v, c)
  {
    (Trunc(v) % 256) as byte
  }

  /** One colour channel multiplied by `mult` and cast back to a byte. */
  function ScaleChannel(c: byte, mult: real): byte
  {
    CastToByte(c as real * mult)
  }

  lemma ProductBetween(v: real, mult: real, w: real)
    requires 0.0 <= v && 0.0 <= mult <= 1.0 && w == v * mult
    ensures 0.0 <= w <= v
  {
    assert v - w == v * (1.0 - mult);
  }

  lemma CastBelow(w: real, v: real, c: byte)
    requires 0.0 <= w <= v && v == c as real
    ensures CastToByte(w) <= c
  {
    assert v < 256.0;
    assert Truncates(w, CastToByte(w));
  }

  lemma CastOfProductBelow(c: byte, v: real, mult: real, w: real)
    requires v == c as real && 0.0 <= mult <= 1.0 && w == v * mult
    ensures CastToByte(w) <= c
  {
    ProductBetween(v, mult, w);
    CastBelow(w, v, c);
  }

  /** A channel scaled by a factor in [0, 1] is no larger than before. */
  lemma ChannelDims(c: byte, mult: real)
    ensures 0.0 <= mult <= 1.0 ==> ScaleChannel(c, mult) <= c
  {
    if 0.0 <= mult <= 1.0 {
      CastOfProductBelow(c, c as real, mult, c as real * mult);
      assert ScaleChannel(c, mult) == CastToByte(c as real * mult);
    }
  }

  /** `Pixel::scale`: multiplies the colour channels by `mult`, truncating each to a byte, and
      keeps the alpha channel; a factor in [0, 1] never brightens a channel. */
  function Scale(p: Pixel, mult: real): (q: Pixel)
    ensures q.a == p.a
    ensures 0.0 <= mult <= 1.0 ==> q.r <= p.r && q.g <= p.g && q.b <= p.b
  {
    ChannelDims(p.r, mult);
    ChannelDims(p.g, mult);
    ChannelDims(p.b, mult);
    Pixel(ScaleChannel(p.r, mult), ScaleChannel(p.g, mult), ScaleChannel(p.b, mult), p.a)
  }

  lemma CastOfByte(c: byte)
    ensures CastToByte(c as real * 1.0) == c
  {
    assert c as real * 1.0 == c as real;
    assert Trunc(c as real) == c as int;
  }

  /** Scaling by one leaves the pixel unchanged. */
  lemma {:induction false} ScaleByOne(p: Pixel)
    ensures Scale(p, 1.0) == p
  {
    CastOfByte(p.r);
    CastOfByte(p.g);
    CastOfByte(p.b);
  }

  /** The contents of a pixel buffer: `width` × `height` pixels stored row by row. */
  datatype PixelGrid = PixelGrid(width: int, height: int, cells: seq<Pixel>)

  predicate WellFormed(g: PixelGrid) {
    0 <= g.width && 0 <= g.height && |g.cells| == g.width * g.height
  }

  /** The bounds test of `setPixel` and `getPixel`. */
  predicate InBounds(width: int, height: int, x: int, y: int) {
    0 <= x < width && 0 <= y < height
  }

  /** Row-major position of (x, y) in a buffer `width` pixels wide. For a column inside the row,
      the row is the cell's quotient by the width and the column its remainder. */
  function CellIndex(width: int, x: int, y: int): (i: int)
    ensures 0 <= x < width ==> i / width == y && i % width == x
  {
    if 0 <= x < width then
      CellDecodes(width, x, y);
      y * width + x
    else y * width + x
  }

  /** Division by the width recovers row and column from a row-major cell. */
  lemma {:induction false} CellDecodes(width: int, x: int, y: int)
    requires 0 <= x < width
    ensures (y * width + x) / width == y && (y * width + x) % width == x
  {
    var q := (y * width + x) / width;
    RowsApart(width, y, q);
    RowsApart(width, q, y);
  }

  /** Every in-bounds coordinate has its cell inside the buffer. */
  lemma {:induction false} CellIndexInRange(width: int, height: int, x: int, y: int)
    requires InBounds(width, height, x, y)
    ensures 0 <= CellIndex(width, x, y) < width * height
  {
    assert y * width <= (height - 1) * width by {
      RowsApart(width, y, height - 1);
    }
  }

  /** A later row starts at least one full row after the end of an earlier one. */
  lemma RowsApart(width: int, y: int, y': int)
    requires 0 <= width
    ensures y < y' ==> y * width + width <= y' * width
  {
    if y < y' {
      var d := y' - y - 1;
      assert y' * width == y * width + width + d * width;
      assert d * width >= 0;
    }
  }

  /** Two in-bounds coordinates share a cell only if they are the same coordinate. */
  lemma {:induction false} CellIndexInjective(width: int, height: int, x: int, y: int, x': int, y': int)
    requires InBounds(width, height, x, y) && InBounds(width, height, x', y')
    requires CellIndex(width, x, y) == CellIndex(width, x', y')
    ensures x == x' && y == y'
  {
    RowsApart(width, y, y');
    RowsApart(width, y', y);
  }

  /** `getPixel`: the stored pixel at an in-bounds coordinate, `Pixel(0)` anywhere else. */
  function GridPixel(g: PixelGrid, x: int, y: int): (p: Pixel)
    requires WellFormed(g)
    ensures !InBounds(g.width, g.height, x, y) ==> p == TRANSPARENT_BLACK
    ensures InBounds(g.width, g.height, x, y) ==>
      0 <= CellIndex(g.width, x, y) < |g.cells| && p == g.cells[CellIndex(g.width, x, y)]
  {
    if x < 0 || y < 0 || x >= g.width || y >= g.height then TRANSPARENT_BLACK
    else
      CellIndexInRange(g.width, g.height, x, y);
      g.cells[CellIndex(g.width, x, y)]
  }

  /** The buffer contents after `setPixel(x, y, p)`: the cell of (x, y) holds `p` when (x, y) is in
      bounds; every other cell, and every cell when (x, y) is outside, keeps its pixel. */
  function GridSet(g: PixelGrid, x: int, y: int, p: Pixel): (g': PixelGrid)
    requires WellFormed(g)
    ensures WellFormed(g') && g'.width == g.width && g'.height == g.height
    ensures InBounds(g.width, g.height, x, y) ==>
      0 <= CellIndex(g.width, x, y) < |g.cells| && g'.cells[CellIndex(g.width, x, y)] == p
    ensures forall i :: 0 <= i < |g.cells| && (i != CellIndex(g.width, x, y) || !InBounds(g.width, g.height, x, y)) ==>
      g'.cells[i] == g.cells[i]
  {
    if x < g.width && y < g.height && x >= 0 && y >= 0 then
      CellIndexInRange(g.width, g.height, x, y);
      g.(cells := g.cells[CellIndex(g.width, x, y) := p])
    else g
  }

  /** Reading back an in-bounds write yields the written pixel. */
  lemma {:induction false} GetAfterSet(g: PixelGrid, x: int, y: int, p: Pixel)
    requires WellFormed(g) && InBounds(g.width, g.height, x, y)
    ensures GridPixel(GridSet(g, x, y, p), x, y) == p
  {
  }

  /** A write leaves every other coordinate reading as before. */
  lemma {:induction false} GetAfterSetElsewhere(g: PixelGrid, x: int, y: int, p: Pixel, x': int, y': int)
    requires WellFormed(g) && (x, y) != (x', y')
    ensures GridPixel(GridSet(g, x, y, p), x', y') == GridPixel(g, x', y')
  {
    if InBounds(g.width, g.height, x, y) && InBounds(g.width, g.height, x', y') {
      if CellIndex(g.width, x, y) == CellIndex(g.width, x', y') {
        CellIndexInjective(g.width, g.height, x, y, x', y');
      }
    }
  }

  /** A write outside the buffer changes no pixel. */
  lemma {:induction false} SetOutsideIsNoOp(g: PixelGrid, x: int, y: int, p: Pixel)
    requires WellFormed(g) && !InBounds(g.width, g.height, x, y)
    ensures GridSet(g, x, y, p) == g
  {
    var g' := GridSet(g, x, y, p);
    assert g'.cells == g.cells;
  }

  /** `Drawable`: a pixel buffer owned by the engine. */
  class Drawable {
    const width: int
    const height: int
    const data: array<Pixel>
    var dirty: bool

    ghost predicate Valid()
      reads this
    {
      0 <= width && 0 <= height && data.Length == width * height
    }

    /** The buffer's current contents as a value. */
    function Grid(): (g: PixelGrid)
      reads this, data
      requires Valid()
      ensures WellFormed(g) && g.width == width && g.height == height
    {
      PixelGrid(width, height, data[..])
    }

    /** Allocates a `w` × `h` buffer. */
    constructor (w: nat, h: nat)
      ensures Valid() && width == w && height == h && fresh(data)
    {
      width, height := w, h;
      data := new Pixel[w * h];
    }

    /** `setPixel`: marks the buffer dirty, then writes `p` when (x, y) is inside the buffer. */
    method SetPixel(x: int, y: int, p: Pixel)
      requires Valid()
      modifies this, data
      ensures Valid() && dirty
      ensures Grid() == GridSet(old(Grid()), x, y, p)
    {
      dirty := true;
      if x < width && y < height && x >= 0 && y >= 0 {
        CellIndexInRange(width, height, x, y);
        data[CellIndex(width, x, y)] := p;
      }
    }

    /** `getPixel`: the pixel at (x, y), or `Pixel(0)` outside the buffer. */
    function GetPixel(x: int, y: int): (p: Pixel)
      reads this, data
      requires Valid()
      ensures InBounds(width, height, x, y) ==>
        0 <= CellIndex(width, x, y) < data.Length && p == data[CellIndex(width, x, y)]
      ensures !InBounds(width, height, x, y) ==> p == TRANSPARENT_BLACK
    {
      GridPixel(Grid(), x, y)
    }

    /** `clearDirty`: reports whether the buffer was dirty and leaves it clean. */
    method ClearDirty() returns (wasDirty: bool)
      modifies this
      ensures wasDirty == old(dirty) && !dirty
    {
      if dirty {
        dirty := false;
        return true;
      } else {
        return false;
      }
    }
  }

  /** A second `clearDirty` right after a first one reports a clean buffer. */
  method ClearDirtyTwice(d: Drawable) returns (first: bool, second: bool)
    modifies d
    ensures first == old(d.dirty) && !second && !d.dirty
  {
    first := d.ClearDirty();
    second := d.ClearDirty();
  }
}
