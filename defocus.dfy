/** The geometry of the defocus effect of `draw_mark`: the object's box is
    cut into square tiles of `defocusSize` pixels, clipped to the box and to
    the frame, and each tile is later filled with its mean colour (the
    filling is not modelled).  The corner arithmetic is done in `unsigned
    long`, so a box reaching past the left or top edge wraps to a huge
    corner; `WrittenArea` keeps that, `ClampedArea` is the intended area. */
module Defocus {
  import opened Common

  /** 2^64: `unsigned long` arithmetic is modulo this. */
  const ULongRange: int := 0x1_0000_0000_0000_0000

  /** Conversion of an integer to `unsigned long`. */
  function ULong(v: int): (r: nat)
    ensures r < ULongRange
    ensures 0 <= v < ULongRange ==> r == v
  {
    v % ULongRange
  }

  /** C integer division by two, truncating toward zero. */
  function Half(v: int): (r: int)
    ensures 0 <= v ==> 0 <= r && r + r <= v < r + r + 2
    ensures v < 0 ==> r <= 0 && v - 2 < r + r <= v + 1 && r + r >= v
  {
    if v >= 0 then v / 2 else -((-v) / 2)
  }

  /** The pixel rectangle `[left, right) x [top, bottom)` that is tiled. */
  datatype Area = Area(left: nat, right: nat, top: nat, bottom: nat)

  /** One tile: `cv::Rect(i, j, currentSquareWidth, currentSquareHeight)`. */
  datatype Tile = Tile(x: nat, y: nat, width: nat, height: nat)

  predicate Covers(t: Tile, p: int, q: int)
  {
    t.x <= p < t.x + t.width && t.y <= q < t.y + t.height
  }

  /** Column `p` lies within the box's horizontal extent, and row `q` within
      its vertical one; the position is the box's centre. */
  predicate InBoxColumns(position: Box, p: int)
  {
    position.x - Half(position.width) <= p < position.x - Half(position.width) + position.width
  }

  predicate InBoxRows(position: Box, q: int)
  {
    position.y - Half(position.height) <= q < position.y - Half(position.height) + position.height
  }

  predicate InArea(t: Tile, a: Area)
  {
    a.left <= t.x && t.x + t.width <= a.right && a.top <= t.y && t.y + t.height <= a.bottom
  }

  function Min(a: int, b: int): int
  {
    if a <= b then a else b
  }

  /** The area as the source computes it: corners in `unsigned long`, the
      far sides clipped to the frame and the near sides never clipped. */
  function WrittenArea(position: Box, cols: nat, rows: nat): (a: Area)
    ensures a.right <= cols && a.bottom <= rows
  {
    var x := ULong(position.x - Half(position.width));
    var y := ULong(position.y - Half(position.height));
    var xMax := ULong(position.width + x);
    var yMax := ULong(position.height + y);
    Area(x, if xMax > cols then cols else xMax, y, if yMax > rows then rows else yMax)
  }

  /** The intended area: the box, centred on its position, intersected
      with the frame. */
  function ClampedArea(position: Box, cols: nat, rows: nat): (a: Area)
    ensures a.right <= cols && a.bottom <= rows
    ensures forall p :: 0 <= p < cols && InBoxColumns(position, p) ==> a.left <= p < a.right
    ensures forall q :: 0 <= q < rows && InBoxRows(position, q) ==> a.top <= q < a.bottom
    ensures forall p :: a.left <= p < a.right ==> InBoxColumns(position, p)
    ensures forall q :: a.top <= q < a.bottom ==> InBoxRows(position, q)
  {
    var x := position.x - Half(position.width);
    var y := position.y - Half(position.height);
    var xMax := x + position.width;
    var yMax := y + position.height;
    Area(if x < 0 then 0 else x, if xMax > cols then cols else if xMax < 0 then 0 else xMax,
         if y < 0 then 0 else y, if yMax > rows then rows else if yMax < 0 then 0 else yMax)
  }

  /** The tiles of the column starting at `i` with width `w`, from row `j`
      down to `bottom`. */
  function Column(i: nat, w: nat, j: nat, bottom: nat, size: nat): seq<Tile>
    requires size > 0
    decreases bottom - j
  {
    if j >= bottom then [] else [Tile(i, j, w, Min(size, bottom - j))] + Column(i, w, j + size, bottom, size)
  }

  /** The tiles of the columns from `i` to the right side, in the order the
      nested loops produce them. */
  function Grid(i: nat, a: Area, size: nat): seq<Tile>
    requires size > 0
    decreases a.right - i
  {
    if i >= a.right then [] else Column(i, Min(size, a.right - i), a.top, a.bottom, size) + Grid(i + size, a, size)
  }

  /** The nested tile loops of `draw_mark`. */
  method Tiles(a: Area, size: nat) returns (tiles: seq<Tile>)
    requires size > 0
    ensures tiles == Grid(a.left, a, size)
  {
    tiles := [];
    var i := a.left;
    while i < a.right
      invariant tiles + Grid(i, a, size) == Grid(a.left, a, size)
      decreases a.right - i
    {
      var column := ColumnTiles(i, a.right, a.top, a.bottom, size);
      tiles := tiles + column;
      i := i + size;
    }
  }

  /** The inner tile loop of `draw_mark`, for the column starting at `i`. */
  method ColumnTiles(i: nat, right: nat, top: nat, bottom: nat, size: nat) returns (column: seq<Tile>)
    requires size > 0 && i < right
    ensures column == Column(i, Min(size, right - i), top, bottom, size)
  {
    column := [];
    var j := top;
    while j < bottom
      invariant column + Column(i, Min(size, right - i), j, bottom, size)
                == Column(i, Min(size, right - i), top, bottom, size)
      decreases bottom - j
    {
      var width := size;
      var height := size;
      if i + width > right {
        width := right - i;
      }
      if j + height > bottom {
        height := bottom - j;
      }
      if width > 0 && height > 0 {
        column := column + [Tile(i, j, width, height)];
      }
      j := j + size;
    }
  }

  /** Every tile of a column is a non-empty square of at most `size`
      pixels inside the rows `[j, bottom)`. */
  lemma {:induction false} ColumnInside(i: nat, w: nat, j: nat, bottom: nat, size: nat)
    requires size > 0
    ensures forall t :: t in Column(i, w, j, bottom, size) ==>
              t.x == i && t.width == w && j <= t.y && t.y + t.height <= bottom && 0 < t.height <= size
    decreases bottom - j
  {
    if j < bottom {
      ColumnInside(i, w, j + size, bottom, size);
    }
  }

  /** Every row of `[j, bottom)` is covered by a tile of the column. */
  lemma {:induction false} ColumnCovers(i: nat, w: nat, j: nat, bottom: nat, size: nat, q: int)
    requires size > 0
    requires j <= q < bottom
    ensures exists t :: t in Column(i, w, j, bottom, size) && t.y <= q < t.y + t.height
    decreases bottom - j
  {
    var c := Column(i, w, j, bottom, size);
    if q < j + size {
      assert c[0].y <= q < c[0].y + c[0].height;
    } else {
      ColumnCovers(i, w, j + size, bottom, size, q);
      var t :| t in Column(i, w, j + size, bottom, size) && t.y <= q < t.y + t.height;
      assert t in c;
    }
  }

  /** Every tile lies inside the area and is non-empty and at most
      `size` by `size`. */
  lemma {:induction false} GridInside(i: nat, a: Area, size: nat)
    requires size > 0
    requires a.left <= i
    ensures forall t :: t in Grid(i, a, size) ==>
              InArea(t, a) && 0 < t.width <= size && 0 < t.height <= size
    decreases a.right - i
  {
    if i < a.right {
      ColumnInside(i, Min(size, a.right - i), a.top, a.bottom, size);
      GridInside(i + size, a, size);
    }
  }

  /** Every pixel of the area right of `i` lies in some tile. */
  lemma {:induction false} GridCovers(i: nat, a: Area, size: nat, p: int, q: int)
    requires size > 0
    requires i <= p < a.right && a.top <= q < a.bottom
    ensures exists t :: t in Grid(i, a, size) && Covers(t, p, q)
    decreases a.right - i
  {
    var g := Grid(i, a, size);
    var w := Min(size, a.right - i);
    if p < i + size {
      ColumnCovers(i, w, a.top, a.bottom, size, q);
      var t :| t in Column(i, w, a.top, a.bottom, size) && t.y <= q < t.y + t.height;
      ColumnInside(i, w, a.top, a.bottom, size);
      assert t in g && Covers(t, p, q);
    } else {
      GridCovers(i + size, a, size, p, q);
      var t :| t in Grid(i + size, a, size) && Covers(t, p, q);
      assert t in g;
    }
  }

  /** The tiles of the clamped area cover every pixel of the box that lies
      inside the frame. */
  lemma ClampedTilesCoverBox(position: Box, cols: nat, rows: nat, size: nat, p: int, q: int)
    requires size > 0
    requires 0 <= p < cols && InBoxColumns(position, p)
    requires 0 <= q < rows && InBoxRows(position, q)
    ensures exists t :: t in Grid(ClampedArea(position, cols, rows).left, ClampedArea(position, cols, rows), size) && Covers(t, p, q)
  {
    var a := ClampedArea(position, cols, rows);
    GridCovers(a.left, a, size, p, q);
  }

  /** A box whose left side lies left of the frame gets no tile at all in
      the source: its corner wraps past the frame width. */
  lemma WrittenAreaLeftOfFrameIsEmpty(position: Box, cols: nat, rows: nat, size: nat)
    requires size > 0
    requires cols < ULongRange / 2
    requires position.x - Half(position.width) < 0
    requires -ULongRange / 2 <= position.x - Half(position.width)
    ensures Grid(WrittenArea(position, cols, rows).left, WrittenArea(position, cols, rows), size) == []
  {
  }

  /** A 20-pixel box centred at (5, 50) in a 100 x 100 frame: nothing of it
      is defocused as written, while the clamped area covers its visible
      15 columns. */
  lemma LeftEdgeExample()
    ensures Grid(WrittenArea(Box(5, 50, 20, 20, 0.0), 100, 100).left, WrittenArea(Box(5, 50, 20, 20, 0.0), 100, 100), 4) == []
    ensures ClampedArea(Box(5, 50, 20, 20, 0.0), 100, 100) == Area(0, 15, 40, 60)
  {
    WrittenAreaLeftOfFrameIsEmpty(Box(5, 50, 20, 20, 0.0), 100, 100, 4);
  }
}
