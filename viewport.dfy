/** The pure coordinate layer of the canvas manager: grid configuration, the
    pan/zoom viewport, screen <-> grid conversion, bounds and cell lookup. */
module Viewport {
  import opened Common
  import opened Protocol
  import opened Arith

  /** `this.config` of a canvas manager: grid size in cells, the side of one
      cell in offscreen canvas units, and the live-view decimation factor. */
  datatype CanvasConfig = CanvasConfig(gridWidth: int, gridHeight: int, pixelSize: int, liveViewFactor: int)

  /** The defaults the constructor spreads the caller's options over. */
  const DefaultConfig := CanvasConfig(500, 500, 10, 2)

  /** `ViewportState`: pan offsets and zoom factor. */
  datatype View = View(offsetX: real, offsetY: real, scale: real)

  datatype Cell = Cell(x: int, y: int)

  datatype Point = Point(x: real, y: real)

  /** The selected pixel; either coordinate may be `null`. */
  datatype Selection = Selection(x: Option<int>, y: Option<int>)

  /** On-screen size of one cell. */
  function CellExtent(cfg: CanvasConfig, v: View): real
  {
    cfg.pixelSize as real * v.scale
  }

  /** `Math.max(lo, Math.min(hi, n))` */
  function Clamp(lo: int, hi: int, n: int): (r: int)
    ensures r >= lo
    ensures lo <= n <= hi ==> r == n
    ensures lo <= hi ==> lo <= r <= hi
    ensures n < lo ==> r == lo
    ensures lo <= hi < n ==> r == hi
  {
    if hi < n then (if lo < hi then hi else lo) else (if lo < n then n else lo)
  }

  /** `gridToCanvas`: the screen position of a cell's top-left corner. */
  function GridToCanvas(cfg: CanvasConfig, gx: int, gy: int, v: View): (p: Point)
    ensures p.x - v.offsetX == gx as real * CellExtent(cfg, v)
    ensures p.y - v.offsetY == gy as real * CellExtent(cfg, v)
  {
    Point(gx as real * cfg.pixelSize as real * v.scale + v.offsetX,
          gy as real * cfg.pixelSize as real * v.scale + v.offsetY)
  }

  /** `Math.floor((c - offset) / (pixelSize * scale))` */
  function RawGrid(c: real, offset: real, extent: real): int
    requires extent != 0.0
  {
    ((c - offset) / extent).Floor
  }

  /** `canvasToGrid`: the cell under a screen point, clamped into the grid.
      The cell extent must not be zero (the source would divide by zero and
      compute with infinities). */
  function CanvasToGrid(cfg: CanvasConfig, cx: real, cy: real, v: View): (c: Cell)
    requires CellExtent(cfg, v) != 0.0
    ensures 0 <= c.x && (cfg.gridWidth >= 1 ==> c.x < cfg.gridWidth)
    ensures 0 <= c.y && (cfg.gridHeight >= 1 ==> c.y < cfg.gridHeight)
    ensures CellExtent(cfg, v) > 0.0 && cx < v.offsetX ==> c.x == 0
    ensures CellExtent(cfg, v) > 0.0 && cy < v.offsetY ==> c.y == 0
    ensures (CellExtent(cfg, v) > 0.0 && cfg.gridWidth >= 1 &&
             cx >= GridToCanvas(cfg, cfg.gridWidth, 0, v).x) ==> c.x == cfg.gridWidth - 1
    ensures (CellExtent(cfg, v) > 0.0 && cfg.gridHeight >= 1 &&
             cy >= GridToCanvas(cfg, 0, cfg.gridHeight, v).y) ==> c.y == cfg.gridHeight - 1
  {
    var d := CellExtent(cfg, v);
    FloorBelowZero(cx - v.offsetX, d);
    FloorAtLeast(cx - v.offsetX, d, cfg.gridWidth);
    FloorBelowZero(cy - v.offsetY, d);
    FloorAtLeast(cy - v.offsetY, d, cfg.gridHeight);
    Cell(Clamp(0, cfg.gridWidth - 1, RawGrid(cx, v.offsetX, d)),
         Clamp(0, cfg.gridHeight - 1, RawGrid(cy, v.offsetY, d)))
  }

  lemma FloorBelowZero(t: real, d: real)
    requires d > 0.0 || d < 0.0
    ensures d > 0.0 && t < 0.0 ==> (t / d).Floor < 0
  {
    if d > 0.0 && t < 0.0 {
      assert t / d < 0.0;
    }
  }

  lemma FloorAtLeast(t: real, d: real, n: int)
    requires d > 0.0 || d < 0.0
    ensures d > 0.0 && t >= (n as real) * d ==> (t / d).Floor >= n
  {
    if d > 0.0 && t >= (n as real) * d {
      var q := t / d;
      assert q * d == t;
      RealMulCancelLe(n as real, q, d);
    }
  }

  /** Dividing both sides of `a * d <= b * d` by a positive `d`. */
  lemma RealMulCancelLe(a: real, b: real, d: real)
    requires d > 0.0 && a * d <= b * d
    ensures a <= b
  {
    assert (b - a) * d >= 0.0;
  }

  /** Dividing both sides of `a * d < b * d` by a positive `d`. */
  lemma RealMulCancelLt(a: real, b: real, d: real)
    requires d > 0.0 && a * d < b * d
    ensures a < b
  {
    assert (b - a) * d > 0.0;
  }

  /** Every screen point inside the on-screen square of an in-bounds cell is
      mapped back to that cell. */
  lemma CanvasToGridInSquare(cfg: CanvasConfig, v: View, cx: real, cy: real, gx: int, gy: int)
    requires CellExtent(cfg, v) > 0.0
    requires 0 <= gx < cfg.gridWidth && 0 <= gy < cfg.gridHeight
    requires GridToCanvas(cfg, gx, gy, v).x <= cx < GridToCanvas(cfg, gx + 1, gy, v).x
    requires GridToCanvas(cfg, gx, gy, v).y <= cy < GridToCanvas(cfg, gx, gy + 1, v).y
    ensures CanvasToGrid(cfg, cx, cy, v) == Cell(gx, gy)
  {
    var d := CellExtent(cfg, v);
    FloorInSquare(cx - v.offsetX, d, gx);
    FloorInSquare(cy - v.offsetY, d, gy);
  }

  lemma FloorInSquare(t: real, d: real, g: int)
    requires d > 0.0
    requires (g as real) * d <= t < ((g + 1) as real) * d
    ensures (t / d).Floor == g
  {
    var q := t / d;
    var lo, hi := g as real, (g + 1) as real;
    assert q * d == t;
    assert t < hi * d;
    RealMulCancelLe(lo, q, d);
    RealMulCancelLt(q, hi, d);
  }

  /** grid -> canvas -> grid is the identity on in-bounds cells. */
  lemma GridCanvasRoundTrip(cfg: CanvasConfig, v: View, gx: int, gy: int)
    requires CellExtent(cfg, v) > 0.0
    requires 0 <= gx < cfg.gridWidth && 0 <= gy < cfg.gridHeight
    ensures CanvasToGrid(cfg, GridToCanvas(cfg, gx, gy, v).x, GridToCanvas(cfg, gx, gy, v).y, v) == Cell(gx, gy)
  {
    var p := GridToCanvas(cfg, gx, gy, v);
    var d := CellExtent(cfg, v);
    assert (gx + 1) as real * d == gx as real * d + d;
    assert (gy + 1) as real * d == gy as real * d + d;
    CanvasToGridInSquare(cfg, v, p.x, p.y, gx, gy);
  }

  /** `isValidCoordinate`: a valid cell has its own slot in the row-major
      order of the grid's cells. */
  predicate IsValidCoordinate(cfg: CanvasConfig, x: int, y: int): (r: bool)
    ensures r ==> 0 <= y * cfg.gridWidth + x < cfg.gridWidth * cfg.gridHeight
  {
    if x >= 0 && x < cfg.gridWidth && y >= 0 && y < cfg.gridHeight then
      JoinIndex(x, y, cfg.gridWidth, cfg.gridHeight);
      true
    else
      false
  }

  /** Whatever the screen point, `canvasToGrid` names a valid cell of a
      non-empty grid. */
  lemma CanvasToGridIsValid(cfg: CanvasConfig, v: View, cx: real, cy: real)
    requires CellExtent(cfg, v) != 0.0
    requires cfg.gridWidth >= 1 && cfg.gridHeight >= 1
    ensures IsValidCoordinate(cfg, CanvasToGrid(cfg, cx, cy, v).x, CanvasToGrid(cfg, cx, cy, v).y)
  {
  }

  /** `getPixelColor`: total, black for out-of-bounds and unset cells. */
  function GetPixelColor(cfg: CanvasConfig, g: Grid, x: int, y: int): (c: string)
    ensures !IsValidCoordinate(cfg, x, y) ==> c == "#000000"
    ensures !CellDefined(g, x, y) ==> c == "#000000"
    ensures IsValidCoordinate(cfg, x, y) && CellDefined(g, x, y) ==> c == g[y][x]
  {
    if !IsValidCoordinate(cfg, x, y) || !(y in g) || !(x in g[y]) then "#000000" else g[y][x]
  }

  /** A cell write is seen by `getPixelColor` at that cell and nowhere else. */
  lemma GetPixelColorAfterSet(cfg: CanvasConfig, g: Grid, x: int, y: int, color: string, x': int, y': int)
    ensures GetPixelColor(cfg, SetCell(g, x, y, color), x', y') ==
      if x' == x && y' == y && IsValidCoordinate(cfg, x, y) then color
      else GetPixelColor(cfg, g, x', y')
  {
  }
}
