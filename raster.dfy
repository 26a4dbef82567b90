/** The drawing surfaces of the canvas manager: the offscreen buffer
    (one paint per device pixel, `pixelSize` by `pixelSize` per grid cell),
    the flat RGBA pixel data of the decimated live view, and the main and
    highlight canvases, which are recorded as the last picture drawn on
    them. */
module Raster {
  import opened Common
  import opened Protocol
  import opened Colors
  import opened Viewport
  import opened Arith

  /** An element of a `Uint8ClampedArray`. */
  newtype Byte = b: int | 0 <= b < 256

  /** One device pixel of the offscreen canvas: transparent, or filled with
      a `fillStyle`. */
  datatype Paint = Clear | Filled(color: string)

  datatype Rect = Rect(x: int, y: int, width: int, height: int)

  /** What the main canvas shows: nothing yet, or the offscreen image drawn
      through a viewport transform. */
  datatype MainLayer = MainBlank | MainDrawn(view: View, image: seq<Paint>)

  /** What the highlight canvas shows: nothing, or one stroked square drawn
      through a viewport transform. */
  datatype HighlightLayer =
    | HighlightBlank
    | HighlightStroked(view: View, rect: Rect, lineWidth: real, color: string)

  /** What the live-view canvas shows: nothing (no context), its white
      background, or the pixel data last put on it. */
  datatype LiveLayer = LiveBlank | LiveWhite | LivePut(data: seq<Byte>)

  /** Configurations the buffers are laid out for. The live-view factor must
      divide both grid dimensions so that the live view has whole-pixel
      dimensions. */
  predicate ConfigOk(cfg: CanvasConfig)
  {
    cfg.gridWidth >= 0 && cfg.gridHeight >= 0 && cfg.pixelSize >= 1 && cfg.liveViewFactor >= 1 &&
    cfg.gridWidth % cfg.liveViewFactor == 0 && cfg.gridHeight % cfg.liveViewFactor == 0
  }

  /** Width and height of the offscreen canvas in device pixels. */
  function BufferWidth(cfg: CanvasConfig): int
  {
    cfg.gridWidth * cfg.pixelSize
  }

  function BufferHeight(cfg: CanvasConfig): int
  {
    cfg.gridHeight * cfg.pixelSize
  }

  /** `liveViewCanvasWidth` and `liveViewCanvasHeight`. */
  function LiveWidth(cfg: CanvasConfig): int
    requires cfg.liveViewFactor >= 1
  {
    cfg.gridWidth / cfg.liveViewFactor
  }

  function LiveHeight(cfg: CanvasConfig): int
    requires cfg.liveViewFactor >= 1
  {
    cfg.gridHeight / cfg.liveViewFactor
  }

  /** Offscreen pixel `i` (row-major) lies in the `pixelSize` square that
      `fillRect(x * pixelSize, y * pixelSize, pixelSize, pixelSize)` covers. */
  predicate InBlock(cfg: CanvasConfig, i: int, x: int, y: int)
  {
    var bw, ps := BufferWidth(cfg), cfg.pixelSize;
    bw > 0 && x * ps <= i % bw < x * ps + ps && y * ps <= i / bw < y * ps + ps
  }

  /** The grid cell whose block contains offscreen pixel `i`. */
  function CellOfPixel(cfg: CanvasConfig, i: int): Cell
  {
    var bw, ps := BufferWidth(cfg), cfg.pixelSize;
    if bw > 0 && ps > 0 then Cell((i % bw) / ps, (i / bw) / ps) else Cell(0, 0)
  }

  /** A filled square covers exactly the pixels of one cell. */
  lemma BlockIsCell(cfg: CanvasConfig, i: int, x: int, y: int)
    requires ConfigOk(cfg) && 0 <= i < BufferWidth(cfg) * BufferHeight(cfg)
    ensures InBlock(cfg, i, x, y) <==> CellOfPixel(cfg, i) == Cell(x, y)
  {
    var bw := BufferWidth(cfg);
    MulMonoLe(0, cfg.gridWidth, cfg.pixelSize);
    if bw > 0 {
      DivRange(i % bw, cfg.pixelSize, x);
      DivRange(i / bw, cfg.pixelSize, y);
    }
  }

  /** Every offscreen pixel belongs to a cell of the grid. */
  lemma CellOfPixelInRange(cfg: CanvasConfig, i: int)
    requires ConfigOk(cfg) && 0 <= i < BufferWidth(cfg) * BufferHeight(cfg)
    ensures IsValidCoordinate(cfg, CellOfPixel(cfg, i).x, CellOfPixel(cfg, i).y)
  {
    var bw := BufferWidth(cfg);
    MulMonoLe(0, cfg.gridWidth, cfg.pixelSize);
    assert bw > 0;
    SplitIndex(i, bw, BufferHeight(cfg));
    DivBelow(i % bw, cfg.pixelSize, cfg.gridWidth);
    DivBelow(i / bw, cfg.pixelSize, cfg.gridHeight);
  }

  /** The paint `drawFullOffscreenGrid` leaves on the pixels of a cell. */
  function CellPaint(g: Grid, c: Cell): Paint
  {
    if CellDefined(g, c.x, c.y) then Filled(g[c.y][c.x]) else Clear
  }

  /** The offscreen buffer part-way through `drawFullOffscreenGrid`: cells
      before `(x, y)` in row-major order are painted, the rest are clear. */
  function Progress(g: Grid, c: Cell, x: int, y: int): Paint
  {
    if c.y < y || (c.y == y && c.x < x) then CellPaint(g, c) else Clear
  }

  lemma ProgressStep(cfg: CanvasConfig, g: Grid, i: int, x: int, y: int)
    requires ConfigOk(cfg) && 0 <= i < BufferWidth(cfg) * BufferHeight(cfg)
    ensures InBlock(cfg, i, x, y) ==>
      Progress(g, CellOfPixel(cfg, i), x, y) == Clear &&
      Progress(g, CellOfPixel(cfg, i), x + 1, y) == CellPaint(g, Cell(x, y))
    ensures !InBlock(cfg, i, x, y) ==>
      Progress(g, CellOfPixel(cfg, i), x + 1, y) == Progress(g, CellOfPixel(cfg, i), x, y)
  {
    BlockIsCell(cfg, i, x, y);
  }

  /** `grid[y] && grid[y][x] !== undefined ? grid[y][x] : "#000000"` */
  function ColorOrBlack(g: Grid, c: Cell): (s: string)
    ensures CellDefined(g, c.x, c.y) ==> s == g[c.y][c.x]
    ensures !CellDefined(g, c.x, c.y) ==> s == "#000000"
  {
    if CellDefined(g, c.x, c.y) then g[c.y][c.x] else "#000000"
  }

  /** Every set cell inside the grid holds a well-formed `#rrggbb` colour. */
  predicate WellColored(cfg: CanvasConfig, g: Grid)
  {
    forall x, y | 0 <= x < cfg.gridWidth && 0 <= y < cfg.gridHeight && CellDefined(g, x, y) :: IsHexColor(g[y][x])
  }

  /** Channel `k` of the colour the live view shows for cell `c`. */
  function LiveValue(g: Grid, c: Cell, k: int): Byte
  {
    var color := ColorOrBlack(g, c);
    if IsHexColor(color) && 0 <= k < 4 then HexToRgba(color).Channel(k) as Byte else 0
  }

  /** The live-view pixel that RGBA byte `p` belongs to. */
  function LiveTx(cfg: CanvasConfig, p: int): int
    requires cfg.liveViewFactor >= 1
  {
    if LiveWidth(cfg) > 0 then (p / 4) % LiveWidth(cfg) else 0
  }

  function LiveTy(cfg: CanvasConfig, p: int): int
    requires cfg.liveViewFactor >= 1
  {
    if LiveWidth(cfg) > 0 then (p / 4) / LiveWidth(cfg) else 0
  }

  /** The cells that `Math.floor` maps onto live-view pixel `(tx, ty)`. */
  predicate InLiveBlock(cfg: CanvasConfig, c: Cell, tx: int, ty: int)
    requires cfg.liveViewFactor >= 1
  {
    IsValidCoordinate(cfg, c.x, c.y) && c.x / cfg.liveViewFactor == tx && c.y / cfg.liveViewFactor == ty
  }

  /** The bottom-right cell of the block of live-view pixel `(tx, ty)`. */
  function LastOfBlock(cfg: CanvasConfig, tx: int, ty: int): Cell
  {
    Cell(tx * cfg.liveViewFactor + cfg.liveViewFactor - 1, ty * cfg.liveViewFactor + cfg.liveViewFactor - 1)
  }

  /** Of all cells mapped onto one live-view pixel, `LastOfBlock` comes last
      in row-major order: it is the one whose colour the pixel keeps. */
  lemma LastOfBlockIsLast(cfg: CanvasConfig, tx: int, ty: int)
    requires ConfigOk(cfg)
    requires 0 <= tx < LiveWidth(cfg) && 0 <= ty < LiveHeight(cfg)
    ensures InLiveBlock(cfg, LastOfBlock(cfg, tx, ty), tx, ty)
    ensures forall c: Cell | InLiveBlock(cfg, c, tx, ty) ::
      c.y < LastOfBlock(cfg, tx, ty).y || (c.y == LastOfBlock(cfg, tx, ty).y && c.x <= LastOfBlock(cfg, tx, ty).x)
  {
    var f := cfg.liveViewFactor;
    var last := LastOfBlock(cfg, tx, ty);
    MulMonoLe(tx + 1, LiveWidth(cfg), f);
    MulMonoLe(ty + 1, LiveHeight(cfg), f);
    MulMonoLe(0, tx, f);
    MulMonoLe(0, ty, f);
    DivRange(last.x, f, tx);
    DivRange(last.y, f, ty);
    forall c: Cell | InLiveBlock(cfg, c, tx, ty)
      ensures c.y < last.y || (c.y == last.y && c.x <= last.x)
    {
      DivRange(c.x, f, tx);
      DivRange(c.y, f, ty);
    }
  }

  /** The cell that last wrote live-view pixel `(tx, ty)` when the row-major
      loop of `drawLiveViewGrid` is about to visit cell `(x, y)`. */
  function LastWritten(f: int, tx: int, ty: int, x: int, y: int): Option<Cell>
  {
    if ty * f <= y < ty * f + f && tx * f < x then
      Some(Cell(if x - 1 < tx * f + f - 1 then x - 1 else tx * f + f - 1, y))
    else if ty * f < y then
      Some(Cell(tx * f + f - 1, if y - 1 < ty * f + f - 1 then y - 1 else ty * f + f - 1))
    else None
  }

  lemma LastWrittenStep(f: int, tx: int, ty: int, x: int, y: int)
    requires f >= 1
    ensures tx == x / f && ty == y / f ==> LastWritten(f, tx, ty, x + 1, y) == Some(Cell(x, y))
    ensures !(tx == x / f && ty == y / f) ==> LastWritten(f, tx, ty, x + 1, y) == LastWritten(f, tx, ty, x, y)
  {
    DivRange(x, f, tx);
    DivRange(y, f, ty);
  }

  lemma LastWrittenRowEnd(f: int, tx: int, ty: int, w: int, y: int)
    requires f >= 1 && 0 <= tx * f && tx * f + f <= w
    ensures LastWritten(f, tx, ty, w, y) == LastWritten(f, tx, ty, 0, y + 1)
  {
  }

  lemma LastWrittenFinal(f: int, tx: int, ty: int, h: int)
    requires f >= 1 && 0 <= tx * f && ty * f + f <= h
    ensures LastWritten(f, tx, ty, 0, h) == Some(Cell(tx * f + f - 1, ty * f + f - 1))
  {
  }

  /** The block of a live-view pixel lies inside the grid. */
  lemma BlockFits(cfg: CanvasConfig, tx: int, ty: int)
    requires ConfigOk(cfg) && 0 <= tx < LiveWidth(cfg) && 0 <= ty < LiveHeight(cfg)
    ensures tx * cfg.liveViewFactor + cfg.liveViewFactor <= cfg.gridWidth
    ensures ty * cfg.liveViewFactor + cfg.liveViewFactor <= cfg.gridHeight
  {
    var f := cfg.liveViewFactor;
    MulMonoLe(tx + 1, LiveWidth(cfg), f);
    MulMonoLe(ty + 1, LiveHeight(cfg), f);
    assert cfg.gridWidth == LiveWidth(cfg) * f + cfg.gridWidth % f;
    assert cfg.gridHeight == LiveHeight(cfg) * f + cfg.gridHeight % f;
  }

  /** Byte `p` of the pixel data part-way through `drawLiveViewGrid`. */
  function LiveExpected(cfg: CanvasConfig, g: Grid, before: seq<Byte>, p: int, x: int, y: int): Byte
    requires cfg.liveViewFactor >= 1 && 0 <= p < |before|
  {
    match LastWritten(cfg.liveViewFactor, LiveTx(cfg, p), LiveTy(cfg, p), x, y)
    case None => before[p]
    case Some(c) => LiveValue(g, c, p % 4)
  }

  /** Byte `p` of a live view of `LiveWidth * LiveHeight` pixels belongs to
      an existing live-view pixel. */
  lemma LiveIndexInRange(cfg: CanvasConfig, p: int)
    requires ConfigOk(cfg) && 0 <= p < LiveWidth(cfg) * LiveHeight(cfg) * 4
    ensures LiveWidth(cfg) > 0
    ensures 0 <= LiveTx(cfg, p) < LiveWidth(cfg) && 0 <= LiveTy(cfg, p) < LiveHeight(cfg)
  {
    DivBelow(p, 4, LiveWidth(cfg) * LiveHeight(cfg));
    SplitIndex(p / 4, LiveWidth(cfg), LiveHeight(cfg));
  }

  /** The four bytes at `(ty * LiveWidth + tx) * 4` are the bytes of
      live-view pixel `(tx, ty)`, channel by channel. */
  lemma LiveIndexOf(cfg: CanvasConfig, p: int, tx: int, ty: int)
    requires ConfigOk(cfg) && 0 <= tx < LiveWidth(cfg) && 0 <= ty && 0 <= p
    ensures (LiveTx(cfg, p) == tx && LiveTy(cfg, p) == ty) <==>
      (ty * LiveWidth(cfg) + tx) * 4 <= p < (ty * LiveWidth(cfg) + tx) * 4 + 4
    ensures (ty * LiveWidth(cfg) + tx) * 4 <= p < (ty * LiveWidth(cfg) + tx) * 4 + 4 ==>
      p % 4 == p - (ty * LiveWidth(cfg) + tx) * 4
  {
    var lw := LiveWidth(cfg);
    var n := ty * lw + tx;
    DivRange(p, 4, n);
    DivModOf(ty, lw, tx);
    assert p / 4 == lw * (p / 4 / lw) + p / 4 % lw;
  }

  lemma QuotientPositive(a: int, d: int)
    requires d > 0 && a >= 1 && a % d == 0
    ensures a / d >= 1
  {
    if a / d < 1 {
      MulMonoLe(a / d, 0, d);
    }
  }

  /** `3 / scale`, or the default width 1 that the context keeps when the
      assigned value is infinite, NaN or not positive. */
  function HighlightLineWidth(scale: real): (w: real)
    ensures w > 0.0
    ensures scale > 0.0 ==> w * scale == 3.0
  {
    if scale > 0.0 then 3.0 / scale else 1.0
  }

  /** `accentColor = "orange"` */
  function AccentOrDefault(accent: Option<string>): string
  {
    match accent
    case Some(c) => c
    case None => "orange"
  }

  /** The picture `drawHighlight` leaves: a square around the selected cell
      when both coordinates are set, an empty layer otherwise. */
  function HighlightFor(cfg: CanvasConfig, view: View, sel: Selection, accent: Option<string>): (h: HighlightLayer)
    ensures h.HighlightStroked? <==> sel.x.Some? && sel.y.Some?
    ensures h.HighlightStroked? ==>
      h.rect == Rect(sel.x.value * cfg.pixelSize, sel.y.value * cfg.pixelSize, cfg.pixelSize, cfg.pixelSize) &&
      h.view == view && h.color == AccentOrDefault(accent) &&
      (view.scale > 0.0 ==> h.lineWidth * view.scale == 3.0)
  {
    if sel.x.Some? && sel.y.Some? then
      HighlightStroked(view, Rect(sel.x.value * cfg.pixelSize, sel.y.value * cfg.pixelSize, cfg.pixelSize, cfg.pixelSize),
                       HighlightLineWidth(view.scale), AccentOrDefault(accent))
    else HighlightBlank
  }

  class CanvasManager {
    const config: CanvasConfig
    /** Whether each canvas produced a 2D context. */
    const hasMainContext: bool
    const hasHighlightContext: bool
    const hasLiveViewContext: bool
    const hasOffscreenContext: bool
    /** Device pixels of the offscreen canvas, row-major. */
    const offscreen: array<Paint>
    /** `liveViewPixelData`: RGBA bytes of the live view, row-major (empty
        when the live view has no context). */
    const liveViewPixels: array<Byte>
    var mainLayer: MainLayer
    var highlightLayer: HighlightLayer
    var liveLayer: LiveLayer

    ghost predicate Valid()
    {
      ConfigOk(config) &&
      offscreen.Length == BufferWidth(config) * BufferHeight(config) &&
      liveViewPixels.Length == (if hasLiveViewContext then LiveWidth(config) * LiveHeight(config) * 4 else 0)
    }

    /** Create the offscreen canvas, the live-view image data, and paint
        both the offscreen and the live-view canvas white. With a live-view
        context, `createImageData` throws for a zero side, so the grid must
        then have both sides non-zero. */
    constructor (cfg: CanvasConfig, mainContext: bool, highlightContext: bool,
                 liveViewContext: bool, offscreenContext: bool)
      requires ConfigOk(cfg)
      requires liveViewContext ==> cfg.gridWidth >= 1 && cfg.gridHeight >= 1
      ensures Valid()
      ensures config == cfg && hasMainContext == mainContext && hasHighlightContext == highlightContext
      ensures hasLiveViewContext == liveViewContext && hasOffscreenContext == offscreenContext
      ensures forall i :: 0 <= i < offscreen.Length ==>
        offscreen[i] == if offscreenContext then Filled("#ffffff") else Clear
      ensures forall p :: 0 <= p < liveViewPixels.Length ==> liveViewPixels[p] == 0
      ensures mainLayer == MainBlank && highlightLayer == HighlightBlank
      ensures liveLayer == if liveViewContext then LiveWhite else LiveBlank
      ensures fresh(offscreen) && fresh(liveViewPixels)
    {
      config := cfg;
      hasMainContext := mainContext;
      hasHighlightContext := highlightContext;
      hasLiveViewContext := liveViewContext;
      hasOffscreenContext := offscreenContext;
      MulMonoLe(0, cfg.gridWidth, cfg.pixelSize);
      MulMonoLe(0, cfg.gridHeight, cfg.pixelSize);
      MulMonoLe(0, BufferWidth(cfg), BufferHeight(cfg));
      MulMonoLe(0, LiveWidth(cfg), LiveHeight(cfg));
      offscreen := new Paint[BufferWidth(cfg) * BufferHeight(cfg)](_ => if offscreenContext then Filled("#ffffff") else Clear);
      liveViewPixels := new Byte[if liveViewContext then LiveWidth(cfg) * LiveHeight(cfg) * 4 else 0](_ => 0);
      mainLayer := MainBlank;
      highlightLayer := HighlightBlank;
      liveLayer := if liveViewContext then LiveWhite else LiveBlank;
    }

    /** `drawPixelToOffscreen`: fill the square of cell `(x, y)` and no other
        pixel; the canvas clips squares that fall outside it. */
    method DrawPixelToOffscreen(x: int, y: int, color: string)
      requires Valid()
      modifies offscreen
      ensures hasOffscreenContext ==> forall i :: 0 <= i < offscreen.Length ==>
        offscreen[i] == if InBlock(config, i, x, y) then Filled(color) else old(offscreen[i])
      ensures !hasOffscreenContext ==> unchanged(offscreen)
    {
      if !hasOffscreenContext {
        return;
      }
      forall i | 0 <= i < offscreen.Length && InBlock(config, i, x, y) {
        offscreen[i] := Filled(color);
      }
    }

    /** `drawFullOffscreenGrid`: clear the buffer, then paint every defined
        cell of the grid in row-major order. */
    method DrawFullOffscreenGrid(g: Grid)
      requires Valid()
      modifies offscreen
      ensures hasOffscreenContext ==> forall i :: 0 <= i < offscreen.Length ==>
        offscreen[i] == CellPaint(g, CellOfPixel(config, i))
      ensures !hasOffscreenContext ==> unchanged(offscreen)
    {
      if !hasOffscreenContext {
        return;
      }
      forall i | 0 <= i < offscreen.Length {
        offscreen[i] := Clear;
      }
      forall i | 0 <= i < offscreen.Length
        ensures offscreen[i] == Progress(g, CellOfPixel(config, i), 0, 0)
      {
        CellOfPixelInRange(config, i);
      }
      var y := 0;
      while y < config.gridHeight
        invariant 0 <= y <= config.gridHeight
        invariant forall i :: 0 <= i < offscreen.Length ==> offscreen[i] == Progress(g, CellOfPixel(config, i), 0, y)
      {
        var x := 0;
        while x < config.gridWidth
          invariant 0 <= x <= config.gridWidth
          invariant forall i :: 0 <= i < offscreen.Length ==> offscreen[i] == Progress(g, CellOfPixel(config, i), x, y)
        {
          ghost var prev := offscreen[..];
          if CellDefined(g, x, y) {
            DrawPixelToOffscreen(x, y, g[y][x]);
          }
          forall i | 0 <= i < offscreen.Length
            ensures offscreen[i] == Progress(g, CellOfPixel(config, i), x + 1, y)
          {
            ProgressStep(config, g, i, x, y);
          }
          x := x + 1;
        }
        forall i | 0 <= i < offscreen.Length
          ensures offscreen[i] == Progress(g, CellOfPixel(config, i), 0, y + 1)
        {
          CellOfPixelInRange(config, i);
        }
        y := y + 1;
      }
      forall i | 0 <= i < offscreen.Length
        ensures offscreen[i] == CellPaint(g, CellOfPixel(config, i))
      {
        CellOfPixelInRange(config, i);
      }
    }

    /** The four channel writes of one live-view pixel. */
    method WriteRgba(idx: int, c: Rgba)
      requires 0 <= idx && idx + 3 < liveViewPixels.Length
      requires 0 <= c.r < 256 && 0 <= c.g < 256 && 0 <= c.b < 256 && 0 <= c.a < 256
      modifies liveViewPixels
      ensures forall j :: 0 <= j < liveViewPixels.Length ==>
        liveViewPixels[j] == if idx <= j < idx + 4 then c.Channel(j - idx) as Byte else old(liveViewPixels[j])
    {
      liveViewPixels[idx] := c.r as Byte;
      liveViewPixels[idx + 1] := c.g as Byte;
      liveViewPixels[idx + 2] := c.b as Byte;
      liveViewPixels[idx + 3] := c.a as Byte;
    }

    /** The pixel data part-way through `drawLiveViewGrid`, about to visit
        cell `(x, y)`, having started from `before`. */
    ghost predicate LiveAt(g: Grid, before: seq<Byte>, x: int, y: int)
      reads liveViewPixels
    {
      config.liveViewFactor >= 1 && |before| == liveViewPixels.Length &&
      forall p :: 0 <= p < liveViewPixels.Length ==> liveViewPixels[p] == LiveExpected(config, g, before, p, x, y)
    }

    /** One visit of the row-major pass of `drawLiveViewGrid`: cell `(x, y)`
        writes its RGBA into the live-view pixel `floor(x / f), floor(y / f)`
        when that index lies inside the pixel data. */
    method DrawLiveViewCell(g: Grid, x: int, y: int, ghost before: seq<Byte>)
      requires Valid() && WellColored(config, g) && hasLiveViewContext
      requires 0 <= x < config.gridWidth && 0 <= y < config.gridHeight
      requires LiveAt(g, before, x, y)
      modifies liveViewPixels
      ensures LiveAt(g, before, x + 1, y)
    {
      var f := config.liveViewFactor;
      var lw := config.gridWidth / f;
      var color := if CellDefined(g, x, y) then g[y][x] else "#000000";
      var rgba := HexToRgba(color);
      var tx := x / f;
      var ty := y / f;
      var idx := (ty * lw + tx) * 4;
      QuotientPositive(config.gridWidth, f);
      DivBelow(x, f, lw);
      DivBelow(y, f, LiveHeight(config));
      JoinIndex(tx, ty, lw, LiveHeight(config));
      if idx >= 0 && idx + 3 < liveViewPixels.Length {
        WriteRgba(idx, rgba);
      }
      forall p | 0 <= p < liveViewPixels.Length
        ensures liveViewPixels[p] == LiveExpected(config, g, before, p, x + 1, y)
      {
        LiveIndexOf(config, p, tx, ty);
        LastWrittenStep(f, LiveTx(config, p), LiveTy(config, p), x, y);
      }
    }

    /** Before the pass every byte is as it was. */
    lemma LiveStart(g: Grid, before: seq<Byte>)
      requires Valid() && hasLiveViewContext && before == liveViewPixels[..]
      ensures LiveAt(g, before, 0, 0)
    {
      forall p | 0 <= p < liveViewPixels.Length
        ensures liveViewPixels[p] == LiveExpected(config, g, before, p, 0, 0)
      {
        LiveIndexInRange(config, p);
        MulMonoLe(0, LiveTy(config, p), config.liveViewFactor);
      }
    }

    /** Finishing row `y` is starting row `y + 1`. */
    lemma LiveRowEnd(g: Grid, before: seq<Byte>, y: int)
      requires Valid() && hasLiveViewContext && LiveAt(g, before, config.gridWidth, y)
      ensures LiveAt(g, before, 0, y + 1)
    {
      forall p | 0 <= p < liveViewPixels.Length
        ensures liveViewPixels[p] == LiveExpected(config, g, before, p, 0, y + 1)
      {
        LiveIndexInRange(config, p);
        BlockFits(config, LiveTx(config, p), LiveTy(config, p));
        MulMonoLe(0, LiveTx(config, p), config.liveViewFactor);
        LastWrittenRowEnd(config.liveViewFactor, LiveTx(config, p), LiveTy(config, p), config.gridWidth, y);
      }
    }

    /** After the last row every pixel holds the last cell of its block. */
    lemma LiveEnd(g: Grid, before: seq<Byte>)
      requires Valid() && hasLiveViewContext && LiveAt(g, before, 0, config.gridHeight)
      ensures forall p :: 0 <= p < liveViewPixels.Length ==>
        liveViewPixels[p] == LiveValue(g, LastOfBlock(config, LiveTx(config, p), LiveTy(config, p)), p % 4)
    {
      forall p | 0 <= p < liveViewPixels.Length
        ensures liveViewPixels[p] == LiveValue(g, LastOfBlock(config, LiveTx(config, p), LiveTy(config, p)), p % 4)
      {
        LiveIndexInRange(config, p);
        BlockFits(config, LiveTx(config, p), LiveTy(config, p));
        MulMonoLe(0, LiveTx(config, p), config.liveViewFactor);
        LastWrittenFinal(config.liveViewFactor, LiveTx(config, p), LiveTy(config, p), config.gridHeight);
      }
    }

    /** `drawLiveViewGrid`: a row-major pass over every cell of the grid
        writes the cell's RGBA into the live-view pixel it maps to, so each
        live-view pixel ends with the colour of the last cell of its block
        (unset cells count as black); the data is then put on the canvas. */
    method DrawLiveViewGrid(g: Grid)
      requires Valid() && WellColored(config, g)
      modifies liveViewPixels, this`liveLayer
      ensures hasLiveViewContext ==> forall p :: 0 <= p < liveViewPixels.Length ==>
        liveViewPixels[p] == LiveValue(g, LastOfBlock(config, LiveTx(config, p), LiveTy(config, p)), p % 4)
      ensures hasLiveViewContext ==> liveLayer == LivePut(liveViewPixels[..])
      ensures !hasLiveViewContext ==> unchanged(liveViewPixels) && liveLayer == old(liveLayer)
    {
      if !hasLiveViewContext {
        return;
      }
      ghost var before := liveViewPixels[..];
      LiveStart(g, before);
      var y := 0;
      while y < config.gridHeight
        invariant 0 <= y <= config.gridHeight
        invariant LiveAt(g, before, 0, y)
      {
        var x := 0;
        while x < config.gridWidth
          invariant 0 <= x <= config.gridWidth
          invariant LiveAt(g, before, x, y)
        {
          DrawLiveViewCell(g, x, y, before);
          x := x + 1;
        }
        LiveRowEnd(g, before, y);
        y := y + 1;
      }
      LiveEnd(g, before);
      liveLayer := LivePut(liveViewPixels[..]);
    }

    /** `drawGrid`: show the offscreen image through the viewport. */
    method DrawGrid(view: View)
      requires Valid()
      modifies this`mainLayer
      ensures mainLayer == if hasMainContext then MainDrawn(view, offscreen[..]) else old(mainLayer)
    {
      if hasMainContext {
        mainLayer := MainDrawn(view, offscreen[..]);
      }
    }

    /** `drawHighlight`: clear the layer, then stroke the selected cell when
        both of its coordinates are set. */
    method DrawHighlight(view: View, sel: Selection, accent: Option<string>)
      requires Valid()
      modifies this`highlightLayer
      ensures highlightLayer == if hasHighlightContext then HighlightFor(config, view, sel, accent) else old(highlightLayer)
    {
      if hasHighlightContext {
        highlightLayer := HighlightFor(config, view, sel, accent);
      }
    }

    /** `redrawAll`: the main and live views only for a non-empty grid, the
        highlight layer always. */
    method RedrawAll(g: Grid, view: View, sel: Selection, accent: Option<string>)
      requires Valid() && WellColored(config, g)
      modifies liveViewPixels, this`mainLayer, this`liveLayer, this`highlightLayer
      ensures NonEmpty(g) ==> mainLayer == if hasMainContext then MainDrawn(view, offscreen[..]) else old(mainLayer)
      ensures NonEmpty(g) && hasLiveViewContext ==> forall p :: 0 <= p < liveViewPixels.Length ==>
        liveViewPixels[p] == LiveValue(g, LastOfBlock(config, LiveTx(config, p), LiveTy(config, p)), p % 4)
      ensures NonEmpty(g) && hasLiveViewContext ==> liveLayer == LivePut(liveViewPixels[..])
      ensures !NonEmpty(g) || !hasLiveViewContext ==> unchanged(liveViewPixels) && liveLayer == old(liveLayer)
      ensures !NonEmpty(g) ==> mainLayer == old(mainLayer)
      ensures highlightLayer == if hasHighlightContext then HighlightFor(config, view, sel, accent) else old(highlightLayer)
    {
      if NonEmpty(g) {
        DrawGrid(view);
        DrawLiveViewGrid(g);
      }
      DrawHighlight(view, sel, accent);
    }
  }
}
