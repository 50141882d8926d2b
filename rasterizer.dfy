/**
 * `renderDomToCanvas` and `findBounds` (src/app.tsx): the bounding box of the runs, the canvas
 * geometry, and the paint sequence, recorded as the list of drawing calls made on the canvas.
 */
module Rasterizer {
  import opened Results
  import opened DomTree

  /** `Number.MAX_SAFE_INTEGER`, the initial minimum of `findBounds`. */
  const MaxSafeInteger: real := 9007199254740991.0

  /** `canvasMargins`. */
  const CanvasMargins: real := 20.0

  /** The extremes `findBounds` returns. */
  datatype Bounds = Bounds(minX: real, maxX: real, minY: real, maxY: real)

  const InitialBounds: Bounds := Bounds(MaxSafeInteger, 0.0, MaxSafeInteger, 0.0)

  /** One step of the `findBounds` loop: each extreme moves only on a strict improvement. */
  function Widen(b: Bounds, p: Rect): (r: Bounds)
    ensures r.minX <= b.minX && r.minX <= p.left && (r.minX == b.minX || r.minX == p.left)
    ensures r.maxX >= b.maxX && r.maxX >= p.right && (r.maxX == b.maxX || r.maxX == p.right)
    ensures r.minY <= b.minY && r.minY <= p.top && (r.minY == b.minY || r.minY == p.top)
    ensures r.maxY >= b.maxY && r.maxY >= p.bottom && (r.maxY == b.maxY || r.maxY == p.bottom)
  {
    Bounds(
      if p.left < b.minX then p.left else b.minX,
      if p.right > b.maxX then p.right else b.maxX,
      if p.top < b.minY then p.top else b.minY,
      if p.bottom > b.maxY then p.bottom else b.maxY)
  }

  /** The bounds after the loop has visited every run of `runs`. */
  function BoundsOf(runs: seq<Run>): Bounds
  {
    if runs == [] then InitialBounds else Widen(BoundsOf(runs[..|runs| - 1]), runs[|runs| - 1].position)
  }

  /** `findBounds`: four accumulators updated run by run. */
  method FindBounds(details: seq<Run>) returns (b: Bounds)
    ensures b == BoundsOf(details)
  {
    var minX, minY := MaxSafeInteger, MaxSafeInteger;
    var maxX, maxY := 0.0, 0.0;
    for i := 0 to |details|
      invariant Bounds(minX, maxX, minY, maxY) == BoundsOf(details[..i])
    {
      var position := details[i].position;
      if position.left < minX {
        minX := position.left;
      }
      if position.right > maxX {
        maxX := position.right;
      }
      if position.top < minY {
        minY := position.top;
      }
      if position.bottom > maxY {
        maxY := position.bottom;
      }
      assert details[..i + 1][..i] == details[..i];
    }
    assert details[..|details|] == details;
    b := Bounds(minX, maxX, minY, maxY);
  }

  /**
   * `BoundsOf` is the minimum of `MAX_SAFE_INTEGER` and every left (top) edge, and the maximum
   * of 0 and every right (bottom) edge.
   */
  lemma {:induction false} BoundsAreExtremes(runs: seq<Run>)
    ensures var b := BoundsOf(runs);
      b.minX <= MaxSafeInteger && b.minY <= MaxSafeInteger && b.maxX >= 0.0 && b.maxY >= 0.0 &&
      (forall i :: 0 <= i < |runs| ==>
        b.minX <= runs[i].position.left && b.maxX >= runs[i].position.right &&
        b.minY <= runs[i].position.top && b.maxY >= runs[i].position.bottom)
    ensures var b := BoundsOf(runs);
      (b.minX == MaxSafeInteger || exists i :: 0 <= i < |runs| && b.minX == runs[i].position.left) &&
      (b.maxX == 0.0 || exists i :: 0 <= i < |runs| && b.maxX == runs[i].position.right) &&
      (b.minY == MaxSafeInteger || exists i :: 0 <= i < |runs| && b.minY == runs[i].position.top) &&
      (b.maxY == 0.0 || exists i :: 0 <= i < |runs| && b.maxY == runs[i].position.bottom)
  {
    if runs != [] {
      var n := |runs| - 1;
      var init := runs[..n];
      BoundsAreExtremes(init);
      assert forall i :: 0 <= i < n ==> init[i] == runs[i];
      var b0 := BoundsOf(init);
      if b0.minX != MaxSafeInteger && BoundsOf(runs).minX == b0.minX {
        var i :| 0 <= i < n && b0.minX == init[i].position.left;
        assert runs[i] == init[i];
      }
      if b0.maxX != 0.0 && BoundsOf(runs).maxX == b0.maxX {
        var i :| 0 <= i < n && b0.maxX == init[i].position.right;
        assert runs[i] == init[i];
      }
      if b0.minY != MaxSafeInteger && BoundsOf(runs).minY == b0.minY {
        var i :| 0 <= i < n && b0.minY == init[i].position.top;
        assert runs[i] == init[i];
      }
      if b0.maxY != 0.0 && BoundsOf(runs).maxY == b0.maxY {
        var i :| 0 <= i < n && b0.maxY == init[i].position.bottom;
        assert runs[i] == init[i];
      }
    }
  }

  /** The padded canvas: its origin in page coordinates and its logical (CSS) size. */
  datatype Geometry = Geometry(originX: real, originY: real, width: real, height: real)

  /** `originX`, `originY`, `width` and `height` of `renderDomToCanvas`. */
  function Layout(b: Bounds): (g: Geometry)
    ensures g.originX == b.minX - CanvasMargins && g.originY == b.minY - CanvasMargins
    ensures g.width == b.maxX - b.minX + 3.0 * CanvasMargins
    ensures g.height == b.maxY - b.minY + 3.0 * CanvasMargins
  {
    var originX := b.minX - CanvasMargins;
    var originY := b.minY - CanvasMargins;
    Geometry(originX, originY, b.maxX - originX + CanvasMargins * 2.0, b.maxY - originY + CanvasMargins * 2.0)
  }

  /** A call on the 2D context, with the fill style and font in force when it was made. */
  datatype Command =
    | FillRect(color: string, x: real, y: real, w: real, h: real)
    | FillText(content: string, font: string, color: string, x: real, y: real)

  /** A length in CSS pixels, in device pixels (`width * ratio`). */
  function ToDevice(length: real, ratio: real): real
  {
    length * ratio
  }

  /** The paint call for one run, at its box's corner moved into canvas coordinates. */
  function DrawRun(run: Run, g: Geometry): Command
  {
    FillText(run.content, run.font, run.color,
      run.position.left - g.originX + CanvasMargins, run.position.top - g.originY + CanvasMargins)
  }

  function TextDraws(runs: seq<Run>, g: Geometry): (r: seq<Command>)
    ensures |r| == |runs|
  {
    seq(|runs|, i requires 0 <= i < |runs| => DrawRun(runs[i], g))
  }

  /**
   * The painted canvas: backing-store size, logical size, the context's scale factor and every
   * drawing call in the order it was made.
   */
  datatype Canvas = Canvas(
    backingWidth: real, backingHeight: real,
    width: real, height: real,
    scale: real,
    commands: seq<Command>)

  /** What `renderDomToCanvas` paints for the runs, on a display of pixel ratio `ratio`. */
  function Paint(runs: seq<Run>, backgroundColor: string, ratio: real): (c: Canvas)
    ensures c.scale == ratio && |c.commands| == |runs| + 1
    ensures c.commands[0].FillRect? && c.commands[0].color == backgroundColor
  {
    var g := Layout(BoundsOf(runs));
    Canvas(ToDevice(g.width, ratio), ToDevice(g.height, ratio), g.width, g.height, ratio,
      [FillRect(backgroundColor, 0.0, 0.0, ToDevice(g.width, ratio), ToDevice(g.height, ratio))] + TextDraws(runs, g))
  }

  /** `renderDomToCanvas` on a measured render root. */
  function Rasterize(root: Node, backgroundColor: string, ratio: real): (r: Result<Canvas>)
    requires root.Element?
    ensures r.Ok? <==> AllParented(LeavesOf(root.children))
    ensures r.Err? ==> r.error == TextNodeWithoutParent
    ensures r.Ok? ==> |r.value.commands| == |LeavesOf(root.children)| + 1
  {
    RenderDetailsSpec(root);
    match RenderDetails(root)
    case Err(e) => Err(e)
    case Ok(runs) => Ok(Paint(runs, backgroundColor, ratio))
  }

  /** On a fragment the browser built, no text node lacks a parent, so rasterizing never throws. */
  lemma ConsistentRootRasterizes(root: Node, backgroundColor: string, ratio: real)
    requires root.Element? && Consistent(root)
    ensures Rasterize(root, backgroundColor, ratio).Ok?
  {
    ConsistentLeavesParented(root.children, root.style);
  }

  /** The canvas 2D context: the state the painter sets, and the calls made on it so far. */
  class Context {
    var font: string
    var fillStyle: string
    var scale: real
    var drawn: seq<Command>

    /** A fresh context with the canvas defaults. */
    constructor ()
      ensures font == "10px sans-serif" && fillStyle == "#000000" && scale == 1.0 && drawn == []
    {
      font := "10px sans-serif";
      fillStyle := "#000000";
      scale := 1.0;
      drawn := [];
    }

    /** `scale(factor, factor)`: later coordinates are multiplied by `factor`. */
    method Scale(factor: real)
      modifies this
      ensures scale == old(scale) * factor
      ensures font == old(font) && fillStyle == old(fillStyle) && drawn == old(drawn)
    {
      scale := scale * factor;
    }

    method SetFont(f: string)
      modifies this
      ensures font == f
      ensures fillStyle == old(fillStyle) && scale == old(scale) && drawn == old(drawn)
    {
      font := f;
    }

    method SetFillStyle(c: string)
      modifies this
      ensures fillStyle == c
      ensures font == old(font) && scale == old(scale) && drawn == old(drawn)
    {
      fillStyle := c;
    }

    /** `fillRect`, painted in the current fill style. */
    method FillRectangle(x: real, y: real, w: real, h: real)
      modifies this
      ensures drawn == old(drawn) + [FillRect(fillStyle, x, y, w, h)]
      ensures font == old(font) && fillStyle == old(fillStyle) && scale == old(scale)
    {
      drawn := drawn + [FillRect(fillStyle, x, y, w, h)];
    }

    /** `fillText`, painted in the current font and fill style. */
    method FillTextAt(content: string, x: real, y: real)
      modifies this
      ensures drawn == old(drawn) + [FillText(content, font, fillStyle, x, y)]
      ensures font == old(font) && fillStyle == old(fillStyle) && scale == old(scale)
    {
      drawn := drawn + [FillText(content, font, fillStyle, x, y)];
    }
  }

  lemma TextDrawsSnoc(runs: seq<Run>, i: nat, g: Geometry)
    requires i < |runs|
    ensures TextDraws(runs[..i + 1], g) == TextDraws(runs[..i], g) + [DrawRun(runs[i], g)]
  {
    var a, b := TextDraws(runs[..i + 1], g), TextDraws(runs[..i], g) + [DrawRun(runs[i], g)];
    forall k | 0 <= k < |a| ensures a[k] == b[k] {
      if k < i { assert runs[..i + 1][k] == runs[..i][k]; }
    }
  }

  /**
   * `renderDomToCanvas`: extract the runs, size the canvas, fill the background, then set the
   * font and fill style of each run and draw it.
   */
  method RenderDomToCanvas(root: Node, backgroundColor: string, ratio: real) returns (r: Result<Canvas>)
    requires root.Element?
    ensures r == Rasterize(root, backgroundColor, ratio)
  {
    var context := new Context();
    var extracted := RenderDetails(root);
    if extracted.Err? {
      return Err(extracted.error);
    }
    var renderDetails := extracted.value;

    var bounds := FindBounds(renderDetails);
    var originX := bounds.minX - CanvasMargins;
    var originY := bounds.minY - CanvasMargins;
    var width := bounds.maxX - originX + CanvasMargins * 2.0;
    var height := bounds.maxY - originY + CanvasMargins * 2.0;
    var canvasWidth, canvasHeight := ToDevice(width, ratio), ToDevice(height, ratio);

    context.Scale(ratio);
    context.SetFillStyle(backgroundColor);
    context.FillRectangle(0.0, 0.0, canvasWidth, canvasHeight);

    ghost var g := Layout(bounds);
    ghost var background := [FillRect(backgroundColor, 0.0, 0.0, canvasWidth, canvasHeight)];
    for i := 0 to |renderDetails|
      invariant context.drawn == background + TextDraws(renderDetails[..i], g)
      invariant context.scale == ratio
    {
      var details := renderDetails[i];
      var x := details.position.left - originX + CanvasMargins;
      var y := details.position.top - originY + CanvasMargins;
      context.SetFont(details.font);
      context.SetFillStyle(details.color);
      context.FillTextAt(details.content, x, y);
      TextDrawsSnoc(renderDetails, i, g);
    }
    assert renderDetails[..|renderDetails|] == renderDetails;
    assert g == Layout(BoundsOf(renderDetails)) && width == g.width && height == g.height;
    r := Ok(Canvas(canvasWidth, canvasHeight, width, height, context.scale, context.drawn));
  }

  // ---------------------------------------------------------------------------------------------
  // What the paint sequence promises.

  /**
   * The canvas is the bounding box grown by the margins (60 in all per axis) and its backing
   * store is that size times the pixel ratio, which is also the context's scale.
   */
  lemma PaintGeometry(runs: seq<Run>, backgroundColor: string, ratio: real)
    ensures var c := Paint(runs, backgroundColor, ratio); var b := BoundsOf(runs);
      c.width == b.maxX - b.minX + 60.0 && c.height == b.maxY - b.minY + 60.0 &&
      c.backingWidth == ToDevice(c.width, ratio) && c.backingHeight == ToDevice(c.height, ratio) && c.scale == ratio
  {
  }

  /**
   * The calls are one background fill over the backing store followed by one `fillText` per run,
   * in extraction order, in the run's own font and colour, at the run's corner moved by 40 - min.
   */
  lemma PaintSequence(runs: seq<Run>, backgroundColor: string, ratio: real)
    ensures var c := Paint(runs, backgroundColor, ratio);
      |c.commands| == |runs| + 1 &&
      c.commands[0] == FillRect(backgroundColor, 0.0, 0.0, c.backingWidth, c.backingHeight)
    ensures var c := Paint(runs, backgroundColor, ratio); var b := BoundsOf(runs);
      forall i :: 0 <= i < |runs| ==>
        c.commands[i + 1] == FillText(runs[i].content, runs[i].font, runs[i].color,
          runs[i].position.left - b.minX + 40.0, runs[i].position.top - b.minY + 40.0)
  {
    var c := Paint(runs, backgroundColor, ratio);
    var b := BoundsOf(runs);
    var g := Layout(b);
    var draws := TextDraws(runs, g);
    assert c.commands[0] == FillRect(backgroundColor, 0.0, 0.0, c.backingWidth, c.backingHeight);
    assert c.commands[1..] == draws;
    forall i | 0 <= i < |runs|
      ensures c.commands[i + 1] == FillText(runs[i].content, runs[i].font, runs[i].color,
        runs[i].position.left - b.minX + 40.0, runs[i].position.top - b.minY + 40.0)
    {
      assert c.commands[i + 1] == c.commands[1..][i] == draws[i] == DrawRun(runs[i], g);
    }
  }

  /**
   * With at least one run and well-formed boxes, every run's box, moved to where it is drawn,
   * lies within [40, width - 20] horizontally and [40, height - 20] vertically, so the canvas is
   * positive in size and at least the content's extent plus two margins.
   */
  lemma RunsInsideCanvas(runs: seq<Run>, backgroundColor: string, ratio: real)
    requires runs != []
    requires forall i :: 0 <= i < |runs| ==> WellFormed(runs[i].position)
    ensures var c := Paint(runs, backgroundColor, ratio);
      c.width >= 3.0 * CanvasMargins && c.height >= 3.0 * CanvasMargins &&
      forall i :: 0 <= i < |runs| ==>
        var p := runs[i].position; var d := c.commands[i + 1];
        d.FillText? &&
        2.0 * CanvasMargins <= d.x && d.x + (p.right - p.left) <= c.width - CanvasMargins &&
        2.0 * CanvasMargins <= d.y && d.y + (p.bottom - p.top) <= c.height - CanvasMargins
  {
    BoundsAreExtremes(runs);
    PaintGeometry(runs, backgroundColor, ratio);
    PaintSequence(runs, backgroundColor, ratio);
    var b := BoundsOf(runs);
    assert b.minX <= runs[0].position.left <= runs[0].position.right <= b.maxX;
    assert b.minY <= runs[0].position.top <= runs[0].position.bottom <= b.maxY;
  }

  /** With no runs the bounds keep their initial values and the canvas width is negative. */
  lemma EmptyRunsCanvas(backgroundColor: string, ratio: real)
    ensures var c := Paint([], backgroundColor, ratio);
      c.width == 60.0 - MaxSafeInteger && c.height == 60.0 - MaxSafeInteger && c.width < 0.0 &&
      c.commands == [FillRect(backgroundColor, 0.0, 0.0, c.backingWidth, c.backingHeight)]
  {
    var c := Paint([], backgroundColor, ratio);
    assert c.commands == [FillRect(backgroundColor, 0.0, 0.0, c.backingWidth, c.backingHeight)] + [];
  }

  /**
   * The background is filled with `fillRect(0, 0, canvas.width, canvas.height)` after
   * `scale(ratio, ratio)`, so in device pixels it spans the backing store times the ratio: it
   * covers the whole backing store exactly when the ratio is at least 1.
   */
  lemma BackgroundCoverage(runs: seq<Run>, backgroundColor: string, ratio: real)
    requires ratio > 0.0
    requires Paint(runs, backgroundColor, ratio).width > 0.0 && Paint(runs, backgroundColor, ratio).height > 0.0
    ensures var c := Paint(runs, backgroundColor, ratio); var fill := c.commands[0];
      fill.FillRect? &&
      (ToDevice(fill.w, c.scale) >= c.backingWidth && ToDevice(fill.h, c.scale) >= c.backingHeight <==> ratio >= 1.0)
  {
    var c := Paint(runs, backgroundColor, ratio);
    PaintGeometry(runs, backgroundColor, ratio);
    PaintSequence(runs, backgroundColor, ratio);
    var fill := c.commands[0];
    assert fill.w == c.backingWidth == ToDevice(c.width, ratio) && fill.h == c.backingHeight == ToDevice(c.height, ratio);
    assert c.scale == ratio;
    ScaledCovers(c.width, ratio);
    ScaledCovers(c.height, ratio);
  }

  lemma ScaledCovers(w: real, ratio: real)
    requires w > 0.0 && ratio > 0.0
    ensures ToDevice(ToDevice(w, ratio), ratio) >= ToDevice(w, ratio) <==> ratio >= 1.0
  {
    var a := w * ratio;
    assert a > 0.0;
    if ratio >= 1.0 {
      assert a * ratio - a == a * (ratio - 1.0);
    } else {
      assert a - a * ratio == a * (1.0 - ratio);
    }
  }
}
