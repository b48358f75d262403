/** The scope view itself: its grid configuration, the grid and the border it draws
    around the lines, the order of a frame in `View::draw`, and the recalculation the
    parameter-update event triggers. */
module Render {
  import opened Shapes
  import opened Mapping
  import opened Lines
  import opened Sequences

  /** Rust's `u32`. */
  type U32 = x: int | 0 <= x < 0x1_0000_0000

  /** The number of grid divisions along each axis. */
  datatype ScopeConfig = ScopeConfig(xDivs: U32, yDivs: U32)

  /** The configuration a view gets when none is given: 10 × 10 divisions. */
  const DefaultConfig: ScopeConfig := ScopeConfig(10, 10)

  /** What drawing the grid needs of a configuration: a positive number of divisions
      (the positions divide by it), and one more than it still a `u32` (the loops run to
      `divs + 1`, which would overflow). */
  predicate GridDrawable(config: ScopeConfig)
  {
    0 < config.xDivs < 0xFFFF_FFFF && 0 < config.yDivs < 0xFFFF_FFFF
  }

  /** The background, `Color::rgb(0, 0, 0)`. */
  const Black: Color := Rgb(0.0, 0.0, 0.0)

  /** The grid colour, `Color::rgb(50, 50, 40)`. */
  const GridColor: Color := Rgb(50.0 / 255.0, 50.0 / 255.0, 40.0 / 255.0)

  /** The border colour, `#ccccdc`. */
  const BorderColor: Color := Rgb(204.0 / 255.0, 204.0 / 255.0, 220.0 / 255.0)

  /** The border's stroke width. */
  const BorderWidth: real := 3.0

  // ---------------------------------------------------------------------------------
  // Grid

  /** Vertical grid line `i` of `divs`: at `x + (i / divs)·w`, from the top edge to the
      bottom edge. */
  function VerticalLine(b: Bounds, divs: nat, i: nat): Segment
    requires divs > 0
  {
    var x := GridPos(b.x, b.w, divs, i);
    Segment(Point(x, b.y), Point(x, b.y + b.h))
  }

  /** Horizontal grid line `j` of `divs`: at `y + (j / divs)·h`, from the left edge to
      the right edge. */
  function HorizontalLine(b: Bounds, divs: nat, j: nat): Segment
    requires divs > 0
  {
    var y := GridPos(b.y, b.h, divs, j);
    Segment(Point(b.x, y), Point(b.x + b.w, y))
  }

  /** The first `k` vertical grid lines. */
  function GridVerticals(b: Bounds, divs: nat, k: nat): (lines: seq<Segment>)
    requires divs > 0
    ensures |lines| == k
    ensures forall i :: 0 <= i < k ==> lines[i] == VerticalLine(b, divs, i)
  {
    if k == 0 then [] else GridVerticals(b, divs, k - 1) + [VerticalLine(b, divs, k - 1)]
  }

  /** The first `k` horizontal grid lines. */
  function GridHorizontals(b: Bounds, divs: nat, k: nat): (lines: seq<Segment>)
    requires divs > 0
    ensures |lines| == k
    ensures forall j :: 0 <= j < k ==> lines[j] == HorizontalLine(b, divs, j)
  {
    if k == 0 then [] else GridHorizontals(b, divs, k - 1) + [HorizontalLine(b, divs, k - 1)]
  }

  /** The grid: all `x_divs + 1` verticals, then all `y_divs + 1` horizontals. */
  function GridLines(b: Bounds, config: ScopeConfig): seq<Segment>
    requires GridDrawable(config)
  {
    GridVerticals(b, config.xDivs, config.xDivs + 1)
      + GridHorizontals(b, config.yDivs, config.yDivs + 1)
  }

  /** The stroke request of `draw_grid`. */
  function GridCommand(b: Bounds, config: ScopeConfig): Command
    requires GridDrawable(config)
  {
    StrokePath(SegmentOps(GridLines(b, config)), Paint(GridColor, None))
  }

  /** `draw_grid`: one loop per axis, each adding a line per division boundary. */
  method DrawGrid(b: Bounds, config: ScopeConfig) returns (cmd: Command)
    requires GridDrawable(config)
    ensures cmd == GridCommand(b, config)
  {
    var xDivs, yDivs := config.xDivs, config.yDivs;
    var gridLines := [];
    for x := 0 to xDivs + 1
      invariant gridLines == GridVerticals(b, xDivs, x)
    {
      var xPos := b.x + (x as real / xDivs as real) * b.w;
      assert xPos == GridPos(b.x, b.w, xDivs, x);
      gridLines := gridLines + [Segment(Point(xPos, b.y), Point(xPos, b.y + b.h))];
    }
    var verticals := gridLines;
    for y := 0 to yDivs + 1
      invariant gridLines == verticals + GridHorizontals(b, yDivs, y)
    {
      var yPos := b.y + (y as real / yDivs as real) * b.h;
      assert yPos == GridPos(b.y, b.h, yDivs, y);
      gridLines := gridLines + [Segment(Point(b.x, yPos), Point(b.x + b.w, yPos))];
    }
    cmd := StrokePath(SegmentOps(gridLines), Paint(GridColor, None));
  }

  /** The verticals cover the rectangle evenly: each spans the full height, the first is
      on the left edge and the last on the right edge, all of them lie inside, and
      consecutive ones are `w / divs` apart. */
  lemma GridVerticalsEven(b: Bounds, divs: nat)
    requires divs > 0 && b.w >= 0.0
    ensures var lines := GridVerticals(b, divs, divs + 1);
      && (forall i :: 0 <= i <= divs ==>
            && lines[i].from.x == lines[i].to.x
            && lines[i].from.y == b.y && lines[i].to.y == b.y + b.h
            && b.x <= lines[i].from.x <= b.x + b.w)
      && lines[0].from.x == b.x
      && lines[divs].from.x == b.x + b.w
      && (forall i :: 0 <= i < divs ==> lines[i + 1].from.x - lines[i].from.x == b.w / divs as real)
  {
    GridPosEnds(b.x, b.w, divs);
    forall i | 0 <= i < divs
      ensures GridPos(b.x, b.w, divs, i + 1) - GridPos(b.x, b.w, divs, i) == b.w / divs as real
    {
      GridSpacing(b.x, b.w, divs, i);
    }
  }

  /** The horizontals cover the rectangle evenly: each spans the full width, the first is
      on the top edge and the last on the bottom edge, all of them lie inside, and
      consecutive ones are `h / divs` apart. */
  lemma GridHorizontalsEven(b: Bounds, divs: nat)
    requires divs > 0 && b.h >= 0.0
    ensures var lines := GridHorizontals(b, divs, divs + 1);
      && (forall j :: 0 <= j <= divs ==>
            && lines[j].from.y == lines[j].to.y
            && lines[j].from.x == b.x && lines[j].to.x == b.x + b.w
            && b.y <= lines[j].from.y <= b.y + b.h)
      && lines[0].from.y == b.y
      && lines[divs].from.y == b.y + b.h
      && (forall j :: 0 <= j < divs ==> lines[j + 1].from.y - lines[j].from.y == b.h / divs as real)
  {
    GridPosEnds(b.y, b.h, divs);
    forall j | 0 <= j < divs
      ensures GridPos(b.y, b.h, divs, j + 1) - GridPos(b.y, b.h, divs, j) == b.h / divs as real
    {
      GridSpacing(b.y, b.h, divs, j);
    }
  }

  /** The default grid has eleven lines each way. */
  lemma DefaultGridLines(b: Bounds)
    ensures |GridLines(b, DefaultConfig)| == 11 + 11
  {
  }

  // ---------------------------------------------------------------------------------
  // Border

  /** The border rectangle of `draw_border`, offset outwards by half the stroke width so
      that the stroke's inner edge is exactly the bounds and its outer edge lies a full
      stroke width outside them. */
  function BorderRect(b: Bounds): (r: PathOp)
    ensures r.Rect?
    ensures r.rx + BorderWidth / 2.0 == b.x && r.ry + BorderWidth / 2.0 == b.y
    ensures r.rw - BorderWidth == b.w && r.rh - BorderWidth == b.h
    ensures r.rx - BorderWidth / 2.0 == b.x - BorderWidth && r.ry - BorderWidth / 2.0 == b.y - BorderWidth
  {
    Rect(b.x - BorderWidth / 2.0, b.y - BorderWidth / 2.0, b.w + BorderWidth, b.h + BorderWidth)
  }

  /** The stroke request of `draw_border`: the border rectangle alone, stroked in the
      border colour at a width for which the rectangle is the stroke's centre line, so
      that the stroke's inner edge is exactly the bounds. */
  function BorderCommand(b: Bounds): (cmd: Command)
    ensures cmd.StrokePath? && |cmd.path| == 1 && cmd.path[0].Rect?
    ensures cmd.paint.color == BorderColor && cmd.paint.lineWidth.Some?
    ensures var r, half := cmd.path[0], cmd.paint.lineWidth.value / 2.0;
      && r.rx + half == b.x && r.ry + half == b.y
      && r.rw - 2.0 * half == b.w && r.rh - 2.0 * half == b.h
  {
    StrokePath([BorderRect(b)], Paint(BorderColor, Some(BorderWidth)))
  }

  // ---------------------------------------------------------------------------------
  // Lines and the frame

  /** What drawing a line needs of the rectangle so that it does not panic: a bucket size
      of at least one for the sampled lines, and two buckets or more for an audio line. */
  predicate Drawable(b: Bounds, line: ScopeLine)
  {
    match line
    case Constant(_) => true
    case Signal(l) => b.w > 0.0 && |l.samples| as real >= b.w
    case Audio(l) => b.h > 0.0 && b.w > 1.0 && |l.samples| as real >= b.w
  }

  /** The requests that drawing one line makes, dispatched on its variant: a single
      stroke, except for an audio line's two passes. */
  function LineCommands(b: Bounds, line: ScopeLine): (cmds: seq<Command>)
    requires Drawable(b, line)
    ensures |cmds| == if line.Audio? then 2 else 1
  {
    match line
    case Constant(l) => [DrawHorizontal(b, l)]
    case Signal(l) => [StrokePath(SignalPath(b, l.samples), Paint(l.color, Some(l.width)))]
    case Audio(l) => [WaveCommand(b, l, 1.0), WaveCommand(b, l, 0.5)]
  }

  /** Every line of the list can be drawn on the rectangle. */
  predicate AllDrawable(b: Bounds, lines: seq<ScopeLine>)
  {
    forall i :: 0 <= i < |lines| ==> Drawable(b, lines[i])
  }

  /** The requests of each line, one block per line, in the order of the lines. */
  function LineBlocks(b: Bounds, lines: seq<ScopeLine>): (blocks: seq<seq<Command>>)
    requires AllDrawable(b, lines)
    ensures |blocks| == |lines|
    ensures forall i :: 0 <= i < |lines| ==> blocks[i] == LineCommands(b, lines[i])
  {
    seq(|lines|, i requires 0 <= i < |lines| => LineCommands(b, lines[i]))
  }

  /** A whole frame of `View::draw`, given the blocks of requests of its lines: clear the
      rectangle to black, stroke the grid, make every line's requests in order, stroke
      the border. */
  function Frame(b: Bounds, config: ScopeConfig, blocks: seq<seq<Command>>): (f: seq<Command>)
    requires GridDrawable(config)
    ensures |f| == |Flatten(blocks)| + 3
    ensures f[0] == ClearRect(b, Black) && f[1] == GridCommand(b, config)
    ensures f[|f| - 1] == BorderCommand(b)
  {
    [ClearRect(b, Black), GridCommand(b, config)] + Flatten(blocks) + [BorderCommand(b)]
  }

  /** The order within a frame: between the grid and the border, block `i` comes after
      all the blocks before it and before all the blocks after it. */
  lemma FrameOrder(b: Bounds, config: ScopeConfig, blocks: seq<seq<Command>>, i: nat)
    requires GridDrawable(config) && i < |blocks|
    ensures Frame(b, config, blocks) == [ClearRect(b, Black), GridCommand(b, config)]
         + Flatten(blocks[..i]) + blocks[i] + Flatten(blocks[i + 1..])
         + [BorderCommand(b)]
  {
    var front, back := blocks[..i], blocks[i + 1..];
    assert blocks == front + [blocks[i]] + back;
    FlattenAppend(front + [blocks[i]], back);
    FlattenAppend(front, [blocks[i]]);
    FlattenSingle(blocks[i]);
  }

  /** The dispatch of `View::draw` on a line's variant. */
  method DrawLine(b: Bounds, line: ScopeLine) returns (cmds: seq<Command>)
    requires Drawable(b, line)
    ensures cmds == LineCommands(b, line)
  {
    match line
    case Constant(l) =>
      cmds := [DrawHorizontal(b, l)];
    case Signal(l) =>
      var stroke := DrawSignal(b, l);
      cmds := [stroke];
    case Audio(l) =>
      cmds := DrawAudio(b, l);
  }

  /** The parameter-update event, the one event the view reacts to. */
  datatype ParamUpdateEvent = ParamUpdate

  /** The view: a fixed grid configuration and the data it plots. The data's own state is
      not modelled; `recalculations` counts how often its `recalculate` hook has run. */
  class ScopeView {
    const config: ScopeConfig
    var recalculations: nat

    /** `ScopeView::new`: the given configuration or the default one, and one
        recalculation of the data. */
    constructor (config: Option<ScopeConfig>)
      ensures this.config == (if config.Some? then config.value else DefaultConfig)
      ensures recalculations == 1
    {
      this.config := match config
        case Some(c) => c
        case None => DefaultConfig;
      recalculations := 1;
    }

    /** `View::event`: a parameter update makes the data recalculate once. */
    method Event(event: ParamUpdateEvent)
      modifies this
      ensures recalculations == old(recalculations) + 1
    {
      match event
      case ParamUpdate =>
        recalculations := recalculations + 1;
    }

    /** `View::draw` on the lines the data describes. */
    method Draw(b: Bounds, lines: seq<ScopeLine>) returns (cmds: seq<Command>)
      requires GridDrawable(config) && AllDrawable(b, lines)
      ensures cmds == Frame(b, config, LineBlocks(b, lines))
    {
      cmds := [ClearRect(b, Black)];
      var grid := DrawGrid(b, config);
      cmds := cmds + [grid];
      ghost var blocks := LineBlocks(b, lines);
      for i := 0 to |lines|
        invariant cmds == [ClearRect(b, Black), grid] + Flatten(blocks[..i])
      {
        FlattenPrefix(blocks, i);
        var strokes := DrawLine(b, lines[i]);
        cmds := cmds + strokes;
      }
      assert blocks[..|lines|] == blocks;
      cmds := cmds + [BorderCommand(b)];
    }
  }
}
