/** The drawing vocabulary that stands in for the vector-graphics library the scope
    view strokes into. Instead of calling `Path::move_to`, `Path::line_to`, `Path::rect`,
    `Canvas::stroke_path` and `Canvas::clear_rect`, the model records what would have been
    asked of the canvas as values of the datatypes below. */
module Shapes {

  datatype Option<+T> = None | Some(value: T)

  /** A point in pixel space; `f32` coordinates are modelled as `real`. */
  datatype Point = Point(x: real, y: real)

  /** The layout rectangle the host hands to every draw call (`cx.bounds()`). */
  datatype Bounds = Bounds(x: real, y: real, w: real, h: real)

  /** One recorded step of a vector path. */
  datatype PathOp =
    | MoveTo(p: Point)
    | LineTo(p: Point)
    | Rect(rx: real, ry: real, rw: real, rh: real)

  /** A straight stroke from one point to another. */
  datatype Segment = Segment(from: Point, to: Point)

  /** The path that draws the given segments one after the other, each as a move to its
      start followed by a line to its end. */
  function SegmentOps(segs: seq<Segment>): (ops: seq<PathOp>)
    ensures |ops| == 2 * |segs|
    ensures forall i :: 0 <= i < |segs| ==>
      ops[2 * i] == MoveTo(segs[i].from) && ops[2 * i + 1] == LineTo(segs[i].to)
  {
    if segs == [] then
      []
    else
      var init := segs[..|segs| - 1];
      var last := segs[|segs| - 1];
      var ops := SegmentOps(init) + [MoveTo(last.from), LineTo(last.to)];
      assert forall i :: 0 <= i < |init| ==> segs[i] == init[i];
      ops
  }

  /** A colour. `Rgb` holds channels in [0, 1]; `Dimmed(base, scale)` stands for the
      colour whose channels are `base`'s scaled by `scale^(1/5)` and cast to bytes, whose
      floating-point arithmetic is not modelled. */
  datatype Color =
    | Rgb(r: real, g: real, b: real)
    | Dimmed(base: Color, scale: real)

  /** A paint: a solid colour and, when set, a stroke width (otherwise the library's). */
  datatype Paint = Paint(color: Color, lineWidth: Option<real>)

  /** One request made of the canvas. */
  datatype Command =
    | ClearRect(area: Bounds, fill: Color)
    | StrokePath(path: seq<PathOp>, paint: Paint)
}
