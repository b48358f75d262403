# vizia_scope: a verified model of the scope view's geometry

`vizia_scope` is an oscilloscope widget for the vizia GUI toolkit. A `ScopeView` fills
its rectangle with black and strokes a grid of `x_divs × y_divs` divisions. It then draws
every line that its data source lists, and finally strokes a border around the rectangle.
There are three kinds of line:

- a **constant line** is a pair of horizontal thresholds at `±constant`;
- a **signal line** is a polyline through the mean of each pixel column's bucket of
  samples, with the amplitude clamped to `[-1, 1]`;
- an **audio line** is an Audacity-style envelope. Each bucket the loop reaches becomes one
  vertical mark from its minimum to its maximum; with three buckets or more, the last two
  are not drawn (`Drawn`). A bucket whose extent is under one pixel's worth of amplitude
  (at full scale) has its maximum raised by two pixels' worth before the clamp
  (`BumpSpec`). Because the clamp comes after, the drawn mark can still be shorter than a
  pixel. The envelope is drawn twice: once at full scale and once at half scale, in a
  dimmer colour.

This project models that drawing logic as the sequence of requests the view makes on a
canvas (`Command`: a clear or a stroked path made of `PathOp`s). It proves where every
point lands, how the buffer is cut into buckets, and in which order a frame is drawn.

The files:

- `shapes.dfy`: the drawing vocabulary.
- `seqs.dfy`: flattening a sequence of blocks.
- `arith.dfy`: one-step facts about real multiplication.
- `reduce.dfy`: the bucket size, `chunks`, the mean and the extrema fold.
- `mapping.dfy`: amplitude to pixel, and grid positions.
- `lines.dfy`: the line datatypes and `draw_horizontal`, `draw_signal` and `draw_audio`.
- `render.dfy`: the grid, the border, the frame, and the `ScopeView` class.

Where the source loops and updates variables, the model is a method with a loop. This
applies to `draw_grid`, `draw_signal`, the `draw_wave` closure and `View::draw`. Each
method is proved equal to a specification function, and the properties are lemmas about
that function. `f32` is modelled as `real`. A float-to-`usize` cast of a non-negative
quotient is its floor.

One might expect 1000 samples on a 100-pixel-wide rectangle to give 100 marks, one per
column. The loop stops when its counter reaches `chunks_length - 2`, so it draws 98
(`AudioExampleCount`). A bucket spanning the full amplitude range does span the full
height (`FullRangeColumn`).

Two further behaviours follow from the code as written:

- The number of buckets lies between `w` and `2w + 1` (`BucketCountBounds`). So there can
  be more buckets than columns, and bucket `i` is still drawn at column `x + i`. For
  example, 150 samples on a rectangle 100 pixels wide give 150 buckets, and the last
  signal point lies at `x + 149`, past the right edge (`SignalPastRightEdge`).
- The thickening bump is applied before clamping. A bucket that is flat at `+1` is
  therefore drawn with no height at all (`FlatAtCeiling`).

## Model

| member | source | states |
|---|---|---|
| Reduce.BucketSize | src/lib.rs:215 | `(len / w) as usize` is the `b` with `b·w <= len < (b+1)·w`, and it is at least 1 exactly when `len >= w` (the condition for `chunks` not to panic) |
| Reduce.Chunks | src/lib.rs:219 | `chunks(b)` yields non-empty buckets of at most `b` samples, all of exactly `b` samples but the last, and none at all only for an empty buffer |
| Reduce.ChunkCount | src/lib.rs:241-242 | `chunks_length` is the ceiling of `len / b` |
| Reduce.ChunksFlatten | src/lib.rs:219 | concatenating the buckets gives back the buffer: nothing is lost, duplicated or reordered |
| Reduce.ChunkAt | src/lib.rs:219 | bucket `i` is the slice `[i·b, min((i+1)·b, len))` |
| Reduce.Mean | src/lib.rs:220-221 | the average of a single sample is that sample |
| Reduce.SumPermutation | src/lib.rs:220 | the bucket sum does not depend on the order of the samples |
| Reduce.MeanPermutation | src/lib.rs:220-221 | the bucket average does not depend on the order of the samples |
| Reduce.SumBounds | src/lib.rs:220 | a sum of `n` samples in `[lo, hi]` lies in `[n·lo, n·hi]` |
| Reduce.MeanWithin | src/lib.rs:220-221 | the average of samples in `[lo, hi]` lies in `[lo, hi]` |
| Reduce.FoldExtrema | src/lib.rs:245-250 | the fold is `None` only on an empty input with no accumulator; otherwise it bounds every sample, only widens the accumulator, and each bound is a sample or the accumulator's |
| Reduce.Extrema | src/lib.rs:245-252 | the fold finds a result exactly for a non-empty bucket (so the `expect` never fires), its bounds enclose every sample, and both are samples of the bucket |
| Reduce.MeanWithinExtrema | src/lib.rs:220-221 | a bucket's mean lies between its minimum and its maximum |
| Reduce.BumpSpec | src/lib.rs:254-258 | the maximum is raised by `4/h` (two pixels' worth of amplitude at full scale) if and only if the extent is under `2/h` (one pixel's worth), both before the clamp; afterwards the extent is at least `2/h`, and at least `4/h` when raised |
| Reduce.Bump | src/lib.rs:254-258 | the bump never lowers the maximum, and raises it by exactly `4/h` or not at all |
| Reduce.BucketCountBounds | src/lib.rs:215-227 | the number of buckets is at least `w` and less than `2w + 1` |
| Reduce.SeveralBuckets | src/lib.rs:241-269 | there are two buckets or more (so `chunks_length - 2` does not underflow) if and only if `w > 1` |
| Mapping.Clamp | src/lib.rs:224 | `clamp(lo, hi)` lands in `[lo, hi]` |
| Mapping.UnitInRange | src/lib.rs:224 | clamping to `[-1, 1]` leaves in-range values alone and is idempotent |
| Mapping.UnitMonotone | src/lib.rs:224 | clamping is monotone |
| Mapping.ConstantLevels | src/lib.rs:201-202 | the two threshold levels are symmetric about `y + h/2` and lie `constant·h` apart |
| Mapping.SignalY | src/lib.rs:224-225 | a signal point's y lies within `[y, y + h]` |
| Mapping.SignalYClamped | src/lib.rs:224-225 | a signal point's y depends on the value only through its clamp |
| Mapping.SignalYMonotone | src/lib.rs:224-225 | a signal point's y grows with the value (not inverted) |
| Mapping.AudioYRange | src/lib.rs:260-262 | an audio point's y lies within `scale·h/2` of the midline |
| Mapping.AudioY | src/lib.rs:260-262 | for a scale in `[0, 1]`, an audio point's y lies within `[y, y + h]` |
| Mapping.AudioYClamped | src/lib.rs:260-262 | an audio point's y depends on the value only through its clamp |
| Mapping.AudioYAntitone | src/lib.rs:260-262 | an audio point's y shrinks as the value grows (inverted) |
| Mapping.AudioYHalfScale | src/lib.rs:260-262 | at scale 0.5 a point is half as far from the midline as at scale 1.0 |
| Mapping.AudioYSpan | src/lib.rs:260-262 | between two in-range values, the audio y spans `scale·(hi − lo)·h/2` |
| Mapping.GridPos | src/lib.rs:182-187 | every grid line from 0 to `divs` lies on the axis' extent |
| Mapping.GridPosEnds | src/lib.rs:182-187 | grid line 0 is at the start of the axis and grid line `divs` at its end |
| Mapping.GridSpacing | src/lib.rs:182-187 | consecutive grid lines are `len / divs` apart |
| Lines.HorizontalPath | src/lib.rs:201-207 | two full-width horizontal strokes, symmetric about the midline and `constant·h` apart, the first at `base_y + constant·h/2` |
| Lines.DrawHorizontal | src/lib.rs:196-210 | strokes the threshold path in the line's colour at the default width |
| Lines.HorizontalNegated | src/lib.rs:201-207 | negating the constant draws the same two strokes in the other order |
| Lines.HorizontalExample | src/lib.rs:201-207 | the constant 0.5 on a 100 × 100 rectangle draws strokes at y = 75 and y = 25 |
| Lines.SignalPointsAt | src/lib.rs:219-226 | point `i` of the polyline is at column `x + i`, at the signal height of bucket `i`'s mean |
| Lines.DrawSignal | src/lib.rs:213-232 | the loop builds exactly the specified path (midline start, then one point per bucket) and strokes it in the line's colour and width |
| Lines.SignalPath | src/lib.rs:213-227 | the path starts at the left end of the midline and has at least one point after it |
| Lines.SignalPathShape | src/lib.rs:213-227 | the path starts on the midline at the left edge and has one point per bucket at column `x + i`; every point lies inside the rectangle's height and between the heights of its bucket's extrema |
| Lines.SignalPointsBetween | src/lib.rs:219-226 | point `i` of the polyline is in column `x + i`, inside the rectangle's height, and between the heights of its bucket's extrema |
| Lines.SignalPastRightEdge | src/lib.rs:215-226 | 150 samples on a 100-pixel-wide rectangle make buckets of one sample, and the last point lies at `x + 149`, past the right edge |
| Lines.SignalPointBetween | src/lib.rs:220-225 | one signal point lies inside the rectangle's height and between the heights of its bucket's extrema |
| Lines.Drawn | src/lib.rs:269-271 | the loop draws all buckets exactly when there are at most two, and otherwise all but two |
| Lines.WaveColumn | src/lib.rs:264-265 | a bucket's mark is a move and a line, both in column `x + i` |
| Lines.WaveOpsAt | src/lib.rs:244-267 | steps `2i` and `2i + 1` of a pass are the mark of bucket `i` |
| Lines.WavePath | src/lib.rs:238-271 | a pass is a sequence of move/line pairs, pair `j` a vertical mark in column `x + j` |
| Lines.DrawWave | src/lib.rs:238-283 | the `draw_wave` loop emits the marks of the first `Drawn(n)` buckets in order (all but the last two, or both of two), and strokes them two pixels wide in the colour dimmed by the scale |
| Lines.DrawAudio | src/lib.rs:235-287 | an audio line makes exactly two strokes, the pass at scale 1.0 and then the pass at scale 0.5 |
| Lines.WaveMarkCount | src/lib.rs:264-271 | a pass draws `2·(n − 2)` steps for `n >= 3` buckets and 4 for two buckets |
| Lines.WavePassesAligned | src/lib.rs:285-286 | the two passes have the same length, and each half-scale point is the full-scale point, in the same column, moved halfway to the midline |
| Lines.WaveOpsAligned | src/lib.rs:260-265 | the same alignment for the marks of the first `k` buckets |
| Lines.ColumnHalfway | src/lib.rs:260-265 | a bucket's half-scale mark is its full-scale mark moved halfway to the midline |
| Lines.WaveColumnInside | src/lib.rs:254-265 | a mark is drawn upwards from the minimum's height to the bumped maximum's, inside the band `scale·h/2` around the midline, and inside the rectangle for a scale of at most 1 |
| Lines.WaveColumnThickness | src/lib.rs:254-265 | while the bumped maximum stays within the clamp range, a mark is at least `scale` pixels tall, and at least `2·scale` pixels tall when the bump raised it |
| Lines.FlatAtCeiling | src/lib.rs:254-265 | a bucket flat at `+1` is drawn with zero height: the bump is clamped away |
| Lines.FullRangeColumn | src/lib.rs:254-265 | at full scale, a bucket spanning `[-1, 1]` is a mark from the bottom edge to the top edge |
| Lines.AudioExampleCount | src/lib.rs:237-271 | 1000 samples on a 100-pixel-wide rectangle give buckets of 10 samples, 100 buckets, and 98 marks per pass |
| Render.GridVerticals | src/lib.rs:181-185 | the first `k` vertical grid lines, the `i`-th at grid position `i` |
| Render.GridHorizontals | src/lib.rs:186-190 | the first `k` horizontal grid lines, the `j`-th at grid position `j` |
| Render.DrawGrid | src/lib.rs:175-193 | the two loops build exactly `x_divs + 1` verticals followed by `y_divs + 1` horizontals, stroked in the grid colour |
| Render.GridVerticalsEven | src/lib.rs:181-185 | each vertical spans the full height and lies inside the rectangle; the first is on the left edge and the last on the right edge; consecutive ones are `w / x_divs` apart |
| Render.GridHorizontalsEven | src/lib.rs:186-190 | each horizontal spans the full width and lies inside the rectangle; the first is on the top edge and the last on the bottom edge; consecutive ones are `h / y_divs` apart |
| Render.DefaultGridLines | src/lib.rs:164-167 | the default configuration draws 11 lines each way |
| Shapes.SegmentOps | src/lib.rs:183-189 | each grid segment becomes a `move_to` then a `line_to`, in order |
| Render.BorderRect | src/lib.rs:290-300 | the border rectangle is offset by half the stroke width, so the stroke's inner edge is exactly the bounds and its outer edge is a full width outside them |
| Render.BorderCommand | src/lib.rs:290-300 | the border is one rectangle stroked in the border colour, offset by half the stroke width so that the stroke's inner edge is the bounds |
| Render.LineCommands | src/lib.rs:340-344 | a constant or signal line makes one stroke and an audio line makes two |
| Render.LineBlocks | src/lib.rs:337-344 | one block of requests per line, in the order of the lines |
| Render.Frame | src/lib.rs:322-347 | a frame starts with the black clear and the grid, ends with the border, and has the lines' requests in between |
| Render.FrameOrder | src/lib.rs:322-347 | a frame is the black clear, the grid, the blocks of the lines before block `i`, block `i`, the blocks after it, and the border |
| Render.DrawLine | src/lib.rs:340-344 | the dispatch on a line's variant makes exactly that line's requests |
| Render.ScopeView.Draw | src/lib.rs:322-347 | `View::draw` makes exactly the frame: clear, grid, every line's requests in order, border |
| Render.ScopeView.constructor | src/lib.rs:161-172 | the view keeps the given configuration or the 10 × 10 default, and the data has been recalculated once |
| Render.ScopeView.Event | src/lib.rs:315-318 | a parameter update recalculates the data exactly once |

## Left out

- The vizia glue is not modelled: `build`, `element`, `DrawContext`, `EventContext` and the `Handle`. The bounds are a parameter of every drawing member.
- The canvas and femtovg are not modelled. A draw call is the `Command` it would issue, and a path is its list of `PathOp`s.
- The `ScopeData` trait is left out. `scope_lines()` becomes the `lines` parameter of `Draw`, and `recalculate()` is a counter (`recalculations`), because the data's own state belongs to the user's type.
- The `new` constructors of `ConstantLine`, `SignalLine` and `AudioLine` are just the datatype constructors, since they only store their arguments.
- Floating point is not modelled: `f32` rounding, NaN, and the division by zero that a zero height or zero divisions would give. The model requires `h > 0` and `divs > 0` there, because Rust does not panic on these but produces infinities or NaN, which `real` cannot represent.
- A width of zero or less is not modelled. The sampled lines require `w > 0`. In Rust a zero width gives an infinite quotient, which saturates to `usize::MAX`, so a non-empty buffer becomes a single bucket.
- Render.DrawGrid: the release build's wrap of `x_divs + 1` or `y_divs + 1` at `u32::MAX`, which would make that loop empty, is not modelled. The model requires fewer than `u32::MAX` divisions.
- Lines.DrawWave: the `chunks_length - 2` subtraction is modelled as the debug build's panic, so the model requires that the count is not 1. The release build's wrap-around is not modelled.
- Lines.DrawWave: the colour scaling `(255·c·scale^(1/5)) as u8` is the opaque colour `Dimmed(color, scale)`. Real powers and the `u8` truncation are not modelled.
- Render.ScopeView.Draw: the `as u32` casts of the rectangle in `clear_rect` are not modelled. The clear carries the bounds themselves.
- Colours are kept as components in `[0, 1]`. `Color::hex` parsing is not modelled; the border colour is written out as its three components.
- The crate's doc example and its dependencies are not part of this model.
