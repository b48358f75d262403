/** The three kinds of line the scope view draws, and the path each one strokes: the
    threshold pair of `draw_horizontal`, the mean polyline of `draw_signal` and the
    min/max envelope of `draw_audio`. */
module Lines {
  import opened Shapes
  import opened RealArith
  import opened Reduce
  import opened Mapping

  /** A horizontal threshold drawn at `+constant` and `-constant`. */
  datatype ConstantLine = ConstantLine(constant: real, color: Color)

  /** A buffer drawn as one polyline through its bucket means, stroked `width` wide. */
  datatype SignalLine = SignalLine(samples: seq<real>, color: Color, width: real)

  /** A buffer drawn as a min/max envelope, one vertical mark per bucket. */
  datatype AudioLine = AudioLine(samples: seq<real>, color: Color)

  /** One line of the scope, tagged by the way it is drawn. */
  datatype ScopeLine =
    | Constant(constantLine: ConstantLine)
    | Signal(signalLine: SignalLine)
    | Audio(audioLine: AudioLine)

  // ---------------------------------------------------------------------------------
  // Constant line

  /** The threshold path of `draw_horizontal`: two horizontal strokes across the full
      width, mirror images of each other about the midline and `c·h` apart, the first one
      at `base_y + c·h/2`. Nothing is clamped, so a large constant leaves the rectangle. */
  function HorizontalPath(b: Bounds, c: real): (p: seq<PathOp>)
    ensures |p| == 4
    ensures p[0].MoveTo? && p[1].LineTo? && p[2].MoveTo? && p[3].LineTo?
    ensures p[0].p.x == p[2].p.x == b.x && p[1].p.x == p[3].p.x == b.x + b.w
    ensures p[0].p.y == p[1].p.y && p[2].p.y == p[3].p.y
    ensures (p[0].p.y + p[2].p.y) / 2.0 == b.y + b.h / 2.0
    ensures p[0].p.y - p[2].p.y == c * b.h
  {
    var ys := ConstantLevels(b, c);
    [MoveTo(Point(b.x, ys.0)), LineTo(Point(b.x + b.w, ys.0)),
     MoveTo(Point(b.x, ys.1)), LineTo(Point(b.x + b.w, ys.1))]
  }

  /** `draw_horizontal`: the threshold path, stroked in the line's colour at the
      library's default width. */
  function DrawHorizontal(b: Bounds, line: ConstantLine): (cmd: Command)
    ensures cmd.StrokePath? && cmd.path == HorizontalPath(b, line.constant)
    ensures cmd.paint.color == line.color && cmd.paint.lineWidth.None?
  {
    StrokePath(HorizontalPath(b, line.constant), Paint(line.color, None))
  }

  /** Negating the constant draws the same two strokes, in the other order. */
  lemma HorizontalNegated(b: Bounds, c: real)
    ensures HorizontalPath(b, -c) == HorizontalPath(b, c)[2..] + HorizontalPath(b, c)[..2]
  {
    NegatedOffset(c, b.h);
  }

  lemma NegatedOffset(c: real, h: real)
    ensures (-c) * h / 2.0 == -(c * h / 2.0)
  {
  }

  /** The constant 0.5 on a 100 × 100 rectangle at the origin: strokes at y = 75 and 25. */
  lemma HorizontalExample()
    ensures HorizontalPath(Bounds(0.0, 0.0, 100.0, 100.0), 0.5)
         == [MoveTo(Point(0.0, 75.0)), LineTo(Point(100.0, 75.0)),
             MoveTo(Point(0.0, 25.0)), LineTo(Point(100.0, 25.0))]
  {
  }

  // ---------------------------------------------------------------------------------
  // Signal line

  /** The first `k` points of the signal polyline, one per bucket (`SignalPointsAt`). */
  function SignalPoints(b: Bounds, buckets: seq<seq<real>>, k: nat): (ops: seq<PathOp>)
    requires k <= |buckets|
    requires forall i :: 0 <= i < |buckets| ==> buckets[i] != []
    ensures |ops| == k
  {
    if k == 0 then
      []
    else
      SignalPoints(b, buckets, k - 1)
        + [LineTo(Point(b.x + (k - 1) as real, SignalY(b, Mean(buckets[k - 1]))))]
  }

  /** Point `i` of the signal polyline is at column `x + i`, at the signal-line height of
      bucket `i`'s mean. */
  lemma {:induction false} SignalPointsAt(b: Bounds, buckets: seq<seq<real>>, k: nat)
    requires k <= |buckets|
    requires forall i :: 0 <= i < |buckets| ==> buckets[i] != []
    ensures forall i :: 0 <= i < k ==>
      SignalPoints(b, buckets, k)[i] == LineTo(Point(b.x + i as real, SignalY(b, Mean(buckets[i]))))
  {
    if k > 0 {
      SignalPointsAt(b, buckets, k - 1);
    }
  }

  /** The whole signal path: a start at the left end of the midline, then one point per
      bucket of `floor(len / w)` samples. */
  function SignalPath(b: Bounds, samples: seq<real>): (p: seq<PathOp>)
    requires b.w > 0.0 && |samples| as real >= b.w
    ensures |p| >= 2 && p[0] == MoveTo(Point(b.x, b.y + b.h / 2.0))
  {
    var buckets := Chunks(samples, BucketSize(|samples|, b.w));
    [MoveTo(Point(b.x, b.y + b.h / 2.0))] + SignalPoints(b, buckets, |buckets|)
  }

  /** `draw_signal`. A bucket size of zero would make `chunks` panic, hence at least as
      many samples as pixels. */
  method DrawSignal(b: Bounds, line: SignalLine) returns (cmd: Command)
    requires b.w > 0.0 && |line.samples| as real >= b.w
    ensures cmd == StrokePath(SignalPath(b, line.samples), Paint(line.color, Some(line.width)))
  {
    var bucketSize := BucketSize(|line.samples|, b.w);
    var buckets := Chunks(line.samples, bucketSize);
    var start := MoveTo(Point(b.x, b.y + b.h / 2.0));
    var path := [start];
    for x := 0 to |buckets|
      invariant path == [start] + SignalPoints(b, buckets, x)
    {
      var bucket := buckets[x];
      var bucketSum := Sum(bucket);
      var average := bucketSum / |bucket| as real;
      var clipped := Unit(average);
      var y := b.y + clipped * b.h / 2.0 + b.h / 2.0;
      path := path + [LineTo(Point(b.x + x as real, y))];
    }
    cmd := StrokePath(path, Paint(line.color, Some(line.width)));
  }

  /** The shape of the signal path: it starts on the midline at the left edge, has one
      point per bucket at column `x + i`, every point lies within the rectangle's vertical
      extent, and every point lies between the heights of its bucket's extrema. */
  lemma SignalPathShape(b: Bounds, samples: seq<real>)
    requires b.w > 0.0 && b.h >= 0.0 && |samples| as real >= b.w
    ensures var buckets := Chunks(samples, BucketSize(|samples|, b.w));
      var p := SignalPath(b, samples);
      && |p| == |buckets| + 1
      && p[0] == MoveTo(Point(b.x, b.y + b.h / 2.0))
      && forall i :: 0 <= i < |buckets| ==>
           && p[i + 1].LineTo?
           && p[i + 1].p.x == b.x + i as real
           && b.y <= p[i + 1].p.y <= b.y + b.h
           && SignalY(b, Extrema(buckets[i]).value.0) <= p[i + 1].p.y
           && p[i + 1].p.y <= SignalY(b, Extrema(buckets[i]).value.1)
  {
    var buckets := Chunks(samples, BucketSize(|samples|, b.w));
    var pts := SignalPoints(b, buckets, |buckets|);
    var p := SignalPath(b, samples);
    assert p == [MoveTo(Point(b.x, b.y + b.h / 2.0))] + pts;
    SignalPointsBetween(b, buckets);
    forall i | 0 <= i < |buckets|
      ensures p[i + 1] == pts[i]
    {
    }
  }

  /** Every point of the polyline through the means of `buckets`, in column `x + i`, lies
      inside the rectangle's height and between the heights of its bucket's extrema. */
  lemma SignalPointsBetween(b: Bounds, buckets: seq<seq<real>>)
    requires b.h >= 0.0
    requires forall i :: 0 <= i < |buckets| ==> buckets[i] != []
    ensures var pts := SignalPoints(b, buckets, |buckets|);
      forall i :: 0 <= i < |buckets| ==>
        && pts[i].LineTo?
        && pts[i].p.x == b.x + i as real
        && b.y <= pts[i].p.y <= b.y + b.h
        && SignalY(b, Extrema(buckets[i]).value.0) <= pts[i].p.y
        && pts[i].p.y <= SignalY(b, Extrema(buckets[i]).value.1)
  {
    var pts := SignalPoints(b, buckets, |buckets|);
    SignalPointsAt(b, buckets, |buckets|);
    forall i | 0 <= i < |buckets|
      ensures b.y <= pts[i].p.y <= b.y + b.h
      ensures SignalY(b, Extrema(buckets[i]).value.0) <= pts[i].p.y
      ensures pts[i].p.y <= SignalY(b, Extrema(buckets[i]).value.1)
    {
      SignalPointBetween(b, buckets[i]);
    }
  }

  /** One point of the signal path, at the height of its bucket's mean, lies inside the
      rectangle and between the heights of the bucket's extrema. */
  lemma SignalPointBetween(b: Bounds, bucket: seq<real>)
    requires b.h >= 0.0 && bucket != []
    ensures var y := SignalY(b, Mean(bucket));
      && b.y <= y <= b.y + b.h
      && SignalY(b, Extrema(bucket).value.0) <= y <= SignalY(b, Extrema(bucket).value.1)
  {
    var m := Mean(bucket);
    MeanWithinExtrema(bucket);
    var e := Extrema(bucket).value;
    SignalYMonotone(b, e.0, m);
    SignalYMonotone(b, m, e.1);
  }

  /** The signal path can leave the rectangle on the right: 150 samples on a rectangle
      100 pixels wide make buckets of one sample, so 150 points, the last at column
      `x + 149`. */
  lemma SignalPastRightEdge(b: Bounds, samples: seq<real>)
    requires |samples| == 150 && b.w == 100.0
    ensures BucketSize(|samples|, b.w) == 1
    ensures |SignalPath(b, samples)| == 151
    ensures SignalPath(b, samples)[150].p.x == b.x + 149.0 > b.x + b.w
  {
    ChunkCount(samples, 1);
  }

  // ---------------------------------------------------------------------------------
  // Audio line

  /** The mark of one bucket in column `x + i`: from the height of its minimum to the
      height of its maximum after the minimum-thickness bump, a vertical stroke. */
  function WaveColumn(b: Bounds, scale: real, bucket: seq<real>, i: nat): (col: seq<PathOp>)
    requires bucket != [] && b.h > 0.0
    ensures |col| == 2 && col[0].MoveTo? && col[1].LineTo?
    ensures col[0].p.x == col[1].p.x == b.x + i as real
  {
    var e := Extrema(bucket).value;
    var top := Bump(e.0, e.1, b.h);
    [MoveTo(Point(b.x + i as real, AudioY(b, scale, e.0))),
     LineTo(Point(b.x + i as real, AudioY(b, scale, top)))]
  }

  /** The marks of the first `k` buckets, in bucket order (`WaveOpsAt`). */
  function WaveOps(b: Bounds, scale: real, buckets: seq<seq<real>>, k: nat): (ops: seq<PathOp>)
    requires b.h > 0.0 && k <= |buckets|
    requires forall i :: 0 <= i < |buckets| ==> buckets[i] != []
    ensures |ops| == 2 * k
  {
    if k == 0 then [] else WaveOps(b, scale, buckets, k - 1) + WaveColumn(b, scale, buckets[k - 1], k - 1)
  }

  lemma WaveOpsStep(b: Bounds, scale: real, buckets: seq<seq<real>>, k: nat)
    requires b.h > 0.0 && k < |buckets|
    requires forall i :: 0 <= i < |buckets| ==> buckets[i] != []
    ensures WaveOps(b, scale, buckets, k + 1) == WaveOps(b, scale, buckets, k) + WaveColumn(b, scale, buckets[k], k)
  {
  }

  /** The marks form move/line pairs, pair `j` in column `x + j`. */
  lemma WaveOpsColumns(b: Bounds, scale: real, buckets: seq<seq<real>>, k: nat)
    requires b.h > 0.0 && k <= |buckets|
    requires forall i :: 0 <= i < |buckets| ==> buckets[i] != []
    ensures var p := WaveOps(b, scale, buckets, k);
      forall j :: 0 <= j < |p| / 2 ==>
        && p[2 * j].MoveTo? && p[2 * j + 1].LineTo?
        && p[2 * j].p.x == p[2 * j + 1].p.x == b.x + j as real
  {
    var p := WaveOps(b, scale, buckets, k);
    WaveOpsAt(b, scale, buckets, k);
    assert |p| / 2 == k;
    forall j | 0 <= j < k
      ensures p[2 * j].MoveTo? && p[2 * j + 1].LineTo?
      ensures p[2 * j].p.x == p[2 * j + 1].p.x == b.x + j as real
    {
      var col := WaveColumn(b, scale, buckets[j], j);
      assert p[2 * j] == col[0] && p[2 * j + 1] == col[1];
    }
  }

  /** Steps `2i` and `2i + 1` of the marks are the mark of bucket `i`. */
  lemma {:induction false} WaveOpsAt(b: Bounds, scale: real, buckets: seq<seq<real>>, k: nat)
    requires b.h > 0.0 && k <= |buckets|
    requires forall i :: 0 <= i < |buckets| ==> buckets[i] != []
    ensures var ops := WaveOps(b, scale, buckets, k);
      forall i :: 0 <= i < k ==>
        ops[2 * i] == WaveColumn(b, scale, buckets[i], i)[0]
        && ops[2 * i + 1] == WaveColumn(b, scale, buckets[i], i)[1]
  {
    if k > 0 {
      WaveOpsAt(b, scale, buckets, k - 1);
      var prev := WaveOps(b, scale, buckets, k - 1);
      var ops := WaveOps(b, scale, buckets, k);
      assert forall i :: 0 <= i < k - 1 ==> ops[2 * i] == prev[2 * i] && ops[2 * i + 1] == prev[2 * i + 1];
    }
  }

  /** How many of `n` buckets the audio loop draws: its counter reaches `n - 2` after
      `n - 2` marks when there are three buckets or more; with two it never equals
      `n - 2 = 0`, so both are drawn. */
  function Drawn(n: nat): (r: nat)
    ensures r <= n
    ensures r == n <==> n <= 2
    ensures n >= 3 ==> n - r == 2
  {
    if n <= 2 then n else n - 2
  }

  /** The path one pass of `draw_audio` strokes at the given scale. */
  function WavePath(b: Bounds, samples: seq<real>, scale: real): (p: seq<PathOp>)
    requires b.w > 0.0 && b.h > 0.0 && |samples| as real >= b.w
    ensures |p| % 2 == 0
    ensures forall j :: 0 <= j < |p| / 2 ==>
      && p[2 * j].MoveTo? && p[2 * j + 1].LineTo?
      && p[2 * j].p.x == p[2 * j + 1].p.x == b.x + j as real
  {
    var buckets := Chunks(samples, BucketSize(|samples|, b.w));
    WaveOpsColumns(b, scale, buckets, Drawn(|buckets|));
    WaveOps(b, scale, buckets, Drawn(|buckets|))
  }

  /** One pass of `draw_audio` as the stroke request it makes. */
  function WaveCommand(b: Bounds, line: AudioLine, scale: real): Command
    requires b.w > 0.0 && b.h > 0.0 && |line.samples| as real >= b.w
  {
    StrokePath(WavePath(b, line.samples, scale), Paint(Dimmed(line.color, scale), Some(2.0)))
  }

  /** The `draw_wave` closure of `draw_audio`: a loop over the buckets that emits one
      mark per bucket and breaks when its counter reaches `chunks_length - 2`. That
      subtraction is on `usize`, so a single bucket (the only case in which the loop body
      runs with fewer than two) would underflow. */
  method DrawWave(b: Bounds, samples: seq<real>, bucketSize: nat, scale: real, color: Color)
    returns (cmd: Command)
    requires bucketSize >= 1 && b.h > 0.0
    requires |Chunks(samples, bucketSize)| != 1
    ensures var chunks := Chunks(samples, bucketSize);
      cmd == StrokePath(WaveOps(b, scale, chunks, Drawn(|chunks|)), Paint(Dimmed(color, scale), Some(2.0)))
  {
    var path := [];
    var chunks := Chunks(samples, bucketSize);
    var chunksLength := |chunks|;
    var column := 0;
    for k := 0 to chunksLength
      invariant column == k
      invariant path == WaveOps(b, scale, chunks, k)
      invariant chunksLength >= 3 ==> k < chunksLength - 2
    {
      var bucket := chunks[k];
      var extrema := Extrema(bucket);
      // the `expect`: no bucket is empty, so the fold always finds both extrema
      assert extrema.Some?;
      var (lo, hi) := extrema.value;
      var top := Bump(lo, hi, b.h);
      var mark := [MoveTo(Point(b.x + column as real, AudioY(b, scale, lo))),
                   LineTo(Point(b.x + column as real, AudioY(b, scale, top)))];
      assert mark == WaveColumn(b, scale, bucket, k);
      WaveOpsStep(b, scale, chunks, k);
      path := path + mark;
      column := column + 1;
      // `chunks_length - 2` does not underflow
      assert chunksLength >= 2;
      if column == chunksLength - 2 {
        break;
      }
    }
    cmd := StrokePath(path, Paint(Dimmed(color, scale), Some(2.0)));
  }

  /** `draw_audio`: the same wave twice, at full scale and then at half scale, each in
      the line's colour dimmed by its scale and two pixels wide. Besides the bucket size
      of at least one that `chunks` needs, the loop needs two buckets or more, which holds
      exactly when the rectangle is wider than one pixel (`SeveralBuckets`). */
  method DrawAudio(b: Bounds, line: AudioLine) returns (cmds: seq<Command>)
    requires b.h > 0.0 && b.w > 1.0 && |line.samples| as real >= b.w
    ensures cmds == [WaveCommand(b, line, 1.0), WaveCommand(b, line, 0.5)]
  {
    var bucketSize := BucketSize(|line.samples|, b.w);
    SeveralBuckets(line.samples, b.w);
    var full := DrawWave(b, line.samples, bucketSize, 1.0, line.color);
    var half := DrawWave(b, line.samples, bucketSize, 0.5, line.color);
    cmds := [full, half];
  }

  /** The number of marks a pass draws: all buckets but the last two when there are at
      least three, both when there are two. */
  lemma WaveMarkCount(b: Bounds, samples: seq<real>, scale: real)
    requires b.w > 0.0 && b.h > 0.0 && |samples| as real >= b.w
    ensures var n := |Chunks(samples, BucketSize(|samples|, b.w))|;
      && (n >= 3 ==> |WavePath(b, samples, scale)| == 2 * (n - 2))
      && (n == 2 ==> |WavePath(b, samples, scale)| == 4)
  {
  }

  /** `g` is the point `f` drawn at half scale: the same kind of step in the same
      column, halfway between the midline `mid` and `f`. */
  ghost predicate Halfway(mid: real, f: PathOp, g: PathOp)
  {
    && (f.MoveTo? || f.LineTo?)
    && (g.MoveTo? || g.LineTo?)
    && f.MoveTo? == g.MoveTo?
    && f.p.x == g.p.x
    && g.p.y - mid == (f.p.y - mid) / 2.0
  }

  /** The two passes draw their marks in the same columns, and every point of the
      half-scale pass lies halfway between the midline and the full-scale point. */
  lemma WavePassesAligned(b: Bounds, samples: seq<real>)
    requires b.w > 0.0 && b.h > 0.0 && |samples| as real >= b.w
    ensures var full := WavePath(b, samples, 1.0);
      var half := WavePath(b, samples, 0.5);
      && |full| == |half|
      && forall k :: 0 <= k < |full| ==> Halfway(b.y + b.h / 2.0, full[k], half[k])
  {
    var buckets := Chunks(samples, BucketSize(|samples|, b.w));
    var k := Drawn(|buckets|);
    WaveOpsAligned(b, buckets, k);
    assert WavePath(b, samples, 1.0) == WaveOps(b, 1.0, buckets, k);
    assert WavePath(b, samples, 0.5) == WaveOps(b, 0.5, buckets, k);
  }

  lemma WaveOpsAligned(b: Bounds, buckets: seq<seq<real>>, k: nat)
    requires b.h > 0.0 && k <= |buckets|
    requires forall i :: 0 <= i < |buckets| ==> buckets[i] != []
    ensures var full := WaveOps(b, 1.0, buckets, k);
      var half := WaveOps(b, 0.5, buckets, k);
      forall j :: 0 <= j < 2 * k ==> Halfway(b.y + b.h / 2.0, full[j], half[j])
  {
    var full := WaveOps(b, 1.0, buckets, k);
    var half := WaveOps(b, 0.5, buckets, k);
    WaveOpsAt(b, 1.0, buckets, k);
    WaveOpsAt(b, 0.5, buckets, k);
    forall j | 0 <= j < 2 * k
      ensures Halfway(b.y + b.h / 2.0, full[j], half[j])
    {
      var i := j / 2;
      ColumnHalfway(b, buckets[i], i);
      if j % 2 == 0 {
        assert j == 2 * i;
      } else {
        assert j == 2 * i + 1;
      }
    }
  }

  lemma ColumnHalfway(b: Bounds, bucket: seq<real>, i: nat)
    requires bucket != [] && b.h > 0.0
    ensures var full := WaveColumn(b, 1.0, bucket, i);
      var half := WaveColumn(b, 0.5, bucket, i);
      Halfway(b.y + b.h / 2.0, full[0], half[0]) && Halfway(b.y + b.h / 2.0, full[1], half[1])
  {
    var e := Extrema(bucket).value;
    AudioYHalfScale(b, e.0);
    AudioYHalfScale(b, Bump(e.0, e.1, b.h));
  }

  /** A mark is a vertical stroke drawn upwards, from the minimum's height to the bumped
      maximum's, inside the band `scale·h/2` around the midline; for a scale of at most
      one that band lies inside the rectangle. */
  lemma WaveColumnInside(b: Bounds, scale: real, bucket: seq<real>, i: nat)
    requires bucket != [] && b.h > 0.0 && 0.0 <= scale
    ensures var col := WaveColumn(b, scale, bucket, i);
      && col[1].p.y <= col[0].p.y
      && b.y + b.h / 2.0 - scale * b.h / 2.0 <= col[1].p.y
      && col[0].p.y <= b.y + b.h / 2.0 + scale * b.h / 2.0
      && (scale <= 1.0 ==> b.y <= col[1].p.y && col[0].p.y <= b.y + b.h)
  {
    var e := Extrema(bucket).value;
    var top := Bump(e.0, e.1, b.h);
    BumpSpec(e.0, e.1, b.h);
    AudioYAntitone(b, scale, e.0, top);
    AudioYRange(b, scale, e.0);
    AudioYRange(b, scale, top);
  }

  /** The minimum thickness the bump buys: while the bumped maximum stays within the
      clamp range, a mark is at least `scale` pixels tall, so at least one pixel at full
      scale however flat the bucket; a mark the bump raised is at least `2·scale` pixels
      tall. */
  lemma WaveColumnThickness(b: Bounds, scale: real, bucket: seq<real>, i: nat)
    requires bucket != [] && b.h > 0.0 && 0.0 <= scale
    requires -1.0 <= Extrema(bucket).value.0
    requires Bump(Extrema(bucket).value.0, Extrema(bucket).value.1, b.h) <= 1.0
    ensures var col := WaveColumn(b, scale, bucket, i);
      col[0].p.y - col[1].p.y >= scale
    ensures var e := Extrema(bucket).value;
      var col := WaveColumn(b, scale, bucket, i);
      Bump(e.0, e.1, b.h) != e.1 ==> col[0].p.y - col[1].p.y >= 2.0 * scale
  {
    var e := Extrema(bucket).value;
    var top := Bump(e.0, e.1, b.h);
    BumpSpec(e.0, e.1, b.h);
    MarkThickness(b, scale, e.0, top, 1.0);
    if top != e.1 {
      MarkThickness(b, scale, e.0, top, 2.0);
    }
  }

  /** A mark whose amplitude extent is at least `px` full-scale pixels' worth
      (`2·px / h`) is at least `px·scale` pixels tall. */
  lemma MarkThickness(b: Bounds, scale: real, lo: real, top: real, px: real)
    requires b.h > 0.0 && 0.0 <= scale && 0.0 <= px
    requires -1.0 <= lo <= top <= 1.0 && top - lo >= 2.0 * px / b.h
    ensures AudioY(b, scale, lo) - AudioY(b, scale, top) >= px * scale
  {
    UnitInRange(lo);
    UnitInRange(top);
    assert AudioY(b, scale, lo) == AudioLevel(b.y, b.h, scale, lo);
    assert AudioY(b, scale, top) == AudioLevel(b.y, b.h, scale, top);
    LevelThickness(b.y, b.h, scale, lo, top, px);
  }

  lemma LevelThickness(y0: real, h: real, scale: real, lo: real, top: real, px: real)
    requires h > 0.0 && 0.0 <= scale && 0.0 <= px && top - lo >= 2.0 * px / h
    ensures AudioLevel(y0, h, scale, lo) - AudioLevel(y0, h, scale, top) >= px * scale
  {
    var d := top - lo;
    assert AudioLevel(y0, h, scale, lo) - AudioLevel(y0, h, scale, top) == scale * d * h / 2.0;
    SpanAtLeast(scale, d, h, px);
  }

  /** `scale·d·h/2 >= px·scale` once `d >= 2·px/h`. */
  lemma SpanAtLeast(scale: real, d: real, h: real, px: real)
    requires h > 0.0 && scale >= 0.0 && px >= 0.0 && d >= 2.0 * px / h
    ensures scale * d * h / 2.0 >= px * scale
  {
    var unit := 2.0 * px / h;
    MulLe(unit, d, h);
    assert unit * h == 2.0 * px;
    var dh := d * h;
    MulLe(2.0 * px, dh, scale);
    assert scale * d * h == dh * scale;
    assert (2.0 * px) * scale == 2.0 * (px * scale);
  }

  /** The bump is clamped away at full amplitude: a bucket flat at `+1` is drawn with no
      height at all. */
  lemma FlatAtCeiling(b: Bounds, scale: real, bucket: seq<real>, i: nat)
    requires b.h > 0.0 && bucket != []
    requires forall k :: 0 <= k < |bucket| ==> bucket[k] == 1.0
    ensures var col := WaveColumn(b, scale, bucket, i);
      col[0].p == col[1].p
  {
    assert bucket[0] == 1.0;
    assert Extrema(bucket).value == (1.0, 1.0);
    var top := Bump(1.0, 1.0, b.h);
    assert top > 1.0;
    UnitInRange(1.0);
  }

  /** A bucket spanning the full amplitude range is drawn, at full scale, as a mark from
      the bottom edge to the top edge: on a rectangle under one pixel tall the bump lifts
      the maximum above `+1`, and the clamp brings it back. */
  lemma FullRangeColumn(b: Bounds, bucket: seq<real>, i: nat)
    requires bucket != [] && b.h > 0.0
    requires Extrema(bucket) == Some((-1.0, 1.0))
    ensures WaveColumn(b, 1.0, bucket, i)
         == [MoveTo(Point(b.x + i as real, b.y + b.h)), LineTo(Point(b.x + i as real, b.y))]
  {
    UnitInRange(-1.0);
  }

  /** 1000 samples on a rectangle 100 pixels wide: buckets of 10 samples, 100 of them, of
      which the loop draws 98 marks per pass. */
  lemma AudioExampleCount(samples: seq<real>, b: Bounds)
    requires |samples| == 1000 && b.w == 100.0 && b.h > 0.0
    ensures BucketSize(|samples|, b.w) == 10
    ensures |Chunks(samples, 10)| == 100
    ensures |WavePath(b, samples, 1.0)| == 2 * 98
  {
    ChunkCount(samples, 10);
  }
}
