/** The bucket reducer: how a sample buffer is cut into one bucket per pixel column and
    how each bucket is reduced, to its mean (signal lines) or to its extrema (audio lines). */
module Reduce {
  import opened Shapes
  import opened RealArith
  import opened Sequences

  /** `(len as f32 / w) as usize`: samples per bucket, the truncating cast taken as the
      floor of the real quotient. It is at least one exactly when there are at least as
      many samples as pixels, which is what `chunks` needs. */
  function BucketSize(len: nat, w: real): (b: nat)
    requires w > 0.0
    ensures b as real * w <= len as real < (b as real + 1.0) * w
    ensures b >= 1 <==> len as real >= w
  {
    var q := len as real / w;
    var f := q.Floor;
    ScaledBounds(q, w, len as real, f as real);
    if f >= 1 then
      MulLe(1.0, f as real, w);
      f
    else
      f
  }

  lemma ScaledBounds(q: real, w: real, n: real, b: real)
    requires w > 0.0 && q * w == n && b <= q < b + 1.0
    ensures b * w <= n < (b + 1.0) * w
  {
    MulLeNamed(b, q, w, n);
    MulLtNamed(q, b + 1.0, w, n);
  }

  /** `s.chunks(b)`: consecutive buckets of at most `b` samples, none of them empty,
      all of exactly `b` samples except possibly the last. */
  function Chunks(s: seq<real>, b: nat): (r: seq<seq<real>>)
    requires b >= 1
    ensures |r| == 0 <==> |s| == 0
    ensures forall i :: 0 <= i < |r| ==> 0 < |r[i]| <= b
    ensures forall i :: 0 <= i < |r| - 1 ==> |r[i]| == b
    decreases |s|
  {
    if |s| == 0 then
      []
    else if |s| <= b then
      [s]
    else
      [s[..b]] + Chunks(s[b..], b)
  }

  /** The number of buckets is the ceiling of `|s| / b`. */
  lemma {:induction false} ChunkCount(s: seq<real>, b: nat)
    requires b >= 1
    ensures (|Chunks(s, b)| - 1) * b < |s| <= |Chunks(s, b)| * b
    decreases |s|
  {
    if |s| > b {
      var c := |Chunks(s[b..], b)|;
      ChunkCount(s[b..], b);
      assert |Chunks(s, b)| == c + 1;
      assert (c + 1) * b == c * b + b;
    }
  }

  /** Chunking loses, duplicates and reorders nothing. */
  lemma {:induction false} ChunksFlatten(s: seq<real>, b: nat)
    requires b >= 1
    ensures Flatten(Chunks(s, b)) == s
    decreases |s|
  {
    if |s| == 0 {
    } else if |s| <= b {
      assert Flatten([s]) == s + Flatten([]);
    } else {
      ChunksFlatten(s[b..], b);
      var r := Chunks(s, b);
      assert r[1..] == Chunks(s[b..], b);
      assert s == s[..b] + s[b..];
    }
  }

  /** Bucket `i` is the contiguous slice of samples starting at `i * b`. */
  lemma {:induction false} ChunkAt(s: seq<real>, b: nat, i: nat)
    requires b >= 1 && i < |Chunks(s, b)|
    ensures i * b < |s|
    ensures Chunks(s, b)[i] == s[i * b .. if i * b + b <= |s| then i * b + b else |s|]
    decreases i
  {
    if i == 0 {
      assert Chunks(s, b)[0] == if |s| <= b then s else s[..b];
    } else {
      var tail := s[b..];
      assert Chunks(s, b)[i] == Chunks(tail, b)[i - 1] by {
        assert |s| > b;
        assert Chunks(s, b) == [s[..b]] + Chunks(tail, b);
      }
      ChunkAt(tail, b, i - 1);
      var k := (i - 1) * b;
      assert i * b == k + b;
      ShiftedSlice(s, b, k, i * b);
    }
  }

  lemma ShiftedSlice(s: seq<real>, b: nat, k: nat, m: nat)
    requires b <= |s| && m == k + b && k < |s| - b
    ensures s[b..][k .. if k + b <= |s| - b then k + b else |s| - b]
         == s[m .. if m + b <= |s| then m + b else |s|]
  {
  }

  /** `Iterator::sum` over a bucket (real addition is associative, so the order of the
      source's left fold does not matter here). */
  function Sum(s: seq<real>): real
  {
    if s == [] then 0.0 else s[0] + Sum(s[1..])
  }

  /** The bucket average of `draw_signal`: the bucket's sum over its length. A bucket
      of one sample averages to that sample; `MeanWithin` bounds the general case. */
  function Mean(s: seq<real>): (m: real)
    requires s != []
    ensures |s| == 1 ==> m == s[0]
  {
    assert |s| == 1 ==> s[1..] == [] && Sum(s) == s[0] && |s| as real == 1.0;
    Sum(s) / |s| as real
  }

  lemma {:induction false} SumAppend(a: seq<real>, c: seq<real>)
    ensures Sum(a + c) == Sum(a) + Sum(c)
    decreases |a|
  {
    if a == [] {
      assert a + c == c;
    } else {
      assert (a + c)[0] == a[0];
      assert (a + c)[1..] == a[1..] + c;
      SumAppend(a[1..], c);
    }
  }

  /** Removing sample `j` from a bucket removes exactly its value from the sum. */
  lemma SumRemove(t: seq<real>, j: nat)
    requires j < |t|
    ensures Sum(t) == t[j] + Sum(t[..j] + t[j + 1..])
  {
    var pre, x, post := t[..j], t[j], t[j + 1..];
    var mid := [x] + post;
    assert t == pre + mid;
    SumAppend(pre, mid);
    assert mid[0] == x && mid[1..] == post;
    assert Sum(mid) == x + Sum(post);
    SumAppend(pre, post);
  }

  lemma MultisetRemove(t: seq<real>, j: nat)
    requires j < |t|
    ensures multiset(t[..j] + t[j + 1..]) == multiset(t) - multiset{t[j]}
  {
    assert t == t[..j] + [t[j]] + t[j + 1..];
  }

  /** Where the first sample of `s` sits in a rearrangement `t` of it, and what is left
      of the two once it is taken out. */
  lemma MatchFirst(s: seq<real>, t: seq<real>) returns (j: nat)
    requires s != [] && multiset(s) == multiset(t)
    ensures j < |t| && t[j] == s[0]
    ensures multiset(s[1..]) == multiset(t[..j] + t[j + 1..])
  {
    j := IndexOf(t, s[0]);
    MultisetRemove(t, j);
    assert s == [s[0]] + s[1..];
    assert multiset(s[1..]) == multiset(s) - multiset{s[0]};
  }

  /** A value counted in the multiset of a sequence occurs at some index of it. */
  lemma IndexOf(t: seq<real>, x: real) returns (j: nat)
    requires x in multiset(t)
    ensures j < |t| && t[j] == x
  {
    assert x in t;
    j :| 0 <= j < |t| && t[j] == x;
  }

  /** The sum depends only on which samples are in the bucket, not on their order. */
  lemma {:induction false} SumPermutation(s: seq<real>, t: seq<real>)
    requires multiset(s) == multiset(t)
    ensures Sum(s) == Sum(t)
    decreases |s|
  {
    if s != [] {
      var j := MatchFirst(s, t);
      SumPermutation(s[1..], t[..j] + t[j + 1..]);
      SumRemove(t, j);
    }
  }

  /** The bucket average does not depend on the order of the samples in the bucket. */
  lemma MeanPermutation(s: seq<real>, t: seq<real>)
    requires s != [] && multiset(s) == multiset(t)
    ensures t != [] && Mean(s) == Mean(t)
  {
    assert |t| == |multiset(t)| == |multiset(s)| == |s|;
    SumPermutation(s, t);
  }

  lemma {:induction false} SumBounds(s: seq<real>, lo: real, hi: real)
    requires forall k :: 0 <= k < |s| ==> lo <= s[k] <= hi
    ensures |s| as real * lo <= Sum(s) <= |s| as real * hi
    decreases |s|
  {
    if s != [] {
      SumBounds(s[1..], lo, hi);
    }
  }

  /** The average lies within any bounds that hold of every sample of the bucket. */
  lemma MeanWithin(s: seq<real>, lo: real, hi: real)
    requires s != []
    requires forall k :: 0 <= k < |s| ==> lo <= s[k] <= hi
    ensures lo <= Mean(s) <= hi
  {
    SumBounds(s, lo, hi);
    QuotientWithin(Sum(s), |s| as real, lo, hi);
  }

  /** A total between `n·lo` and `n·hi` averages to a value between `lo` and `hi`. */
  lemma QuotientWithin(t: real, n: real, lo: real, hi: real)
    requires n > 0.0 && n * lo <= t <= n * hi
    ensures lo <= t / n <= hi
  {
    var q := t / n;
    assert q * n == t;
    assert n * lo == lo * n && n * hi == hi * n;
    MulLeCancel(lo, q, n);
    MulLeCancel(q, hi, n);
  }

  /** `f32::min` and `f32::max` on samples that are not NaN. */
  function MinF(a: real, x: real): real { if x < a then x else a }
  function MaxF(a: real, x: real): real { if x > a then x else a }

  /** One step of the extrema `fold` in `draw_audio`. */
  function ExtremaStep(acc: Option<(real, real)>, x: real): Option<(real, real)>
  {
    match acc
    case Some((lo, hi)) => Some((MinF(lo, x), MaxF(hi, x)))
    case None => Some((x, x))
  }

  /** The extrema `fold`, continued from accumulator `acc` over the samples `s`. */
  function FoldExtrema(acc: Option<(real, real)>, s: seq<real>): (r: Option<(real, real)>)
    ensures r.None? <==> acc.None? && s == []
    ensures r.Some? ==> forall k :: 0 <= k < |s| ==> r.value.0 <= s[k] <= r.value.1
    ensures acc.Some? ==> r.Some? && r.value.0 <= acc.value.0 && acc.value.1 <= r.value.1
    ensures r.Some? ==> r.value.0 in s || (acc.Some? && r.value.0 == acc.value.0)
    ensures r.Some? ==> r.value.1 in s || (acc.Some? && r.value.1 == acc.value.1)
    decreases |s|
  {
    if s == [] then acc else FoldExtrema(ExtremaStep(acc, s[0]), s[1..])
  }

  /** `bucket.iter().fold(None, ...)`: the exact minimum and maximum of a non-empty
      bucket, both of which are samples of it; `None` only for an empty one, so the
      `expect` that follows never fires on a bucket produced by `Chunks`. */
  function Extrema(s: seq<real>): (r: Option<(real, real)>)
    ensures r.Some? <==> s != []
    ensures r.Some? ==> forall k :: 0 <= k < |s| ==> r.value.0 <= s[k] <= r.value.1
    ensures r.Some? ==> r.value.0 in s && r.value.1 in s
  {
    FoldExtrema(None, s)
  }

  /** The mean of a bucket lies between the bucket's extrema. */
  lemma MeanWithinExtrema(s: seq<real>)
    requires s != []
    ensures Extrema(s).Some?
    ensures Extrema(s).value.0 <= Mean(s) <= Extrema(s).value.1
  {
    var e := Extrema(s).value;
    MeanWithin(s, e.0, e.1);
  }

  /** The minimum-thickness bump of `draw_audio`. The audio line maps amplitude to pixels
      at `scale·h/2`, so at full scale `2 / h` of amplitude is one pixel: a bucket whose
      extent is under one pixel's worth has its maximum raised by two pixels' worth
      (`4 / h`). The maximum is never lowered, and is raised by exactly that or not at
      all (`BumpSpec` says when). */
  function Bump(lo: real, hi: real, h: real): (top: real)
    requires h > 0.0
    ensures top >= hi
    ensures top == hi || top - hi == 4.0 / h
  {
    if hi - lo < 2.0 / h then hi + 4.0 / h else hi
  }

  /** The bump raises the maximum if and only if the extent is under one full-scale
      pixel's worth of amplitude (`2 / h`); afterwards the extent is at least that (at
      least two pixels' worth, `4 / h`, when raised). */
  lemma BumpSpec(lo: real, hi: real, h: real)
    requires h > 0.0
    ensures Bump(lo, hi, h) != hi <==> hi - lo < 2.0 / h
    ensures lo <= hi ==> Bump(lo, hi, h) - lo >= 2.0 / h
    ensures lo <= hi && Bump(lo, hi, h) != hi ==> Bump(lo, hi, h) - lo >= 4.0 / h
  {
  }

  /** Bounds on the number of buckets: never fewer than the width in pixels and always
      fewer than twice the width plus one. */
  lemma BucketCountBounds(s: seq<real>, w: real)
    requires w > 0.0 && |s| as real >= w
    ensures w <= |Chunks(s, BucketSize(|s|, w))| as real < 2.0 * w + 1.0
  {
    BucketCountFor(s, w, BucketSize(|s|, w));
  }

  lemma BucketCountFor(s: seq<real>, w: real, b: nat)
    requires w > 0.0 && b >= 1
    requires b as real * w <= |s| as real < (b as real + 1.0) * w
    ensures w <= |Chunks(s, b)| as real < 2.0 * w + 1.0
  {
    ChunkCount(s, b);
    CountBetweenNat(|s|, w, b, |Chunks(s, b)|);
  }

  /** The audio loop's `chunks_length - 2` needs at least two buckets. With at least as
      many samples as pixels, there are two or more exactly when the rectangle is wider
      than one pixel; otherwise the bucket holds the whole buffer. */
  lemma SeveralBuckets(s: seq<real>, w: real)
    requires w > 0.0 && |s| as real >= w
    ensures |Chunks(s, BucketSize(|s|, w))| >= 2 <==> w > 1.0
  {
    SeveralBucketsFor(s, w, BucketSize(|s|, w));
  }

  lemma SeveralBucketsFor(s: seq<real>, w: real, b: nat)
    requires w > 0.0 && b >= 1 && |s| as real >= w
    requires b as real * w <= |s| as real < (b as real + 1.0) * w
    ensures |Chunks(s, b)| >= 2 <==> w > 1.0
  {
    var bb := b as real;
    if w > 1.0 {
      BelowScaled(bb, w, |s| as real);
      assert |s| > b;
      assert Chunks(s, b) == [s[..b]] + Chunks(s[b..], b);
    } else {
      AboveScaled(bb + 1.0, w, |s| as real);
      assert |s| <= b;
    }
  }

  /** `CountBetween` for the natural numbers of `BucketCountBounds`. */
  lemma CountBetweenNat(n: nat, w: real, b: nat, c: nat)
    requires w > 0.0 && b >= 1
    requires b as real * w <= n as real < (b as real + 1.0) * w
    requires (c - 1) * b < n <= c * b
    ensures w <= c as real < 2.0 * w + 1.0
  {
    CastMul(c - 1, b);
    CastMul(c, b);
    CountBetween(n as real, w, b as real, c as real);
  }

  /** The real arithmetic of `BucketCountBounds`: `b = floor(n / w)` and `c = ceil(n / b)`. */
  lemma CountBetween(n: real, w: real, b: real, c: real)
    requires w > 0.0 && b >= 1.0
    requires b * w <= n < (b + 1.0) * w
    requires (c - 1.0) * b < n <= c * b
    ensures w <= c < 2.0 * w + 1.0
  {
    assert b * w == w * b;
    assert w * b <= c * b;
    MulLeCancel(w, c, b);
    MulLe(b + 1.0, 2.0 * b, w);
    var lhs, mid, top := (c - 1.0) * b, (b + 1.0) * w, (2.0 * w) * b;
    assert (2.0 * b) * w == top;
    assert mid <= top;
    assert lhs < mid;
    assert lhs < top;
    MulLtCancel(c - 1.0, 2.0 * w, b);
  }
}
