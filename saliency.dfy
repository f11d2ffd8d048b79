/**
 * The motion gate (`detect_saliency` and the `saliency > threshold`
 * comparison): the mean, over every sample, of the difference between a
 * sub-view and the previous frame resized to it. Both are uint8 arrays, so
 * the subtraction wraps modulo 256 and `np.abs` leaves it as it is.
 */
module Saliency {
  import opened Wrappers
  import opened Frames

  /** The run's threshold, drawn once from [120, 140] and never changed. */
  type Threshold = t: int | 120 <= t <= 140 witness 120

  /** `np.abs(a - b)` on uint8 samples. */
  function WrappedDiff(a: byte, b: byte): (d: byte)
    ensures a >= b ==> d as int == a as int - b as int
    ensures a < b ==> d as int == 256 - (b as int - a as int)
  {
    ((a as int - b as int) % 256) as byte
  }

  /** The sum of the wrapped differences of two equally long sample sequences. */
  function WrappedSum(xs: seq<byte>, ys: seq<byte>): (s: nat)
    requires |xs| == |ys|
    ensures s <= 255 * |xs|
  {
    if xs == [] then 0 else WrappedDiff(xs[0], ys[0]) as nat + WrappedSum(xs[1..], ys[1..])
  }

  /** `cv2.resize(img, (w, h))`: a routine outside the model, known only by the shape it returns. */
  type Resizer = (Image, nat, nat) -> Image

  ghost predicate KeepsShape(resize: Resizer) {
    forall img: Image, w: nat, h: nat ::
      img.Valid() ==>
        && resize(img, w, h).Valid()
        && resize(img, w, h).width == w
        && resize(img, w, h).height == h
        && resize(img, w, h).channels == img.channels
  }

  /** `cv2.resize` refuses a destination size with a zero side. */
  datatype SaliencyError = EmptyResizeTarget

  /**
   * `detect_saliency(cur, prev)`. No previous frame, or an empty one, gives 0;
   * otherwise the previous frame is resized to the current one and the mean
   * wrapped difference is returned.
   */
  function DetectSaliency(cur: Image, prev: Option<Image>, resize: Resizer): (r: Result<real, SaliencyError>)
    requires cur.Valid() && KeepsShape(resize)
    requires prev.Some? ==> prev.value.Valid() && prev.value.channels == cur.channels
    ensures prev.None? || prev.value.Size() == 0 ==> r == Ok(0.0)
    ensures r.Err? <==> prev.Some? && prev.value.Size() > 0 && (cur.height == 0 || cur.width == 0)
    ensures r.Ok? ==> 0.0 <= r.value <= 255.0
  {
    if prev.None? || prev.value.Size() == 0 then Ok(0.0)
    else if cur.height == 0 || cur.width == 0 then Err(EmptyResizeTarget)
    else
      var resized := resize(prev.value, cur.width, cur.height);
      SamplesLength(cur);
      SamplesLength(resized);
      PositiveSize(prev.value, cur);
      var sum := WrappedSum(Samples(cur.rows), Samples(resized.rows));
      MeanBounded(sum, |Samples(cur.rows)|);
      Ok(sum as real / |Samples(cur.rows)| as real)
  }

  /**
   * With a usable previous frame and a non-empty sub-view, the saliency is
   * the mean, over all `size` samples, of the wrapped differences between
   * the sub-view and the resized previous frame.
   */
  lemma SaliencyIsMean(cur: Image, prev: Image, resize: Resizer)
    requires cur.Valid() && KeepsShape(resize)
    requires prev.Valid() && prev.channels == cur.channels && prev.Size() > 0
    requires cur.height > 0 && cur.width > 0
    ensures cur.Size() > 0 && |Samples(cur.rows)| == |Samples(resize(prev, cur.width, cur.height).rows)|
    ensures DetectSaliency(cur, Some(prev), resize) ==
      Ok(WrappedSum(Samples(cur.rows), Samples(resize(prev, cur.width, cur.height).rows)) as real / cur.Size() as real)
  {
    SamplesLength(cur);
    SamplesLength(resize(prev, cur.width, cur.height));
    PositiveSize(prev, cur);
  }

  lemma PositiveSize(prev: Image, cur: Image)
    requires prev.Size() > 0 && prev.channels == cur.channels && cur.height > 0 && cur.width > 0
    ensures cur.Size() > 0
  {
    assert prev.channels > 0;
    assert cur.height * cur.width > 0;
  }

  lemma MeanBounded(sum: nat, n: nat)
    requires n > 0 && sum <= 255 * n
    ensures 0.0 <= sum as real / n as real <= 255.0
  {
    assert sum as real <= 255.0 * n as real;
  }

  /** `saliency > threshold`. */
  predicate Gate(s: Result<real, SaliencyError>, threshold: Threshold) {
    s.Ok? && s.value > threshold as real
  }

  /** A perspective with no usable previous frame is never gated, whatever the threshold. */
  lemma ColdStartNeverGates(cur: Image, prev: Option<Image>, resize: Resizer, threshold: Threshold)
    requires cur.Valid() && KeepsShape(resize)
    requires prev.Some? ==> prev.value.Valid() && prev.value.channels == cur.channels
    requires prev.None? || prev.value.Size() == 0
    ensures !Gate(DetectSaliency(cur, prev, resize), threshold)
  {
  }

  /**
   * With a usable previous frame and a non-empty sub-view, the gate fires
   * exactly when the wrapped differences add up to more than threshold times
   * the number of samples.
   */
  lemma GateIffSumExceeds(cur: Image, prev: Image, resize: Resizer, threshold: Threshold)
    requires cur.Valid() && KeepsShape(resize)
    requires prev.Valid() && prev.channels == cur.channels && prev.Size() > 0
    requires cur.height > 0 && cur.width > 0
    ensures |Samples(cur.rows)| == |Samples(resize(prev, cur.width, cur.height).rows)| == cur.Size() > 0
    ensures Gate(DetectSaliency(cur, Some(prev), resize), threshold) <==>
      WrappedSum(Samples(cur.rows), Samples(resize(prev, cur.width, cur.height).rows)) > threshold * cur.Size()
  {
    var resized := resize(prev, cur.width, cur.height);
    SamplesLength(cur);
    SamplesLength(resized);
    PositiveSize(prev, cur);
    MeanExceeds(WrappedSum(Samples(cur.rows), Samples(resized.rows)), cur.Size(), threshold);
  }

  lemma MeanExceeds(sum: nat, n: nat, t: int)
    requires n > 0
    ensures sum as real / n as real > t as real <==> sum > t * n
  {
    var mean := sum as real / n as real;
    assert mean * n as real == sum as real;
    if mean > t as real {
      assert mean * n as real > t as real * n as real;
    } else {
      assert mean * n as real <= t as real * n as real;
    }
  }

  lemma {:induction false} WrappedSumSame(xs: seq<byte>)
    ensures WrappedSum(xs, xs) == 0
  {
    if xs != [] {
      WrappedSumSame(xs[1..]);
    }
  }

  /** A sub-view equal to the resized previous frame has saliency 0 and is not gated. */
  lemma StillSceneNeverGates(cur: Image, prev: Image, resize: Resizer, threshold: Threshold)
    requires cur.Valid() && KeepsShape(resize)
    requires prev.Valid() && prev.channels == cur.channels
    requires resize(prev, cur.width, cur.height).rows == cur.rows
    ensures !Gate(DetectSaliency(cur, Some(prev), resize), threshold)
  {
    WrappedSumSame(Samples(cur.rows));
  }

  lemma {:induction false} WrappedSumOneBelow(xs: seq<byte>, ys: seq<byte>)
    requires |xs| == |ys|
    requires forall k | 0 <= k < |xs| :: ys[k] as int == xs[k] as int + 1
    ensures WrappedSum(xs, ys) == 255 * |xs|
  {
    if xs != [] {
      WrappedSumOneBelow(xs[1..], ys[1..]);
    }
  }

  /**
   * The wrap-around at work: a sub-view one level darker than the resized
   * previous frame in every sample has saliency 255, not 1, and is gated
   * whatever the threshold.
   */
  lemma OneLevelDarkerGates(cur: Image, prev: Image, resize: Resizer, threshold: Threshold)
    requires cur.Valid() && KeepsShape(resize)
    requires prev.Valid() && prev.channels == cur.channels && prev.Size() > 0
    requires cur.height > 0 && cur.width > 0
    requires var ys := Samples(resize(prev, cur.width, cur.height).rows);
      |ys| == |Samples(cur.rows)| &&
      forall k | 0 <= k < |ys| :: ys[k] as int == Samples(cur.rows)[k] as int + 1
    ensures DetectSaliency(cur, Some(prev), resize) == Ok(255.0)
    ensures Gate(DetectSaliency(cur, Some(prev), resize), threshold)
  {
    var resized := resize(prev, cur.width, cur.height);
    SamplesLength(cur);
    PositiveSize(prev, cur);
    WrappedSumOneBelow(Samples(cur.rows), Samples(resized.rows));
    MeanOfMaximum(cur.Size());
  }

  lemma MeanOfMaximum(n: nat)
    requires n > 0
    ensures (255 * n) as real / n as real == 255.0
  {
    assert (255 * n) as real == 255.0 * n as real;
  }
}
