/**
 * Best-fit selection against the capability lists a Camera1 device reports
 * (Camera1Recorder.java): the three-pass preview-size choice of getOptimalSize
 * and the best-so-far scan over the supported preview fps ranges.
 */
module FormatNegotiation {
  import opened Optional

  /** A Camera.Size. */
  datatype Size = Size(width: int, height: int)

  /** One entry of getSupportedPreviewFpsRange: frame rates scaled by 1000. */
  datatype FpsRange = FpsRange(min: int, max: int)

  function Abs(x: int): nat
  {
    if x < 0 then -x else x
  }

  /**
   * The aspect test |w/h - tw/th| <= 0.1 of getOptimalSize, in exact rational
   * arithmetic: multiplying through by |h*th| gives 10*|w*th - tw*h| <= |h*th|.
   */
  predicate WithinAspect(s: Size, targetWidth: int, targetHeight: int)
  {
    s.height != 0 && targetHeight != 0
    && 10 * Abs(s.width * targetHeight - targetWidth * s.height) <= Abs(s.height * targetHeight)
  }

  function RealAbs(x: real): real
  {
    if x < 0.0 then -x else x
  }

  /** Two fractions subtracted over a common denominator. */
  lemma FractionDifference(a: real, b: real, c: real, e: real)
    requires b != 0.0 && e != 0.0
    ensures a / b - c / e == (a * e - c * b) / (b * e)
  {
    assert a / b == (a * e) / (b * e);
    assert c / e == (c * b) / (b * e);
  }

  /** |d/p| <= 1/10 exactly when 10*|d| <= |p|, for p non-zero. */
  lemma ScaledBound(d: real, p: real)
    requires p != 0.0
    ensures RealAbs(d / p) <= 0.1 <==> 10.0 * RealAbs(d) <= RealAbs(p)
  {
    var q := d / p;
    assert d == q * p;
    assert RealAbs(d) == RealAbs(q) * RealAbs(p) by {
      if q < 0.0 && p < 0.0 { assert d == (-q) * (-p); }
      else if q < 0.0 { assert -d == (-q) * p; }
      else if p < 0.0 { assert -d == q * (-p); }
    }
    var aq, ap := RealAbs(q), RealAbs(p);
    assert ap > 0.0;
    assert 10.0 * RealAbs(d) == (10.0 * aq) * ap;
    if aq <= 0.1 {
      assert (10.0 * aq) * ap <= 1.0 * ap;
    } else {
      assert (10.0 * aq) * ap > 1.0 * ap;
    }
  }

  /**
   * The integer test is the ratio test of getOptimalSize read over the reals: for
   * non-zero heights, |w/h - tw/th| <= 0.1 exactly when 10*|w*th - tw*h| <= |h*th|.
   */
  lemma WithinAspectIsRatioTest(s: Size, targetWidth: int, targetHeight: int)
    requires s.height != 0 && targetHeight != 0
    ensures WithinAspect(s, targetWidth, targetHeight) <==>
      RealAbs(s.width as real / s.height as real - targetWidth as real / targetHeight as real) <= 0.1
  {
    var w, h, tw, th := s.width as real, s.height as real, targetWidth as real, targetHeight as real;
    var di := s.width * targetHeight - targetWidth * s.height;
    var pi := s.height * targetHeight;
    assert pi != 0;
    assert di as real == w * th - tw * h;
    assert pi as real == h * th;
    FractionDifference(w, h, tw, th);
    ScaledBound(di as real, pi as real);
    assert RealAbs(di as real) == Abs(di) as real;
    assert RealAbs(pi as real) == Abs(pi) as real;
  }

  /** The figure both relaxed passes minimise. */
  function HeightDiff(s: Size, targetHeight: int): nat
  {
    Abs(s.height - targetHeight)
  }

  /** Whether a size takes part in a pass: the width ceiling always, the aspect test only in the first pass. */
  predicate Fits(s: Size, targetWidth: int, targetHeight: int, aspect: bool)
  {
    s.width <= targetWidth && (aspect ==> WithinAspect(s, targetWidth, targetHeight))
  }

  ghost predicate AnyFits(sizes: seq<Size>, targetWidth: int, targetHeight: int, aspect: bool)
  {
    exists i :: 0 <= i < |sizes| && Fits(sizes[i], targetWidth, targetHeight, aspect)
  }

  /**
   * sizes[k] is what a pass picks: it takes part, no participant is closer in height,
   * and every participant before it is strictly farther (a strict `<` keeps the first).
   */
  ghost predicate IsClosest(sizes: seq<Size>, targetWidth: int, targetHeight: int, aspect: bool, k: int)
  {
    0 <= k < |sizes| && Fits(sizes[k], targetWidth, targetHeight, aspect)
    && (forall j :: 0 <= j < |sizes| && Fits(sizes[j], targetWidth, targetHeight, aspect) ==>
          HeightDiff(sizes[k], targetHeight) <= HeightDiff(sizes[j], targetHeight))
    && (forall j :: 0 <= j < k && Fits(sizes[j], targetWidth, targetHeight, aspect) ==>
          HeightDiff(sizes[k], targetHeight) < HeightDiff(sizes[j], targetHeight))
  }

  /**
   * What getOptimalSize returns, pass by pass: nothing for an empty list, an exact
   * match if there is one, else the closest aspect-tolerant size within the width
   * ceiling, else the closest size within the width ceiling, else the first element.
   */
  ghost predicate IsOptimalSize(sizes: seq<Size>, targetWidth: int, targetHeight: int, r: Option<Size>)
  {
    if sizes == [] then r == None
    else if Size(targetWidth, targetHeight) in sizes then r == Some(Size(targetWidth, targetHeight))
    else if AnyFits(sizes, targetWidth, targetHeight, true) then
      exists k :: IsClosest(sizes, targetWidth, targetHeight, true, k) && r == Some(sizes[k])
    else if AnyFits(sizes, targetWidth, targetHeight, false) then
      exists k :: IsClosest(sizes, targetWidth, targetHeight, false, k) && r == Some(sizes[k])
    else r == Some(sizes[0])
  }

  /** A pass has at most one winner. */
  lemma ClosestUnique(sizes: seq<Size>, targetWidth: int, targetHeight: int, aspect: bool, k1: int, k2: int)
    requires IsClosest(sizes, targetWidth, targetHeight, aspect, k1)
    requires IsClosest(sizes, targetWidth, targetHeight, aspect, k2)
    ensures k1 == k2
  {
  }

  /** The selection rule determines the result: getOptimalSize is a function of its inputs. */
  lemma OptimalSizeUnique(sizes: seq<Size>, targetWidth: int, targetHeight: int, r1: Option<Size>, r2: Option<Size>)
    requires IsOptimalSize(sizes, targetWidth, targetHeight, r1)
    requires IsOptimalSize(sizes, targetWidth, targetHeight, r2)
    ensures r1 == r2
  {
  }

  /**
   * Only the last resort can break the width ceiling: a result wider than the target
   * is the first element, and then every size is wider than the target.
   */
  lemma OptimalSizeWithinCeiling(sizes: seq<Size>, targetWidth: int, targetHeight: int, r: Option<Size>)
    requires IsOptimalSize(sizes, targetWidth, targetHeight, r)
    ensures r.None? <==> sizes == []
    ensures r.Some? ==> r.value in sizes
    ensures r.Some? && r.value.width > targetWidth ==>
      r == Some(sizes[0]) && forall i :: 0 <= i < |sizes| ==> sizes[i].width > targetWidth
  {
  }

  /**
   * One relaxed pass of getOptimalSize: a scan keeping the fitting size with the
   * smallest height difference seen so far; None when no size fits.
   */
  method ClosestHeight(sizes: seq<Size>, targetWidth: int, targetHeight: int, aspect: bool) returns (best: Option<nat>)
    ensures best.None? <==> !AnyFits(sizes, targetWidth, targetHeight, aspect)
    ensures best.Some? ==> IsClosest(sizes, targetWidth, targetHeight, aspect, best.value)
  {
    best := None;
    for i := 0 to |sizes|
      invariant best.Some? ==> best.value < i
      invariant best.None? ==> forall j :: 0 <= j < i ==> !Fits(sizes[j], targetWidth, targetHeight, aspect)
      invariant best.Some? ==> Fits(sizes[best.value], targetWidth, targetHeight, aspect)
      invariant best.Some? ==> forall j :: 0 <= j < i && Fits(sizes[j], targetWidth, targetHeight, aspect) ==>
        HeightDiff(sizes[best.value], targetHeight) <= HeightDiff(sizes[j], targetHeight)
      invariant best.Some? ==> forall j :: 0 <= j < best.value && Fits(sizes[j], targetWidth, targetHeight, aspect) ==>
        HeightDiff(sizes[best.value], targetHeight) < HeightDiff(sizes[j], targetHeight)
    {
      if Fits(sizes[i], targetWidth, targetHeight, aspect)
        && (best.None? || HeightDiff(sizes[i], targetHeight) < HeightDiff(sizes[best.value], targetHeight))
      {
        best := Some(i);
      }
    }
  }

  /** getOptimalSize: exact match, then the aspect-tolerant pass, then the width-only pass, then the first element. */
  method GetOptimalSize(sizes: seq<Size>, targetWidth: int, targetHeight: int) returns (r: Option<Size>)
    ensures IsOptimalSize(sizes, targetWidth, targetHeight, r)
    ensures r.None? <==> sizes == []
    ensures r.Some? ==> r.value in sizes
  {
    if |sizes| == 0 {
      return None;
    }
    for i := 0 to |sizes|
      invariant forall j :: 0 <= j < i ==> sizes[j] != Size(targetWidth, targetHeight)
    {
      if sizes[i].width == targetWidth && sizes[i].height == targetHeight {
        return Some(sizes[i]);
      }
    }
    var best := ClosestHeight(sizes, targetWidth, targetHeight, true);
    if best.None? {
      best := ClosestHeight(sizes, targetWidth, targetHeight, false);
    }
    if best.None? {
      r := Some(sizes[0]);
    } else {
      r := Some(sizes[best.value]);
    }
  }

  /**
   * ranges[k] is what the fps scan settles on. Seeded with the first range, the scan
   * only ever moves to a range under the cap with a strictly higher upper bound, so:
   * with the first range under the cap, it is the earliest range with the highest
   * upper bound under the cap; with the first range over the cap, it is the first.
   */
  ghost predicate IsBestFps(ranges: seq<FpsRange>, cap: int, k: int)
  {
    0 <= k < |ranges|
    && (ranges[0].max <= cap ==>
          ranges[k].max <= cap
          && (forall j :: 0 <= j < |ranges| && ranges[j].max <= cap ==> ranges[j].max <= ranges[k].max)
          && (forall j :: 0 <= j < k && ranges[j].max <= cap ==> ranges[j].max < ranges[k].max))
    && (ranges[0].max > cap ==> k == 0)
  }

  /** The fps rule determines the chosen range. */
  lemma BestFpsUnique(ranges: seq<FpsRange>, cap: int, k1: int, k2: int)
    requires IsBestFps(ranges, cap, k1) && IsBestFps(ranges, cap, k2)
    ensures k1 == k2
  {
  }

  /** The fps-range loop of prepare: a best-so-far scan seeded with the first range. */
  method BestFpsRange(ranges: seq<FpsRange>, cap: int) returns (best: FpsRange)
    requires |ranges| > 0
    ensures exists k :: IsBestFps(ranges, cap, k) && best == ranges[k]
  {
    best := ranges[0];
    ghost var k := 0;
    for i := 0 to |ranges|
      invariant 0 <= k < |ranges| && best == ranges[k]
      invariant k <= i
      invariant ranges[0].max <= cap ==> best.max <= cap
      invariant ranges[0].max <= cap ==> forall j :: 0 <= j < i && ranges[j].max <= cap ==> ranges[j].max <= best.max
      invariant ranges[0].max <= cap ==> forall j :: 0 <= j < k && ranges[j].max <= cap ==> ranges[j].max < best.max
      invariant ranges[0].max > cap ==> k == 0
    {
      var range := ranges[i];
      if range.max <= cap && range.max > best.max {
        best := range;
        k := i;
      }
    }
  }
}
