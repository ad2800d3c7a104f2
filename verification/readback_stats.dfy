/** The statistics the renderer derives from one completed GPU readback: a
    random sample of particles, their mean world position, and the area of a
    clip-space rectangle grown around their projections.

    The random source is a sequence of draws, and the view-projection
    transform is an arbitrary function `project`; only the x and y of a
    projected point are used. */
module ReadbackStats {
  import opened Datatypes

  /** A rectangle stored as the engine stores it: a corner (x, y) plus a
      width and a height. */
  datatype Rect = Rect(x: real, y: real, width: real, height: real) {

    predicate Contains(px: real, py: real) {
      x <= px <= x + width && y <= py <= y + height
    }

    function Area(): real {
      width * height
    }
  }

  /** The rectangle the fold starts from: all four fields zero. */
  const SeedRect := Rect(0.0, 0.0, 0.0, 0.0)

  /** One point in clip space. */
  datatype Point2 = Point2(x: real, y: real)

  /** One step of the rectangle loop as written. Assigning the rectangle's x
      (or y) moves its corner and keeps its width (or height), so the far
      edge moves with it; the width and height checks then read the updated
      corner. */
  function GrowAsWritten(r: Rect, p: Point2): (r': Rect)
    requires r.width >= 0.0 && r.height >= 0.0
    ensures r'.x <= r.x && r'.y <= r.y
    ensures r'.width >= r.width && r'.height >= r.height
    ensures r'.x < r.x ==> r'.width == r.width
    ensures r'.y < r.y ==> r'.height == r.height
    ensures r'.Contains(p.x, p.y)
  {
    var x := if p.x < r.x then p.x else r.x;
    var y := if p.y < r.y then p.y else r.y;
    var width := if p.x > x + r.width then p.x - x else r.width;
    var height := if p.y > y + r.height then p.y - y else r.height;
    Rect(x, y, width, height)
  }

  /** The rectangle loop as written, over the projected samples in order. */
  function FoldAsWritten(ps: seq<Point2>): (r: Rect)
    ensures r.width >= 0.0 && r.height >= 0.0
    ensures r.x <= 0.0 && r.y <= 0.0
    ensures |ps| > 0 ==> r.Contains(ps[|ps| - 1].x, ps[|ps| - 1].y)
    decreases |ps|
  {
    if |ps| == 0 then SeedRect
    else GrowAsWritten(FoldAsWritten(ps[..|ps| - 1]), ps[|ps| - 1])
  }

  /** The as-written rectangle always has a non-negative area. */
  lemma AsWrittenAreaNonNegative(ps: seq<Point2>)
    ensures FoldAsWritten(ps).Area() >= 0.0
  {
    var r := FoldAsWritten(ps);
    NonNegativeProduct(r.width, r.height);
  }

  /** The as-written rectangle does not bound the samples: after the points
      (1, 1) and (-1, -1) the corner moved to (-1, -1) but the width and
      height stayed 1, so the first point lies outside and the area is 1
      where the samples span a 2 x 2 square. */
  lemma AsWrittenLosesEarlierPoints()
    ensures FoldAsWritten([Point2(1.0, 1.0), Point2(-1.0, -1.0)]) == Rect(-1.0, -1.0, 1.0, 1.0)
    ensures !FoldAsWritten([Point2(1.0, 1.0), Point2(-1.0, -1.0)]).Contains(1.0, 1.0)
    ensures FoldAsWritten([Point2(1.0, 1.0), Point2(-1.0, -1.0)]).Area() == 1.0
  {
    var ps := [Point2(1.0, 1.0), Point2(-1.0, -1.0)];
    assert ps[..1] == [Point2(1.0, 1.0)];
    assert ps[..1][..0] == [];
    assert FoldAsWritten(ps[..1]) == Rect(0.0, 0.0, 1.0, 1.0);
  }

  function Min(a: real, b: real): real { if a <= b then a else b }

  function Max(a: real, b: real): real { if a >= b then a else b }

  /** One step of the bounding rectangle as intended: the min of the mins and
      the max of the maxes, so the far edges stay where they were. */
  function GrowBounds(r: Rect, p: Point2): (r': Rect)
    requires r.width >= 0.0 && r.height >= 0.0
    ensures r'.width >= 0.0 && r'.height >= 0.0
  {
    var x := Min(r.x, p.x);
    var y := Min(r.y, p.y);
    Rect(x, y, Max(r.x + r.width, p.x) - x, Max(r.y + r.height, p.y) - y)
  }

  /** The intended rectangle, grown over the projected samples from the seed. */
  function FoldBounds(ps: seq<Point2>): (r: Rect)
    ensures r.width >= 0.0 && r.height >= 0.0
    decreases |ps|
  {
    if |ps| == 0 then SeedRect
    else GrowBounds(FoldBounds(ps[..|ps| - 1]), ps[|ps| - 1])
  }

  /** Growing is monotone: whatever the old rectangle contained, the new one
      contains, and it contains the new point. */
  lemma GrowBoundsContains(r: Rect, p: Point2, qx: real, qy: real)
    requires r.width >= 0.0 && r.height >= 0.0
    ensures GrowBounds(r, p).Contains(p.x, p.y)
    ensures r.Contains(qx, qy) ==> GrowBounds(r, p).Contains(qx, qy)
  {
  }

  /** The intended rectangle is the bounding box of the seed origin and the
      samples: it contains all of them, and each of its four edges lies on
      the origin or on a sample. */
  lemma {:induction false} FoldBoundsIsBoundingBox(ps: seq<Point2>)
    ensures FoldBounds(ps).Contains(0.0, 0.0)
    ensures forall i :: 0 <= i < |ps| ==> FoldBounds(ps).Contains(ps[i].x, ps[i].y)
    ensures var r := FoldBounds(ps);
            && (r.x == 0.0 || exists i :: 0 <= i < |ps| && ps[i].x == r.x)
            && (r.y == 0.0 || exists i :: 0 <= i < |ps| && ps[i].y == r.y)
            && (r.x + r.width == 0.0 || exists i :: 0 <= i < |ps| && ps[i].x == r.x + r.width)
            && (r.y + r.height == 0.0 || exists i :: 0 <= i < |ps| && ps[i].y == r.y + r.height)
    decreases |ps|
  {
    if |ps| > 0 {
      var init := ps[..|ps| - 1];
      var p := ps[|ps| - 1];
      var r0 := FoldBounds(init);
      FoldBoundsIsBoundingBox(init);
      GrowBoundsContains(r0, p, 0.0, 0.0);
      forall i | 0 <= i < |ps|
        ensures FoldBounds(ps).Contains(ps[i].x, ps[i].y)
      {
        if i < |ps| - 1 {
          assert ps[i] == init[i];
          GrowBoundsContains(r0, p, ps[i].x, ps[i].y);
        } else {
          GrowBoundsContains(r0, p, p.x, p.y);
        }
      }
      var r := FoldBounds(ps);
      assert forall i :: 0 <= i < |init| ==> init[i] == ps[i];
      if r.x != 0.0 && r.x != p.x {
        assert r.x == r0.x;
      }
      if r.y != 0.0 && r.y != p.y {
        assert r.y == r0.y;
      }
      if r.x + r.width != 0.0 && r.x + r.width != p.x {
        assert r.x + r.width == r0.x + r0.width;
      }
      if r.y + r.height != 0.0 && r.y + r.height != p.y {
        assert r.y + r.height == r0.y + r0.height;
      }
    }
  }

  /** The intended area is never negative. */
  lemma BoundsAreaNonNegative(ps: seq<Point2>)
    ensures FoldBounds(ps).Area() >= 0.0
  {
    var r := FoldBounds(ps);
    NonNegativeProduct(r.width, r.height);
  }

  /** On the points that defeat the as-written loop, the intended rectangle
      spans both: corner (-1, -1), width and height 2, area 4. */
  lemma BoundsKeepEarlierPoints()
    ensures FoldBounds([Point2(1.0, 1.0), Point2(-1.0, -1.0)]) == Rect(-1.0, -1.0, 2.0, 2.0)
    ensures FoldBounds([Point2(1.0, 1.0), Point2(-1.0, -1.0)]).Area() == 4.0
  {
    var ps := [Point2(1.0, 1.0), Point2(-1.0, -1.0)];
    assert ps[..1] == [Point2(1.0, 1.0)];
    assert ps[..1][..0] == [];
    assert FoldBounds(ps[..1]) == Rect(0.0, 0.0, 1.0, 1.0) by {
      assert FoldBounds(ps[..1][..0]) == SeedRect;
    }
    GrowBoundsSecondStep();
  }

  lemma GrowBoundsSecondStep()
    ensures GrowBounds(Rect(0.0, 0.0, 1.0, 1.0), Point2(-1.0, -1.0)) == Rect(-1.0, -1.0, 2.0, 2.0)
  {
    assert Min(0.0, -1.0) == -1.0;
    assert Max(1.0, -1.0) == 1.0;
  }

  /** A rectangle no wider and no taller than another has no larger area. */
  lemma AreaMonotone(a: Rect, b: Rect)
    requires 0.0 <= a.width <= b.width && 0.0 <= a.height <= b.height
    ensures a.Area() <= b.Area()
  {
    NonNegativeProduct(b.width - a.width, b.height);
    NonNegativeProduct(a.width, b.height - a.height);
    assert b.Area() - a.Area() == (b.width - a.width) * b.height + a.width * (b.height - a.height);
  }

  /** One step of each loop from rectangles with the same corner, the
      as-written one no larger: the corners stay equal and the as-written
      one stays no larger. */
  lemma GrowStepCompares(a: Rect, b: Rect, p: Point2)
    requires a.width >= 0.0 && a.height >= 0.0
    requires a.x == b.x && a.y == b.y && a.width <= b.width && a.height <= b.height
    ensures GrowAsWritten(a, p).x == GrowBounds(b, p).x && GrowAsWritten(a, p).y == GrowBounds(b, p).y
    ensures GrowAsWritten(a, p).width <= GrowBounds(b, p).width
    ensures GrowAsWritten(a, p).height <= GrowBounds(b, p).height
  {
  }

  /** The as-written rectangle shares the intended rectangle's corner but is
      never wider or taller. */
  lemma {:induction false} AsWrittenWithinBounds(ps: seq<Point2>)
    ensures FoldAsWritten(ps).x == FoldBounds(ps).x && FoldAsWritten(ps).y == FoldBounds(ps).y
    ensures FoldAsWritten(ps).width <= FoldBounds(ps).width
    ensures FoldAsWritten(ps).height <= FoldBounds(ps).height
    decreases |ps|
  {
    if |ps| > 0 {
      var init := ps[..|ps| - 1];
      AsWrittenWithinBounds(init);
      GrowStepCompares(FoldAsWritten(init), FoldBounds(init), ps[|ps| - 1]);
    }
  }

  /** The as-written area never exceeds the bounding box's: the loop as
      written can only understate how much of the view the particles cover. */
  lemma AsWrittenUnderstatesArea(ps: seq<Point2>)
    ensures FoldAsWritten(ps).Area() <= FoldBounds(ps).Area()
  {
    AsWrittenWithinBounds(ps);
    AreaMonotone(FoldAsWritten(ps), FoldBounds(ps));
  }

  /** A float-to-int cast: truncation toward zero. */
  function TruncateToInt(v: real): (r: int)
    ensures v >= 0.0 ==> r as real <= v < r as real + 1.0
    ensures v < 0.0 ==> r as real - 1.0 < v <= r as real
  {
    if v >= 0.0 then v.Floor else -((-v).Floor)
  }

  /** How many particles one readback samples: (int)(N * SampleRatio),
      and no iterations when that is negative. */
  function SampleCount(n: nat, ratio: real): (k: nat)
    ensures n == 0 ==> k == 0
    ensures ratio <= 0.0 ==> k == 0
    ensures ratio >= 0.0 ==> k as real <= n as real * ratio < k as real + 1.0
  {
    var c := TruncateToInt(n as real * ratio);
    assert ratio <= 0.0 ==> n as real * ratio <= 0.0 by {
      if ratio <= 0.0 {
        NonNegativeProduct(n as real, -ratio);
      }
    }
    assert ratio >= 0.0 ==> n as real * ratio >= 0.0 by {
      if ratio >= 0.0 {
        NonNegativeProduct(n as real, ratio);
      }
    }
    if c < 0 then 0 else c
  }

  /** The engine's integer Random.Range(min, max), with `draw` standing for
      the random source: a value in [min, max) (max excluded), or min when
      the two bounds are equal. */
  function RandomRangeInt(min: int, max: int, draw: nat): (r: int)
    requires min <= max
    ensures min == max ==> r == min
    ensures min < max ==> min <= r < max
  {
    if min == max then min else min + draw % (max - min)
  }

  /** Every value of [min, max) is some draw's outcome. */
  lemma RandomRangeIntCovers(min: int, max: int, v: int)
    requires min <= v < max
    ensures RandomRangeInt(min, max, (v - min) as nat) == v
  {
  }

  /** The particle index of one sample: Random.Range(0, N - 1). */
  function SampleIndex(n: nat, draw: nat): (i: nat)
    requires n >= 1
    ensures i < n
    ensures n >= 2 ==> i < n - 1
  {
    RandomRangeInt(0, n - 1, draw)
  }

  /** The last particle of the readback is never sampled once there are at
      least two, because the integer Random.Range excludes its upper bound. */
  lemma LastParticleNeverSampled(n: nat, draw: nat)
    requires n >= 2
    ensures SampleIndex(n, draw) != n - 1
  {
  }

  /** The positions a readback samples, one per draw. */
  function SampledPositions(particles: seq<ParticleData>, draws: seq<nat>): (s: seq<Vec3>)
    requires |particles| >= 1
    ensures |s| == |draws|
    ensures forall i :: 0 <= i < |draws| ==> s[i] == particles[SampleIndex(|particles|, draws[i])].position
  {
    seq(|draws|, i requires 0 <= i < |draws| => particles[SampleIndex(|particles|, draws[i])].position)
  }

  /** The clip-space x and y of each sampled position. */
  function Projected(s: seq<Vec3>, project: Vec3 -> Vec3): (ps: seq<Point2>)
    ensures |ps| == |s|
    ensures forall i :: 0 <= i < |s| ==> ps[i] == Point2(project(s[i]).x, project(s[i]).y)
  {
    seq(|s|, i requires 0 <= i < |s| => Point2(project(s[i]).x, project(s[i]).y))
  }

  /** The sums and folds over one more element of a prefix. */
  lemma PrefixStep(samples: seq<Vec3>, points: seq<Point2>, i: nat)
    requires i < |samples| && i < |points|
    ensures SumVec(samples[..i + 1]) == SumVec(samples[..i]).Add(samples[i])
    ensures FoldAsWritten(points[..i + 1]) == GrowAsWritten(FoldAsWritten(points[..i]), points[i])
  {
    assert samples[..i + 1][..i] == samples[..i];
    assert points[..i + 1][..i] == points[..i];
  }

  lemma ScaleDistributes(a: Vec3, b: Vec3, k: real)
    ensures a.Add(b).Scale(k) == a.Scale(k).Add(b.Scale(k))
  {
  }

  /** What one readback contributes to the camera: the world-space centroid
      of the sample and the clip-space area around it. */
  datatype Observation = Observation(centroid: Vec3, area: real)

  /** The sampling loop of a successful readback. It draws SampleCount
      indices, adds each sampled position times 1/count to the centroid, and
      grows the rectangle around each projected sample as the loop is
      written; the area is width * height. The centroid is the mean of the
      sampled positions (zero with no samples), and the area is that of the
      as-written rectangle: at most the area of the bounding box of the
      projected samples and the origin, and never negative. */
  method Sample(particles: seq<ParticleData>, ratio: real, draws: seq<nat>, project: Vec3 -> Vec3)
    returns (obs: Observation)
    requires |draws| >= SampleCount(|particles|, ratio)
    ensures var k := SampleCount(|particles|, ratio);
            k == 0 ==> obs == Observation(Zero3, 0.0)
    ensures var k := SampleCount(|particles|, ratio);
            k > 0 ==> |particles| >= 1
                      && obs.centroid == MeanVec(SampledPositions(particles, draws[..k]))
                      && obs.area == FoldAsWritten(Projected(SampledPositions(particles, draws[..k]), project)).Area()
                      && obs.area <= FoldBounds(Projected(SampledPositions(particles, draws[..k]), project)).Area()
    ensures obs.area >= 0.0
  {
    var length := SampleCount(|particles|, ratio);
    if length == 0 {
      return Observation(Zero3, 0.0);
    }
    var n := |particles|;
    var samples := SampledPositions(particles, draws[..length]);
    var points := Projected(samples, project);
    var weight := 1.0 / (length as real);
    var centre := Zero3;
    var rect := SeedRect;
    var i := 0;
    while i < length
      invariant 0 <= i <= length
      invariant centre == SumVec(samples[..i]).Scale(weight)
      invariant rect == FoldAsWritten(points[..i])
    {
      var sample := SampleIndex(n, draws[i]);
      var position := particles[sample].position;
      assert position == samples[i];
      var p := project(position);
      assert Point2(p.x, p.y) == points[i];
      PrefixStep(samples, points, i);
      ScaleDistributes(SumVec(samples[..i]), position, weight);
      centre := centre.Add(position.Scale(weight));
      rect := GrowAsWritten(rect, Point2(p.x, p.y));
      i := i + 1;
    }
    assert samples[..length] == samples;
    assert points[..length] == points;
    AsWrittenAreaNonNegative(points);
    AsWrittenUnderstatesArea(points);
    obs := Observation(centre, rect.Area());
  }
}
