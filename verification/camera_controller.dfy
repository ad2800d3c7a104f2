/** The camera feedback controller: two sliding windows of at most 32
    observations (look-at points and screen-area metrics) filled together by
    `Push`, the push-time bookkeeping, and the per-frame derivation of the
    working look-at point and zoom step from the window means.

    The static queues and working fields become one value, `Feedback`. The
    camera transform enters as its local depth `localZ`; the rotation blend
    is not modelled. */
module CameraController {
  import opened Datatypes

  /** Capacity of each window. */
  const QueueLimit: nat := 32

  /** Amount deducted from the mean metric before it is smoothed. */
  const ZoomOffset: real := 0.75

  datatype Feedback = Feedback(
    lookAtQueue: seq<Vec3>,
    distQueue: seq<real>,
    pushTime: real,
    pushTimePrev: real,
    pushTimeDelta: real,
    workingLookAt: Vec3,
    workingZoom: real)

  /** The state before any push. */
  const Initial := Feedback([], [], 0.0, 0.0, 0.0, Zero3, 0.0)

  /** Both windows hold the same number of entries, at most the capacity. */
  predicate Valid(s: Feedback) {
    |s.lookAtQueue| == |s.distQueue| <= QueueLimit
  }

  /** The last min(|h|, n) entries of `h`, in order. */
  function Recent<T>(h: seq<T>, n: nat): (r: seq<T>)
    ensures |r| == if |h| < n then |h| else n
  {
    if |h| <= n then h else h[|h| - n..]
  }

  /** Enqueues `v`, then dequeues the oldest entry if the window overflowed. */
  function Enqueue<T>(q: seq<T>, v: T): (r: seq<T>)
    requires |q| <= QueueLimit
    ensures |r| <= QueueLimit
    ensures |r| > 0 && r[|r| - 1] == v
    ensures |q| < QueueLimit ==> r == q + [v]
    ensures |q| == QueueLimit ==> r == q[1..] + [v]
  {
    var q' := q + [v];
    if |q'| > QueueLimit then q'[1..] else q'
  }

  /** A window that held the recent entries of a history holds the recent
      entries of the history extended by the new value. */
  lemma EnqueueRecent<T>(h: seq<T>, v: T)
    ensures Enqueue(Recent(h, QueueLimit), v) == Recent(h + [v], QueueLimit)
  {
    var q := Recent(h, QueueLimit);
    var h' := h + [v];
    if |h| >= QueueLimit {
      assert q == h[|h| - QueueLimit..];
      assert Recent(h', QueueLimit) == h'[|h'| - QueueLimit..];
      assert q[1..] + [v] == h'[|h'| - QueueLimit..];
    }
  }

  /** Records one observation: the centroid joins the look-at window, the
      metric joins the distance window, and the push times shift. */
  function Push(s: Feedback, lookAt: Vec3, dist: real, now: real): (r: Feedback)
    requires Valid(s)
    ensures Valid(r)
    ensures |r.lookAtQueue| > 0 && |r.distQueue| > 0
    ensures r.lookAtQueue[|r.lookAtQueue| - 1] == lookAt
    ensures r.distQueue[|r.distQueue| - 1] == dist
    ensures |r.lookAtQueue| == if |s.lookAtQueue| < QueueLimit then |s.lookAtQueue| + 1 else QueueLimit
    ensures r.pushTimePrev == s.pushTime && r.pushTime == now
    ensures r.pushTimeDelta == r.pushTime - r.pushTimePrev
    ensures r.workingLookAt == s.workingLookAt && r.workingZoom == s.workingZoom
  {
    Feedback(
      Enqueue(s.lookAtQueue, lookAt),
      Enqueue(s.distQueue, dist),
      now, s.pushTime, now - s.pushTime,
      s.workingLookAt, s.workingZoom)
  }

  /** One call of Push. */
  datatype Observation = Observation(lookAt: Vec3, dist: real, time: real)

  /** The state after a history of pushes, oldest first. */
  function PushAll(s: Feedback, obs: seq<Observation>): (r: Feedback)
    requires Valid(s)
    ensures Valid(r)
    decreases |obs|
  {
    if |obs| == 0 then s
    else
      var o := obs[|obs| - 1];
      Push(PushAll(s, obs[..|obs| - 1]), o.lookAt, o.dist, o.time)
  }

  function LookAts(obs: seq<Observation>): (r: seq<Vec3>)
    ensures |r| == |obs|
    ensures forall i :: 0 <= i < |obs| ==> r[i] == obs[i].lookAt
  {
    seq(|obs|, i requires 0 <= i < |obs| => obs[i].lookAt)
  }

  function Dists(obs: seq<Observation>): (r: seq<real>)
    ensures |r| == |obs|
    ensures forall i :: 0 <= i < |obs| ==> r[i] == obs[i].dist
  {
    seq(|obs|, i requires 0 <= i < |obs| => obs[i].dist)
  }

  /** After any history of pushes from the initial state, each window holds
      the most recent min(n, 32) pushed values in push order (the oldest is
      evicted first), and the push time is that of the last push. */
  lemma {:induction false} WindowsHoldRecentPushes(obs: seq<Observation>)
    ensures PushAll(Initial, obs).lookAtQueue == Recent(LookAts(obs), QueueLimit)
    ensures PushAll(Initial, obs).distQueue == Recent(Dists(obs), QueueLimit)
    ensures |obs| > 0 ==> PushAll(Initial, obs).pushTime == obs[|obs| - 1].time
    decreases |obs|
  {
    if |obs| > 0 {
      var init := obs[..|obs| - 1];
      var o := obs[|obs| - 1];
      WindowsHoldRecentPushes(init);
      assert LookAts(obs) == LookAts(init) + [o.lookAt];
      assert Dists(obs) == Dists(init) + [o.dist];
      EnqueueRecent(LookAts(init), o.lookAt);
      EnqueueRecent(Dists(init), o.dist);
    }
  }

  function MeanReal(q: seq<real>): real
    requires |q| > 0
  {
    Sum(q) / (|q| as real)
  }

  /** The sum of a window is at most |q| times an upper bound of its entries. */
  lemma {:induction false} SumRealAtMost(q: seq<real>, hi: real)
    requires forall i :: 0 <= i < |q| ==> q[i] <= hi
    ensures Sum(q) <= (|q| as real) * hi
    decreases |q|
  {
    if |q| > 0 {
      SumRealAtMost(q[..|q| - 1], hi);
      assert ((|q| - 1) as real) * hi + hi == (|q| as real) * hi;
    }
  }

  /** The sum of a window is at least |q| times a lower bound of its entries. */
  lemma {:induction false} SumRealAtLeast(q: seq<real>, lo: real)
    requires forall i :: 0 <= i < |q| ==> lo <= q[i]
    ensures (|q| as real) * lo <= Sum(q)
    decreases |q|
  {
    if |q| > 0 {
      SumRealAtLeast(q[..|q| - 1], lo);
      assert ((|q| - 1) as real) * lo + lo == (|q| as real) * lo;
    }
  }

  /** A window mean is at most any upper bound of the window's entries. */
  lemma MeanRealAtMost(q: seq<real>, hi: real)
    requires |q| > 0
    requires forall i :: 0 <= i < |q| ==> q[i] <= hi
    ensures MeanReal(q) <= hi
  {
    SumRealAtMost(q, hi);
    var n := |q| as real;
    var m := MeanReal(q);
    assert m * n == Sum(q);
    assert (hi - m) * n >= 0.0;
    PositiveFactor(hi - m, n);
  }

  /** A window mean is at least any lower bound of the window's entries. */
  lemma MeanRealAtLeast(q: seq<real>, lo: real)
    requires |q| > 0
    requires forall i :: 0 <= i < |q| ==> lo <= q[i]
    ensures lo <= MeanReal(q)
  {
    SumRealAtLeast(q, lo);
    var n := |q| as real;
    var m := MeanReal(q);
    assert m * n == Sum(q);
    assert (m - lo) * n >= 0.0;
    PositiveFactor(m - lo, n);
  }

  /** A window mean never leaves the range of the window's entries. */
  lemma MeanRealBounds(q: seq<real>, lo: real, hi: real)
    requires |q| > 0
    requires forall i :: 0 <= i < |q| ==> lo <= q[i] <= hi
    ensures lo <= MeanReal(q) <= hi
  {
    MeanRealAtMost(q, hi);
    MeanRealAtLeast(q, lo);
  }

  /** A product with a positive factor is non-negative only if the other factor is. */
  lemma PositiveFactor(x: real, n: real)
    requires n > 0.0 && x * n >= 0.0
    ensures x >= 0.0
  {
  }

  /** A window whose entries all equal `c` has mean `c`. */
  lemma MeanRealConstant(q: seq<real>, c: real)
    requires |q| > 0
    requires forall i :: 0 <= i < |q| ==> q[i] == c
    ensures MeanReal(q) == c
  {
    MeanRealBounds(q, c, c);
  }

  /** Clamps a value to [0, 1]. */
  function Clamp01(t: real): (r: real)
    ensures 0.0 <= r <= 1.0
    ensures 0.0 <= t <= 1.0 ==> r == t
  {
    if t < 0.0 then 0.0 else if t > 1.0 then 1.0 else t
  }

  /** The cubic Hermite ease 3t^2 - 2t^3 of the engine's SmoothStep. */
  function Ease(t: real): real {
    -2.0 * t * t * t + 3.0 * t * t
  }

  /** The engine's SmoothStep: clamp t to [0, 1], ease it, interpolate. */
  function SmoothStep(from: real, to: real, t: real): real {
    var u := Ease(Clamp01(t));
    to * u + from * (1.0 - u)
  }

  /** On [0, 1] the ease stays in [0, 1]. */
  lemma EaseRange(t: real)
    requires 0.0 <= t <= 1.0
    ensures 0.0 <= Ease(t) <= 1.0
  {
    assert Ease(t) == t * t * (3.0 - 2.0 * t);
    NonNegativeProduct(t, t);
    NonNegativeProduct(t * t, 3.0 - 2.0 * t);
    assert 1.0 - Ease(t) == (1.0 - t) * (1.0 - t) * (1.0 + 2.0 * t);
    NonNegativeProduct(1.0 - t, 1.0 - t);
    NonNegativeProduct((1.0 - t) * (1.0 - t), 1.0 + 2.0 * t);
  }

  /** On [0, 1] the ease is non-decreasing. */
  lemma EaseMonotone(a: real, b: real)
    requires 0.0 <= a <= b <= 1.0
    ensures Ease(a) <= Ease(b)
  {
    var d := b - a;
    var x := 3.0 * (a + b) - 2.0 * (a * a + a * b + b * b);
    assert Ease(b) - Ease(a) == d * x;
    NonNegativeProduct(a, 1.0 - a);
    NonNegativeProduct(b, 1.0 - b);
    NonNegativeProduct(a, 1.0 - b);
    NonNegativeProduct(b, 1.0 - a);
    assert x >= 0.0;
    NonNegativeProduct(d, x);
  }

  /** The ease is below one half before the midpoint and above it after. */
  lemma EaseMidpoint(t: real)
    requires 0.0 <= t <= 1.0
    ensures t < 0.5 ==> Ease(t) < 0.5
    ensures t == 0.5 ==> Ease(t) == 0.5
    ensures t > 0.5 ==> Ease(t) > 0.5
  {
    var p := t * (1.0 - t);
    assert p >= 0.0 by { NonNegativeProduct(t, 1.0 - t); }
    var k := 1.0 + 2.0 * p;
    assert k >= 1.0;
    assert 2.0 * (0.5 - Ease(t)) == (1.0 - 2.0 * t) * k;
    if t < 0.5 {
      PositiveProduct(1.0 - 2.0 * t, k);
    } else if t > 0.5 {
      PositiveProduct(2.0 * t - 1.0, k);
      assert (2.0 * t - 1.0) * k == -((1.0 - 2.0 * t) * k);
    }
  }

  /** SmoothStep stays within [from, to]. */
  lemma SmoothStepRange(from: real, to: real, t: real)
    requires from <= to
    ensures from <= SmoothStep(from, to, t) <= to
  {
    var u := Ease(Clamp01(t));
    EaseRange(Clamp01(t));
    assert SmoothStep(from, to, t) == from + (to - from) * u;
    NonNegativeProduct(to - from, u);
    NonNegativeProduct(to - from, 1.0 - u);
    assert (to - from) * (1.0 - u) == (to - from) - (to - from) * u;
  }

  /** The zoom step for a window mean: SmoothStep(-5, 5, mean - 0.75). */
  function ZoomStep(mean: real): (r: real)
    ensures -5.0 <= r <= 5.0
  {
    SmoothStepRange(-5.0, 5.0, mean - ZoomOffset);
    SmoothStep(-5.0, 5.0, mean - ZoomOffset)
  }

  /** The zoom step is non-decreasing in the mean, saturates at -5 for a mean
      of at most 0.75 and at +5 for a mean of at least 1.75, and changes sign
      at a mean of 1.25 (not at 0.75): the camera backs away for smaller
      means and approaches for larger ones. */
  lemma ZoomStepShape(m: real, m': real)
    requires m <= m'
    ensures ZoomStep(m) <= ZoomStep(m')
    ensures m <= ZoomOffset ==> ZoomStep(m) == -5.0
    ensures m >= ZoomOffset + 1.0 ==> ZoomStep(m) == 5.0
    ensures m < 1.25 ==> ZoomStep(m) < 0.0
    ensures m == 1.25 ==> ZoomStep(m) == 0.0
    ensures m > 1.25 ==> ZoomStep(m) > 0.0
  {
    var t, t' := Clamp01(m - ZoomOffset), Clamp01(m' - ZoomOffset);
    EaseMonotone(t, t');
    EaseMidpoint(t);
    assert ZoomStep(m) == -5.0 + 10.0 * Ease(t);
    assert ZoomStep(m') == -5.0 + 10.0 * Ease(t');
  }

  /** UpdateZoom: with an empty distance window nothing changes; otherwise
      the working zoom becomes the zoom step of the window mean times
      speed * dt, and it is subtracted from the camera's local depth. */
  function UpdateZoom(s: Feedback, localZ: real, zoomSpeed: real, dt: real): (r: (Feedback, real))
    ensures |s.distQueue| == 0 ==> r == (s, localZ)
    ensures |s.distQueue| > 0 ==>
              && r.0 == s.(workingZoom := ZoomStep(MeanReal(s.distQueue)) * (zoomSpeed * dt))
              && r.1 == localZ - r.0.workingZoom
    ensures zoomSpeed * dt >= 0.0 ==>
              localZ - 5.0 * (zoomSpeed * dt) <= r.1 <= localZ + 5.0 * (zoomSpeed * dt)
  {
    if |s.distQueue| == 0 then (s, localZ)
    else
      var step := ZoomStep(MeanReal(s.distQueue));
      var k := zoomSpeed * dt;
      var amount := step * k;
      assert k >= 0.0 ==> -5.0 * k <= amount <= 5.0 * k by {
        if k >= 0.0 {
          NonNegativeProduct(step + 5.0, k);
          NonNegativeProduct(5.0 - step, k);
        }
      }
      (s.(workingZoom := amount), localZ - amount)
  }

  /** UpdateLookAt: with an empty look-at window nothing changes; otherwise
      the working look-at point becomes the window mean. */
  function UpdateLookAt(s: Feedback): (r: Feedback)
    ensures |s.lookAtQueue| == 0 ==> r == s
    ensures |s.lookAtQueue| > 0 ==> r == s.(workingLookAt := MeanVec(s.lookAtQueue))
  {
    if |s.lookAtQueue| == 0 then s
    else s.(workingLookAt := MeanVec(s.lookAtQueue))
  }

  /** A coordinate axis of a vector. */
  datatype Axis = X | Y | Z

  function Component(v: Vec3, axis: Axis): real {
    match axis
    case X => v.x
    case Y => v.y
    case Z => v.z
  }

  /** One coordinate of every vector of a window. */
  function Components(q: seq<Vec3>, axis: Axis): (r: seq<real>)
    ensures |r| == |q|
    ensures forall i :: 0 <= i < |q| ==> r[i] == Component(q[i], axis)
  {
    seq(|q|, i requires 0 <= i < |q| => Component(q[i], axis))
  }

  /** A coordinate of a vector sum is the sum of that coordinate. */
  lemma {:induction false} SumVecComponent(q: seq<Vec3>, axis: Axis)
    ensures Component(SumVec(q), axis) == Sum(Components(q, axis))
    decreases |q|
  {
    if |q| > 0 {
      var init := q[..|q| - 1];
      SumVecComponent(init, axis);
      assert Components(q, axis)[..|q| - 1] == Components(init, axis);
    }
  }

  /** A coordinate of a vector mean is the mean of that coordinate. */
  lemma MeanVecComponent(q: seq<Vec3>, axis: Axis)
    requires |q| > 0
    ensures Component(MeanVec(q), axis) == MeanReal(Components(q, axis))
  {
    SumVecComponent(q, axis);
    var n := |q| as real;
    assert Component(MeanVec(q), axis) == (1.0 / n) * Component(SumVec(q), axis);
  }

  /** Each coordinate of the working look-at point lies within any range
      that holds that coordinate of every point in the window: the camera
      never looks outside the box the recent centroids span. */
  lemma LookAtWithinWindow(s: Feedback, axis: Axis, lo: real, hi: real)
    requires |s.lookAtQueue| > 0
    requires forall i :: 0 <= i < |s.lookAtQueue| ==> lo <= Component(s.lookAtQueue[i], axis) <= hi
    ensures lo <= Component(UpdateLookAt(s).workingLookAt, axis) <= hi
  {
    MeanVecComponent(s.lookAtQueue, axis);
    MeanRealBounds(Components(s.lookAtQueue, axis), lo, hi);
  }

  /** After any non-empty history of pushes from the initial state, the
      working look-at point is the mean of the last min(n, 32) pushed
      centroids. */
  lemma LookAtFollowsHistory(obs: seq<Observation>)
    requires |obs| > 0
    ensures UpdateLookAt(PushAll(Initial, obs)).workingLookAt == MeanVec(Recent(LookAts(obs), QueueLimit))
  {
    WindowsHoldRecentPushes(obs);
  }

  /** With a positive speed * dt, the camera's local z grows when every
      metric in the window is below 1.25 and shrinks when every metric is
      above 1.25: the zoom direction flips at 1.25, not at 0.75. */
  lemma ZoomDirection(s: Feedback, localZ: real, zoomSpeed: real, dt: real, bound: real)
    requires |s.distQueue| > 0
    requires zoomSpeed * dt > 0.0
    ensures bound < 1.25 && (forall i :: 0 <= i < |s.distQueue| ==> s.distQueue[i] <= bound) ==>
              UpdateZoom(s, localZ, zoomSpeed, dt).1 > localZ
    ensures bound > 1.25 && (forall i :: 0 <= i < |s.distQueue| ==> s.distQueue[i] >= bound) ==>
              UpdateZoom(s, localZ, zoomSpeed, dt).1 < localZ
  {
    var q := s.distQueue;
    var m := MeanReal(q);
    var step := ZoomStep(m);
    var k := zoomSpeed * dt;
    assert UpdateZoom(s, localZ, zoomSpeed, dt).1 == localZ - step * k;
    ZoomStepShape(m, m);
    SignOfProduct(step, k);
    if bound < 1.25 && (forall i :: 0 <= i < |q| ==> q[i] <= bound) {
      MeanRealAtMost(q, bound);
    }
    if bound > 1.25 && (forall i :: 0 <= i < |q| ==> q[i] >= bound) {
      MeanRealAtLeast(q, bound);
    }
  }

  /** A positive factor keeps the sign of the other factor. */
  lemma SignOfProduct(a: real, k: real)
    requires k > 0.0
    ensures a < 0.0 ==> a * k < 0.0
    ensures a > 0.0 ==> a * k > 0.0
  {
    if a < 0.0 {
      PositiveProduct(-a, k);
      assert a * k == -((-a) * k);
    } else if a > 0.0 {
      PositiveProduct(a, k);
    }
  }

  /** The sum of n copies of a vector is the vector scaled by n. */
  lemma {:induction false} SumVecConstant(q: seq<Vec3>, p: Vec3)
    requires forall i :: 0 <= i < |q| ==> q[i] == p
    ensures SumVec(q) == p.Scale(|q| as real)
    decreases |q|
  {
    if |q| > 0 {
      SumVecConstant(q[..|q| - 1], p);
      var n := (|q| - 1) as real;
      assert n * p.x + p.x == (n + 1.0) * p.x;
      assert n * p.y + p.y == (n + 1.0) * p.y;
      assert n * p.z + p.z == (n + 1.0) * p.z;
    }
  }

  /** A look-at window holding one point throughout makes that point the
      working look-at point. */
  lemma LookAtOfSteadyWindow(s: Feedback, p: Vec3)
    requires |s.lookAtQueue| > 0
    requires forall i :: 0 <= i < |s.lookAtQueue| ==> s.lookAtQueue[i] == p
    ensures UpdateLookAt(s).workingLookAt == p
  {
    var q := s.lookAtQueue;
    var n := |q| as real;
    SumVecConstant(q, p);
    assert (1.0 / n) * (n * p.x) == p.x;
    assert (1.0 / n) * (n * p.y) == p.y;
    assert (1.0 / n) * (n * p.z) == p.z;
  }

  /** Two observations, the look-at points (0,0,0) and (2,0,0) with metrics
      0.1 and 0.9, average to (1,0,0) and 0.5. */
  lemma TwoPushExample()
    ensures UpdateLookAt(PushAll(Initial, [Observation(Zero3, 0.1, 1.0),
                                           Observation(Vec3(2.0, 0.0, 0.0), 0.9, 2.0)])).workingLookAt
            == Vec3(1.0, 0.0, 0.0)
    ensures MeanReal(PushAll(Initial, [Observation(Zero3, 0.1, 1.0),
                                       Observation(Vec3(2.0, 0.0, 0.0), 0.9, 2.0)]).distQueue) == 0.5
  {
    var obs := [Observation(Zero3, 0.1, 1.0), Observation(Vec3(2.0, 0.0, 0.0), 0.9, 2.0)];
    WindowsHoldRecentPushes(obs);
    assert LookAts(obs) == [Zero3, Vec3(2.0, 0.0, 0.0)];
    assert Dists(obs) == [0.1, 0.9];
    SumVecOfTwo(Zero3, Vec3(2.0, 0.0, 0.0));
    SumOfTwo(0.1, 0.9);
  }

  lemma SumVecOfTwo(a: Vec3, b: Vec3)
    ensures SumVec([a, b]) == a.Add(b)
  {
    var q := [a, b];
    assert q[..1] == [a];
    assert q[..1][..0] == [];
    assert SumVec(q[..1]) == Zero3.Add(a) == a;
    assert q[|q| - 1] == b && q[..|q| - 1] == q[..1];
  }

  lemma SumOfTwo(x: real, y: real)
    ensures Sum([x, y]) == x + y
  {
    var q := [x, y];
    assert q[..1] == [x];
    assert q[..1][..0] == [];
    assert Sum(q[..1]) == 0.0 + x == x;
    assert q[|q| - 1] == y && q[..|q| - 1] == q[..1];
  }
}
