/** Records and enumerations shared by the universe simulation: particle and
    actor records, the enumerations that configure a particle collection, and
    the small vector type every float triple of the engine is modelled with.
    Floats are modelled as `real`; rounding is not modelled. */
module Datatypes {

  /** The conventional Some/None wrapper, used for the engine's null references. */
  datatype Option<+T> = None | Some(value: T)

  /** A three-component vector of reals (the engine's Vector3). */
  datatype Vec3 = Vec3(x: real, y: real, z: real) {

    function Add(o: Vec3): Vec3 {
      Vec3(x + o.x, y + o.y, z + o.z)
    }

    function Sub(o: Vec3): Vec3 {
      Vec3(x - o.x, y - o.y, z - o.z)
    }

    /** Multiplication by a scalar. */
    function Scale(k: real): Vec3 {
      Vec3(k * x, k * y, k * z)
    }
  }

  const Zero3 := Vec3(0.0, 0.0, 0.0)

  lemma NonNegativeProduct(a: real, b: real)
    requires a >= 0.0 && b >= 0.0
    ensures a * b >= 0.0
  {
  }

  lemma PositiveProduct(a: real, b: real)
    requires a > 0.0 && b > 0.0
    ensures a * b > 0.0
  {
  }

  /** Sum of a sequence of reals. */
  function Sum(s: seq<real>): real
    decreases |s|
  {
    if |s| == 0 then 0.0 else Sum(s[..|s| - 1]) + s[|s| - 1]
  }

  /** Component-wise sum of a sequence of vectors. */
  function SumVec(q: seq<Vec3>): Vec3
    decreases |q|
  {
    if |q| == 0 then Zero3 else SumVec(q[..|q| - 1]).Add(q[|q| - 1])
  }

  /** Arithmetic mean of a non-empty sequence of vectors. */
  function MeanVec(q: seq<Vec3>): Vec3
    requires |q| > 0
  {
    SumVec(q).Scale(1.0 / (|q| as real))
  }

  /** The accumulation loop the source writes for a sum (a foreach adding
      each entry to a running total); it computes Sum. */
  method Accumulate(q: seq<real>) returns (total: real)
    ensures total == Sum(q)
  {
    total := 0.0;
    var i := 0;
    while i < |q|
      invariant 0 <= i <= |q|
      invariant total == Sum(q[..i])
    {
      assert q[..i + 1][..i] == q[..i];
      total := total + q[i];
      i := i + 1;
    }
    assert q[..|q|] == q;
  }

  /** Scaling every entry scales the sum. */
  lemma {:induction false} SumScaled(s: seq<real>, t: seq<real>, k: real)
    requires |t| == |s|
    requires forall i :: 0 <= i < |s| ==> t[i] == s[i] * k
    ensures Sum(t) == Sum(s) * k
    decreases |s|
  {
    if |s| > 0 {
      SumScaled(s[..|s| - 1], t[..|t| - 1], k);
    }
  }

  /** Scaling every vector scales the vector sum. */
  lemma {:induction false} SumVecScaled(s: seq<Vec3>, t: seq<Vec3>, k: real)
    requires |t| == |s|
    requires forall i :: 0 <= i < |s| ==> t[i] == s[i].Scale(k)
    ensures SumVec(t) == SumVec(s).Scale(k)
    decreases |s|
  {
    if |s| > 0 {
      SumVecScaled(s[..|s| - 1], t[..|t| - 1], k);
    }
  }

  /** A non-empty sum of positive reals is positive. */
  lemma {:induction false} SumPositive(s: seq<real>)
    requires |s| > 0
    requires forall i :: 0 <= i < |s| ==> s[i] > 0.0
    ensures Sum(s) > 0.0
    decreases |s|
  {
    if |s| > 1 {
      SumPositive(s[..|s| - 1]);
    }
  }

  /** One simulated particle: position, velocity, mass and a random entropy seed. */
  datatype ParticleData = ParticleData(position: Vec3, velocity: Vec3, mass: real, entropy: real)

  /** One force source as the compute shader sees it. */
  datatype ActorData = ActorData(position: Vec3, force: Vec3, mass: real)

  /** The all-zero particle a freshly allocated array holds. */
  const ZeroParticle := ParticleData(Zero3, Zero3, 0.0, 0.0)

  /** The all-zero actor record used to pad the actor buffer. */
  const ZeroActor := ActorData(Zero3, Zero3, 0.0)

  datatype ActorType = Attractor | Repeller | LinearForce

  datatype RenderTopology = Points | Lines | Tetrahedrons

  datatype InitShape = Sphere | AccretionDisc

  /** The particle counts a collection may be configured with. */
  datatype ParticleCount = P4096 | P8192 | P16384 | P32768 | P65536 | P131072 | P262144 {

    /** The integer value the enumeration member stands for. */
    function Value(): nat {
      match this
      case P4096 => 4096
      case P8192 => 8192
      case P16384 => 16384
      case P32768 => 32768
      case P65536 => 65536
      case P131072 => 131072
      case P262144 => 262144
    }

    /** The position of the member in the enumeration, which is also the
        power of two that scales 4096 to its value. */
    function Exponent(): (k: nat)
      ensures k <= 6
      ensures Value() == 4096 * Pow2(k)
    {
      match this
      case P4096 => 0
      case P8192 => 1
      case P16384 => 2
      case P32768 => 3
      case P65536 => 4
      case P131072 => 5
      case P262144 => 6
    }
  }

  function Pow2(k: nat): (r: nat)
    ensures r >= 1
  {
    if k == 0 then 1 else 2 * Pow2(k - 1)
  }

  /** The member of ParticleCount whose value is 4096 * 2^k. */
  function CountOfExponent(k: nat): (c: ParticleCount)
    requires k <= 6
    ensures c.Value() == 4096 * Pow2(k)
  {
    if k == 0 then P4096
    else if k == 1 then P8192
    else if k == 2 then P16384
    else if k == 3 then P32768
    else if k == 4 then P65536
    else if k == 5 then P131072
    else P262144
  }

  /** The enumeration is exactly the values 4096 * 2^k for k = 0..6: every
      member is recovered from its exponent, and every exponent from its member. */
  lemma ParticleCountIsPowerLadder(c: ParticleCount, k: nat)
    requires k <= 6
    ensures CountOfExponent(c.Exponent()) == c
    ensures CountOfExponent(k).Exponent() == k
  {
  }

  /** Every particle count splits into whole groups of 64 threads, so the
      `InstanceCount / 64` thread groups of a dispatch cover every particle. */
  function DispatchGroups(c: ParticleCount): (g: nat)
    ensures g * 64 == c.Value()
  {
    c.Value() / 64
  }

  /** Bytes of one float on the GPU. */
  const FloatBytes: nat := 4

  /** Element stride, in bytes, of the two particle buffers. */
  const ParticleBufferStride: nat := 32

  /** Element stride, in bytes, of the actor buffer. */
  const ActorBufferStride: nat := 8 * 4

  /** The scalars of a particle in memory order. */
  function FlattenParticle(p: ParticleData): (s: seq<real>)
    ensures |s| * FloatBytes == ParticleBufferStride
  {
    [p.position.x, p.position.y, p.position.z,
     p.velocity.x, p.velocity.y, p.velocity.z,
     p.mass, p.entropy]
  }

  /** Reads a particle back from its scalars. */
  function UnflattenParticle(s: seq<real>): ParticleData
    requires |s| == 8
  {
    ParticleData(Vec3(s[0], s[1], s[2]), Vec3(s[3], s[4], s[5]), s[6], s[7])
  }

  /** The particle layout is exactly the 32-byte element the renderer
      allocates: flattening loses nothing. */
  lemma ParticleLayoutRoundTrip(p: ParticleData)
    ensures |FlattenParticle(p)| == 8
    ensures UnflattenParticle(FlattenParticle(p)) == p
  {
  }

  /** The scalars of an actor in memory order. */
  function FlattenActor(a: ActorData): (s: seq<real>)
    ensures |s| == 7
    ensures UnflattenActor(s) == a
  {
    [a.position.x, a.position.y, a.position.z,
     a.force.x, a.force.y, a.force.z,
     a.mass]
  }

  function UnflattenActor(s: seq<real>): ActorData
    requires |s| == 7
  {
    ActorData(Vec3(s[0], s[1], s[2]), Vec3(s[3], s[4], s[5]), s[6])
  }

  /** The actor record occupies 28 bytes, less than the 32-byte stride the
      actor buffer is allocated with: the last 4 bytes of every slot are padding. */
  lemma ActorStrideHasPadding(a: ActorData)
    ensures |FlattenActor(a)| * FloatBytes + FloatBytes == ActorBufferStride
  {
  }
}
