/** A particle collection's configuration and the bookkeeping derived from it:
    the instance count, the material table chosen by render topology and blend
    mode (vertices per instance, geometry stride, mesh topology, shader keyword
    partition), the GPU buffer sizes, the indirect draw arguments, and the
    cluster assignment and mass normalisation of particle setup.

    Material, buffer and keyword calls of the engine are modelled by the
    values they are given; random draws are inputs. */
module ParticleCollection {
  import opened Datatypes

  datatype BlendMode = Additive | Solid

  /** The engine blend factors the material is given. */
  datatype BlendFactor = Zero | One

  datatype CullMode = CullOff | CullBack

  /** The engine's mesh topology used for the procedural draw. */
  datatype MeshTopology = PointList | LineList | TriangleList

  /** The shader keywords a collection switches. */
  datatype Keyword = BuildPoints | BuildLines | BuildTetrahedrons | CollisionDetection

  /** The configuration fields the modelled code reads. */
  datatype Config = Config(
    collisionDetection: bool,
    initialisationShape: InitShape,
    particleCount: ParticleCount,
    clusterCount: int,
    renderTopology: RenderTopology,
    blendMode: BlendMode)

  /** The number of particles of a collection: the integer value of its ParticleCount. */
  function InstanceCount(c: Config): (n: nat)
    ensures n >= 4096 && n % 64 == 0
    ensures n == 4096 * Pow2(c.particleCount.Exponent())
  {
    c.particleCount.Value()
  }

  /** What SetupMaterial leaves behind. */
  datatype Material = Material(
    verticesPerInstance: nat,
    geometryBufferStride: nat,
    meshTopology: MeshTopology,
    keywordsEnable: seq<Keyword>,
    keywordsDisable: seq<Keyword>,
    blendSrc: BlendFactor,
    blendDst: BlendFactor,
    cullMode: CullMode,
    zWrite: bool)

  /** The keyword that builds the given topology's geometry. */
  function BuildKeyword(t: RenderTopology): Keyword {
    match t
    case Points => BuildPoints
    case Lines => BuildLines
    case Tetrahedrons => BuildTetrahedrons
  }

  /** Number of vertices of one primitive of a mesh topology. */
  function PrimitiveVertices(m: MeshTopology): nat {
    match m
    case PointList => 1
    case LineList => 2
    case TriangleList => 3
  }

  /** SetupMaterial: appends the collision keyword to the enable or the disable
      list, picks the blend factors, and for the topology sets the vertex
      count, the stride, the mesh topology, culling and depth writes, and
      appends its build keyword to the enable list and the other two to the
      disable list. The lists start as `enable0` and `disable0`. */
  function SetupMaterial(c: Config, enable0: seq<Keyword>, disable0: seq<Keyword>): (m: Material)
    ensures c.renderTopology == Points ==>
              m.verticesPerInstance == 1 && m.geometryBufferStride == 24 && m.meshTopology == PointList
    ensures c.renderTopology == Lines ==>
              m.verticesPerInstance == 2 && m.geometryBufferStride == 36 && m.meshTopology == LineList
    ensures c.renderTopology == Tetrahedrons ==>
              m.verticesPerInstance == 12 && m.geometryBufferStride == 192 && m.meshTopology == TriangleList
    ensures c.blendMode == Additive ==> m.blendSrc == One && m.blendDst == One
    ensures c.blendMode == Solid ==> m.blendSrc == Zero && m.blendDst == One
    ensures |m.keywordsEnable| + |m.keywordsDisable| == |enable0| + |disable0| + 4
  {
    var (enable1, disable1) :=
      if c.collisionDetection then (enable0 + [CollisionDetection], disable0)
      else (enable0, disable0 + [CollisionDetection]);
    var (src, dst) :=
      match c.blendMode
      case Additive => (One, One)
      case Solid => (Zero, One);
    var t := c.renderTopology;
    var (vertices, stride, mesh, cull, zWrite) :=
      match t
      case Points => (1, 24, PointList, CullOff, false)
      case Lines => (2, 36, LineList, CullOff, false)
      case Tetrahedrons => (12, 192, TriangleList, CullBack, true);
    Material(vertices, stride, mesh, enable1 + [BuildKeyword(t)], disable1 + OtherBuildKeywords(t),
             src, dst, cull, zWrite)
  }

  /** Starting from empty lists, SetupMaterial partitions the four keywords:
      together the two lists hold every keyword exactly once; the enabled
      ones are the topology's own build keyword plus the collision keyword
      iff collision detection is on. */
  lemma KeywordPartition(c: Config)
    ensures var m := SetupMaterial(c, [], []);
            && multiset(m.keywordsEnable) + multiset(m.keywordsDisable)
                 == multiset{BuildPoints, BuildLines, BuildTetrahedrons, CollisionDetection}
            && multiset(m.keywordsEnable)
                 == multiset{BuildKeyword(c.renderTopology)}
                    + (if c.collisionDetection then multiset{CollisionDetection} else multiset{})
  {
    var m := SetupMaterial(c, [], []);
    var own := BuildKeyword(c.renderTopology);
    var others := OtherBuildKeywords(c.renderTopology);
    var on: seq<Keyword> := if c.collisionDetection then [CollisionDetection] else [];
    var off: seq<Keyword> := if c.collisionDetection then [] else [CollisionDetection];
    assert m.keywordsEnable == on + [own] && m.keywordsDisable == off + others;
    assert multiset(on) == if c.collisionDetection then multiset{CollisionDetection} else multiset{};
    SplitPartition(on, off, own, others);
  }

  lemma SplitPartition(on: seq<Keyword>, off: seq<Keyword>, own: Keyword, others: seq<Keyword>)
    requires multiset(on) + multiset(off) == multiset{CollisionDetection}
    requires multiset(others) + multiset{own} == multiset{BuildPoints, BuildLines, BuildTetrahedrons}
    ensures multiset(on + [own]) + multiset(off + others)
              == multiset{BuildPoints, BuildLines, BuildTetrahedrons, CollisionDetection}
    ensures multiset(on + [own]) == multiset{own} + multiset(on)
  {
  }

  /** The two build keywords a topology disables; with its own keyword they are all three. */
  function OtherBuildKeywords(t: RenderTopology): (r: seq<Keyword>)
    ensures multiset(r) + multiset{BuildKeyword(t)} == multiset{BuildPoints, BuildLines, BuildTetrahedrons}
    ensures BuildKeyword(t) !in r && CollisionDetection !in r
  {
    match t
    case Points => [BuildLines, BuildTetrahedrons]
    case Lines => [BuildPoints, BuildTetrahedrons]
    case Tetrahedrons => [BuildPoints, BuildLines]
  }

  /** Every instance emits whole primitives of its mesh topology: a point, a
      line, or the four triangles of a tetrahedron. */
  lemma VerticesAreWholePrimitives(c: Config)
    ensures var m := SetupMaterial(c, [], []);
            m.verticesPerInstance % PrimitiveVertices(m.meshTopology) == 0
  {
  }

  /** The size of a GPU buffer: element count and stride in bytes. */
  datatype BufferDesc = BufferDesc(count: nat, stride: nat)

  /** Elements and stride of the indirect-arguments buffer: one element of four uints. */
  const ArgsBufferDesc := BufferDesc(1, 4 * 4)

  datatype Buffers = Buffers(geometry: Option<BufferDesc>, drawCallArgs: Option<BufferDesc>)

  /** SetupBuffers: each buffer is created only if it does not exist yet; the
      geometry buffer holds one vertex record per vertex of every instance. */
  function SetupBuffers(b: Buffers, m: Material, instanceCount: nat): (r: Buffers)
    ensures r.geometry.Some? && r.drawCallArgs.Some?
    ensures b.geometry.Some? ==> r.geometry == b.geometry
    ensures b.geometry.None? ==>
              r.geometry.value.count == m.verticesPerInstance * instanceCount
              && r.geometry.value.stride == m.geometryBufferStride
    ensures b.drawCallArgs.Some? ==> r.drawCallArgs == b.drawCallArgs
    ensures b.drawCallArgs.None? ==> r.drawCallArgs == Some(ArgsBufferDesc)
  {
    var geometry :=
      if b.geometry.None? then Some(BufferDesc(m.verticesPerInstance * instanceCount, m.geometryBufferStride))
      else b.geometry;
    var args := if b.drawCallArgs.None? then Some(ArgsBufferDesc) else b.drawCallArgs;
    Buffers(geometry, args)
  }

  /** PrepareForRender: the indirect draw arguments (vertex count per
      instance, instance count, start vertex, start instance) and the reset
      append counter of the geometry buffer. */
  function PrepareForRender(m: Material): (r: (seq<nat>, nat))
    ensures |r.0| * 4 == ArgsBufferDesc.count * ArgsBufferDesc.stride
    ensures r.0[0] == m.verticesPerInstance
    ensures forall i :: 1 <= i < |r.0| ==> r.0[i] == 0
    ensures r.1 == 0
  {
    ([m.verticesPerInstance, 0, 0, 0], 0)
  }

  /** The indirect draw reads args[0] vertices for each of the args[1]
      instances. Right after PrepareForRender args[1] is 0, so nothing is
      drawn until the compute shader raises it; as long as it raises it to at
      most InstanceCount, the draw stays within the geometry buffer a fresh
      Setup allocates, and fills it exactly at InstanceCount. */
  lemma DrawStaysInGeometryBuffer(c: Config, instances: nat)
    requires instances <= InstanceCount(c)
    ensures var m := SetupMaterial(c, [], []);
            var args := PrepareForRender(m).0;
            var b := SetupBuffers(Buffers(None, None), m, InstanceCount(c));
            && args[0] * args[1] == 0
            && args[0] * instances <= b.geometry.value.count
            && (instances == InstanceCount(c) ==> args[0] * instances == b.geometry.value.count)
  {
    var m := SetupMaterial(c, [], []);
    var v := m.verticesPerInstance;
    assert v * InstanceCount(c) - v * instances == v * (InstanceCount(c) - instances);
  }

  /** The cluster a particle belongs to: floor(i * clusterCount / instanceCount).
      For at least one cluster it names an existing cluster. */
  function ClusterIndex(i: nat, clusterCount: int, instanceCount: nat): (r: int)
    requires clusterCount >= 1
    requires i < instanceCount
    ensures 0 <= r < clusterCount
  {
    var ratio := (clusterCount as real) / (instanceCount as real);
    var n := instanceCount as real;
    assert ratio * n == clusterCount as real;
    PositiveProduct((instanceCount - i) as real, ratio);
    ((i as real) * ratio).Floor
  }

  /** The cluster index is non-decreasing in the particle index, so the
      clusters occupy consecutive runs of particles. */
  lemma ClusterIndexMonotone(i: nat, j: nat, clusterCount: int, instanceCount: nat)
    requires clusterCount >= 1
    requires i <= j < instanceCount
    ensures ClusterIndex(i, clusterCount, instanceCount) <= ClusterIndex(j, clusterCount, instanceCount)
  {
    var ratio := (clusterCount as real) / (instanceCount as real);
    NonNegativeProduct((j - i) as real, ratio);
  }

  /** The second loop: every mass multiplied by the same scalar. */
  method ScaleMasses(masses: seq<real>, massScalar: real) returns (scaled: seq<real>)
    ensures |scaled| == |masses|
    ensures forall k :: 0 <= k < |masses| ==> scaled[k] == masses[k] * massScalar
  {
    scaled := [];
    var i := 0;
    while i < |masses|
      invariant 0 <= i <= |masses|
      invariant |scaled| == i
      invariant forall k :: 0 <= k < i ==> scaled[k] == masses[k] * massScalar
    {
      scaled := scaled + [masses[i] * massScalar];
      i := i + 1;
    }
  }

  /** The mass fix-up of SetupParticles: sum the drawn masses, then scale
      each by totalMass / sum. The scaled masses sum to totalMass, each keeps
      its share of the total (scaled[i] / totalMass == masses[i] / sum), and
      each stays positive when totalMass is. */
  method NormaliseMasses(masses: seq<real>, totalMass: real) returns (scaled: seq<real>)
    requires |masses| > 0
    requires forall i :: 0 <= i < |masses| ==> masses[i] > 0.0
    ensures |scaled| == |masses|
    ensures Sum(scaled) == totalMass
    ensures forall i :: 0 <= i < |masses| ==> scaled[i] * Sum(masses) == masses[i] * totalMass
    ensures totalMass > 0.0 ==> forall i :: 0 <= i < |scaled| ==> scaled[i] > 0.0
  {
    var massTotalInit := Accumulate(masses);
    SumPositive(masses);
    var massScalar := totalMass / massTotalInit;
    scaled := ScaleMasses(masses, massScalar);
    SumScaled(masses, scaled, massScalar);
    QuotientTimesDivisor(totalMass, massTotalInit);
    SharesKept(masses, scaled, totalMass, massTotalInit);
    if totalMass > 0.0 {
      ScaledStayPositive(masses, scaled, totalMass, massTotalInit);
    }
  }

  /** Scaling by t / s keeps each entry's share: scaled[k] * s == masses[k] * t. */
  lemma SharesKept(masses: seq<real>, scaled: seq<real>, t: real, s: real)
    requires s != 0.0 && |scaled| == |masses|
    requires forall k :: 0 <= k < |masses| ==> scaled[k] == masses[k] * (t / s)
    ensures forall k :: 0 <= k < |masses| ==> scaled[k] * s == masses[k] * t
  {
    forall k | 0 <= k < |masses|
      ensures scaled[k] * s == masses[k] * t
    {
      ShareOfTotal(masses[k], t, s);
    }
  }

  /** Scaling positive entries by a positive t / s keeps them positive. */
  lemma ScaledStayPositive(masses: seq<real>, scaled: seq<real>, t: real, s: real)
    requires t > 0.0 && s > 0.0 && |scaled| == |masses|
    requires forall k :: 0 <= k < |masses| ==> masses[k] > 0.0
    requires forall k :: 0 <= k < |masses| ==> scaled[k] == masses[k] * (t / s)
    ensures forall k :: 0 <= k < |scaled| ==> scaled[k] > 0.0
  {
    PositiveQuotient(t, s);
    forall k | 0 <= k < |scaled|
      ensures scaled[k] > 0.0
    {
      PositiveProduct(masses[k], t / s);
    }
  }

  lemma ShareOfTotal(m: real, t: real, s: real)
    requires s != 0.0
    ensures (m * (t / s)) * s == m * t
  {
    QuotientTimesDivisor(t, s);
    assert (m * (t / s)) * s == m * ((t / s) * s);
  }

  lemma QuotientTimesDivisor(t: real, s: real)
    requires s != 0.0
    ensures (t / s) * s == t
  {
  }

  lemma PositiveQuotient(t: real, s: real)
    requires t > 0.0 && s > 0.0
    ensures t / s > 0.0
  {
  }


  /** The random values SetupParticles draws for one particle. */
  datatype ParticleDraw = ParticleDraw(entropy: real, mass: real, direction: Vec3, radius: real, velocity: Vec3)

  /** What SetupParticles works from: the collection's origin, the drawn
      cluster origins, the per-particle draws and the (scaled) total mass. */
  datatype SetupInputs = SetupInputs(origin: Vec3, clusterOrigins: seq<Vec3>, draws: seq<ParticleDraw>, totalMass: real)

  /** The inputs fit the collection: one cluster origin per cluster, one
      draw per particle, and every drawn mass positive (the mass is a power
      of a draw from [float.Epsilon, 1]). */
  predicate InputsFit(c: Config, inp: SetupInputs) {
    && (c.clusterCount >= 1 ==> |inp.clusterOrigins| == c.clusterCount)
    && |inp.draws| == InstanceCount(c)
    && (forall i :: 0 <= i < |inp.draws| ==> inp.draws[i].mass > 0.0)
  }

  /** Where particle i starts: the collection's origin, plus its cluster's
      origin, plus the drawn direction times the drawn radius. */
  function SpawnPosition(c: Config, inp: SetupInputs, i: nat): Vec3
    requires InputsFit(c, inp) && c.clusterCount >= 1 && i < InstanceCount(c)
  {
    inp.origin
      .Add(inp.clusterOrigins[ClusterIndex(i, c.clusterCount, InstanceCount(c))])
      .Add(inp.draws[i].direction.Scale(inp.draws[i].radius))
  }

  /** The masses drawn for the particles, before normalisation. */
  function DrawnMasses(inp: SetupInputs): (ms: seq<real>)
    ensures |ms| == |inp.draws|
    ensures forall i :: 0 <= i < |ms| ==> ms[i] == inp.draws[i].mass
  {
    seq(|inp.draws|, i requires 0 <= i < |inp.draws| => inp.draws[i].mass)
  }

  /** The masses of a particle list, in order. */
  function Masses(ps: seq<ParticleData>): (ms: seq<real>)
    ensures |ms| == |ps|
    ensures forall i :: 0 <= i < |ms| ==> ms[i] == ps[i].mass
  {
    seq(|ps|, i requires 0 <= i < |ps| => ps[i].mass)
  }

  /** Each mass is its drawn mass's share of the total mass:
      ms[i] * Σ drawn == drawn[i] * totalMass. */
  predicate SharesOfTotal(ms: seq<real>, drawn: seq<real>, totalMass: real)
    requires |ms| <= |drawn|
  {
    forall i :: 0 <= i < |ms| ==> ms[i] * Sum(drawn) == drawn[i] * totalMass
  }

  /** The shares NormaliseMasses ensures, gathered into SharesOfTotal. */
  lemma SharesOfTotalFold(ms: seq<real>, drawn: seq<real>, totalMass: real)
    requires |ms| == |drawn|
    requires forall i :: 0 <= i < |drawn| ==> ms[i] * Sum(drawn) == drawn[i] * totalMass
    ensures SharesOfTotal(ms, drawn, totalMass)
  {
  }

  /** `ps` is what SetupParticles builds from the inputs: one record per
      particle, the masses summing to the total mass, and particle i with
      the drawn entropy and velocity, its drawn mass's share of the total
      mass (mass * Σ drawn == drawn mass * totalMass, positive when the
      total mass is), at origin + clusterOrigins[cluster of i] + direction *
      radius (its SpawnPosition). */
  predicate ParticlesFrom(c: Config, inp: SetupInputs, ps: seq<ParticleData>)
    requires InputsFit(c, inp) && c.clusterCount >= 1
  {
    && |ps| == InstanceCount(c)
    && Sum(Masses(ps)) == inp.totalMass
    && SharesOfTotal(Masses(ps), DrawnMasses(inp), inp.totalMass)
    && (inp.totalMass > 0.0 ==> forall i :: 0 <= i < |ps| ==> Masses(ps)[i] > 0.0)
    && (forall i :: 0 <= i < |ps| ==>
         && ps[i].entropy == inp.draws[i].entropy
         && ps[i].velocity == inp.draws[i].velocity
         && ps[i].position == SpawnPosition(c, inp, i))
  }

  /** The masses of a particle list whose masses are `scaled`. */
  lemma MassesOf(ps: seq<ParticleData>, scaled: seq<real>)
    requires |ps| == |scaled|
    requires forall k :: 0 <= k < |ps| ==> ps[k].mass == scaled[k]
    ensures Masses(ps) == scaled
  {
  }

  /** A particle list built record by record from the normalised masses
      is what SetupParticles promises. */
  lemma BuiltParticlesFrom(c: Config, inp: SetupInputs, ps: seq<ParticleData>, scaled: seq<real>)
    requires InputsFit(c, inp) && c.clusterCount >= 1
    requires |ps| == InstanceCount(c) && |scaled| == |ps|
    requires forall k :: 0 <= k < |ps| ==>
               ps[k] == ParticleData(SpawnPosition(c, inp, k), inp.draws[k].velocity, scaled[k], inp.draws[k].entropy)
    requires Sum(scaled) == inp.totalMass
    requires SharesOfTotal(scaled, DrawnMasses(inp), inp.totalMass)
    requires inp.totalMass > 0.0 ==> forall k :: 0 <= k < |scaled| ==> scaled[k] > 0.0
    ensures ParticlesFrom(c, inp, ps)
  {
    MassesOf(ps, scaled);
  }

  /** The placement loop of SetupParticles: particle i at its spawn
      position, with the drawn velocity and entropy and the i-th normalised
      mass. */
  method PlaceParticles(c: Config, inp: SetupInputs, scaled: seq<real>) returns (ps: seq<ParticleData>)
    requires InputsFit(c, inp) && c.clusterCount >= 1
    requires |scaled| == InstanceCount(c)
    ensures |ps| == InstanceCount(c)
    ensures forall k :: 0 <= k < |ps| ==>
              ps[k] == ParticleData(SpawnPosition(c, inp, k), inp.draws[k].velocity, scaled[k], inp.draws[k].entropy)
  {
    var n := InstanceCount(c);
    var draws := inp.draws;
    ps := [];
    var i := 0;
    while i < n
      invariant 0 <= i <= n
      invariant |ps| == i
      invariant forall k :: 0 <= k < i ==>
                  ps[k] == ParticleData(SpawnPosition(c, inp, k), draws[k].velocity, scaled[k], draws[k].entropy)
    {
      var clusterIdx := ClusterIndex(i, c.clusterCount, n);
      var position := inp.origin.Add(inp.clusterOrigins[clusterIdx]).Add(draws[i].direction.Scale(draws[i].radius));
      assert position == SpawnPosition(c, inp, i);
      ps := ps + [ParticleData(position, draws[i].velocity, scaled[i], draws[i].entropy)];
      i := i + 1;
    }
  }

  /** SetupParticles: particle i gets the drawn entropy, its normalised mass,
      its position around its cluster's origin, and the drawn velocity. With
      fewer than one cluster the cluster array cannot be allocated or
      indexed and setup throws (`None`). */
  method SetupParticles(c: Config, inp: SetupInputs) returns (r: Option<seq<ParticleData>>)
    requires InputsFit(c, inp)
    ensures r.None? <==> c.clusterCount < 1
    ensures r.Some? ==> ParticlesFrom(c, inp, r.value)
  {
    if c.clusterCount < 1 {
      return None;
    }
    var masses := DrawnMasses(inp);
    var scaled := NormaliseMasses(masses, inp.totalMass);
    var particles := PlaceParticles(c, inp, scaled);
    SharesOfTotalFold(scaled, masses, inp.totalMass);
    BuiltParticlesFrom(c, inp, particles, scaled);
    return Some(particles);
  }
}
