# UniverseSimulation bookkeeping, modelled in Dafny

UniverseSimulation is a Unity GPU N-body particle simulation. Its force law and
integrator are in a compute shader. The C# code around it does the bookkeeping
that this project models and proves properties of:

- the **actor registry** (`UniverseActor`): a static dictionary of at most four
  force sources, the change notification it raises, and the record each actor
  type registers;
- the **renderer** (`UniverseRenderer`):
  - the ping-pong of the two particle buffers;
  - the aggregate particle layout of all collections;
  - the actor snapshot padded to four records;
  - the Start / Update / OnDestroy gates;
  - the self-re-issuing GPU readback chain;
- the **readback statistics** (`ReadbackStats`, part of
  `UniverseRenderer.OnAsyncGPUReadback`): a random sample of particles, their
  centroid, and the clip-space rectangle around them;
- the **camera feedback windows** (`CameraController`): two 32-entry sliding
  windows filled by `Push`, their means, and the SmoothStep zoom mapping;
- the **particle collection configuration** (`ParticleCollection`):
  - the instance count;
  - the material table by render topology and blend mode, with its shader
    keyword partition;
  - buffer sizes and indirect draw arguments;
  - cluster assignment and mass normalisation of particle setup;
- the **ground grid** (`CameraGrid.BuildVertices`);
- the **records and enumerations** of `Datatypes.cs`.

There is one Dafny module per C# file, plus `ReadbackStats`. Floats are
modelled as `real`, so rounding is not modelled.

Engine services become inputs:

- random values are sequences of draws;
- the camera's view-projection transform is a function `project`;
- a GPU readback is its particle array plus a `hasError` flag;
- `Time.time` is a parameter `now`.

The static dictionary, the static queues and the delegates become explicit
state values passed in and returned.

Where the source and its documentation disagree, the model follows the source:

- **A failed readback.** It returns without issuing a new request, so the
  readback chain stops for good (`UniverseRenderer.StoppedChainStaysStopped`).
  It does not re-issue.
- **The rectangle fold.** The stored rectangle is not a bounding box of the
  samples. `ReadbackStats.Sample`, and so the area that
  `UniverseRenderer.OnAsyncGPUReadback` pushes to the camera, uses the fold as
  written (`ReadbackStats.FoldAsWritten`). The bounding box it was evidently
  meant to be is `ReadbackStats.FoldBounds`; see Findings.
- **The copy offsets.** They do not follow the start positions.
  `UniverseRenderer.SetupBuffers`, and so `UniverseRenderer.Start`, fills the
  particle buffers as written (`UniverseRenderer.AggregateAsWritten`). With at
  most two collections this is the concatenation of the collections. With
  three or more, the last record stays zero. The concatenation it was
  evidently meant to be is `UniverseRenderer.SetupAggregate`; see Findings.
- **A collection without clusters, or no particles at all.** `SetupParticles`
  throws when `ClusterCount < 1`. A particle buffer of zero elements cannot be
  created, so `SetupBuffers` throws when the list is empty or every entry is
  null. Either way `Start` is abandoned before the renderer is marked
  initialised. `UniverseRenderer.Start` models that outcome as `None`.

## Model

| member | source | states |
|---|---|---|
| Datatypes.ParticleCountIsPowerLadder | Assets/Scripts/Datatypes.cs:45-54 | the particle counts are exactly 4096·2^k for k = 0..6: member and exponent determine each other |
| Datatypes.DispatchGroups | Assets/Scripts/UniverseRenderer.cs:340-343 | every particle count is a whole number of 64-thread groups, so `InstanceCount / 64` groups cover every particle |
| Datatypes.ParticleLayoutRoundTrip | Assets/Scripts/Datatypes.cs:8-14 | a particle is 8 scalars, the 32-byte element stride of the particle buffers, and reads back unchanged from them |
| Datatypes.FlattenActor | Assets/Scripts/Datatypes.cs:16-21 | an actor record is 7 scalars and reads back unchanged from them |
| Datatypes.ActorStrideHasPadding | Assets/Scripts/UniverseRenderer.cs:347 | the 32-byte actor buffer stride is 4 bytes more than the 28 bytes of an actor record |
| Datatypes.Accumulate | Assets/Scripts/ParticleCollection.cs:259-268 | the loop that accumulates the drawn masses computes their sum |
| UniverseActor.Init | Assets/Scripts/UniverseActor.cs:66-82 | mass is +mass for an Attractor, -mass for a Repeller, 0 for LinearForce; the force is forward·force for LinearForce and zero otherwise |
| UniverseActor.RepellerMirrorsAttractor | Assets/Scripts/UniverseActor.cs:66-82 | an Attractor and a Repeller built from the same position, force and mass sit at the same place, exert no linear force, and carry opposite masses |
| UniverseActor.DictUpdate | Assets/Scripts/UniverseActor.cs:84-113 | enable adds a new actor below the limit, warns and changes nothing at the limit, ignores a registered one; disable removes a registered actor and ignores an unknown one; notifies iff the map changed and a listener exists |
| UniverseActor.DictUpdateKeepsLimit | Assets/Scripts/UniverseActor.cs:89-99 | no call takes the dictionary past four entries |
| UniverseActor.NotifiedIffChanged | Assets/Scripts/UniverseActor.cs:86-112 | with a listener, the notification fires if and only if the dictionary is a different map afterwards |
| UniverseActor.ReRegisterKeepsData | Assets/Scripts/UniverseActor.cs:87-101 | enabling a registered actor does not refresh its stored record and notifies nobody |
| UniverseActor.ReplayKeepsLimit | Assets/Scripts/UniverseActor.cs:53-62 | every history of OnEnable/OnDisable events keeps at most four actors |
| UniverseActor.FullRegistryRejects | Assets/Scripts/UniverseActor.cs:91-94 | once four actors are registered, no sequence of enables changes the dictionary |
| CameraController.Enqueue | Assets/Scripts/CameraController.cs:98-105 | enqueue then dequeue-on-overflow keeps at most 32 entries, the new value last, dropping only the oldest |
| CameraController.EnqueueRecent | Assets/Scripts/CameraController.cs:98-105 | a window holding the last 32 values of a history holds the last 32 of the history extended by the new value |
| CameraController.Push | Assets/Scripts/CameraController.cs:96-110 | both windows grow together up to 32 with the new values last; prev := old push time, push := now, delta := push - prev; working values untouched |
| CameraController.WindowsHoldRecentPushes | Assets/Scripts/CameraController.cs:96-110 | after any push history each window holds the most recent min(n, 32) values in push order, and the push time is the last push's |
| CameraController.MeanRealBounds | Assets/Scripts/CameraController.cs:50-55 | the window mean (sum / count) lies between the window's least and greatest entries |
| CameraController.MeanRealConstant | Assets/Scripts/CameraController.cs:50-55 | a window of equal entries has that entry as its mean |
| CameraController.SmoothStepRange | Assets/Scripts/CameraController.cs:59 | SmoothStep(from, to, t) stays within [from, to] because t is clamped to [0, 1] |
| CameraController.EaseMonotone | Assets/Scripts/CameraController.cs:59 | the SmoothStep ease is non-decreasing on [0, 1] |
| CameraController.ZoomStep | Assets/Scripts/CameraController.cs:57-59 | the zoom step SmoothStep(-5, 5, mean - 0.75) lies in [-5, 5] |
| CameraController.ZoomStepShape | Assets/Scripts/CameraController.cs:57-59 | the zoom step is non-decreasing in the mean, is -5 up to a mean of 0.75, is +5 from 1.75, and changes sign at 1.25 |
| CameraController.UpdateZoom | Assets/Scripts/CameraController.cs:45-65 | an empty window leaves everything untouched; otherwise z moves by the zoom step times speed·dt, at most 5·speed·dt either way |
| CameraController.ZoomDirection | Assets/Scripts/CameraController.cs:57-63 | with positive speed·dt the camera's local z grows when every metric in the window is below 1.25 and shrinks when every one is above |
| CameraController.UpdateLookAt | Assets/Scripts/CameraController.cs:72-82 | an empty window changes nothing and the window itself is never changed; with its partners `LookAtWithinWindow` and `LookAtFollowsHistory`, the working look-at point stays within the box the window spans and is the mean of the last min(n, 32) pushed points |
| CameraController.LookAtWithinWindow | Assets/Scripts/CameraController.cs:72-82 | on each axis, the working look-at point lies within any interval that holds every point of the window |
| CameraController.LookAtFollowsHistory | Assets/Scripts/CameraController.cs:72-82 | after any non-empty push history, the working look-at point is the mean of the last min(n, 32) pushed points |
| CameraController.LookAtOfSteadyWindow | Assets/Scripts/CameraController.cs:77-82 | a window holding one point throughout makes that point the working look-at point |
| CameraController.TwoPushExample | Assets/Scripts/CameraController.cs:77-82 | pushing (0,0,0), 0.1 and then (2,0,0), 0.9 gives the look-at point (1,0,0) and the mean metric 0.5 |
| ParticleCollection.InstanceCount | Assets/Scripts/ParticleCollection.cs:87-91 | the instance count is the enum's integer value: 4096·2^k, a multiple of 64 |
| ParticleCollection.SetupMaterial | Assets/Scripts/ParticleCollection.cs:181-242 | Points → (1, 24, points), Lines → (2, 36, lines), Tetrahedrons → (12, 192, triangles); Additive → (One, One), Solid → (Zero, One); four keywords are appended |
| ParticleCollection.KeywordPartition | Assets/Scripts/ParticleCollection.cs:181-235 | the two keyword lists hold each of the four keywords exactly once; the topology's own build keyword, and the collision keyword iff collision is on, are enabled |
| ParticleCollection.OtherBuildKeywords | Assets/Scripts/ParticleCollection.cs:199-235 | each topology disables exactly the two build keywords other than its own |
| ParticleCollection.VerticesAreWholePrimitives | Assets/Scripts/ParticleCollection.cs:199-242 | the vertices of an instance are a whole number of primitives of its mesh topology |
| ParticleCollection.SetupBuffers | Assets/Scripts/ParticleCollection.cs:141-151 | each buffer is created only if absent; the geometry buffer has VerticesPerInstance·InstanceCount elements; the args buffer is one element of 16 bytes |
| ParticleCollection.DrawStaysInGeometryBuffer | Assets/Scripts/ParticleCollection.cs:124-147 | the prepared draw arguments ask for no instances by themselves; a draw of up to InstanceCount instances of VerticesPerInstance vertices stays within the fresh geometry buffer, filling it exactly at InstanceCount |
| ParticleCollection.PrepareForRender | Assets/Scripts/ParticleCollection.cs:124-139 | the draw arguments are [VerticesPerInstance, 0, 0, 0], filling the args buffer, and the append counter is reset to 0 |
| ParticleCollection.ClusterIndex | Assets/Scripts/ParticleCollection.cs:256-273 | for at least one cluster, floor(i·ClusterCount/InstanceCount) names an existing cluster |
| ParticleCollection.ClusterIndexMonotone | Assets/Scripts/ParticleCollection.cs:273 | the cluster index is non-decreasing in the particle index |
| ParticleCollection.ScaleMasses | Assets/Scripts/ParticleCollection.cs:270-276 | every mass is multiplied by the same scalar |
| ParticleCollection.NormaliseMasses | Assets/Scripts/ParticleCollection.cs:259-276 | after scaling by TotalMass / Σmass the masses sum to TotalMass, keep their shares of the total, and stay positive |
| ParticleCollection.SetupParticles | Assets/Scripts/ParticleCollection.cs:245-312 | fails (throws) exactly when ClusterCount < 1; otherwise InstanceCount particles with the drawn entropy and velocity, each mass the drawn mass's share of TotalMass (mass·Σdrawn = drawn·TotalMass, positive for a positive TotalMass), the masses summing to TotalMass, placed at origin + their cluster's origin + direction·radius |
| ReadbackStats.GrowAsWritten | Assets/Scripts/UniverseRenderer.cs:300-310 | one step under Unity Rect semantics: x and y never increase, width and height never decrease, moving x or y keeps width or height, the point lies inside |
| ReadbackStats.FoldAsWritten | Assets/Scripts/UniverseRenderer.cs:277-310 | the as-written rectangle starts at (0,0,0,0), keeps non-negative width and height, and contains the last sample |
| ReadbackStats.AsWrittenAreaNonNegative | Assets/Scripts/UniverseRenderer.cs:313 | the as-written area width·height is never negative |
| ReadbackStats.AsWrittenLosesEarlierPoints | Assets/Scripts/UniverseRenderer.cs:300-313 | after (1,1) and (-1,-1) the as-written rectangle is (-1,-1,1,1), no longer contains (1,1), and has area 1 |
| ReadbackStats.AsWrittenWithinBounds | Assets/Scripts/UniverseRenderer.cs:277-310 | the as-written rectangle has the bounding box's corner and is no wider and no taller |
| ReadbackStats.AsWrittenUnderstatesArea | Assets/Scripts/UniverseRenderer.cs:277-313 | the as-written area never exceeds the area of the bounding box of the samples |
| ReadbackStats.GrowBoundsContains | Assets/Scripts/UniverseRenderer.cs:300-310 | a corrected step keeps every point the rectangle held and adds the new one |
| ReadbackStats.FoldBoundsIsBoundingBox | Assets/Scripts/UniverseRenderer.cs:277-310 | the corrected rectangle contains the origin and every sample, and each edge lies on the origin or on a sample |
| ReadbackStats.BoundsAreaNonNegative | Assets/Scripts/UniverseRenderer.cs:313 | the corrected area is never negative |
| ReadbackStats.BoundsKeepEarlierPoints | Assets/Scripts/UniverseRenderer.cs:300-310 | on (1,1) then (-1,-1) the corrected rectangle is (-1,-1,2,2), of area 4 |
| ReadbackStats.TruncateToInt | Assets/Scripts/UniverseRenderer.cs:271 | the float-to-int cast truncates toward zero |
| ReadbackStats.SampleCount | Assets/Scripts/UniverseRenderer.cs:271 | the loop runs (int)(N·SampleRatio) times: none for N = 0 or a non-positive ratio, otherwise the integer part of N·ratio |
| ReadbackStats.RandomRangeInt | Assets/Scripts/UniverseRenderer.cs:282 | the integer Random.Range excludes its maximum, and returns min when the bounds are equal |
| ReadbackStats.RandomRangeIntCovers | Assets/Scripts/UniverseRenderer.cs:282 | every value of [min, max) can be drawn |
| ReadbackStats.SampleIndex | Assets/Scripts/UniverseRenderer.cs:282 | a sampled index is in bounds for N ≥ 1 |
| ReadbackStats.LastParticleNeverSampled | Assets/Scripts/UniverseRenderer.cs:282 | for N ≥ 2 the last particle is never sampled |
| ReadbackStats.Sample | Assets/Scripts/UniverseRenderer.cs:271-313 | with no samples the centroid is zero and the area 0; otherwise the centroid is the mean of the sampled positions and the area that of the as-written rectangle, never negative and never above the bounding box's area |
| UniverseRenderer.PingPong | Assets/Scripts/UniverseRenderer.cs:331-338 | on valid indices a flip keeps them distinct and in {0, 1} and swaps read and write |
| UniverseRenderer.PingPongTwiceIsIdentity | Assets/Scripts/UniverseRenderer.cs:331-334 | two flips restore the indices |
| UniverseRenderer.PingPongParity | Assets/Scripts/UniverseRenderer.cs:59-60 | starting from (0, 1), after n frames the indices are valid and the read index is n mod 2 |
| UniverseRenderer.CountInstances | Assets/Scripts/UniverseRenderer.cs:131-142 | the aggregate count is the sum of the non-null collections' instance counts, and each non-null collection starts at the count of all before it |
| UniverseRenderer.SegmentsTile | Assets/Scripts/UniverseRenderer.cs:131-142 | the collections' ranges [start, start + count) follow one another in list order inside the aggregate |
| UniverseRenderer.SetupAggregate | Assets/Scripts/UniverseRenderer.cs:356-367 | with corrected offsets the aggregate array is the concatenation of the collections' particle arrays, of the aggregate count |
| UniverseRenderer.AggregateHoldsEachCollection | Assets/Scripts/UniverseRenderer.cs:363-366 | each collection's k-th particle is at its start position + k in the aggregate |
| UniverseRenderer.CopyOffsetsAsWritten | Assets/Scripts/UniverseRenderer.cs:356-367 | as written, each non-null collection is copied at the previous non-null collection's instance count |
| UniverseRenderer.AsWrittenCopyInBounds | Assets/Scripts/UniverseRenderer.cs:365 | the as-written copies never run past the aggregate array, so nothing raises an error |
| UniverseRenderer.AsWrittenOffsetFallsShort | Assets/Scripts/UniverseRenderer.cs:366 | after two non-null collections the as-written offset is strictly below the start position |
| UniverseRenderer.AsWrittenOffsetsExample | Assets/Scripts/UniverseRenderer.cs:356-367 | three 4096-particle collections get offsets 0, 4096, 4096 where the start positions are 0, 4096, 8192 |
| UniverseRenderer.AggregateAsWritten | Assets/Scripts/UniverseRenderer.cs:355-367 | the aggregate array the copy loop as written fills has the aggregate count's length; with its partners `AsWrittenCorrectForTwo` and `AsWrittenDropsTail`, it is the concatenation for at most two collections and loses the last record for three or more |
| UniverseRenderer.AsWrittenCorrectForTwo | Assets/Scripts/UniverseRenderer.cs:355-370 | with at most two non-null collections the as-written copy loop yields exactly the concatenation of the collections |
| UniverseRenderer.ExactOffsetsConcatenate | Assets/Scripts/UniverseRenderer.cs:355-370 | whenever each copy offset equals its start position, the as-written array is the concatenation followed by zero records |
| UniverseRenderer.AsWrittenDropsTail | Assets/Scripts/UniverseRenderer.cs:355-370 | with three or more non-null collections the last record of the as-written array stays zero, so it differs from the concatenation whenever the last particle is not the zero record |
| UniverseRenderer.SetupBuffers | Assets/Scripts/UniverseRenderer.cs:345-371 | fails (the zero-length particle buffer throws) exactly when there are no particles; otherwise a 4-slot actor buffer of 32-byte elements, and both particle buffers receive the same aggregate array of the aggregate count, filled by the copy loop as written |
| UniverseRenderer.OnActorsUpdated | Assets/Scripts/UniverseRenderer.cs:249-256 | the actor count is the dictionary size; the array has Limit records, the dictionary's values in enumeration order followed by zero records |
| UniverseRenderer.SnapshotHoldsRegistry | Assets/Scripts/UniverseRenderer.cs:253-255 | the first actorCount records are exactly the registered records |
| UniverseRenderer.Start | Assets/Scripts/UniverseRenderer.cs:114-155 | fails, leaving the renderer and registry untouched, exactly when some collection has no cluster or there are no particles; otherwise: initialised, indices (0, 1), one readback outstanding, the registry's change delegate set, each collection's particles as its setup promises, start positions as above, both buffers the as-written aggregate, a fresh actor snapshot |
| UniverseRenderer.StartFailsIff | Assets/Scripts/UniverseRenderer.cs:131-151 | Start fails exactly when some collection has no cluster or the list is empty or all null |
| UniverseRenderer.Update | Assets/Scripts/UniverseRenderer.cs:157-177 | nothing before initialisation; afterwards one ping-pong and InstanceCount/64 groups per non-null collection |
| UniverseRenderer.DispatchCoversAggregate | Assets/Scripts/UniverseRenderer.cs:340-343 | one frame's dispatches launch one thread per particle of the aggregate |
| UniverseRenderer.OnDestroy | Assets/Scripts/UniverseRenderer.cs:179-201 | clears the flag; releases and unsubscribes only if initialised |
| UniverseRenderer.Unsubscribe | Assets/Scripts/UniverseRenderer.cs:181-200 | OnDestroy of an initialised renderer leaves the registry's dictionary as it is and its change delegate empty; before initialisation the registry is untouched |
| UniverseRenderer.ListenerFollowsLifecycle | Assets/Scripts/UniverseRenderer.cs:149 | once Start has subscribed, the renderer is told of exactly the dictionary updates that change the dictionary; after OnDestroy, of none |
| UniverseRenderer.DestroyTwiceReleasesOnce | Assets/Scripts/UniverseRenderer.cs:181-184 | a second OnDestroy changes nothing and releases nothing |
| UniverseRenderer.ReadbackStep | Assets/Scripts/UniverseRenderer.cs:258-318 | a completed readback issues a new request iff the renderer is initialised and the readback succeeded |
| UniverseRenderer.OnAsyncGPUReadback | Assets/Scripts/UniverseRenderer.cs:258-318 | when not initialised or failed, no push and no new request; otherwise the sample's centroid and area are pushed to the camera and a new request is issued |
| UniverseRenderer.SingleFlight | Assets/Scripts/UniverseRenderer.cs:317 | at most one readback request is ever outstanding |
| UniverseRenderer.ChainContinues | Assets/Scripts/UniverseRenderer.cs:317 | while initialised and successful, exactly one request stays outstanding |
| UniverseRenderer.StoppedChainStaysStopped | Assets/Scripts/UniverseRenderer.cs:260-267 | once no request is outstanding (after a failure or after destruction), none is ever issued again |
| UniverseRenderer.DestroyedStaysInert | Assets/Scripts/UniverseRenderer.cs:159-160 | after OnDestroy the renderer stays uninitialised, its indices frozen, with no new requests |
| CameraGrid.BuildVertices | Assets/Scripts/CameraGrid.cs:125-155 | 4·(Divisions+1) vertices and as many indices, the indices 0, 1, 2, … in order; nothing for negative Divisions |
| CameraGrid.GridIsFlat | Assets/Scripts/CameraGrid.cs:133-153 | every vertex has y = 0 |
| CameraGrid.GridWithinSquare | Assets/Scripts/CameraGrid.cs:127-153 | for Divisions > 0 and Scale ≥ 0 every vertex's x and z lie in [-Scale/2, Scale/2] |
| CameraGrid.GridLinesPair | Assets/Scripts/CameraGrid.cs:133-153 | vertices 4i, 4i+1 form a column at x = i·Scale/D - Scale/2 spanning z = ±Scale/2; vertices 4i+2, 4i+3 form the row at that z |

## Left out

- The force law and integration step. They live in a compute shader that is not part of this model. `SetComputeShaderProperties`, `SetupComputeShader` and the global keyword setters only forward parameters.
- Engine calls are represented by the values they are given:
  - `ComputeBuffer` creation, `SetData` and `Release`;
  - material and shader keyword toggling;
  - `Graphics.DrawProceduralIndirectNow`, `CommandBuffer` and `Mesh` submission;
  - `AsyncGPUReadback` transport;
  - `Camera` matrices, `MultiplyPoint` and `Quaternion` rotations.
- Random values are draws supplied as inputs:
  - `Random.InitState(Seed)` is not modelled;
  - the sphere, disc and velocity formulas of `SetupParticles` are folded into each particle's drawn direction, radius and velocity.
- Float rounding, infinities and NaN: every float is a `real`.
  - `ParticleCollection.ClusterIndex` is therefore exact. A rounded `i * clusterRatio` could in principle reach `ClusterCount` for the last particle.
  - `CameraGrid.BuildVertices` requires `Divisions != 0`. In the source a zero `Divisions` gives an infinite or NaN factor.
- The look-at rotation blend (CameraController.cs:83-86) and the auto-orbit rotation are quaternion and time numerics. The `Mathf.Max(delta, float.MinValue)` guard never guards anything, since `float.MinValue` is the most negative float.
- `SetScale`, `OnPostRenderCallback`, `CameraControls.cs` and `Common.cs`: engine-only unit scaling, draw submission, keyboard input and string constants.
- Editor-only code: `OnDrawGizmos`, `OnValidate`, the `Diagnostics` logging and rays, and `CameraGrid.Update`.
- `MeasurementContainer` is not part of this model. Force, mass, radius and total mass are taken as already-scaled reals.
- Concurrency and statics: the static dictionary, queues and delegates are one sequential state value, and callbacks run one at a time.
- The directional-light search in `Start` is not modelled, nor are the light colour and direction passed to `SetupMaterial`.
- Dictionary enumeration order. `UniverseRenderer.OnActorsUpdated` takes the order as an input listing each key once. No insertion order is promised.
- `UniverseActor.Init` sets a `Radius` field (UniverseActor.cs:80) that `ActorData` in Datatypes.cs:16-21 does not declare. The model uses the three declared fields.
- The actor buffer stride of 32 bytes (UniverseRenderer.cs:347) is recorded against the 28 bytes of the record; see `Datatypes.ActorStrideHasPadding`.
- The default `ParticleCount.Large_65536` (ParticleCollection.cs:21) names no member of the enum in Datatypes.cs:45-54. The model uses the enum as declared.
- The collision keyword constant and the `BlendMode` and `DistanceFunction` enums are not defined in the modelled files. They are modelled as plain enumerations.
- `CameraGrid.BuildVertices` starts from empty vertex and index lists, as it does when `Start` calls it once. It does not model appending to lists that already hold entries.
- `ParticleCollection.SetupMaterial` states the length of the keyword lists it extends, not that the lists passed in are kept as a prefix. Starting from empty lists, `ParticleCollection.KeywordPartition` states their full contents.
- `UniverseRenderer.Update` models only the dispatch group counts and the ping-pong. `PrepareForRender` per collection is `ParticleCollection.PrepareForRender`, and the compute-shader property setting is left out as above.
- `UniverseRenderer.Start` models, per collection, only the particle setup that can throw. The material and buffer setup that `Setup` runs first are `ParticleCollection.SetupMaterial` and `ParticleCollection.SetupBuffers`, and they cannot fail.
- `UniverseRenderer.Start` takes the entries to be distinct collections. In the source an entry is a reference to a shared `ParticleCollection` asset, so a collection listed twice is set up twice (UniverseRenderer.cs:140). The second `Setup` overwrites its particles and start position (ParticleCollection.cs:99-101). Both segments of the aggregate then receive the second set of particles, and both dispatches use the second start position. The model gives each entry its own particles and start position.
- `UniverseRenderer.Unsubscribe` treats the renderer as the only subscriber of the registry's change delegate, so removing it leaves the delegate empty. The camera registration at UniverseRenderer.cs:148 and :199 is engine-only.

## Findings

| source | as written | input that shows it | evidently intended | confidence | as-written member | corrected member |
|---|---|---|---|---|---|---|
| Assets/Scripts/UniverseRenderer.cs:300-310 | `rectCS.x = centreCS.x` moves a Unity `Rect` corner while keeping its width, so the right edge moves left too (likewise for y and height) | clip-space samples (1, 1) then (-1, -1): the rectangle becomes (-1, -1) with width and height 1, which excludes (1, 1); its area is 1 where the bounding box's is 4 | a bounding rectangle of the samples (min of the left edges, max of the right edges) | high (Unity `Rect` setter semantics), not executed | ReadbackStats.AsWrittenLosesEarlierPoints | ReadbackStats.FoldBoundsIsBoundingBox |
| Assets/Scripts/UniverseRenderer.cs:366 | `prevInstanceCount = collection.InstanceCount` keeps only the previous collection's count | three collections of 4096 particles: the third is copied at 4096 over the second, and elements 8192-12287 stay zero, while the shader is told it starts at 8192 (line 411) | `prevInstanceCount += collection.InstanceCount`, the running start position | high, not executed | UniverseRenderer.AsWrittenDropsTail | UniverseRenderer.AggregateHoldsEachCollection |
