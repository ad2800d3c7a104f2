/** The renderer's bookkeeping around the compute shader: the two-slot
    ping-pong of the particle buffers, the aggregate particle layout of all
    collections, the padded actor snapshot, the lifecycle gates of Start,
    Update and OnDestroy, and the self-re-issuing GPU readback chain.

    Engine objects become values: a collection slot is an `Option<Config>`
    (None for a null reference), a GPU buffer is the sequence it holds, and
    an outstanding readback request is a count. */
module UniverseRenderer {
  import opened Datatypes
  import UniverseActor
  import ParticleCollection
  import CameraController
  import ReadbackStats

  // ---------------------------------------------------------------------
  // Ping-pong of the two particle buffers
  // ---------------------------------------------------------------------

  /** Which of the two particle buffers is read and which is written. */
  datatype BufferIndices = BufferIndices(read: nat, write: nat)

  /** The indices the renderer starts with. */
  const InitialIndices := BufferIndices(0, 1)

  predicate ValidIndices(b: BufferIndices) {
    b.read < 2 && b.write < 2 && b.read != b.write
  }

  /** Advances both indices modulo 2: on valid indices the two swap roles,
      so last frame's output becomes this frame's input. */
  function PingPong(b: BufferIndices): (b': BufferIndices)
    ensures ValidIndices(b) ==> ValidIndices(b')
    ensures ValidIndices(b) ==> b'.read == b.write && b'.write == b.read
  {
    BufferIndices((b.read + 1) % 2, (b.write + 1) % 2)
  }

  /** Two flips restore the original indices. */
  lemma PingPongTwiceIsIdentity(b: BufferIndices)
    requires ValidIndices(b)
    ensures PingPong(PingPong(b)) == b
  {
  }

  /** The indices after `n` frames. */
  function PingPongN(n: nat): BufferIndices
  {
    if n == 0 then InitialIndices else PingPong(PingPongN(n - 1))
  }

  /** After `n` frames the indices are distinct, in {0, 1}, and the read
      index is the parity of `n`. */
  lemma {:induction false} PingPongParity(n: nat)
    ensures ValidIndices(PingPongN(n))
    ensures PingPongN(n).read == n % 2 && PingPongN(n).write == (n + 1) % 2
  {
    if n > 0 {
      PingPongParity(n - 1);
      ParityStep(n);
      if (n - 1) % 2 == 0 {
        assert PingPongN(n - 1) == BufferIndices(0, 1);
      } else {
        assert PingPongN(n - 1) == BufferIndices(1, 0);
      }
    }
  }

  lemma ParityStep(n: nat)
    requires n > 0
    ensures (n - 1) % 2 == 0 ==> n % 2 == 1 && (n + 1) % 2 == 0
    ensures (n - 1) % 2 == 1 ==> n % 2 == 0 && (n + 1) % 2 == 1
  {
  }

  // ---------------------------------------------------------------------
  // Aggregate particle layout
  // ---------------------------------------------------------------------

  /** One entry of the collection list: None stands for a null reference. */
  type Entry = Option<ParticleCollection.Config>

  /** The particles an entry contributes: none for a null reference. */
  function Count(e: Entry): nat {
    if e.Some? then ParticleCollection.InstanceCount(e.value) else 0
  }

  /** The number of particles of all entries. */
  function TotalCount(es: seq<Entry>): nat
    decreases |es|
  {
    if |es| == 0 then 0 else TotalCount(es[..|es| - 1]) + Count(es[|es| - 1])
  }

  /** The counting loop of Start: the aggregate instance count, and the start
      position each non-null collection is set up with, which is the count
      of all the entries before it. */
  method CountInstances(es: seq<Entry>) returns (total: nat, starts: seq<Option<nat>>)
    ensures total == TotalCount(es)
    ensures |starts| == |es|
    ensures forall i :: 0 <= i < |es| ==> (starts[i].Some? <==> es[i].Some?)
    ensures forall i :: 0 <= i < |es| && es[i].Some? ==> starts[i].value == TotalCount(es[..i])
  {
    total := 0;
    starts := [];
    var i := 0;
    while i < |es|
      invariant 0 <= i <= |es|
      invariant total == TotalCount(es[..i])
      invariant |starts| == i
      invariant forall k :: 0 <= k < i ==> (starts[k].Some? <==> es[k].Some?)
      invariant forall k :: 0 <= k < i && es[k].Some? ==> starts[k].value == TotalCount(es[..k])
    {
      assert es[..i + 1][..i] == es[..i];
      if es[i].Some? {
        starts := starts + [Some(total)];
        total := total + ParticleCollection.InstanceCount(es[i].value);
      } else {
        starts := starts + [None];
      }
      i := i + 1;
    }
    assert es[..|es|] == es;
  }

  lemma TotalCountStep(es: seq<Entry>, i: nat)
    requires i < |es|
    ensures TotalCount(es[..i + 1]) == TotalCount(es[..i]) + Count(es[i])
  {
    assert es[..i + 1][..i] == es[..i];
  }

  /** Counting a longer prefix never gives less. */
  lemma {:induction false} PrefixTotalMonotone(es: seq<Entry>, i: nat, j: nat)
    requires i <= j <= |es|
    ensures TotalCount(es[..i]) <= TotalCount(es[..j])
    decreases j - i
  {
    if i < j {
      PrefixTotalMonotone(es, i, j - 1);
      TotalCountStep(es, j - 1);
    }
  }

  /** The ranges [start, start + count) of the collections tile the
      aggregate in list order: each ends no later than any later one starts,
      and no later than the aggregate ends. */
  lemma {:induction false} SegmentsTile(es: seq<Entry>, i: nat, j: nat)
    requires i < j <= |es|
    ensures TotalCount(es[..i]) + Count(es[i]) <= TotalCount(es[..j])
    ensures TotalCount(es[..i]) + Count(es[i]) <= TotalCount(es)
  {
    TotalCountStep(es, i);
    PrefixTotalMonotone(es, i + 1, j);
    PrefixTotalMonotone(es, j, |es|);
    assert es[..|es|] == es;
  }

  /** The concatenation of a sequence of particle arrays. */
  function Flatten(parts: seq<seq<ParticleData>>): seq<ParticleData>
    decreases |parts|
  {
    if |parts| == 0 then [] else Flatten(parts[..|parts| - 1]) + parts[|parts| - 1]
  }

  lemma {:induction false} FlattenAppend(a: seq<seq<ParticleData>>, b: seq<seq<ParticleData>>)
    ensures Flatten(a + b) == Flatten(a) + Flatten(b)
    decreases |b|
  {
    if |b| > 0 {
      var b' := b[..|b| - 1];
      var last := b[|b| - 1];
      FlattenAppend(a, b');
      assert a + b == (a + b') + [last];
      assert (a + b)[..|a + b| - 1] == a + b';
      calc {
        Flatten(a + b);
        Flatten(a + b') + last;
        (Flatten(a) + Flatten(b')) + last;
        Flatten(a) + (Flatten(b') + last);
        Flatten(a) + Flatten(b);
      }
    } else {
      assert a + b == a;
    }
  }

  /** Each collection's particle array has its instance count of elements
      (null entries contribute an empty one). */
  predicate PartsMatch(es: seq<Entry>, parts: seq<seq<ParticleData>>) {
    |parts| == |es| && forall i :: 0 <= i < |es| ==> |parts[i]| == Count(es[i])
  }

  lemma {:induction false} FlattenLength(es: seq<Entry>, parts: seq<seq<ParticleData>>)
    requires PartsMatch(es, parts)
    ensures |Flatten(parts)| == TotalCount(es)
    decreases |es|
  {
    if |es| > 0 {
      var n := |es| - 1;
      FlattenLength(es[..n], parts[..n]);
    }
  }

  /** `dst` with the elements from `offset` on overwritten by `src`: an
      Array.Copy of a whole source array. */
  function CopyInto(dst: seq<ParticleData>, src: seq<ParticleData>, offset: nat): (r: seq<ParticleData>)
    requires offset + |src| <= |dst|
    ensures |r| == |dst|
    ensures r[offset..offset + |src|] == src
    ensures forall k :: 0 <= k < |dst| && !(offset <= k < offset + |src|) ==> r[k] == dst[k]
  {
    dst[..offset] + src + dst[offset + |src|..]
  }

  /** The copy loop of SetupBuffers with each collection copied at its start
      position: the aggregate array is the concatenation of the collections'
      particle arrays in list order. */
  method SetupAggregate(es: seq<Entry>, parts: seq<seq<ParticleData>>) returns (agg: seq<ParticleData>)
    requires PartsMatch(es, parts)
    ensures |agg| == TotalCount(es)
    ensures agg == Flatten(parts)
  {
    var total := TotalCount(es);
    agg := seq(total, _ => ZeroParticle);
    var offset := 0;
    var i := 0;
    while i < |es|
      invariant 0 <= i <= |es|
      invariant offset == TotalCount(es[..i])
      invariant |agg| == total
      invariant offset <= total
      invariant agg[..offset] == Flatten(parts[..i])
    {
      TotalCountStep(es, i);
      PrefixTotalMonotone(es, i + 1, |es|);
      assert es[..|es|] == es;
      assert parts[..i + 1][..i] == parts[..i];
      var next := CopyInto(agg, parts[i], offset);
      assert next[..offset] == agg[..offset];
      assert next[..offset + |parts[i]|] == agg[..offset] + parts[i];
      agg := next;
      offset := offset + |parts[i]|;
      i := i + 1;
    }
    assert parts[..|es|] == parts;
    FlattenLength(es, parts);
  }

  /** Each collection's particles sit in the aggregate at its start position. */
  lemma AggregateHoldsEachCollection(es: seq<Entry>, parts: seq<seq<ParticleData>>, i: nat, k: nat)
    requires PartsMatch(es, parts)
    requires i < |es| && k < |parts[i]|
    ensures TotalCount(es[..i]) + k < |Flatten(parts)|
    ensures Flatten(parts)[TotalCount(es[..i]) + k] == parts[i][k]
  {
    var before := parts[..i + 1];
    var after := parts[i + 1..];
    assert parts == before + after;
    FlattenAppend(before, after);
    assert before[..i] == parts[..i];
    assert Flatten(before) == Flatten(parts[..i]) + parts[i];
    assert PartsMatch(es[..i], parts[..i]);
    FlattenLength(es[..i], parts[..i]);
    var prefix := Flatten(parts[..i]);
    assert Flatten(parts) == (prefix + parts[i]) + Flatten(after);
    assert (prefix + parts[i])[|prefix| + k] == parts[i][k];
  }

  /** What `prevInstanceCount` holds after the copy loop has visited `es`:
      the instance count of the last non-null entry, or 0. */
  function PrevCount(es: seq<Entry>): nat
    decreases |es|
  {
    if |es| == 0 then 0
    else if es[|es| - 1].Some? then Count(es[|es| - 1])
    else PrevCount(es[..|es| - 1])
  }

  /** The copy offsets of SetupBuffers as written: each non-null collection
      is copied at the instance count of the previous non-null one, not at
      the running sum of all of them. */
  method CopyOffsetsAsWritten(es: seq<Entry>) returns (offsets: seq<Option<nat>>)
    ensures |offsets| == |es|
    ensures forall i :: 0 <= i < |es| ==> (offsets[i].Some? <==> es[i].Some?)
    ensures forall i :: 0 <= i < |es| && es[i].Some? ==> offsets[i].value == PrevCount(es[..i])
  {
    offsets := [];
    var prev := 0;
    var i := 0;
    while i < |es|
      invariant 0 <= i <= |es|
      invariant prev == PrevCount(es[..i])
      invariant |offsets| == i
      invariant forall k :: 0 <= k < i ==> (offsets[k].Some? <==> es[k].Some?)
      invariant forall k :: 0 <= k < i && es[k].Some? ==> offsets[k].value == PrevCount(es[..k])
    {
      assert es[..i + 1][..i] == es[..i];
      if es[i].Some? {
        offsets := offsets + [Some(prev)];
        prev := ParticleCollection.InstanceCount(es[i].value);
      } else {
        offsets := offsets + [None];
      }
      i := i + 1;
    }
  }

  lemma {:induction false} PrevCountAtMostTotal(es: seq<Entry>)
    ensures PrevCount(es) <= TotalCount(es)
    decreases |es|
  {
    if |es| > 0 {
      PrevCountAtMostTotal(es[..|es| - 1]);
    }
  }

  /** The as-written copies never run past the end of the aggregate array,
      so the defect corrupts the layout without raising an error. */
  lemma AsWrittenCopyInBounds(es: seq<Entry>, i: nat)
    requires i < |es|
    ensures PrevCount(es[..i]) + Count(es[i]) <= TotalCount(es)
  {
    PrevCountAtMostTotal(es[..i]);
    SegmentsTile(es, i, |es|);
  }

  /** The count of one entry is part of the total. */
  lemma {:induction false} EntryWithinTotal(es: seq<Entry>, i: nat)
    requires i < |es|
    ensures Count(es[i]) <= TotalCount(es)
    decreases |es|
  {
    if i < |es| - 1 {
      EntryWithinTotal(es[..|es| - 1], i);
    }
  }

  /** With two non-null collections before it, a collection is copied
      strictly before its start position: its particles overwrite a
      collection before it. */
  lemma {:induction false} AsWrittenOffsetFallsShort(es: seq<Entry>, i: nat, j: nat)
    requires i < j < |es|
    requires es[i].Some? && es[j].Some?
    ensures PrevCount(es) < TotalCount(es)
    decreases |es|
  {
    var n := |es| - 1;
    var init := es[..n];
    if es[n].Some? {
      EntryWithinTotal(init, i);
      assert init[i] == es[i];
    } else {
      assert init[i] == es[i] && init[j] == es[j];
      AsWrittenOffsetFallsShort(init, i, j);
    }
  }

  /** Three collections of 4096 particles: the as-written offsets are 0,
      4096 and 4096, while the start positions are 0, 4096 and 8192. */
  lemma AsWrittenOffsetsExample(c: ParticleCollection.Config)
    requires c.particleCount == P4096
    ensures var es := [Some(c), Some(c), Some(c)];
            && PrevCount(es[..0]) == 0 && TotalCount(es[..0]) == 0
            && PrevCount(es[..1]) == 4096 && TotalCount(es[..1]) == 4096
            && PrevCount(es[..2]) == 4096 && TotalCount(es[..2]) == 8192
  {
    var es: seq<Entry> := [Some(c), Some(c), Some(c)];
    assert es[..1][..0] == [];
    assert es[..2][..1] == es[..1];
  }

  /** `n` zero records: a freshly allocated particle array. */
  function Zeros(n: nat): (z: seq<ParticleData>)
    ensures |z| == n
    ensures forall k :: 0 <= k < n ==> z[k] == ZeroParticle
  {
    seq(n, _ => ZeroParticle)
  }

  /** The aggregate array of `size` records after the copy loop of
      SetupBuffers, as written, has visited `es`: each non-null collection's
      particles are copied at the instance count of the previous non-null
      collection. */
  function AggregateAsWritten(es: seq<Entry>, parts: seq<seq<ParticleData>>, size: nat): (agg: seq<ParticleData>)
    requires PartsMatch(es, parts)
    requires TotalCount(es) <= size
    ensures |agg| == size
    decreases |es|
  {
    if |es| == 0 then Zeros(size)
    else
      var n := |es| - 1;
      assert PartsMatch(es[..n], parts[..n]);
      var before := AggregateAsWritten(es[..n], parts[..n], size);
      if es[n].Some? then
        AsWrittenCopyInBounds(es, n);
        CopyInto(before, parts[n], PrevCount(es[..n]))
      else before
  }

  /** Every non-null collection is copied at its start position. */
  predicate OffsetsExact(es: seq<Entry>) {
    forall i :: 0 <= i < |es| && es[i].Some? ==> PrevCount(es[..i]) == TotalCount(es[..i])
  }

  /** At most two entries of the list are non-null. */
  predicate AtMostTwoCollections(es: seq<Entry>) {
    forall a, b, c :: 0 <= a < b < c < |es| ==> !(es[a].Some? && es[b].Some? && es[c].Some?)
  }

  /** A list of null entries counts no particles. */
  lemma {:induction false} NullEntriesCountNothing(es: seq<Entry>)
    requires forall i :: 0 <= i < |es| ==> es[i].None?
    ensures TotalCount(es) == 0
    decreases |es|
  {
    if |es| > 0 {
      NullEntriesCountNothing(es[..|es| - 1]);
    }
  }

  /** With at most one non-null entry, the previous count is the total. */
  lemma {:induction false} SingleCollectionOffsetExact(es: seq<Entry>)
    requires forall a, b :: 0 <= a < b < |es| ==> !(es[a].Some? && es[b].Some?)
    ensures PrevCount(es) == TotalCount(es)
    decreases |es|
  {
    if |es| > 0 {
      var n := |es| - 1;
      var init := es[..n];
      if es[n].Some? {
        forall i | 0 <= i < |init|
          ensures init[i].None?
        {
          assert init[i] == es[i];
        }
        NullEntriesCountNothing(init);
      } else {
        SingleCollectionOffsetExact(init);
      }
    }
  }

  /** With at most two collections, the as-written offsets are the start
      positions. */
  lemma TwoCollectionsOffsetsExact(es: seq<Entry>)
    requires AtMostTwoCollections(es)
    ensures OffsetsExact(es)
  {
    forall i | 0 <= i < |es| && es[i].Some?
      ensures PrevCount(es[..i]) == TotalCount(es[..i])
    {
      var xs := es[..i];
      forall a, b | 0 <= a < b < |xs|
        ensures !(xs[a].Some? && xs[b].Some?)
      {
        assert xs[a] == es[a] && xs[b] == es[b];
      }
      SingleCollectionOffsetExact(xs);
    }
  }

  /** Copying right after a filled prefix of a zeroed array extends the
      prefix. */
  lemma CopyAfterPrefix(prefix: seq<ParticleData>, src: seq<ParticleData>, size: nat)
    requires |prefix| + |src| <= size
    ensures CopyInto(prefix + Zeros(size - |prefix|), src, |prefix|)
            == (prefix + src) + Zeros(size - |prefix| - |src|)
  {
    var dst := prefix + Zeros(size - |prefix|);
    assert dst[..|prefix|] == prefix;
    assert dst[|prefix| + |src|..] == Zeros(size - |prefix| - |src|);
  }

  lemma OffsetsExactPrefix(es: seq<Entry>)
    requires |es| > 0 && OffsetsExact(es)
    ensures OffsetsExact(es[..|es| - 1])
  {
    var init := es[..|es| - 1];
    forall i | 0 <= i < |init| && init[i].Some?
      ensures PrevCount(init[..i]) == TotalCount(init[..i])
    {
      assert init[..i] == es[..i] && init[i] == es[i];
    }
  }

  /** One step of the as-written copy loop, unfolded. */
  lemma AggregateAsWrittenStep(es: seq<Entry>, parts: seq<seq<ParticleData>>, size: nat)
    requires PartsMatch(es, parts) && TotalCount(es) <= size && |es| > 0
    ensures PartsMatch(es[..|es| - 1], parts[..|es| - 1]) && TotalCount(es[..|es| - 1]) <= size
    ensures es[|es| - 1].Some? ==>
              && PrevCount(es[..|es| - 1]) + |parts[|es| - 1]| <= size
              && AggregateAsWritten(es, parts, size)
                 == CopyInto(AggregateAsWritten(es[..|es| - 1], parts[..|es| - 1], size),
                             parts[|es| - 1], PrevCount(es[..|es| - 1]))
    ensures es[|es| - 1].None? ==>
              && parts[|es| - 1] == []
              && AggregateAsWritten(es, parts, size) == AggregateAsWritten(es[..|es| - 1], parts[..|es| - 1], size)
  {
    var n := |es| - 1;
    assert PartsMatch(es[..n], parts[..n]);
    if es[n].Some? {
      AsWrittenCopyInBounds(es, n);
    }
  }

  /** When every offset is a start position, the as-written array is the
      concatenation of the collections followed by zeros. */
  lemma {:induction false} ExactOffsetsConcatenate(es: seq<Entry>, parts: seq<seq<ParticleData>>, size: nat)
    requires PartsMatch(es, parts)
    requires TotalCount(es) <= size
    requires OffsetsExact(es)
    ensures AggregateAsWritten(es, parts, size) == Flatten(parts) + Zeros(size - TotalCount(es))
    decreases |es|
  {
    if |es| > 0 {
      var n := |es| - 1;
      var init, rest := es[..n], parts[..n];
      assert PartsMatch(init, rest) && TotalCount(init) <= size;
      OffsetsExactPrefix(es);
      ExactOffsetsConcatenate(init, rest, size);
      FlattenLength(init, rest);
      ExactOffsetStep(es, parts, size, Flatten(rest));
    }
  }

  /** The inductive step of ExactOffsetsConcatenate: one more collection
      copied right after the concatenation so far. */
  lemma ExactOffsetStep(es: seq<Entry>, parts: seq<seq<ParticleData>>, size: nat, prefix: seq<ParticleData>)
    requires PartsMatch(es, parts) && TotalCount(es) <= size && |es| > 0
    requires OffsetsExact(es)
    requires prefix == Flatten(parts[..|es| - 1]) && |prefix| == TotalCount(es[..|es| - 1])
    requires PartsMatch(es[..|es| - 1], parts[..|es| - 1]) && TotalCount(es[..|es| - 1]) <= size
    requires AggregateAsWritten(es[..|es| - 1], parts[..|es| - 1], size) == prefix + Zeros(size - |prefix|)
    ensures AggregateAsWritten(es, parts, size) == Flatten(parts) + Zeros(size - TotalCount(es))
  {
    var n := |es| - 1;
    AggregateAsWrittenStep(es, parts, size);
    assert Flatten(parts) == prefix + parts[n];
    assert TotalCount(es) == |prefix| + |parts[n]|;
    if es[n].Some? {
      assert PrevCount(es[..n]) == |prefix|;
      CopyAfterPrefix(prefix, parts[n], size);
    } else {
      assert prefix + parts[n] == prefix;
    }
  }

  /** The aggregate the copy loop as written produces is the concatenation
      of the collections whenever there are at most two of them. */
  lemma AsWrittenCorrectForTwo(es: seq<Entry>, parts: seq<seq<ParticleData>>)
    requires PartsMatch(es, parts)
    requires AtMostTwoCollections(es)
    ensures AggregateAsWritten(es, parts, TotalCount(es)) == Flatten(parts)
  {
    TwoCollectionsOffsetsExact(es);
    ExactOffsetsConcatenate(es, parts, TotalCount(es));
  }

  /** Records from `bound` on are never written when every copy ends by
      `bound`: they keep the zero record. */
  lemma {:induction false} CopiesEndBy(es: seq<Entry>, parts: seq<seq<ParticleData>>, size: nat, bound: nat)
    requires PartsMatch(es, parts)
    requires TotalCount(es) <= size
    requires forall i :: 0 <= i < |es| && es[i].Some? ==> PrevCount(es[..i]) + Count(es[i]) <= bound
    ensures forall k :: bound <= k < size ==> AggregateAsWritten(es, parts, size)[k] == ZeroParticle
    decreases |es|
  {
    if |es| > 0 {
      var n := |es| - 1;
      var init := es[..n];
      assert PartsMatch(init, parts[..n]);
      forall i | 0 <= i < |init| && init[i].Some?
        ensures PrevCount(init[..i]) + Count(init[i]) <= bound
      {
        assert init[..i] == es[..i] && init[i] == es[i];
      }
      CopiesEndBy(init, parts[..n], size, bound);
    }
  }

  /** Each copy of a non-null collection ends before the last record of the
      aggregate once there are three collections. */
  lemma CopyEndsShort(es: seq<Entry>, a: nat, b: nat, c: nat, i: nat)
    requires a < b < c < |es|
    requires es[a].Some? && es[b].Some? && es[c].Some?
    requires i < |es| && es[i].Some?
    ensures PrevCount(es[..i]) + Count(es[i]) < TotalCount(es)
  {
    TotalCountStep(es, i);
    if b < i {
      var xs := es[..i];
      assert xs[a] == es[a] && xs[b] == es[b];
      AsWrittenOffsetFallsShort(xs, a, b);
      PrefixTotalMonotone(es, i + 1, |es|);
      assert es[..|es|] == es;
    } else {
      PrevCountAtMostTotal(es[..i]);
      SegmentsTile(es, i, c);
      SegmentsTile(es, c, |es|);
    }
  }

  /** With three or more collections the copy loop as written never reaches
      the last record of the aggregate: it stays the zero record, so the
      buffers differ from the concatenation whenever the last collection's
      last particle is not the zero record. */
  lemma AsWrittenDropsTail(es: seq<Entry>, parts: seq<seq<ParticleData>>, a: nat, b: nat, c: nat)
    requires PartsMatch(es, parts)
    requires a < b < c < |es|
    requires es[a].Some? && es[b].Some? && es[c].Some?
    ensures TotalCount(es) > 0
    ensures AggregateAsWritten(es, parts, TotalCount(es))[TotalCount(es) - 1] == ZeroParticle
    ensures |Flatten(parts)| == TotalCount(es)
    ensures Flatten(parts)[TotalCount(es) - 1] != ZeroParticle ==>
              AggregateAsWritten(es, parts, TotalCount(es)) != Flatten(parts)
  {
    var total := TotalCount(es);
    EntryWithinTotal(es, c);
    forall i | 0 <= i < |es| && es[i].Some?
      ensures PrevCount(es[..i]) + Count(es[i]) <= total - 1
    {
      CopyEndsShort(es, a, b, c, i);
    }
    CopiesEndBy(es, parts, total, total - 1);
    FlattenLength(es, parts);
  }

  /** The GPU buffers SetupBuffers creates: the actor buffer (size only) and
      the contents of the two particle buffers. */
  datatype GpuBuffers = GpuBuffers(actorBuffer: ParticleCollection.BufferDesc, particleBuffers: seq<seq<ParticleData>>)

  /** SetupBuffers as written: a four-slot actor buffer of 32-byte elements,
      and two particle buffers that both receive the aggregate array the copy
      loop fills, each collection copied at the previous collection's
      instance count. A particle buffer of zero elements cannot be created:
      with no particles at all (an empty or all-null list) the buffer setup
      throws (`None`). */
  method SetupBuffers(es: seq<Entry>, parts: seq<seq<ParticleData>>) returns (b: Option<GpuBuffers>)
    requires PartsMatch(es, parts)
    ensures b.None? <==> TotalCount(es) == 0
    ensures b.Some? ==> b.value.actorBuffer == ParticleCollection.BufferDesc(UniverseActor.ActorCountLimit, ActorBufferStride)
    ensures b.Some? ==> |b.value.particleBuffers| == 2
    ensures b.Some? ==> b.value.particleBuffers[0] == b.value.particleBuffers[1]
                          == AggregateAsWritten(es, parts, TotalCount(es))
    ensures b.Some? ==> |b.value.particleBuffers[0]| == TotalCount(es)
  {
    var total := TotalCount(es);
    if total == 0 {
      return None;
    }
    var agg := Zeros(total);
    var prev := 0;
    var i := 0;
    while i < |es|
      invariant 0 <= i <= |es|
      invariant prev == PrevCount(es[..i])
      invariant PartsMatch(es[..i], parts[..i])
      invariant TotalCount(es[..i]) <= total
      invariant agg == AggregateAsWritten(es[..i], parts[..i], total)
    {
      assert es[..i + 1][..i] == es[..i];
      assert parts[..i + 1][..i] == parts[..i];
      TotalCountStep(es, i);
      PrefixTotalMonotone(es, i + 1, |es|);
      assert es[..|es|] == es;
      assert PartsMatch(es[..i + 1], parts[..i + 1]);
      if es[i].Some? {
        AsWrittenCopyInBounds(es, i);
        agg := CopyInto(agg, parts[i], prev);
        prev := ParticleCollection.InstanceCount(es[i].value);
      }
      i := i + 1;
    }
    assert es[..|es|] == es && parts[..|parts|] == parts;
    b := Some(GpuBuffers(ParticleCollection.BufferDesc(UniverseActor.ActorCountLimit, ActorBufferStride), [agg, agg]));
  }

  // ---------------------------------------------------------------------
  // Actor snapshot
  // ---------------------------------------------------------------------

  /** What the shader is given about actors: their count and an array of
      exactly Limit records. */
  datatype ActorSnapshot = ActorSnapshot(actorCount: nat, actors: seq<ActorData>)

  /** `order` lists every key of `actors` exactly once: the (unspecified)
      order in which the dictionary enumerates its values. */
  predicate Enumerates(actors: map<UniverseActor.ActorId, ActorData>, order: seq<UniverseActor.ActorId>) {
    && |order| == |actors|
    && (forall i, j :: 0 <= i < j < |order| ==> order[i] != order[j])
    && (forall a :: a in actors ==> a in order)
    && (forall i :: 0 <= i < |order| ==> order[i] in actors)
  }

  /** OnActorsUpdated: the actor count is the size of the dictionary, and
      the dictionary's values are copied, in enumeration order, into a
      zero-initialised array of Limit records. */
  function OnActorsUpdated(r: UniverseActor.Registry, order: seq<UniverseActor.ActorId>): (s: ActorSnapshot)
    requires UniverseActor.WithinLimit(r)
    requires Enumerates(r.actors, order)
    ensures s.actorCount == |r.actors|
    ensures |s.actors| == UniverseActor.ActorCountLimit
    ensures forall i :: 0 <= i < |order| ==> s.actors[i] == r.actors[order[i]]
    ensures forall i :: |order| <= i < |s.actors| ==> s.actors[i] == ZeroActor
  {
    var values := seq(|order|, i requires 0 <= i < |order| => r.actors[order[i]]);
    ActorSnapshot(|r.actors|, values + seq(UniverseActor.ActorCountLimit - |order|, _ => ZeroActor))
  }

  /** The first actorCount records of the snapshot are exactly the
      registered records: each is registered, and each registered actor's
      record is among them. */
  lemma SnapshotHoldsRegistry(r: UniverseActor.Registry, order: seq<UniverseActor.ActorId>)
    requires UniverseActor.WithinLimit(r)
    requires Enumerates(r.actors, order)
    ensures var s := OnActorsUpdated(r, order);
            forall a :: a in r.actors ==> exists i :: 0 <= i < s.actorCount && s.actors[i] == r.actors[a]
    ensures var s := OnActorsUpdated(r, order);
            forall i :: 0 <= i < s.actorCount ==> s.actors[i] in r.actors.Values
  {
    var s := OnActorsUpdated(r, order);
    forall a | a in r.actors
      ensures exists i :: 0 <= i < s.actorCount && s.actors[i] == r.actors[a]
    {
      var i :| 0 <= i < |order| && order[i] == a;
      assert s.actors[i] == r.actors[a];
    }
    forall i | 0 <= i < s.actorCount
      ensures s.actors[i] in r.actors.Values
    {
      assert order[i] in r.actors;
    }
  }

  // ---------------------------------------------------------------------
  // Lifecycle and the readback chain
  // ---------------------------------------------------------------------

  /** The renderer's lifecycle state: whether it is initialised, the buffer
      indices, how many readback requests are outstanding, and whether its
      callbacks are subscribed. */
  datatype Renderer = Renderer(initialised: bool, indices: BufferIndices, pending: nat, subscribed: bool)

  /** The state before Start. */
  const Fresh := Renderer(false, InitialIndices, 0, false)

  /** Everything a successful Start sets up. */
  datatype Started = Started(
    aggregateCount: nat,
    starts: seq<Option<nat>>,
    parts: seq<seq<ParticleData>>,
    buffers: GpuBuffers,
    snapshot: ActorSnapshot)

  /** One setup input per entry of the collection list, fitting each
      non-null collection. */
  predicate InputsFit(es: seq<Entry>, inputs: seq<ParticleCollection.SetupInputs>) {
    |inputs| == |es| && forall i :: 0 <= i < |es| && es[i].Some? ==> ParticleCollection.InputsFit(es[i].value, inputs[i])
  }

  /** Whether some collection of the list has fewer than one cluster, so
      that its particle setup throws. */
  predicate SomeSetupFails(es: seq<Entry>) {
    exists i :: 0 <= i < |es| && es[i].Some? && es[i].value.clusterCount < 1
  }

  /** Whether Start throws before it marks the renderer initialised: some
      collection's particle setup throws, or there are no particles at all,
      so the particle buffers would have zero elements. */
  predicate StartFails(es: seq<Entry>) {
    SomeSetupFails(es) || TotalCount(es) == 0
  }

  /** Start fails exactly when some collection has no cluster or the list
      holds no collection at all (it is empty or every entry is null). */
  lemma StartFailsIff(es: seq<Entry>)
    ensures StartFails(es) <==> SomeSetupFails(es) || forall i :: 0 <= i < |es| ==> es[i].None?
  {
    if forall i :: 0 <= i < |es| ==> es[i].None? {
      NullEntriesCountNothing(es);
    } else {
      var i :| 0 <= i < |es| && es[i].Some?;
      EntryWithinTotal(es, i);
    }
  }

  /** Start: sets up each non-null collection's particles and gives it its
      start position, fills the buffers, marks the renderer initialised,
      subscribes OnActorsUpdated to the registry's change delegate, takes the
      first actor snapshot and issues the first readback request. When a
      collection's particle setup throws, or the buffer setup throws because
      there are no particles, Start is abandoned there: the renderer stays
      uninitialised, nothing is subscribed and no readback is requested
      (`None`). */
  method Start(es: seq<Entry>, inputs: seq<ParticleCollection.SetupInputs>, reg: UniverseActor.Registry,
               order: seq<UniverseActor.ActorId>)
    returns (r: Renderer, reg': UniverseActor.Registry, st: Option<Started>)
    requires InputsFit(es, inputs)
    requires UniverseActor.WithinLimit(reg) && Enumerates(reg.actors, order)
    ensures st.None? <==> StartFails(es)
    ensures st.None? ==> r == Fresh && reg' == reg
    ensures st.Some? ==> r == Renderer(true, InitialIndices, 1, true)
    ensures st.Some? ==> reg' == reg.(hasListener := true)
    ensures st.Some? ==> PartsMatch(es, st.value.parts)
    ensures st.Some? ==> forall i :: 0 <= i < |es| && es[i].Some? ==>
              es[i].value.clusterCount >= 1
              && ParticleCollection.ParticlesFrom(es[i].value, inputs[i], st.value.parts[i])
    ensures st.Some? ==> st.value.aggregateCount == TotalCount(es)
    ensures st.Some? ==> |st.value.starts| == |es|
    ensures st.Some? ==> forall i :: 0 <= i < |es| ==> (st.value.starts[i].Some? <==> es[i].Some?)
    ensures st.Some? ==> forall i :: 0 <= i < |es| && es[i].Some? ==> st.value.starts[i].value == TotalCount(es[..i])
    ensures st.Some? ==> |st.value.buffers.particleBuffers| == 2
    ensures st.Some? ==> st.value.buffers.particleBuffers[0] == st.value.buffers.particleBuffers[1]
                           == AggregateAsWritten(es, st.value.parts, TotalCount(es))
    ensures st.Some? ==> st.value.snapshot == OnActorsUpdated(reg, order)
  {
    var parts: seq<seq<ParticleData>> := [];
    var i := 0;
    while i < |es|
      invariant 0 <= i <= |es|
      invariant |parts| == i
      invariant forall k :: 0 <= k < i ==> |parts[k]| == Count(es[k])
      invariant forall k :: 0 <= k < i && es[k].Some? ==>
                  es[k].value.clusterCount >= 1
                  && ParticleCollection.ParticlesFrom(es[k].value, inputs[k], parts[k])
    {
      if es[i].Some? {
        var made := ParticleCollection.SetupParticles(es[i].value, inputs[i]);
        if made.None? {
          return Fresh, reg, None;
        }
        parts := parts + [made.value];
      } else {
        parts := parts + [[]];
      }
      i := i + 1;
    }
    var total, starts := CountInstances(es);
    var buffers := SetupBuffers(es, parts);
    if buffers.None? {
      return Fresh, reg, None;
    }
    r := Renderer(true, InitialIndices, 1, true);
    reg' := reg.(hasListener := true);
    st := Some(Started(total, starts, parts, buffers.value, OnActorsUpdated(reg, order)));
  }

  /** Update: nothing before initialisation; afterwards the buffers swap and
      each non-null collection is dispatched with InstanceCount / 64 thread
      groups of 64. `groups` lines up with the collection list. */
  function Update(r: Renderer, es: seq<Entry>): (u: (Renderer, seq<Option<nat>>))
    ensures !r.initialised ==> u.0 == r && u.1 == []
    ensures r.initialised ==> u.0 == r.(indices := PingPong(r.indices))
    ensures r.initialised ==> |u.1| == |es|
    ensures r.initialised ==> forall i :: 0 <= i < |u.1| ==>
              (u.1[i].Some? <==> es[i].Some?)
              && (u.1[i].Some? ==> u.1[i].value * 64 == Count(es[i]))
  {
    if !r.initialised then (r, [])
    else
      (r.(indices := PingPong(r.indices)),
       seq(|es|, i requires 0 <= i < |es| =>
         if es[i].Some? then Some(DispatchGroups(es[i].value.particleCount)) else None))
  }

  /** The number of threads a list of dispatches launches. */
  function Threads(groups: seq<Option<nat>>): nat
    decreases |groups|
  {
    if |groups| == 0 then 0
    else Threads(groups[..|groups| - 1]) + (if groups[|groups| - 1].Some? then groups[|groups| - 1].value * 64 else 0)
  }

  /** One frame's dispatches launch exactly one thread per particle of the
      aggregate. */
  lemma {:induction false} DispatchCoversAggregate(groups: seq<Option<nat>>, es: seq<Entry>)
    requires |groups| == |es|
    requires forall i :: 0 <= i < |groups| ==>
               (groups[i].Some? <==> es[i].Some?)
               && (groups[i].Some? ==> groups[i].value * 64 == Count(es[i]))
    ensures Threads(groups) == TotalCount(es)
    decreases |es|
  {
    if |es| > 0 {
      DispatchCoversAggregate(groups[..|groups| - 1], es[..|es| - 1]);
    }
  }

  /** OnDestroy: nothing before initialisation; otherwise it clears the
      flag, unsubscribes, and releases the buffers (`released`). */
  function OnDestroy(r: Renderer): (u: (Renderer, bool))
    ensures !u.0.initialised
    ensures u.1 <==> r.initialised
    ensures r.initialised ==> !u.0.subscribed
    ensures !r.initialised ==> u.0 == r
    ensures u.0.pending == r.pending && u.0.indices == r.indices
  {
    if !r.initialised then (r, false)
    else (r.(initialised := false, subscribed := false), true)
  }

  /** A second OnDestroy changes nothing and releases nothing. */
  lemma DestroyTwiceReleasesOnce(r: Renderer)
    ensures OnDestroy(OnDestroy(r).0) == (OnDestroy(r).0, false)
  {
  }

  /** The registry after OnDestroy removes OnActorsUpdated from its change
      delegate, which it does only when the renderer was initialised. The
      renderer is the delegate's only subscriber here, so the registry is
      left without a listener. */
  function Unsubscribe(r: Renderer, reg: UniverseActor.Registry): (reg': UniverseActor.Registry)
    ensures reg'.actors == reg.actors
    ensures r.initialised ==> !reg'.hasListener
    ensures !r.initialised ==> reg' == reg
  {
    if r.initialised then reg.(hasListener := false) else reg
  }

  /** With the registry Start leaves behind, the renderer is told of exactly
      the updates that change the dictionary; once OnDestroy has
      unsubscribed it, of none. */
  lemma ListenerFollowsLifecycle(r: Renderer, reg: UniverseActor.Registry, self: UniverseActor.ActorId,
                                 data: ActorData, enable: bool)
    requires r.initialised
    ensures var u := UniverseActor.DictUpdate(reg.(hasListener := true), self, data, enable);
            u.notified <==> u.registry.actors != reg.actors
    ensures !UniverseActor.DictUpdate(Unsubscribe(r, reg.(hasListener := true)), self, data, enable).notified
  {
    UniverseActor.NotifiedIffChanged(reg.(hasListener := true), self, data, enable);
  }

  /** What one completed readback does to the lifecycle state: the request
      it answers is no longer outstanding, and a new one is issued only when
      the renderer is initialised and the readback succeeded. */
  function ReadbackStep(r: Renderer, hasError: bool): (r': Renderer)
    requires r.pending >= 1
    ensures r'.initialised == r.initialised && r'.indices == r.indices && r'.subscribed == r.subscribed
    ensures r.initialised && !hasError ==> r'.pending == r.pending
    ensures !r.initialised || hasError ==> r'.pending == r.pending - 1
  {
    if !r.initialised || hasError then r.(pending := r.pending - 1) else r
  }

  /** OnAsyncGPUReadback. When the renderer is not initialised, or the
      request failed, it does nothing and issues no new request. Otherwise
      it samples the particles, pushes the centroid and area to the camera
      feedback, and issues the next request. The camera matrix and the
      random source are the inputs `project` and `draws`; `now` is the time
      of the push. */
  method OnAsyncGPUReadback(r: Renderer, cam: CameraController.Feedback, hasError: bool,
                            particles: seq<ParticleData>, sampleRatio: real, draws: seq<nat>,
                            project: Vec3 -> Vec3, now: real)
    returns (r': Renderer, cam': CameraController.Feedback, pushed: Option<ReadbackStats.Observation>)
    requires r.pending >= 1
    requires CameraController.Valid(cam)
    requires |draws| >= ReadbackStats.SampleCount(|particles|, sampleRatio)
    ensures r' == ReadbackStep(r, hasError)
    ensures CameraController.Valid(cam')
    ensures pushed.Some? <==> r.initialised && !hasError
    ensures pushed.None? ==> cam' == cam
    ensures pushed.Some? ==>
              cam' == CameraController.Push(cam, pushed.value.centroid, pushed.value.area, now)
              && pushed.value.area >= 0.0
  {
    if !r.initialised || hasError {
      return r.(pending := r.pending - 1), cam, None;
    }
    var obs := ReadbackStats.Sample(particles, sampleRatio, draws, project);
    cam' := CameraController.Push(cam, obs.centroid, obs.area, now);
    r' := r;
    pushed := Some(obs);
  }

  /** One lifecycle event after Start: a frame update, the completion of
      an outstanding readback (successful or not), or OnDestroy. */
  datatype Event = Frame | ReadbackDone(hasError: bool) | Destroy

  /** The lifecycle state after one event; a readback completes only while
      a request is outstanding. */
  function Step(r: Renderer, e: Event): Renderer
  {
    match e
    case Frame => Update(r, []).0
    case ReadbackDone(hasError) => if r.pending >= 1 then ReadbackStep(r, hasError) else r
    case Destroy => OnDestroy(r).0
  }

  function Run(r: Renderer, events: seq<Event>): Renderer
    decreases |events|
  {
    if |events| == 0 then r else Run(Step(r, events[0]), events[1..])
  }

  /** The chain is single-flight: after Start at most one readback request
      is ever outstanding. */
  lemma {:induction false} SingleFlight(r: Renderer, events: seq<Event>)
    requires r.pending <= 1
    ensures Run(r, events).pending <= 1
    decreases |events|
  {
    if |events| > 0 {
      SingleFlight(Step(r, events[0]), events[1..]);
    }
  }

  /** While the renderer stays initialised and readbacks succeed, exactly
      one request stays outstanding: the chain does not die out. */
  lemma {:induction false} ChainContinues(r: Renderer, events: seq<Event>)
    requires r.initialised && r.pending == 1
    requires forall i :: 0 <= i < |events| ==> events[i] == Frame || events[i] == ReadbackDone(false)
    ensures Run(r, events).initialised && Run(r, events).pending == 1
    decreases |events|
  {
    if |events| > 0 {
      ChainContinues(Step(r, events[0]), events[1..]);
    }
  }

  /** Once no request is outstanding, none is ever issued again: a failed
      readback ends the chain for good, and so does destruction. */
  lemma {:induction false} StoppedChainStaysStopped(r: Renderer, events: seq<Event>)
    requires r.pending == 0
    ensures Run(r, events).pending == 0
    decreases |events|
  {
    if |events| > 0 {
      StoppedChainStaysStopped(Step(r, events[0]), events[1..]);
    }
  }

  /** After OnDestroy the renderer never becomes initialised again, so frame
      updates do nothing and no readback issues a new request. */
  lemma {:induction false} DestroyedStaysInert(r: Renderer, events: seq<Event>)
    requires !r.initialised
    ensures !Run(r, events).initialised
    ensures Run(r, events).indices == r.indices
    ensures Run(r, events).pending <= r.pending
    decreases |events|
  {
    if |events| > 0 {
      DestroyedStaysInert(Step(r, events[0]), events[1..]);
    }
  }
}
