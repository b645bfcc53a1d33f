/** The index of a backed-up file: its chunks, and on request the segments and containers above them. */
module FileIndex {
  import opened Bytes
  import RollingHash
  import opened Grouping

  datatype ChunkRecord = ChunkRecord(chunkID: nat, unique: bool, fingerprint: Bytes)

  /** Limits and content tests of the two upper levels, and the digests: the configured one, and the
      one used for the groups closed at the end of the file. */
  datatype Limits = Limits(segment: Level, container: Level, digest: Digest, finalDigest: Digest)

  /** The three levels: chunks, segments of chunks, containers of segments. */
  datatype Levels = Levels(chunks: seq<ChunkRecord>, segments: Grouping, containers: Grouping)

  const NO_CHUNKS := Levels([], EMPTY, EMPTY)

  function AddRecord(chunks: seq<ChunkRecord>, hash: Bytes, unique: bool): seq<ChunkRecord> {
    chunks + [ChunkRecord(|chunks|, unique, hash)]
  }

  /** Adds a chunk; a segment it closes is added to the containers, counted without that chunk. */
  function AddChunk(limits: Limits, x: Levels, hash: Bytes, size: nat, unique: bool): Levels {
    var segments := Add(limits.segment, limits.digest, x.segments, |x.chunks|, Item(hash, size));
    var containers :=
      if EndOfSegment(limits.segment, hash, x.segments.size) then
        Add(limits.container, limits.digest, x.containers, |x.segments.groups|,
            Item(segments.groups[|x.segments.groups|].hash, x.segments.size))
      else x.containers;
    Levels(AddRecord(x.chunks, hash, unique), segments, containers)
  }

  /** Closes a level whatever the rule says, at `last`. */
  function CloseLevel(digest: Digest, g: Grouping, last: nat, hash: Bytes): Grouping {
    g.(groups := g.groups + [Group(|g.groups|, g.start, last, digest(g.members + CKey(hash)))], members := [])
  }

  /** Adds the final chunk and closes its segment, at one past its number, and its container. */
  function AddFinal(limits: Limits, x: Levels, hash: Bytes, unique: bool): Levels {
    var segments := CloseLevel(limits.finalDigest, x.segments, |x.chunks| + 1, hash);
    var containers :=
      CloseLevel(limits.finalDigest, x.containers, |x.segments.groups|, segments.groups[|x.segments.groups|].hash);
    Levels(AddRecord(x.chunks, hash, unique), segments, containers)
  }

  /** What the container level sees of the segments: their digests, and their bytes without the
      chunk that closed them. */
  function SegmentItems(items: seq<Item>, segments: seq<Group>): seq<Item>
    requires forall i :: 0 <= i < |segments| ==> segments[i].first <= segments[i].last <= |items|
  {
    seq(|segments|, i requires 0 <= i < |segments| =>
      Item(segments[i].hash, Size(items[segments[i].first..segments[i].last])))
  }

  ghost predicate InRange(items: seq<Item>, segments: seq<Group>) {
    forall i :: 0 <= i < |segments| ==> segments[i].first <= segments[i].last <= |items|
  }

  /** The records number the chunks consecutively and hold their fingerprints; the segments are the
      grouping of the chunks, the containers the grouping of the closed segments. */
  ghost predicate DescribesFile(limits: Limits, items: seq<Item>, x: Levels) {
    && |x.chunks| == |items|
    && (forall i :: 0 <= i < |items| ==> x.chunks[i].chunkID == i && x.chunks[i].fingerprint == items[i].hash)
    && Describes(limits.segment, limits.digest, items, x.segments)
    && InRange(items, x.segments.groups)
    && Describes(limits.container, limits.digest, SegmentItems(items, x.segments.groups), x.containers)
  }

  lemma NoChunksDescribe(limits: Limits)
    ensures DescribesFile(limits, [], NO_CHUNKS)
  {
    EmptyDescribes(limits.segment, limits.digest);
    EmptyDescribes(limits.container, limits.digest);
    assert SegmentItems([], []) == [];
  }

  lemma GroupsInRange(level: Level, digest: Digest, items: seq<Item>, g: Grouping)
    requires Describes(level, digest, items, g)
    ensures InRange(items, g.groups)
  {
    forall i | 0 <= i < |g.groups| ensures g.groups[i].first <= g.groups[i].last <= |items| {
      assert GroupOk(level, digest, items, g.groups, i);
    }
  }

  /** Adding a chunk keeps all three levels right. */
  lemma AddChunkDescribes(limits: Limits, items: seq<Item>, x: Levels, hash: Bytes, size: nat, unique: bool)
    requires DescribesFile(limits, items, x)
    ensures DescribesFile(limits, items + [Item(hash, size)], AddChunk(limits, x, hash, size, unique))
  {
    hide EndOfSegment, GroupOk, StaysOpen, Size, Hashes;
    var items', x' := items + [Item(hash, size)], AddChunk(limits, x, hash, size, unique);
    AddDescribes(limits.segment, limits.digest, items, x.segments, Item(hash, size));
    GroupsInRange(limits.segment, limits.digest, items', x'.segments);
    var before, after := SegmentItems(items, x.segments.groups), SegmentItems(items', x'.segments.groups);
    var closed := EndOfSegment(limits.segment, hash, x.segments.size);
    forall i | 0 <= i < |x.segments.groups| ensures after[i] == before[i] {
      var g := x.segments.groups[i];
      assert x'.segments.groups[i] == g && items'[g.first..g.last] == items[g.first..g.last];
    }
    if closed {
      var n := |x.segments.groups|;
      var last := Item(x'.segments.groups[n].hash, x.segments.size);
      assert items'[x.segments.start..|items|] == items[x.segments.start..];
      assert after == before + [last];
      AddDescribes(limits.container, limits.digest, before, x.containers, last);
    } else {
      assert after == before;
    }
  }

  /** The bytes of the segments, each without its last chunk. */
  function CountedBytes(items: seq<Item>, segments: seq<Group>): nat
    requires InRange(items, segments)
    decreases |segments|
  {
    if segments == [] then 0
    else
      var n := |segments| - 1;
      CountedBytes(items, segments[..n]) + Size(items[segments[n].first..segments[n].last])
  }

  /** The items count for each segment its bytes without its last chunk. */
  ghost predicate CountsOf(items: seq<Item>, segments: seq<Group>, counted: seq<Item>)
    requires InRange(items, segments)
  {
    && |counted| == |segments|
    && forall i :: 0 <= i < |segments| ==> counted[i].size == Size(items[segments[i].first..segments[i].last])
  }

  lemma {:induction false} CountsAddUp(items: seq<Item>, segments: seq<Group>, counted: seq<Item>)
    requires InRange(items, segments) && CountsOf(items, segments, counted)
    ensures Size(counted) == CountedBytes(items, segments)
    decreases |segments|
  {
    if segments != [] {
      CountsAddUp(items, segments[..|segments| - 1], counted[..|segments| - 1]);
    }
  }

  lemma SegmentSizes(items: seq<Item>, segments: seq<Group>, a: nat, b: nat)
    requires InRange(items, segments) && a <= b <= |segments|
    ensures Size(SegmentItems(items, segments)[a..b]) == CountedBytes(items, segments[a..b])
  {
    hide Size, CountedBytes;
    var counted := SegmentItems(items, segments)[a..b];
    forall i | 0 <= i < b - a ensures segments[a..b][i] == segments[a + i] {
    }
    CountsAddUp(items, segments[a..b], counted);
  }

  /** A container ends at the first segment whose digest has the pattern behind at least the minimum of bytes, not
      counting the last chunk of each segment, unless more than the maximum come before. */
  lemma ContainerEndsAtPattern(limits: Limits, items: seq<Item>, x: Levels, i: nat, k: nat)
    requires DescribesFile(limits, items, x) && i < |x.containers.groups|
    requires limits.container.divisor == RollingHash.Pow2(k)
    requires forall j :: 0 <= j < |x.segments.groups| ==> |x.segments.groups[j].hash| == HASH_SIZE
    ensures var c, segments, level := x.containers.groups[i], x.segments.groups, limits.container;
            && c.first <= c.last < |segments| && level.min <= CountedBytes(items, segments[c.first..c.last])
            && (CountedBytes(items, segments[c.first..c.last]) <= level.max ==>
                  HasPattern(segments[c.last].hash, level.divisor))
            && forall j :: c.first <= j < c.last && level.min <= CountedBytes(items, segments[c.first..j]) ==>
                 && CountedBytes(items, segments[c.first..j]) <= level.max
                 && !HasPattern(segments[j].hash, level.divisor)
  {
    hide EndOfSegment, ClosesAt, StaysOpen, Size, Hashes, HasPattern, CountedBytes, RollingHash.Pow2;
    var c, segments := x.containers.groups[i], x.segments.groups;
    var all := SegmentItems(items, segments);
    assert GroupOk(limits.container, limits.digest, all, x.containers.groups, i);
    ClosedByPattern(limits.container, limits.digest, all, x.containers.groups, i, k);
    forall j | c.first <= j <= c.last
      ensures Size(all[c.first..j]) == CountedBytes(items, segments[c.first..j]) && all[j].hash == segments[j].hash
    {
      SegmentSizes(items, segments, c.first, j);
    }
  }

  /** `k` lies in one of the groups. */
  ghost predicate Covered(groups: seq<Group>, k: nat) {
    exists i :: 0 <= i < |groups| && groups[i].first <= k <= groups[i].last
  }

  ghost predicate AllCovered(groups: seq<Group>, n: nat) {
    forall k :: 0 <= k < n ==> Covered(groups, k)
  }

  lemma NothingToCover(groups: seq<Group>)
    ensures AllCovered(groups, 0)
  {
  }

  /** The groups are numbered, and each starts where the one before ended. */
  ghost predicate Chained(groups: seq<Group>) {
    forall i :: 0 <= i < |groups| ==> groups[i].id == i && groups[i].first == StartOf(groups, i)
  }

  lemma CoveredUpToStart(level: Level, digest: Digest, items: seq<Item>, g: Grouping)
    requires Describes(level, digest, items, g)
    ensures AllCovered(g.groups, |items|) <==> g.start == |items|
  {
    hide EndOfSegment, Size, Hashes, ClosesAt, StaysOpen;
    ClosedCovered(level, digest, items, g);
    NotCoveredFromStart(level, digest, items, g);
  }

  /** After a chunk every chunk is in a segment exactly if this one closed its segment, and then every
      segment is in a container exactly if this segment closed its container. */
  lemma CoveredAfterChunk(limits: Limits, items: seq<Item>, x: Levels, hash: Bytes, size: nat, unique: bool)
    requires DescribesFile(limits, items, x)
    ensures var y, closes :=
            AddChunk(limits, x, hash, size, unique), EndOfSegment(limits.segment, hash, x.segments.size);
            && (AllCovered(y.segments.groups, |y.chunks|) <==> closes)
            && (closes ==>
                  && |y.segments.groups| == |x.segments.groups| + 1
                  && (AllCovered(y.containers.groups, |y.segments.groups|) <==>
                      EndOfSegment(limits.container, y.segments.groups[|x.segments.groups|].hash, x.containers.size)))
            && (!closes ==> y.segments.groups == x.segments.groups && y.containers == x.containers)
  {
    hide EndOfSegment, Size, Hashes, Covered, GroupOk, StaysOpen;
    var items', y := items + [Item(hash, size)], AddChunk(limits, x, hash, size, unique);
    AddChunkDescribes(limits, items, x, hash, size, unique);
    CoveredUpToStart(limits.segment, limits.digest, items', y.segments);
    CoveredUpToStart(limits.container, limits.digest, SegmentItems(items', y.segments.groups), y.containers);
  }

  /** The closed groups cover what comes before the open one. */
  lemma ClosedCovered(level: Level, digest: Digest, items: seq<Item>, g: Grouping)
    requires Describes(level, digest, items, g)
    ensures AllCovered(g.groups, g.start)
  {
    hide ClosesAt, StaysOpen, Hashes, Size;
    forall k | 0 <= k < g.start ensures Covered(g.groups, k) {
      ClosedGroupsTile(level, digest, items, g.groups, k);
    }
  }

  lemma NotCoveredFromStart(level: Level, digest: Digest, items: seq<Item>, g: Grouping)
    requires Describes(level, digest, items, g)
    ensures !Covered(g.groups, g.start)
  {
    hide ClosesAt, StaysOpen, Hashes, Size;
    forall j | 0 <= j < |g.groups|
      ensures g.groups[j].first <= g.groups[j].last && (j > 0 ==> g.groups[j - 1].last < g.groups[j].first) {
      assert GroupOk(level, digest, items, g.groups, j);
    }
    GroupsInOrder(g.groups);
  }

  /** With a final chunk every chunk lies in a segment and every segment in a container; the segments
      start where the one before ended, and only the final one ends one past its last chunk. */
  lemma FinalCoversAll(limits: Limits, items: seq<Item>, x: Levels, hash: Bytes, unique: bool)
    requires DescribesFile(limits, items, x)
    ensures var y := AddFinal(limits, x, hash, unique);
            && AllCovered(y.segments.groups, |y.chunks|)
            && AllCovered(y.containers.groups, |y.segments.groups|)
            && Chained(y.segments.groups) && Chained(y.containers.groups)
            && y.segments.groups[|y.segments.groups| - 1].last == |y.chunks|
            && y.containers.groups[|y.containers.groups| - 1].last == |y.segments.groups| - 1
  {
    hide EndOfSegment, Size, Hashes, Describes;
    ClosedCovers(limits.segment, limits.digest, limits.finalDigest, items, x.segments, |x.chunks| + 1, hash);
    var segments := CloseLevel(limits.finalDigest, x.segments, |x.chunks| + 1, hash);
    ClosedCovers(limits.container, limits.digest, limits.finalDigest, SegmentItems(items, x.segments.groups),
      x.containers,
                 |x.segments.groups|, segments.groups[|x.segments.groups|].hash);
  }

  /** The final segment holds the chunks since the last closed one and the left-over chunk, and ends at one past
      its number; the final container holds the segments since the last closed one and the final segment. Both
      have the final digest of their members. */
  lemma FinalGroups(limits: Limits, items: seq<Item>, x: Levels, hash: Bytes, unique: bool)
    requires DescribesFile(limits, items, x)
    ensures var y, n, m := AddFinal(limits, x, hash, unique), |x.segments.groups|, |x.containers.groups|;
            var segment := Group(n, StartOf(x.segments.groups, n), |items| + 1,
                                 limits.finalDigest(Hashes(items[StartOf(x.segments.groups, n)..]) + CKey(hash)));
            var segments := SegmentItems(items, x.segments.groups);
            && y.segments.groups == x.segments.groups + [segment]
            && StartOf(x.containers.groups, m) <= n
            && y.containers.groups == x.containers.groups + [
                 Group(m, StartOf(x.containers.groups, m), n,
                       limits.finalDigest(Hashes(segments[StartOf(x.containers.groups, m)..]) + CKey(segment.hash)))]
  {
    hide EndOfSegment, Size, Hashes, GroupOk, StaysOpen, CKey;
  }

  /** Closing the open group of a level at `last` covers everything up to `last`. */
  lemma ClosedCovers(
    level: Level, digest: Digest, final: Digest, items: seq<Item>, g: Grouping, last: nat, hash: Bytes
  )
    requires Describes(level, digest, items, g) && last >= |items|
    ensures AllCovered(CloseLevel(final, g, last, hash).groups, last + 1)
    ensures Chained(CloseLevel(final, g, last, hash).groups)
  {
    hide ClosesAt, StaysOpen, Hashes, Size;
    var n, groups := |g.groups|, CloseLevel(final, g, last, hash).groups;
    ClosedCovered(level, digest, items, g);
    forall k | 0 <= k <= last ensures Covered(groups, k) {
      if k >= g.start {
        assert groups[n].first <= k <= groups[n].last;
      } else {
        assert Covered(g.groups, k);
        var i :| 0 <= i < n && g.groups[i].first <= k <= g.groups[i].last;
        assert groups[i] == g.groups[i];
      }
    }
    forall i | 0 <= i < |groups| ensures groups[i].id == i && groups[i].first == StartOf(groups, i) {
      if i < n {
        assert GroupOk(level, digest, items, g.groups, i);
      }
    }
  }

  /** The index being filled by the chunker. */
  class FileIndex {
    const threeLevel: bool
    const limits: Limits
    var chunks: seq<ChunkRecord>
    var chunknumber: nat
    var segments: seq<Group>
    var segmentnumber: nat
    var containers: seq<Group>
    var containernumber: nat
    var startChunkID: nat
    var segmentsize: nat
    var segmenthash: Bytes
    var startSegmentID: nat
    var containersize: nat
    var containerhash: Bytes

    ghost predicate Valid()
      reads this
    {
      && chunknumber == |chunks|
      && (threeLevel ==> segmentnumber == |segments| && containernumber == |containers|)
    }

    ghost function Value(): Levels
      reads this
    {
      Levels(chunks, Grouping(segments, startChunkID, segmentsize, segmenthash),
             Grouping(containers, startSegmentID, containersize, containerhash))
    }

    constructor (threeLevel: bool, limits: Limits)
      ensures Valid() && Value() == NO_CHUNKS && this.threeLevel == threeLevel && this.limits == limits
    {
      this.threeLevel, this.limits := threeLevel, limits;
      chunks, chunknumber := [], 0;
      segments, segmentnumber, containers, containernumber := [], 0, [], 0;
      startChunkID, segmentsize, segmenthash := 0, 0, [];
      startSegmentID, containersize, containerhash := 0, 0, [];
    }

    /** Counts the segment just closed for the containers. */
    method CountSegment(hash: Bytes)
      modifies `containers, `containernumber, `containersize, `containerhash, `startSegmentID, `segmentsize,
               `segmentnumber
      requires containernumber == |containers|
      ensures containernumber == |containers| && segmentsize == 0 && segmentnumber == old(segmentnumber) + 1
      ensures Value().containers
              == Add(limits.container, limits.digest, old(Value()).containers, old(segmentnumber),
                Item(hash, old(segmentsize)))
    {
      containerhash := containerhash + CKey(hash);
      if EndOfSegment(limits.container, hash, containersize) {
        segmentsize, containersize := 0, 0;
        containers := containers
          + [Group(containernumber, startSegmentID, segmentnumber, limits.digest(containerhash))];
        containerhash := [];
        containernumber := containernumber + 1;
        segmentnumber := segmentnumber + 1;
        startSegmentID := segmentnumber;
      } else {
        segmentnumber := segmentnumber + 1;
        containersize := containersize + segmentsize;
        segmentsize := 0;
      }
    }

    /** Records a chunk and, in a three-level index, closes the segment and container it ends. */
    method Record(hash: Bytes, size: nat, unique: bool)
      requires Valid()
      modifies this
      ensures Valid()
      ensures Value() == if threeLevel then AddChunk(limits, old(Value()), hash, size, unique)
                         else old(Value()).(chunks := AddRecord(old(chunks), hash, unique))
    {
      hide EndOfSegment;
      chunks := chunks + [ChunkRecord(chunknumber, unique, hash)];
      if !threeLevel {
        chunknumber := chunknumber + 1;
        return;
      }
      if EndOfSegment(limits.segment, hash, segmentsize) {
        segmenthash := segmenthash + CKey(hash);
        var segment := Group(segmentnumber, startChunkID, chunknumber, limits.digest(segmenthash));
        segments := segments + [segment];
        segmenthash := [];
        CountSegment(segment.hash);
        chunknumber := chunknumber + 1;
        startChunkID := chunknumber;
      } else {
        segmenthash := segmenthash + CKey(hash);
        chunknumber := chunknumber + 1;
        segmentsize := segmentsize + size;
      }
    }

    /** Closes the open container with the final segment. */
    method CloseContainer(hash: Bytes)
      modifies `containers, `containernumber, `containerhash
      requires containernumber == |containers| && segmentnumber > 0
      ensures containernumber == |containers|
      ensures Value().containers == CloseLevel(limits.finalDigest, old(Value()).containers, segmentnumber - 1, hash)
    {
      containerhash := containerhash + CKey(hash);
      containers := containers
        + [Group(containernumber, startSegmentID, segmentnumber - 1, limits.finalDigest(containerhash))];
      containernumber := containernumber + 1;
      containerhash := [];
    }

    /** Records the final chunk and closes what is open. */
    method RecordFinal(hash: Bytes, unique: bool)
      requires Valid()
      modifies this
      ensures Valid()
      ensures Value() == if threeLevel then AddFinal(limits, old(Value()), hash, unique)
                         else old(Value()).(chunks := AddRecord(old(chunks), hash, unique))
    {
      chunks := chunks + [ChunkRecord(chunknumber, unique, hash)];
      chunknumber := chunknumber + 1;
      if threeLevel {
        segmenthash := segmenthash + CKey(hash);
        var segment := Group(segmentnumber, startChunkID, chunknumber, limits.finalDigest(segmenthash));
        segments := segments + [segment];
        segmentnumber := segmentnumber + 1;
        segmenthash := [];
        CloseContainer(segment.hash);
      }
    }
  }
}
