/** What the index of a backed-up file says about its chunks. */
module IndexOfFile {
  import opened Bytes
  import opened RollingHash
  import opened Cuts
  import opened Vault
  import S = Store
  import opened Grouping
  import opened FileIndex
  import opened Chunker

  /** The chunks as the segment level sees them. */
  function Items(chunks: seq<Chunk>): seq<Item> {
    seq(|chunks|, i requires 0 <= i < |chunks| => Item(chunks[i].hash, |chunks[i].data|))
  }

  /** Their sizes add up to the bytes of the chunks. */
  lemma {:induction false} ItemsAreBytes(chunks: seq<Chunk>, datas: seq<Bytes>)
    requires |chunks| == |datas| && forall i :: 0 <= i < |chunks| ==> chunks[i].data == datas[i]
    ensures Size(Items(chunks)) == |Concat(datas)|
    decreases |chunks|
  {
    if chunks != [] {
      var n := |chunks| - 1;
      ItemsAreBytes(chunks[..n], datas[..n]);
      assert Items(chunks)[..n] == Items(chunks[..n]);
      ConcatAppend(datas[..n], [datas[n]]);
      assert datas == datas[..n] + [datas[n]];
      assert Concat([datas[n]]) == datas[n];
    }
  }

  /** The three-level index describes the chunks emitted, in order. */
  lemma {:induction false} IndexDescribesChunks(limits: Limits, st: S.Store, chunks: seq<Chunk>)
    ensures DescribesFile(limits, Items(chunks), Indexed(true, limits, st, chunks))
    decreases |chunks|
  {
    hide DescribesFile, AddChunk;
    if chunks == [] {
      NoChunksDescribe(limits);
      assert Items(chunks) == [];
    } else {
      var n := |chunks| - 1;
      var c, init := chunks[n], chunks[..n];
      IndexDescribesChunks(limits, st, init);
      assert Items(chunks) == Items(init) + [Item(c.hash, |c.data|)];
      AddChunkDescribes(limits, Items(init), Indexed(true, limits, st, init), c.hash, |c.data|,
        Unseen(DedupAll(st, init).index, c.hash));
    }
  }

  /** The chunk records: numbered in order, with the fingerprints of the recipe, and unique exactly
      where the lookup found nothing. */
  ghost predicate RecordsOf(st: S.Store, chunks: seq<Chunk>, records: seq<ChunkRecord>) {
    && |records| == |chunks|
    && forall i :: 0 <= i < |chunks| ==>
         records[i] == ChunkRecord(i, CKey(chunks[i].hash) !in DedupAll(st, chunks[..i]).index, chunks[i].hash)
         && records[i].chunkID == RecipeOf(chunks)[i].chunkID && records[i].fingerprint == RecipeOf(chunks)[i].chunkHash
  }

  lemma RecordsSnoc(st: S.Store, chunks: seq<Chunk>, records: seq<ChunkRecord>)
    requires chunks != [] && RecordsOf(st, chunks[..|chunks| - 1], records)
    ensures var last := chunks[|chunks| - 1];
            RecordsOf(st, chunks,
              AddRecord(records, last.hash, Unseen(DedupAll(st, chunks[..|chunks| - 1]).index, last.hash)))
  {
    hide DedupAll, CKey;
    var n := |chunks| - 1;
    var records' := AddRecord(records, chunks[n].hash, Unseen(DedupAll(st, chunks[..n]).index, chunks[n].hash));
    forall i | 0 <= i < n
      ensures records'[i] == ChunkRecord(i, CKey(chunks[i].hash) !in DedupAll(st, chunks[..i]).index, chunks[i].hash)
    {
      assert chunks[..n][..i] == chunks[..i];
    }
  }

  /** The flat and the three-level index hold the same chunk records, those of the recipe. */
  lemma {:induction false} FlatAndLevelsAgree(three: bool, limits: Limits, st: S.Store, chunks: seq<Chunk>)
    ensures RecordsOf(st, chunks, Indexed(three, limits, st, chunks).chunks)
    ensures chunks != [] ==> RecordsOf(st, chunks, IndexedFinal(three, limits, st, chunks).chunks)
    decreases |chunks|
  {
    hide DedupAll, Unseen, RecordsOf, Add, CloseLevel, EndOfSegment;
    if chunks == [] {
      NoRecords(st);
    } else {
      FlatAndLevelsAgree(three, limits, st, chunks[..|chunks| - 1]);
      RecordsSnoc(st, chunks, Indexed(three, limits, st, chunks[..|chunks| - 1]).chunks);
    }
  }

  lemma NoRecords(st: S.Store)
    ensures RecordsOf(st, [], [])
  {
  }

  /** The index a file ends up with. */
  ghost function IndexOf(p: Params, file: Bytes, fp: Fingerprint, limits: Limits, st: S.Store): Levels {
    var chunks := Fingerprinted(fp, Chunks(p, file));
    if EndsAtCut(p, file) || chunks == [] then Indexed(true, limits, st, chunks)
    else IndexedFinal(true, limits, st, chunks)
  }

  /** Its segments closed by the rule: all but the final one, if there is a left-over chunk. */
  ghost function RuleSegments(p: Params, file: Bytes, fp: Fingerprint, limits: Limits, st: S.Store): seq<Group> {
    var groups := IndexOf(p, file, fp, limits, st).segments.groups;
    if EndsAtCut(p, file) || groups == [] then groups else groups[..|groups| - 1]
  }

  /** Each of them holds between the minimum and the maximum plus two of the largest chunks, counting
      all its chunks. */
  lemma SegmentBytesBounded(p: Params, file: Bytes, fp: Fingerprint, limits: Limits, st: S.Store, i: nat)
    requires p.Valid() && limits.segment.min <= limits.segment.max
    requires i < |RuleSegments(p, file, fp, limits, st)|
    ensures var items, g := Items(Fingerprinted(fp, Chunks(p, file))), RuleSegments(p, file, fp, limits, st)[i];
            && g.first <= g.last < |items|
            && limits.segment.min <= Size(items[g.first..g.last + 1]) <= limits.segment.max + 2 * p.max
  {
    hide Indexed, Chunks, CutAfter, Size, Unseen, DedupAll, Complete;
    var chunks := Fingerprinted(fp, Chunks(p, file));
    forall k | 0 <= k < |chunks| ensures |chunks[k].data| <= p.max {
      ChunkSizes(p, file, k);
    }
    var n := if EndsAtCut(p, file) || chunks == [] then |chunks| else |chunks| - 1;
    assert chunks[..|chunks|] == chunks;
    var groups := Indexed(true, limits, st, chunks[..n]).segments.groups;
    assert RuleSegments(p, file, fp, limits, st) == groups;
    ClosedSegmentBytes(limits, st, chunks[..n], i, p.max);
    var g := groups[i];
    assert Items(chunks[..n])[g.first..g.last + 1] == Items(chunks)[g.first..g.last + 1];
  }

  lemma ClosedSegmentBytes(limits: Limits, st: S.Store, chunks: seq<Chunk>, i: nat, biggest: nat)
    requires limits.segment.min <= limits.segment.max && forall k :: 0 <= k < |chunks| ==> |chunks[k].data| <= biggest
    requires i < |Indexed(true, limits, st, chunks).segments.groups|
    ensures var g := Indexed(true, limits, st, chunks).segments.groups[i];
            && g.first <= g.last < |chunks|
            && limits.segment.min <= Size(Items(chunks)[g.first..g.last + 1]) <= limits.segment.max + 2 * biggest
  {
    hide Indexed, Size, EndOfSegment, ClosesAt, StaysOpen, SegmentItems;
    var x := Indexed(true, limits, st, chunks);
    IndexDescribesChunks(limits, st, chunks);
    assert GroupOk(limits.segment, limits.digest, Items(chunks), x.segments.groups, i);
    ClosedGroupBytes(limits.segment, limits.digest, Items(chunks), x.segments.groups, i, biggest);
  }

  /** Each of them ends at the first chunk that has the pattern behind at least the minimum of bytes, unless more
      than the maximum come before. */
  lemma SegmentEndsAtPattern(
    p: Params, file: Bytes, fp: Fingerprint, limits: Limits, st: S.Store, i: nat, k: nat
  )
    requires limits.segment.divisor == Pow2(k) && forall data :: |fp(data)| == HASH_SIZE
    requires i < |RuleSegments(p, file, fp, limits, st)|
    ensures var items, g := Items(Fingerprinted(fp, Chunks(p, file))), RuleSegments(p, file, fp, limits, st)[i];
            && g.first <= g.last < |items| && limits.segment.min <= Size(items[g.first..g.last])
            && (Size(items[g.first..g.last]) <= limits.segment.max ==>
                  HasPattern(items[g.last].hash, limits.segment.divisor))
            && forall j :: g.first <= j < g.last && limits.segment.min <= Size(items[g.first..j]) ==>
                 Size(items[g.first..j]) <= limits.segment.max && !HasPattern(items[j].hash, limits.segment.divisor)
  {
    hide Indexed, Chunks, CutAfter, Size, Unseen, DedupAll, Complete, HasPattern, Pow2;
    var chunks := Fingerprinted(fp, Chunks(p, file));
    var n := if EndsAtCut(p, file) || chunks == [] then |chunks| else |chunks| - 1;
    assert chunks[..|chunks|] == chunks;
    assert RuleSegments(p, file, fp, limits, st) == Indexed(true, limits, st, chunks[..n]).segments.groups;
    PatternClosesSegment(limits, st, chunks[..n], i, k);
    var g := RuleSegments(p, file, fp, limits, st)[i];
    forall j | g.first <= j <= g.last
      ensures Items(chunks[..n])[g.first..j] == Items(chunks)[g.first..j] && Items(chunks[..n])[j] == Items(chunks)[j]
    {
    }
  }

  lemma PatternClosesSegment(limits: Limits, st: S.Store, chunks: seq<Chunk>, i: nat, k: nat)
    requires limits.segment.divisor == Pow2(k) && forall j :: 0 <= j < |chunks| ==> |chunks[j].hash| == HASH_SIZE
    requires i < |Indexed(true, limits, st, chunks).segments.groups|
    ensures var items, g := Items(chunks), Indexed(true, limits, st, chunks).segments.groups[i];
            && g.first <= g.last < |items| && limits.segment.min <= Size(items[g.first..g.last])
            && (Size(items[g.first..g.last]) <= limits.segment.max ==>
                  HasPattern(items[g.last].hash, limits.segment.divisor))
            && forall j :: g.first <= j < g.last && limits.segment.min <= Size(items[g.first..j]) ==>
                 Size(items[g.first..j]) <= limits.segment.max && !HasPattern(items[j].hash, limits.segment.divisor)
  {
    hide Indexed, Size, EndOfSegment, ClosesAt, StaysOpen, SegmentItems, HasPattern, Pow2;
    var x := Indexed(true, limits, st, chunks);
    IndexDescribesChunks(limits, st, chunks);
    assert GroupOk(limits.segment, limits.digest, Items(chunks), x.segments.groups, i);
    ClosedByPattern(limits.segment, limits.digest, Items(chunks), x.segments.groups, i, k);
  }

  /** The chunk closes the segment open before it. */
  predicate Closes(limits: Limits, st: S.Store, chunks: seq<Chunk>)
    requires chunks != []
  {
    var n := |chunks| - 1;
    EndOfSegment(limits.segment, chunks[n].hash, Indexed(true, limits, st, chunks[..n]).segments.size)
  }

  lemma LastChunkCoverage(limits: Limits, st: S.Store, chunks: seq<Chunk>)
    requires chunks != []
    ensures var x := Indexed(true, limits, st, chunks);
            AllCovered(x.segments.groups, |chunks|) <==> Closes(limits, st, chunks)
  {
    hide Covered, AllCovered, DescribesFile, AddChunk, DedupAll, Unseen, EndOfSegment;
    var n := |chunks| - 1;
    var c, x := chunks[n], Indexed(true, limits, st, chunks[..n]);
    IndexDescribesChunks(limits, st, chunks[..n]);
    CoveredAfterChunk(limits, Items(chunks[..n]), x, c.hash, |c.data|, Unseen(DedupAll(st, chunks[..n]).index, c.hash));
    FlatAndLevelsAgree(true, limits, st, chunks);
  }

  lemma LeftOverCoverage(limits: Limits, st: S.Store, chunks: seq<Chunk>)
    requires chunks != []
    ensures var y := IndexedFinal(true, limits, st, chunks);
            && AllCovered(y.segments.groups, |chunks|)
            && AllCovered(y.containers.groups, |y.segments.groups|)
  {
    hide AllCovered, Chained, DescribesFile, AddFinal, DedupAll, Unseen;
    var n := |chunks| - 1;
    var c, x := chunks[n], Indexed(true, limits, st, chunks[..n]);
    IndexDescribesChunks(limits, st, chunks[..n]);
    FinalCoversAll(limits, Items(chunks[..n]), x, c.hash, Unseen(DedupAll(st, chunks[..n]).index, c.hash));
    FlatAndLevelsAgree(true, limits, st, chunks);
  }

  /** The index of a file has every chunk in a segment exactly if the file is empty, or does not end at
      a cut, or its last chunk closes its segment. */
  lemma IndexCoverage(p: Params, file: Bytes, fp: Fingerprint, limits: Limits, st: S.Store)
    ensures var chunks := Fingerprinted(fp, Chunks(p, file));
            AllCovered(IndexOf(p, file, fp, limits, st).segments.groups, |chunks|) <==>
            file == [] || !EndsAtCut(p, file) || (chunks != [] && Closes(limits, st, chunks))
  {
    hide AllCovered, Indexed, IndexedFinal, Closes, CutFrom, Complete;
    var chunks := Fingerprinted(fp, Chunks(p, file));
    assert file == [] <==> chunks == [];
    NothingToCover(IndexOf(p, file, fp, limits, st).segments.groups);
    if chunks != [] {
      LastChunkCoverage(limits, st, chunks);
      LeftOverCoverage(limits, st, chunks);
      var y := IndexOf(p, file, fp, limits, st);
      if EndsAtCut(p, file) {
        assert y == Indexed(true, limits, st, chunks);
      } else {
        assert y == IndexedFinal(true, limits, st, chunks);
      }
    }
  }

  /** How many chunks there are up to the one that closed the last segment. */
  ghost function UpToLastClosed(limits: Limits, st: S.Store, chunks: seq<Chunk>): (m: nat)
    ensures m <= |chunks| && (m > 0 ==> Closes(limits, st, chunks[..m]))
    decreases |chunks|
  {
    if chunks == [] then 0
    else if Closes(limits, st, chunks) then
      assert chunks[..|chunks|] == chunks;
      |chunks|
    else
      var m := UpToLastClosed(limits, st, chunks[..|chunks| - 1]);
      assert chunks[..|chunks| - 1][..m] == chunks[..m];
      m
  }

  /** Without a left-over chunk every segment is in a container exactly if there is no segment, or the
      last one closed its container. */
  lemma {:induction false} ContainerCoverage(limits: Limits, st: S.Store, chunks: seq<Chunk>)
    ensures var x, m := Indexed(true, limits, st, chunks), UpToLastClosed(limits, st, chunks);
            && (m == 0 <==> x.segments.groups == [])
            && (AllCovered(x.containers.groups, |x.segments.groups|) <==>
                m == 0 || EndOfSegment(limits.container, x.segments.groups[|x.segments.groups| - 1].hash,
                                       Indexed(true, limits, st, chunks[..m - 1]).containers.size))
    decreases |chunks|
  {
    hide Covered, AllCovered, DescribesFile, AddChunk, DedupAll, Unseen, EndOfSegment, Items;
    NothingToCover(Indexed(true, limits, st, chunks).containers.groups);
    if chunks != [] {
      var n := |chunks| - 1;
      var c, x := chunks[n], Indexed(true, limits, st, chunks[..n]);
      IndexDescribesChunks(limits, st, chunks[..n]);
      CoveredAfterChunk(limits, Items(chunks[..n]), x, c.hash, |c.data|,
        Unseen(DedupAll(st, chunks[..n]).index, c.hash));
      if !Closes(limits, st, chunks) {
        ContainerCoverage(limits, st, chunks[..n]);
        var m := UpToLastClosed(limits, st, chunks[..n]);
        assert m > 0 ==> chunks[..n][..m - 1] == chunks[..m - 1];
      }
    }
  }

  /** A file that fails: cut any long enough data once, and the one chunk is in no segment. */
  lemma OneChunkUncovered(p: Params, data: Bytes, fp: Fingerprint, limits: Limits, st: S.Store) returns (file: Bytes)
    requires p.Valid() && |data| >= p.max && limits.segment.min > 0
    ensures EndsAtCut(p, file) && Chunks(p, file) == [file]
    ensures !Covered(IndexOf(p, file, fp, limits, st).segments.groups, 0)
  {
    LongIsCut(p, data);
    FirstChunk(p, data);
    file := data[..CutFrom(p, data, 1)];
    CompleteHead(p, file, []);
    assert file + [] == file;
    assert Chunks(p, file) == [file];
    hide CutAfter, Chunks, CutFrom, Covered, Complete;
    var chunks := Fingerprinted(fp, [file]);
    assert chunks[..0] == [];
    IndexCoverage(p, file, fp, limits, st);
    assert !Closes(limits, st, chunks);
  }

  function Copies<T>(x: T, n: nat): seq<T> {
    seq(n, _ => x)
  }

  /** `k` copies of a chunk do not close a segment. */
  ghost predicate StillOpen(limits: Limits, st: S.Store, c: Chunk, k: nat) {
    var x := Indexed(true, limits, st, Copies(c, k));
    x.segments.groups == [] && x.segments.start == 0 && x.segments.size == k * |c.data| && x.containers == EMPTY
  }

  /** They close one, which is in no container. */
  ghost predicate OneClosed(limits: Limits, st: S.Store, c: Chunk, m: nat) {
    var x := Indexed(true, limits, st, Copies(c, m));
    && |x.segments.groups| == 1 && x.segments.groups[0].first == 0 && x.segments.groups[0].last == m - 1
    && x.containers.groups == []
  }

  lemma OneMoreCopy(limits: Limits, st: S.Store, c: Chunk, k: nat)
    requires limits.container.min > 0 && StillOpen(limits, st, c, k)
    ensures if EndOfSegment(limits.segment, c.hash, k * |c.data|) then OneClosed(limits, st, c, k + 1)
            else StillOpen(limits, st, c, k + 1)
  {
    hide DedupAll, Unseen;
    IndexDescribesChunks(limits, st, Copies(c, k));
    assert Copies(c, k + 1)[..k] == Copies(c, k);
    assert (k + 1) * |c.data| == k * |c.data| + |c.data|;
  }

  /** Enough copies close the first segment. */
  lemma {:induction false} CopiesClose(limits: Limits, st: S.Store, c: Chunk, k: nat) returns (m: nat)
    requires limits.segment.min <= limits.segment.max && limits.container.min > 0 && c.data != []
    requires StillOpen(limits, st, c, k) && k <= limits.segment.max + 1
    ensures m > 0 && OneClosed(limits, st, c, m)
    decreases limits.segment.max + 1 - k
  {
    hide StillOpen, OneClosed, Marked;
    OneMoreCopy(limits, st, c, k);
    if EndOfSegment(limits.segment, c.hash, k * |c.data|) {
      m := k + 1;
    } else {
      assert k <= k * |c.data| <= limits.segment.max;
      m := CopiesClose(limits, st, c, k + 1);
    }
  }

  /** Another file that fails: cut any long enough data once, and repeat that chunk until it closes the
      first segment. Every chunk is in the segment, but the segment is in no container. */
  lemma OneSegmentUncovered(p: Params, data: Bytes, fp: Fingerprint, limits: Limits, st: S.Store)
    returns (file: Bytes)
    requires p.Valid() && |data| >= p.max && limits.container.min > 0 && limits.segment.min <= limits.segment.max
    ensures EndsAtCut(p, file)
    ensures var x := IndexOf(p, file, fp, limits, st);
            && |x.segments.groups| == 1 && AllCovered(x.segments.groups, |Chunks(p, file)|)
            && !Covered(x.containers.groups, 0)
  {
    LongIsCut(p, data);
    FirstChunk(p, data);
    var chunk := data[..CutFrom(p, data, 1)];
    var c := Chunk(fp(chunk), chunk);
    assert Complete(p, chunk);
    hide CutAfter, Chunks, CutFrom, Complete;
    assert chunk != [] by {
      CompleteIsNotEmpty(p, chunk);
    }
    assert Copies(c, 0) == [];
    var m := CopiesClose(limits, st, c, 0);
    var chunks := Copies(chunk, m);
    GreedyIsChunks(p, chunks);
    file := Concat(chunks);
    assert Fingerprinted(fp, chunks) == Copies(c, m);
    hide Concat, Indexed;
    assert EndsAtCut(p, file);
    assert IndexOf(p, file, fp, limits, st) == Indexed(true, limits, st, Copies(c, m));
    forall k | 0 <= k < m ensures Covered(IndexOf(p, file, fp, limits, st).segments.groups, k) {
      assert IndexOf(p, file, fp, limits, st).segments.groups[0].first <= k;
    }
  }

  lemma CompleteIsNotEmpty(p: Params, chunk: Bytes)
    requires Complete(p, chunk)
    ensures chunk != []
  {
  }
}
