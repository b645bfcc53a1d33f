/** The chunker: cuts a file read block by block, deduplicates its chunks, and builds its recipe and index. */
module Chunker {
  import opened Bytes
  import opened RollingHash
  import opened Cuts
  import opened RefCounts
  import opened Vault
  import L = Log
  import S = Store
  import opened FileIndex
  import opened StorageCore

  type Fingerprint = Bytes -> Bytes

  function Fingerprinted(fp: Fingerprint, datas: seq<Bytes>): seq<Chunk> {
    seq(|datas|, i requires 0 <= i < |datas| => Chunk(fp(datas[i]), datas[i]))
  }

  /** The value of `winFp` after the bytes of `s` have gone into a chunk. */
  function HashOf(w: nat, s: Bytes): nat {
    if |s| < w then (Poly(s) * Pow(w - |s|)) % M16 else Poly(s[|s| - w..]) % M16
  }

  /** One step of the table-driven hash is one step of the direct form. */
  lemma HashStep(p: Params, s: Bytes, b: byte, fp: nat, powers: seq<nat>, removes: seq<nat>)
    requires p.Valid() && PowersOk(powers, p.window) && RemovesOk(removes, p.window) && fp == HashOf(p.window, s)
    ensures |s| < p.window ==> Filled(fp, b, powers[p.window - |s| - 1]) == HashOf(p.window, s + [b])
    ensures |s| >= p.window ==> Slid(fp, removes[s[|s| - p.window]], b) == HashOf(p.window, s + [b])
  {
    hide Filled, Slid, Poly;
    var w := p.window;
    if |s| < w {
      FilledIsPoly(fp, s, b, w, powers);
      if |s| == w - 1 {
        assert (s + [b])[0..] == s + [b];
        PowZero();
      }
    } else {
      var window := s[|s| - w..];
      SlidIsPoly(fp, window, b, w, removes);
      assert (s + [b])[|s| + 1 - w..] == window[1..] + [b];
    }
  }

  lemma HashOfEmpty(w: nat)
    requires w > 0
    ensures HashOf(w, []) == 0
  {
  }

  /** The condition the loop tests on the rolling hash is the cut condition. */
  lemma CutTest(p: Params, s: Bytes)
    requires p.Valid()
    ensures CutAfter(p, s) <==>
            |s| > p.window && |s| >= p.min && (IsAnchor(HashOf(p.window, s), p.bits) || |s| >= p.max)
  {
  }

  lemma NoCutGrows(p: Params, s: Bytes, b: byte)
    requires NoCutIn(p, s) && !CutAfter(p, s + [b])
    ensures NoCutIn(p, s + [b])
  {
    hide CutAfter;
    forall k | 0 <= k <= |s| + 1 ensures !CutAfter(p, (s + [b])[..k]) {
      if k <= |s| {
        assert (s + [b])[..k] == s[..k];
      } else {
        assert (s + [b])[..k] == s + [b];
      }
    }
  }

  /** What one byte does to the chunks of the file: nothing, or it completes one. */
  lemma FedChunks(p: Params, s: Bytes, b: byte, rest: Bytes)
    requires NoCutIn(p, s)
    ensures CutAfter(p, s + [b]) ==>
            Complete(p, s + [b]) && Chunks(p, s + ([b] + rest)) == [s + [b]] + Chunks(p, [] + rest)
    ensures s + ([b] + rest) == (s + [b]) + rest
  {
    hide CutAfter;
    assert s + ([b] + rest) == (s + [b]) + rest;
    if CutAfter(p, s + [b]) {
      assert (s + [b])[..|s + [b]| - 1] == s;
      CompleteHead(p, s + [b], rest);
      assert [] + rest == rest;
    }
  }

  /** Each chunk of the file is what its fingerprint stands for. */
  ghost predicate Known(datas: seq<Bytes>, fp: Fingerprint, content: ContentMap) {
    forall i :: 0 <= i < |datas| ==> content(fp(datas[i])) == datas[i]
  }

  /** The lookup of the fingerprint, as a C string, finds nothing. */
  predicate Unseen(index: L.Index, hash: Bytes) {
    CKey(hash) !in index
  }

  /** The index of the chunks cut so far: a chunk is unique if its lookup finds nothing. */
  function Indexed(three: bool, limits: Limits, st: S.Store, chunks: seq<Chunk>): Levels
    decreases |chunks|
  {
    if chunks == [] then NO_CHUNKS
    else
      var n := |chunks| - 1;
      var unique := Unseen(DedupAll(st, chunks[..n]).index, chunks[n].hash);
      var x := Indexed(three, limits, st, chunks[..n]);
      if three then AddChunk(limits, x, chunks[n].hash, |chunks[n].data|, unique)
      else x.(chunks := AddRecord(x.chunks, chunks[n].hash, unique))
  }

  /** The same, the last chunk being what was left over at the end of the file. */
  function IndexedFinal(three: bool, limits: Limits, st: S.Store, chunks: seq<Chunk>): Levels
    requires chunks != []
  {
    var n := |chunks| - 1;
    var unique := Unseen(DedupAll(st, chunks[..n]).index, chunks[n].hash);
    var x := Indexed(three, limits, st, chunks[..n]);
    if three then AddFinal(limits, x, chunks[n].hash, unique)
    else x.(chunks := AddRecord(x.chunks, chunks[n].hash, unique))
  }

  // ---- Which chunks are recorded as unique ----

  /** The store's fingerprints have the right length, and so do those of the chunks. */
  ghost predicate AllKeyed(index: L.Index, chunks: seq<Chunk>) {
    WellKeyed(index) && forall i :: 0 <= i < |chunks| ==> |chunks[i].hash| == HASH_SIZE
  }

  /** Chunk `i` is neither in the store nor among the chunks before it. */
  ghost predicate IsNew(index: L.Index, chunks: seq<Chunk>, i: nat)
    requires i < |chunks|
  {
    chunks[i].hash !in index && forall j :: 0 <= j < i ==> chunks[j].hash != chunks[i].hash
  }

  /** The records say of every chunk whether it is new, or say so anyway if its fingerprint has a NUL. */
  ghost predicate FlagsRight(index: L.Index, chunks: seq<Chunk>, records: seq<ChunkRecord>) {
    && |records| == |chunks|
    && forall i :: 0 <= i < |chunks| ==>
         (records[i].unique <==> IsNew(index, chunks, i) || 0 in chunks[i].hash)
  }

  /** Backing up chunks adds their fingerprints and no others. */
  lemma {:induction false} DedupAllKeys(st: S.Store, chunks: seq<Chunk>)
    requires AllKeyed(st.index, chunks)
    ensures WellKeyed(DedupAll(st, chunks).index)
    ensures forall h :: h in DedupAll(st, chunks).index <==>
                        h in st.index || exists j :: 0 <= j < |chunks| && chunks[j].hash == h
    decreases |chunks|
  {
    hide Dedup;
    if chunks != [] {
      var n := |chunks| - 1;
      DedupAllKeys(st, chunks[..n]);
      DedupRecord(DedupAll(st, chunks[..n]), chunks[n].hash, chunks[n].data);
    }
  }

  /** The lookup of the next chunk finds nothing exactly if it is new or its fingerprint has a NUL. */
  lemma UnseenIsNew(st: S.Store, chunks: seq<Chunk>)
    requires AllKeyed(st.index, chunks) && chunks != []
    ensures var n := |chunks| - 1;
            Unseen(DedupAll(st, chunks[..n]).index, chunks[n].hash) <==>
              IsNew(st.index, chunks, n) || 0 in chunks[n].hash
  {
    hide DedupAll, CKey;
    var n := |chunks| - 1;
    var h := chunks[n].hash;
    DedupAllKeys(st, chunks[..n]);
    CKeyFaithfulExactlyWithoutNul(h);
    if NulFree(h) {
      assert CKey(h) == h;
      assert forall j :: 0 <= j < n ==> chunks[..n][j] == chunks[j];
    }
  }

  lemma NewInPrefix(index: L.Index, chunks: seq<Chunk>, n: nat, i: nat)
    requires i < n <= |chunks|
    ensures IsNew(index, chunks, i) <==> IsNew(index, chunks[..n], i)
  {
    assert forall j :: 0 <= j <= i ==> chunks[..n][j] == chunks[j];
  }

  lemma FlagsSnoc(index: L.Index, chunks: seq<Chunk>, records: seq<ChunkRecord>, unique: bool)
    requires chunks != [] && FlagsRight(index, chunks[..|chunks| - 1], records)
    requires unique <==> IsNew(index, chunks, |chunks| - 1) || 0 in chunks[|chunks| - 1].hash
    ensures FlagsRight(index, chunks, AddRecord(records, chunks[|chunks| - 1].hash, unique))
  {
    hide IsNew;
    var n := |chunks| - 1;
    var records' := AddRecord(records, chunks[n].hash, unique);
    forall i | 0 <= i < n ensures records'[i].unique <==> IsNew(index, chunks, i) || 0 in chunks[i].hash {
      NewInPrefix(index, chunks, n, i);
      assert chunks[..n][i] == chunks[i] && records'[i] == records[i];
    }
  }

  /** A chunk of a file is recorded as unique exactly if it is neither in the store nor earlier in the file,
      or its fingerprint has a NUL. */
  lemma {:induction false} UniqueExactly(three: bool, limits: Limits, st: S.Store, chunks: seq<Chunk>)
    requires AllKeyed(st.index, chunks)
    ensures FlagsRight(st.index, chunks, Indexed(three, limits, st, chunks).chunks)
    ensures chunks != [] ==> FlagsRight(st.index, chunks, IndexedFinal(three, limits, st, chunks).chunks)
    decreases |chunks|
  {
    hide DedupAll, Unseen, FlagsRight, IsNew, AddRecord, CloseLevel;
    if chunks == [] {
      NoFlags(st.index);
    } else {
      var n := |chunks| - 1;
      UniqueExactly(three, limits, st, chunks[..n]);
      UnseenIsNew(st, chunks);
      FlagsSnoc(st.index, chunks, Indexed(three, limits, st, chunks[..n]).chunks,
                Unseen(DedupAll(st, chunks[..n]).index, chunks[n].hash));
    }
  }

  lemma NoFlags(index: L.Index)
    ensures FlagsRight(index, [], [])
  {
  }

  lemma FingerprintedSnoc(fp: Fingerprint, datas: seq<Bytes>, data: Bytes)
    ensures Fingerprinted(fp, datas + [data]) == Fingerprinted(fp, datas) + [Chunk(fp(data), data)]
  {
  }

  lemma SnocParts(three: bool, limits: Limits, st: S.Store, chunks: seq<Chunk>, c: Chunk)
    ensures DedupAll(st, chunks + [c]) == Dedup(DedupAll(st, chunks), c.hash, c.data)
    ensures RecipeOf(chunks + [c]) == RecipeOf(chunks) + [RecipeEntry(|chunks|, |c.data|, c.hash)]
    ensures var unique, x := Unseen(DedupAll(st, chunks).index, c.hash), Indexed(three, limits, st, chunks);
            && Indexed(three, limits, st, chunks + [c])
               == (if three then AddChunk(limits, x, c.hash, |c.data|, unique)
                 else x.(chunks := AddRecord(x.chunks, c.hash, unique)))
            && IndexedFinal(three, limits, st, chunks + [c])
               == (if three then AddFinal(limits, x, c.hash, unique)
                 else x.(chunks := AddRecord(x.chunks, c.hash, unique)))
  {
    hide Dedup, AddChunk, AddFinal, Unseen;
    var all := chunks + [c];
    assert all[..|all| - 1] == chunks && all[|all| - 1] == c;
  }

  lemma DedupSized(st: S.Store, h: Bytes, data: Bytes, content: ContentMap)
    requires Sized(st.index, content) && content(h) == data
    ensures S.Key(st.index, h, |data|).length <= |data|
    ensures Sized(Dedup(st, h, data).index, content)
  {
    hide CKey;
  }

  class Chunker {
    const p: Params
    const powerLUT: array<nat>
    const removeLUT: array<nat>
    const chunkBuffer: array<byte>
    const storage: StorageCore
    const index: FileIndex
    const fingerprint: Fingerprint
    var recipeList: Recipe
    var chunkBufferCnt: nat
    var winFp: nat

    /** The tables are right, and the chunker's own objects are not the storage's. */
    ghost predicate Wired()
      reads powerLUT, removeLUT
    {
      && p.Valid() && chunkBuffer.Length == p.max
      && PowersOk(powerLUT[..], p.window) && RemovesOk(removeLUT[..], p.window)
      && chunkBuffer !in storage.Repr() && index !in storage.Repr() && this !in storage.Repr()
      && p.max < storage.log.max
    }

    ghost function Buffer(): Bytes
      reads this, chunkBuffer
      requires chunkBufferCnt <= chunkBuffer.Length
    {
      chunkBuffer[..chunkBufferCnt]
    }

    /** Between two bytes: the buffer holds an uncut beginning of a chunk, and the hash is that of its window. */
    ghost predicate Filling()
      reads this, powerLUT, removeLUT, chunkBuffer
    {
      Wired() && chunkBufferCnt < p.max && NoCutIn(p, Buffer()) && winFp == HashOf(p.window, Buffer())
    }

    /** Builds the tables and the anchor mask. */
    constructor (storage: StorageCore, index: FileIndex, fingerprint: Fingerprint, slidingWinSize: nat,
                 minChunkSize: nat, avgChunkSize: nat, maxChunkSize: nat)
      requires minChunkSize < avgChunkSize < maxChunkSize && avgChunkSize >= 2
      requires 1 <= slidingWinSize < maxChunkSize < storage.log.max && index !in storage.Repr()
      ensures this.storage == storage && this.index == index && this.fingerprint == fingerprint
      ensures p.window == slidingWinSize && p.min == minChunkSize && p.max == maxChunkSize
      ensures Pow2(p.bits) <= avgChunkSize < Pow2(p.bits + 1)
      ensures Filling() && Buffer() == [] && recipeList == []
      ensures fresh(chunkBuffer)
    {
      this.storage, this.index, this.fingerprint := storage, index, fingerprint;
      var powers := PowerTable(slidingWinSize);
      var removes := RemoveTable(powers, slidingWinSize);
      var bits := MaskBits(avgChunkSize);
      p := Params(slidingWinSize, minChunkSize, maxChunkSize, bits);
      powerLUT, removeLUT := powers, removes;
      chunkBuffer := new byte[maxChunkSize](_ => 0);
      recipeList, chunkBufferCnt, winFp := [], 0, 0;
      new;
      HashOfEmpty(p.window);
      EmptyIsNoCut(p);
      hide CutAfter;
      assert Buffer() == [];
    }

    /** Looks the fingerprint up as a C string: counts a reference, or saves the chunk. */
    method Deduplicate(hash: Bytes, data: Bytes) returns (unique: bool)
      requires storage.Valid() && |data| < storage.log.max
      requires S.Key(storage.db.chunks, hash, |data|).length <= |data|
      modifies storage.db`chunks, storage.db`sizes, storage.log`openName, storage.log.disk
      modifies storage.log.current, storage.log.current.body
      ensures storage.Valid() && storage.State() == Dedup(old(storage.State()), hash, data)
      ensures unique == Unseen(old(storage.db.chunks), hash) == (CKey(hash) !in old(storage.db.chunks))
    {
      hide S.SaveChunk, CKey;
      var key := CKey(hash);
      unique := key !in storage.db.chunks;
      if unique {
        var buffer := new byte[|data|](i requires 0 <= i < |data| => data[i]);
        assert buffer[..|data|] == data;
        var _ := storage.SaveChunk(hash, buffer, |data|);
      } else {
        var e := storage.db.chunks[key];
        storage.db.chunks := storage.db.chunks[key := e.(count := Inc(e.count))];
      }
    }

    /** Emits what is in the buffer as a chunk: fingerprint, recipe entry, deduplication, index. */
    method Emit(final: bool)
      requires Wired() && storage.Valid() && index.Valid() && chunkBufferCnt <= p.max
      requires S.Key(storage.db.chunks, fingerprint(Buffer()), |Buffer()|).length <= |Buffer()|
      modifies `recipeList, index, storage.db`chunks, storage.db`sizes, storage.log`openName, storage.log.disk
      modifies storage.log.current, storage.log.current.body
      ensures storage.Valid() && index.Valid() && Buffer() == old(Buffer())
      ensures var hash, data, unique :=
              fingerprint(Buffer()), Buffer(), Unseen(old(storage.db.chunks), fingerprint(Buffer()));
              && storage.State() == Dedup(old(storage.State()), hash, data)
              && recipeList == old(recipeList) + [RecipeEntry(|old(recipeList)|, |data|, hash)]
              && index.Value() ==
                 if !index.threeLevel
                   then old(index.Value()).(chunks := AddRecord(old(index.Value()).chunks, hash, unique))
                 else if final then AddFinal(index.limits, old(index.Value()), hash, unique)
                 else AddChunk(index.limits, old(index.Value()), hash, |data|, unique)
    {
      hide Dedup, Unseen, AddFinal, AddChunk, PowersOk, RemovesOk;
      var data := chunkBuffer[..chunkBufferCnt];
      var hash := fingerprint(data);
      recipeList := recipeList + [RecipeEntry(|recipeList|, |data|, hash)];
      var unique := Deduplicate(hash, data);
      if final {
        index.RecordFinal(hash, unique);
      } else {
        index.Record(hash, |data|, unique);
      }
    }

    /** Exactly the chunks `done` have been emitted since the store was `st`. */
    ghost predicate Emitted(st: S.Store, done: seq<Bytes>)
      reads this, index, storage, storage.db, storage.log, storage.log.disk, storage.log.current,
            storage.log.current.body
      reads storage.log.cached, storage.log.cached.body
    {
      var chunks := Fingerprinted(fingerprint, done);
      && storage.Valid() && index.Valid()
      && storage.State() == DedupAll(st, chunks)
      && recipeList == RecipeOf(chunks)
      && index.Value() == Indexed(index.threeLevel, index.limits, st, chunks)
    }

    /** Emits the buffer behind the chunks already emitted. */
    method EmitNext(ghost st: S.Store, ghost done: seq<Bytes>, ghost content: ContentMap)
      requires Wired() && Emitted(st, done) && chunkBufferCnt <= p.max
      requires Sized(storage.db.chunks, content) && content(fingerprint(Buffer())) == Buffer()
      modifies `recipeList, index, storage.db`chunks, storage.db`sizes, storage.log`openName, storage.log.disk
      modifies storage.log.current, storage.log.current.body
      ensures Emitted(st, done + [Buffer()]) && Buffer() == old(Buffer()) && Sized(storage.db.chunks, content)
    {
      hide Dedup, DedupAll, Indexed, IndexedFinal, AddChunk, AddFinal, Fingerprinted, RecipeOf, Unseen, PowersOk;
      hide RemovesOk, Sized;
      ghost var data := Buffer();
      ghost var c := Chunk(fingerprint(data), data);
      DedupSized(storage.State(), c.hash, data, content);
      Emit(false);
      FingerprintedSnoc(fingerprint, done, data);
      SnocParts(index.threeLevel, index.limits, st, Fingerprinted(fingerprint, done), c);
    }

    /** Takes one byte into the buffer and the hash; tells whether the window had been full. */
    method Roll(b: byte) returns (full: bool)
      requires Filling()
      modifies `chunkBufferCnt, `winFp, chunkBuffer
      ensures Wired() && chunkBufferCnt <= p.max && Buffer() == old(Buffer()) + [b]
      ensures winFp == HashOf(p.window, Buffer()) && full == (|Buffer()| > p.window)
    {
      hide Filled, Slid, HashOf, NoCutIn, PowersOk, RemovesOk;
      ghost var s := Buffer();
      TableSizes(p, powerLUT[..], removeLUT[..]);
      HashStep(p, s, b, winFp, powerLUT[..], removeLUT[..]);
      full := chunkBufferCnt >= p.window;
      chunkBuffer[chunkBufferCnt] := b;
      if full {
        var v := chunkBuffer[chunkBufferCnt - p.window];
        assert v == s[|s| - p.window];
        winFp := Slid(winFp, removeLUT[v], b);
      } else {
        winFp := Filled(winFp, b, powerLUT[p.window - chunkBufferCnt - 1]);
      }
      chunkBufferCnt := chunkBufferCnt + 1;
      assert Buffer() == s + [b];
    }

    /** One byte: into the buffer and the hash, then out as a chunk if it is cut here. */
    method Feed(b: byte, ghost st: S.Store, ghost done: seq<Bytes>, ghost content: ContentMap)
      returns (ghost done': seq<Bytes>)
      requires Filling() && Emitted(st, done) && Sized(storage.db.chunks, content)
      requires CutAfter(p, Buffer() + [b]) ==> content(fingerprint(Buffer() + [b])) == Buffer() + [b]
      modifies `recipeList, `chunkBufferCnt, `winFp, chunkBuffer, index, storage.db`chunks, storage.db`sizes
      modifies storage.log`openName, storage.log.disk, storage.log.current, storage.log.current.body
      ensures Filling() && Emitted(st, done') && storage.Valid() && Sized(storage.db.chunks, content)
      ensures done' == if CutAfter(p, old(Buffer()) + [b]) then done + [old(Buffer()) + [b]] else done
      ensures Buffer() == if CutAfter(p, old(Buffer()) + [b]) then [] else old(Buffer()) + [b]
    {
      hide NoCutIn, CutAfter, HashOf, Sized, PowersOk, RemovesOk, DedupAll, Indexed, RecipeOf, Fingerprinted, IsAnchor;
      ghost var s := Buffer();
      CutTest(p, s + [b]);
      if !CutAfter(p, s + [b]) {
        NoCutGrows(p, s, b);
      }
      done' := done;
      var full := Roll(b);
      if !full || chunkBufferCnt < p.min {
        return;
      }
      if IsAnchor(winFp, p.bits) {
        EmitNext(st, done, content);
        done' := done + [s + [b]];
        StartChunk();
      }
      if chunkBufferCnt >= p.max {
        EmitNext(st, done, content);
        done' := done + [s + [b]];
        StartChunk();
      }
    }

    /** `done` and the buffer account for all of `file` but `rest`. */
    ghost predicate Progress(file: Bytes, done: seq<Bytes>, rest: Bytes)
      reads this, powerLUT, removeLUT, chunkBuffer
    {
      && Filling() && Chunks(p, file) == done + Chunks(p, Buffer() + rest)
      && forall i :: 0 <= i < |done| ==> Complete(p, done[i])
    }

    /** One byte of the file. */
    method FeedNext(b: byte, ghost rest: Bytes, ghost file: Bytes, ghost st: S.Store, ghost done: seq<Bytes>,
            ghost content: ContentMap)
      returns (ghost done': seq<Bytes>)
      requires Progress(file, done, [b] + rest) && Known(Chunks(p, file), fingerprint, content)
      requires Emitted(st, done) && Sized(storage.db.chunks, content)
      modifies `recipeList, `chunkBufferCnt, `winFp, chunkBuffer, index, storage.db`chunks, storage.db`sizes
      modifies storage.log`openName, storage.log.disk, storage.log.current, storage.log.current.body
      ensures Progress(file, done', rest) && Emitted(st, done') && storage.Valid() && Sized(storage.db.chunks, content)
    {
      hide CutAfter, HashOf, Sized, PowersOk, RemovesOk, Emitted, IsAnchor, Chunks, NoCutIn, Complete;
      ghost var s := Buffer();
      FedChunks(p, s, b, rest);
      if CutAfter(p, s + [b]) {
        assert Chunks(p, file)[|done|] == s + [b];
        assert (done + [s + [b]]) + Chunks(p, [] + rest) == done + ([s + [b]] + Chunks(p, [] + rest));
      }
      done' := Feed(b, st, done, content);
    }

    /** The bytes of one block. */
    method FeedBlock(block: Bytes, ghost rest: Bytes, ghost file: Bytes, ghost st: S.Store, ghost done: seq<Bytes>,
            ghost content: ContentMap)
      returns (ghost done': seq<Bytes>)
      requires Progress(file, done, block + rest) && Known(Chunks(p, file), fingerprint, content)
      requires Emitted(st, done) && storage.Valid() && Sized(storage.db.chunks, content)
      modifies `recipeList, `chunkBufferCnt, `winFp, chunkBuffer, index, storage.db`chunks, storage.db`sizes
      modifies storage.log`openName, storage.log.disk, storage.log.current, storage.log.current.body
      ensures Progress(file, done', rest) && Emitted(st, done') && storage.Valid() && Sized(storage.db.chunks, content)
    {
      hide Progress, Sized, Emitted, Known;
      done' := done;
      var i := 0;
      assert block[0..] == block;
      while i < |block|
        invariant i <= |block| && Progress(file, done', block[i..] + rest)
        invariant Emitted(st, done') && storage.Valid() && Sized(storage.db.chunks, content)
      {
        assert block[i..] + rest == [block[i]] + (block[i + 1..] + rest);
        done' := FeedNext(block[i], block[i + 1..] + rest, file, st, done', content);
        i := i + 1;
      }
      assert block[|block|..] + rest == rest;
    }

    /** Reads the file in blocks and feeds every byte; the read that comes up short is the last. */
    method ReadBlocks(file: Bytes, readSize: nat, ghost st: S.Store, ghost content: ContentMap)
      returns (ghost done: seq<Bytes>)
      requires readSize > 0 && Filling() && Buffer() == [] && Known(Chunks(p, file), fingerprint, content)
      requires Emitted(st, []) && storage.Valid() && Sized(storage.db.chunks, content)
      modifies `recipeList, `chunkBufferCnt, `winFp, chunkBuffer, index, storage.db`chunks, storage.db`sizes
      modifies storage.log`openName, storage.log.disk, storage.log.current, storage.log.current.body
      ensures storage.Valid() && Progress(file, done, []) && Emitted(st, done) && Sized(storage.db.chunks, content)
    {
      hide Progress, Sized, Emitted, Known;
      done := [];
      assert Progress(file, done, file) by { StartProgress(file); }
      var pos, eof := 0, false;
      while !eof
        invariant pos <= |file| && (eof ==> pos == |file|)
        invariant Progress(file, done, file[pos..]) && Emitted(st, done) && storage.Valid()
                  && Sized(storage.db.chunks, content)
        decreases !eof, |file| - pos
      {
        var len := if readSize <= |file| - pos then readSize else |file| - pos;
        var block := file[pos..pos + len];
        eof := |file| - pos < readSize;
        assert file[pos..] == block + file[pos + len..];
        done := FeedBlock(block, file[pos + len..], file, st, done, content);
        pos := pos + len;
      }
      assert file[pos..] == [];
    }

    lemma StartProgress(file: Bytes)
      requires Filling() && Buffer() == []
      ensures Progress(file, [], file)
    {
      assert [] + file == file;
      assert [] + Chunks(p, file) == Chunks(p, file);
    }

    /** Emits what is left over at the end of the file. */
    method EmitLast(ghost st: S.Store, ghost done: seq<Bytes>, ghost content: ContentMap)
      requires Wired() && Emitted(st, done) && chunkBufferCnt <= p.max
      requires Sized(storage.db.chunks, content) && content(fingerprint(Buffer())) == Buffer()
      modifies `recipeList, index, storage.db`chunks, storage.db`sizes, storage.log`openName, storage.log.disk
      modifies storage.log.current, storage.log.current.body
      ensures var chunks := Fingerprinted(fingerprint, done + [old(Buffer())]);
              && storage.Valid() && storage.State() == DedupAll(st, chunks) && recipeList == RecipeOf(chunks)
              && index.Value() == IndexedFinal(index.threeLevel, index.limits, st, chunks)
    {
      hide Dedup, DedupAll, Indexed, IndexedFinal, AddChunk, AddFinal, Fingerprinted, RecipeOf, Unseen, PowersOk;
      hide RemovesOk, Sized;
      ghost var data := Buffer();
      ghost var c := Chunk(fingerprint(data), data);
      DedupSized(storage.State(), c.hash, data, content);
      Emit(true);
      FingerprintedSnoc(fingerprint, done, data);
      SnocParts(index.threeLevel, index.limits, st, Fingerprinted(fingerprint, done), c);
    }

    /** Emits all chunks of a file, the left-over one last. */
    method CutFile(file: Bytes, readSize: nat, ghost content: ContentMap)
      requires readSize > 0 && Filling() && Buffer() == [] && recipeList == []
      requires storage.Valid() && index.Valid() && index.Value() == NO_CHUNKS
      requires Known(Chunks(p, file), fingerprint, content) && Sized(storage.db.chunks, content)
      modifies `recipeList, `chunkBufferCnt, `winFp, chunkBuffer, index, storage.db`chunks, storage.db`sizes
      modifies storage.log`openName, storage.log.disk, storage.log.current, storage.log.current.body
      ensures var st, chunks := old(storage.State()), Fingerprinted(fingerprint, Chunks(p, file));
              && storage.Valid() && storage.State() == DedupAll(st, chunks) && recipeList == RecipeOf(chunks)
              && index.Value() == if EndsAtCut(p, file) then Indexed(index.threeLevel, index.limits, st, chunks)
                                  else IndexedFinal(index.threeLevel, index.limits, st, chunks)
    {
      hide DedupAll, Indexed, IndexedFinal, Sized, PowersOk, RemovesOk, HashOf, Chunks, NoCutIn, CutAfter, Known;
      ghost var st := storage.State();
      NothingEmitted();
      ghost var done := ReadBlocks(file, readSize, st, content);
      assert Buffer() + [] == Buffer();
      WhatIsLeft(file, done, content);
      if chunkBufferCnt != 0 {
        EmitLast(st, done, content);
        StartChunk();
      }
    }

    /** Backs up a file. Its chunks are those of the greedy rule whatever the read size; they are
        deduplicated in order, listed in the recipe saved for `name`, and indexed. */
    method VarSizeChunking(name: Bytes, file: Bytes, readSize: nat, ghost content: ContentMap)
      requires readSize > 0 && Filling() && Buffer() == [] && recipeList == []
      requires storage.Valid() && index.Valid() && index.Value() == NO_CHUNKS
      requires Known(Chunks(p, file), fingerprint, content) && Sized(storage.db.chunks, content)
      modifies `recipeList, `chunkBufferCnt, `winFp, chunkBuffer, index, storage.db`chunks, storage.db`sizes,
               storage.db`recipes
      modifies storage.log`openName, storage.log.disk, storage.log.current, storage.log.current.body
      ensures var st, chunks := old(storage.State()), Fingerprinted(fingerprint, Chunks(p, file));
              && storage.Valid() && storage.State() == DedupAll(st, chunks)
              && storage.db.recipes
                == old(storage.db.recipes)[name :=
                  (if name in old(storage.db.recipes) then old(storage.db.recipes)[name] else []) + RecipeOf(chunks)]
              && index.Value() == (if EndsAtCut(p, file) then Indexed(index.threeLevel, index.limits, st, chunks)
                                   else IndexedFinal(index.threeLevel, index.limits, st, chunks))
              && (AllKeyed(st.index, chunks) ==> FlagsRight(st.index, chunks, index.Value().chunks))
    {
      hide DedupAll, Indexed, IndexedFinal, Sized, PowersOk, RemovesOk, HashOf, Chunks, NoCutIn, CutAfter, Known;
      hide AllKeyed, FlagsRight, RecipeOf, Fingerprinted;
      FlagsOfFile(storage.State(), file);
      CutFile(file, readSize, content);
      var _ := storage.CheckRecipeStatus(name, recipeList);
    }

    lemma FlagsOfFile(st: S.Store, file: Bytes)
      ensures var chunks := Fingerprinted(fingerprint, Chunks(p, file));
              AllKeyed(st.index, chunks) ==>
                && FlagsRight(st.index, chunks, Indexed(index.threeLevel, index.limits, st, chunks).chunks)
                && (!EndsAtCut(p, file) ==>
                      FlagsRight(st.index, chunks, IndexedFinal(index.threeLevel, index.limits, st, chunks).chunks))
    {
      hide AllKeyed, FlagsRight, Indexed, IndexedFinal, Chunks;
      var chunks := Fingerprinted(fingerprint, Chunks(p, file));
      if AllKeyed(st.index, chunks) {
        UniqueExactly(index.threeLevel, index.limits, st, chunks);
      }
    }

    lemma NothingEmitted()
      requires storage.Valid() && index.Valid() && index.Value() == NO_CHUNKS && recipeList == []
      ensures Emitted(storage.State(), [])
    {
      assert Fingerprinted(fingerprint, []) == [];
    }

    /** At the end of the file the buffer is empty, or it is the last chunk and not complete. */
    lemma WhatIsLeft(file: Bytes, done: seq<Bytes>, content: ContentMap)
      requires Progress(file, done, []) && Known(Chunks(p, file), fingerprint, content)
      ensures Buffer() == [] ==> Chunks(p, file) == done && EndsAtCut(p, file)
      ensures Buffer() != [] ==>
              Chunks(p, file) == done + [Buffer()] && !EndsAtCut(p, file) && content(fingerprint(Buffer())) == Buffer()
    {
      hide HashOf, CutAfter, PowersOk, RemovesOk;
      assert Buffer() + [] == Buffer();
      ChunksAreGreedy(p, file);
      if Buffer() == [] {
        assert Chunks(p, Buffer()) == [];
        assert Chunks(p, file) == done;
      } else {
        LeftoverHead(p, Buffer());
        hide Chunks;
        assert Buffer()[..|Buffer()|] == Buffer();
        assert Chunks(p, file)[|done|] == Buffer();
      }
    }

    /** Empties the buffer and resets the hash. */
    method StartChunk()
      requires Wired()
      modifies `chunkBufferCnt, `winFp
      ensures Filling() && Buffer() == []
    {
      hide CutAfter;
      HashOfEmpty(p.window);
      EmptyIsNoCut(p);
      chunkBufferCnt, winFp := 0, 0;
      assert Buffer() == [];
    }
  }

  lemma TableSizes(p: Params, powers: seq<nat>, removes: seq<nat>)
    requires p.Valid() && PowersOk(powers, p.window) && RemovesOk(removes, p.window)
    ensures |powers| == p.window && |removes| == 256
  {
  }
}
