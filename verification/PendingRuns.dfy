/** Pending deltas over whole runs: once they are right they stay right, and the pass may install them
    at any time. */
module PendingRuns {
  import opened Bytes
  import opened Names
  import opened Options
  import opened Log
  import opened Store
  import opened Deltas
  import opened DeltaPass
  import opened RefCounts
  import opened Compaction
  import opened Vault
  import opened Runs
  import opened RunLimits
  import opened DeltaCompressor

  /** The delta makes the content of `h` out of that of a base of lower rank, and is not longer. */
  ghost predicate DeltaRight(delta: Bytes, h: Bytes, apply: Apply, content: ContentMap, rank: Bytes -> nat) {
    && HASH_SIZE <= |delta| <= |content(h)| && rank(Base(delta)) < rank(h)
    && apply(San(content(Base(delta))), delta[HASH_SIZE..]) == San(content(h))
  }

  /** The pending delta of `h` can be read and is right, its base is known, and it fits the chunk. */
  ghost predicate PendingAt(
    index: Index, files: DeltaFiles, p: Entry, h: Bytes, apply: Apply, content: ContentMap, rank: Bytes -> nat
  ) {
    && Readable(files, p) && p.deltaCount > 0
    && DeltaRight(DeltaBytes(files, p), h, apply, content, rank) && Base(DeltaBytes(files, p)) in index
    && (h in index ==> p.length <= index[h].length)
  }

  /** Installed and pending base references together form no cycle, as `rank` shows, and all pending
      deltas are right. */
  ghost predicate PendingWith(v: Vault, apply: Apply, content: ContentMap, rank: Bytes -> nat) {
    && Sound(v.st) && Means(ContentsOf(v.st), apply, SanOf(content), rank)
    && forall h :: h in v.pending ==> PendingAt(v.st.index, v.files, v.pending[h], h, apply, content, rank)
  }

  ghost predicate PendingOk(v: Vault, apply: Apply, content: ContentMap) {
    exists rank :: PendingWith(v, apply, content, rank)
  }

  /** Known chunks keep their lengths, and new ones are stored whole. */
  ghost predicate Grows(index: Index, index': Index, content: ContentMap) {
    forall h {:trigger index'[h]} :: h in index' ==>
      index'[h].length == if h in index then index[h].length else |content(h)|
  }

  /** Deltas stay right where known chunks keep their lengths and bases stay known. */
  lemma StillPending(v: Vault, w: Vault, apply: Apply, content: ContentMap, rank: Bytes -> nat)
    requires PendingWith(v, apply, content, rank) && Sound(w.st)
    requires Means(ContentsOf(w.st), apply, SanOf(content), rank)
    requires w.pending == v.pending && w.files == v.files && Grows(v.st.index, w.st.index, content)
    requires forall h :: h in v.pending && WithinFile(v.files, v.pending[h]) && v.pending[h].length >= HASH_SIZE
                         && Base(DeltaBytes(v.files, v.pending[h])) in v.st.index ==>
               Base(DeltaBytes(v.files, v.pending[h])) in w.st.index
    ensures PendingWith(w, apply, content, rank)
  {
    hide Sound, Means, ContentsOf, Base, San;
    forall h | h in w.pending ensures PendingAt(w.st.index, w.files, w.pending[h], h, apply, content, rank) {
      assert PendingAt(v.st.index, v.files, v.pending[h], h, apply, content, rank);
    }
  }

  /** Where the index keeps all fingerprints, no base is lost. */
  lemma StillPendingGrown(v: Vault, w: Vault, apply: Apply, content: ContentMap, rank: Bytes -> nat)
    requires PendingWith(v, apply, content, rank) && Sound(w.st)
    requires Means(ContentsOf(w.st), apply, SanOf(content), rank)
    requires w.pending == v.pending && w.files == v.files && Grows(v.st.index, w.st.index, content)
    requires v.st.index.Keys <= w.st.index.Keys
    ensures PendingWith(w, apply, content, rank)
  {
    hide PendingWith, Sound, Means, ContentsOf, Base, Grows;
    StillPending(v, w, apply, content, rank);
  }

  // ---- Backing up ----

  lemma DedupGrows(st: Store, c: Chunk, apply: Apply, content: ContentMap, n: nat, rank: Bytes -> nat)
    requires Sound(st) && Means(ContentsOf(st), apply, SanOf(content), rank)
    requires Storable(st, c, content) && Findable(st.index, c) && WellKeyed(st.index) && Ready(st, n + 1)
    ensures Sound(Dedup(st, c.hash, c.data))
    ensures Means(ContentsOf(Dedup(st, c.hash, c.data)), apply, SanOf(content), rank)
    ensures Grows(st.index, Dedup(st, c.hash, c.data).index, content)
    ensures st.index.Keys <= Dedup(st, c.hash, c.data).index.Keys
  {
    CKeyFaithfulExactlyWithoutNul(c.hash);
    hide Sound, Means, ContentsOf, Room, CKey, San;
    if c.hash in st.index {
      assert CKey(c.hash) == c.hash;
      MeansKeepsBases(st, apply, content, rank);
      SubIndexMeansWith(st, Referenced(st.index, c.hash), apply, content, rank);
    } else {
      assert CKey(c.hash) !in st.index;
      SaveNewMeansWith(st, c, apply, content, n, rank);
      assert Taken(c.data, |c.data|) == c.data;
    }
  }

  lemma MeansKeepsBases(st: Store, apply: Apply, content: ContentMap, rank: Bytes -> nat)
    requires Sound(st) && Means(ContentsOf(st), apply, SanOf(content), rank)
    ensures BasesKept(ContentsOf(st), st.index.Keys)
  {
    hide Sound, Consistent, Ranked;
    ConsistentHasBases(ContentsOf(st), apply, SanOf(content));
  }

  lemma {:induction false} DedupAllGrows(
    st: Store, chunks: seq<Chunk>, apply: Apply, content: ContentMap, exact: bool, refs: Refs, spare: nat,
    rank: Bytes -> nat
  )
    requires StoreGood(st, apply, content, exact) && CountsAgree(st.index, refs)
    requires AllStorable(st, chunks, content) && AllFindable(st.index, chunks) && Ready(st, |chunks| + spare)
    requires Means(ContentsOf(st), apply, SanOf(content), rank)
    ensures Sound(DedupAll(st, chunks)) && Means(ContentsOf(DedupAll(st, chunks)), apply, SanOf(content), rank)
    ensures Grows(st.index, DedupAll(st, chunks).index, content)
    ensures st.index.Keys <= DedupAll(st, chunks).index.Keys
    decreases |chunks|
  {
    hide StoreGood, CountAgrees, Sound, Room, Dedup, NulFree, ContentsOf, Means;
    if chunks != [] {
      var n := |chunks| - 1;
      var init, c := chunks[..n], chunks[n];
      var st1 := DedupAll(st, init);
      DedupAllGood(st, init, apply, content, exact, refs, spare + 1);
      DedupAllGrows(st, init, apply, content, exact, refs, spare + 1, rank);
      StillFindable(st, chunks, apply, content, exact);
      assert Storable(st, c, content);
      GoodIsKeyed(st1, apply, content, exact);
      DedupGrows(st1, c, apply, content, spare, rank);
    }
  }

  lemma BackUpPending(
    v: Vault, file: Bytes, chunks: seq<Chunk>, apply: Apply, content: ContentMap, rank: Bytes -> nat
  )
    requires Good(v, apply, content, false) && Allowed(v, BackUp(file, chunks), apply, content)
    requires PendingWith(v, apply, content, rank)
    ensures PendingWith(Do(v, BackUp(file, chunks), apply, content), apply, content, rank)
  {
    hide StoreGood, CountsAgree, DedupAll, Sound, Room, AllFindable, AllStorable, Means, ContentsOf, PendingAt, Grows;
    DedupAllGrows(v.st, chunks, apply, content, false, RefsOf(v.recipes), 0, rank);
    StillPendingGrown(v, Do(v, BackUp(file, chunks), apply, content), apply, content, rank);
  }

  // ---- Deleting and collecting ----

  /** The bases of all pending deltas are among `keys`. */
  ghost predicate PendingBasesIn(v: Vault, keys: set<Bytes>) {
    forall h :: h in v.pending && WithinFile(v.files, v.pending[h]) && v.pending[h].length >= HASH_SIZE ==>
      Base(DeltaBytes(v.files, v.pending[h])) in keys
  }

  lemma SubIndexPending(v: Vault, w: Vault, apply: Apply, content: ContentMap, rank: Bytes -> nat)
    requires PendingWith(v, apply, content, rank) && SameButCounts(w.st.index, v.st.index)
    requires w.st == v.st.(index := w.st.index) && w.pending == v.pending && w.files == v.files
    requires BasesKept(ContentsOf(v.st), w.st.index.Keys) && PendingBasesIn(v, w.st.index.Keys)
    ensures PendingWith(w, apply, content, rank)
  {
    hide Sound, Means, ContentsOf, BasesKept, PendingAt, Base;
    SubIndexMeansWith(v.st, w.st.index, apply, content, rank);
    StillPending(v, w, apply, content, rank);
  }

  lemma PendingBasesKnown(v: Vault, apply: Apply, content: ContentMap, rank: Bytes -> nat)
    requires PendingWith(v, apply, content, rank)
    ensures PendingBasesIn(v, v.st.index.Keys)
  {
    hide Sound, Means, ContentsOf, Base, DeltaRight;
    forall h | h in v.pending && WithinFile(v.files, v.pending[h]) && v.pending[h].length >= HASH_SIZE
      ensures Base(DeltaBytes(v.files, v.pending[h])) in v.st.index.Keys
    {
      assert PendingAt(v.st.index, v.files, v.pending[h], h, apply, content, rank);
    }
  }

  lemma DropPending(v: Vault, file: Bytes, apply: Apply, content: ContentMap, rank: Bytes -> nat)
    requires PendingWith(v, apply, content, rank) && Allowed(v, Drop(file), apply, content)
    ensures PendingWith(Do(v, Drop(file), apply, content), apply, content, rank)
  {
    hide Sound, Means, ContentsOf, BasesKept, PendingAt, PendingBasesIn, DeleteAll;
    var w := Do(v, Drop(file), apply, content);
    forall h | h in v.st.index ensures w.st.index[h] == v.st.index[h].(count := w.st.index[h].count) {
      DeleteAllPlaces(v.st.index, RecipeAt(v.recipes, file), h);
    }
    MeansKeepsBases(v.st, apply, content, rank);
    PendingBasesKnown(v, apply, content, rank);
    SubIndexPending(v, w, apply, content, rank);
  }

  lemma CollectPending(v: Vault, apply: Apply, content: ContentMap, rank: Bytes -> nat)
    requires PendingWith(v, apply, content, rank) && Allowed(v, CollectGarbage, apply, content)
    requires PendingBasesIn(v, Collect(v.st.index).Keys)
    ensures PendingWith(Do(v, CollectGarbage, apply, content), apply, content, rank)
  {
    hide Sound, Means, ContentsOf, BasesKept, PendingAt, PendingBasesIn, References;
    SubIndexPending(v, Do(v, CollectGarbage, apply, content), apply, content, rank);
  }

  /** A collection keeps the bases of right pending deltas exactly if all of them are referenced. */
  lemma PendingBasesKeptExactly(v: Vault, apply: Apply, content: ContentMap)
    requires Good(v, apply, content, false) && PendingOk(v, apply, content)
    requires forall h :: References(v.recipes, h) < U32
    ensures forall h :: h in v.pending ==> Readable(v.files, v.pending[h]) && v.pending[h].length >= HASH_SIZE
    ensures PendingBasesIn(v, Collect(v.st.index).Keys) <==>
            forall h :: h in v.pending ==> References(v.recipes, Base(DeltaBytes(v.files, v.pending[h]))) > 0
  {
    hide Good, Sound, Means, ContentsOf, Base, References, Collect, BasesKept;
    var rank :| PendingWith(v, apply, content, rank);
    KeptIsReferenced(v, apply, content, false);
    forall h | h in v.pending ensures Readable(v.files, v.pending[h]) && v.pending[h].length >= HASH_SIZE {
      assert PendingAt(v.st.index, v.files, v.pending[h], h, apply, content, rank);
    }
  }

  // ---- Compacting, reopening and reading ----

  /** Operations that keep contents and lengths keep pending deltas right. */
  lemma SameContentsPending(v: Vault, w: Vault, apply: Apply, content: ContentMap, rank: Bytes -> nat)
    requires PendingWith(v, apply, content, rank) && Sound(w.st) && ContentsOf(w.st) == ContentsOf(v.st)
    requires w.pending == v.pending && w.files == v.files
    ensures PendingWith(w, apply, content, rank)
  {
    assert w.st.index.Keys == ContentsOf(w.st).Keys == v.st.index.Keys;
    forall h | h in w.st.index ensures w.st.index[h].length == v.st.index[h].length {
      ContentLength(v.st, h);
      ContentLength(w.st, h);
    }
    hide PendingWith, Sound, Means, ContentsOf;
    SameLengthsPending(v, w, apply, content, rank);
  }

  lemma SameLengthsPending(v: Vault, w: Vault, apply: Apply, content: ContentMap, rank: Bytes -> nat)
    requires PendingWith(v, apply, content, rank) && Sound(w.st) && ContentsOf(w.st) == ContentsOf(v.st)
    requires w.pending == v.pending && w.files == v.files && w.st.index.Keys == v.st.index.Keys
    requires forall h :: h in w.st.index ==> w.st.index[h].length == v.st.index[h].length
    ensures PendingWith(w, apply, content, rank)
  {
    hide Sound, Means, ContentsOf, PendingAt;
    StillPendingGrown(v, w, apply, content, rank);
  }

  lemma ContentLength(st: Store, h: Bytes)
    requires Sound(st) && h in st.index
    ensures |ContentsOf(st)[h].bytes| == st.index[h].length
  {
    HeldAt(st, h);
  }

  lemma CompactPending(v: Vault, order: seq<Bytes>, apply: Apply, content: ContentMap, rank: Bytes -> nat)
    requires Good(v, apply, content, false) && PendingWith(v, apply, content, rank)
    requires Allowed(v, Compact(order), apply, content)
    ensures PendingWith(Do(v, Compact(order), apply, content), apply, content, rank)
  {
    hide StoreGood, CountsAgree, RecipeFits, PendingWith, Sound, ContentsOf, Rewrite, Snapshot, MovesCleanly;
    CompactContents(v.st, order, apply, content, false);
    SameContentsPending(v, Do(v, Compact(order), apply, content), apply, content, rank);
  }

  lemma ReopenPending(v: Vault, apply: Apply, content: ContentMap, rank: Bytes -> nat)
    requires PendingWith(v, apply, content, rank)
    ensures PendingWith(AfterReopen(v), apply, content, rank)
  {
    hide Sound, ContentsOf, Means, PendingAt, ReopenedStore;
    ReopenContents(v.st);
    SameContentsPending(v, AfterReopen(v), apply, content, rank);
  }

  lemma ReadPending(v: Vault, names: seq<Name>, apply: Apply, content: ContentMap, rank: Bytes -> nat)
    requires PendingWith(v, apply, content, rank) && Allowed(v, Read(names), apply, content)
    ensures PendingWith(Do(v, Read(names), apply, content), apply, content, rank)
  {
    hide Sound, ContentsOf, Means, PendingAt, AfterReads;
    ReadContents(v.st, names);
    SameContentsPending(v, Do(v, Read(names), apply, content), apply, content, rank);
  }

  // ---- Installing ----

  lemma OneInstallable(
    st: Store, files: DeltaFiles, p: Entry, h: Bytes, apply: Apply, content: ContentMap, rank: Bytes -> nat
  )
    requires Catalogued(st) && PendingAt(st.index, files, p, h, apply, content, rank)
    ensures Fitting(st, files, h, p)
    ensures Sensible(PendingContent(files, p), h, st.index.Keys, apply, SanOf(content), rank)
  {
    hide Base, San;
  }

  /** Right deltas may be installed at any time, by a core that has not read yet. */
  lemma PendingInstallable(v: Vault, order: seq<Bytes>, apply: Apply, content: ContentMap, rank: Bytes -> nat)
    requires Good(v, apply, content, false) && PendingWith(v, apply, content, rank) && v.st.log.cacheName == []
    requires NoRepeats(order) && forall h :: h in order ==> h in v.pending
    ensures PassReady(Pass(v.st, v.pending, 0), v.files, order)
    ensures AllSensible(Pass(v.st, v.pending, 0), v.files, order, apply, SanOf(content), rank)
    ensures Allowed(v, InstallDeltas(order), apply, content)
  {
    hide Good, Sound, Means, ContentsOf, PendingAt, Catalogued, Fitting, Sensible, NoRepeats, PendingContent, Skipped;
    hide SanOf, Allowed, Accounted;
    GoodCatalogued(v, apply, content);
    forall h | h in order
      ensures Fitting(v.st, v.files, h, v.pending[h])
      ensures WithinFile(v.files, v.pending[h])
      ensures Sensible(PendingContent(v.files, v.pending[h]), h, v.st.index.Keys, apply, SanOf(content), rank)
    {
      PendingWithin(v.st.index, v.files, v.pending[h], h, apply, content, rank);
      OneInstallable(v.st, v.files, v.pending[h], h, apply, content, rank);
    }
    RankedInstallAllowed(v, order, apply, content, rank);
  }

  lemma PendingWithin(
    index: Index, files: DeltaFiles, p: Entry, h: Bytes, apply: Apply, content: ContentMap, rank: Bytes -> nat
  )
    requires PendingAt(index, files, p, h, apply, content, rank)
    ensures WithinFile(files, p)
  {
  }

  /** Afterwards the deltas left pending are still right; their files are gone only if there are none. */
  lemma InstallPending(v: Vault, order: seq<Bytes>, apply: Apply, content: ContentMap, rank: Bytes -> nat)
    requires Good(v, apply, content, false) && PendingWith(v, apply, content, rank)
    requires Allowed(v, InstallDeltas(order), apply, content) && forall h :: h in v.pending <==> h in order
    requires v.st.log.cacheName == [] && NoRepeats(order)
    ensures PendingWith(Do(v, InstallDeltas(order), apply, content), apply, content, rank)
  {
    hide Good, Sound, Means, ContentsOf, PendingAt, Catalogued, Accounted, Passed, InstallAll, PassReady, AllSensible;
    hide Allowed, Do, NoRepeats;
    var u := Pass(v.st, v.pending, 0);
    GoodCatalogued(v, apply, content);
    PendingInstallable(v, order, apply, content, rank);
    InstallAllMeans(u, v.files, order, apply, SanOf(content), rank, false);
    InstallIs(v, order, apply, content);
    var w := Do(v, InstallDeltas(order), apply, content);
    forall h | h in w.pending ensures PendingAt(w.st.index, w.files, w.pending[h], h, apply, content, rank) {
      LeftPending(v, order, h, apply, content, rank);
    }
  }

  lemma LeftPending(v: Vault, order: seq<Bytes>, h: Bytes, apply: Apply, content: ContentMap, rank: Bytes -> nat)
    requires PassReady(Pass(v.st, v.pending, 0), v.files, order) && forall h :: h in v.pending <==> h in order
    requires PendingWith(v, apply, content, rank)
    ensures var (u, files) := Update(Pass(v.st, v.pending, 0), v.files, order);
            h in u.pending ==> PendingAt(u.st.index, files, u.pending[h], h, apply, content, rank)
  {
    hide Sound, Means, ContentsOf, PassReady, InstallAll, PendingAt, Passed, Skipped;
    var u := Pass(v.st, v.pending, 0);
    var u' := InstallAll(u, v.files, order);
    assert u.(left := 0) == u;
    InstallAllPassed(u, v.files, order);
    PassedCounts(u, u', order);
    if h in u'.pending {
      PassedAt(u, u', order, h);
      if h in u.st.index {
        LeftLength(u, v.files, order, h);
      }
      PendingCarries(v.st.index, u'.st.index, v.files, v.pending[h], h, apply, content, rank);
    }
  }

  lemma PendingCarries(
    index: Index, index': Index, files: DeltaFiles, p: Entry, h: Bytes, apply: Apply, content: ContentMap,
    rank: Bytes -> nat
  )
    requires PendingAt(index, files, p, h, apply, content, rank) && index'.Keys == index.Keys
    requires h in index ==> index'[h].length == index[h].length
    ensures PendingAt(index', files, p, h, apply, content, rank)
  {
    hide DeltaRight, Base;
  }

  lemma PassedAt(u: Pass, u': Pass, order: seq<Bytes>, h: Bytes)
    requires Passed(u, u', order) && h in u'.pending && forall g :: g in u.pending <==> g in order
    ensures h in u.pending && u'.pending[h] == u.pending[h] && Skipped(u.st, h) && u'.pending != map[]
    ensures u'.st.index.Keys == u.st.index.Keys
  {
  }

  /** A skipped chunk keeps its length. */
  lemma LeftLength(u: Pass, files: DeltaFiles, order: seq<Bytes>, h: Bytes)
    requires PassReady(u, files, order) && Skipped(u.st, h) && h in u.st.index
    ensures h in InstallAll(u, files, order).st.index
    ensures InstallAll(u, files, order).st.index[h].length == u.st.index[h].length
  {
    hide Sound, Fitting, NoRepeats, InstallAll, Stored, Skipped;
    InstallAllBytes(u, files, order);
    assert h in Stored(InstallAll(u, files, order).st);
    StoredHas(u.st, h);
    StoredHas(InstallAll(u, files, order).st, h);
  }

  lemma StoredHas(st: Store, h: Bytes)
    requires Sound(st) && h in st.index
    ensures h in Stored(st) && |Stored(st)[h]| == st.index[h].length
  {
    HeldAt(st, h);
  }

  lemma GoodCatalogued(v: Vault, apply: Apply, content: ContentMap)
    requires Good(v, apply, content, false)
    ensures Sound(v.st) && Catalogued(v.st) && Accounted(v.st, false)
  {
  }

  // ---- The delta log ----

  /** The container log a delta compressor starts with. */
  function DeltaLog(v: Vault, max: nat, capacity: nat): Log
    requires Loadable(v.files, v.deltaConfig, capacity)
  {
    Log(max, v.files, OpenNameOf(v.deltaConfig, INITIAL_NAME), LoadedOpen(v.files, v.deltaConfig, capacity), [], [])
  }

  /** It is sound, holds all pending deltas, and has them in files. */
  ghost predicate DeltaLogOk(v: Vault, max: nat, capacity: nat) {
    && max <= capacity && Loadable(v.files, v.deltaConfig, capacity)
    && Coherent(DeltaLog(v, max, capacity)) && LaidOut(DeltaLog(v, max, capacity), v.pending)
    && forall h :: h in v.pending ==> v.pending[h].name in v.files
  }

  lemma CutOfPrefix(e: Entry, body: Bytes, k: nat)
    requires k <= |body| && Fits(e, body[..k])
    ensures Fits(e, body) && Cut(e, body) == Cut(e, body[..k])
  {
  }

  lemma ClosedSlot(v: Vault, max: nat, capacity: nat, h: Bytes)
    requires DeltaLogOk(v, max, capacity) && h in v.pending
    ensures Readable(v.files, v.pending[h])
    ensures DeltaBytes(v.files, v.pending[h]) == Slots(DeltaLog(v, max, capacity), v.pending)[h]
  {
    hide Coherent, Less;
    var log, p := DeltaLog(v, max, capacity), v.pending[h];
    assert Held(log, p) && p.name in v.files;
    if p.name == log.openName {
      var k := if v.deltaConfig.Some? then v.deltaConfig.value.1 else 0;
      assert log.open == v.files[p.name][..k];
      CutOfPrefix(p, v.files[p.name], k);
    }
    assert Slot(log, p) == Cut(p, v.files[p.name]);
  }

  /** What saving a delta and closing the compressor leave. */
  function SavedDelta(v: Vault, max: nat, capacity: nat, h: Bytes, e: Entry, data: Bytes): Vault
    requires Loadable(v.files, v.deltaConfig, capacity)
  {
    var log := Append(DeltaLog(v, max, capacity), data);
    v.(pending := v.pending[h := Placed(DeltaLog(v, max, capacity), e, data)],
       files := Flushed(log), deltaConfig := Some((log.openName, |log.open|)))
  }

  lemma SavedIsReopened(v: Vault, max: nat, capacity: nat, h: Bytes, e: Entry, data: Bytes)
    requires DeltaLogOk(v, max, capacity) && |data| < max && NameLeft(DeltaLog(v, max, capacity), |data|)
    ensures var w := SavedDelta(v, max, capacity, h, e, data);
            && Loadable(w.files, w.deltaConfig, capacity)
            && DeltaLog(w, max, capacity) == Reopened(Append(DeltaLog(v, max, capacity), data))
  {
    hide Coherent, LaidOut, Less, MadeRoom, Rolls, NextPermutation;
    var log := DeltaLog(v, max, capacity);
    AppendHolds(log, data, e);
    AppendBound(log, data);
    assert Append(log, data).open[..|Append(log, data).open|] == Append(log, data).open;
  }

  lemma AppendBound(log: Log, data: Bytes)
    requires Coherent(log) && |data| < log.max && NameLeft(log, |data|)
    ensures Append(log, data).max == log.max && |Append(log, data).open| < log.max
  {
    AppendHolds(log, data, Entry([], 0, 0, 0, 0));
  }

  /** The delta log stays sound. */
  lemma SavedLogOk(v: Vault, max: nat, capacity: nat, h: Bytes, e: Entry, data: Bytes)
    requires DeltaLogOk(v, max, capacity) && |data| < max && NameLeft(DeltaLog(v, max, capacity), |data|)
    ensures DeltaLogOk(SavedDelta(v, max, capacity, h, e, data), max, capacity)
  {
    var log := DeltaLog(v, max, capacity);
    var w := SavedDelta(v, max, capacity, h, e, data);
    SavedIsReopened(v, max, capacity, h, e, data);
    AppendStores(log, v.pending, h, e, data);
    CoherentOpenName(Append(log, data));
    ReopenKeeps(Append(log, data), w.pending);
    forall g | g in w.pending ensures w.pending[g].name in w.files {
      HeldInFile(Append(log, data), w.pending, g);
    }
  }

  lemma HeldInFile(log: Log, index: Index, h: Bytes)
    requires LaidOut(log, index) && h in index
    ensures index[h].name in Flushed(log)
  {
    assert Held(log, index[h]);
  }

  /** All pending deltas keep their bytes, and the new one has those saved. */
  lemma SavedBytes(v: Vault, max: nat, capacity: nat, h: Bytes, e: Entry, data: Bytes, g: Bytes)
    requires DeltaLogOk(v, max, capacity) && |data| < max && NameLeft(DeltaLog(v, max, capacity), |data|)
    requires g == h || g in v.pending
    ensures var w := SavedDelta(v, max, capacity, h, e, data);
            && Readable(w.files, w.pending[g])
            && (g != h ==> Readable(v.files, v.pending[g]))
            && DeltaBytes(w.files, w.pending[g]) == if g == h then data else DeltaBytes(v.files, v.pending[g])
  {
    hide DeltaLogOk, Loadable, NameLeft, Readable, DeltaBytes, Append, Placed, Flushed, Slots;
    LogFacts(v, max, capacity);
    SavedDeltaReadable(DeltaLog(v, max, capacity), v.pending, h, e, data, g);
    if g != h {
      ClosedSlot(v, max, capacity, g);
    }
  }

  lemma LogFacts(v: Vault, max: nat, capacity: nat)
    requires DeltaLogOk(v, max, capacity)
    ensures Loadable(v.files, v.deltaConfig, capacity)
    ensures Coherent(DeltaLog(v, max, capacity)) && LaidOut(DeltaLog(v, max, capacity), v.pending)
    ensures DeltaLog(v, max, capacity).max == max
  {
  }

  /** Saving a right delta for a plain chunk keeps all pending deltas right. */
  lemma SavePending(
    v: Vault, max: nat, capacity: nat, h: Bytes, e: Entry, data: Bytes, apply: Apply, content: ContentMap,
    rank: Bytes -> nat
  )
    requires PendingWith(v, apply, content, rank) && DeltaLogOk(v, max, capacity)
    requires |data| < max && NameLeft(DeltaLog(v, max, capacity), |data|) && e.deltaCount > 0
    requires DeltaRight(data, h, apply, content, rank) && Base(data) in v.st.index
    requires h in v.st.index ==> |data| <= v.st.index[h].length
    ensures PendingWith(SavedDelta(v, max, capacity, h, e, data), apply, content, rank)
  {
    hide Sound, Means, ContentsOf, DeltaLogOk, DeltaRight, Base, NameLeft, DeltaBytes, Readable, SavedDelta;
    LogFacts(v, max, capacity);
    var w := SavedDelta(v, max, capacity, h, e, data);
    SavedParts(v, max, capacity, h, e, data);
    forall g | g in w.pending ensures PendingAt(w.st.index, w.files, w.pending[g], g, apply, content, rank) {
      SavedBytes(v, max, capacity, h, e, data, g);
      if g != h {
        assert PendingAt(v.st.index, v.files, v.pending[g], g, apply, content, rank);
      }
    }
  }

  lemma SavedParts(v: Vault, max: nat, capacity: nat, h: Bytes, e: Entry, data: Bytes)
    requires Loadable(v.files, v.deltaConfig, capacity)
    ensures var w := SavedDelta(v, max, capacity, h, e, data);
            && w.st == v.st && w.recipes == v.recipes && h in w.pending
            && w.pending[h].deltaCount == e.deltaCount && w.pending[h].length == |data|
            && forall g :: g in w.pending ==> g == h || (g in v.pending && w.pending[g] == v.pending[g])
  {
  }

  /** The pending deltas afterwards are those from before, as they were, and the one saved. */
  ghost predicate PendingToo(v: Vault, w: Vault, h: Bytes, e: Entry, data: Bytes) {
    && w.st == v.st && w.recipes == v.recipes && w.pending.Keys == v.pending.Keys + {h}
    && Readable(w.files, w.pending[h]) && DeltaBytes(w.files, w.pending[h]) == data
    && w.pending[h].deltaCount == e.deltaCount
    && forall g :: g in v.pending && g != h ==>
         && w.pending[g] == v.pending[g] && Readable(v.files, v.pending[g]) && Readable(w.files, w.pending[g])
         && DeltaBytes(w.files, w.pending[g]) == DeltaBytes(v.files, v.pending[g])
  }

  lemma SavedToo(v: Vault, max: nat, capacity: nat, h: Bytes, e: Entry, data: Bytes)
    requires DeltaLogOk(v, max, capacity) && |data| < max && NameLeft(DeltaLog(v, max, capacity), |data|)
    ensures PendingToo(v, SavedDelta(v, max, capacity, h, e, data), h, e, data)
  {
    SavedKeys(v, max, capacity, h, e, data);
    SavedParts(v, max, capacity, h, e, data);
    hide DeltaLogOk, Loadable, NameLeft, Readable, DeltaBytes, SavedDelta;
    forall g | g == h || g in v.pending {
      SavedBytes(v, max, capacity, h, e, data, g);
    }
  }

  lemma SavedKeys(v: Vault, max: nat, capacity: nat, h: Bytes, e: Entry, data: Bytes)
    requires Loadable(v.files, v.deltaConfig, capacity)
    ensures SavedDelta(v, max, capacity, h, e, data).pending.Keys == v.pending.Keys + {h}
  {
  }

  // ---- Whole runs ----

  /** Pending deltas are right, and in a sound delta log. */
  ghost predicate PendingGood(v: Vault, max: nat, capacity: nat, apply: Apply, content: ContentMap) {
    PendingOk(v, apply, content) && DeltaLogOk(v, max, capacity)
  }

  /** What pending deltas ask of an operation: collections keep their bases, a pass visits all of them,
      and new ones are right. */
  ghost predicate SafeForPending(v: Vault, op: Op, max: nat, capacity: nat, apply: Apply, content: ContentMap) {
    match op
    case CollectGarbage => PendingBasesIn(v, Collect(v.st.index).Keys)
    case InstallDeltas(order) => forall h :: h in v.pending ==> h in order
    case PendDeltas(pending, files, deltaConfig) =>
      PendingGood(v.(pending := pending, files := files, deltaConfig := deltaConfig), max, capacity, apply, content)
    case _ => true
  }

  lemma SameLogOk(v: Vault, w: Vault, max: nat, capacity: nat)
    requires DeltaLogOk(v, max, capacity)
    requires w.pending == v.pending && w.files == v.files && w.deltaConfig == v.deltaConfig
    ensures DeltaLogOk(w, max, capacity)
  {
    assert Loadable(w.files, w.deltaConfig, capacity) ==> DeltaLog(w, max, capacity) == DeltaLog(v, max, capacity);
  }

  /** With some deltas installed, and the directory emptied if they were all. */
  lemma InstalledLogOk(v: Vault, w: Vault, max: nat, capacity: nat)
    requires DeltaLogOk(v, max, capacity) && w.deltaConfig == v.deltaConfig
    requires SamePlaces(w.pending, v.pending) && (w.files == v.files || (w.files == map[] && w.pending == map[]))
    ensures DeltaLogOk(w, max, capacity)
  {
    LogFacts(v, max, capacity);
    var log := DeltaLog(v, max, capacity);
    if w.files == v.files {
      assert DeltaLog(w, max, capacity) == log;
      hide Coherent;
      SamePlacesSlots(log, w.pending, v.pending);
    }
  }

  lemma InstallLogOk(v: Vault, order: seq<Bytes>, max: nat, capacity: nat, apply: Apply, content: ContentMap)
    requires DeltaLogOk(v, max, capacity) && Allowed(v, InstallDeltas(order), apply, content)
    requires forall h :: h in v.pending <==> h in order
    ensures DeltaLogOk(Do(v, InstallDeltas(order), apply, content), max, capacity)
  {
    hide DeltaLogOk, PassReady, Allowed, Do, InstallAll, Passed, Skipped;
    InstallIs(v, order, apply, content);
    var u := Pass(v.st, v.pending, 0);
    assert u.(left := 0) == u;
    InstallAllPassed(u, v.files, order);
    var u' := InstallAll(u, v.files, order);
    PassedCounts(u, u', order);
    PassedPending(u, u', order);
    InstalledLogOk(v, Do(v, InstallDeltas(order), apply, content), max, capacity);
  }

  lemma PassedPending(u: Pass, u': Pass, order: seq<Bytes>)
    requires Passed(u, u', order)
    ensures SamePlaces(u'.pending, u.pending)
  {
  }

  /** Every operation keeps pending deltas good. */
  lemma DoKeepsPending(v: Vault, op: Op, max: nat, capacity: nat, apply: Apply, content: ContentMap)
    requires Good(v, apply, content, false) && PendingGood(v, max, capacity, apply, content)
    requires Allowed(v, op, apply, content) && SafeForPending(v, op, max, capacity, apply, content)
    ensures PendingGood(Do(v, op, apply, content), max, capacity, apply, content)
  {
    hide Good, PendingWith, DeltaLogOk, Allowed, PendingBasesIn, PassReady;
    var rank :| PendingWith(v, apply, content, rank);
    match op
    case InstallDeltas(order) =>
      hide Do;
      PassFacts(v, order, apply, content);
      InstallPending(v, order, apply, content, rank);
      InstallLogOk(v, order, max, capacity, apply, content);
      assert PendingWith(Do(v, op, apply, content), apply, content, rank);
    case PendDeltas(_, _, _) =>
    case _ =>
      PlainOpKeepsPending(v, op, max, capacity, apply, content, rank);
  }

  lemma PassFacts(v: Vault, order: seq<Bytes>, apply: Apply, content: ContentMap)
    requires Allowed(v, InstallDeltas(order), apply, content)
    ensures v.st.log.cacheName == [] && NoRepeats(order) && forall h :: h in order ==> h in v.pending
  {
  }

  lemma PlainOpKeepsPending(
    v: Vault, op: Op, max: nat, capacity: nat, apply: Apply, content: ContentMap, rank: Bytes -> nat
  )
    requires !op.InstallDeltas? && !op.PendDeltas?
    requires Good(v, apply, content, false) && PendingWith(v, apply, content, rank) && DeltaLogOk(v, max, capacity)
    requires Allowed(v, op, apply, content) && SafeForPending(v, op, max, capacity, apply, content)
    ensures PendingGood(Do(v, op, apply, content), max, capacity, apply, content)
  {
    hide Good, PendingWith, DeltaLogOk, Allowed, PendingBasesIn, Rewrite, DedupAll, ReopenedStore;
    SameLogOk(v, Do(v, op, apply, content), max, capacity);
    hide Do;
    match op {
      case BackUp(file, chunks) => BackUpPending(v, file, chunks, apply, content, rank);
      case Drop(file) => DropPending(v, file, apply, content, rank);
      case CollectGarbage => CollectPending(v, apply, content, rank);
      case Compact(order) => CompactPending(v, order, apply, content, rank);
      case Reopen => ReopenOpPending(v, apply, content, rank);
      case Read(names) => ReadPending(v, names, apply, content, rank);
    }
    assert PendingWith(Do(v, op, apply, content), apply, content, rank);
  }

  lemma ReopenOpPending(v: Vault, apply: Apply, content: ContentMap, rank: Bytes -> nat)
    requires PendingWith(v, apply, content, rank) && Allowed(v, Reopen, apply, content)
    ensures PendingWith(Do(v, Reopen, apply, content), apply, content, rank)
  {
    hide PendingWith, ReopenedStore;
    ReopenPending(v, apply, content, rank);
  }

  lemma EmptyPending(
    name: Name, max: nat, deltaMax: nat, capacity: nat, apply: Apply, content: ContentMap
  )
    requires name != [] && max > 0 && 0 < deltaMax <= capacity
    ensures PendingGood(Empty(name, max), deltaMax, capacity, apply, content)
  {
    EmptyGood(apply, content, name, max);
    var v := Empty(name, max);
    var rank: Bytes -> nat := _ => 0;
    assert PendingWith(v, apply, content, rank);
  }

  ghost predicate RunSafe(v: Vault, ops: seq<Op>, max: nat, capacity: nat, apply: Apply, content: ContentMap)
    requires RunAllowed(v, ops, apply, content)
    decreases |ops|
  {
    ops == []
    || (SafeForPending(v, ops[0], max, capacity, apply, content)
        && RunSafe(Do(v, ops[0], apply, content), ops[1..], max, capacity, apply, content))
  }

  /** So does every run: deltas that were right when saved can be installed at the end of it. */
  lemma {:induction false} RunKeepsPending(
    v: Vault, ops: seq<Op>, max: nat, capacity: nat, apply: Apply, content: ContentMap, order: seq<Bytes>
  )
    requires Good(v, apply, content, false) && PendingGood(v, max, capacity, apply, content)
    requires RunAllowed(v, ops, apply, content) && RunSafe(v, ops, max, capacity, apply, content)
    ensures PendingGood(Run(v, ops, apply, content), max, capacity, apply, content)
    ensures var w := AfterReopen(Run(v, ops, apply, content));
            NoRepeats(order) && (forall h :: h in order ==> h in w.pending) ==>
              Allowed(w, InstallDeltas(order), apply, content)
    decreases |ops|
  {
    hide Good, PendingGood, Allowed, Do, SafeForPending, AfterReopen, NoRepeats;
    if ops == [] {
      ReopenedInstallable(v, order, max, capacity, apply, content);
    } else {
      DoGood(v, ops[0], apply, content, false);
      DoKeepsPending(v, ops[0], max, capacity, apply, content);
      RunKeepsPending(Do(v, ops[0], apply, content), ops[1..], max, capacity, apply, content, order);
    }
  }

  lemma ReopenedInstallable(
    v: Vault, order: seq<Bytes>, max: nat, capacity: nat, apply: Apply, content: ContentMap
  )
    requires Good(v, apply, content, false) && PendingGood(v, max, capacity, apply, content)
    ensures var w := AfterReopen(v);
            NoRepeats(order) && (forall h :: h in order ==> h in w.pending) ==>
              Allowed(w, InstallDeltas(order), apply, content)
  {
    hide Good, PendingWith, Allowed, Do, NoRepeats, DeltaLogOk;
    var w := AfterReopen(v);
    var rank :| PendingWith(v, apply, content, rank);
    ReopenIsGood(v, apply, content);
    ReopenPending(v, apply, content, rank);
    if NoRepeats(order) && forall h :: h in order ==> h in w.pending {
      PendingInstallable(w, order, apply, content, rank);
    }
  }

  lemma ReopenIsGood(v: Vault, apply: Apply, content: ContentMap)
    requires Good(v, apply, content, false)
    ensures Good(AfterReopen(v), apply, content, false)
  {
    hide Good, ReopenedStore;
    ReopenGood(v, apply, content, false);
  }
}
