/** Runs that fail: a base is collected, a delta is spoilt by compaction or overwritten by a backup. */
module FailingRuns {
  import opened Bytes
  import opened Names
  import opened Store
  import opened Deltas
  import opened DeltaPass
  import opened RefCounts
  import opened Compaction
  import opened Vault
  import opened Runs
  import opened RunLimits
  import opened SampleRuns

  // ---- Losing the base ----

  lemma DropReferences(s: Sample, h: Bytes)
    requires s.fileA != s.fileB
    ensures References(TwoFiles(s).recipes - {s.fileB}, h) == if h == s.a.hash then 1 else 0
  {
    var none: Recipes, a := map[], RecipeOf([s.a]);
    assert TwoFiles(s).recipes - {s.fileB} == none[s.fileA := a];
    ReferencesWith(none, s.fileA, a, h);
    OneOccurrence(s.a, h);
  }

  lemma DeleteKeepsContents(st: Store, recipe: Recipe)
    requires Sound(st)
    ensures Sound(st.(index := DeleteAll(st.index, recipe)))
    ensures ContentsOf(st.(index := DeleteAll(st.index, recipe))) == ContentsOf(st)
  {
    hide Sound, Stored, DeleteAll;
    forall h | h in st.index
      ensures DeleteAll(st.index, recipe)[h] == st.index[h].(count := DeleteAll(st.index, recipe)[h].count)
    {
      DeleteAllPlaces(st.index, recipe, h);
    }
    SubIndexContents(st, DeleteAll(st.index, recipe));
  }

  lemma BaseDropped(s: Sample, v: Vault, w: Vault)
    requires DeltaStored(s, v) && s.fileA != s.fileB && s.a.hash != s.b.hash
    requires w.st == v.st.(index := DeleteAll(v.st.index, RecipeAt(v.recipes, s.fileB)))
    requires w.recipes == v.recipes - {s.fileB}
    ensures References(w.recipes, s.a.hash) > 0 && References(w.recipes, s.b.hash) == 0
    ensures forall h :: References(w.recipes, h) < U32
    ensures Sound(w.st) && s.a.hash in w.st.index && ContentsOf(w.st)[s.a.hash] == Content(s.delta, true)
  {
    hide TwoFiles, Sound, ContentsOf, References, DeleteAll, Room;
    DeleteKeepsContents(v.st, RecipeAt(v.recipes, s.fileB));
    forall h ensures References(w.recipes, h) == if h == s.a.hash then 1 else 0 {
      DropReferences(s, h);
    }
  }

  lemma DropsB(s: Sample, v: Vault)
    requires DeltaStored(s, v)
    ensures s.fileB in v.recipes
  {
  }

  /** The delta does not make its chunk out of nothing. */
  ghost predicate NeedsBase(s: Sample, apply: Apply) {
    |s.delta| >= HASH_SIZE && apply([], s.delta[HASH_SIZE..]) != San(s.a.data)
  }

  /** The failing run: both files are backed up, the delta is installed, the file with its base is
      dropped, and garbage is collected. The chunk of the first file is still referenced, but restores
      to the delta applied to nothing, which is not its content. */
  lemma BaseIsLost(s: Sample, apply: Apply, content: ContentMap) returns (v: Vault, rank: Bytes -> nat)
    requires SampleOk(s, apply, content) && NeedsBase(s, apply)
    ensures Reaches(Empty(s.name, s.max), UpToInstall(s) + [Drop(s.fileB)], v, apply, content)
    ensures References(v.recipes, s.a.hash) > 0
    ensures var st' := v.st.(index := Collect(v.st.index));
            && Sound(st') && s.a.hash in st'.index && Ranked(ContentsOf(st'), rank)
            && Restored(ContentsOf(st'), apply, rank, s.a.hash) == apply([], s.delta[HASH_SIZE..])
            && Restored(ContentsOf(st'), apply, rank, s.a.hash) != San(content(s.a.hash))
  {
    assert s.fileA != s.fileB && s.a.hash != s.b.hash && |s.delta| >= HASH_SIZE && Base(s.delta) == s.b.hash;
    assert content(s.a.hash) == s.a.data;
    hide SampleOk, Empty, UpToInstall, Good, Run, RunAllowed, DeltaStored, Base, Sound, ContentsOf, References, Collect;
    hide Allowed, Do, Ranked;
    var u := InstalledReached(s, apply, content);
    DropIs(u, s.fileB, apply, content);
    DropsB(s, u);
    v := Do(u, Drop(s.fileB), apply, content);
    BaseDropped(s, u, v);
    ReachesOneMore(Empty(s.name, s.max), UpToInstall(s), u, Drop(s.fileB), apply, content);
    rank := CollectedRank(v, apply, content);
    CollectedBaseIsLost(v, apply, content, false, s.a.hash, s.b.hash, rank);
  }

  lemma CollectedRank(v: Vault, apply: Apply, content: ContentMap) returns (rank: Bytes -> nat)
    requires Good(v, apply, content, false)
    ensures var st' := v.st.(index := Collect(v.st.index));
            Sound(st') && Ranked(ContentsOf(st'), rank)
  {
    hide Good, Sound, ContentsOf, Collect;
    GoodHasRank(v, apply, content, false);
    rank :| Ranked(ContentsOf(v.st), rank);
    CollectContents(v.st);
  }

  // ---- Losing the base of a pending delta ----

  /** Both files backed up, and the delta saved. */
  function Made(s: Sample): Vault {
    TwoFiles(s).(pending := Pending(s), files := DeltaFile(s), deltaConfig := DeltaConfig(s))
  }

  function UpToMade(s: Sample): seq<Op> {
    BackUps(s) + [PendDeltas(Pending(s), DeltaFile(s), DeltaConfig(s))]
  }

  /** The base's file dropped. */
  function Dropped(s: Sample): Vault {
    Made(s).(st := Second(s).(index := DeleteAll(Second(s).index, RecipeOf([s.b]))),
             recipes := TwoFiles(s).recipes - {s.fileB})
  }

  /** Garbage collected. */
  function WithoutBase(s: Sample): Vault {
    var v := Dropped(s);
    v.(st := v.st.(index := Collect(v.st.index)))
  }

  /** The store opened again to install the delta. */
  function Collected(s: Sample): Vault {
    AfterReopen(WithoutBase(s))
  }

  function UpToCollect(s: Sample): seq<Op> {
    UpToMade(s) + [Drop(s.fileB)] + [CollectGarbage] + [Reopen]
  }

  lemma CollectPlainReached(from: Vault, ops: seq<Op>, v: Vault, apply: Apply, content: ContentMap)
    requires Reaches(from, ops, v, apply, content) && (forall h :: References(v.recipes, h) < U32)
    requires forall h :: h in v.st.index ==> v.st.index[h].deltaCount == 0
    ensures Reaches(from, ops + [CollectGarbage], v.(st := v.st.(index := Collect(v.st.index))), apply, content)
    ensures forall h :: h in Collect(v.st.index) <==> References(v.recipes, h) > 0
  {
    hide Good, Sound, References, Stored, Collect, Run, RunAllowed;
    KeptIsReferenced(v, apply, content, false);
    ReachesOneMore(from, ops, v, CollectGarbage, apply, content);
  }

  lemma DroppedIndex(s: Sample)
    requires s.fileA != s.fileB && s.a.hash != s.b.hash
    ensures var w := Dropped(s);
            && (forall h :: References(w.recipes, h) == if h == s.a.hash then 1 else 0)
            && s.a.hash in w.st.index && (forall h :: h in w.st.index ==> w.st.index[h].deltaCount == 0)
            && w.st.index[s.a.hash].name == s.name && w.st.index[s.a.hash].length == |s.a.data|
  {
    SecondIndex(s);
    hide Second, TwoFiles, References, DeleteAll;
    forall h ensures References(Dropped(s).recipes, h) == if h == s.a.hash then 1 else 0 {
      DropReferences(s, h);
    }
    forall h | h in Second(s).index
      ensures Dropped(s).st.index[h] == Second(s).index[h].(count := Dropped(s).st.index[h].count)
    {
      DeleteAllPlaces(Second(s).index, RecipeOf([s.b]), h);
    }
  }

  lemma SampleFacts(s: Sample, apply: Apply, content: ContentMap)
    requires SampleOk(s, apply, content)
    ensures s.fileA != s.fileB && s.a.hash != s.b.hash && HASH_SIZE <= |s.delta| <= |s.a.data| && Room(s.name, 3)
    ensures content(s.a.hash) == s.a.data && Base(s.delta) == s.b.hash
  {
    hide Room, San;
  }

  lemma MadeReached(s: Sample, apply: Apply, content: ContentMap)
    requires SampleOk(s, apply, content)
    ensures Reaches(Empty(s.name, s.max), UpToMade(s), Made(s), apply, content)
  {
    hide SampleOk, Reaches, Empty, BackUps, Pending, DeltaFile, DeltaConfig, TwoFiles;
    TwoFilesReached(s, apply, content);
    PendReached(Empty(s.name, s.max), BackUps(s), TwoFiles(s), Pending(s), DeltaFile(s), DeltaConfig(s), apply,
      content);
  }

  lemma DropIsDropped(s: Sample, apply: Apply, content: ContentMap)
    requires s.fileA != s.fileB
    ensures Allowed(Made(s), Drop(s.fileB), apply, content)
    ensures Do(Made(s), Drop(s.fileB), apply, content) == Dropped(s)
  {
    hide Second, Pending, DeltaFile, DeltaConfig, DeleteAll;
    DropIs(Made(s), s.fileB, apply, content);
  }

  lemma DroppedReached(s: Sample, apply: Apply, content: ContentMap)
    requires SampleOk(s, apply, content)
    ensures Reaches(Empty(s.name, s.max), UpToMade(s) + [Drop(s.fileB)], Dropped(s), apply, content)
  {
    hide SampleOk, Reaches, Empty, UpToMade, Made, Dropped, Allowed, Do, Room, Base;
    MadeReached(s, apply, content);
    SampleFacts(s, apply, content);
    DropIsDropped(s, apply, content);
    ReachesOneMore(Empty(s.name, s.max), UpToMade(s), Made(s), Drop(s.fileB), apply, content);
  }

  lemma BaseCollected(s: Sample, apply: Apply, content: ContentMap)
    requires SampleOk(s, apply, content)
    ensures Reaches(Empty(s.name, s.max), UpToMade(s) + [Drop(s.fileB)] + [CollectGarbage], WithoutBase(s), apply,
                    content)
    ensures forall h :: h in WithoutBase(s).st.index <==> h == s.a.hash
  {
    hide SampleOk, Reaches, Empty, UpToMade, Dropped, References, Collect, Room, Base;
    DroppedReached(s, apply, content);
    SampleFacts(s, apply, content);
    DroppedIndex(s);
    CollectPlainReached(Empty(s.name, s.max), UpToMade(s) + [Drop(s.fileB)], Dropped(s), apply, content);
  }

  lemma CollectedReached(s: Sample, apply: Apply, content: ContentMap)
    requires SampleOk(s, apply, content)
    ensures Reaches(Empty(s.name, s.max), UpToCollect(s), Collected(s), apply, content)
    ensures forall h :: h in Collected(s).st.index <==> h == s.a.hash
  {
    hide SampleOk, Reaches, Empty, UpToMade, WithoutBase, ReopenedStore;
    BaseCollected(s, apply, content);
    ReopenReached(Empty(s.name, s.max), UpToMade(s) + [Drop(s.fileB)] + [CollectGarbage], WithoutBase(s), apply,
                  content);
    ReopenedKeys(WithoutBase(s).st);
  }

  lemma ReopenedKeys(st: Store)
    ensures ReopenedStore(st).index == st.index
  {
  }

  /** The chunk, its record as before, in a sealed container; its delta pending. */
  lemma CollectedShape(s: Sample)
    requires Room(s.name, 3) && s.fileA != s.fileB && s.a.hash != s.b.hash && s.a.hash in Collected(s).st.index
    ensures var v := Collected(s);
            && v.st.log.cacheName == [] && v.pending == Pending(s) && v.files == DeltaFile(s)
            && References(v.recipes, s.a.hash) > 0
            && v.st.index[s.a.hash].name == s.name != v.st.log.openName && s.name in v.st.sizes
            && v.st.index[s.a.hash].length == |s.a.data|
  {
    NamesDiffer(s);
    SecondLog(s);
    DroppedIndex(s);
    hide Second, References, TwoFiles, Pending, DeltaFile, DeltaConfig, DeleteAll, NextPermutation, Room;
  }

  lemma PendingFits(s: Sample, u: Pass)
    requires Sound(u.st) && u.st.log.cacheName == [] && u.pending == Pending(s) && s.a.hash in u.st.index
    requires var e := u.st.index[s.a.hash];
             e.name != u.st.log.openName && e.name in u.st.sizes && |s.delta| <= e.length
    ensures PassReady(u, DeltaFile(s), [s.a.hash]) && !Skipped(u.st, s.a.hash)
    ensures var st' := InstallAll(u, DeltaFile(s), [s.a.hash]).st;
            Sound(st') && ContentsOf(st') == ContentsOf(u.st)[s.a.hash := Content(s.delta, true)]
  {
    PendingShape(s);
    hide Sound, Pending, DeltaFile, WithinFile, DeltaBytes, ContentsOf, InstallAll, PassReady;
    OnePassReady(u, DeltaFile(s), s.a.hash);
    OneInstalled(u, DeltaFile(s), s.a.hash);
  }

  /** A delta alone in the store. */
  lemma AloneRestores(s: Sample, cs: Contents, apply: Apply)
    requires s.a.hash in cs && cs[s.a.hash] == Content(s.delta, true) && |s.delta| >= HASH_SIZE
    requires Base(s.delta) == s.b.hash != s.a.hash && forall h :: h in cs ==> h == s.a.hash
    ensures Ranked(cs, Rank(s)) && Restored(cs, apply, Rank(s), s.a.hash) == apply([], s.delta[HASH_SIZE..])
  {
    hide Base;
    assert Ranked(cs, Rank(s)) by {
      forall h | h in cs ensures RankedAt(cs[h], h, Rank(s)) {
      }
    }
  }

  lemma AloneInstalled(s: Sample, v: Vault, apply: Apply)
    requires Sound(v.st) && v.st.log.cacheName == [] && v.pending == Pending(s) && v.files == DeltaFile(s)
    requires s.a.hash in v.st.index && forall h :: h in v.st.index ==> h == s.a.hash
    requires var e := v.st.index[s.a.hash];
             e.name != v.st.log.openName && e.name in v.st.sizes && |s.delta| <= e.length
    requires |s.delta| >= HASH_SIZE && Base(s.delta) == s.b.hash != s.a.hash
    ensures PassReady(Pass(v.st, v.pending, 0), v.files, [s.a.hash])
    ensures var st' := InstallAll(Pass(v.st, v.pending, 0), v.files, [s.a.hash]).st;
            && Sound(st') && s.a.hash in st'.index && Ranked(ContentsOf(st'), Rank(s))
            && Restored(ContentsOf(st'), apply, Rank(s), s.a.hash) == apply([], s.delta[HASH_SIZE..])
  {
    hide Base, Sound, InstallAll, PassReady, Ranked, Rank, Restored, Pending, DeltaFile, Skipped, Stored;
    var u := Pass(v.st, v.pending, 0);
    PendingFits(s, u);
    var st' := InstallAll(u, v.files, [s.a.hash]).st;
    assert st'.index.Keys == ContentsOf(st').Keys;
    AloneRestores(s, ContentsOf(st'), apply);
  }

  /** The failing run: both files are backed up, a delta of the first chunk on the second one is saved, the
      file of the second one is dropped, and garbage is collected, before the delta is installed. The run may
      be done, but installing the delta then loses the chunk of the first file: it restores to the delta
      applied to nothing. */
  lemma PendingBaseIsLost(s: Sample, apply: Apply, content: ContentMap) returns (v: Vault)
    requires SampleOk(s, apply, content) && NeedsBase(s, apply)
    ensures Reaches(Empty(s.name, s.max), UpToCollect(s), v, apply, content)
    ensures References(v.recipes, s.a.hash) > 0 && PassReady(Pass(v.st, v.pending, 0), v.files, [s.a.hash])
    ensures var st' := InstallAll(Pass(v.st, v.pending, 0), v.files, [s.a.hash]).st;
            && Sound(st') && s.a.hash in st'.index && Ranked(ContentsOf(st'), Rank(s))
            && Restored(ContentsOf(st'), apply, Rank(s), s.a.hash) == apply([], s.delta[HASH_SIZE..])
            && Restored(ContentsOf(st'), apply, Rank(s), s.a.hash) != San(content(s.a.hash))
  {
    SampleFacts(s, apply, content);
    hide SampleOk, Empty, UpToCollect, Good, Run, RunAllowed, Base, Sound, References, Room, Collected, InstallAll;
    hide PassReady, Ranked, Rank, Restored, San, Pending, DeltaFile, Skipped, ContentsOf;
    v := Collected(s);
    CollectedReached(s, apply, content);
    CollectedShape(s);
    GoodSound(v, apply, content, false);
    AloneInstalled(s, v, apply);
  }

  // ---- Spoiling a delta by compaction ----

  /** As the delta of the first chunk, the bytes do not refer to that chunk itself, and decode to something
      else than its content. */
  ghost predicate DecodesWrongly(s: Sample, delta: Bytes, apply: Apply) {
    && |delta| >= HASH_SIZE && Base(delta) != s.a.hash
    && apply(if Base(delta) == s.b.hash then San(s.b.data) else [], delta[HASH_SIZE..]) != San(s.a.data)
  }

  /** What a chunk restores to that is a delta on another, plain one, or on none that is stored. */
  lemma DeltaRestores(s: Sample, cs: Contents, delta: Bytes, apply: Apply)
    requires s.a.hash in cs && cs[s.a.hash] == Content(delta, true) && |delta| >= HASH_SIZE && s.a.hash != s.b.hash
    requires s.b.hash in cs && !cs[s.b.hash].delta && forall h :: h in cs ==> IsChunk(s, h)
    requires Base(delta) != s.a.hash
    ensures Ranked(cs, Rank(s))
    ensures Restored(cs, apply, Rank(s), s.a.hash)
         == apply(if Base(delta) == s.b.hash then cs[s.b.hash].bytes else [], delta[HASH_SIZE..])
  {
    hide Base;
    assert Ranked(cs, Rank(s)) by {
      forall h | h in cs ensures RankedAt(cs[h], h, Rank(s)) {
        assert h == s.a.hash || h == s.b.hash;
      }
    }
    if Base(delta) in cs {
      assert IsChunk(s, Base(delta));
    }
  }

  /** The failing run: the installed delta has a NUL outside its last two bytes, and the store is
      compacted. The stored delta is changed; if what it decodes to then is not the content, the chunk
      is lost. A NUL in the fingerprint of its base even loses the base. */
  lemma DeltaIsSpoilt(s: Sample, apply: Apply, content: ContentMap) returns (v: Vault)
    requires SampleOk(s, apply, content) && !Clean(s.delta) && DecodesWrongly(s, San(s.delta), apply)
    ensures Reaches(Empty(s.name, s.max), UpToInstall(s), v, apply, content)
    ensures Ready(v.st, |Order(s)|) && Snapshot(v.st.index, Order(s)) && References(v.recipes, s.a.hash) > 0
    ensures var st' := Rewrite(v.st, Order(s));
            && Sound(st') && s.a.hash in st'.index && Stored(st')[s.a.hash] == San(s.delta) != s.delta
            && Ranked(ContentsOf(st'), Rank(s))
            && Restored(ContentsOf(st'), apply, Rank(s), s.a.hash) != San(content(s.a.hash))
  {
    assert s.fileA != s.fileB && s.a.hash != s.b.hash && |s.delta| >= HASH_SIZE && content(s.a.hash) == s.a.data;
    hide SampleOk, Empty, UpToInstall, Good, Run, RunAllowed, DeltaStored, Base, Sound, ContentsOf, References;
    hide Ready, Snapshot, Rewrite, Stored, San, Clean, Ranked, Rank;
    v := InstalledReached(s, apply, content);
    SanFixesExactlyClean(s.delta);
    BothReferenced(s, s.a.hash);
    SpoiltContents(s, v, apply, content);
    DeltaRestores(s, ContentsOf(Rewrite(v.st, Order(s))), San(s.delta), apply);
  }

  lemma SpoiltContents(s: Sample, v: Vault, apply: Apply, content: ContentMap)
    requires DeltaStored(s, v) && Good(v, apply, content, false) && s.a.hash != s.b.hash
    ensures Ready(v.st, |Order(s)|) && Snapshot(v.st.index, Order(s)) && v.recipes == TwoFiles(s).recipes
    ensures var st' := Rewrite(v.st, Order(s));
            && Sound(st') && s.a.hash in st'.index && Stored(st')[s.a.hash] == San(s.delta)
            && ContentsOf(st')[s.a.hash] == Content(San(s.delta), true)
            && s.b.hash in st'.index && ContentsOf(st')[s.b.hash] == Content(San(s.b.data), false)
            && forall h :: h in ContentsOf(st') ==> IsChunk(s, h)
  {
    hide Good, Sound, ContentsOf, Rewrite, Snapshot, Room, TwoFiles, San, Order, IsChunk, IsDoomed;
    OrderIsSnapshot(s, v.st.index);
    GoodSound(v, apply, content, false);
    RewriteContents(v.st, Order(s), s.a.hash, apply, content);
    RewriteContents(v.st, Order(s), s.b.hash, apply, content);
    OpenNotDoomed(v.st, s.b.hash);
    StoredIs(Rewrite(v.st, Order(s)), s.a.hash);
  }

  lemma OpenNotDoomed(st: Store, h: Bytes)
    requires h in st.index && st.index[h].name == st.log.openName
    ensures !IsDoomed(st, h)
  {
  }

  lemma StoredIs(st: Store, h: Bytes)
    requires Sound(st) && h in st.index
    ensures ContentsOf(st)[h].bytes == Stored(st)[h]
  {
  }

  /** Compaction rewrites the contents it moves, and no others. */
  lemma RewriteContents(st: Store, order: seq<Bytes>, h: Bytes, apply: Apply, content: ContentMap)
    requires StoreGood(st, apply, content, false) && Ready(st, |order|) && Snapshot(st.index, order) && h in st.index
    ensures var st' := Rewrite(st, order);
            && Sound(st') && st'.index.Keys == st.index.Keys
            && ContentsOf(st')[h]
               == Content(if IsDoomed(st, h) then San(ContentsOf(st)[h].bytes) else ContentsOf(st)[h].bytes,
                          ContentsOf(st)[h].delta)
  {
    hide Sound, Stored, Accounted, Catalogued, Meaningful, Rewrite, Snapshot, Ready, San, IsDoomed;
    RewriteStores(st, order, false);
    assert Rewritten(st, Rewrite(st, order), h);
  }

  // ---- Overwriting a delta by a backup ----

  /** The failing run: the fingerprint of the first chunk has a NUL, its delta is installed, and the
      chunk is backed up again. The lookup misses it, so it is saved over its delta; if what the
      beginning of the raw chunk decodes to is not the content, every file with the chunk is lost. */
  lemma DeltaIsOverwritten(s: Sample, apply: Apply, content: ContentMap) returns (v: Vault)
    requires SampleOk(s, apply, content) && !NulFree(s.a.hash)
    requires DecodesWrongly(s, San(s.a.data[..|s.delta|]), apply)
    ensures Reaches(Empty(s.name, s.max), UpToInstall(s), v, apply, content)
    ensures References(v.recipes, s.a.hash) > 0
    ensures var st' := Dedup(v.st, s.a.hash, s.a.data);
            && Sound(st') && s.a.hash in st'.index && Ranked(ContentsOf(st'), Rank(s))
            && Restored(ContentsOf(st'), apply, Rank(s), s.a.hash) != San(content(s.a.hash))
  {
    assert s.fileA != s.fileB && s.a.hash != s.b.hash && HASH_SIZE <= |s.delta| <= |s.a.data|;
    assert content(s.a.hash) == s.a.data && |s.a.hash| == HASH_SIZE;
    hide SampleOk, Empty, UpToInstall, Good, Run, RunAllowed, Base, Sound, ContentsOf, References, TwoFiles;
    hide Dedup, Stored, San, Ranked, Rank, NulFree, Room, IsDoomed;
    v := InstalledReached(s, apply, content);
    hide DeltaStored, IsChunk;
    BothReferencedIn(s, v);
    OverwrittenContents(s, v, apply, content);
    DeltaRestores(s, ContentsOf(Dedup(v.st, s.a.hash, s.a.data)), San(s.a.data[..|s.delta|]), apply);
  }

  lemma BothReferencedIn(s: Sample, v: Vault)
    requires DeltaStored(s, v) && s.fileA != s.fileB
    ensures References(v.recipes, s.a.hash) > 0
  {
    BothReferenced(s, s.a.hash);
  }

  lemma OverwrittenContents(s: Sample, v: Vault, apply: Apply, content: ContentMap)
    requires DeltaStored(s, v) && Good(v, apply, content, false) && s.a.hash != s.b.hash && !NulFree(s.a.hash)
    requires content(s.a.hash) == s.a.data && |s.a.hash| == HASH_SIZE && |s.delta| <= |s.a.data|
    ensures var st' := Dedup(v.st, s.a.hash, s.a.data);
            && Sound(st') && s.a.hash in st'.index
            && ContentsOf(st')[s.a.hash] == Content(San(s.a.data[..|s.delta|]), true)
            && s.b.hash in st'.index && ContentsOf(st')[s.b.hash] == Content(San(s.b.data), false)
            && forall h :: h in ContentsOf(st') ==> IsChunk(s, h)
  {
    hide Good, StoreGood, Sound, ContentsOf, Dedup, San, NulFree, Room, IsDoomed, TwoFiles, References;
    GoodSound(v, apply, content, false);
    RoomShrinks(v.st.log.openName, 2, 1);
    ResavedContents(v.st, s.a, apply, content, false);
  }
}
