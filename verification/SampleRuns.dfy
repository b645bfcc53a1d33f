/** Runs that do everything: two files are backed up, a chunk of the first becomes a delta against
    one of the second, and the store is compacted, read and collected. */
module SampleRuns {
  import opened Bytes
  import opened Names
  import opened Options
  import opened Log
  import opened Store
  import opened Deltas
  import opened DeltaPass
  import opened RefCounts
  import opened Compaction
  import opened Vault
  import opened Runs
  import opened RunLimits

  /** Two files of one chunk each, and a delta that makes the first chunk out of the second. */
  datatype Sample = Sample(name: Name, max: nat, fileA: Bytes, fileB: Bytes, a: Chunk, b: Chunk, delta: Bytes)

  ghost predicate ChunkOk(s: Sample, c: Chunk, content: ContentMap) {
    |c.hash| == HASH_SIZE && content(c.hash) == c.data && |c.data| < s.max
  }

  /** The chunks do not fit one container, and the delta is right and not longer than its chunk. */
  ghost predicate SampleOk(s: Sample, apply: Apply, content: ContentMap) {
    && s.name != [] && Room(s.name, 3) && s.max <= REWRITE_LIMIT && s.fileA != s.fileB && s.a.hash != s.b.hash
    && ChunkOk(s, s.a, content) && ChunkOk(s, s.b, content) && |s.a.data| + |s.b.data| >= s.max
    && HASH_SIZE <= |s.delta| <= |s.a.data| && Base(s.delta) == s.b.hash
    && apply(San(s.b.data), s.delta[HASH_SIZE..]) == San(s.a.data)
  }

  function Pending(s: Sample): Index {
    map[s.a.hash := Entry(INITIAL_NAME, 0, |s.delta|, 1, 1)]
  }

  function DeltaFile(s: Sample): DeltaFiles {
    map[INITIAL_NAME := s.delta]
  }

  function DeltaConfig(s: Sample): Config {
    Some((INITIAL_NAME, |s.delta|))
  }

  predicate IsChunk(s: Sample, h: Bytes) {
    h == s.a.hash || h == s.b.hash
  }

  // ---- The store after each step ----

  function First(s: Sample): Store {
    Store(Log(s.max, map[], s.name, San(s.a.data), [], []),
          map[s.a.hash := Entry(s.name, 0, |s.a.data|, 1, 0)], map[])
  }

  function Second(s: Sample): Store {
    var next := NextPermutation(s.name);
    Store(Log(s.max, map[s.name := San(s.a.data)], next, San(s.b.data), [], []),
          First(s).index[s.b.hash := Entry(next, 0, |s.b.data|, 1, 0)], map[s.name := |s.a.data|])
  }

  lemma FirstSaved(s: Sample, apply: Apply, content: ContentMap)
    requires SampleOk(s, apply, content)
    ensures DedupAll(Empty(s.name, s.max).st, [s.a]) == First(s)
  {
    hide San, NulFree, Room, Base;
    CKeyFaithfulExactlyWithoutNul(s.a.hash);
    assert [s.a][..0] == [];
    assert DedupAll(Empty(s.name, s.max).st, [s.a]) == Dedup(Empty(s.name, s.max).st, s.a.hash, s.a.data);
    assert Taken(s.a.data, |s.a.data|) == s.a.data;
    assert [] + San(s.a.data) == San(s.a.data);
  }

  lemma SecondSaved(s: Sample, apply: Apply, content: ContentMap)
    requires SampleOk(s, apply, content)
    ensures DedupAll(First(s), [s.b]) == Second(s)
  {
    hide San, NulFree, Room, Base, NextPermutation;
    CKeyFaithfulExactlyWithoutNul(s.b.hash);
    assert [s.b][..0] == [];
    assert DedupAll(First(s), [s.b]) == Dedup(First(s), s.b.hash, s.b.data);
    assert Taken(s.b.data, |s.b.data|) == s.b.data;
    assert [] + San(s.b.data) == San(s.b.data);
  }

  lemma NamesDiffer(s: Sample)
    requires Room(s.name, 3)
    ensures NextPermutation(s.name) != s.name && Room(NextPermutation(s.name), 2)
  {
    NextIsLarger(s.name);
    LessIrreflexive(s.name);
  }

  lemma BackUpAllowed(v: Vault, file: Bytes, s: Sample, c: Chunk, apply: Apply, content: ContentMap)
    requires Good(v, apply, content, false) && ChunkOk(s, c, content) && v.st.log.max == s.max
    requires Room(v.st.log.openName, 1) && c.hash !in v.st.index
    ensures Allowed(v, BackUp(file, [c]), apply, content)
  {
    hide NulFree, StoreGood, CountsAgree, RecipeFits, Room;
    GoodSound(v, apply, content, false);
  }

  lemma BackUpReached(
    s: Sample, from: Vault, ops: seq<Op>, v: Vault, file: Bytes, c: Chunk, v': Vault, apply: Apply, content: ContentMap
  )
    requires Reaches(from, ops, v, apply, content) && ChunkOk(s, c, content) && v.st.log.max == s.max
    requires Room(v.st.log.openName, 1) && file !in v.recipes && c.hash !in v.st.index
    requires v' == v.(st := DedupAll(v.st, [c]), recipes := v.recipes[file := RecipeOf([c])])
    ensures Reaches(from, ops + [BackUp(file, [c])], v', apply, content)
  {
    hide ChunkOk, Good, Run, RunAllowed, Room, DedupAll, RecipeOf;
    BackUpAllowed(v, file, s, c, apply, content);
    assert [] + RecipeOf([c]) == RecipeOf([c]);
    assert Do(v, BackUp(file, [c]), apply, content) == v';
    hide Allowed, Do;
    ReachesOneMore(from, ops, v, BackUp(file, [c]), apply, content);
  }

  lemma EmptyReached(s: Sample, apply: Apply, content: ContentMap)
    requires s.name != [] && s.max > 0
    ensures Reaches(Empty(s.name, s.max), [], Empty(s.name, s.max), apply, content)
  {
    hide StoreGood, CountsAgree;
    EmptyGood(apply, content, s.name, s.max);
    GoodSound(Empty(s.name, s.max), apply, content, true);
    InexactGood(Empty(s.name, s.max).st, apply, content, true);
  }

  /** The first file. */
  function OneFile(s: Sample): Vault {
    Vault(First(s), map[s.fileA := RecipeOf([s.a])], map[], map[], None)
  }

  /** Both files. */
  function TwoFiles(s: Sample): Vault {
    Vault(Second(s), map[s.fileA := RecipeOf([s.a]), s.fileB := RecipeOf([s.b])], map[], map[], None)
  }

  function BackUps(s: Sample): seq<Op> {
    [] + [BackUp(s.fileA, [s.a])] + [BackUp(s.fileB, [s.b])]
  }

  lemma OneFileIs(s: Sample, apply: Apply, content: ContentMap)
    requires SampleOk(s, apply, content)
    ensures var v, v' := Empty(s.name, s.max), OneFile(s);
            && v.st.log.max == s.max && v.st.log.openName == s.name && s.fileA !in v.recipes
            && s.a.hash !in v.st.index
            && v' == v.(st := DedupAll(v.st, [s.a]), recipes := v.recipes[s.fileA := RecipeOf([s.a])])
  {
    FirstSaved(s, apply, content);
    hide SampleOk, DedupAll, First, RecipeOf;
  }

  lemma TwoFilesIs(s: Sample, apply: Apply, content: ContentMap)
    requires SampleOk(s, apply, content)
    ensures var v, v' := OneFile(s), TwoFiles(s);
            && v.st.log.max == s.max && v.st.log.openName == s.name && s.fileB !in v.recipes
            && s.b.hash !in v.st.index
            && v' == v.(st := DedupAll(v.st, [s.b]), recipes := v.recipes[s.fileB := RecipeOf([s.b])])
  {
    SecondSaved(s, apply, content);
    FirstLog(s);
    assert s.fileA != s.fileB && s.a.hash != s.b.hash;
    hide SampleOk, DedupAll, First, Second, RecipeOf;
  }

  lemma TwoFilesReached(s: Sample, apply: Apply, content: ContentMap)
    requires SampleOk(s, apply, content)
    ensures Reaches(Empty(s.name, s.max), BackUps(s), TwoFiles(s), apply, content)
  {
    OneFileIs(s, apply, content);
    TwoFilesIs(s, apply, content);
    RoomShrinks(s.name, 3, 1);
    EmptyReached(s, apply, content);
    assert ChunkOk(s, s.a, content) && ChunkOk(s, s.b, content);
    hide SampleOk, Reaches, ChunkOk, Room, DedupAll, OneFile, TwoFiles, Empty, RecipeOf;
    var v, op1, op2 := Empty(s.name, s.max), BackUp(s.fileA, [s.a]), BackUp(s.fileB, [s.b]);
    BackUpReached(s, v, [], v, s.fileA, s.a, OneFile(s), apply, content);
    BackUpReached(s, v, [] + [op1], OneFile(s), s.fileB, s.b, TwoFiles(s), apply, content);
  }

  lemma FirstLog(s: Sample)
    ensures First(s).log.max == s.max && First(s).log.openName == s.name
    ensures s.a.hash != s.b.hash ==> s.b.hash !in First(s).index
  {
  }

  /** The delta made, and the store closed and opened again. */
  function Opened(s: Sample): Vault {
    Vault(ReopenedStore(Second(s)), TwoFiles(s).recipes, Pending(s), DeltaFile(s), DeltaConfig(s))
  }

  function UpToReopen(s: Sample): seq<Op> {
    BackUps(s) + [PendDeltas(Pending(s), DeltaFile(s), DeltaConfig(s))] + [Reopen]
  }

  lemma PendReached(
    from: Vault, ops: seq<Op>, v: Vault, pending: Index, files: DeltaFiles, config: Config,
    apply: Apply, content: ContentMap
  )
    requires Reaches(from, ops, v, apply, content)
    ensures Reaches(from, ops + [PendDeltas(pending, files, config)],
                    v.(pending := pending, files := files, deltaConfig := config), apply, content)
  {
    hide Reaches;
    ReachesOneMore(from, ops, v, PendDeltas(pending, files, config), apply, content);
  }

  lemma ReopenReached(from: Vault, ops: seq<Op>, v: Vault, apply: Apply, content: ContentMap)
    requires Reaches(from, ops, v, apply, content)
    ensures Reaches(from, ops + [Reopen], v.(st := ReopenedStore(v.st)), apply, content)
  {
    hide Reaches;
    ReachesOneMore(from, ops, v, Reopen, apply, content);
  }

  lemma OpenedReached(s: Sample, apply: Apply, content: ContentMap)
    requires SampleOk(s, apply, content)
    ensures Reaches(Empty(s.name, s.max), UpToReopen(s), Opened(s), apply, content)
  {
    TwoFilesReached(s, apply, content);
    hide SampleOk, Reaches, Empty, Second, BackUps, Pending, DeltaFile, ReopenedStore, RecipeOf;
    var v, pend := Empty(s.name, s.max), PendDeltas(Pending(s), DeltaFile(s), DeltaConfig(s));
    PendReached(v, BackUps(s), TwoFiles(s), Pending(s), DeltaFile(s), DeltaConfig(s), apply, content);
    var made := TwoFiles(s).(pending := Pending(s), files := DeltaFile(s), deltaConfig := DeltaConfig(s));
    ReopenReached(v, BackUps(s) + [pend], made, apply, content);
  }

  // ---- Installing the delta ----

  /** The base has the lower rank. */
  function Rank(s: Sample): Bytes -> nat {
    h => if h == s.a.hash then 1 else 0
  }

  lemma SecondIndex(s: Sample)
    requires s.a.hash != s.b.hash
    ensures var st := Second(s);
            && s.a.hash in st.index && st.index[s.a.hash] == Entry(s.name, 0, |s.a.data|, 1, 0)
            && s.b.hash in st.index && st.index[s.b.hash] == Entry(st.log.openName, 0, |s.b.data|, 1, 0)
            && forall h :: h in st.index ==> st.index[h].deltaCount == 0 && IsChunk(s, h)
  {
    hide San, NextPermutation;
  }

  lemma SecondLog(s: Sample)
    ensures Second(s).log.openName == NextPermutation(s.name)
    ensures s.name in Second(s).sizes && Second(s).sizes[s.name] == |s.a.data|
  {
    hide San, NextPermutation;
  }

  /** The first chunk is in a sealed container, the second in the open one, both plain. */
  lemma OpenedShape(s: Sample)
    requires Room(s.name, 3) && s.a.hash != s.b.hash
    ensures var st := Opened(s).st;
            && s.a.hash in st.index && st.index[s.a.hash] == Entry(s.name, 0, |s.a.data|, 1, 0)
            && s.b.hash in st.index && st.index[s.b.hash] == Entry(st.log.openName, 0, |s.b.data|, 1, 0)
            && (forall h :: h in st.index ==> st.index[h].deltaCount == 0 && IsChunk(s, h))
            && st.log.openName != s.name && st.log.cacheName == [] && Room(st.log.openName, 2)
            && s.name in st.sizes && st.sizes[s.name] == |s.a.data|
  {
    NamesDiffer(s);
    SecondIndex(s);
    SecondLog(s);
    hide Second, Room, NextPermutation;
  }

  lemma OnePassReady(u: Pass, files: DeltaFiles, h: Bytes)
    requires Sound(u.st) && u.st.log.cacheName == [] && h in u.pending && Fitting(u.st, files, h, u.pending[h])
    ensures PassReady(u, files, [h])
  {
    hide Sound, Fitting;
  }

  lemma PendingShape(s: Sample)
    ensures s.a.hash in Pending(s) && WithinFile(DeltaFile(s), Pending(s)[s.a.hash])
    ensures DeltaBytes(DeltaFile(s), Pending(s)[s.a.hash]) == s.delta && Pending(s)[s.a.hash].deltaCount == 1
    ensures Pending(s)[s.a.hash].length == |s.delta|
  {
    assert s.delta[0..|s.delta|] == s.delta;
  }

  lemma InstallReady(s: Sample, apply: Apply, content: ContentMap)
    requires SampleOk(s, apply, content) && Good(Opened(s), apply, content, false)
    ensures var u := Pass(Opened(s).st, Pending(s), 0);
            PassReady(u, DeltaFile(s), [s.a.hash]) && !Skipped(u.st, s.a.hash)
  {
    OpenedShape(s);
    PendingShape(s);
    GoodSound(Opened(s), apply, content, false);
    assert |s.delta| <= |s.a.data|;
    hide Sound, Good, StoreGood, Opened, SampleOk, PassReady, Pending, DeltaFile, WithinFile, DeltaBytes;
    OnePassReady(Pass(Opened(s).st, Pending(s), 0), DeltaFile(s), s.a.hash);
  }

  /** Plain contents are ranked any way. */
  lemma PlainMeans(st: Store, apply: Apply, content: ContentMap, exact: bool, rank: Bytes -> nat)
    requires StoreGood(st, apply, content, exact) && forall h :: h in st.index ==> st.index[h].deltaCount == 0
    ensures Sound(st) && Means(ContentsOf(st), apply, SanOf(content), rank)
  {
    hide Sound, Accounted, Catalogued, Sized, WellKeyed, Stored, Consistent;
    var r :| Means(ContentsOf(st), apply, SanOf(content), r);
  }

  lemma OpenedMeans(s: Sample, apply: Apply, content: ContentMap)
    requires SampleOk(s, apply, content) && Good(Opened(s), apply, content, false)
    ensures Sound(Opened(s).st) && Means(ContentsOf(Opened(s).st), apply, SanOf(content), Rank(s))
  {
    OpenedShape(s);
    GoodSound(Opened(s), apply, content, false);
    hide Good, StoreGood, Sound, Opened, SampleOk, Means, Rank, Room;
    PlainMeans(Opened(s).st, apply, content, false, Rank(s));
  }

  lemma DeltaSensible(s: Sample, apply: Apply, content: ContentMap, keys: set<Bytes>)
    requires SampleOk(s, apply, content) && s.b.hash in keys
    ensures Sensible(Content(s.delta, true), s.a.hash, keys, apply, SanOf(content), Rank(s))
  {
    hide Room, Clean, San, NulFree;
  }

  lemma OneSensible(u: Pass, files: DeltaFiles, h: Bytes, apply: Apply, meaning: Meaning, rank: Bytes -> nat)
    requires PassReady(u, files, [h])
    requires WithinFile(files, u.pending[h])
    requires Sensible(PendingContent(files, u.pending[h]), h, u.st.index.Keys, apply, meaning, rank)
    ensures AllSensible(u, files, [h], apply, meaning, rank)
  {
    hide Sensible, PassReady, Skipped, PendingContent;
  }

  lemma InstallAllowed(s: Sample, apply: Apply, content: ContentMap)
    requires SampleOk(s, apply, content) && Good(Opened(s), apply, content, false)
    ensures Allowed(Opened(s), InstallDeltas([s.a.hash]), apply, content)
  {
    var u := Pass(Opened(s).st, Pending(s), 0);
    OpenedShape(s);
    PendingShape(s);
    InstallReady(s, apply, content);
    OpenedMeans(s, apply, content);
    DeltaSensible(s, apply, content, u.st.index.Keys);
    assert Opened(s).pending == u.pending && Opened(s).files == DeltaFile(s);
    hide Good, SampleOk, PassReady, Means, Opened, Pending, DeltaFile, Skipped, Sensible, AllSensible, WithinFile;
    hide DeltaBytes;
    OneSensible(u, DeltaFile(s), s.a.hash, apply, SanOf(content), Rank(s));
    hide Allowed;
    RankedInstallAllowed(Opened(s), [s.a.hash], apply, content, Rank(s));
  }

  lemma OneInstalled(u: Pass, files: DeltaFiles, h: Bytes)
    requires PassReady(u, files, [h]) && !Skipped(u.st, h) && WithinFile(files, u.pending[h])
    ensures var st' := InstallAll(u, files, [h]).st;
            && Sound(st') && ContentsOf(st') == ContentsOf(u.st)[h := PendingContent(files, u.pending[h])]
            && var e := u.st.index[h];
            && e.name in u.st.sizes && u.pending[h].length <= e.length
            && st'.sizes == u.st.sizes[e.name := u.st.sizes[e.name] - (e.length - u.pending[h].length)]
  {
    hide Fitting, NoRepeats, Visit, Skipped, PendingContent, ContentsOf, Sound;
    assert [h] == [h] + [];
    VisitContents(u, files, h, []);
    InstallAllStep(u, files, [h]);
    assert [h][0] == h && [h][1..] == [];
    assert InstallAll(Visit(u, files, h), files, []) == Visit(u, files, h);
    VisitSizes(u, files, h);
  }

  lemma VisitSizes(u: Pass, files: DeltaFiles, h: Bytes)
    requires Sound(u.st) && h in u.pending && Fitting(u.st, files, h, u.pending[h]) && !Skipped(u.st, h)
    ensures var e := u.st.index[h];
            && e.name in u.st.sizes && u.pending[h].length <= e.length
            && Visit(u, files, h).st.sizes
               == u.st.sizes[e.name := u.st.sizes[e.name] - (e.length - u.pending[h].length)]
  {
    hide Sound;
  }

  function UpToInstall(s: Sample): seq<Op> {
    UpToReopen(s) + [InstallDeltas([s.a.hash])]
  }

  /** The first chunk is a delta on the second, which alone is in the open container; the container of
      the first is small. */
  ghost predicate DeltaStored(s: Sample, v: Vault) {
    && Sound(v.st) && v.recipes == TwoFiles(s).recipes && Room(v.st.log.openName, 2)
    && s.a.hash in v.st.index && ContentsOf(v.st)[s.a.hash] == Content(s.delta, true)
    && s.b.hash in v.st.index && ContentsOf(v.st)[s.b.hash] == Content(San(s.b.data), false)
    && v.st.index[s.a.hash].deltaCount > 0 && v.st.index[s.a.hash].length == |s.delta|
    && IsDoomed(v.st, s.a.hash)
    && forall h :: h in v.st.index ==> IsChunk(s, h) && (h == s.b.hash ==> v.st.index[h].name == v.st.log.openName)
  }

  lemma InstalledReached(s: Sample, apply: Apply, content: ContentMap) returns (v: Vault)
    requires SampleOk(s, apply, content)
    ensures Reaches(Empty(s.name, s.max), UpToInstall(s), v, apply, content) && DeltaStored(s, v)
  {
    OpenedReached(s, apply, content);
    assert Good(Opened(s), apply, content, false);
    InstallAllowed(s, apply, content);
    v := Do(Opened(s), InstallDeltas([s.a.hash]), apply, content);
    InstalledShape(s, v, apply, content);
    hide SampleOk, Good, Allowed, Do, UpToReopen, Opened, Empty, Run, RunAllowed, DeltaStored;
    ReachesOneMore(Empty(s.name, s.max), UpToReopen(s), Opened(s), InstallDeltas([s.a.hash]), apply, content);
  }

  lemma InstalledIs(s: Sample, v: Vault, apply: Apply, content: ContentMap)
    requires Allowed(Opened(s), InstallDeltas([s.a.hash]), apply, content)
    requires v == Do(Opened(s), InstallDeltas([s.a.hash]), apply, content)
    ensures PassReady(Pass(Opened(s).st, Pending(s), 0), DeltaFile(s), [s.a.hash])
    ensures v.st == InstallAll(Pass(Opened(s).st, Pending(s), 0), DeltaFile(s), [s.a.hash]).st
    ensures v.recipes == TwoFiles(s).recipes
  {
    hide PassReady, SomeRank, Pending, DeltaFile, Second, ReopenedStore;
  }

  lemma PassedNames(u: Pass, files: DeltaFiles, order: seq<Bytes>)
    requires PassReady(u, files, order)
    ensures var st := InstallAll(u, files, order).st;
            && st.log.openName == u.st.log.openName && st.index.Keys == u.st.index.Keys
            && forall h :: h in u.st.index ==> st.index[h].name == u.st.index[h].name
  {
    hide PassReady, InstallAll, Skipped;
    InstallAllPassed(u, files, order);
  }

  lemma SecondPlain(s: Sample, apply: Apply, content: ContentMap)
    requires SampleOk(s, apply, content) && Good(Opened(s), apply, content, false)
    ensures Sound(Opened(s).st) && s.b.hash in ContentsOf(Opened(s).st)
    ensures ContentsOf(Opened(s).st)[s.b.hash] == Content(San(s.b.data), false)
  {
    assert Room(s.name, 3) && s.a.hash != s.b.hash && content(s.b.hash) == s.b.data;
    hide SampleOk, Opened, Good, Sound, Stored, Room, Ranked, Rank;
    OpenedShape(s);
    PlainBytes(Opened(s), apply, content, s.b.hash);
  }

  lemma InstalledContent(s: Sample, u: Pass)
    requires u == Pass(Opened(s).st, Pending(s), 0) && PassReady(u, DeltaFile(s), [s.a.hash])
             && !Skipped(u.st, s.a.hash)
    requires s.b.hash in ContentsOf(u.st) && s.b.hash != s.a.hash
    ensures var st, e := InstallAll(u, DeltaFile(s), [s.a.hash]).st, u.st.index[s.a.hash];
            && Sound(st) && s.a.hash in ContentsOf(st) && ContentsOf(st)[s.a.hash] == Content(s.delta, true)
            && s.b.hash in ContentsOf(st) && ContentsOf(st)[s.b.hash] == ContentsOf(u.st)[s.b.hash]
            && e.name in u.st.sizes && |s.delta| <= e.length && e.name in st.sizes
            && st.sizes[e.name] == u.st.sizes[e.name] - (e.length - |s.delta|)
  {
    PendingShape(s);
    hide Opened, Pending, DeltaFile, PassReady, Skipped, InstallAll, ContentsOf, DeltaBytes, WithinFile, Sound;
    OneInstalled(u, DeltaFile(s), s.a.hash);
  }

  lemma DeltaRecord(st: Store, h: Bytes, delta: Bytes)
    requires Sound(st) && h in st.index && ContentsOf(st)[h] == Content(delta, true)
    ensures st.index[h].deltaCount > 0 && st.index[h].length == |delta|
  {
    StoredLength(st, h);
  }

  lemma InstalledFrom(s: Sample, u: Pass, v: Vault)
    requires PassReady(u, DeltaFile(s), [s.a.hash]) && v.st == InstallAll(u, DeltaFile(s), [s.a.hash]).st
    requires v.recipes == TwoFiles(s).recipes && Room(u.st.log.openName, 2)
    requires s.a.hash in u.st.index && s.b.hash in u.st.index && u.st.index[s.b.hash].name == u.st.log.openName
    requires forall h :: h in u.st.index ==> IsChunk(s, h)
    requires Sound(v.st) && s.a.hash in ContentsOf(v.st) && ContentsOf(v.st)[s.a.hash] == Content(s.delta, true)
    requires s.b.hash in ContentsOf(v.st) && ContentsOf(v.st)[s.b.hash] == Content(San(s.b.data), false)
    requires var name := u.st.index[s.a.hash].name;
             name != u.st.log.openName && name in v.st.sizes && v.st.sizes[name] <= REWRITE_LIMIT
    ensures DeltaStored(s, v)
  {
    hide PassReady, DeltaFile, InstallAll, Room, ContentsOf, TwoFiles, Sound, IsChunk;
    PassedNames(u, DeltaFile(s), [s.a.hash]);
    DeltaRecord(v.st, s.a.hash, s.delta);
  }

  lemma InstalledShape(s: Sample, v: Vault, apply: Apply, content: ContentMap)
    requires SampleOk(s, apply, content) && Good(Opened(s), apply, content, false)
    requires Allowed(Opened(s), InstallDeltas([s.a.hash]), apply, content)
    requires v == Do(Opened(s), InstallDeltas([s.a.hash]), apply, content)
    ensures DeltaStored(s, v)
  {
    assert Room(s.name, 3) && s.a.hash != s.b.hash && |s.a.data| < s.max <= REWRITE_LIMIT;
    hide SampleOk, Good, Allowed, Do, Opened, PassReady, Pending, DeltaFile, Skipped, InstallAll, Room, ContentsOf;
    hide TwoFiles, Sound, DeltaStored, IsChunk;
    var u := Pass(Opened(s).st, Pending(s), 0);
    InstalledIs(s, v, apply, content);
    OpenedShape(s);
    SecondPlain(s, apply, content);
    InstallReady(s, apply, content);
    InstalledContent(s, u);
    InstalledFrom(s, u, v);
  }

  // ---- Compacting, reading and collecting ----

  function Order(s: Sample): seq<Bytes> {
    [s.a.hash, s.b.hash]
  }

  lemma OrderIsSnapshot(s: Sample, index: Index)
    requires forall h :: h in index ==> IsChunk(s, h)
    ensures Snapshot(index, Order(s)) && |Order(s)| == 2
  {
    assert Order(s)[0] == s.a.hash && Order(s)[1] == s.b.hash;
  }

  lemma CompactAllowed(s: Sample, v: Vault, apply: Apply, content: ContentMap)
    requires DeltaStored(s, v) && Clean(s.delta)
    ensures Allowed(v, Compact(Order(s)), apply, content)
  {
    hide Sound, ContentsOf, Clean, Room, TwoFiles, Snapshot, Order, MovesCleanly;
    OrderIsSnapshot(s, v.st.index);
    DeltaMovesCleanly(s, v);
  }

  lemma DeltaMovesCleanly(s: Sample, v: Vault)
    requires DeltaStored(s, v) && Clean(s.delta)
    ensures MovesCleanly(v.st)
  {
    hide Sound, Stored, Clean, Room, TwoFiles;
    assert Stored(v.st)[s.a.hash] == ContentsOf(v.st)[s.a.hash].bytes;
  }

  lemma CompactKeepsKeys(v: Vault, order: seq<Bytes>, apply: Apply, content: ContentMap)
    requires Good(v, apply, content, false) && Allowed(v, Compact(order), apply, content)
    ensures Do(v, Compact(order), apply, content).st.index.Keys == v.st.index.Keys
    ensures Do(v, Compact(order), apply, content).recipes == v.recipes
  {
    hide Good, Allowed, Do, Rewrite, Ready;
    CompactIs(v, order, apply, content);
    GoodSound(v, apply, content, false);
    RewriteKeepsKeys(v.st, order, apply, content);
  }

  lemma RewriteKeepsKeys(st: Store, order: seq<Bytes>, apply: Apply, content: ContentMap)
    requires StoreGood(st, apply, content, false) && Ready(st, |order|) && Snapshot(st.index, order)
    ensures Rewrite(st, order).index.Keys == st.index.Keys
  {
    hide Sound, Ready, Accounted, Catalogued, Meaningful, Rewrite, Snapshot;
    RewriteStores(st, order, false);
  }

  /** Every stored chunk is referenced, at most twice. */
  lemma BothReferenced(s: Sample, h: Bytes)
    requires s.fileA != s.fileB
    ensures IsChunk(s, h) ==> References(TwoFiles(s).recipes, h) > 0
    ensures References(TwoFiles(s).recipes, h) <= 2
  {
    var none: Recipes, a, b := map[], RecipeOf([s.a]), RecipeOf([s.b]);
    assert TwoFiles(s).recipes == none[s.fileA := a][s.fileB := b];
    ReferencesWith(none, s.fileA, a, h);
    ReferencesWith(none[s.fileA := a], s.fileB, b, h);
    OneOccurrence(s.a, h);
    OneOccurrence(s.b, h);
  }

  lemma OneOccurrence(c: Chunk, h: Bytes)
    ensures Occurrences(RecipeOf([c]), h) == if h == c.hash then 1 else 0
  {
    assert RecipeOf([c])[..0] == [];
  }

  /** Every base is kept where every stored chunk is referenced. */
  lemma CollectAllowed(v: Vault, apply: Apply, content: ContentMap)
    requires Good(v, apply, content, false)
    requires forall h :: References(v.recipes, h) < U32 && (h in v.st.index ==> References(v.recipes, h) > 0)
    ensures Allowed(v, CollectGarbage, apply, content)
  {
    KeptIsReferenced(v, apply, content, false);
    BasesKeptExactly(v, apply, content, false);
    hide Good, Sound, References, Stored, ContentsOf, Collect, BasesKept;
    assert BasesKept(ContentsOf(v.st), v.st.index.Keys);
    forall h, base | DeltaOn(ContentsOf(v.st), h, base) ensures References(v.recipes, base) > 0 {
      BaseKept(ContentsOf(v.st), h, base);
    }
  }

  lemma BaseKept(cs: Contents, h: Bytes, base: Bytes)
    requires BasesKept(cs, cs.Keys) && DeltaOn(cs, h, base)
    ensures base in cs
  {
  }

  function Everything(s: Sample): seq<Op> {
    UpToInstall(s) + [Compact(Order(s))] + [Read([s.name])] + [CollectGarbage]
  }

  /** Such a run may be done, and its compaction moves the delta to another container. */
  lemma EverythingRuns(s: Sample, apply: Apply, content: ContentMap) returns (v: Vault)
    requires SampleOk(s, apply, content) && Clean(s.delta)
    ensures RunAllowed(Empty(s.name, s.max), Everything(s), apply, content)
    ensures Reaches(Empty(s.name, s.max), UpToInstall(s), v, apply, content)
    ensures Allowed(v, Compact(Order(s)), apply, content)
    ensures var w := Do(v, Compact(Order(s)), apply, content);
            s.a.hash in v.st.index && s.a.hash in w.st.index
            && w.st.index[s.a.hash].name != v.st.index[s.a.hash].name
  {
    assert s.fileA != s.fileB;
    hide SampleOk, Empty, Good, Run, RunAllowed, UpToInstall, Allowed, TwoFiles, IsChunk, Order, Do, Room;
    hide DeltaStored, Everything;
    v := InstalledReached(s, apply, content);
    ReachesGood(Empty(s.name, s.max), UpToInstall(s), v, apply, content);
    CompactAllowed(s, v, apply, content);
    CompactKeepsKeys(v, Order(s), apply, content);
    CompactMoves(v, Order(s), s.a.hash, apply, content);
    StoredShape(s, v);
    ReachesOneMore(Empty(s.name, s.max), UpToInstall(s), v, Compact(Order(s)), apply, content);
    CollectAfterCompact(s, Empty(s.name, s.max), UpToInstall(s) + [Compact(Order(s))],
                        Do(v, Compact(Order(s)), apply, content), apply, content);
    EverythingIs(s);
  }

  lemma EverythingIs(s: Sample)
    ensures Everything(s) == UpToInstall(s) + [Compact(Order(s))] + [Read([s.name])] + [CollectGarbage]
  {
  }

  lemma ReachesGood(v: Vault, ops: seq<Op>, w: Vault, apply: Apply, content: ContentMap)
    requires Reaches(v, ops, w, apply, content)
    ensures Good(w, apply, content, false)
  {
  }

  lemma StoredShape(s: Sample, v: Vault)
    requires DeltaStored(s, v)
    ensures v.recipes == TwoFiles(s).recipes && IsDoomed(v.st, s.a.hash) && s.a.hash in v.st.index
    ensures forall h :: h in v.st.index ==> IsChunk(s, h)
  {
  }

  /** Compaction moves what is in a small container. */
  lemma CompactMoves(v: Vault, order: seq<Bytes>, h: Bytes, apply: Apply, content: ContentMap)
    requires Good(v, apply, content, false) && Allowed(v, Compact(order), apply, content)
    ensures var w := Do(v, Compact(order), apply, content);
            IsDoomed(v.st, h) ==> h in w.st.index && w.st.index[h].name != v.st.index[h].name
  {
    hide Good, Allowed, Do, Rewrite, Ready, Snapshot, Sound;
    CompactIs(v, order, apply, content);
    GoodSound(v, apply, content, false);
    RewriteMoves(v.st, order, h, apply, content);
  }

  lemma RewriteMoves(st: Store, order: seq<Bytes>, h: Bytes, apply: Apply, content: ContentMap)
    requires StoreGood(st, apply, content, false) && Ready(st, |order|) && Snapshot(st.index, order)
    ensures IsDoomed(st, h) ==> h in Rewrite(st, order).index && Rewrite(st, order).index[h].name != st.index[h].name
  {
    hide Sound, Ready, Accounted, Catalogued, Meaningful, Rewrite, Snapshot, Stored, SameCounts;
    RewriteStores(st, order, false);
    assert IsDoomed(st, h) ==> Rewritten(st, Rewrite(st, order), h);
  }

  lemma CollectAfterCompact(s: Sample, v: Vault, ops: seq<Op>, w: Vault, apply: Apply, content: ContentMap)
    requires Reaches(v, ops, w, apply, content) && w.recipes == TwoFiles(s).recipes && s.fileA != s.fileB
    requires forall h :: h in w.st.index ==> IsChunk(s, h)
    ensures RunAllowed(v, ops + [Read([s.name])] + [CollectGarbage], apply, content)
  {
    hide Good, Run, RunAllowed, References, TwoFiles, AfterReads;
    ReachesOneMore(v, ops, w, Read([s.name]), apply, content);
    var w' := Do(w, Read([s.name]), apply, content);
    forall h ensures References(w'.recipes, h) < U32 && (h in w'.st.index ==> References(w'.recipes, h) > 0) {
      BothReferenced(s, h);
    }
    CollectAllowed(w', apply, content);
    ReachesOneMore(v, ops + [Read([s.name])], w', CollectGarbage, apply, content);
  }
}
