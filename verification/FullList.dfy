/** A list of commands that does everything, from the empty store on: two files are backed up, a delta is
    saved and installed, the store is compacted, and the first file is restored. */
module FullList {
  import opened Bytes
  import opened Names
  import opened Options
  import opened Log
  import opened Store
  import opened Deltas
  import opened DeltaPass
  import opened Compaction
  import opened Vault
  import opened Runs
  import opened PendingRuns
  import opened Cuts
  import opened Chunker
  import opened Program
  import opened CommandLists
  import opened SampleRuns

  /** The chunks of the sample are what the program makes of two files shorter than a chunk has to be, and
      its delta is the one made of them, and worth saving. */
  ghost predicate MadeBy(prog: Program, s: Sample, content: ContentMap) {
    && Works(prog) && SampleOk(s, prog.apply, content) && Clean(s.delta)
    && s.a.hash == prog.fp(s.a.data) && 0 < |s.a.data| < prog.p.min
    && s.b.hash == prog.fp(s.b.data) && 0 < |s.b.data| < prog.p.min
    && s.delta == s.b.hash + prog.create(San(s.b.data), San(s.a.data))
    && Stem(San(s.a.data)) != Stem(San(s.b.data)) && |s.delta| < |s.a.data| && |s.delta| < prog.deltas.maxChunk
  }

  lemma ShortFile(prog: Program, data: Bytes)
    requires 0 < |data| < prog.p.min
    ensures Chunks(prog.p, data) == [data] && prog.ChunksOf(data) == [Chunk(prog.fp(data), data)]
  {
    assert CutFrom(prog.p, data, 1) == |data| + 1;
  }

  function ContainerNames(s: Sample): seq<Name> {
    [s.name, NextPermutation(s.name)]
  }

  function AfterCompact(s: Sample): seq<Command> {
    [RestoreFile(s.fileA, 0, 1)] + []
  }

  function AfterInstall(s: Sample): seq<Command> {
    [CompactAll(ContainerNames(s), Order(s))] + AfterCompact(s)
  }

  function AfterSave(s: Sample): seq<Command> {
    [InstallAll([s.a.hash])] + AfterInstall(s)
  }

  function AfterBackUps(s: Sample): seq<Command> {
    [SaveDelta(s.b.hash, s.a.hash)] + AfterSave(s)
  }

  function WholeList(s: Sample): seq<Command> {
    [BackUpFile(s.fileA, s.a.data)] + ([BackUpFile(s.fileB, s.b.data)] + AfterBackUps(s))
  }

  // ---- Restoring and compacting ----

  lemma RestoreLast(prog: Program, s: Sample, v: Vault, content: ContentMap)
    requires v.recipes == TwoFiles(s).recipes && s.fileA != s.fileB
    ensures prog.AllOk(v, AfterCompact(s), content)
  {
    assert |TwoFiles(s).recipes[s.fileA]| == 1;
    hide TwoFiles, Program.Leads;
    FirstThenRest(prog, v, RestoreFile(s.fileA, 0, 1), [], content);
  }

  lemma ReopenedDeltaStored(s: Sample, v: Vault)
    requires DeltaStored(s, v)
    ensures DeltaStored(s, AfterReopen(v))
  {
    hide Sound, ContentsOf, Room, TwoFiles;
    ReopenContents(v.st);
    ReopenDoomed(v.st, s.a.hash);
  }

  lemma ReopenDoomed(st: Store, h: Bytes)
    requires h in st.index && IsDoomed(st, h)
    ensures IsDoomed(ReopenedStore(st), h)
  {
  }

  lemma CompactThenRestore(prog: Program, s: Sample, v: Vault, content: ContentMap)
    requires Good(v, prog.apply, content, false) && DeltaStored(s, v) && Clean(s.delta) && s.fileA != s.fileB
    requires forall n :: n in AfterReopen(v).st.sizes ==> n in ContainerNames(s)
    ensures prog.AllOk(v, AfterInstall(s), content)
  {
    hide Good, DeltaStored, TwoFiles, Order, Clean, Allowed, Do, ContainerNames, AfterCompact;
    ReopenedDeltaStored(s, v);
    StoredShape(s, AfterReopen(v));
    CompactAllowed(s, AfterReopen(v), prog.apply, content);
    prog.ReopenIs(v, content);
    CompactKeepsKeys(AfterReopen(v), Order(s), prog.apply, content);
    hide AfterReopen;
    var c := CompactAll(ContainerNames(s), Order(s));
    forall w | prog.Leads(v, c, w, content) ensures prog.AllOk(w, AfterCompact(s), content) {
      RestoreLast(prog, s, w, content);
    }
    FirstThenRest(prog, v, c, AfterCompact(s), content);
  }

  // ---- Installing ----

  lemma InstalledSizes(s: Sample, v: Vault, apply: Apply, content: ContentMap)
    requires SampleOk(s, apply, content) && Good(Opened(s), apply, content, false)
    requires Allowed(Opened(s), InstallDeltas([s.a.hash]), apply, content)
    requires v == Do(Opened(s), InstallDeltas([s.a.hash]), apply, content)
    ensures forall n :: n in AfterReopen(v).st.sizes ==> n in ContainerNames(s)
  {
    hide SampleOk, Good, Allowed, Do, PassReady, Pending, DeltaFile, Skipped, DeltaPass.InstallAll, NextPermutation;
    var u := Pass(Opened(s).st, Pending(s), 0);
    InstalledIs(s, v, apply, content);
    InstallAllPassed(u, DeltaFile(s), [s.a.hash]);
    assert ContainerNames(s)[0] == s.name && ContainerNames(s)[1] == NextPermutation(s.name);
  }

  lemma InstallThen(
    prog: Program, v: Vault, u: Vault, order: seq<Bytes>, w: Vault, cs: seq<Command>, content: ContentMap
  )
    requires AfterReopen(v) == u && Allowed(u, InstallDeltas(order), prog.apply, content)
    requires w == Do(u, InstallDeltas(order), prog.apply, content) && prog.AllOk(w, cs, content)
    ensures prog.AllOk(v, [InstallAll(order)] + cs, content)
  {
    hide Allowed, Do, AfterReopen;
    FirstThenRest(prog, v, InstallAll(order), cs, content);
  }

  lemma InstallThenCompact(prog: Program, s: Sample, v: Vault, content: ContentMap)
    requires SampleOk(s, prog.apply, content) && Clean(s.delta)
    requires AfterReopen(v) == Opened(s) && Good(Opened(s), prog.apply, content, false)
    ensures prog.AllOk(v, AfterSave(s), content)
  {
    assert s.fileA != s.fileB;
    hide SampleOk, Good, DeltaStored, Clean, Allowed, Do, AfterReopen, Opened, AfterInstall, Program.AllOk;
    hide ContainerNames;
    var order := [s.a.hash];
    InstallAllowed(s, prog.apply, content);
    var w := Do(Opened(s), InstallDeltas(order), prog.apply, content);
    DoGood(Opened(s), InstallDeltas(order), prog.apply, content, false);
    InstalledShape(s, w, prog.apply, content);
    InstalledSizes(s, w, prog.apply, content);
    CompactThenRestore(prog, s, w, content);
    InstallThen(prog, v, Opened(s), order, w, AfterInstall(s), content);
  }

  // ---- Saving the delta ----

  /** With no delta yet, the delta log starts empty. */
  lemma NoDeltas(
    v: Vault, max: nat, capacity: nat, apply: Apply, content: ContentMap, rank: Bytes -> nat
  )
    requires v.pending == map[] && v.files == map[] && v.deltaConfig == None && 0 < max <= capacity
    requires Sound(v.st) && Means(ContentsOf(v.st), apply, SanOf(content), rank)
    ensures PendingWith(v, apply, content, rank) && DeltaLogOk(v, max, capacity)
    ensures DeltaLog(v, max, capacity) == Log(max, map[], INITIAL_NAME, [], [], [])
  {
    hide Sound, Means, ContentsOf;
  }

  /** The first delta needs no rollover. */
  lemma FirstPair(prog: Program, v: Vault, base: Bytes, h: Bytes, content: ContentMap, rank: Bytes -> nat)
    requires Works(prog) && 0 < prog.deltas.max && v.pending == map[] && v.files == map[] && v.deltaConfig == None
    requires Sound(v.st) && Means(ContentsOf(v.st), prog.apply, SanOf(content), rank)
    requires |base| == HASH_SIZE && base in v.st.index && (h in v.st.index ==> v.st.index[h].deltaCount == 0)
    requires rank(base) < rank(h)
    ensures prog.PairOk(v, base, h, content, rank)
  {
    hide PendingWith, DeltaLogOk, Sound, Means, ContentsOf;
    NoDeltas(v, prog.deltas.max, prog.deltas.capacity, prog.apply, content, rank);
    DeltaFilesFit(v, prog.deltas.max, prog.deltas.capacity);
  }

  lemma FirstDelta(prog: Program, s: Sample, content: ContentMap)
    requires MadeBy(prog, s, content) && Good(TwoFiles(s), prog.apply, content, false)
    ensures prog.PairOk(TwoFiles(s), s.b.hash, s.a.hash, content, Rank(s))
  {
    MadeWorks(prog, s, content);
    hide Good, TwoFiles, MadeBy, Sound, Means, ContentsOf, SampleOk, Program.PairOk, Clean, Rank, Works;
    TwoFilesParts(s);
    GoodSound(TwoFiles(s), prog.apply, content, false);
    PlainMeans(TwoFiles(s).st, prog.apply, content, false, Rank(s));
    FirstPair(prog, TwoFiles(s), s.b.hash, s.a.hash, content, Rank(s));
  }

  lemma TwoFilesParts(s: Sample)
    requires s.a.hash != s.b.hash
    ensures var v := TwoFiles(s);
            && v.pending == map[] && v.files == map[] && v.deltaConfig == None
            && s.a.hash in v.st.index && s.b.hash in v.st.index
            && forall h :: h in v.st.index ==> v.st.index[h].deltaCount == 0
    ensures Rank(s)(s.b.hash) < Rank(s)(s.a.hash)
  {
    SecondIndex(s);
    hide Second;
  }

  lemma MadeWorks(prog: Program, s: Sample, content: ContentMap)
    requires MadeBy(prog, s, content)
    ensures Works(prog) && SampleOk(s, prog.apply, content) && Clean(s.delta) && s.a.hash != s.b.hash
    ensures |s.b.hash| == HASH_SIZE && 0 < prog.deltas.max
  {
  }

  lemma SampleContent(s: Sample, apply: Apply, content: ContentMap)
    requires SampleOk(s, apply, content)
    ensures content(s.a.hash) == s.a.data && content(s.b.hash) == s.b.data
  {
    hide San, Clean, Room;
  }

  lemma FirstIsWorthIt(prog: Program, s: Sample, v: Vault, content: ContentMap)
    requires MadeBy(prog, s, content) && s.a.hash in v.st.index
    ensures prog.WorthSaving(v, s.b.hash, s.a.hash, content)
    ensures prog.DeltaMade(s.b.hash, s.a.hash, content) == s.delta && |s.delta| < prog.deltas.max
  {
    hide San, Stem, SampleOk, Clean;
    MadeWorks(prog, s, content);
    SampleContent(s, prog.apply, content);
  }

  lemma FirstSaved(v: Vault, max: nat, capacity: nat, h: Bytes, e: Entry, data: Bytes)
    requires v.pending == map[] && v.files == map[] && v.deltaConfig == None && |data| < max
    ensures SavedDelta(v, max, capacity, h, e, data)
         == v.(pending := map[h := Entry(INITIAL_NAME, 0, |data|, e.count, e.deltaCount)],
               files := map[INITIAL_NAME := data], deltaConfig := Some((INITIAL_NAME, |data|)))
  {
    assert [] + data == data;
  }

  /** It starts the delta log. */
  lemma DeltaSaved(prog: Program, s: Sample, v: Vault, content: ContentMap)
    requires MadeBy(prog, s, content) && v.st.index == Second(s).index
    requires v.pending == map[] && v.files == map[] && v.deltaConfig == None
    ensures prog.AfterSave(v, s.b.hash, s.a.hash, content)
         == v.(pending := Pending(s), files := DeltaFile(s), deltaConfig := DeltaConfig(s))
  {
    MadeWorks(prog, s, content);
    SecondIndex(s);
    FirstIsWorthIt(prog, s, v, content);
    hide Second, MadeBy, SavedDelta, Program.WorthSaving, Program.DeltaMade, SampleOk, Clean;
    var e := v.st.index[s.a.hash];
    FirstSaved(v, prog.deltas.max, prog.deltas.capacity, s.a.hash, e.(deltaCount := e.deltaCount + 1), s.delta);
  }

  lemma ReopenedAfterSave(prog: Program, s: Sample, names: seq<Name>, content: ContentMap)
    requires MadeBy(prog, s, content)
    ensures Coherent(Second(s).log) ==>
              AfterReopen(prog.AfterSave(AfterReading(TwoFiles(s), names), s.b.hash, s.a.hash, content)) == Opened(s)
  {
    hide SampleOk, Second, Clean, San, Stem, Pending, DeltaFile, DeltaConfig, MadeBy, Program.AfterSave, Coherent;
    if Coherent(Second(s).log) {
      ReadsKeepCoherent(Second(s).log, names);
      DeltaSaved(prog, s, AfterReading(TwoFiles(s), names), content);
    }
  }

  lemma InstallAfterSave(prog: Program, s: Sample, names: seq<Name>, content: ContentMap)
    requires MadeBy(prog, s, content) && Good(TwoFiles(s), prog.apply, content, false)
    requires prog.PairOk(TwoFiles(s), s.b.hash, s.a.hash, content, Rank(s))
    ensures var w := prog.AfterSave(AfterReading(TwoFiles(s), names), s.b.hash, s.a.hash, content);
            prog.AllOk(w, AfterSave(s), content)
  {
    MadeWorks(prog, s, content);
    hide MadeBy, SampleOk, Good, Clean, Program.AfterSave, Program.PairOk, Program.AllOk, PendingGood, PendingWith;
    hide AfterReopen, AfterReading, AfterSave, Opened, TwoFiles;
    SecondCoherent(s, prog.apply, content);
    var w := prog.AfterSave(AfterReading(TwoFiles(s), names), s.b.hash, s.a.hash, content);
    ReopenedAfterSave(prog, s, names, content);
    prog.SavingKeepsPending(TwoFiles(s), names, s.b.hash, s.a.hash, content, Rank(s));
    prog.ReopenIs(w, content);
    InstallThenCompact(prog, s, w, content);
  }

  lemma SaveThen(
    prog: Program, v: Vault, base: Bytes, h: Bytes, cs: seq<Command>, content: ContentMap, rank: Bytes -> nat
  )
    requires prog.PairOk(v, base, h, content, rank)
    requires forall names :: prog.AllOk(prog.AfterSave(AfterReading(v, names), base, h, content), cs, content)
    ensures prog.AllOk(v, [SaveDelta(base, h)] + cs, content)
  {
    hide Program.AfterSave, AfterReading, Program.PairOk, Program.AllOk;
    FirstThenRest(prog, v, SaveDelta(base, h), cs, content);
  }

  lemma SaveThenInstallSample(prog: Program, s: Sample, content: ContentMap)
    requires MadeBy(prog, s, content) && Good(TwoFiles(s), prog.apply, content, false)
    ensures prog.AllOk(TwoFiles(s), AfterBackUps(s), content)
  {
    hide MadeBy, Good, Program.AllOk, Program.AfterSave, Program.PairOk, AfterReading, AfterSave, TwoFiles, Rank;
    FirstDelta(prog, s, content);
    forall names
      ensures prog.AllOk(prog.AfterSave(AfterReading(TwoFiles(s), names), s.b.hash, s.a.hash, content), AfterSave(s),
                         content)
    {
      InstallAfterSave(prog, s, names, content);
    }
    SaveThen(prog, TwoFiles(s), s.b.hash, s.a.hash, AfterSave(s), content, Rank(s));
  }

  lemma SecondCoherent(s: Sample, apply: Apply, content: ContentMap)
    requires Good(TwoFiles(s), apply, content, false)
    ensures Coherent(Second(s).log)
  {
    hide Second, Coherent, LaidOut;
    GoodSound(TwoFiles(s), apply, content, false);
  }

  // ---- Backing up ----

  lemma BackUpThen(
    prog: Program, s: Sample, v: Vault, file: Bytes, c: Chunk, w: Vault, cs: seq<Command>, content: ContentMap
  )
    requires Good(v, prog.apply, content, false) && ChunkOk(s, c, content) && v.st.log.max == s.max
    requires Room(v.st.log.openName, 1) && file !in v.recipes && c.hash !in v.st.index
    requires c.hash == prog.fp(c.data) && 0 < |c.data| < prog.p.min
    requires w == v.(st := DedupAll(v.st, [c]), recipes := v.recipes[file := RecipeOf([c])])
    ensures Good(w, prog.apply, content, false)
    ensures prog.AllOk(w, cs, content) ==> prog.AllOk(v, [BackUpFile(file, c.data)] + cs, content)
  {
    ShortFile(prog, c.data);
    hide Program.ChunksOf, ChunkOk, Good, Room, DedupAll, RecipeOf;
    BackUpAllowed(v, file, s, c, prog.apply, content);
    BackUpIs(v, file, [c], prog.apply, content);
    FreshRecipe([c]);
    hide Allowed, Do;
    DoGood(v, BackUp(file, [c]), prog.apply, content, false);
    if prog.AllOk(w, cs, content) {
      FirstThenRest(prog, v, BackUpFile(file, c.data), cs, content);
    }
  }

  /** The whole list may be given to the program on an empty store. */
  lemma WholeListOk(prog: Program, s: Sample, content: ContentMap)
    requires MadeBy(prog, s, content)
    ensures prog.AllOk(Empty(s.name, s.max), WholeList(s), content)
  {
    assert SampleOk(s, prog.apply, content);
    OneFileIs(s, prog.apply, content);
    TwoFilesIs(s, prog.apply, content);
    RoomShrinks(s.name, 3, 1);
    EmptyReached(s, prog.apply, content);
    assert ChunkOk(s, s.a, content) && ChunkOk(s, s.b, content) && s.fileA != s.fileB;
    var v, cs := Empty(s.name, s.max), AfterBackUps(s);
    hide SampleOk, Good, ChunkOk, Room, DedupAll, OneFile, TwoFiles, Empty, RecipeOf, AfterBackUps;
    BackUpThen(prog, s, v, s.fileA, s.a, OneFile(s), [BackUpFile(s.fileB, s.b.data)] + cs, content);
    BackUpThen(prog, s, OneFile(s), s.fileB, s.b, TwoFiles(s), cs, content);
    SaveThenInstallSample(prog, s, content);
  }
}
