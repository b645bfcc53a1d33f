/** Safety over whole runs: every reachable store restores every live recipe to its chunks. */
module Runs {
  import opened Bytes
  import opened Names
  import opened Options
  import opened Log
  import opened Store
  import opened Deltas
  import opened DeltaPass
  import opened RefCounts
  import opened Compaction
  import opened Vault
  import opened Restore

  ghost function RefsOf(recipes: Recipes): Refs {
    h => References(recipes, h)
  }

  /** Recipe entries record the size of the content. */
  ghost predicate RecipeFits(recipe: Recipe, content: ContentMap) {
    forall i :: 0 <= i < |recipe| ==> recipe[i].chunkSize == |content(recipe[i].chunkHash)|
  }

  /** The invariant of all runs: a good store, counts equal to references, fitting recipes. */
  ghost predicate Good(v: Vault, apply: Apply, content: ContentMap, exact: bool) {
    && StoreGood(v.st, apply, content, exact)
    && CountsAgree(v.st.index, RefsOf(v.recipes))
    && forall f :: f in v.recipes ==> RecipeFits(v.recipes[f], content)
  }

  // ---- Backing up a list of chunks ----

  /** No chunk of the list is missed by the lookup when its turn comes. */
  predicate AllFindable(index: Index, chunks: seq<Chunk>) {
    forall i :: 0 <= i < |chunks| ==>
      NulFree(chunks[i].hash) || (chunks[i].hash !in index && forall j :: 0 <= j < i ==>
        chunks[j].hash != chunks[i].hash)
  }

  ghost predicate AllStorable(st: Store, chunks: seq<Chunk>, content: ContentMap) {
    forall i :: 0 <= i < |chunks| ==> Storable(st, chunks[i], content)
  }

  lemma {:induction false} DedupAllKeys(st: Store, chunks: seq<Chunk>, h: Bytes)
    requires WellKeyed(st.index) && forall i :: 0 <= i < |chunks| ==> |chunks[i].hash| == HASH_SIZE
    requires h in DedupAll(st, chunks).index
    ensures h in st.index || exists i :: 0 <= i < |chunks| && chunks[i].hash == h
    ensures |h| == HASH_SIZE
    decreases |chunks|
  {
    if chunks != [] {
      var n := |chunks| - 1;
      var init := chunks[..n];
      assert WellKeyed(DedupAll(st, init).index) by {
        forall g | g in DedupAll(st, init).index ensures |g| == HASH_SIZE {
          DedupAllKeys(st, init, g);
        }
      }
      DedupRecord(DedupAll(st, init), chunks[n].hash, chunks[n].data);
      if h != chunks[n].hash {
        DedupAllKeys(st, init, h);
      }
    }
  }

  lemma {:induction false} DedupAllGood(st: Store, chunks: seq<Chunk>, apply: Apply, content: ContentMap, exact: bool,
          refs: Refs, spare: nat)
    requires StoreGood(st, apply, content, exact) && CountsAgree(st.index, refs)
    requires AllStorable(st, chunks, content) && AllFindable(st.index, chunks) && Ready(st, |chunks| + spare)
    ensures StoreGood(DedupAll(st, chunks), apply, content, exact) && Ready(DedupAll(st, chunks), spare)
    ensures CountsAgree(DedupAll(st, chunks).index, RefsPlus(refs, RecipeOf(chunks)))
    ensures DedupAll(st, chunks).log.max == st.log.max
    decreases |chunks|
  {
    hide StoreGood, CountAgrees, Sound, Room, Dedup, NulFree;
    if chunks == [] {
      forall h ensures CountAgrees(st.index, h, RefsPlus(refs, RecipeOf(chunks))(h)) {
        assert CountAgrees(st.index, h, refs(h));
      }
    } else {
      var n := |chunks| - 1;
      var init, c := chunks[..n], chunks[n];
      var st1 := DedupAll(st, init);
      DedupAllGood(st, init, apply, content, exact, refs, spare + 1);
      StillFindable(st, chunks, apply, content, exact);
      assert Storable(st, c, content);
      DedupGood(st1, c, apply, content, exact, spare);
      GoodIsKeyed(st1, apply, content, exact);
      DedupCountsExactly(st1, c.hash, c.data, RefsPlus(refs, RecipeOf(init)));
      CountsSnoc(Dedup(st1, c.hash, c.data).index, chunks, refs);
    }
  }

  lemma GoodIsKeyed(st: Store, apply: Apply, content: ContentMap, exact: bool)
    requires StoreGood(st, apply, content, exact)
    ensures WellKeyed(st.index)
  {
  }

  lemma StillFindable(st: Store, chunks: seq<Chunk>, apply: Apply, content: ContentMap, exact: bool)
    requires StoreGood(st, apply, content, exact) && chunks != []
    requires AllStorable(st, chunks, content) && AllFindable(st.index, chunks)
    ensures Findable(DedupAll(st, chunks[..|chunks| - 1]).index, chunks[|chunks| - 1])
  {
    hide Sound, Catalogued, Accounted, Meaningful, DedupAll;
    var n := |chunks| - 1;
    forall i | 0 <= i < |chunks| ensures |chunks[i].hash| == HASH_SIZE {
      assert Storable(st, chunks[i], content);
    }
    if !NulFree(chunks[n].hash) && chunks[n].hash in DedupAll(st, chunks[..n]).index {
      DedupAllKeys(st, chunks[..n], chunks[n].hash);
    }
  }

  /** The recipe of one more chunk counts one more reference. */
  lemma CountsSnoc(index: Index, chunks: seq<Chunk>, refs: Refs)
    requires chunks != []
    requires CountsAgree(index, OneMore(RefsPlus(refs, RecipeOf(chunks[..|chunks| - 1])), chunks[|chunks| - 1].hash))
    ensures CountsAgree(index, RefsPlus(refs, RecipeOf(chunks)))
  {
    var n := |chunks| - 1;
    var init, last := RecipeOf(chunks[..n]), chunks[n].hash;
    assert RecipeOf(chunks)[..n] == init;
    forall h ensures CountAgrees(index, h, RefsPlus(refs, RecipeOf(chunks))(h)) {
      assert CountAgrees(index, h, OneMore(RefsPlus(refs, init), last)(h));
      assert Occurrences(RecipeOf(chunks), h) == Occurrences(init, h) + if last == h then 1 else 0;
    }
  }

  // ---- Operations ----

  datatype Op =
    | BackUp(file: Bytes, chunks: seq<Chunk>)
    | Drop(file: Bytes)
    | CollectGarbage
    | Compact(order: seq<Bytes>)
    | Reopen
    | InstallDeltas(order: seq<Bytes>)
    | PendDeltas(pending: Index, files: DeltaFiles, deltaConfig: Config)
    | Read(names: seq<Name>)

  function RecipeAt(recipes: Recipes, file: Bytes): Recipe {
    if file in recipes then recipes[file] else []
  }

  /** What closing and opening the store again leaves. */
  function AfterReopen(v: Vault): Vault {
    v.(st := ReopenedStore(v.st))
  }

  /** What reading containers leaves. */
  function AfterReading(v: Vault, names: seq<Name>): Vault {
    v.(st := v.st.(log := AfterReads(v.st.log, names)))
  }

  ghost predicate SomeRank(v: Vault, order: seq<Bytes>, apply: Apply, content: ContentMap)
    requires PassReady(Pass(v.st, v.pending, 0), v.files, order)
  {
    exists rank ::
      && Means(ContentsOf(v.st), apply, SanOf(content), rank)
      && AllSensible(Pass(v.st, v.pending, 0), v.files, order, apply, SanOf(content), rank)
  }

  /** When an operation may be run: the hypotheses on its input, and names left for its rollovers. */
  ghost predicate Allowed(v: Vault, op: Op, apply: Apply, content: ContentMap) {
    match op
    case BackUp(_, chunks) =>
      AllStorable(v.st, chunks, content) && AllFindable(v.st.index, chunks) && Ready(v.st, |chunks|)
    case Drop(_) => true
    case CollectGarbage =>
      && (forall h :: References(v.recipes, h) < U32)
      && Sound(v.st) && BasesKept(ContentsOf(v.st), Collect(v.st.index).Keys)
    case Compact(order) => Snapshot(v.st.index, order) && Ready(v.st, |order|) && MovesCleanly(v.st)
    case Reopen => true
    case InstallDeltas(order) =>
      PassReady(Pass(v.st, v.pending, 0), v.files, order) && SomeRank(v, order, apply, content)
    case PendDeltas(_, _, _) => true
    case Read(_) => true
  }

  ghost function Do(v: Vault, op: Op, apply: Apply, content: ContentMap): Vault
    requires Allowed(v, op, apply, content)
  {
    match op
    case BackUp(file, chunks) =>
      v.(st := DedupAll(v.st, chunks), recipes := v.recipes[file := RecipeAt(v.recipes, file) + RecipeOf(chunks)])
    case Drop(file) =>
      v.(st := v.st.(index := DeleteAll(v.st.index, RecipeAt(v.recipes, file))), recipes := v.recipes - {file})
    case CollectGarbage => v.(st := v.st.(index := Collect(v.st.index)))
    case Compact(order) => v.(st := Rewrite(v.st, order))
    case Reopen => AfterReopen(v)
    case InstallDeltas(order) =>
      var (u, files) := Update(Pass(v.st, v.pending, 0), v.files, order);
      v.(st := u.st, pending := u.pending, files := files)
    case PendDeltas(pending, files, deltaConfig) =>
      v.(pending := pending, files := files, deltaConfig := deltaConfig)
    case Read(names) => AfterReading(v, names)
  }

  lemma CountsCongruent(index: Index, r1: Refs, r2: Refs)
    requires CountsAgree(index, r1) && forall h :: r1(h) == r2(h)
    ensures CountsAgree(index, r2)
  {
    hide CountAgrees;
    forall h ensures CountAgrees(index, h, r2(h)) {
      assert CountAgrees(index, h, r1(h)) && r1(h) == r2(h);
    }
  }

  lemma BackUpGood(v: Vault, file: Bytes, chunks: seq<Chunk>, apply: Apply, content: ContentMap, exact: bool)
    requires Good(v, apply, content, exact) && Allowed(v, BackUp(file, chunks), apply, content)
    ensures Good(Do(v, BackUp(file, chunks), apply, content), apply, content, exact)
  {
    hide StoreGood, CountAgrees, DedupAll, References, Occurrences, Sound, Room, AllFindable;
    var v' := Do(v, BackUp(file, chunks), apply, content);
    var before, added := RecipeAt(v.recipes, file), RecipeOf(chunks);
    DedupAllGood(v.st, chunks, apply, content, exact, RefsOf(v.recipes), 0);
    forall h ensures RefsPlus(RefsOf(v.recipes), added)(h) == RefsOf(v'.recipes)(h) {
      ReferencesWith(v.recipes, file, before + added, h);
      OccurrencesAppend(before, added, h);
      NoOccurrences(h);
    }
    CountsCongruent(v'.st.index, RefsPlus(RefsOf(v.recipes), added), RefsOf(v'.recipes));
    assert forall i :: 0 <= i < |chunks| ==> Storable(v.st, chunks[i], content);
    assert RecipeFits(before + added, content);
  }

  lemma NoOccurrences(h: Bytes)
    ensures Occurrences([], h) == 0
  {
  }

  lemma DropGood(v: Vault, file: Bytes, apply: Apply, content: ContentMap, exact: bool)
    requires Good(v, apply, content, exact)
    ensures Good(Do(v, Drop(file), apply, content), apply, content, exact)
  {
    hide StoreGood, CountAgrees, DeleteAll, References, Occurrences;
    var v' := Do(v, Drop(file), apply, content);
    var recipe := RecipeAt(v.recipes, file);
    forall h ensures RefsPlus(RefsOf(v'.recipes), recipe)(h) == RefsOf(v.recipes)(h) {
      if file in v.recipes {
        ReferencesWithout(v.recipes, file, h);
      } else {
        assert v'.recipes == v.recipes;
        NoOccurrences(h);
      }
    }
    CountsCongruent(v.st.index, RefsOf(v.recipes), RefsPlus(RefsOf(v'.recipes), recipe));
    DeleteAllCounts(v.st.index, recipe, RefsOf(v'.recipes));
    DropStoreGood(v.st, recipe, apply, content, exact);
  }

  lemma DropIs(v: Vault, name: Bytes, apply: Apply, content: ContentMap)
    ensures Allowed(v, Drop(name), apply, content)
    ensures name in v.recipes ==>
              Do(v, Drop(name), apply, content)
              == v.(st := v.st.(index := DeleteAll(v.st.index, v.recipes[name])), recipes := v.recipes - {name})
    ensures name !in v.recipes ==> Do(v, Drop(name), apply, content) == v
  {
  }

  lemma DropStoreGood(st: Store, recipe: Recipe, apply: Apply, content: ContentMap, exact: bool)
    requires StoreGood(st, apply, content, exact)
    ensures StoreGood(st.(index := DeleteAll(st.index, recipe)), apply, content, exact)
  {
    hide Sound, Accounted, Catalogued, Meaningful, ContentsOf, DeleteAll;
    forall h | h in st.index
      ensures DeleteAll(st.index, recipe)[h] == st.index[h].(count := DeleteAll(st.index, recipe)[h].count) {
      DeleteAllPlaces(st.index, recipe, h);
    }
    GoodHasBases(st, apply, content, st.index.Keys);
    SubIndexGood(st, DeleteAll(st.index, recipe), apply, content, exact);
  }

  lemma CollectGood(v: Vault, apply: Apply, content: ContentMap, exact: bool)
    requires Good(v, apply, content, exact) && Allowed(v, CollectGarbage, apply, content)
    ensures Good(Do(v, CollectGarbage, apply, content), apply, content, false)
  {
    hide CountAgrees, References, Sound, Catalogued, Accounted, Meaningful, ContentsOf, BasesKept, RecipeFits;
    CollectRemovesExactlyUnreferenced(v.st.index, RefsOf(v.recipes));
    InexactGood(v.st, apply, content, exact);
    SubIndexGood(v.st, Collect(v.st.index), apply, content, false);
  }

  lemma InexactGood(st: Store, apply: Apply, content: ContentMap, exact: bool)
    requires StoreGood(st, apply, content, exact)
    ensures StoreGood(st, apply, content, false)
  {
    hide Sound, Catalogued, Meaningful, LiveBytes;
  }

  lemma ReopenContents(st: Store)
    requires Sound(st)
    ensures Sound(ReopenedStore(st)) && ContentsOf(ReopenedStore(st)) == ContentsOf(st)
  {
    hide LaidOut, Coherent, Slots;
    CoherentOpenName(st.log);
    ReopenKeeps(st.log, st.index);
  }

  lemma CoherentOpenName(log: Log)
    requires Coherent(log)
    ensures log.openName != [] && Flushed(log).Keys == log.files.Keys + {log.openName}
  {
  }

  lemma ReopenGood(v: Vault, apply: Apply, content: ContentMap, exact: bool)
    requires Good(v, apply, content, exact)
    ensures Good(Do(v, Reopen, apply, content), apply, content, exact)
  {
    hide CountsAgree, RecipeFits, Means, LiveBytes, Sound, ContentsOf;
    ReopenContents(v.st);
  }

  lemma CompactContentAt(st: Store, order: seq<Bytes>, h: Bytes)
    requires Sound(st) && Ready(st, |order|) && Sound(Rewrite(st, order)) && MovesCleanly(st)
    requires h in st.index && h in Rewrite(st, order).index && Rewritten(st, Rewrite(st, order), h)
    ensures ContentsOf(Rewrite(st, order))[h] == ContentsOf(st)[h]
    ensures Rewrite(st, order).index[h].count == st.index[h].count
    ensures Rewrite(st, order).index[h].length == st.index[h].length
  {
    hide Sound, Room, Rewrite, Stored, Clean, San, IsDoomed;
    SanFixesExactlyClean(Stored(st)[h]);
  }

  /** Compaction leaves the contents alone, if the slots it moves are clean. */
  lemma CompactContents(st: Store, order: seq<Bytes>, apply: Apply, content: ContentMap, exact: bool)
    requires StoreGood(st, apply, content, exact) && Snapshot(st.index, order) && Ready(st, |order|)
    requires MovesCleanly(st)
    ensures Sound(Rewrite(st, order)) && Catalogued(Rewrite(st, order)) && Accounted(Rewrite(st, order), exact)
    ensures ContentsOf(Rewrite(st, order)) == ContentsOf(st)
    ensures Rewrite(st, order).index.Keys == st.index.Keys
    ensures forall h :: h in st.index ==> Rewrite(st, order).index[h].count == st.index[h].count
    ensures Sized(Rewrite(st, order).index, content)
  {
    hide Sound, Ready, Accounted, Catalogued, Rewrite, ContentsOf, MovesCleanly, Meaningful, Snapshot, Rewritten;
    RewriteStores(st, order, exact);
    var st' := Rewrite(st, order);
    forall h | h in st.index
      ensures ContentsOf(st')[h] == ContentsOf(st)[h] && st'.index[h].count == st.index[h].count
      ensures st'.index[h].length == st.index[h].length
    {
      CompactContentAt(st, order, h);
    }
  }

  lemma CompactIs(v: Vault, order: seq<Bytes>, apply: Apply, content: ContentMap)
    requires Allowed(v, Compact(order), apply, content)
    ensures Ready(v.st, |order|) && Snapshot(v.st.index, order)
    ensures Do(v, Compact(order), apply, content) == v.(st := Rewrite(v.st, order))
  {
  }

  lemma CompactGood(v: Vault, order: seq<Bytes>, apply: Apply, content: ContentMap, exact: bool)
    requires Good(v, apply, content, exact) && Allowed(v, Compact(order), apply, content)
    ensures Good(Do(v, Compact(order), apply, content), apply, content, exact)
  {
    hide RecipeFits, Means, Accounted, Catalogued, Sound, Rewrite, ContentsOf, Ready, Snapshot;
    var st' := Rewrite(v.st, order);
    CompactContents(v.st, order, apply, content, exact);
    SameCountsAgree(v.st.index, st'.index, RefsOf(v.recipes));
  }

  lemma SameCountsAgree(index: Index, index': Index, refs: Refs)
    requires CountsAgree(index, refs) && index'.Keys == index.Keys
    requires forall h :: h in index ==> index'[h].count == index[h].count
    ensures CountsAgree(index', refs)
  {
    forall h ensures CountAgrees(index', h, refs(h)) {
      assert CountAgrees(index, h, refs(h));
    }
  }

  lemma RankedInstallAllowed(v: Vault, order: seq<Bytes>, apply: Apply, content: ContentMap, rank: Bytes -> nat)
    requires PassReady(Pass(v.st, v.pending, 0), v.files, order)
    requires Means(ContentsOf(v.st), apply, SanOf(content), rank)
    requires AllSensible(Pass(v.st, v.pending, 0), v.files, order, apply, SanOf(content), rank)
    ensures Allowed(v, InstallDeltas(order), apply, content)
  {
    hide PassReady, Means, AllSensible;
  }

  lemma InstallIs(v: Vault, order: seq<Bytes>, apply: Apply, content: ContentMap)
    requires Allowed(v, InstallDeltas(order), apply, content)
    ensures PassReady(Pass(v.st, v.pending, 0), v.files, order)
    ensures var (u, files) := Update(Pass(v.st, v.pending, 0), v.files, order);
            Do(v, InstallDeltas(order), apply, content) == v.(st := u.st, pending := u.pending, files := files)
  {
  }

  lemma InstallStoreGood(u: Pass, files: DeltaFiles, order: seq<Bytes>, apply: Apply, content: ContentMap,
          exact: bool, rank: Bytes -> nat)
    requires StoreGood(u.st, apply, content, exact) && PassReady(u, files, order)
    requires Means(ContentsOf(u.st), apply, SanOf(content), rank)
    requires AllSensible(u, files, order, apply, SanOf(content), rank)
    ensures StoreGood(InstallAll(u, files, order).st, apply, content, exact)
  {
    hide Means, Accounted, Catalogued, Sound, ContentsOf, PassReady, AllSensible, InstallAll;
    InstallAllMeans(u, files, order, apply, SanOf(content), rank, exact);
    InstallAllPassed(u, files, order);
  }

  /** Replacing the store by a good one with the same counts keeps the invariant. */
  lemma GoodWith(v: Vault, st': Store, pending: Index, files: DeltaFiles, apply: Apply, content: ContentMap,
          exact: bool)
    requires Good(v, apply, content, exact) && StoreGood(st', apply, content, exact)
    requires st'.index.Keys == v.st.index.Keys && forall h :: h in v.st.index ==>
             st'.index[h].count == v.st.index[h].count
    ensures Good(v.(st := st', pending := pending, files := files), apply, content, exact)
  {
    hide StoreGood, RecipeFits, References, CountAgrees;
    SameCountsAgree(v.st.index, st'.index, RefsOf(v.recipes));
  }

  lemma InstallGood(v: Vault, order: seq<Bytes>, apply: Apply, content: ContentMap, exact: bool)
    requires Good(v, apply, content, exact) && Allowed(v, InstallDeltas(order), apply, content)
    ensures Good(Do(v, InstallDeltas(order), apply, content), apply, content, exact)
  {
    hide Good, Means, StoreGood, Sound, ContentsOf, PassReady, AllSensible, InstallAll, Passed;
    GoodSound(v, apply, content, exact);
    var u := Pass(v.st, v.pending, 0);
    var rank :| Means(ContentsOf(v.st), apply, SanOf(content), rank)
             && AllSensible(u, v.files, order, apply, SanOf(content), rank);
    InstallStoreGood(u, v.files, order, apply, content, exact, rank);
    InstallCounts(u, v.files, order);
    assert u.(left := 0) == u;
    GoodWith(v, InstallAll(u, v.files, order).st, Do(v, InstallDeltas(order), apply, content).pending,
             Do(v, InstallDeltas(order), apply, content).files, apply, content, exact);
  }

  lemma InstallCounts(u: Pass, files: DeltaFiles, order: seq<Bytes>)
    requires PassReady(u, files, order)
    ensures InstallAll(u, files, order).st.index.Keys == u.st.index.Keys
    ensures forall h :: h in u.st.index ==> InstallAll(u, files, order).st.index[h].count == u.st.index[h].count
  {
    hide PassReady, InstallAll;
    InstallAllPassed(u, files, order);
  }

  predicate StillExact(op: Op) {
    !op.CollectGarbage?
  }

  lemma ReadIs(v: Vault, names: seq<Name>, apply: Apply, content: ContentMap)
    ensures Allowed(v, Read(names), apply, content)
    ensures Do(v, Read(names), apply, content) == AfterReading(v, names)
  {
  }

  lemma ReadContents(st: Store, names: seq<Name>)
    requires Sound(st)
    ensures var st' := st.(log := AfterReads(st.log, names));
            && Sound(st') && ContentsOf(st') == ContentsOf(st)
            && st'.log.open == st.log.open && st'.log.openName == st.log.openName
  {
    hide Coherent, LaidOut, Slots, AfterReads;
    ReadsKeepCoherent(st.log, names);
    SlotsIgnoreCache(st.log, AfterReads(st.log, names), st.index);
  }

  lemma ReadGood(v: Vault, names: seq<Name>, apply: Apply, content: ContentMap, exact: bool)
    requires Good(v, apply, content, exact)
    ensures Good(Do(v, Read(names), apply, content), apply, content, exact)
  {
    hide Sound, ContentsOf, AfterReads, CountsAgree, RecipeFits, Means, LiveBytes;
    ReadContents(v.st, names);
  }

  /** Every operation keeps the invariant. */
  lemma DoGood(v: Vault, op: Op, apply: Apply, content: ContentMap, exact: bool)
    requires Good(v, apply, content, exact) && Allowed(v, op, apply, content)
    ensures Good(Do(v, op, apply, content), apply, content, exact && StillExact(op))
  {
    hide StoreGood, CountsAgree, RecipeFits;
    match op
    case BackUp(file, chunks) => BackUpGood(v, file, chunks, apply, content, exact);
    case Drop(file) => DropGood(v, file, apply, content, exact);
    case CollectGarbage => CollectGood(v, apply, content, exact);
    case Compact(order) => CompactGood(v, order, apply, content, exact);
    case Reopen => ReopenGood(v, apply, content, exact);
    case InstallDeltas(order) => InstallGood(v, order, apply, content, exact);
    case PendDeltas(_, _, _) =>
    case Read(names) => ReadGood(v, names, apply, content, exact);
  }

  // ---- Runs ----

  ghost predicate RunAllowed(v: Vault, ops: seq<Op>, apply: Apply, content: ContentMap)
    decreases |ops|
  {
    ops == []
      || (Allowed(v, ops[0], apply, content) && RunAllowed(Do(v, ops[0], apply, content), ops[1..], apply, content))
  }

  ghost function Run(v: Vault, ops: seq<Op>, apply: Apply, content: ContentMap): Vault
    requires RunAllowed(v, ops, apply, content)
    decreases |ops|
  {
    if ops == [] then v else Run(Do(v, ops[0], apply, content), ops[1..], apply, content)
  }

  /** Every run keeps the invariant; container sizes stay exact until garbage is first collected. */
  lemma {:induction false} RunGood(v: Vault, ops: seq<Op>, apply: Apply, content: ContentMap, exact: bool)
    requires Good(v, apply, content, exact) && RunAllowed(v, ops, apply, content)
    ensures Good(Run(v, ops, apply, content), apply, content, exact && forall i :: 0 <= i < |ops| ==>
            StillExact(ops[i]))
    decreases |ops|
  {
    hide Good, Allowed, Do, StillExact;
    if ops != [] {
      DoGood(v, ops[0], apply, content, exact);
      RunGood(Do(v, ops[0], apply, content), ops[1..], apply, content, exact && StillExact(ops[0]));
      assert (forall i :: 0 <= i < |ops| ==> StillExact(ops[i]))
          == (StillExact(ops[0]) && forall i :: 0 <= i < |ops[1..]| ==> StillExact(ops[1..][i])) by {
        assert ops == [ops[0]] + ops[1..];
      }
    }
  }

  /** The run `ops` may be done from `v`, leads to `w`, and keeps the invariant. */
  ghost predicate Reaches(v: Vault, ops: seq<Op>, w: Vault, apply: Apply, content: ContentMap) {
    RunAllowed(v, ops, apply, content) && Run(v, ops, apply, content) == w && Good(w, apply, content, false)
  }

  lemma {:induction false} ReachesOneMore(v: Vault, ops: seq<Op>, u: Vault, op: Op, apply: Apply, content: ContentMap)
    requires Reaches(v, ops, u, apply, content) && Allowed(u, op, apply, content)
    ensures Reaches(v, ops + [op], Do(u, op, apply, content), apply, content)
    decreases |ops|
  {
    hide Allowed, Do, Good;
    DoGood(u, op, apply, content, false);
    var all, w := ops + [op], Do(u, op, apply, content);
    if ops == [] {
      assert all[0] == op && all[1..] == [];
      assert RunAllowed(w, [], apply, content) && Run(w, [], apply, content) == w;
    } else {
      assert all[0] == ops[0] && all[1..] == ops[1..] + [op];
      ReachesOneMore(Do(v, ops[0], apply, content), ops[1..], u, op, apply, content);
    }
  }

  predicate Touches(op: Op, file: Bytes) {
    (op.BackUp? && op.file == file) || (op.Drop? && op.file == file)
  }

  lemma DoKeepsRecipe(v: Vault, op: Op, apply: Apply, content: ContentMap, file: Bytes)
    requires Allowed(v, op, apply, content) && file in v.recipes && !Touches(op, file)
    ensures file in Do(v, op, apply, content).recipes && Do(v, op, apply, content).recipes[file] == v.recipes[file]
  {
    hide Allowed;
  }

  lemma {:induction false} RunKeepsRecipe(v: Vault, ops: seq<Op>, apply: Apply, content: ContentMap, file: Bytes)
    requires RunAllowed(v, ops, apply, content) && file in v.recipes
    requires forall i :: 0 <= i < |ops| ==> !Touches(ops[i], file)
    ensures file in Run(v, ops, apply, content).recipes && Run(v, ops, apply, content).recipes[file] == v.recipes[file]
    decreases |ops|
  {
    hide Allowed, Do, Touches;
    if ops != [] {
      DoKeepsRecipe(v, ops[0], apply, content, file);
      assert forall i :: 0 <= i < |ops[1..]| ==> ops[1..][i] == ops[i + 1];
      RunKeepsRecipe(Do(v, ops[0], apply, content), ops[1..], apply, content, file);
    }
  }

  ghost function Expected(e: RecipeEntry, content: ContentMap): RestoredChunk {
    RestoredChunk(e.chunkID, e.chunkHash, San(content(e.chunkHash)))
  }

  /** A good store restores every range of every recipe to the contents of its chunks. */
  lemma {:induction false} GoodRestoresRange(v: Vault, apply: Apply, content: ContentMap, exact: bool,
          rank: Bytes -> nat, file: Bytes, start: nat, end: nat)
    requires Good(v, apply, content, exact) && Ranked(ContentsOf(v.st), rank)
    requires file in v.recipes && start <= end <= |v.recipes[file]|
    ensures var out := RestoreRange(ContentsOf(v.st), apply, rank, v.recipes[file], start, end);
            |out| == end - start && forall i :: 0 <= i < end - start ==>
              out[i] == Expected(v.recipes[file][start + i], content)
    decreases end - start
  {
    hide StoreGood, Ranked, Restored, CountAgrees, ContentsOf, References;
    if start < end {
      var e := v.recipes[file][start];
      ReferencesHas(v.recipes, file, start);
      ReferencedIsKnown(v.st.index, e.chunkHash, RefsOf(v.recipes));
      GoodSound(v, apply, content, exact);
      GoodRestores(v.st, apply, content, exact, rank, e.chunkHash);
      assert RecipeFits(v.recipes[file], content);
      GoodRestoresRange(v, apply, content, exact, rank, file, start + 1, end);
      var rest := RestoreRange(ContentsOf(v.st), apply, rank, v.recipes[file], start + 1, end);
      assert RestoreRange(ContentsOf(v.st), apply, rank, v.recipes[file], start, end) == [Expected(e, content)] + rest;
    }
  }

  lemma GoodSound(v: Vault, apply: Apply, content: ContentMap, exact: bool)
    requires Good(v, apply, content, exact)
    ensures Sound(v.st) && StoreGood(v.st, apply, content, exact)
  {
  }

  /** The stored bytes of a plain chunk. */
  lemma PlainBytes(v: Vault, apply: Apply, content: ContentMap, h: Bytes)
    requires Good(v, apply, content, false) && h in v.st.index && v.st.index[h].deltaCount == 0
    ensures Sound(v.st) && ContentsOf(v.st)[h] == Content(San(content(h)), false)
  {
    hide Sound, Stored, Accounted, Catalogued, Sized, CountsAgree, Ranked, San;
    var rank :| Means(ContentsOf(v.st), apply, SanOf(content), rank);
    assert Decodes(ContentsOf(v.st)[h], h, v.st.index.Keys, apply, SanOf(content));
  }

  /** End to end: a file is backed up under a fresh path, then anything runs that neither backs up
      nor drops that path. Restoring any range of its recipe gives exactly those of its chunks, in
      order, with their NULs rewritten as on saving. */
  lemma EndToEnd(v: Vault, file: Bytes, chunks: seq<Chunk>, ops: seq<Op>, w: Vault, apply: Apply, content: ContentMap,
          exact: bool, rank: Bytes -> nat, start: nat, end: nat)
    requires Good(v, apply, content, exact) && file !in v.recipes
    requires RunAllowed(v, [BackUp(file, chunks)] + ops, apply, content)
    requires forall i :: 0 <= i < |ops| ==> !Touches(ops[i], file)
    requires w == Run(v, [BackUp(file, chunks)] + ops, apply, content)
    requires Sound(w.st) && Ranked(ContentsOf(w.st), rank) && start <= end <= |chunks|
    ensures file in w.recipes && |w.recipes[file]| == |chunks|
    ensures var out := RestoreRange(ContentsOf(w.st), apply, rank, w.recipes[file], start, end);
            && |out| == end - start
            && forall i :: 0 <= i < end - start ==>
                 out[i] == RestoredChunk(start + i, chunks[start + i].hash, San(chunks[start + i].data))
  {
    hide Good, Allowed, Do, Run, RunAllowed, Touches, Sound, Ranked, ContentsOf, San, RestoreRange, RecipeOf;
    BackedUp(v, file, chunks, ops, w, apply, content, exact);
    BackedUpRestores(w, file, chunks, apply, content, rank, start, end);
  }

  lemma BackedUpRestores(w: Vault, file: Bytes, chunks: seq<Chunk>, apply: Apply, content: ContentMap,
          rank: Bytes -> nat, start: nat, end: nat)
    requires Good(w, apply, content, false) && file in w.recipes && w.recipes[file] == RecipeOf(chunks)
    requires forall i :: 0 <= i < |chunks| ==> chunks[i].data == content(chunks[i].hash)
    requires Sound(w.st) && Ranked(ContentsOf(w.st), rank) && start <= end <= |chunks|
    ensures var out := RestoreRange(ContentsOf(w.st), apply, rank, w.recipes[file], start, end);
            && |out| == end - start
            && forall i :: 0 <= i < end - start ==>
                 out[i] == RestoredChunk(start + i, chunks[start + i].hash, San(chunks[start + i].data))
  {
    hide Good, Sound, Ranked, ContentsOf, San, RestoreRange;
    GoodRestoresRange(w, apply, content, false, rank, file, start, end);
  }

  /** After such a run the store is good, and the recipe still lists the chunks backed up. */
  lemma BackedUp(v: Vault, file: Bytes, chunks: seq<Chunk>, ops: seq<Op>, w: Vault, apply: Apply, content: ContentMap,
          exact: bool)
    requires Good(v, apply, content, exact) && file !in v.recipes
    requires RunAllowed(v, [BackUp(file, chunks)] + ops, apply, content)
    requires forall i :: 0 <= i < |ops| ==> !Touches(ops[i], file)
    requires w == Run(v, [BackUp(file, chunks)] + ops, apply, content)
    ensures Good(w, apply, content, false)
    ensures file in w.recipes && w.recipes[file] == RecipeOf(chunks)
    ensures forall i :: 0 <= i < |chunks| ==> chunks[i].data == content(chunks[i].hash)
  {
    hide StoreGood, CountsAgree, Do, Touches, StillExact;
    var all := [BackUp(file, chunks)] + ops;
    assert all[0] == BackUp(file, chunks) && all[1..] == ops;
    assert forall i :: 0 <= i < |chunks| ==> Storable(v.st, chunks[i], content);
    hide Allowed, AllStorable, Storable;
    BackUpRecipe(v, file, chunks, apply, content);
    RunGood(v, all, apply, content, exact);
    RunKeepsRecipe(Do(v, all[0], apply, content), ops, apply, content, file);
    InexactGood(w.st, apply, content, exact && forall i :: 0 <= i < |all| ==> StillExact(all[i]));
  }

  lemma BackUpRecipe(v: Vault, file: Bytes, chunks: seq<Chunk>, apply: Apply, content: ContentMap)
    requires Allowed(v, BackUp(file, chunks), apply, content) && file !in v.recipes
    ensures var v' := Do(v, BackUp(file, chunks), apply, content);
            file in v'.recipes && v'.recipes[file] == RecipeOf(chunks)
  {
    hide Allowed;
    assert [] + RecipeOf(chunks) == RecipeOf(chunks);
  }

  /** In every run all three sources agree: a read of any record returns its stored bytes from
      wherever it is served, and the cached container is a sealed one, equal to its file while that exists. */
  lemma RunReadsAgree(v: Vault, ops: seq<Op>, apply: Apply, content: ContentMap, exact: bool)
    requires Good(v, apply, content, exact) && RunAllowed(v, ops, apply, content)
    ensures var st := Run(v, ops, apply, content).st;
            && Sound(st) && Less(st.log.cacheName, st.log.openName)
            && (st.log.cacheName in st.log.files ==> st.log.cache == st.log.files[st.log.cacheName])
            && forall h :: h in st.index ==>
                 && Source(st.log, st.index[h].name) == Some(Body(st.log, st.index[h].name))
                 && Cut(st.index[h], Body(st.log, st.index[h].name)) == Stored(st)[h]
  {
    hide StoreGood, CountsAgree, RunAllowed, Run, Less;
    RunGood(v, ops, apply, content, exact);
    var w := Run(v, ops, apply, content);
    GoodSound(w, apply, content, exact && forall i :: 0 <= i < |ops| ==> StillExact(ops[i]));
    forall h | h in w.st.index
      ensures Source(w.st.log, w.st.index[h].name) == Some(Body(w.st.log, w.st.index[h].name))
    {
      SourcesAgree(w.st.log, w.st.index[h]);
    }
  }

  /** In every good store references are acyclic, so restoring ends. */
  lemma GoodHasRank(v: Vault, apply: Apply, content: ContentMap, exact: bool)
    requires Good(v, apply, content, exact)
    ensures Sound(v.st) && exists rank: Bytes -> nat :: Ranked(ContentsOf(v.st), rank)
  {
    hide Sound, Accounted, Catalogued, Ranked, Consistent, ContentsOf, CountsAgree;
    var rank :| Means(ContentsOf(v.st), apply, SanOf(content), rank);
    assert Ranked(ContentsOf(v.st), rank);
  }

  /** A store nothing has been saved to. */
  function Empty(name: Name, max: nat): Vault {
    Vault(Store(Log(max, map[], name, [], [], []), map[], map[]), map[], map[], map[], None)
  }

  /** The empty store is good. */
  lemma EmptyGood(apply: Apply, content: ContentMap, name: Name, max: nat)
    requires name != [] && max > 0
    ensures Good(Empty(name, max), apply, content, true)
  {
    var st := Empty(name, max).st;
    var rank: Bytes -> nat := _ => 0;
    assert Means(ContentsOf(st), apply, SanOf(content), rank);
    forall h ensures CountAgrees(st.index, h, RefsOf(map[])(h)) {
    }
  }
}
