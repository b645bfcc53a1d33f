/** The whole backup store over arbitrary runs: backups, deletions, collection, compaction,
    delta installs, and closing and reopening. */
module Vault {
  import opened Bytes
  import opened Names
  import opened Log
  import opened Store
  import opened Deltas
  import opened DeltaPass
  import opened RefCounts

  /** A chunk as the chunker hands it over. */
  datatype Chunk = Chunk(hash: Bytes, data: Bytes)

  /** The store, the recipes, and and the pending deltas with their container files
      and the configuration file of their container log. */
  datatype Vault = Vault(st: Store, recipes: Recipes, pending: Index, files: DeltaFiles, deltaConfig: Config)

  /** The hypothesis that fingerprints are injective on the chunks seen: each stands for one content. */
  type ContentMap = Bytes -> Bytes

  function SanOf(content: ContentMap): Meaning {
    h => San(content(h))
  }

  ghost predicate Meaningful(st: Store, apply: Apply, content: ContentMap)
    requires Sound(st)
  {
    exists rank :: Means(ContentsOf(st), apply, SanOf(content), rank)
  }

  /** No record is longer than the content its fingerprint stands for. */
  ghost predicate Sized(index: Index, content: ContentMap) {
    forall h :: h in index ==> index[h].length <= |content(h)|
  }

  /** The store is laid out soundly, knows the sizes of its containers, and restores every
      fingerprint to its content with NULs rewritten. */
  ghost predicate StoreGood(st: Store, apply: Apply, content: ContentMap, exact: bool) {
    && Sound(st) && WellKeyed(st.index) && Catalogued(st) && Accounted(st, exact) && Sized(st.index, content)
    && Meaningful(st, apply, content)
  }

  /** What restoring `h` returns in any good store. */
  lemma GoodRestores(st: Store, apply: Apply, content: ContentMap, exact: bool, rank: Bytes -> nat, h: Bytes)
    requires StoreGood(st, apply, content, exact) && Ranked(ContentsOf(st), rank) && h in st.index
    ensures Restored(ContentsOf(st), apply, rank, h) == San(content(h))
  {
    hide Sound, Accounted, Catalogued, WellKeyed, Ranked, Consistent, ContentsOf, San;
    var r :| Means(ContentsOf(st), apply, SanOf(content), r);
    ConsistentRestores(ContentsOf(st), apply, SanOf(content), rank, h);
  }

  // ---- Backup ----

  function DedupAll(st: Store, chunks: seq<Chunk>): Store
    decreases |chunks|
  {
    if chunks == [] then st
    else
      var last := chunks[|chunks| - 1];
      Dedup(DedupAll(st, chunks[..|chunks| - 1]), last.hash, last.data)
  }

  function RecipeOf(chunks: seq<Chunk>): (recipe: Recipe)
    ensures |recipe| == |chunks|
  {
    seq(|chunks|, i requires 0 <= i < |chunks| => RecipeEntry(i, |chunks[i].data|, chunks[i].hash))
  }

  /** The chunk fits a container and has the content its fingerprint stands for. */
  ghost predicate Storable(st: Store, c: Chunk, content: ContentMap) {
    |c.hash| == HASH_SIZE && c.data == content(c.hash) && |c.data| < st.log.max
  }

  /** The lookup does not miss a stored fingerprint because of a NUL. */
  predicate Findable(index: Index, c: Chunk) {
    NulFree(c.hash) || c.hash !in index
  }

  /** A sub-index with the same places and delta counts has the same contents. */
  ghost predicate SameButCounts(index': Index, index: Index) {
    forall h {:trigger index'[h]} :: h in index' ==> h in index && index'[h] == index[h].(count := index'[h].count)
  }

  lemma SubIndexContents(st: Store, index': Index)
    requires Sound(st) && SameButCounts(index', st.index)
    ensures Sound(st.(index := index'))
    ensures ContentsOf(st.(index := index')) == map h | h in index' :: ContentsOf(st)[h]
  {
    hide LaidOut, Coherent, Slots;
    assert SamePlaces(index', st.index);
    SamePlacesSlots(st.log, index', st.index);
  }

  lemma SubIndexAccounts(st: Store, index': Index, exact: bool)
    requires Accounted(st, exact) && Catalogued(st) && WellKeyed(st.index) && SamePlaces(index', st.index)
    requires exact ==> index'.Keys == st.index.Keys
    ensures Accounted(st.(index := index'), exact) && Catalogued(st.(index := index')) && WellKeyed(index')
  {
    hide LiveBytes;
    forall n { LiveBytesSub(index', st.index, n); }
  }

  lemma SubIndexMeans(st: Store, index': Index, apply: Apply, content: ContentMap)
    requires Sound(st) && Meaningful(st, apply, content) && SameButCounts(index', st.index)
    requires BasesKept(ContentsOf(st), index'.Keys)
    ensures Sound(st.(index := index')) && Meaningful(st.(index := index'), apply, content)
  {
    hide Sound, Means, SameButCounts, ContentsOf, BasesKept;
    var rank :| Means(ContentsOf(st), apply, SanOf(content), rank);
    SubIndexMeansWith(st, index', apply, content, rank);
  }

  lemma SubIndexMeansWith(st: Store, index': Index, apply: Apply, content: ContentMap, rank: Bytes -> nat)
    requires Sound(st) && Means(ContentsOf(st), apply, SanOf(content), rank) && SameButCounts(index', st.index)
    requires BasesKept(ContentsOf(st), index'.Keys)
    ensures Sound(st.(index := index'))
    ensures Means(ContentsOf(st.(index := index')), apply, SanOf(content), rank)
  {
    hide Sound, Stored, Means, LaidOut, SamePlaces;
    SubIndexContents(st, index');
    hide SameButCounts, ContentsOf;
    SubContentsMean(ContentsOf(st), ContentsOf(st.(index := index')), apply, SanOf(content), rank);
  }

  /** Counting and dropping references keeps a store good, as long as no delta loses its base. */
  lemma SubIndexGood(st: Store, index': Index, apply: Apply, content: ContentMap, exact: bool)
    requires StoreGood(st, apply, content, exact) && SameButCounts(index', st.index)
    requires exact ==> index'.Keys == st.index.Keys
    requires BasesKept(ContentsOf(st), index'.Keys)
    ensures StoreGood(st.(index := index'), apply, content, exact)
  {
    hide Sound, Accounted, Catalogued, WellKeyed, Meaningful, ContentsOf;
    assert SamePlaces(index', st.index);
    SubIndexAccounts(st, index', exact);
    SubIndexMeans(st, index', apply, content);
  }

  lemma GoodHasBases(st: Store, apply: Apply, content: ContentMap, keys: set<Bytes>)
    requires Sound(st) && Meaningful(st, apply, content) && st.index.Keys <= keys
    ensures BasesKept(ContentsOf(st), keys)
  {
    hide Sound, Consistent, Ranked;
    var rank :| Means(ContentsOf(st), apply, SanOf(content), rank);
    ConsistentHasBases(ContentsOf(st), apply, SanOf(content));
  }

  ghost predicate BasesKept(cs: Contents, keys: set<Bytes>) {
    forall h :: h in cs && h in keys && cs[h].delta ==> |cs[h].bytes| >= HASH_SIZE && Base(cs[h].bytes) in keys
  }

  lemma SubContentsMean(cs: Contents, cs': Contents, apply: Apply, meaning: Meaning, rank: Bytes -> nat)
    requires Means(cs, apply, meaning, rank)
    requires cs'.Keys <= cs.Keys && forall h :: h in cs' ==> cs'[h] == cs[h]
    requires BasesKept(cs, cs'.Keys)
    ensures Means(cs', apply, meaning, rank)
  {
    forall h | h in cs' ensures Decodes(cs'[h], h, cs'.Keys, apply, meaning) && RankedAt(cs'[h], h, rank) {
      assert Decodes(cs[h], h, cs.Keys, apply, meaning) && RankedAt(cs[h], h, rank);
    }
  }

  lemma ConsistentHasBases(cs: Contents, apply: Apply, meaning: Meaning)
    requires Consistent(cs, apply, meaning)
    ensures BasesPresent(cs)
  {
    forall h | h in cs && cs[h].delta ensures |cs[h].bytes| >= HASH_SIZE && Base(cs[h].bytes) in cs {
      assert Decodes(cs[h], h, cs.Keys, apply, meaning);
    }
  }

  // ---- One deduplicating step ----

  lemma DedupGood(st: Store, c: Chunk, apply: Apply, content: ContentMap, exact: bool, n: nat)
    requires StoreGood(st, apply, content, exact) && Storable(st, c, content) && Findable(st.index, c)
    requires Ready(st, n + 1)
    ensures StoreGood(Dedup(st, c.hash, c.data), apply, content, exact) && Ready(Dedup(st, c.hash, c.data), n)
    ensures Dedup(st, c.hash, c.data).log.max == st.log.max
  {
    CKeyFaithfulExactlyWithoutNul(c.hash);
    hide Sound, Accounted, Catalogued, Meaningful, ContentsOf, Room, CKey, San, SaveChunk;
    if c.hash in st.index {
      assert CKey(c.hash) == c.hash;
      GoodHasBases(st, apply, content, st.index.Keys);
      SubIndexGood(st, Referenced(st.index, c.hash), apply, content, exact);
      RoomShrinks(st.log.openName, n + 1, n);
    } else {
      assert CKey(c.hash) !in st.index;
      SaveNewGood(st, c, apply, content, exact, n);
    }
  }

  lemma SaveNewGood(st: Store, c: Chunk, apply: Apply, content: ContentMap, exact: bool, n: nat)
    requires StoreGood(st, apply, content, exact) && Storable(st, c, content) && c.hash !in st.index
    requires Ready(st, n + 1)
    ensures StoreGood(SaveChunk(st, c.hash, c.data), apply, content, exact) && Ready(SaveChunk(st, c.hash, c.data), n)
    ensures SaveChunk(st, c.hash, c.data).log.max == st.log.max
  {
    hide Sound, Accounted, Meaningful, ContentsOf, Room, San, LiveBytes;
    SaveChunkReady(st, c.hash, c.data, n);
    SaveChunkAccounts(st, c.hash, c.data, exact);
    SaveNewMeans(st, c, apply, content, n);
  }

  lemma SaveNewContents(st: Store, c: Chunk, n: nat)
    requires Ready(st, n + 1) && c.hash !in st.index && |c.data| < st.log.max
    ensures Sound(SaveChunk(st, c.hash, c.data))
    ensures ContentsOf(SaveChunk(st, c.hash, c.data)) == ContentsOf(st)[c.hash := Content(San(c.data), false)]
  {
    hide Sound, Room, San, Stored, Append, SizesAfter;
    SaveChunkReady(st, c.hash, c.data, n);
    SaveChunkStores(st, c.hash, c.data);
    assert Taken(c.data, |c.data|) == c.data;
  }

  lemma SaveNewMeans(st: Store, c: Chunk, apply: Apply, content: ContentMap, n: nat)
    requires Sound(st) && Meaningful(st, apply, content) && Storable(st, c, content) && c.hash !in st.index
    requires Ready(st, n + 1)
    ensures Sound(SaveChunk(st, c.hash, c.data)) && Meaningful(SaveChunk(st, c.hash, c.data), apply, content)
  {
    hide Sound, Means, Room, San, ContentsOf, SaveChunk, Ready;
    var rank :| Means(ContentsOf(st), apply, SanOf(content), rank);
    SaveNewMeansWith(st, c, apply, content, n, rank);
  }

  /** A new chunk is plain, so any ranking is still one. */
  lemma SaveNewMeansWith(st: Store, c: Chunk, apply: Apply, content: ContentMap, n: nat, rank: Bytes -> nat)
    requires Sound(st) && Means(ContentsOf(st), apply, SanOf(content), rank)
    requires Storable(st, c, content) && c.hash !in st.index && Ready(st, n + 1)
    ensures Sound(SaveChunk(st, c.hash, c.data))
    ensures Means(ContentsOf(SaveChunk(st, c.hash, c.data)), apply, SanOf(content), rank)
  {
    hide Sound, Means, Room, San, ContentsOf, SaveChunk, Ready;
    SaveNewContents(st, c, n);
    MeansWith(ContentsOf(st), c.hash, Content(San(c.data), false), apply, SanOf(content), rank);
  }
}
