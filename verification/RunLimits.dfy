/** What the hypotheses on runs amount to: runs that need them, runs that fail without them, and
    when exactly they hold. */
module RunLimits {
  import opened Bytes
  import opened Names
  import opened Log
  import opened Store
  import opened Deltas
  import opened DeltaPass
  import opened RefCounts
  import opened Compaction
  import opened Vault
  import opened Runs

  // ---- Compaction and deltas ----

  /** Only deltas can make compaction lossy: plain chunks have been rewritten before. */
  lemma MovesCleanlyExactly(st: Store, apply: Apply, content: ContentMap, exact: bool)
    requires StoreGood(st, apply, content, exact)
    ensures MovesCleanly(st) <==>
            forall h :: IsDoomed(st, h) && st.index[h].deltaCount > 0 ==> Clean(Stored(st)[h])
  {
    hide Sound, Accounted, Catalogued, WellKeyed, Sized, Ranked, Clean, Stored;
    var rank :| Means(ContentsOf(st), apply, SanOf(content), rank);
    forall h | h in st.index && st.index[h].deltaCount == 0 ensures Clean(Stored(st)[h]) {
      assert Decodes(ContentsOf(st)[h], h, st.index.Keys, apply, SanOf(content));
      SanFixesExactlyClean(content(h));
    }
  }

  // ---- Fingerprints with a NUL ----

  /** A known chunk whose fingerprint has a NUL is saved again, over its record: a delta keeps its
      length and stays marked as one, but its bytes become the beginning of the raw chunk. */
  lemma ResavedContents(st: Store, c: Chunk, apply: Apply, content: ContentMap, exact: bool)
    requires StoreGood(st, apply, content, exact) && |c.hash| == HASH_SIZE && c.data == content(c.hash)
    requires Ready(st, 1) && c.hash in st.index && !NulFree(c.hash)
    ensures st.index[c.hash].length <= |c.data| && Sound(Dedup(st, c.hash, c.data))
    ensures ContentsOf(Dedup(st, c.hash, c.data))
         == ContentsOf(st)[c.hash := Content(San(c.data[..st.index[c.hash].length]), st.index[c.hash].deltaCount > 0)]
  {
    CKeyFaithfulExactlyWithoutNul(c.hash);
    hide Sound, Accounted, Catalogued, Meaningful, Room, CKey, SaveChunk, Stored, San;
    ReadBackKeeps(st, c.hash);
    SaveChunkReady(st, c.hash, c.data, 0);
    SaveChunkStores(st, c.hash, c.data);
    SaveChunkCount(st, c.hash, c.data);
  }

  /** Backing up a known chunk again leaves all contents alone exactly if its fingerprint has no NUL, or
      it is stored plain, or it is stored as a delta that reads like the beginning of the chunk. */
  lemma DedupKeepsContentsExactly(st: Store, c: Chunk, apply: Apply, content: ContentMap, exact: bool)
    requires StoreGood(st, apply, content, exact) && Storable(st, c, content) && c.hash in st.index
    requires Ready(st, 1)
    ensures Sound(Dedup(st, c.hash, c.data)) && st.index[c.hash].length <= |c.data|
    ensures ContentsOf(Dedup(st, c.hash, c.data)) == ContentsOf(st) <==>
            || NulFree(c.hash) || st.index[c.hash].deltaCount == 0
            || Stored(st)[c.hash] == San(c.data[..st.index[c.hash].length])
  {
    CKeyFaithfulExactlyWithoutNul(c.hash);
    hide Sound, Accounted, Catalogued, Meaningful, Room, CKey, SaveChunk, Stored, San;
    if NulFree(c.hash) {
      assert SameButCounts(Referenced(st.index, c.hash), st.index);
      SubIndexContents(st, Referenced(st.index, c.hash));
    } else {
      ResavedContents(st, c, apply, content, exact);
      if st.index[c.hash].deltaCount == 0 {
        PlainPayload(st, c, apply, content, exact);
      }
    }
  }

  lemma PlainPayload(st: Store, c: Chunk, apply: Apply, content: ContentMap, exact: bool)
    requires StoreGood(st, apply, content, exact) && Storable(st, c, content)
    requires c.hash in st.index && st.index[c.hash].deltaCount == 0
    ensures Stored(st)[c.hash] == Payload(st, c.hash, c.data)
  {
    hide Sound, Stored, Accounted, Catalogued, WellKeyed, Sized, Ranked, San;
    var rank :| Means(ContentsOf(st), apply, SanOf(content), rank);
    assert Decodes(ContentsOf(st)[c.hash], c.hash, st.index.Keys, apply, SanOf(content));
    StoredLength(st, c.hash);
    assert Taken(c.data, |c.data|) == c.data;
  }

  lemma StoredLength(st: Store, h: Bytes)
    requires Sound(st) && h in st.index
    ensures |Stored(st)[h]| == st.index[h].length
  {
    HeldAt(st, h);
  }

  // ---- Collection and bases ----

  ghost predicate DeltaOn(cs: Contents, h: Bytes, base: Bytes) {
    h in cs && cs[h].delta && |cs[h].bytes| >= HASH_SIZE && Base(cs[h].bytes) == base
  }

  /** Every referenced delta's base is itself referenced. */
  ghost predicate BasesReferenced(cs: Contents, refs: Refs) {
    forall h, base :: DeltaOn(cs, h, base) && refs(h) > 0 ==> refs(base) > 0
  }

  lemma KeptByReferences(cs: Contents, keys: set<Bytes>, refs: Refs)
    requires BasesKept(cs, cs.Keys) && forall h :: h in keys <==> refs(h) > 0
    ensures BasesKept(cs, keys) <==> BasesReferenced(cs, refs)
  {
    hide Base;
    if BasesReferenced(cs, refs) {
      forall h | h in cs && h in keys && cs[h].delta ensures |cs[h].bytes| >= HASH_SIZE && Base(cs[h].bytes) in keys {
        assert DeltaOn(cs, h, Base(cs[h].bytes));
      }
    }
  }

  lemma KeptIsReferenced(v: Vault, apply: Apply, content: ContentMap, exact: bool)
    requires Good(v, apply, content, exact) && forall h :: References(v.recipes, h) < U32
    ensures Sound(v.st) && BasesKept(ContentsOf(v.st), v.st.index.Keys)
    ensures forall h :: h in Collect(v.st.index) <==> References(v.recipes, h) > 0
  {
    hide StoreGood, RecipeFits, References, CountAgrees, ContentsOf, BasesKept;
    GoodSound(v, apply, content, exact);
    CollectRemovesExactlyUnreferenced(v.st.index, RefsOf(v.recipes));
    forall h ensures h in Collect(v.st.index) <==> References(v.recipes, h) > 0 {
      if References(v.recipes, h) > 0 {
        ReferencedIsKnown(v.st.index, h, RefsOf(v.recipes));
      }
    }
    GoodKeepsBases(v.st, apply, content, exact);
  }

  lemma GoodKeepsBases(st: Store, apply: Apply, content: ContentMap, exact: bool)
    requires StoreGood(st, apply, content, exact)
    ensures Sound(st) && BasesKept(ContentsOf(st), st.index.Keys)
  {
    hide Sound, Accounted, Catalogued, WellKeyed, Sized, Meaningful, BasesKept;
    GoodHasBases(st, apply, content, st.index.Keys);
  }

  /** Collection keeps the base of every delta exactly if every referenced delta's base is itself
      referenced: a delta holds no reference to its base. */
  lemma BasesKeptExactly(v: Vault, apply: Apply, content: ContentMap, exact: bool)
    requires Good(v, apply, content, exact) && forall h :: References(v.recipes, h) < U32
    ensures Sound(v.st)
    ensures BasesKept(ContentsOf(v.st), Collect(v.st.index).Keys) <==>
            BasesReferenced(ContentsOf(v.st), RefsOf(v.recipes))
  {
    KeptIsReferenced(v, apply, content, exact);
    hide Good, Sound, Stored, References, Collect, BasesKept, BasesReferenced;
    KeptByReferences(ContentsOf(v.st), Collect(v.st.index).Keys, RefsOf(v.recipes));
  }

  /** What happens otherwise: a delta whose base has been collected is applied to nothing. */
  lemma CollectedBaseIsLost(v: Vault, apply: Apply, content: ContentMap, exact: bool, h: Bytes, base: Bytes,
          rank: Bytes -> nat)
    requires Good(v, apply, content, exact) && forall g :: References(v.recipes, g) < U32
    requires Sound(v.st) && DeltaOn(ContentsOf(v.st), h, base)
    requires References(v.recipes, h) > 0 && References(v.recipes, base) == 0
    ensures var st' := v.st.(index := Collect(v.st.index));
            && Sound(st') && h in st'.index
            && (Ranked(ContentsOf(st'), rank) ==>
              Restored(ContentsOf(st'), apply, rank, h) == apply([], ContentsOf(v.st)[h].bytes[HASH_SIZE..]))
  {
    hide Good, Sound, ContentsOf, References, SameButCounts, Ranked, DeltaOn, Restored, Collect;
    KeptIsReferenced(v, apply, content, exact);
    CollectContents(v.st);
    if Ranked(ContentsOf(v.st.(index := Collect(v.st.index))), rank) {
      LostBase(ContentsOf(v.st), ContentsOf(v.st.(index := Collect(v.st.index))), apply, h, base, rank);
    }
  }

  lemma CollectContents(st: Store)
    requires Sound(st)
    ensures var st' := st.(index := Collect(st.index));
            && Sound(st') && ContentsOf(st').Keys == Collect(st.index).Keys
            && forall h :: h in ContentsOf(st') ==> h in ContentsOf(st) && ContentsOf(st')[h] == ContentsOf(st)[h]
  {
    hide Sound, Stored;
    assert SameButCounts(Collect(st.index), st.index);
    SubIndexContents(st, Collect(st.index));
  }

  lemma LostBase(cs: Contents, cs': Contents, apply: Apply, h: Bytes, base: Bytes, rank: Bytes -> nat)
    requires Ranked(cs', rank) && DeltaOn(cs, h, base) && h in cs' && cs'[h] == cs[h] && base !in cs'
    ensures Restored(cs', apply, rank, h) == apply([], cs[h].bytes[HASH_SIZE..])
  {
  }
}
