/** Reference counting: recipes, the deduplicating step of a backup, chunk deletion and `GC`. */
module RefCounts {
  import opened Bytes
  import opened Log
  import opened Store

  datatype RecipeEntry = RecipeEntry(chunkID: nat, chunkSize: nat, chunkHash: Bytes)

  type Recipe = seq<RecipeEntry>

  type Recipes = map<Bytes, Recipe>

  /** How often `h` occurs in a recipe. */
  ghost function Occurrences(recipe: Recipe, h: Bytes): nat {
    if recipe == [] then 0
    else Occurrences(recipe[..|recipe| - 1], h) + if recipe[|recipe| - 1].chunkHash == h then 1 else 0
  }

  /** How often `h` occurs over all stored recipes. */
  ghost function References(recipes: Recipes, h: Bytes): nat {
    if recipes == map[] then 0
    else
      var f :| f in recipes;
      Occurrences(recipes[f], h) + References(recipes - {f}, h)
  }

  lemma {:induction false} ReferencesWithout(recipes: Recipes, f: Bytes, h: Bytes)
    requires f in recipes
    ensures References(recipes, h) == Occurrences(recipes[f], h) + References(recipes - {f}, h)
    decreases |recipes|
  {
    hide Occurrences;
    var g :| g in recipes && References(recipes, h) == Occurrences(recipes[g], h) + References(recipes - {g}, h);
    if g != f {
      ReferencesWithout(recipes - {g}, f, h);
      ReferencesWithout(recipes - {f}, g, h);
      assert recipes - {g} - {f} == recipes - {f} - {g};
    }
  }

  lemma ReferencesWith(recipes: Recipes, f: Bytes, recipe: Recipe, h: Bytes)
    ensures References(recipes[f := recipe], h) + (if f in recipes then Occurrences(recipes[f], h) else 0)
         == References(recipes, h) + Occurrences(recipe, h)
  {
    hide Occurrences, References;
    ReferencesWithout(recipes[f := recipe], f, h);
    assert recipes[f := recipe] - {f} == recipes - {f};
    if f in recipes {
      ReferencesWithout(recipes, f, h);
    } else {
      assert recipes - {f} == recipes;
    }
  }

  lemma {:induction false} OccurrencesAppend(r: Recipe, s: Recipe, h: Bytes)
    ensures Occurrences(r + s, h) == Occurrences(r, h) + Occurrences(s, h)
  {
    if s == [] {
      assert r + s == r;
    } else {
      OccurrencesAppend(r, s[..|s| - 1], h);
      assert (r + s)[..|r + s| - 1] == r + s[..|s| - 1];
    }
  }

  lemma {:induction false} OccurrencesHas(r: Recipe, i: nat)
    requires i < |r|
    ensures Occurrences(r, r[i].chunkHash) > 0
  {
    if i < |r| - 1 {
      OccurrencesHas(r[..|r| - 1], i);
    }
  }

  lemma ReferencesHas(recipes: Recipes, f: Bytes, i: nat)
    requires f in recipes && i < |recipes[f]|
    ensures References(recipes, recipes[f][i].chunkHash) > 0
  {
    ReferencesWithout(recipes, f, recipes[f][i].chunkHash);
    OccurrencesHas(recipes[f], i);
  }

  /** Counts are 32-bit and wrap. */
  function Inc(count: nat): nat {
    (count + 1) % U32
  }

  function Dec(count: nat): nat {
    (count + U32 - 1) % U32
  }

  type Refs = Bytes -> nat

  ghost predicate CountAgrees(index: Index, h: Bytes, refs: nat) {
    if h in index then index[h].count == refs % U32 else refs == 0
  }

  /** Every count is the number of references modulo 2^32, and nothing unknown is referenced. */
  ghost predicate CountsAgree(index: Index, refs: Refs) {
    forall h :: CountAgrees(index, h, refs(h))
  }

  /** The references `refs` and one more to `h`. */
  ghost function OneMore(refs: Refs, h: Bytes): Refs {
    g => refs(g) + if g == h then 1 else 0
  }

  ghost function RefsPlus(refs: Refs, recipe: Recipe): Refs {
    g => refs(g) + Occurrences(recipe, g)
  }

  ghost predicate WellKeyed(index: Index) {
    forall h :: h in index ==> |h| == HASH_SIZE
  }

  /** One more reference to a chunk already stored. */
  function Referenced(index: Index, h: Bytes): Index
    requires h in index
  {
    index[h := index[h].(count := Inc(index[h].count))]
  }

  /** The deduplicating step: the fingerprint is looked up as a C string; if that finds a record its
      count goes up, otherwise the chunk is saved under the whole fingerprint. */
  function Dedup(st: Store, h: Bytes, data: Bytes): Store {
    if CKey(h) in st.index then st.(index := Referenced(st.index, CKey(h))) else SaveChunk(st, h, data)
  }

  lemma CountWith(index: Index, h: Bytes, e: Entry, refs: Refs)
    requires CountsAgree(index, refs)
    ensures CountsAgree(index[h := e], OneMore(refs, h)) <==> e.count == (refs(h) + 1) % U32
  {
    var index', refs' := index[h := e], OneMore(refs, h);
    assert CountAgrees(index', h, refs'(h)) <==> e.count == (refs(h) + 1) % U32;
    forall g | g != h ensures CountAgrees(index', g, refs'(g)) {
      assert CountAgrees(index, g, refs(g));
    }
  }

  /** The record `h` gets: counted once more if the lookup finds it, kept if it does not. */
  lemma DedupRecord(st: Store, h: Bytes, data: Bytes)
    requires WellKeyed(st.index) && |h| == HASH_SIZE
    ensures h in Dedup(st, h, data).index && Dedup(st, h, data).index == st.index[h := Dedup(st, h, data).index[h]]
    ensures Dedup(st, h, data).index[h].count
         == if h !in st.index then 1 else if NulFree(h) then Inc(st.index[h].count) else st.index[h].count
  {
    hide Append, Payload, SizesAfter, Placed, SaveChunk, NulFree, CKey;
    CKeyFaithfulExactlyWithoutNul(h);
    SaveChunkCount(st, h, data);
  }

  /** The step counts the new reference exactly when the fingerprint has no NUL or is new to the
      store: a stored fingerprint containing a NUL is never found, and its count stays behind. */
  lemma DedupCountsExactly(st: Store, h: Bytes, data: Bytes, refs: Refs)
    requires WellKeyed(st.index) && |h| == HASH_SIZE && CountsAgree(st.index, refs)
    ensures CountsAgree(Dedup(st, h, data).index, OneMore(refs, h)) <==> NulFree(h) || h !in st.index
  {
    hide Dedup, NulFree;
    DedupRecord(st, h, data);
    CountWith(st.index, h, Dedup(st, h, data).index[h], refs);
    assert CountAgrees(st.index, h, refs(h));
  }

  lemma SaveChunkCount(st: Store, h: Bytes, data: Bytes)
    ensures SaveChunk(st, h, data).index == st.index[h := SaveChunk(st, h, data).index[h]]
    ensures SaveChunk(st, h, data).index[h].count == Key(st.index, h, |data|).count
    ensures SaveChunk(st, h, data).index[h].deltaCount == Key(st.index, h, |data|).deltaCount
  {
  }

  // ---- Deletion and collection ----

  /** One reference less; an unknown fingerprint is left unknown. */
  function DeleteChunk(index: Index, h: Bytes): Index {
    if h in index then index[h := index[h].(count := Dec(index[h].count))] else index
  }

  lemma DeleteChunkCounts(index: Index, h: Bytes, refs: Refs)
    requires CountsAgree(index, OneMore(refs, h))
    ensures h in index && CountsAgree(DeleteChunk(index, h), refs)
  {
    assert CountAgrees(index, h, OneMore(refs, h)(h));
    forall g ensures CountAgrees(DeleteChunk(index, h), g, refs(g)) {
      assert CountAgrees(index, g, OneMore(refs, h)(g));
    }
  }

  /** Deletes the chunks of recipe entries one by one. */
  function DeleteAll(index: Index, recipe: Recipe): (index': Index)
    ensures index'.Keys == index.Keys
    decreases |recipe|
  {
    if recipe == [] then index
    else DeleteChunk(DeleteAll(index, recipe[..|recipe| - 1]), recipe[|recipe| - 1].chunkHash)
  }

  lemma {:induction false} DeleteAllCounts(index: Index, recipe: Recipe, refs: Refs)
    requires CountsAgree(index, RefsPlus(refs, recipe))
    ensures forall i :: 0 <= i < |recipe| ==> recipe[i].chunkHash in index
    ensures CountsAgree(DeleteAll(index, recipe), refs)
    decreases |recipe|
  {
    hide CountAgrees, DeleteChunk;
    forall i | 0 <= i < |recipe| ensures recipe[i].chunkHash in index {
      OccurrencesHas(recipe, i);
      ReferencedIsKnown(index, recipe[i].chunkHash, RefsPlus(refs, recipe));
    }
    if recipe != [] {
      var last := recipe[|recipe| - 1].chunkHash;
      var refs1 := RefsPlus(OneMore(refs, last), recipe[..|recipe| - 1]);
      forall g ensures CountAgrees(index, g, refs1(g)) {
        assert CountAgrees(index, g, RefsPlus(refs, recipe)(g));
        assert Occurrences(recipe, g) == Occurrences(recipe[..|recipe| - 1], g) + if last == g then 1 else 0;
      }
      DeleteAllCounts(index, recipe[..|recipe| - 1], OneMore(refs, last));
      DeleteChunkCounts(DeleteAll(index, recipe[..|recipe| - 1]), last, refs);
    } else {
      forall g ensures CountAgrees(index, g, refs(g)) {
        assert CountAgrees(index, g, RefsPlus(refs, recipe)(g));
      }
    }
  }

  /** A recipe is dropped whole, whatever range of its entries was deleted: the counts of what stays
      are right exactly if the range was the whole recipe (which has fewer than 2^32 entries). */
  lemma PartialDropExactly(index: Index, refs: Refs, recipe: Recipe, start: nat, end: nat)
    requires CountsAgree(index, RefsPlus(refs, recipe)) && start <= end <= |recipe| < U32
    ensures CountsAgree(DeleteAll(index, recipe[start..end]), refs) <==> start == 0 && end == |recipe|
  {
    hide DeleteAll, CountAgrees, Occurrences;
    var before, range, after := recipe[..start], recipe[start..end], recipe[end..];
    var refs' := RefsPlus(refs, before + after);
    forall h ensures CountAgrees(index, h, RefsPlus(refs', range)(h)) {
      assert recipe == before + range + after;
      OccurrencesAppend(before + range, after, h);
      OccurrencesAppend(before, range, h);
      OccurrencesAppend(before, after, h);
      assert CountAgrees(index, h, RefsPlus(refs, recipe)(h));
    }
    DeleteAllCounts(index, range, refs');
    LeftCounted(DeleteAll(index, range), refs, before + after);
  }

  /** Counts that include a recipe agree without it only if it has no entries. */
  lemma LeftCounted(index: Index, refs: Refs, recipe: Recipe)
    requires CountsAgree(index, RefsPlus(refs, recipe)) && |recipe| < U32
    ensures CountsAgree(index, refs) <==> recipe == []
  {
    if recipe == [] {
      forall h ensures CountAgrees(index, h, refs(h)) {
        assert CountAgrees(index, h, RefsPlus(refs, recipe)(h));
      }
    } else {
      var h := recipe[0].chunkHash;
      OccurrencesHas(recipe, 0);
      OccurrencesBounded(recipe, h);
      assert CountAgrees(index, h, RefsPlus(refs, recipe)(h));
      SumDiffers(refs(h), Occurrences(recipe, h));
      assert !CountAgrees(index, h, refs(h));
    }
  }

  lemma {:induction false} OccurrencesBounded(recipe: Recipe, h: Bytes)
    ensures Occurrences(recipe, h) <= |recipe|
  {
    if recipe != [] {
      OccurrencesBounded(recipe[..|recipe| - 1], h);
    }
  }

  lemma SumDiffers(a: nat, b: nat)
    requires 0 < b < U32
    ensures (a + b) % U32 != a % U32
  {
  }

  lemma ReferencedIsKnown(index: Index, h: Bytes, refs: Refs)
    requires CountsAgree(index, refs) && refs(h) > 0
    ensures h in index
  {
    assert CountAgrees(index, h, refs(h));
  }

  /** Only counts change. */
  lemma {:induction false} DeleteAllPlaces(index: Index, recipe: Recipe, h: Bytes)
    requires h in index
    ensures DeleteAll(index, recipe)[h] == index[h].(count := DeleteAll(index, recipe)[h].count)
    decreases |recipe|
  {
    if recipe != [] {
      DeleteAllPlaces(index, recipe[..|recipe| - 1], h);
    }
  }

  /** `GC`: the entries whose count is zero are dropped. */
  function Collect(index: Index): Index {
    map h | h in index && index[h].count != 0 :: index[h]
  }

  /** Collection removes exactly the unreferenced entries, and counting goes on from there,
      exactly when no chunk has a positive multiple of 2^32 references. */
  lemma CollectRemovesExactlyUnreferenced(index: Index, refs: Refs)
    requires CountsAgree(index, refs)
    ensures CountsAgree(Collect(index), refs) <==> forall h :: refs(h) > 0 ==> refs(h) % U32 != 0
    ensures CountsAgree(Collect(index), refs) ==> forall h :: h in index ==> (h in Collect(index) <==> refs(h) > 0)
  {
    forall h ensures CountAgrees(Collect(index), h, refs(h)) <==> (refs(h) > 0 ==> refs(h) % U32 != 0) {
      assert CountAgrees(index, h, refs(h));
    }
  }

  /** Where it goes wrong: after 2^32 references the count is 0 again, and the chunk is collected. */
  lemma WrappedCountIsLost(h: Bytes, e: Entry)
    ensures var index: Index, refs: Refs := map[h := e.(count := 0)], g => if g == h then U32 else 0;
            CountsAgree(index, refs) && refs(h) > 0 && h !in Collect(index)
  {
  }

  /** What the missed lookup leads to: a fingerprint with a NUL, backed up twice and dropped once, is
      collected although it is still referenced. */
  lemma NulFingerprintIsLost(st: Store, h: Bytes, data: Bytes)
    requires WellKeyed(st.index) && |h| == HASH_SIZE && !NulFree(h) && h !in st.index
    ensures var twice := Dedup(Dedup(st, h, data), h, data);
            h in twice.index && h !in Collect(DeleteChunk(twice.index, h))
  {
    hide Dedup, NulFree;
    DedupRecord(st, h, data);
    DedupRecord(Dedup(st, h, data), h, data);
  }
}
