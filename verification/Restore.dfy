/** Restoring a range of a recipe. */
module Restore {
  import opened Bytes
  import opened Deltas
  import opened RefCounts

  datatype RestoredChunk = RestoredChunk(chunkID: nat, chunkHash: Bytes, data: Bytes)

  /** The entry can be restored, to bytes of the recorded size. */
  ghost predicate Restorable(cs: Contents, apply: Apply, rank: Bytes -> nat, e: RecipeEntry)
    requires Ranked(cs, rank)
  {
    e.chunkHash in cs && |Restored(cs, apply, rank, e.chunkHash)| == e.chunkSize
  }

  ghost function RestoredEntry(cs: Contents, apply: Apply, rank: Bytes -> nat, e: RecipeEntry): RestoredChunk
    requires Ranked(cs, rank) && Restorable(cs, apply, rank, e)
  {
    RestoredChunk(e.chunkID, e.chunkHash, Restored(cs, apply, rank, e.chunkHash))
  }

  /** The chunks of entries `[start, end)`, up to the first that cannot be restored. */
  ghost function RestoreRange(cs: Contents, apply: Apply, rank: Bytes -> nat, recipe: Recipe, start: nat,
          end: nat): (out: seq<RestoredChunk>)
    requires Ranked(cs, rank) && start <= end <= |recipe|
    ensures |out| <= end - start
    decreases end - start
  {
    if start == end || !Restorable(cs, apply, rank, recipe[start]) then []
    else [RestoredEntry(cs, apply, rank, recipe[start])] + RestoreRange(cs, apply, rank, recipe, start + 1, end)
  }

  /** The range is restored entry by entry, to the decoded bytes, as far as fingerprints are known and their bytes
      have the recorded size; it stops at the first entry for which this fails. */
  lemma {:induction false} RestoresUpToFailure(
    cs: Contents, apply: Apply, rank: Bytes -> nat, recipe: Recipe, start: nat, end: nat, i: nat
  )
    requires Ranked(cs, rank) && start <= end <= |recipe| && start + i < end
    ensures var out, e := RestoreRange(cs, apply, rank, recipe, start, end), recipe[start + i];
            && (i < |out| ==>
                  && e.chunkHash in cs && |Restored(cs, apply, rank, e.chunkHash)| == e.chunkSize
                  && out[i] == RestoredChunk(e.chunkID, e.chunkHash, Restored(cs, apply, rank, e.chunkHash)))
            && (i == |out| && e.chunkHash in cs ==> |Restored(cs, apply, rank, e.chunkHash)| != e.chunkSize)
    decreases i
  {
    hide Ranked, Restored;
    if i > 0 && Restorable(cs, apply, rank, recipe[start]) {
      RestoresUpToFailure(cs, apply, rank, recipe, start + 1, end, i - 1);
    }
  }

  lemma RestoreNone(cs: Contents, apply: Apply, rank: Bytes -> nat, recipe: Recipe, end: nat)
    requires Ranked(cs, rank) && end <= |recipe|
    ensures RestoreRange(cs, apply, rank, recipe, end, end) == []
  {
  }

  /** `done` followed by the rest of the range is the same after one more entry. */
  lemma RestoreOneMore(cs: Contents, apply: Apply, rank: Bytes -> nat, recipe: Recipe, i: nat, end: nat,
          done: seq<RestoredChunk>)
    requires Ranked(cs, rank) && i < end <= |recipe|
    ensures !Restorable(cs, apply, rank, recipe[i]) ==> done + RestoreRange(cs, apply, rank, recipe, i, end) == done
    ensures Restorable(cs, apply, rank, recipe[i]) ==>
              done + RestoreRange(cs, apply, rank, recipe, i, end)
              == (done + [RestoredEntry(cs, apply, rank, recipe[i])])
                + RestoreRange(cs, apply, rank, recipe, i + 1, end)
  {
    hide Ranked, Restorable, RestoredEntry;
  }
}
