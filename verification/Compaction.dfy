/** `rewriteContainer`: the chunks of small containers are saved again and the containers deleted. */
module Compaction {
  import opened Bytes
  import opened Names
  import opened Log
  import opened Store

  const REWRITE_LIMIT := 8300000

  /** The containers to be rewritten: small ones, except the one the manager knows as open. */
  function Doomed(sizes: map<Name, int>, managerName: Name): set<Name> {
    set n | n in sizes && sizes[n] <= REWRITE_LIMIT && n != managerName
  }

  ghost predicate AllBelow(names: set<Name>, bound: Name) {
    forall n :: n in names ==> Less(n, bound)
  }

  /** Reads the stored bytes of `h`, deltas and all, and saves them again. */
  ghost function Relocate(st: Store, h: Bytes): Store
    requires Sound(st) && h in st.index
  {
    SaveChunk(ReadBack(st, h), h, Stored(st)[h])
  }

  ghost function RelocateIfDoomed(st: Store, doomed: set<Name>, h: Bytes): Store
    requires Sound(st)
  {
    if h in st.index && st.index[h].name in doomed then Relocate(st, h) else st
  }

  /** The store after the bytes of `h` have been read back. */
  ghost function ReadBack(st: Store, h: Bytes): Store
    requires h in st.index
  {
    st.(log := AfterRead(st.log, st.index[h].name))
  }

  lemma ReadBackKeeps(st: Store, h: Bytes)
    requires Sound(st) && h in st.index
    ensures Sound(ReadBack(st, h)) && Stored(ReadBack(st, h)) == Stored(st)
    ensures |Stored(st)[h]| == st.index[h].length < st.log.max
    ensures Stored(st)[h][..st.index[h].length] == Stored(st)[h]
  {
    hide Less;
    SourcesAgree(st.log, st.index[h]);
    SlotsIgnoreCache(st.log, ReadBack(st, h).log, st.index);
  }

  /** Relocating rewrites the stored bytes of `h` in a container that is not doomed. */
  lemma RelocateStores(st: Store, doomed: set<Name>, h: Bytes, n: nat)
    requires Ready(st, n + 1) && h in st.index && AllBelow(doomed, st.log.openName)
    ensures Ready(Relocate(st, h), n) && AllBelow(doomed, Relocate(st, h).log.openName)
    ensures Stored(Relocate(st, h)) == Stored(st)[h := San(Stored(st)[h])]
    ensures Relocate(st, h).index == st.index[h := Relocate(st, h).index[h]]
    ensures SameCounts(Relocate(st, h).index[h], st.index[h])
    ensures Relocate(st, h).index[h].name == Relocate(st, h).log.openName
    ensures st.sizes.Keys <= Relocate(st, h).sizes.Keys <= st.sizes.Keys + {st.log.openName}
    ensures Relocate(st, h).log.openName != st.log.openName ==> st.log.openName in Relocate(st, h).sizes
  {
    hide Less, San, Room, Coherent, LaidOut, Last, NextPermutation;
    var data, read := Stored(st)[h], ReadBack(st, h);
    ReadBackKeeps(st, h);
    SaveChunkReady(read, h, data, n);
    SaveChunkStores(read, h, data);
    if Rolls(read.log, |data|) {
      NextIsLarger(st.log.openName);
      forall m | m in doomed ensures Less(m, NextPermutation(st.log.openName)) {
        LessTransitive(m, st.log.openName, NextPermutation(st.log.openName));
      }
    }
  }

  lemma RelocateIfDoomedReady(st: Store, doomed: set<Name>, h: Bytes, n: nat)
    requires Ready(st, n + 1) && AllBelow(doomed, st.log.openName)
    ensures Ready(RelocateIfDoomed(st, doomed, h), n) && AllBelow(doomed, RelocateIfDoomed(st, doomed, h).log.openName)
  {
    if h in st.index && st.index[h].name in doomed {
      RelocateStores(st, doomed, h, n);
    } else {
      RoomShrinks(st.log.openName, n + 1, n);
    }
  }

  /** The pass over a snapshot of the fingerprints. */
  ghost function RelocateAll(st: Store, doomed: set<Name>, order: seq<Bytes>): Store
    requires Ready(st, |order|) && AllBelow(doomed, st.log.openName)
    decreases |order|
  {
    hide Sound, Room, Less, RelocateIfDoomed;
    if order == [] then st
    else
      RelocateIfDoomedReady(st, doomed, order[0], |order| - 1);
      RelocateAll(RelocateIfDoomed(st, doomed, order[0]), doomed, order[1..])
  }

  /** During the pass every chunk is in the open container, one of recorded size, or a doomed one. */
  ghost predicate Traceable(st: Store, doomed: set<Name>) {
    forall h :: h in st.index ==>
      st.index[h].name == st.log.openName || st.index[h].name in st.sizes || st.index[h].name in doomed
  }

  lemma RelocateAllStep(st: Store, doomed: set<Name>, order: seq<Bytes>)
    requires Ready(st, |order|) && AllBelow(doomed, st.log.openName) && order != []
    ensures Ready(RelocateIfDoomed(st, doomed, order[0]), |order| - 1)
    ensures AllBelow(doomed, RelocateIfDoomed(st, doomed, order[0]).log.openName)
    ensures RelocateAll(RelocateIfDoomed(st, doomed, order[0]), doomed, order[1..]) == RelocateAll(st, doomed, order)
  {
    hide Sound, Room, Less, RelocateIfDoomed;
    RelocateIfDoomedReady(st, doomed, order[0], |order| - 1);
  }

  /** How far the pass has come: the doomed entries of `done` have moved out, keeping all but
      their place and rewriting their bytes once; nothing else has changed. */
  ghost predicate Underway(st0: Store, st: Store, doomed: set<Name>, done: set<Bytes>)
    requires Sound(st0)
  {
    && Sound(st) && AllBelow(doomed, st.log.openName) && doomed !! st.sizes.Keys
    && st.index.Keys == st0.index.Keys
    && forall h {:trigger st.index[h]} {:trigger st0.index[h]} :: h in st0.index ==>
         if h in done && st0.index[h].name in doomed
         then SameCounts(st.index[h], st0.index[h]) && st.index[h].name !in doomed
           && Stored(st)[h] == San(Stored(st0)[h])
         else st.index[h] == st0.index[h] && Stored(st)[h] == Stored(st0)[h]
  }

  lemma UnderwayStep(st0: Store, st: Store, doomed: set<Name>, done: set<Bytes>, h: Bytes, n: nat)
    requires Sound(st0) && Underway(st0, st, doomed, done) && Ready(st, n + 1)
    ensures Underway(st0, RelocateIfDoomed(st, doomed, h), doomed, done + {h})
  {
    hide LaidOut, Coherent, Slots, Relocate, Less, San, Room, SameCounts;
    LessIrreflexive(st.log.openName);
    if h in st.index && st.index[h].name in doomed {
      var st' := Relocate(st, h);
      RelocateStores(st, doomed, h, n);
      LessIrreflexive(st'.log.openName);
    }
  }

  lemma StepTraces(st: Store, doomed: set<Name>, h: Bytes, n: nat)
    requires Ready(st, n + 1) && AllBelow(doomed, st.log.openName) && Traceable(st, doomed)
    ensures Traceable(RelocateIfDoomed(st, doomed, h), doomed)
  {
    hide Sound, Stored, Relocate, Room, Less, SameCounts;
    if h in st.index && st.index[h].name in doomed {
      RelocateStores(st, doomed, h, n);
    }
  }

  lemma StepAccounts(st: Store, doomed: set<Name>, h: Bytes, n: nat, exact: bool)
    requires Ready(st, n + 1) && AllBelow(doomed, st.log.openName) && doomed !! st.sizes.Keys
    requires Accounted(st, exact)
    ensures Accounted(RelocateIfDoomed(st, doomed, h), exact)
  {
    hide LiveBytes, Sound, Stored, Room, Less, San, MadeRoom, Rolls;
    if h in st.index && st.index[h].name in doomed {
      var data, read := Stored(st)[h], ReadBack(st, h);
      ReadBackKeeps(st, h);
      SaveChunkReady(read, h, data, n);
      LessIrreflexive(st.log.openName);
      SaveChunkAccounts(read, h, data, exact);
    }
  }

  lemma {:induction false} RelocateAllUnderway(st0: Store, st: Store, doomed: set<Name>, done: set<Bytes>,
          order: seq<Bytes>, exact: bool)
    requires Sound(st0) && Underway(st0, st, doomed, done) && Ready(st, |order|)
    requires Accounted(st, exact) && Traceable(st, doomed)
    ensures Underway(st0, RelocateAll(st, doomed, order), doomed, done + (set h | h in order))
    ensures Accounted(RelocateAll(st, doomed, order), exact) && Traceable(RelocateAll(st, doomed, order), doomed)
    decreases |order|
  {
    hide Accounted, Traceable, Sound, Stored, RelocateIfDoomed, Less, Room;
    if order == [] {
      assert done + (set h | h in order) == done;
    } else {
      var st1 := RelocateIfDoomed(st, doomed, order[0]);
      UnderwayStep(st0, st, doomed, done, order[0], |order| - 1);
      StepAccounts(st, doomed, order[0], |order| - 1, exact);
      StepTraces(st, doomed, order[0], |order| - 1);
      RelocateIfDoomedReady(st, doomed, order[0], |order| - 1);
      RelocateAllUnderway(st0, st1, doomed, done + {order[0]}, order[1..], exact);
      assert done + {order[0]} + (set h | h in order[1..]) == done + (set h | h in order);
    }
  }

  /** `order` lists every fingerprint of the index: an iterator's snapshot, in whatever order. */
  ghost predicate Snapshot(index: Index, order: seq<Bytes>) {
    forall h :: h in index ==> h in order
  }

  /** The names of the rewritten containers are below the open name, so no save can reuse them. */
  lemma DoomedBelow(st: Store)
    requires Sound(st)
    ensures AllBelow(Doomed(st.sizes, st.log.openName), st.log.openName)
  {
  }

  /** `rewriteContainer`, run by a manager that knows the open container. */
  ghost function Rewrite(st: Store, order: seq<Bytes>): Store
    requires Ready(st, |order|)
  {
    var doomed := Doomed(st.sizes, st.log.openName);
    if doomed == {} then st
    else
      DoomedBelow(st);
      var st1 := RelocateAll(st.(sizes := st.sizes - doomed), doomed, order);
      st1.(log := st1.log.(files := st1.log.files - doomed))
  }

  ghost predicate IsDoomed(st: Store, h: Bytes) {
    h in st.index && st.index[h].name in Doomed(st.sizes, st.log.openName)
  }

  /** Deleting container files no entry names loses nothing. */
  lemma FilesDeleted(st: Store, doomed: set<Name>)
    requires Sound(st) && AllBelow(doomed, st.log.openName) && doomed !! st.sizes.Keys
    requires forall h :: h in st.index ==> st.index[h].name !in doomed
    ensures Sound(st.(log := st.log.(files := st.log.files - doomed)))
    ensures Stored(st.(log := st.log.(files := st.log.files - doomed))) == Stored(st)
  {
    LessIrreflexive(st.log.openName);
    var log' := st.log.(files := st.log.files - doomed);
    forall h | h in st.index ensures Held(log', st.index[h]) && Slot(log', st.index[h]) == Slot(st.log, st.index[h]) {
    }
  }

  /** What a finished rewrite has done to the entry of `h`. */
  ghost predicate Rewritten(st: Store, st': Store, h: Bytes)
    requires Sound(st) && Sound(st') && h in st.index && h in st'.index
  {
    && SameCounts(st'.index[h], st.index[h])
    && st'.index[h].name !in Doomed(st.sizes, st.log.openName)
    && Stored(st')[h] == if IsDoomed(st, h) then San(Stored(st)[h]) else Stored(st)[h]
  }

  /** Compaction keeps every fingerprint, with its length and counts; the chunks of deleted
      containers have their bytes rewritten once more, all others are left alone; and no entry
      names a deleted container. */
  lemma RewriteStores(st: Store, order: seq<Bytes>, exact: bool)
    requires Ready(st, |order|) && Snapshot(st.index, order) && Accounted(st, exact) && Catalogued(st)
    ensures Sound(Rewrite(st, order)) && Accounted(Rewrite(st, order), exact) && Catalogued(Rewrite(st, order))
    ensures Rewrite(st, order).index.Keys == st.index.Keys
    ensures forall h :: h in st.index ==> Rewritten(st, Rewrite(st, order), h)
  {
    hide LaidOut, Coherent, Slots, RelocateAll, San, LiveBytes, Less, Room;
    var doomed := Doomed(st.sizes, st.log.openName);
    if doomed != {} {
      DoomedBelow(st);
      var st0 := st.(sizes := st.sizes - doomed);
      RelocateAllUnderway(st0, st0, doomed, {}, order, exact);
      FilesDeleted(RelocateAll(st0, doomed, order), doomed);
    }
  }

  // ---- Files and recorded sizes ----

  /** Containers with names below `bound` have the same files and the same recorded sizes. */
  ghost predicate SameBelow(st: Store, st': Store, bound: Name) {
    forall n :: Less(n, bound) ==>
      && (n in st'.log.files <==> n in st.log.files) && (n in st.log.files ==> st'.log.files[n] == st.log.files[n])
      && (n in st'.sizes <==> n in st.sizes) && (n in st.sizes ==> st'.sizes[n] == st.sizes[n])
  }

  predicate AtOrBelow(m: Name, n: Name) {
    m == n || Less(m, n)
  }

  lemma NotAbove(n: Name, bound: Name, m: Name)
    requires Less(n, bound) && AtOrBelow(bound, m)
    ensures n != m
  {
    hide Less;
    LessIrreflexive(n);
    if n == m {
      LessTransitive(n, bound, n);
    }
  }

  lemma RelocateSameBelow(st: Store, h: Bytes, bound: Name, n: nat)
    requires Ready(st, n + 1) && h in st.index && AtOrBelow(bound, st.log.openName)
    ensures SameBelow(st, Relocate(st, h), bound) && AtOrBelow(bound, Relocate(st, h).log.openName)
  {
    hide Less, San, Coherent, LaidOut, Last, NextPermutation, Stored, Payload;
    var read, data := ReadBack(st, h), Stored(st)[h];
    ReadBackKeeps(st, h);
    var payload := Payload(read, h, data);
    assert !Last(st.log.openName);
    NextIsLarger(st.log.openName);
    if bound != st.log.openName {
      LessTransitive(bound, st.log.openName, NextPermutation(st.log.openName));
    }
    forall m | Less(m, bound) ensures m != st.log.openName {
      NotAbove(m, bound, st.log.openName);
    }
  }

  lemma SameBelowTransitive(st: Store, st1: Store, st2: Store, bound: Name)
    requires SameBelow(st, st1, bound) && SameBelow(st1, st2, bound)
    ensures SameBelow(st, st2, bound)
  {
    hide Less;
  }

  lemma {:induction false} RelocateAllSameBelow(st: Store, doomed: set<Name>, order: seq<Bytes>, bound: Name)
    requires Ready(st, |order|) && AllBelow(doomed, st.log.openName) && AtOrBelow(bound, st.log.openName)
    ensures SameBelow(st, RelocateAll(st, doomed, order), bound)
    ensures AtOrBelow(bound, RelocateAll(st, doomed, order).log.openName)
    decreases |order|
  {
    hide Sound, Room, Relocate, SameBelow, AtOrBelow, AllBelow;
    if order == [] {
      SameAsItself(st, bound);
    } else {
      var st1 := RelocateIfDoomed(st, doomed, order[0]);
      RelocateIfDoomedReady(st, doomed, order[0], |order| - 1);
      if order[0] in st.index && st.index[order[0]].name in doomed {
        RelocateSameBelow(st, order[0], bound, |order| - 1);
      } else {
        SameAsItself(st, bound);
      }
      RelocateAllSameBelow(st1, doomed, order[1..], bound);
      RelocateAllStep(st, doomed, order);
      SameBelowTransitive(st, st1, RelocateAll(st1, doomed, order[1..]), bound);
    }
  }

  lemma SameAsItself(st: Store, bound: Name)
    ensures SameBelow(st, st, bound)
  {
    hide Less;
  }

  /** Compaction removes the file and the recorded size of every container, but the open one, that is recorded
      with at most 8300000 bytes; every other container has its file as before, and its size. */
  lemma RewriteDeletes(st: Store, order: seq<Bytes>, n: Name)
    requires Ready(st, |order|) && n != st.log.openName
    ensures var st' := Rewrite(st, order);
            if n in st.sizes && st.sizes[n] <= 8300000 then n !in st'.log.files && n !in st'.sizes
            else n in st.log.files ==>
                   && n in st'.log.files && st'.log.files[n] == st.log.files[n]
                   && (n in st'.sizes <==> n in st.sizes) && (n in st.sizes ==> st'.sizes[n] == st.sizes[n])
  {
    hide LaidOut, RelocateAll, Less, Room;
    var doomed, bound := Doomed(st.sizes, st.log.openName), st.log.openName;
    assert n in doomed <==> n in st.sizes && st.sizes[n] <= 8300000;
    if doomed != {} {
      DoomedBelow(st);
      RelocateAllSameBelow(st.(sizes := st.sizes - doomed), doomed, order, bound);
      assert n in st.sizes ==> n in st.log.files;
      assert n in st.log.files ==> Less(n, bound);
    }
  }

  /** Everything to be moved has no NUL outside its last two bytes. */
  ghost predicate MovesCleanly(st: Store)
    requires Sound(st)
  {
    forall h :: IsDoomed(st, h) ==> Clean(Stored(st)[h])
  }

  /** Compaction leaves every stored byte unchanged exactly when every chunk it moves is free of
      NULs outside its last two bytes. Plain chunks always are; a delta need not be. */
  lemma RewriteLosslessExactlyWhenClean(st: Store, order: seq<Bytes>, exact: bool)
    requires Ready(st, |order|) && Snapshot(st.index, order) && Accounted(st, exact) && Catalogued(st)
    ensures Sound(Rewrite(st, order))
    ensures Stored(Rewrite(st, order)) == Stored(st) <==> MovesCleanly(st)
  {
    hide Rewrite, Accounted, Catalogued, Sound, Stored, Clean, San, Room;
    RewriteStores(st, order, exact);
    forall h | IsDoomed(st, h) ensures Stored(Rewrite(st, order))[h] == Stored(st)[h] <==> Clean(Stored(st)[h]) {
      SanFixesExactlyClean(Stored(st)[h]);
    }
  }
}
