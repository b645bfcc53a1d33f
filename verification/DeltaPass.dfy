/** `updateContainer`: a pass that installs the pending deltas of all chunks in sealed containers. */
module DeltaPass {
  import opened Bytes
  import opened Names
  import opened Log
  import opened Store
  import opened Deltas

  /** The store, the pending deltas, and how many of the visited deltas were left pending. */
  datatype Pass = Pass(st: Store, pending: Index, left: nat)

  type DeltaFiles = map<Name, Bytes>

  /** The delta is in its container file. */
  predicate Readable(files: DeltaFiles, p: Entry) {
    p.name in files && Fits(p, files[p.name])
  }

  /** If the container file is there, the delta lies inside it. */
  predicate WithinFile(files: DeltaFiles, p: Entry) {
    p.name in files ==> Fits(p, files[p.name])
  }

  /** The bytes the pass takes for a pending delta: a failed read goes unnoticed and leaves zeros. */
  function DeltaBytes(files: DeltaFiles, p: Entry): (data: Bytes)
    requires WithinFile(files, p)
    ensures |data| == p.length
  {
    if p.name in files then Cut(p, files[p.name]) else Zeros(p.length)
  }

  /** A chunk that is unknown, or still in the open container, keeps its delta pending. */
  predicate Skipped(st: Store, h: Bytes) {
    h !in st.index || st.index[h].name == st.log.openName
  }

  /** The pending delta is not longer than the chunk it replaces, unless that is skipped. */
  ghost predicate Fitting(st: Store, files: DeltaFiles, h: Bytes, p: Entry) {
    WithinFile(files, p) && (Skipped(st, h) || Installable(st, h, DeltaBytes(files, p)))
  }

  predicate NoRepeats(order: seq<Bytes>) {
    forall i, j :: 0 <= i < j < |order| ==> order[i] != order[j]
  }

  /** The pass may run: nothing has been read yet, and the deltas still to be visited fit. */
  ghost predicate PassReady(u: Pass, files: DeltaFiles, order: seq<Bytes>) {
    && Sound(u.st) && u.st.log.cacheName == []
    && NoRepeats(order)
    && forall h :: h in order ==> h in u.pending && Fitting(u.st, files, h, u.pending[h])
  }

  /** Visits one pending delta. */
  ghost function Visit(u: Pass, files: DeltaFiles, h: Bytes): Pass
    requires Sound(u.st) && h in u.pending && Fitting(u.st, files, h, u.pending[h])
  {
    if Skipped(u.st, h) then u.(left := u.left + 1)
    else
      Pass(Install(u.st, h, DeltaBytes(files, u.pending[h]), u.pending[h].deltaCount), u.pending - {h}, u.left)
  }

  /** What one visit keeps. */
  ghost predicate SameButFor(u: Pass, u': Pass, h: Bytes) {
    && u'.st.log.openName == u.st.log.openName && u'.st.log.open == u.st.log.open
    && u'.st.log.cacheName == u.st.log.cacheName && u'.st.log.max == u.st.log.max
    && u'.st.index.Keys == u.st.index.Keys && u'.st.sizes.Keys == u.st.sizes.Keys
    && (forall g {:trigger u'.st.index[g]} :: g in u.st.index ==>
          u'.st.index[g].name == u.st.index[g].name && u'.st.index[g].count == u.st.index[g].count
          && u'.st.index[g].length <= u.st.index[g].length
          && (g != h ==> u'.st.index[g] == u.st.index[g]))
    && u'.pending == if Skipped(u.st, h) then u.pending else u.pending - {h}
  }

  lemma VisitKeeps(u: Pass, files: DeltaFiles, h: Bytes, rest: seq<Bytes>)
    requires PassReady(u, files, [h] + rest)
    ensures h in u.pending && h !in rest && SameButFor(u, Visit(u, files, h), h)
    ensures PassReady(Visit(u, files, h), files, rest)
    ensures Stored(Visit(u, files, h).st)
         == if Skipped(u.st, h) then Stored(u.st) else Stored(u.st)[h := DeltaBytes(files, u.pending[h])]
  {
    hide LaidOut, Slots, Coherent;
    assert ([h] + rest)[0] == h;
    assert forall i :: 0 <= i < |rest| ==> ([h] + rest)[i + 1] == rest[i];
    assert h !in rest;
    if !Skipped(u.st, h) {
      InstallName(u.st, h);
      InstallStores(u.st, h, DeltaBytes(files, u.pending[h]), u.pending[h].deltaCount);
    }
  }

  lemma InstallName(st: Store, h: Bytes)
    requires Sound(st) && st.log.cacheName == [] && h in st.index
    ensures st.index[h].name != []
  {
    assert Held(st.log, st.index[h]);
  }

  /** The pass over a snapshot of the pending deltas. */
  ghost function InstallAll(u: Pass, files: DeltaFiles, order: seq<Bytes>): Pass
    requires PassReady(u, files, order)
    decreases |order|
  {
    hide Sound, Visit, Fitting;
    if order == [] then u
    else
      assert order == [order[0]] + order[1..];
      VisitKeeps(u, files, order[0], order[1..]);
      InstallAll(Visit(u, files, order[0]), files, order[1..])
  }

  lemma InstallAllStep(u: Pass, files: DeltaFiles, order: seq<Bytes>)
    requires PassReady(u, files, order) && order != []
    ensures Sound(u.st) && order[0] in u.pending && Fitting(u.st, files, order[0], u.pending[order[0]])
    ensures PassReady(Visit(u, files, order[0]), files, order[1..])
    ensures Visit(u, files, order[0]).st.log.openName == u.st.log.openName
    ensures InstallAll(Visit(u, files, order[0]), files, order[1..]) == InstallAll(u, files, order)
  {
    hide Sound, Visit, Fitting;
    assert order == [order[0]] + order[1..];
    VisitKeeps(u, files, order[0], order[1..]);
  }

  /** The content a pending delta turns its chunk into. */
  function PendingContent(files: DeltaFiles, p: Entry): Content
    requires WithinFile(files, p)
  {
    Content(DeltaBytes(files, p), p.deltaCount > 0)
  }

  /** The deltas still to be installed decode to the meaning of their chunks, and refer only
      downwards. */
  ghost predicate AllSensible(u: Pass, files: DeltaFiles, order: seq<Bytes>, apply: Apply, meaning: Meaning,
          rank: Bytes -> nat)
    requires PassReady(u, files, order)
  {
    forall h :: h in order && !Skipped(u.st, h) ==>
      Sensible(PendingContent(files, u.pending[h]), h, u.st.index.Keys, apply, meaning, rank)
  }

  lemma VisitContents(u: Pass, files: DeltaFiles, h: Bytes, rest: seq<Bytes>)
    requires PassReady(u, files, [h] + rest)
    ensures PassReady(Visit(u, files, h), files, rest)
    ensures ContentsOf(Visit(u, files, h).st)
         == if Skipped(u.st, h) then ContentsOf(u.st) else ContentsOf(u.st)[h := PendingContent(files, u.pending[h])]
  {
    hide Sound, Stored, Fitting;
    VisitKeeps(u, files, h, rest);
  }

  lemma VisitSensible(u: Pass, files: DeltaFiles, h: Bytes, rest: seq<Bytes>, apply: Apply, meaning: Meaning,
          rank: Bytes -> nat)
    requires PassReady(u, files, [h] + rest) && AllSensible(u, files, [h] + rest, apply, meaning, rank)
    ensures PassReady(Visit(u, files, h), files, rest)
            && AllSensible(Visit(u, files, h), files, rest, apply, meaning, rank)
  {
    hide Sound, Stored, Sensible, Visit, ContentsOf, NoRepeats;
    VisitKeeps(u, files, h, rest);
    var u' := Visit(u, files, h);
    forall g | g in rest && !Skipped(u'.st, g)
      ensures Sensible(PendingContent(files, u'.pending[g]), g, u'.st.index.Keys, apply, meaning, rank)
    {
      assert g in [h] + rest && u'.pending[g] == u.pending[g];
    }
  }

  lemma VisitMeans(u: Pass, files: DeltaFiles, h: Bytes, rest: seq<Bytes>, apply: Apply, meaning: Meaning,
          rank: Bytes -> nat)
    requires PassReady(u, files, [h] + rest) && AllSensible(u, files, [h] + rest, apply, meaning, rank)
    requires Means(ContentsOf(u.st), apply, meaning, rank)
    ensures Sound(Visit(u, files, h).st) && Means(ContentsOf(Visit(u, files, h).st), apply, meaning, rank)
  {
    hide Sound, Stored, Sensible, Means, Visit, ContentsOf, NoRepeats;
    VisitContents(u, files, h, rest);
    if !Skipped(u.st, h) {
      assert h in [h] + rest;
      assert u.st.index.Keys + {h} == u.st.index.Keys;
      MeansWith(ContentsOf(u.st), h, PendingContent(files, u.pending[h]), apply, meaning, rank);
    }
  }

  lemma VisitAccounts(u: Pass, files: DeltaFiles, h: Bytes, exact: bool)
    requires Sound(u.st) && h in u.pending && Fitting(u.st, files, h, u.pending[h])
    requires Accounted(u.st, exact) && Catalogued(u.st)
    ensures Accounted(Visit(u, files, h).st, exact) && Catalogued(Visit(u, files, h).st)
  {
    hide Sound, LiveBytes;
    if !Skipped(u.st, h) {
      InstallAccounts(u.st, h, DeltaBytes(files, u.pending[h]), u.pending[h].deltaCount, exact);
    }
  }

  /** What the finished pass has done: only lengths and delta counts of records changed, in place;
      exactly the skipped deltas are still pending, and `left` counts them. */
  ghost predicate Passed(u: Pass, u': Pass, order: seq<Bytes>) {
    && u'.st.log.openName == u.st.log.openName && u'.st.log.open == u.st.log.open
    && u'.st.log.cacheName == u.st.log.cacheName && u'.st.log.max == u.st.log.max
    && u'.st.index.Keys == u.st.index.Keys && u'.st.sizes.Keys == u.st.sizes.Keys
    && (forall g {:trigger u'.st.index[g]} :: g in u.st.index ==>
          u'.st.index[g].name == u.st.index[g].name && u'.st.index[g].count == u.st.index[g].count
          && u'.st.index[g].length <= u.st.index[g].length)
    && u'.pending == u.pending - (set h | h in order && !Skipped(u.st, h))
    && u'.left == u.left + |set h | h in order && Skipped(u.st, h)|
  }

  lemma {:induction false} InstallAllPassed(u: Pass, files: DeltaFiles, order: seq<Bytes>)
    requires PassReady(u, files, order)
    ensures Passed(u, InstallAll(u, files, order), order)
    decreases |order|
  {
    hide Sound, Visit, Fitting, NoRepeats, Skipped;
    if order == [] {
      assert u.pending - (set h | h in order && !Skipped(u.st, h)) == u.pending;
    } else {
      var h, rest := order[0], order[1..];
      assert order == [h] + rest;
      VisitKeeps(u, files, h, rest);
      VisitCounts(u, files, h);
      InstallAllPassed(Visit(u, files, h), files, rest);
      PassedStep(u, Visit(u, files, h), InstallAll(Visit(u, files, h), files, rest), h, rest);
    }
  }

  lemma PassedStep(u: Pass, u1: Pass, u2: Pass, h: Bytes, rest: seq<Bytes>)
    requires h !in rest && SameButFor(u, u1, h) && u1.left == u.left + (if Skipped(u.st, h) then 1 else 0)
    requires Passed(u1, u2, rest)
    ensures Passed(u, u2, [h] + rest)
  {
    forall g ensures Skipped(u1.st, g) <==> Skipped(u.st, g) {
    }
    hide Skipped;
    SplitSkipped(u.st, h, rest);
    assert (set g | g in rest && Skipped(u1.st, g)) == (set g | g in rest && Skipped(u.st, g));
    assert (set g | g in rest && !Skipped(u1.st, g)) == (set g | g in rest && !Skipped(u.st, g));
  }

  lemma VisitCounts(u: Pass, files: DeltaFiles, h: Bytes)
    requires Sound(u.st) && h in u.pending && Fitting(u.st, files, h, u.pending[h])
    ensures Visit(u, files, h).left == u.left + if Skipped(u.st, h) then 1 else 0
  {
  }

  lemma SplitSkipped(st: Store, h: Bytes, rest: seq<Bytes>)
    requires h !in rest
    ensures |set g | g in [h] + rest && Skipped(st, g)| == |set g | g in rest && Skipped(st, g)| + if Skipped(st, h)
            then 1 else 0
    ensures (set g | g in [h] + rest && !Skipped(st, g))
         == (set g | g in rest && !Skipped(st, g)) + if Skipped(st, h) then {} else {h}
  {
    var all, some := set g | g in [h] + rest && Skipped(st, g), set g | g in rest && Skipped(st, g);
    assert all == some + if Skipped(st, h) then {h} else {};
  }

  lemma {:induction false} InstallAllMeans(u: Pass, files: DeltaFiles, order: seq<Bytes>, apply: Apply,
          meaning: Meaning, rank: Bytes -> nat, exact: bool)
    requires PassReady(u, files, order) && AllSensible(u, files, order, apply, meaning, rank)
    requires Means(ContentsOf(u.st), apply, meaning, rank) && Accounted(u.st, exact) && Catalogued(u.st)
    ensures Sound(InstallAll(u, files, order).st)
    ensures Means(ContentsOf(InstallAll(u, files, order).st), apply, meaning, rank)
    ensures Accounted(InstallAll(u, files, order).st, exact) && Catalogued(InstallAll(u, files, order).st)
    decreases |order|
  {
    hide Sound, Visit, Fitting, AllSensible, Means, ContentsOf, Accounted, Catalogued;
    if order != [] {
      var h, rest := order[0], order[1..];
      assert order == [h] + rest;
      VisitSensible(u, files, h, rest, apply, meaning, rank);
      VisitMeans(u, files, h, rest, apply, meaning, rank);
      VisitAccounts(u, files, h, exact);
      InstallAllMeans(Visit(u, files, h), files, rest, apply, meaning, rank, exact);
    }
  }

  /** The bytes the pass leaves for `h`. */
  ghost function BytesAfter(u: Pass, files: DeltaFiles, order: seq<Bytes>, h: Bytes): Bytes
    requires PassReady(u, files, order) && h in u.st.index
  {
    if h in order && !Skipped(u.st, h) then DeltaBytes(files, u.pending[h]) else Stored(u.st)[h]
  }

  /** The pass replaces the bytes of exactly the visited chunks that are known and not in the open
      container, by those of their pending deltas. */
  lemma {:induction false} InstallAllBytes(u: Pass, files: DeltaFiles, order: seq<Bytes>)
    requires PassReady(u, files, order)
    ensures Sound(InstallAll(u, files, order).st)
    ensures Stored(InstallAll(u, files, order).st).Keys == u.st.index.Keys
    ensures forall h :: h in u.st.index ==>
              Stored(InstallAll(u, files, order).st)[h] == BytesAfter(u, files, order, h)
    decreases |order|
  {
    hide Sound, Visit, Fitting, NoRepeats, Stored, Skipped;
    if order != [] {
      var g, rest := order[0], order[1..];
      assert order == [g] + rest;
      VisitKeeps(u, files, g, rest);
      var u1 := Visit(u, files, g);
      InstallAllBytes(u1, files, rest);
      forall h | h in u.st.index ensures BytesAfter(u1, files, rest, h) == BytesAfter(u, files, order, h) {
        VisitedBytes(u, files, g, rest, h);
      }
    }
  }

  lemma VisitedBytes(u: Pass, files: DeltaFiles, g: Bytes, rest: seq<Bytes>, h: Bytes)
    requires PassReady(u, files, [g] + rest) && h in u.st.index
    ensures var u1 := Visit(u, files, g);
            PassReady(u1, files, rest) && h in u1.st.index
              && BytesAfter(u1, files, rest, h) == BytesAfter(u, files, [g] + rest, h)
  {
    hide Sound, Visit, Fitting, NoRepeats, Stored;
    VisitKeeps(u, files, g, rest);
    assert h in [g] + rest <==> h == g || h in rest;
  }

  /** `updateContainer`: the pass over all pending deltas, then the delta files are removed if none was left. */
  ghost function Update(u: Pass, files: DeltaFiles, order: seq<Bytes>): (Pass, DeltaFiles)
    requires PassReady(u, files, order)
  {
    var u' := InstallAll(u.(left := 0), files, order);
    (u', if u'.left == 0 then map[] else files)
  }

  /** Installing the pending deltas leaves every fingerprint restoring to the bytes it restored to
      before, with references still acyclic and every reference count untouched. */
  lemma UpdateKeepsRestores(u: Pass, files: DeltaFiles, order: seq<Bytes>, apply: Apply, rank: Bytes -> nat,
          exact: bool)
    requires PassReady(u, files, order) && u.left == 0
    requires Ranked(ContentsOf(u.st), rank) && BasesPresent(ContentsOf(u.st))
    requires AllSensible(u, files, order, apply, RestoredAll(ContentsOf(u.st), apply, rank), rank)
    requires Accounted(u.st, exact) && Catalogued(u.st)
    ensures var st' := Update(u, files, order).0.st;
            && Sound(st') && Accounted(st', exact) && Catalogued(st')
            && Ranked(ContentsOf(st'), rank)
            && forall h :: h in u.st.index ==>
                 && h in st'.index && st'.index[h].count == u.st.index[h].count
                 && Restored(ContentsOf(st'), apply, rank, h) == Restored(ContentsOf(u.st), apply, rank, h)
  {
    hide Fitting, NoRepeats, AllSensible, Sound, Accounted, Catalogued, Ranked, BasesPresent, ContentsOf, InstallAll;
    var cs := ContentsOf(u.st);
    var meaning := RestoredAll(cs, apply, rank);
    assert u.(left := 0) == u;
    RestoredIsConsistent(cs, apply, rank);
    InstallAllMeans(u, files, order, apply, meaning, rank, exact);
    InstallAllPassed(u, files, order);
    var cs' := ContentsOf(Update(u, files, order).0.st);
    forall h | h in cs' ensures Restored(cs', apply, rank, h) == meaning(h) {
      ConsistentRestores(cs', apply, meaning, rank, h);
    }
  }

  lemma PassedCounts(u: Pass, u': Pass, order: seq<Bytes>)
    requires Passed(u, u', order) && u.left == 0 && forall h :: h in u.pending <==> h in order
    ensures forall h :: h in u'.pending <==> h in u.pending && Skipped(u.st, h)
    ensures u'.left == 0 <==> u'.pending == map[]
  {
    hide Skipped;
    var kept := set h | h in order && Skipped(u.st, h);
    forall h ensures h in u'.pending <==> h in kept {
    }
    assert u'.pending.Keys == kept;
    if kept != {} {
      var h :| h in kept;
      assert h in u'.pending;
    }
  }

  /** Exactly the deltas of unknown chunks and of chunks in the open container stay pending, and the
      delta files are removed exactly when none does. */
  lemma UpdateEmptiesWhenDone(u: Pass, files: DeltaFiles, order: seq<Bytes>)
    requires PassReady(u, files, order) && u.left == 0 && files != map[]
    requires forall h :: h in u.pending <==> h in order
    ensures forall h :: h in Update(u, files, order).0.pending <==> h in u.pending && Skipped(u.st, h)
    ensures Update(u, files, order).1 == map[] <==> Update(u, files, order).0.pending == map[]
  {
    assert u.(left := 0) == u;
    InstallAllPassed(u, files, order);
    hide PassReady, Skipped, InstallAll, Passed;
    PassedCounts(u, InstallAll(u, files, order), order);
  }
}
