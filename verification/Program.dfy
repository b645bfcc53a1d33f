/** The parts at work together, as the program's main function puts them together: a storage core on
    its directory and databases, with a chunker or a manager on it for each command. */
module Program {
  import opened Bytes
  import opened Names
  import opened Log
  import opened Store
  import opened Deltas
  import opened DeltaPass
  import opened RefCounts
  import opened Restore
  import opened Compaction
  import opened Vault
  import opened Runs
  import opened PendingRuns
  import opened RollingHash
  import opened Cuts
  import opened FileIndex
  import opened Containers
  import SC = StorageCore
  import M = Manager
  import DC = DeltaCompressor
  import opened Chunker
  import opened WholeFile

  /** The chunker's configuration. */
  datatype Settings = Settings(window: nat, min: nat, avg: nat, max: nat, readSize: nat, threeLevel: bool,
    limits: Limits)

  predicate SettingsOk(s: Settings, maxContainer: nat) {
    s.min < s.avg < s.max && s.avg >= 2 && 1 <= s.window < s.max < maxContainer && s.readSize > 0
  }

  /** The cut parameters the chunker derives. */
  predicate Derived(p: Params, s: Settings) {
    && p.window == s.window && p.min == s.min && p.max == s.max
    && Pow2(p.bits) <= s.avg < Pow2(p.bits + 1)
  }

  lemma DerivedUnique(p: Params, q: Params, s: Settings)
    requires Derived(p, s) && Derived(q, s)
    ensures p == q
  {
    if p.bits < q.bits {
      Pow2Monotone(p.bits + 1, q.bits);
    } else if q.bits < p.bits {
      Pow2Monotone(q.bits + 1, p.bits);
    }
  }

  /** `delta_create`, whose code is not part of this model: base bytes and chunk bytes to delta. */
  type Create = (Bytes, Bytes) -> Bytes

  /** `delta_apply` undoes `delta_create`. */
  ghost predicate Inverse(apply: Apply, create: Create) {
    forall base, chunk :: apply(base, create(base, chunk)) == chunk
  }

  /** The configuration of the delta containers, and the size a delta has to stay below. */
  datatype DeltaSettings = DeltaSettings(max: nat, capacity: nat, maxChunk: nat)

  /** All but the last two bytes. */
  function Stem(data: Bytes): Bytes {
    if |data| < 2 then data else data[..|data| - 2]
  }

  /** Equal but for the last two bytes; data shorter than that is compared whole. */
  ghost predicate SameStem(a: Bytes, b: Bytes) {
    var m, n := if |a| < 2 then |a| else |a| - 2, if |b| < 2 then |b| else |b| - 2;
    m == n && forall i :: 0 <= i < m ==> a[i] == b[i]
  }

  lemma StemsEqual(a: Bytes, b: Bytes)
    ensures Stem(a) == Stem(b) <==> SameStem(a, b)
  {
    if Stem(a) == Stem(b) {
      forall i | 0 <= i < |Stem(a)| ensures a[i] == b[i] {
        assert Stem(a)[i] == a[i] && Stem(b)[i] == b[i];
      }
    }
  }

  /** What the user asks for; the lists are snapshots an iterator takes. */
  datatype Command =
    | BackUpFile(name: Bytes, file: Bytes)
    | DropFile(name: Bytes)
    | ReopenStore
    | CollectAll(order: seq<Bytes>)
    | CompactAll(names: seq<Name>, order: seq<Bytes>)
    | InstallAll(order: seq<Bytes>)
    | RestoreFile(name: Bytes, start: nat, end: nat)
    | SaveDelta(base: Bytes, hash: Bytes)

  predicate CommandTouches(c: Command, name: Bytes) {
    (c.BackUpFile? && c.name == name) || (c.DropFile? && c.name == name)
  }

  /** The chunks are the contents of the entries `[start, end)`. */
  ghost predicate AsExpected(
    chunks: seq<RestoredChunk>, recipe: Recipe, start: nat, end: nat, content: ContentMap
  ) {
    && start <= end <= |recipe| && |chunks| == end - start
    && forall i :: 0 <= i < end - start ==> chunks[i] == Expected(recipe[start + i], content)
  }

  /** A chunker with an empty index, for one file. */
  method NewChunker(core: SC.StorageCore, s: Settings, ghost p: Params, fp: Fingerprint) returns (chunker: Chunker)
    requires SettingsOk(s, core.log.max) && Derived(p, s)
    ensures fresh(chunker) && fresh(chunker.index) && fresh(chunker.chunkBuffer)
    ensures chunker.storage == core && chunker.p == p && chunker.fingerprint == fp
    ensures chunker.Filling() && chunker.Buffer() == [] && chunker.recipeList == []
    ensures chunker.index.Valid() && chunker.index.Value() == NO_CHUNKS
  {
    hide PowersOk, RemovesOk, NoCutIn, HashOf, Pow2;
    var index := new FileIndex(s.threeLevel, s.limits);
    chunker := new Chunker(core, index, fp, s.window, s.min, s.avg, s.max);
    DerivedUnique(p, chunker.p, s);
  }

  /** All fingerprints of a recipe are known to a good store. */
  lemma RecipeKnown(v: Vault, apply: Apply, content: ContentMap, file: Bytes, i: nat)
    requires Good(v, apply, content, false) && file in v.recipes && i < |v.recipes[file]|
    ensures v.recipes[file][i].chunkHash in v.st.index
  {
    hide StoreGood, RecipeFits, References;
    ReferencesHas(v.recipes, file, i);
    ReferencedIsKnown(v.st.index, v.recipes[file][i].chunkHash, RefsOf(v.recipes));
  }

  class Program {
    const settings: Settings
    const p: Params
    const fp: Fingerprint
    const apply: Apply
    const db: SC.Databases
    const disk: Directory
    const deltaDisk: Directory
    const capacity: nat
    const deltas: DeltaSettings
    const create: Create
    var core: SC.StorageCore

    ghost predicate Valid()
      reads this, core, core.log, core.log.disk, core.log.current, core.log.cached
    {
      && core.Valid() && core.db == db && core.log.disk == disk && core.apply == apply
      && SettingsOk(settings, core.log.max) && Derived(p, settings)
      && core.log.max <= capacity == core.log.cached.body.Length
      && deltaDisk !in core.Repr() && this !in core.Repr()
      && deltas.maxChunk <= deltas.max <= deltas.capacity && Inverse(apply, create)
    }

    /** A delta of `h` against `base` may be saved by that ranking: the pending deltas are right, in a sound log,
        the base is known and of lower rank, `h` is not yet stored as a delta, and a name is left. */
    ghost predicate PairOk(v: Vault, base: Bytes, h: Bytes, content: ContentMap, rank: Bytes -> nat) {
      && PendingWith(v, apply, content, rank) && DeltaLogOk(v, deltas.max, deltas.capacity)
      && |base| == HASH_SIZE && base in v.st.index && (h in v.st.index ==> v.st.index[h].deltaCount == 0)
      && (base != h ==> rank(base) < rank(h))
      && forall n: nat :: n < deltas.maxChunk ==> NameLeft(DeltaLog(v, deltas.max, deltas.capacity), n)
    }

    ghost predicate SaveOk(v: Vault, base: Bytes, h: Bytes, content: ContentMap) {
      exists rank :: PairOk(v, base, h, content, rank)
    }

    ghost function Repr(): set<object>
      reads this
    {
      core.Repr() + {this, deltaDisk}
    }

    /** When a command may be given: what `Allowed` asks of the operation behind it. */
    ghost predicate CommandOk(v: Vault, c: Command, content: ContentMap) {
      match c
      case BackUpFile(name, file) => Allowed(v, Op.BackUp(name, ChunksOf(file)), apply, content)
      case DropFile(_) => true
      case ReopenStore => true
      case CollectAll(order) => Snapshot(v.st.index, order) && Allowed(AfterReopen(v), CollectGarbage, apply, content)
      case CompactAll(names, order) =>
        && Allowed(AfterReopen(v), Op.Compact(order), apply, content)
        && forall n :: n in AfterReopen(v).st.sizes ==> n in names
      case InstallAll(order) => Allowed(AfterReopen(v), InstallDeltas(order), apply, content)
      case RestoreFile(name, start, end) => name in v.recipes ==> start <= end <= |v.recipes[name]|
      case SaveDelta(base, h) => SaveOk(v, base, h, content)
    }

    /** What a command does: one or two operations; a restore reads some containers. */
    ghost predicate Leads(v: Vault, c: Command, w: Vault, content: ContentMap)
      requires CommandOk(v, c, content)
    {
      match c
      case BackUpFile(name, file) => w == Do(v, Op.BackUp(name, ChunksOf(file)), apply, content)
      case DropFile(name) => w == Do(v, Op.Drop(name), apply, content)
      case ReopenStore => w == AfterReopen(v)
      case CollectAll(order) => w == Do(AfterReopen(v), CollectGarbage, apply, content)
      case CompactAll(names, order) => w == Do(AfterReopen(v), Op.Compact(order), apply, content)
      case InstallAll(order) => w == Do(AfterReopen(v), InstallDeltas(order), apply, content)
      case RestoreFile(_, _, _) => exists names :: w == AfterReading(v, names)
      case SaveDelta(base, h) => exists names :: w == AfterSave(AfterReading(v, names), base, h, content)
    }

    /** The delta of the contents of two chunks, behind the fingerprint of the base. */
    function DeltaMade(base: Bytes, h: Bytes, content: ContentMap): Bytes {
      base + create(San(content(base)), San(content(h)))
    }

    /** The pair passes the tests before a delta is saved: two chunks, the second one known, that differ before
        their last two bytes, and a delta shorter than the chunk and than the limit. */
    predicate WorthSaving(v: Vault, base: Bytes, h: Bytes, content: ContentMap) {
      && h in v.st.index && base != h && Stem(San(content(base))) != Stem(San(content(h)))
      && |DeltaMade(base, h, content)| < |content(h)| && |DeltaMade(base, h, content)| < deltas.maxChunk
    }

    /** What saving a delta leaves: if it is worth it, the delta is pending too; otherwise nothing has changed. */
    function AfterSave(v: Vault, base: Bytes, h: Bytes, content: ContentMap): Vault {
      if WorthSaving(v, base, h, content) && Loadable(v.files, v.deltaConfig, deltas.capacity) then
        var e := v.st.index[h];
        SavedDelta(v, deltas.max, deltas.capacity, h, e.(deltaCount := e.deltaCount + 1), DeltaMade(base, h, content))
      else v
    }

    /** So the delta is pending afterwards, behind the fingerprint of its base, exactly if both chunks are known
        and differ before their last two bytes, and it is shorter than the chunk and than the limit; if not,
        nothing has changed. */
    lemma SavedExactly(v: Vault, base: Bytes, h: Bytes, content: ContentMap)
      requires DeltaLogOk(v, deltas.max, deltas.capacity) && deltas.maxChunk <= deltas.max
      requires forall n: nat :: n < deltas.maxChunk ==> NameLeft(DeltaLog(v, deltas.max, deltas.capacity), n)
      ensures var w, delta := AfterSave(v, base, h, content), base + create(San(content(base)), San(content(h)));
              if h in v.st.index && base != h && !SameStem(San(content(base)), San(content(h)))
                && |delta| < |content(h)| && |delta| < deltas.maxChunk
              then PendingToo(v, w, h, v.st.index[h].(deltaCount := v.st.index[h].deltaCount + 1), delta)
              else w == v
    {
      hide San, DeltaLogOk, NameLeft, Stem, SameStem, PendingToo, SavedDelta;
      StemsEqual(San(content(base)), San(content(h)));
      DeltaFilesFit(v, deltas.max, deltas.capacity);
      if WorthSaving(v, base, h, content) {
        var e := v.st.index[h];
        SavedToo(v, deltas.max, deltas.capacity, h, e.(deltaCount := e.deltaCount + 1), DeltaMade(base, h, content));
      }
    }

    /** The commands may be given in a row, wherever each of them leads. */
    ghost predicate AllOk(v: Vault, cs: seq<Command>, content: ContentMap)
      decreases |cs|
    {
      cs == []
      || (CommandOk(v, cs[0], content) && forall w: Vault :: Leads(v, cs[0], w, content) ==> AllOk(w, cs[1..], content))
    }

    lemma ReopenIs(v: Vault, content: ContentMap)
      requires Good(v, apply, content, false)
      ensures Good(AfterReopen(v), apply, content, false) && AfterReopen(v).recipes == v.recipes
    {
      hide Good, ReopenedStore;
      ReopenGood(v, apply, content, false);
    }

    /** Every command keeps the invariant, and the recipes it does not name. */
    lemma CommandGood(v: Vault, c: Command, w: Vault, content: ContentMap, name: Bytes)
      requires Good(v, apply, content, false) && CommandOk(v, c, content) && Leads(v, c, w, content)
      ensures Good(w, apply, content, false)
      ensures name in v.recipes && !CommandTouches(c, name) ==> name in w.recipes && w.recipes[name] == v.recipes[name]
    {
      hide Good, Allowed, Do, AfterReopen, ChunksOf, Snapshot;
      ReopenIs(v, content);
      AlwaysAllowed(v, content);
      match c
      case BackUpFile(n, file) => OpGood(v, Op.BackUp(n, ChunksOf(file)), content, name);
      case DropFile(n) => OpGood(v, Op.Drop(n), content, name);
      case ReopenStore =>
      case CollectAll(order) => OpGood(AfterReopen(v), CollectGarbage, content, name);
      case CompactAll(names, order) => OpGood(AfterReopen(v), Op.Compact(order), content, name);
      case InstallAll(order) => OpGood(AfterReopen(v), InstallDeltas(order), content, name);
      case RestoreFile(_, _, _) =>
        var names :| w == AfterReading(v, names);
        ReadIs(v, names, apply, content);
        OpGood(v, Read(names), content, name);
      case SaveDelta(base, h) =>
        var names :| w == AfterSave(AfterReading(v, names), base, h, content);
        ReadIs(v, names, apply, content);
        OpGood(v, Read(names), content, name);
        SaveKeepsGood(AfterReading(v, names), base, h, content);
    }

    /** Saved deltas stay good through every command, as long as collections keep their bases and a pass
        visits all of them. */
    lemma CommandKeepsPending(v: Vault, c: Command, w: Vault, content: ContentMap)
      requires Good(v, apply, content, false) && CommandOk(v, c, content) && Leads(v, c, w, content)
      requires PendingGood(v, deltas.max, deltas.capacity, apply, content)
      requires c.CollectAll? ==> PendingBasesIn(v, RefCounts.Collect(v.st.index).Keys)
      requires c.InstallAll? ==> forall h :: h in v.pending ==> h in c.order
      requires Inverse(apply, create) && deltas.maxChunk <= deltas.max
      ensures PendingGood(w, deltas.max, deltas.capacity, apply, content)
    {
      hide Good, Allowed, Do, ChunksOf, Snapshot, PendingGood, PendingBasesIn;
      AlwaysAllowed(v, content);
      if c.CollectAll? || c.CompactAll? || c.InstallAll? || c.ReopenStore? {
        ReopenIs(v, content);
        ReopenKeepsPending(v, content);
        ReopenParts(v);
      }
      var u, m, k := AfterReopen(v), deltas.max, deltas.capacity;
      hide AfterReopen;
      match c
      case BackUpFile(n, file) => DoKeepsPending(v, Op.BackUp(n, ChunksOf(file)), m, k, apply, content);
      case DropFile(n) => DoKeepsPending(v, Op.Drop(n), m, k, apply, content);
      case ReopenStore =>
      case CollectAll(order) => CollectKeepsPending(v, u, content);
      case CompactAll(names, order) => DoKeepsPending(u, Op.Compact(order), m, k, apply, content);
      case InstallAll(order) => DoKeepsPending(u, InstallDeltas(order), m, k, apply, content);
      case RestoreFile(_, _, _) =>
        var names :| w == AfterReading(v, names);
        ReadIs(v, names, apply, content);
        DoKeepsPending(v, Read(names), m, k, apply, content);
      case SaveDelta(base, h) =>
        var names :| w == AfterSave(AfterReading(v, names), base, h, content);
        var rank := SaveRank(v, base, h, content);
        SavingKeepsPending(v, names, base, h, content, rank);
    }

    lemma CollectKeepsPending(v: Vault, u: Vault, content: ContentMap)
      requires Good(u, apply, content, false) && PendingGood(u, deltas.max, deltas.capacity, apply, content)
      requires u.st.index == v.st.index && u.pending == v.pending && u.files == v.files
      requires PendingBasesIn(v, RefCounts.Collect(v.st.index).Keys) && Allowed(u, CollectGarbage, apply, content)
      ensures PendingGood(Do(u, CollectGarbage, apply, content), deltas.max, deltas.capacity, apply, content)
    {
      assert PendingBasesIn(u, RefCounts.Collect(u.st.index).Keys);
      hide Good, Allowed, Do, PendingGood, PendingBasesIn;
      DoKeepsPending(u, CollectGarbage, deltas.max, deltas.capacity, apply, content);
    }

    lemma ReopenParts(v: Vault)
      ensures AfterReopen(v).st.index == v.st.index && AfterReopen(v).pending == v.pending
      ensures AfterReopen(v).files == v.files
    {
    }

    lemma ReopenKeepsPending(v: Vault, content: ContentMap)
      requires Good(v, apply, content, false) && PendingGood(v, deltas.max, deltas.capacity, apply, content)
      ensures PendingGood(AfterReopen(v), deltas.max, deltas.capacity, apply, content)
    {
      hide PendingWith, DeltaLogOk, ReopenedStore, Good;
      var rank :| PendingWith(v, apply, content, rank);
      ReopenPending(v, apply, content, rank);
      SameLogOk(v, AfterReopen(v), deltas.max, deltas.capacity);
    }

    /** So they can be installed after any commands. */
    lemma InstallAlwaysOk(v: Vault, order: seq<Bytes>, content: ContentMap)
      requires Good(v, apply, content, false) && PendingGood(v, deltas.max, deltas.capacity, apply, content)
      requires NoRepeats(order) && forall h :: h in order ==> h in v.pending
      ensures CommandOk(v, InstallAll(order), content)
    {
      hide Good, PendingGood, Allowed, NoRepeats;
      ReopenParts(v);
      hide AfterReopen;
      ReopenedInstallable(v, order, deltas.max, deltas.capacity, apply, content);
    }

    lemma SaveKeepsGood(v: Vault, base: Bytes, h: Bytes, content: ContentMap)
      requires Good(v, apply, content, false)
      ensures Good(AfterSave(v, base, h, content), apply, content, false)
      ensures AfterSave(v, base, h, content).recipes == v.recipes && AfterSave(v, base, h, content).st == v.st
    {
      hide StoreGood, CountsAgree, WorthSaving, Loadable;
    }

    /** Saving the delta of such a pair keeps all pending deltas right, by the same ranking. */
    lemma SaveKeepsPending(v: Vault, base: Bytes, h: Bytes, content: ContentMap, rank: Bytes -> nat)
      requires Good(v, apply, content, false) && PairOk(v, base, h, content, rank)
      requires Inverse(apply, create) && deltas.maxChunk <= deltas.max
      ensures PendingWith(AfterSave(v, base, h, content), apply, content, rank)
      ensures DeltaLogOk(AfterSave(v, base, h, content), deltas.max, deltas.capacity)
    {
      hide Good, PendingWith, DeltaLogOk, NameLeft, San, SavedDelta, DeltaRight, Base, Loadable;
      if WorthSaving(v, base, h, content) && Loadable(v.files, v.deltaConfig, deltas.capacity) {
        var e, data := v.st.index[h], DeltaMade(base, h, content);
        assert |San(content(h))| == |content(h)|;
        DeltaIsRight(v, base, h, create(San(content(base)), San(content(h))), content, rank);
        SavePending(v, deltas.max, deltas.capacity, h, e.(deltaCount := e.deltaCount + 1), data, apply, content, rank);
        SavedLogOk(v, deltas.max, deltas.capacity, h, e.(deltaCount := e.deltaCount + 1), data);
      }
    }

    lemma PairAfterReading(v: Vault, names: seq<Name>, base: Bytes, h: Bytes, content: ContentMap, rank: Bytes -> nat)
      requires PairOk(v, base, h, content, rank)
      ensures PairOk(AfterReading(v, names), base, h, content, rank)
    {
      hide PendingWith, AfterReads, NameLeft, DeltaLogOk;
      var w := AfterReading(v, names);
      ReadIs(v, names, apply, content);
      ReadPending(v, names, apply, content, rank);
      SameLogOk(v, w, deltas.max, deltas.capacity);
      DeltaFilesFit(v, deltas.max, deltas.capacity);
      assert DeltaLog(w, deltas.max, deltas.capacity) == DeltaLog(v, deltas.max, deltas.capacity);
      assert w.st.index == v.st.index;
    }

    lemma ReadingGood(v: Vault, names: seq<Name>, content: ContentMap)
      requires Good(v, apply, content, false)
      ensures Good(AfterReading(v, names), apply, content, false)
    {
      hide Good, AfterReads;
      ReadIs(v, names, apply, content);
      ReadGood(v, names, apply, content, false);
    }

    lemma SavingKeepsPending(v: Vault, names: seq<Name>, base: Bytes, h: Bytes, content: ContentMap, rank: Bytes -> nat)
      requires Good(v, apply, content, false) && PairOk(v, base, h, content, rank)
      requires Inverse(apply, create) && deltas.maxChunk <= deltas.max
      ensures var w := AfterSave(AfterReading(v, names), base, h, content);
              && Good(w, apply, content, false) && PendingGood(w, deltas.max, deltas.capacity, apply, content)
              && PendingWith(w, apply, content, rank)
    {
      hide Good, PendingWith, DeltaLogOk, AfterReads, AfterSave, PairOk;
      PairAfterReading(v, names, base, h, content, rank);
      ReadingGood(v, names, content);
      SaveKeepsPending(AfterReading(v, names), base, h, content, rank);
      SaveKeepsGood(AfterReading(v, names), base, h, content);
    }

    lemma AlwaysAllowed(v: Vault, content: ContentMap)
      ensures forall n :: Allowed(v, Op.Drop(n), apply, content)
      ensures forall names :: Allowed(v, Read(names), apply, content)
    {
    }

    lemma PendIs(v: Vault, pending: Index, files: DeltaFiles, config: Config, content: ContentMap)
      ensures Allowed(v, PendDeltas(pending, files, config), apply, content)
      ensures Do(v, PendDeltas(pending, files, config), apply, content)
           == v.(pending := pending, files := files, deltaConfig := config)
    {
    }

    lemma FirstOfAll(v: Vault, cs: seq<Command>, content: ContentMap)
      requires AllOk(v, cs, content) && cs != []
      ensures CommandOk(v, cs[0], content)
    {
      hide CommandOk, Leads;
    }

    lemma RestOfAll(v: Vault, cs: seq<Command>, w: Vault, content: ContentMap)
      requires AllOk(v, cs, content) && cs != [] && CommandOk(v, cs[0], content) && Leads(v, cs[0], w, content)
      ensures AllOk(w, cs[1..], content)
    {
      hide CommandOk, Leads;
    }

    lemma OpGood(v: Vault, op: Op, content: ContentMap, name: Bytes)
      requires Good(v, apply, content, false) && Allowed(v, op, apply, content)
      ensures Good(Do(v, op, apply, content), apply, content, false)
      ensures name in v.recipes && !Touches(op, name) ==>
                name in Do(v, op, apply, content).recipes && Do(v, op, apply, content).recipes[name] == v.recipes[name]
    {
      hide Good, Allowed, Do, Touches;
      DoGood(v, op, apply, content, false);
      if name in v.recipes && !Touches(op, name) {
        DoKeepsRecipe(v, op, apply, content, name);
      }
    }

    ghost function State(): Vault
      reads this, core, core.db, core.log, core.log.disk, core.log.current, core.log.current.body
      reads core.log.cached, core.log.cached.body, deltaDisk
      requires core.Valid()
    {
      Vault(core.State(), core.db.recipes, core.db.deltas, deltaDisk.files, core.db.deltaConfig)
    }

    function ChunksOf(file: Bytes): seq<Chunk> {
      Fingerprinted(fp, Chunks(p, file))
    }

    constructor (settings: Settings, deltas: DeltaSettings, fp: Fingerprint, create: Create,
                 core: SC.StorageCore, deltaDisk: Directory)
      requires deltas.maxChunk <= deltas.max <= deltas.capacity && Inverse(core.apply, create)
      requires core.Valid() && SettingsOk(settings, core.log.max) && core.log.max <= core.log.cached.body.Length
      requires deltaDisk !in core.Repr()
      ensures Valid() && this.core == core && this.deltaDisk == deltaDisk
      ensures this.settings == settings && this.fp == fp && this.apply == core.apply
      ensures this.deltas == deltas && this.create == create
    {
      var bits := MaskBits(settings.avg);
      this.settings, this.fp, this.core, this.deltaDisk := settings, fp, core, deltaDisk;
      this.deltas, this.create := deltas, create;
      this.p := Params(settings.window, settings.min, settings.max, bits);
      this.db, this.disk, this.apply, this.capacity := core.db, core.log.disk, core.apply, core.log.cached.body.Length;
    }

    /** Cuts a file, and stores its chunks and its recipe. */
    method BackUp(name: Bytes, file: Bytes, ghost content: ContentMap)
      requires Valid() && Good(State(), apply, content, false)
      requires Allowed(State(), Op.BackUp(name, ChunksOf(file)), apply, content)
      modifies Repr()
      ensures Valid() && core == old(core)
      ensures State() == Do(old(State()), Op.BackUp(name, ChunksOf(file)), apply, content)
    {
      hide Good, Allowed, Known, Sized, Chunks, DedupAll, RecipeOf, Indexed, IndexedFinal, EndsAtCut, Fingerprinted;
      hide PowersOk, RemovesOk, NoCutIn, HashOf, CutAfter, Do, Derived;
      BackUpKnown(State(), name, Chunks(p, file), fp, apply, content);
      BackUpIs(State(), name, ChunksOf(file), apply, content);
      var chunker := NewChunker(core, settings, p, fp);
      chunker.VarSizeChunking(name, file, settings.readSize, content);
    }

    /** Deletes a file: takes back the references of its whole recipe. */
    method Drop(name: Bytes, ghost content: ContentMap)
      requires Valid() && Good(State(), apply, content, false)
      modifies core.db
      ensures Valid() && State() == Do(old(State()), Op.Drop(name), apply, content)
    {
      hide Good, Derived, DeleteAll, ContainerLog.Valid;
      ghost var v := State();
      DropIs(v, name, apply, content);
      if name in db.recipes {
        var n := |db.recipes[name]|;
        assert db.recipes[name][0..n] == db.recipes[name];
        var ok, deleted := core.DeleteRecipeAndChunk(name, 0, n);
        if !ok {
          RecipeKnown(v, apply, content, name, deleted);
          assert false;
        }
      }
    }

    /** Closes the store and opens it again. */
    method Reopen()
      requires Valid()
      modifies Repr()
      ensures Valid() && fresh(Repr() - old(Repr())) && deltaDisk.files == old(deltaDisk.files)
      ensures State() == AfterReopen(old(State()))
      ensures db.config.Some? && db.config.value.0 == core.log.openName
    {
      hide Derived, ReopenedStore;
      core := SC.Reopen(core, capacity);
    }

    /** Collects garbage, on a store just opened. */
    method Collect(order: seq<Bytes>, ghost content: ContentMap)
      requires Valid() && Snapshot(core.db.chunks, order)
      requires Allowed(AfterReopen(State()), CollectGarbage, apply, content)
      modifies Repr()
      ensures Valid() && fresh(Repr() - old(Repr()))
      ensures State() == Do(AfterReopen(old(State())), CollectGarbage, apply, content)
    {
      hide Derived, ReopenedStore, Allowed, ContainerLog.Valid, RefCounts.Collect;
      CollectIs(AfterReopen(State()), apply, content);
      ReopenedIndex(State().st);
      Reopen();
      var manager := new M.Manager(core, deltaDisk);
      manager.GC(order);
    }

    /** Compacts, on a store just opened. */
    method Compact(names: seq<Name>, order: seq<Bytes>, ghost content: ContentMap)
      requires Valid() && Allowed(AfterReopen(State()), Op.Compact(order), apply, content)
      requires forall n :: n in AfterReopen(State()).st.sizes ==> n in names
      modifies Repr()
      ensures Valid() && fresh(Repr() - old(Repr()))
      ensures State() == Do(AfterReopen(old(State())), Op.Compact(order), apply, content)
    {
      hide Derived, SettingsOk, ReopenedStore, Allowed, Do, ContainerLog.Valid, Rewrite, Ready;
      CompactIs(AfterReopen(State()), order, apply, content);
      Reopen();
      CompactOpened(names, order);
    }

    method CompactOpened(names: seq<Name>, order: seq<Bytes>)
      requires Valid() && Ready(core.State(), |order|) && forall n :: n in core.db.sizes ==> n in names
      requires db.config.Some? && db.config.value.0 == core.log.openName
      modifies core.Repr()
      ensures Valid() && core == old(core)
      ensures State() == old(State()).(st := Rewrite(old(core.State()), order))
    {
      hide Derived, SettingsOk, ContainerLog.Valid, Rewrite, Ready;
      var manager := new M.Manager(core, deltaDisk);
      manager.RewriteContainer(names, order);
    }

    /** Installs the pending deltas, on a store just opened. */
    method Install(order: seq<Bytes>, ghost content: ContentMap)
      requires Valid() && Allowed(AfterReopen(State()), InstallDeltas(order), apply, content)
      modifies Repr()
      ensures Valid() && fresh(Repr() - old(Repr()))
      ensures State() == Do(AfterReopen(old(State())), InstallDeltas(order), apply, content)
    {
      hide Derived, ReopenedStore, Allowed, ContainerLog.Valid, Update, PassReady;
      InstallIs(AfterReopen(State()), order, apply, content);
      Reopen();
      var manager := new M.Manager(core, deltaDisk);
      assert manager.PassState(0) == Pass(State().st, State().pending, 0);
      manager.UpdateContainer(order);
    }

    /** Restores a range of a file, to the contents of its entries. */
    method Restore(name: Bytes, start: nat, end: nat, ghost content: ContentMap)
      returns (ok: bool, chunks: seq<RestoredChunk>, ghost names: seq<Name>)
      requires Valid() && Good(State(), apply, content, false)
      requires name in core.db.recipes ==> start <= end <= |core.db.recipes[name]|
      modifies core.log`cacheName, core.log.cached, core.log.cached.body
      ensures Valid() && State() == AfterReading(old(State()), names)
      ensures ok == (name in core.db.recipes)
      ensures ok ==> AsExpected(chunks, core.db.recipes[name], start, end, content)
    {
      hide Derived, ContainerLog.Valid, AfterReads, StoreGood, CountsAgree, RecipeFits, RestoreRange, Ranked, Sound;
      ghost var v := State();
      GoodHasRank(v, apply, content, false);
      ghost var rank :| Ranked(ContentsOf(v.st), rank);
      ok, chunks, names := core.RestoreRecipeAndChunk(name, start, end, ContentsOf(v.st), rank);
      if name in v.recipes {
        GoodRestoresRange(v, apply, content, false, rank, name, start, end);
      }
    }

    /** Restores a chunk to its content, if it is known. */
    method RestoreOne(h: Bytes, ghost content: ContentMap, ghost rank: Bytes -> nat)
      returns (data: Bytes, ghost names: seq<Name>)
      requires Valid() && Good(State(), apply, content, false) && PendingWith(State(), apply, content, rank)
      modifies core.log`cacheName, core.log.cached, core.log.cached.body
      ensures Valid() && State() == AfterReading(old(State()), names)
      ensures Good(State(), apply, content, false) && PendingWith(State(), apply, content, rank)
      ensures data == if h in State().st.index then San(content(h)) else []
    {
      hide Derived, ContainerLog.Valid, AfterReads, Good, PendingWith, Sound, ContentsOf, Ranked, San, Do, Allowed;
      WithRank(State(), content, rank);
      ghost var v := State();
      if h in v.st.index {
        GoodContent(v, content, rank, h);
      }
      var ok;
      ok, data, names := core.RestoreChunk(h, rank);
      ReadIs(v, names, apply, content);
      ReadGood(v, names, apply, content, false);
      ReadPending(v, names, apply, content, rank);
    }

    lemma WithRank(v: Vault, content: ContentMap, rank: Bytes -> nat)
      requires PendingWith(v, apply, content, rank)
      ensures Sound(v.st) && Ranked(ContentsOf(v.st), rank)
    {
    }

    /** Makes the delta of a known chunk pending: opens the compressor, saves it, and closes. */
    method SaveNew(h: Bytes, data: Bytes)
      requires Valid() && DeltaLogOk(State(), deltas.max, deltas.capacity) && |data| < deltas.maxChunk
      requires h in core.db.chunks
      modifies core.db, deltaDisk
      ensures Valid() && core == old(core)
      ensures Loadable(old(State()).files, old(State()).deltaConfig, deltas.capacity)
      ensures var e := old(core.db.chunks)[h];
              State() == SavedDelta(old(State()), deltas.max, deltas.capacity, h,
                                    e.(deltaCount := e.deltaCount + 1), data)
    {
      hide Derived, SettingsOk, ContainerLog.Valid, DeltaLogOk, Append, Placed, Flushed, Coherent, LaidOut, Inverse;
      DeltaFilesFit(State(), deltas.max, deltas.capacity);
      DC.SaveAndClose(deltaDisk, db, deltas.max, deltas.capacity, h, data);
    }

    /** Restores a pair to its contents. */
    method RestorePair(base: Bytes, h: Bytes, ghost content: ContentMap, ghost rank: Bytes -> nat)
      returns (baseData: Bytes, newData: Bytes, ghost names: seq<Name>)
      requires Valid() && Good(State(), apply, content, false) && PairOk(State(), base, h, content, rank)
      modifies core.log`cacheName, core.log.cached, core.log.cached.body
      ensures Valid() && State() == AfterReading(old(State()), names) && PairOk(State(), base, h, content, rank)
      ensures baseData == San(content(base)) && newData == if h in core.db.chunks then San(content(h)) else []
    {
      hide Good, PendingWith, Derived, SettingsOk, ContainerLog.Valid, San, AfterReads, PairOk, Inverse;
      ghost var v := State();
      PairParts(v, base, h, content, rank);
      ghost var names1, names2;
      baseData, names1 := RestoreOne(base, content, rank);
      newData, names2 := RestoreOne(h, content, rank);
      names := names1 + names2;
      ReadTwice(v, names1, names2, State(), content);
      PairAfterReading(v, names, base, h, content, rank);
    }

    /** One pair of similar chunks: restores both, and makes a delta of the second against the first
        pending exactly if that is worth it. */
    method SaveDelta(base: Bytes, h: Bytes, ghost content: ContentMap) returns (ghost names: seq<Name>)
      requires Valid() && Good(State(), apply, content, false) && SaveOk(State(), base, h, content)
      modifies Repr()
      ensures Valid() && core == old(core)
      ensures State() == AfterSave(AfterReading(old(State()), names), base, h, content)
    {
      hide Good, PendingWith, Derived, SettingsOk, ContainerLog.Valid, DeltaLogOk, NameLeft, San, SavedDelta;
      hide PairOk, SaveOk, Loadable, Inverse;
      ghost var rank := SaveRank(State(), base, h, content);
      var baseData, newData;
      baseData, newData, names := RestorePair(base, h, content, rank);
      PairParts(State(), base, h, content, rank);
      hide AfterReading;
      assert h in State().st.index ==> |newData| == |content(h)|;
      if base == h || Stem(baseData) == Stem(newData) {
        return;
      }
      var data := base + create(baseData, newData);
      if |newData| <= |data| || |data| >= deltas.maxChunk {
        return;
      }
      SaveNew(h, data);
    }

    lemma SaveRank(v: Vault, base: Bytes, h: Bytes, content: ContentMap) returns (rank: Bytes -> nat)
      requires SaveOk(v, base, h, content)
      ensures PairOk(v, base, h, content, rank)
    {
      hide PairOk;
      rank :| PairOk(v, base, h, content, rank);
    }

    lemma PairParts(v: Vault, base: Bytes, h: Bytes, content: ContentMap, rank: Bytes -> nat)
      requires PairOk(v, base, h, content, rank)
      ensures PendingWith(v, apply, content, rank) && DeltaLogOk(v, deltas.max, deltas.capacity)
      ensures base in v.st.index && Loadable(v.files, v.deltaConfig, deltas.capacity)
    {
      DeltaFilesFit(v, deltas.max, deltas.capacity);
    }

    lemma ReadTwice(v: Vault, names1: seq<Name>, names2: seq<Name>, w: Vault, content: ContentMap)
      requires w == AfterReading(AfterReading(v, names1), names2)
      ensures w == AfterReading(v, names1 + names2)
    {
      hide AfterReads;
      AfterReadsAppend(v.st.log, names1, names2);
    }

    /** The delta made of the restored chunks decodes to the content, and is not longer than the chunk. */
    lemma DeltaIsRight(v: Vault, base: Bytes, h: Bytes, tail: Bytes, content: ContentMap, rank: Bytes -> nat)
      requires Good(v, apply, content, false) && Inverse(apply, create)
      requires |base| == HASH_SIZE && base in v.st.index && h in v.st.index && v.st.index[h].deltaCount == 0
      requires rank(base) < rank(h) && tail == create(San(content(base)), San(content(h)))
      requires |base + tail| < |San(content(h))|
      ensures DeltaRight(base + tail, h, apply, content, rank) && Base(base + tail) in v.st.index
      ensures |base + tail| <= v.st.index[h].length
    {
      hide Good, San;
      assert (base + tail)[..HASH_SIZE] == base && (base + tail)[HASH_SIZE..] == tail;
      PlainLength(v, apply, content, h);
    }

    lemma GoodContent(v: Vault, content: ContentMap, rank: Bytes -> nat, h: Bytes)
      requires Good(v, apply, content, false) && Sound(v.st) && Ranked(ContentsOf(v.st), rank) && h in v.st.index
      ensures Restored(ContentsOf(v.st), apply, rank, h) == San(content(h))
    {
      hide Good, Sound, Ranked, ContentsOf, San;
      GoodSound(v, apply, content, false);
      GoodRestores(v.st, apply, content, false, rank, h);
    }

    method Perform(c: Command, ghost content: ContentMap)
      requires Valid() && Good(State(), apply, content, false) && CommandOk(State(), c, content)
      modifies Repr()
      ensures Valid() && fresh(Repr() - old(Repr())) && Leads(old(State()), c, State(), content)
    {
      hide Good, Allowed, Do, AfterReopen, ChunksOf, Snapshot, Derived;
      match c {
        case BackUpFile(name, file) => BackUp(name, file, content);
        case DropFile(name) => Drop(name, content);
        case ReopenStore => Reopen();
        case CollectAll(order) => Collect(order, content);
        case CompactAll(names, order) => Compact(names, order, content);
        case InstallAll(order) => Install(order, content);
        case RestoreFile(name, start, end) => var _, _, _ := Restore(name, start, end, content);
        case SaveDelta(base, h) => var _ := SaveDelta(base, h, content);
      }
    }

    /** The recipe of `name` is kept, and more commands may follow. */
    ghost predicate Going(cs: seq<Command>, content: ContentMap, name: Bytes, recipe: Recipe)
      reads this, core, core.db, core.log, core.log.disk, core.log.current, core.log.current.body
      reads core.log.cached, core.log.cached.body, deltaDisk
    {
      && Valid() && Good(State(), apply, content, false) && AllOk(State(), cs, content)
      && name in State().recipes && State().recipes[name] == recipe
      && forall i :: 0 <= i < |cs| ==> !CommandTouches(cs[i], name)
    }

    /** The first of the commands. */
    method PerformFirst(cs: seq<Command>, ghost content: ContentMap, ghost name: Bytes, ghost recipe: Recipe)
      requires cs != [] && Going(cs, content, name, recipe)
      modifies Repr()
      ensures fresh(Repr() - old(Repr())) && Going(cs[1..], content, name, recipe)
    {
      hide Good, CommandOk, Leads, CommandTouches, AllOk, SettingsOk, Derived, ContainerLog.Valid;
      ghost var v := State();
      FirstOfAll(v, cs, content);
      Perform(cs[0], content);
      RestOfAll(v, cs, State(), content);
      CommandGood(v, cs[0], State(), content, name);
    }

    /** Any number of commands. */
    method PerformAll(cs: seq<Command>, ghost content: ContentMap, ghost name: Bytes, ghost recipe: Recipe)
      requires Going(cs, content, name, recipe)
      modifies Repr()
      ensures fresh(Repr() - old(Repr())) && Going([], content, name, recipe)
    {
      hide Going;
      var i := 0;
      assert cs[0..] == cs;
      while i < |cs|
        invariant i <= |cs| && fresh(Repr() - old(Repr())) && Going(cs[i..], content, name, recipe)
      {
        assert cs[i..][1..] == cs[i + 1..];
        PerformFirst(cs[i..], content, name, recipe);
        i := i + 1;
      }
      assert cs[i..] == [];
    }

    /** A backup, and what may follow it. */
    method BackUpFirst(name: Bytes, file: Bytes, cs: seq<Command>, ghost content: ContentMap)
      requires Valid() && Good(State(), apply, content, false) && name !in State().recipes
      requires AllOk(State(), [BackUpFile(name, file)] + cs, content)
      requires forall i :: 0 <= i < |cs| ==> !CommandTouches(cs[i], name)
      modifies Repr()
      ensures core == old(core) && Going(cs, content, name, RecipeOf(ChunksOf(file)))
              && Known(Chunks(p, file), fp, content)
    {
      hide Good, Allowed, Do, CommandOk, Derived, Chunks, AllOk, Known, RecipeOf, Fingerprinted, SettingsOk;
      hide ContainerLog.Valid;
      ghost var v := State();
      FirstOk(v, name, file, cs, content);
      BackUpKnown(v, name, Chunks(p, file), fp, apply, content);
      BackUp(name, file, content);
      OpGood(v, Op.BackUp(name, ChunksOf(file)), content, name);
      BackUpIs(v, name, ChunksOf(file), apply, content);
      FreshRecipe(ChunksOf(file));
    }

    /** Restores a whole file. */
    method RestoreWhole(name: Bytes, file: Bytes, ghost content: ContentMap) returns (chunks: seq<RestoredChunk>)
      requires Going([], content, name, RecipeOf(ChunksOf(file))) && Known(Chunks(p, file), fp, content)
      modifies core.log`cacheName, core.log.cached, core.log.cached.body
      ensures Valid() && Good(State(), apply, content, false)
      ensures SameButNuls(file, JoinedBytes(chunks))
      ensures JoinedBytes(chunks) == file <==> forall i :: 0 <= i < |Chunks(p, file)| ==> Clean(Chunks(p, file)[i])
    {
      hide Good, Derived, Chunks, Clean, SameButNuls, JoinedBytes, AllOk, Known, RecipeOf, Fingerprinted, SettingsOk;
      hide ContainerLog.Valid;
      ghost var v := State();
      AlwaysAllowed(v, content);
      var ok, out;
      ghost var names;
      ok, out, names := Restore(name, 0, |db.recipes[name]|, content);
      hide Allowed, Do;
      ReadIs(v, names, apply, content);
      OpGood(v, Read(names), content, name);
      chunks := out;
      ComesBack(chunks, RecipeOf(ChunksOf(file)), p, file, fp, content);
    }

    /** A file is backed up under a fresh name, any commands are given that neither back up nor drop that
        name, and it is restored: it comes back but for its NULs, and as it was exactly if no chunk has a
        NUL outside its last two bytes. */
    method BackUpRunRestore(name: Bytes, file: Bytes, cs: seq<Command>, ghost content: ContentMap)
      returns (chunks: seq<RestoredChunk>)
      requires Valid() && Good(State(), apply, content, false) && name !in State().recipes
      requires AllOk(State(), [BackUpFile(name, file)] + cs, content)
      requires forall i :: 0 <= i < |cs| ==> !CommandTouches(cs[i], name)
      modifies Repr()
      ensures Valid() && fresh(Repr() - old(Repr())) && Good(State(), apply, content, false)
      ensures SameButNuls(file, JoinedBytes(chunks))
      ensures JoinedBytes(chunks) == file <==> forall i :: 0 <= i < |Chunks(p, file)| ==> Clean(Chunks(p, file)[i])
    {
      hide Going, Good, AllOk, Known, CommandTouches, SameButNuls, JoinedBytes, Chunks, Clean, RecipeOf, Derived;
      hide SettingsOk;
      hide ContainerLog.Valid;
      BackUpFirst(name, file, cs, content);
      PerformAll(cs, content, name, RecipeOf(ChunksOf(file)));
      chunks := RestoreWhole(name, file, content);
    }

    lemma FirstOk(v: Vault, name: Bytes, file: Bytes, cs: seq<Command>, content: ContentMap)
      requires AllOk(v, [BackUpFile(name, file)] + cs, content)
      ensures Allowed(v, Op.BackUp(name, ChunksOf(file)), apply, content)
      ensures AllOk(Do(v, Op.BackUp(name, ChunksOf(file)), apply, content), cs, content)
    {
      hide Allowed, Do, ChunksOf;
      var c := BackUpFile(name, file);
      assert ([c] + cs)[0] == c && ([c] + cs)[1..] == cs;
      assert Leads(v, c, Do(v, Op.BackUp(name, ChunksOf(file)), apply, content), content);
    }
  }

  lemma FreshRecipe(chunks: seq<Chunk>)
    ensures [] + RecipeOf(chunks) == RecipeOf(chunks)
  {
  }

  lemma PlainLength(v: Vault, apply: Apply, content: ContentMap, h: Bytes)
    requires Good(v, apply, content, false) && h in v.st.index && v.st.index[h].deltaCount == 0
    ensures v.st.index[h].length == |content(h)|
  {
    hide Good, Sound, ContentsOf, San;
    PlainBytes(v, apply, content, h);
    ContentLength(v.st, h);
    assert |San(content(h))| == |content(h)|;
  }

  lemma DeltaFilesFit(v: Vault, max: nat, capacity: nat)
    requires DeltaLogOk(v, max, capacity)
    ensures Loadable(v.files, v.deltaConfig, capacity) && max <= capacity
    ensures forall n :: n in v.files ==> |v.files[n]| <= capacity
  {
    assert Coherent(DeltaLog(v, max, capacity));
  }

  lemma ReopenedIndex(st: Store)
    ensures ReopenedStore(st).index == st.index
  {
  }

  lemma CollectIs(v: Vault, apply: Apply, content: ContentMap)
    requires Allowed(v, CollectGarbage, apply, content)
    ensures Do(v, CollectGarbage, apply, content) == v.(st := v.st.(index := Collect(v.st.index)))
  {
    hide Allowed;
  }

  lemma BackUpIs(v: Vault, name: Bytes, chunks: seq<Chunk>, apply: Apply, content: ContentMap)
    requires Allowed(v, Op.BackUp(name, chunks), apply, content)
    ensures Do(v, Op.BackUp(name, chunks), apply, content)
         == v.(st := DedupAll(v.st, chunks),
               recipes := v.recipes[name := (if name in v.recipes then v.recipes[name] else []) + RecipeOf(chunks)])
  {
    hide Allowed;
  }

  /** What backing up asks of the chunks is what the chunker asks. */
  lemma BackUpKnown(v: Vault, name: Bytes, datas: seq<Bytes>, fp: Fingerprint, apply: Apply, content: ContentMap)
    requires Good(v, apply, content, false)
    requires Allowed(v, Op.BackUp(name, Fingerprinted(fp, datas)), apply, content)
    ensures Known(datas, fp, content) && Sized(v.st.index, content)
  {
    GoodSound(v, apply, content, false);
    var chunks := Fingerprinted(fp, datas);
    forall i | 0 <= i < |datas| ensures content(fp(datas[i])) == datas[i] {
      assert Storable(v.st, chunks[i], content);
    }
  }
}
