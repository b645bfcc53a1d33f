/** The storage core, updating its containers and databases in place. */
module StorageCore {
  import opened Bytes
  import opened Names
  import opened Options
  import L = Log
  import S = Store
  import D = Deltas
  import C = Compaction
  import opened RefCounts
  import opened Restore
  import opened Containers

  /** The databases, shared by all parts of the program, and the two configuration files. */
  class Databases {
    var chunks: L.Index
    var sizes: map<Name, int>
    var recipes: Recipes
    var deltas: L.Index
    var config: L.Config
    var deltaConfig: L.Config

    constructor ()
      ensures chunks == map[] && sizes == map[] && recipes == map[] && deltas == map[]
      ensures config == deltaConfig == None
    {
      chunks, sizes, recipes, deltas, config, deltaConfig := map[], map[], map[], map[], None, None;
    }
  }

  /** Rewrites the NULs of a buffer in place, as far as two bytes before `length`. */
  method Sanitise(data: array<byte>, length: nat)
    requires length <= data.Length
    modifies data
    ensures data[..length] == San(old(data[..length])) && data[length..] == old(data[length..])
  {
    var i := 0;
    while i + 2 < length
      invariant i <= length
      invariant forall j :: 0 <= j < i ==> data[j] == if old(data[j]) == 0 then MARK else old(data[j])
      invariant forall j :: i <= j < data.Length ==> data[j] == old(data[j])
      invariant i + 1 < length || i == 0
    {
      if data[i] == 0 {
        data[i] := MARK;
      }
      i := i + 1;
    }
  }

  class StorageCore {
    const log: ContainerLog
    const db: Databases
    const apply: D.Apply

    ghost predicate Valid()
      reads this, log, log.disk, log.current, log.cached
    {
      log.Valid()
    }

    ghost function State(): S.Store
      reads this, db, log, log.disk, log.current, log.current.body, log.cached, log.cached.body
      requires Valid()
    {
      S.Store(log.Model(), db.chunks, db.sizes)
    }

    ghost function Repr(): set<object> {
      log.Repr() + {this, db}
    }

    constructor (disk: Directory, db: Databases, apply: D.Apply, max: nat, capacity: nat)
      requires max <= capacity && forall n :: n in disk.files ==> |disk.files[n]| <= capacity
      requires L.Loadable(disk.files, db.config, capacity)
      ensures Valid() && this.db == db && this.apply == apply && log.disk == disk && fresh(Repr() - {disk, db})
      ensures log.max == max && log.cached.body.Length == capacity
      ensures log.Model() == L.Log(max, disk.files,
                L.OpenNameOf(db.config, INITIAL_NAME), L.LoadedOpen(disk.files, db.config, capacity), [], [])
    {
      this.db := db;
      this.apply := apply;
      this.log := new ContainerLog(disk, max, capacity, db.config, INITIAL_NAME);
    }

    /** The destructor: remembers the open container and writes it to its file. */
    method Close()
      requires Valid()
      modifies db, log.disk
      ensures db.config == Some((log.openName, log.current.used))
      ensures log.disk.files == L.Flushed(old(log.Model()))
      ensures db.sizes == old(db.sizes)[log.openName := log.current.used]
      ensures db.chunks == old(db.chunks) && db.recipes == old(db.recipes) && db.deltas == old(db.deltas)
      ensures db.deltaConfig == old(db.deltaConfig)
    {
      db.config := Some((log.openName, log.current.used));
      log.current.SaveToFile(log.openName, log.disk);
      db.sizes := db.sizes[log.openName := log.current.used];
    }

    method SaveChunk(h: Bytes, chunkData: array<byte>, chunkSize: nat) returns (ok: bool)
      requires Valid() && chunkData !in Repr() && chunkSize <= chunkData.Length
      requires S.Key(db.chunks, h, chunkSize).length <= chunkSize
      requires S.Key(db.chunks, h, chunkSize).length < log.max
      modifies chunkData, db`chunks, db`sizes, log`openName, log.disk, log.current, log.current.body
      ensures Valid() && ok
      ensures State() == S.SaveChunk(old(State()), h, old(chunkData[..chunkSize]))
    {
      hide San, L.MadeRoom, L.Append, L.Placed, L.Rolls;
      ghost var data := chunkData[..chunkSize];
      ghost var before := State();
      var key := if h in db.chunks then db.chunks[h] else L.Entry([], 0, chunkSize, 1, 0);
      Sanitise(chunkData, key.length);
      assert chunkData[..key.length] == S.Payload(before, h, data) by {
        assert old(chunkData[..key.length]) == data[..key.length];
      }
      assert log.Model() == before.log;
      var name, used := log.openName, log.current.used;
      var key', rolled := log.Append(key, chunkData);
      db.chunks := db.chunks[h := key'];
      if rolled {
        db.sizes := db.sizes[name := used];
      }
      ok := true;
    }

    /** The stored bytes of a chunk, as they are. */
    method RetriveChunk(h: Bytes) returns (ok: bool, data: Bytes)
      requires Valid() && S.Sound(State())
      modifies log`cacheName, log.cached, log.cached.body
      ensures Valid() && ok == (h in db.chunks)
      ensures ok ==> data == S.Stored(old(State()))[h] && State() == C.ReadBack(old(State()), h)
      ensures !ok ==> State() == old(State())
    {
      if h in db.chunks {
        var key := db.chunks[h];
        SourcesHold(State(), h);
        ok, data := log.ReadContainer(key);
      } else {
        ok, data := false, [];
      }
    }

    /** The bytes of a chunk; a delta is applied to its restored base, or to nothing if that is gone.
        Only the containers `names` are read. */
    method RestoreChunk(h: Bytes, ghost rank: Bytes -> nat) returns (ok: bool, data: Bytes, ghost names: seq<Name>)
      requires Valid() && S.Sound(State()) && D.Ranked(D.ContentsOf(State()), rank)
      modifies log`cacheName, log.cached, log.cached.body
      ensures Valid() && S.Sound(State()) && D.ContentsOf(State()) == D.ContentsOf(old(State()))
      ensures ok == (h in db.chunks)
      ensures data == if ok then D.Restored(D.ContentsOf(State()), apply, rank, h) else []
      ensures log.Model() == L.AfterReads(old(log.Model()), names)
      decreases rank(h)
    {
      hide S.Sound, D.ContentsOf, S.Stored, L.AfterRead, L.AfterReads;
      ghost var before := State();
      var chunkData: Bytes;
      ok, chunkData := RetriveChunk(h);
      ReadBackContents(before, h);
      if !ok {
        NoReads(log.Model());
        return false, [], [];
      }
      assert D.RankedAt(D.ContentsOf(before)[h], h, rank);
      StoredContent(before, h);
      names := [];
      if db.chunks[h].deltaCount > 0 {
        var found, base;
        found, base, names := RestoreChunk(chunkData[..HASH_SIZE], rank);
        data := apply(base, chunkData[HASH_SIZE..]);
      } else {
        NoReads(log.Model());
        data := chunkData;
      }
      OneMoreRead(before.log, db.chunks[h].name, names);
      names := [db.chunks[h].name] + names;
    }

    method DeleteChunk(h: Bytes) returns (ok: bool)
      modifies db`chunks
      ensures ok == (h in old(db.chunks)) && db.chunks == RefCounts.DeleteChunk(old(db.chunks), h)
    {
      ok := h in db.chunks;
      if ok {
        var key := db.chunks[h];
        db.chunks := db.chunks[h := key.(count := Dec(key.count))];
      }
    }

    /** Saves a recipe, behind the entries of an existing one. */
    method CheckRecipeStatus(file: Bytes, recipe: Recipe) returns (ok: bool)
      modifies db`recipes
      ensures ok
      ensures db.recipes
              == old(db.recipes)[file := (if file in old(db.recipes) then old(db.recipes)[file] else []) + recipe]
    {
      if file in db.recipes {
        db.recipes := db.recipes[file := db.recipes[file] + recipe];
      } else {
        db.recipes := db.recipes[file := recipe];
        assert recipe == [] + recipe;
      }
      ok := true;
    }

    /** The store is sound and has the given, acyclic, contents. */
    ghost predicate Holds(cs: D.Contents, rank: Bytes -> nat)
      reads this, db, log, log.disk, log.current, log.current.body, log.cached, log.cached.body
    {
      Valid() && S.Sound(State()) && D.ContentsOf(State()) == cs && D.Ranked(cs, rank)
    }

    /** Restores one recipe entry, if its bytes have the recorded size. */
    method RestoreEntry(e: RecipeEntry, ghost cs: D.Contents, ghost rank: Bytes -> nat)
      returns (ok: bool, chunk: RestoredChunk, ghost names: seq<Name>)
      requires Holds(cs, rank)
      modifies log`cacheName, log.cached, log.cached.body
      ensures Holds(cs, rank) && ok == Restorable(cs, apply, rank, e)
      ensures ok <==> e.chunkHash in cs && |D.Restored(cs, apply, rank, e.chunkHash)| == e.chunkSize
      ensures ok ==> chunk == RestoredEntry(cs, apply, rank, e)
      ensures log.Model() == L.AfterReads(old(log.Model()), names)
    {
      hide S.Sound, D.Ranked, D.Restored, L.AfterReads, D.ContentsOf;
      var found, data;
      found, data, names := RestoreChunk(e.chunkHash, rank);
      ok := found && |data| == e.chunkSize;
      chunk := RestoredChunk(e.chunkID, e.chunkHash, data);
    }

    method RestoreEntries(recipe: Recipe, start: nat, end: nat, ghost cs: D.Contents, ghost rank: Bytes -> nat)
      returns (chunks: seq<RestoredChunk>, ghost names: seq<Name>)
      requires Holds(cs, rank) && start <= end <= |recipe|
      modifies log`cacheName, log.cached, log.cached.body
      ensures Holds(cs, rank) && chunks == RestoreRange(cs, apply, rank, recipe, start, end)
      ensures log.Model() == L.AfterReads(old(log.Model()), names)
    {
      hide Holds, D.Ranked, Restorable, RestoredEntry, RestoreRange, L.AfterReads, ContainerLog.Valid;
      HoldsRanked(cs, rank);
      chunks, names := [], [];
      NoReads(log.Model());
      var i := start;
      while i < end
        invariant start <= i <= end && Holds(cs, rank) && log.Valid()
        invariant chunks + RestoreRange(cs, apply, rank, recipe, i, end)
                  == RestoreRange(cs, apply, rank, recipe, start, end)
        invariant log.Model() == L.AfterReads(old(log.Model()), names)
      {
        RestoreOneMore(cs, apply, rank, recipe, i, end, chunks);
        var found, chunk;
        ghost var more;
        found, chunk, more := RestoreEntry(recipe[i], cs, rank);
        HoldsRanked(cs, rank);
        L.AfterReadsAppend(old(log.Model()), names, more);
        names := names + more;
        if !found {
          return;
        }
        chunks := chunks + [chunk];
        i := i + 1;
      }
      RestoreNone(cs, apply, rank, recipe, end);
    }

    lemma HoldsRanked(cs: D.Contents, rank: Bytes -> nat)
      requires Holds(cs, rank)
      ensures D.Ranked(cs, rank) && log.Valid()
    {
    }

    /** Restores the chunks of recipe entries `[start, end)`, stopping at the first that fails. */
    method RestoreRecipeAndChunk(file: Bytes, start: nat, end: nat, ghost cs: D.Contents, ghost rank: Bytes -> nat)
      returns (ok: bool, chunks: seq<RestoredChunk>, ghost names: seq<Name>)
      requires Holds(cs, rank)
      requires file in db.recipes ==> start <= end <= |db.recipes[file]|
      modifies log`cacheName, log.cached, log.cached.body
      ensures Holds(cs, rank)
      ensures file !in db.recipes ==> !ok && chunks == []
      ensures file in db.recipes ==>
                chunks == RestoreRange(cs, apply, rank, db.recipes[file], start, end) && ok == (|chunks| == end - start)
      ensures log.Model() == L.AfterReads(old(log.Model()), names)
    {
      hide L.AfterReads, RestoreRange, D.Ranked;
      if file !in db.recipes {
        NoReads(log.Model());
        return false, [], [];
      }
      chunks, names := RestoreEntries(db.recipes[file], start, end, cs, rank);
      ok := |chunks| == end - start;
    }

    /** Takes back the references of recipe entries `[start, end)` and forgets the whole recipe;
        stops, keeping the recipe, at a fingerprint that is not known. */
    method DeleteRecipeAndChunk(file: Bytes, start: nat, end: nat) returns (ok: bool, deleted: nat)
      requires file in db.recipes ==> start <= end <= |db.recipes[file]|
      modifies db`chunks, db`recipes
      ensures file !in old(db.recipes) ==> !ok && db.chunks == old(db.chunks) && db.recipes == old(db.recipes)
      ensures file in old(db.recipes) ==>
                var recipe := old(db.recipes)[file];
                && start + deleted <= end
                && db.chunks == DeleteAll(old(db.chunks), recipe[start..start + deleted])
                && ok == (deleted == end - start)
                && (!ok ==> recipe[start + deleted].chunkHash !in old(db.chunks))
                && db.recipes == if ok then old(db.recipes) - {file} else old(db.recipes)
    {
      deleted := 0;
      if file !in db.recipes {
        return false, 0;
      }
      var recipe := db.recipes[file];
      while deleted < end - start
        invariant deleted <= end - start
        invariant db.chunks == DeleteAll(old(db.chunks), recipe[start..start + deleted])
        invariant db.recipes == old(db.recipes)
      {
        assert recipe[start..start + (deleted + 1)][..deleted] == recipe[start..start + deleted];
        var found := DeleteChunk(recipe[start + deleted].chunkHash);
        if !found {
          return false, deleted;
        }
        deleted := deleted + 1;
      }
      db.recipes := db.recipes - {file};
      ok := true;
    }
  }

  /** Closes a core and opens a new one on the same directory and databases. */
  method Reopen(core: StorageCore, capacity: nat) returns (core': StorageCore)
    requires core.Valid() && core.log.max <= capacity && core.log.cached.body.Length <= capacity
    modifies core.db, core.log.disk
    ensures core'.Valid() && core'.db == core.db && core'.log.disk == core.log.disk && core'.apply == core.apply
    ensures core'.State() == S.ReopenedStore(old(core.State()))
    ensures fresh(core'.Repr() - {core.db, core.log.disk}) && core'.log.max == core.log.max
    ensures core'.log.cached.body.Length == capacity
    ensures core.db.config.Some? && core.db.config.value.0 == core'.log.openName
    ensures core.db.recipes == old(core.db.recipes) && core.db.deltas == old(core.db.deltas)
    ensures core.db.deltaConfig == old(core.db.deltaConfig)
  {
    core.Close();
    core' := new StorageCore(core.log.disk, core.db, core.apply, core.log.max, capacity);
  }

  lemma NoReads(log: L.Log)
    ensures L.AfterReads(log, []) == log
  {
  }

  lemma OneMoreRead(log: L.Log, name: Name, names: seq<Name>)
    ensures L.AfterReads(log, [name] + names) == L.AfterReads(L.AfterRead(log, name), names)
  {
    assert ([name] + names)[1..] == names;
  }

  lemma SourcesHold(st: S.Store, h: Bytes)
    requires S.Sound(st) && h in st.index
    ensures var e := st.index[h];
            L.Source(st.log, e.name).Some? && L.Fits(e, L.Source(st.log, e.name).value)
            && L.Cut(e, L.Source(st.log, e.name).value) == S.Stored(st)[h]
  {
    hide Less;
    L.SourcesAgree(st.log, st.index[h]);
  }

  lemma StoredContent(st: S.Store, h: Bytes)
    requires S.Sound(st) && h in st.index
    ensures D.ContentsOf(st)[h] == D.Content(S.Stored(st)[h], st.index[h].deltaCount > 0)
  {
  }

  lemma ReadBackContents(st: S.Store, h: Bytes)
    requires S.Sound(st)
    ensures h in st.index ==> S.Sound(C.ReadBack(st, h)) && D.ContentsOf(C.ReadBack(st, h)) == D.ContentsOf(st)
  {
    hide S.Sound, S.Stored;
    if h in st.index {
      C.ReadBackKeeps(st, h);
    }
  }
}
