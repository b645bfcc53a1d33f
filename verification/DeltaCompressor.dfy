/** The store of pending deltas: its own container log, in its own directory. */
module DeltaCompressor {
  import opened Bytes
  import opened Names
  import opened Options
  import L = Log
  import P = DeltaPass
  import opened Containers
  import opened StorageCore

  class DeltaCompressor {
    const log: ContainerLog
    const db: Databases

    ghost predicate Valid()
      reads this, log, log.disk, log.current, log.cached
    {
      log.Valid()
    }

    constructor (disk: Directory, db: Databases, max: nat, capacity: nat)
      requires max <= capacity && forall n :: n in disk.files ==> |disk.files[n]| <= capacity
      requires L.Loadable(disk.files, db.deltaConfig, capacity)
      ensures Valid() && this.db == db && log.disk == disk && fresh(log.Repr() - {disk})
      ensures log.Model()
              == L.Log(max, disk.files, L.OpenNameOf(db.deltaConfig, INITIAL_NAME),
                       L.LoadedOpen(disk.files, db.deltaConfig, capacity), [], [])
    {
      this.db := db;
      this.log := new ContainerLog(disk, max, capacity, db.deltaConfig, INITIAL_NAME);
    }

    /** The destructor remembers the open delta container and writes it to its file. */
    method Close()
      requires Valid()
      modifies db`deltaConfig, log.disk
      ensures db.deltaConfig == Some((log.openName, log.current.used))
      ensures log.disk.files == L.Flushed(old(log.Model()))
    {
      db.deltaConfig := Some((log.openName, log.current.used));
      log.current.SaveToFile(log.openName, log.disk);
    }

    /** Saves a delta for a known chunk as pending: one delta more than its record has. */
    method SaveDeltaChunk(h: Bytes, chunkData: array<byte>, chunkSize: nat) returns (ok: bool)
      requires Valid() && chunkData !in log.Repr() && chunkSize <= chunkData.Length && chunkSize < log.max
      modifies db`deltas, log`openName, log.disk, log.current, log.current.body
      ensures Valid() && ok == (h in db.chunks)
      ensures !ok ==> db.deltas == old(db.deltas) && log.Model() == old(log.Model())
      ensures ok ==>
                var e := db.chunks[h];
                && log.Model() == L.Append(old(log.Model()), chunkData[..chunkSize])
                && db.deltas
                  == old(db.deltas)[h :=
                    L.Placed(old(log.Model()), e.(deltaCount := e.deltaCount + 1), chunkData[..chunkSize])]
    {
      hide L.Append, L.Rolls, L.MadeRoom;
      ok := h in db.chunks;
      if ok {
        var key := db.chunks[h].(deltaCount := db.chunks[h].deltaCount + 1, length := chunkSize);
        var key', _ := log.Append(key, chunkData);
        db.deltas := db.deltas[h := key'];
      }
    }

    /** The bytes of a pending delta. */
    method RestoreDeltaChunk(h: Bytes) returns (ok: bool, data: Bytes)
      requires Valid() && L.Coherent(log.Model()) && L.LaidOut(log.Model(), db.deltas)
      modifies log`cacheName, log.cached, log.cached.body
      ensures Valid() && ok == (h in db.deltas)
      ensures ok ==> data == L.Slots(old(log.Model()), db.deltas)[h]
      ensures L.Coherent(log.Model()) && L.LaidOut(log.Model(), db.deltas)
      ensures L.Slots(log.Model(), db.deltas) == L.Slots(old(log.Model()), db.deltas)
    {
      ghost var before := log.Model();
      ok := h in db.deltas;
      data := [];
      if ok {
        L.SourcesAgree(before, db.deltas[h]);
        L.SlotsIgnoreCache(before, L.AfterRead(before, db.deltas[h].name), db.deltas);
        ok, data := log.ReadContainer(db.deltas[h]);
      }
    }
  }

  /** Opens the delta store, saves one delta for a known chunk, and closes it. */
  method SaveAndClose(disk: Directory, db: Databases, max: nat, capacity: nat, h: Bytes, data: Bytes)
    requires max <= capacity && forall n :: n in disk.files ==> |disk.files[n]| <= capacity
    requires L.Loadable(disk.files, db.deltaConfig, capacity) && |data| < max && h in db.chunks
    modifies db`deltas, db`deltaConfig, disk
    ensures var log := L.Log(max, old(disk.files), L.OpenNameOf(old(db.deltaConfig), INITIAL_NAME),
                             L.LoadedOpen(old(disk.files), old(db.deltaConfig), capacity), [], []);
            var log', e := L.Append(log, data), db.chunks[h];
            && db.deltas == old(db.deltas)[h := L.Placed(log, e.(deltaCount := e.deltaCount + 1), data)]
            && disk.files == L.Flushed(log') && db.deltaConfig == Some((log'.openName, |log'.open|))
  {
    hide L.Append, L.Placed, L.Flushed, ContainerLog.Valid;
    var buffer := new byte[|data|](i requires 0 <= i < |data| => data[i]);
    assert buffer[..|data|] == data;
    var compressor := new DeltaCompressor(disk, db, max, capacity);
    var _ := compressor.SaveDeltaChunk(h, buffer, |data|);
    compressor.log.OpenLength();
    compressor.Close();
  }

  /** Once the delta store is closed, every pending delta can be read from its file: this is what
      the delta pass starts from. */
  lemma ClosedDeltasReadable(log: L.Log, deltas: L.Index, h: Bytes)
    requires L.Coherent(log) && L.LaidOut(log, deltas) && h in deltas
    ensures P.Readable(L.Flushed(log), deltas[h])
    ensures P.DeltaBytes(L.Flushed(log), deltas[h]) == L.Slots(log, deltas)[h]
  {
    assert L.Held(log, deltas[h]);
  }

  /** Saving a delta keeps all other pending deltas readable, and this one reads back as saved. */
  lemma SavedDeltaReadable(log: L.Log, deltas: L.Index, h: Bytes, e: L.Entry, data: Bytes, g: Bytes)
    requires L.Coherent(log) && L.LaidOut(log, deltas)
    requires |data| < log.max && L.NameLeft(log, |data|) && (g == h || g in deltas)
    ensures var log', deltas' := L.Append(log, data), deltas[h := L.Placed(log, e, data)];
            && P.Readable(L.Flushed(log'), deltas'[g])
            && P.DeltaBytes(L.Flushed(log'), deltas'[g]) == if g == h then data else L.Slots(log, deltas)[g]
  {
    hide L.Append, L.Placed, L.Coherent, L.LaidOut, L.Slots, L.Flushed, P.Readable, P.DeltaBytes;
    L.AppendStores(log, deltas, h, e, data);
    ClosedDeltasReadable(L.Append(log, data), deltas[h := L.Placed(log, e, data)], g);
  }
}
