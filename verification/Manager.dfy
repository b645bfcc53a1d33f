/** The manager: garbage collection, compaction and the delta pass, over a storage core. */
module Manager {
  import opened Bytes
  import opened Names
  import L = Log
  import S = Store
  import D = Deltas
  import P = DeltaPass
  import C = Compaction
  import R = RefCounts
  import opened Containers
  import opened StorageCore

  class Manager {
    const storage: StorageCore
    const deltaDisk: Directory
    const lastName: Name

    constructor (storage: StorageCore, deltaDisk: Directory)
      ensures this.storage == storage && this.deltaDisk == deltaDisk
      ensures lastName == if storage.db.config.Some? then storage.db.config.value.0 else INITIAL_NAME
    {
      this.storage := storage;
      this.deltaDisk := deltaDisk;
      this.lastName := if storage.db.config.Some? then storage.db.config.value.0 else INITIAL_NAME;
    }

    /** Drops every entry whose count is zero; `order` is the iterator's snapshot of the fingerprints. */
    method GC(order: seq<Bytes>)
      requires C.Snapshot(storage.db.chunks, order)
      modifies storage.db`chunks
      ensures storage.db.chunks == R.Collect(old(storage.db.chunks))
    {
      var db := storage.db;
      var i := 0;
      while i < |order|
        invariant i <= |order|
        invariant forall h :: h in db.chunks <==>
                  h in old(db.chunks) && (h in order[..i] ==> old(db.chunks)[h].count != 0)
        invariant forall h :: h in db.chunks ==> db.chunks[h] == old(db.chunks)[h]
      {
        var h := order[i];
        assert order[..i + 1] == order[..i] + [h];
        if h in db.chunks && db.chunks[h].count == 0 {
          db.chunks := db.chunks - {h};
        }
        i := i + 1;
      }
      assert order[..i] == order;
    }

    /** Collects the small containers and forgets their sizes; `order` is a snapshot of the names. */
    method SmallContainers(order: seq<Name>) returns (small: seq<Name>)
      requires forall n :: n in storage.db.sizes ==> n in order
      modifies storage.db`sizes
      ensures (set n | n in small) == C.Doomed(old(storage.db.sizes), lastName)
      ensures storage.db.sizes == old(storage.db.sizes) - C.Doomed(old(storage.db.sizes), lastName)
    {
      var db := storage.db;
      ghost var doomed := C.Doomed(db.sizes, lastName);
      small := [];
      var i := 0;
      while i < |order|
        invariant i <= |order|
        invariant forall n :: n in small <==> n in doomed && n in order[..i]
        invariant forall n :: n in db.sizes <==> n in old(db.sizes) && !(n in doomed && n in order[..i])
        invariant forall n :: n in db.sizes ==> db.sizes[n] == old(db.sizes)[n]
      {
        var n := order[i];
        assert order[..i + 1] == order[..i] + [n];
        if n in db.sizes && db.sizes[n] <= C.REWRITE_LIMIT && n != lastName {
          small := small + [n];
          db.sizes := db.sizes - {n};
        }
        i := i + 1;
      }
      assert order[..i] == order;
    }

    method Listed(name: Name, names: seq<Name>) returns (found: bool)
      ensures found == (name in names)
    {
      found := false;
      var i := 0;
      while i < |names|
        invariant i <= |names| && found == (name in names[..i])
      {
        if name == names[i] {
          return true;
        }
        i := i + 1;
      }
    }

    /** Reads the stored bytes of a chunk and saves them again. */
    method SaveAgain(h: Bytes, ghost n: nat)
      requires storage.Valid() && S.Ready(storage.State(), n + 1) && h in storage.db.chunks
      modifies storage.db`chunks, storage.db`sizes, storage.log, storage.log.disk
      modifies storage.log.current, storage.log.current.body, storage.log.cached, storage.log.cached.body
      ensures storage.Valid() && storage.State() == C.Relocate(old(storage.State()), h)
    {
      hide S.Sound, S.Stored, S.SaveChunk, Room, Less;
      ghost var before := storage.State();
      C.ReadBackKeeps(before, h);
      var _, data := storage.RetriveChunk(h);
      var buffer := new byte[|data|](i requires 0 <= i < |data| => data[i]);
      assert buffer[..|data|] == data;
      var _ := storage.SaveChunk(h, buffer, |data|);
    }

    /** Saves again, one by one, the chunks of the listed containers. */
    method RelocateChunks(small: seq<Name>, ghost doomed: set<Name>, order: seq<Bytes>)
      requires storage.Valid() && S.Ready(storage.State(), |order|)
      requires doomed == (set n | n in small) && C.AllBelow(doomed, storage.State().log.openName)
      modifies storage.db`chunks, storage.db`sizes, storage.log, storage.log.disk
      modifies storage.log.current, storage.log.current.body, storage.log.cached, storage.log.cached.body
      ensures storage.Valid() && storage.State() == C.RelocateAll(old(storage.State()), doomed, order)
    {
      hide S.Ready, C.Relocate, C.AllBelow;
      ghost var st0 := storage.State();
      var i := 0;
      while i < |order|
        invariant i <= |order| && storage.Valid()
        invariant S.Ready(storage.State(), |order| - i) && C.AllBelow(doomed, storage.State().log.openName)
        invariant C.RelocateAll(storage.State(), doomed, order[i..]) == C.RelocateAll(st0, doomed, order)
      {
        ghost var st := storage.State();
        var h := order[i];
        ReadyIsSound(st, |order| - i);
        C.RelocateAllStep(st, doomed, order[i..]);
        assert order[i..][0] == h && order[i..][1..] == order[i + 1..];
        if h in storage.db.chunks {
          var listed := Listed(storage.db.chunks[h].name, small);
          if listed {
            SaveAgain(h, |order| - i - 1);
          }
        }
        i := i + 1;
      }
      ReadyIsSound(storage.State(), 0);
    }

    method DeleteFiles(names: seq<Name>)
      modifies storage.log.disk
      ensures storage.log.disk.files == old(storage.log.disk.files) - (set n | n in names)
    {
      var disk := storage.log.disk;
      var i := 0;
      while i < |names|
        invariant i <= |names|
        invariant disk.files == old(disk.files) - (set n | n in names[..i])
      {
        assert names[..i + 1] == names[..i] + [names[i]];
        disk.files := disk.files - {names[i]};
        i := i + 1;
      }
      assert names[..i] == names;
    }

    /** Compacts the store: `names` and `order` are the iterators' snapshots of the containers with
        recorded sizes and of the fingerprints. Pending deltas and their files are left alone. */
    method RewriteContainer(names: seq<Name>, order: seq<Bytes>)
      requires storage.Valid() && S.Ready(storage.State(), |order|) && lastName == storage.log.openName
      requires deltaDisk != storage.log.disk
      requires forall n :: n in storage.db.sizes ==> n in names
      modifies storage.db`chunks, storage.db`sizes, storage.log, storage.log.disk
      modifies storage.log.current, storage.log.current.body, storage.log.cached, storage.log.cached.body
      ensures storage.Valid() && storage.State() == C.Rewrite(old(storage.State()), order)
      ensures forall n :: n in old(storage.db.sizes) && n != lastName && old(storage.db.sizes)[n] <= 8300000 ==>
                n !in storage.log.disk.files && n !in storage.db.sizes
      ensures forall n :: n in old(storage.log.disk.files) && n != lastName
                          && (n !in old(storage.db.sizes) || old(storage.db.sizes)[n] > 8300000) ==>
                && n in storage.log.disk.files && storage.log.disk.files[n] == old(storage.log.disk.files)[n]
                && (n in storage.db.sizes <==> n in old(storage.db.sizes))
                && (n in storage.db.sizes ==> storage.db.sizes[n] == old(storage.db.sizes)[n])
      ensures storage.db.deltas == old(storage.db.deltas) && deltaDisk.files == old(deltaDisk.files)
    {
      hide C.RelocateAll, C.Doomed, L.Coherent, L.LaidOut, Room;
      ghost var st := storage.State();
      ghost var doomed := C.Doomed(st.sizes, lastName);
      var small := SmallContainers(names);
      forall n | n != lastName {
        C.RewriteDeletes(st, order, n);
      }
      if small == [] {
        assert doomed == {};
        return;
      }
      assert small[0] in doomed;
      C.DoomedBelow(st);
      assert storage.State() == st.(sizes := st.sizes - doomed);
      RelocateChunks(small, doomed, order);
      DeleteFiles(small);
    }

    /** The bytes of a pending delta; the buffer stays zero if its container cannot be opened. */
    method ReadDeltaContainer(key: L.Entry) returns (data: Bytes)
      requires P.WithinFile(deltaDisk.files, key)
      ensures data == P.DeltaBytes(deltaDisk.files, key)
      ensures key.name in deltaDisk.files ==>
                data == deltaDisk.files[key.name][key.offset..key.offset + key.length]
      ensures key.name !in deltaDisk.files ==> |data| == key.length && forall i :: 0 <= i < |data| ==> data[i] == 0
    {
      if key.name !in deltaDisk.files {
        return seq(key.length, _ => 0);
      }
      data := deltaDisk.files[key.name][key.offset..key.offset + key.length];
    }

    /** Overwrites the front of a record's region in its container file. */
    method UpdateContainerFile(key: L.Entry, data: Bytes)
      requires key.name in storage.log.disk.files && key.offset + |data| <= |storage.log.disk.files[key.name]|
      modifies storage.log.disk
      ensures storage.log.disk.files
              == old(storage.log.disk.files)[key.name :=
                D.Overwritten(old(storage.log.disk.files)[key.name], key.offset, data)]
    {
      var file := storage.log.disk.files[key.name];
      storage.log.disk.files := storage.log.disk.files[key.name :=
        file[..key.offset] + data + file[key.offset + |data|..]];
    }

    ghost function PassState(left: nat): P.Pass
      reads this, storage, storage.db, storage.log, storage.log.disk, storage.log.current, storage.log.current.body
      reads storage.log.cached, storage.log.cached.body
      requires storage.Valid()
    {
      P.Pass(storage.State(), storage.db.deltas, left)
    }

    /** Replaces the record, the recorded size and the bytes of a chunk by those of its delta. */
    method InstallDelta(h: Bytes, updateKey: L.Entry)
      requires storage.Valid() && S.Sound(storage.State()) && deltaDisk != storage.log.disk
      requires P.WithinFile(deltaDisk.files, updateKey)
      requires D.Installable(storage.State(), h, P.DeltaBytes(deltaDisk.files, updateKey))
      modifies storage.db`chunks, storage.db`sizes, storage.log.disk
      ensures storage.Valid()
      ensures storage.State()
              == D.Install(old(storage.State()), h, P.DeltaBytes(deltaDisk.files, updateKey), updateKey.deltaCount)
    {
      hide S.Sound, P.DeltaBytes, P.WithinFile, D.Overwritten, D.Installable;
      InstallFits(storage.State(), h, P.DeltaBytes(deltaDisk.files, updateKey));
      var db := storage.db;
      var key := db.chunks[h];
      var data := ReadDeltaContainer(updateKey);
      db.sizes := db.sizes[key.name := db.sizes[key.name] - (key.length - updateKey.length)];
      db.chunks := db.chunks[h := key.(deltaCount := updateKey.deltaCount, length := updateKey.length)];
      UpdateContainerFile(key, data);
    }

    /** Installs one pending delta, unless its chunk is unknown or in the last container. */
    method UpdateOne(h: Bytes, ghost left: nat) returns (installed: bool)
      requires storage.Valid() && S.Sound(storage.State()) && lastName == storage.log.openName
      requires deltaDisk != storage.log.disk
      requires h in storage.db.deltas && P.Fitting(storage.State(), deltaDisk.files, h, storage.db.deltas[h])
      modifies storage.db`chunks, storage.db`sizes, storage.db`deltas, storage.log.disk
      ensures storage.Valid() && installed == !P.Skipped(old(storage.State()), h)
      ensures PassState(if installed then left else left + 1) == P.Visit(old(PassState(left)), deltaDisk.files, h)
    {
      hide S.Sound, D.Install, D.Installable;
      var db := storage.db;
      if h !in db.chunks || db.chunks[h].name == lastName {
        return false;
      }
      InstallDelta(h, db.deltas[h]);
      db.deltas := db.deltas - {h};
      installed := true;
    }

    /** Installs the pending deltas; `order` is the iterator's snapshot of their fingerprints. The
        delta files are removed if no visited delta was left pending. */
    method UpdateContainer(order: seq<Bytes>)
      requires storage.Valid() && deltaDisk != storage.log.disk && lastName == storage.log.openName
      requires P.PassReady(PassState(0), deltaDisk.files, order)
      modifies storage.db`chunks, storage.db`sizes, storage.db`deltas, storage.log.disk, deltaDisk
      ensures storage.Valid()
      ensures var (u, files) := P.Update(old(PassState(0)), old(deltaDisk.files), order);
              u == PassState(u.left) && files == deltaDisk.files
    {
      hide P.PassReady, P.Visit, P.Fitting, P.Skipped;
      ghost var u, files := PassState(0), deltaDisk.files;
      assert u.(left := 0) == u;
      var count := 0;
      var i := 0;
      while i < |order|
        invariant i <= |order| && storage.Valid() && deltaDisk.files == files
        invariant lastName == storage.log.openName
        invariant P.PassReady(PassState(count), files, order[i..])
        invariant P.InstallAll(PassState(count), files, order[i..]) == P.InstallAll(u, files, order)
      {
        assert order[i..][0] == order[i] && order[i..][1..] == order[i + 1..];
        P.InstallAllStep(PassState(count), files, order[i..]);
        var installed := UpdateOne(order[i], count);
        if !installed {
          count := count + 1;
        }
        i := i + 1;
      }
      assert P.InstallAll(u, files, order) == PassState(count);
      if count == 0 {
        deltaDisk.files := map[];
      }
    }
  }

  lemma InstallFits(st: S.Store, h: Bytes, data: Bytes)
    requires S.Sound(st) && D.Installable(st, h, data)
    ensures h in st.index && st.index[h].name in st.log.files && st.index[h].name in st.sizes
    ensures var e, files := st.index[h], st.log.files;
            && e.offset + |data| <= |files[e.name]|
            && |D.Overwritten(files[e.name], e.offset, data)| == |files[e.name]|
  {
    D.HeldAt(st, h);
    hide S.Sound;
  }

  lemma ReadyIsSound(st: S.Store, n: nat)
    requires S.Ready(st, n)
    ensures S.Sound(st)
  {
  }
}
