/** The append-only container log as a value: sealed container files, the open container
    being filled, and a one-entry read cache. `Containers` refines it. */
module Log {
  import opened Bytes
  import opened Names
  import opened Options

  /** One database record: where the bytes of a chunk are, and its reference and delta counts. */
  datatype Entry = Entry(name: Name, offset: nat, length: nat, count: nat, deltaCount: nat)

  type Index = map<Bytes, Entry>

  datatype Log = Log(max: nat, files: map<Name, Bytes>, openName: Name, open: Bytes, cacheName: Name, cache: Bytes)

  /** `n` more bytes do not fit below the maximum, so the open container is sealed first. */
  predicate Rolls(log: Log, n: nat) {
    n + |log.open| >= log.max
  }

  /** The open container written to its file. */
  function Flushed(log: Log): map<Name, Bytes> {
    log.files[log.openName := log.open]
  }

  function MadeRoom(log: Log, n: nat): Log {
    if Rolls(log, n) then
      log.(files := Flushed(log), openName := NextPermutation(log.openName), open := [])
    else
      log
  }

  function Append(log: Log, data: Bytes): Log {
    var room := MadeRoom(log, |data|);
    room.(open := room.open + data)
  }

  /** The record `e`, moved to where `Append` puts `data`. */
  function Placed(log: Log, e: Entry, data: Bytes): Entry {
    var room := MadeRoom(log, |data|);
    e.(name := room.openName, offset := |room.open|, length := |data|)
  }

  /** Bytes that fit below the maximum go behind those of the open container, which keeps its name; otherwise
      the open container goes to its file as it is, and they start the container of the next name. */
  lemma AppendPlaces(log: Log, e: Entry, data: Bytes)
    ensures |log.open| + |data| < log.max ==>
              && Append(log, data) == log.(open := log.open + data)
              && Placed(log, e, data) == e.(name := log.openName, offset := |log.open|, length := |data|)
    ensures |log.open| + |data| >= log.max ==>
              && Append(log, data) == log.(files := log.files[log.openName := log.open],
                                           openName := NextPermutation(log.openName), open := data)
              && Placed(log, e, data) == e.(name := NextPermutation(log.openName), offset := 0, length := |data|)
  {
    assert [] + data == data;
  }

  predicate Exists(log: Log, name: Name) {
    name == log.openName || name in log.files
  }

  function Body(log: Log, name: Name): Bytes
    requires Exists(log, name)
  {
    if name == log.openName then log.open else log.files[name]
  }

  predicate Fits(e: Entry, body: Bytes) {
    e.offset + e.length <= |body|
  }

  function Cut(e: Entry, body: Bytes): Bytes
    requires Fits(e, body)
  {
    body[e.offset..e.offset + e.length]
  }

  predicate Held(log: Log, e: Entry) {
    Exists(log, e.name) && Fits(e, Body(log, e.name))
  }

  /** The bytes record `e` stands for. */
  function Slot(log: Log, e: Entry): Bytes
    requires Held(log, e)
  {
    Cut(e, Body(log, e.name))
  }

  /** The two records own disjoint regions. */
  predicate Apart(d: Entry, e: Entry) {
    d.name != e.name || d.offset + d.length <= e.offset || e.offset + e.length <= d.offset
  }

  /** Sealed names are below the open one, every container is below the maximum,
      and the cache is a faithful copy of a sealed container. */
  ghost predicate Coherent(log: Log) {
    && |log.open| < log.max
    && (forall n :: n in log.files ==> |log.files[n]| < log.max && (n == log.openName || Less(n, log.openName)))
    && Less(log.cacheName, log.openName) && [] !in log.files
    && (log.cacheName in log.files ==> log.cache == log.files[log.cacheName])
  }

  ghost predicate LaidOut(log: Log, index: Index) {
    && (forall h {:trigger index[h]} :: h in index ==> Held(log, index[h]))
    && (forall g, h {:trigger Apart(index[g], index[h])} :: g in index && h in index && g != h ==>
      Apart(index[g], index[h]))
  }

  /** What the index means: the bytes at every entry. */
  ghost function Slots(log: Log, index: Index): (slots: map<Bytes, Bytes>)
    requires LaidOut(log, index)
    ensures slots.Keys == index.Keys
  {
    map h | h in index :: Slot(log, index[h])
  }

  predicate NameLeft(log: Log, n: nat) {
    Rolls(log, n) ==> !Last(log.openName)
  }

  lemma MadeRoomKeeps(log: Log, n: nat, e: Entry)
    requires Coherent(log) && n < log.max && NameLeft(log, n)
    ensures Coherent(MadeRoom(log, n))
    ensures Rolls(log, n) ==> MadeRoom(log, n).openName !in MadeRoom(log, n).files
    ensures |MadeRoom(log, n).open| + n < log.max
    ensures Held(log, e) ==> Held(MadeRoom(log, n), e) && Slot(MadeRoom(log, n), e) == Slot(log, e)
    ensures Held(log, e) ==> e.name != MadeRoom(log, n).openName || e.offset + e.length <= |MadeRoom(log, n).open|
  {
    if Rolls(log, n) {
      NextIsLarger(log.openName);
      LessIrreflexive(log.openName);
      var next := NextPermutation(log.openName);
      forall m | Less(m, log.openName) ensures Less(m, next) && m != next && m != log.openName {
        LessTransitive(m, log.openName, next);
        LessIrreflexive(m);
        if m == next { LessTransitive(next, log.openName, next); }
      }
      assert next != log.openName;
    }
    LessIrreflexive(log.openName);
  }

  /** From `log` to `log'`, record `d` keeps its bytes and stays clear of `e`. */
  predicate Undisturbed(log: Log, log': Log, d: Entry, e: Entry)
    requires Held(log, d)
  {
    Held(log', d) && Slot(log', d) == Slot(log, d) && Apart(d, e) && Apart(e, d)
  }

  /** Appending leaves the bytes of every other record alone, and takes a region of its own. */
  lemma AppendLeaves(log: Log, data: Bytes, d: Entry, e: Entry)
    requires Coherent(log) && Held(log, d)
    requires |data| < log.max && NameLeft(log, |data|)
    ensures Undisturbed(log, Append(log, data), d, Placed(log, e, data))
  {
    var room := MadeRoom(log, |data|);
    MadeRoomKeeps(log, |data|, d);
    if d.name == room.openName {
      assert Cut(d, room.open + data) == Cut(d, room.open);
    }
  }

  lemma AppendHolds(log: Log, data: Bytes, e: Entry)
    requires Coherent(log) && |data| < log.max && NameLeft(log, |data|)
    ensures Coherent(Append(log, data))
    ensures Held(Append(log, data), Placed(log, e, data)) && Slot(Append(log, data), Placed(log, e, data)) == data
  {
    MadeRoomKeeps(log, |data|, e);
  }

  /** If only `h` gets a new record, the layout stays and only the bytes of `h` change. */
  lemma Relocated(log: Log, log': Log, index: Index, index': Index, h: Bytes, e: Entry)
    requires LaidOut(log, index) && Held(log', e) && index' == index[h := e]
    requires forall g :: g in index && g != h ==> Undisturbed(log, log', index[g], e)
    ensures LaidOut(log', index')
    ensures Slots(log', index') == Slots(log, index)[h := Slot(log', e)]
  {
    hide Slot, Apart, Held;
    RelocatedLaidOut(log, log', index, index', h, e);
    hide LaidOut;
    forall g | g in index' && g != h ensures Slots(log', index')[g] == Slots(log, index)[g] {
      assert Undisturbed(log, log', index[g], e);
    }
  }

  lemma RelocatedLaidOut(log: Log, log': Log, index: Index, index': Index, h: Bytes, e: Entry)
    requires LaidOut(log, index) && Held(log', e) && index' == index[h := e]
    requires forall g :: g in index && g != h ==> Undisturbed(log, log', index[g], e)
    ensures LaidOut(log', index')
  {
    hide Slot, Apart, Held;
    forall g | g in index' ensures Held(log', index'[g]) {
      if g != h { assert Undisturbed(log, log', index[g], e); }
    }
    forall f, g | f in index' && g in index' && f != g ensures Apart(index'[f], index'[g]) {
      if f != h && g != h {
        assert Apart(index[f], index[g]);
      } else if f == h {
        assert Undisturbed(log, log', index[g], e);
      } else {
        assert Undisturbed(log, log', index[f], e);
      }
    }
  }

  /** Appending keeps the layout, stores the bytes under `h`, and moves no other chunk's bytes. */
  lemma AppendStores(log: Log, index: Index, h: Bytes, e: Entry, data: Bytes)
    requires Coherent(log) && LaidOut(log, index)
    requires |data| < log.max && NameLeft(log, |data|)
    ensures Coherent(Append(log, data)) && LaidOut(Append(log, data), index[h := Placed(log, e, data)])
    ensures Slots(Append(log, data), index[h := Placed(log, e, data)]) == Slots(log, index)[h := data]
  {
    var log', e' := Append(log, data), Placed(log, e, data);
    AppendHolds(log, data, e);
    forall g | g in index && g != h ensures Undisturbed(log, log', index[g], e') {
      AppendLeaves(log, data, index[g], e);
    }
    Relocated(log, log', index, index[h := e'], h, e');
  }

  /** Where a read finds container `name`: the cache, the open buffer, or its file. */
  function Source(log: Log, name: Name): (body: Option<Bytes>) {
    if name == log.cacheName then Some(log.cache)
    else if name == log.openName then Some(log.open)
    else if name in log.files then Some(log.files[name])
    else None
  }

  /** A read served from disk leaves the container in the cache. */
  function AfterRead(log: Log, name: Name): Log {
    if name != log.cacheName && name != log.openName && name in log.files then
      log.(cacheName := name, cache := log.files[name])
    else
      log
  }

  /** All three sources agree, and reading changes nothing but the cache, which stays faithful. */
  lemma SourcesAgree(log: Log, e: Entry)
    requires Coherent(log) && Held(log, e)
    ensures Source(log, e.name) == Some(Body(log, e.name))
    ensures Coherent(AfterRead(log, e.name))
    ensures AfterRead(log, e.name).(cacheName := log.cacheName, cache := log.cache) == log
    ensures e.name != log.openName ==> AfterRead(log, e.name).cacheName == e.name
  {
    LessIrreflexive(log.openName);
  }

  /** The containers `names` read one after the other. */
  function AfterReads(log: Log, names: seq<Name>): Log
    decreases |names|
  {
    if names == [] then log else AfterReads(AfterRead(log, names[0]), names[1..])
  }

  lemma {:induction false} AfterReadsAppend(log: Log, a: seq<Name>, b: seq<Name>)
    ensures AfterReads(log, a + b) == AfterReads(AfterReads(log, a), b)
    decreases |a|
  {
    if a == [] {
      assert a + b == b;
    } else {
      assert (a + b)[0] == a[0] && (a + b)[1..] == a[1..] + b;
      AfterReadsAppend(AfterRead(log, a[0]), a[1..], b);
    }
  }

  /** Reads change nothing but the cache, which stays faithful. */
  lemma {:induction false} ReadsKeepCoherent(log: Log, names: seq<Name>)
    requires Coherent(log)
    ensures Coherent(AfterReads(log, names))
    ensures AfterReads(log, names).(cacheName := log.cacheName, cache := log.cache) == log
    decreases |names|
  {
    if names != [] {
      ReadsKeepCoherent(AfterRead(log, names[0]), names[1..]);
    }
  }

  lemma SlotsIgnoreCache(log: Log, log': Log, index: Index)
    requires LaidOut(log, index)
    requires log'.files == log.files && log'.openName == log.openName && log'.open == log.open
    ensures LaidOut(log', index) && Slots(log', index) == Slots(log, index)
  {
    assert forall h :: h in index ==> Held(log, index[h]) && Held(log', index[h]);
  }

  predicate SamePlace(d: Entry, e: Entry) {
    d.name == e.name && d.offset == e.offset && d.length == e.length
  }

  /** `index'` knows some of the records of `index`, with other counts perhaps. */
  ghost predicate SamePlaces(index': Index, index: Index) {
    forall h {:trigger index'[h]} :: h in index' ==> h in index && SamePlace(index'[h], index[h])
  }

  lemma SamePlacesSlots(log: Log, index': Index, index: Index)
    requires LaidOut(log, index) && SamePlaces(index', index)
    ensures LaidOut(log, index')
    ensures forall h :: h in index' ==> Slots(log, index')[h] == Slots(log, index)[h]
  {
    hide Slots;
    forall f, g | f in index' && g in index' && f != g ensures Apart(index'[f], index'[g]) {
      assert Apart(index[f], index[g]);
    }
    SlotsAt(log, index', index);
  }

  lemma SlotsAt(log: Log, index': Index, index: Index)
    requires LaidOut(log, index) && LaidOut(log, index') && SamePlaces(index', index)
    ensures forall h :: h in index' ==> Slots(log, index')[h] == Slots(log, index)[h]
  {
    hide Apart;
    forall h | h in index' ensures Slot(log, index'[h]) == Slot(log, index[h]) {
      assert SamePlace(index'[h], index[h]) && Held(log, index[h]) && Held(log, index'[h]);
    }
  }

  /** Close, then open again: the open container goes to its file and is read back; the cache starts empty. */
  function Reopened(log: Log): Log {
    log.(files := Flushed(log), cacheName := [], cache := [])
  }

  /** What the configuration file says: the name of the open container and its fill level. */
  type Config = Option<(Name, nat)>

  function OpenNameOf(config: Config, initial: Name): Name {
    if config.Some? then config.value.0 else initial
  }

  /** A fill level that fits the buffer, and the file if there is one. */
  predicate Loadable(files: map<Name, Bytes>, config: Config, capacity: nat) {
    config.Some? ==>
      && config.value.1 <= capacity
      && (config.value.0 in files ==> config.value.1 <= |files[config.value.0]|)
  }

  /** The open container as loaded: a file that cannot be opened goes unnoticed and leaves zeros. */
  function LoadedOpen(files: map<Name, Bytes>, config: Config, capacity: nat): Bytes
    requires Loadable(files, config, capacity)
  {
    if config.None? then []
    else if config.value.0 in files then files[config.value.0][..config.value.1]
    else Zeros(config.value.1)
  }

  lemma ReopenKeepsRecord(log: Log, e: Entry)
    requires Held(log, e)
    ensures Held(Reopened(log), e) && Slot(Reopened(log), e) == Slot(log, e)
  {
  }

  lemma ReopenKeeps(log: Log, index: Index)
    requires Coherent(log) && LaidOut(log, index) && log.openName != []
    ensures Coherent(Reopened(log)) && LaidOut(Reopened(log), index)
    ensures Slots(Reopened(log), index) == Slots(log, index)
    ensures Reopened(log).files[log.openName] == Reopened(log).open
    ensures Reopened(log).openName == log.openName && Reopened(log).open == log.open && Reopened(log).cacheName == []
  {
    hide Held, Slot, Apart, Less;
    ReopenCoherent(log);
    forall h | h in index
      ensures Held(Reopened(log), index[h]) && Slot(Reopened(log), index[h]) == Slot(log, index[h]) {
      ReopenKeepsRecord(log, index[h]);
    }
  }

  lemma ReopenCoherent(log: Log)
    requires Coherent(log) && log.openName != []
    ensures Coherent(Reopened(log))
  {
  }
}
