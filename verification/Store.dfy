/** The chunk store as a value: the container log, the fingerprint index and the recorded
    container sizes. `StorageCore` and `Manager` refine it. */
module Store {
  import opened Bytes
  import opened Names
  import opened Log

  datatype Store = Store(log: Log, index: Index, sizes: map<Name, int>)

  /** Every entry holds its own region, and every container the store knows by size has a file. */
  ghost predicate Sound(st: Store) {
    && Coherent(st.log)
    && LaidOut(st.log, st.index)
    && st.sizes.Keys <= st.log.files.Keys
  }

  /** The bytes stored for every fingerprint. */
  ghost function Stored(st: Store): (stored: map<Bytes, Bytes>)
    requires Sound(st)
    ensures stored.Keys == st.index.Keys
  {
    Slots(st.log, st.index)
  }

  /** The record `saveChunk` starts from: the existing one, or a fresh one with a single reference. */
  function Key(index: Index, h: Bytes, size: nat): Entry {
    if h in index then index[h] else Entry([], 0, size, 1, 0)
  }

  /** The sizes recorded once `n` more bytes have been placed: a rollover records the sealed container. */
  function SizesAfter(st: Store, n: nat): map<Name, int> {
    if Rolls(st.log, n) then st.sizes[st.log.openName := |st.log.open|] else st.sizes
  }

  /** Saving over a record takes only as many bytes as the record is long. */
  function Taken(data: Bytes, n: nat): Bytes {
    if n <= |data| then data[..n] else data
  }

  function Payload(st: Store, h: Bytes, data: Bytes): Bytes {
    San(Taken(data, Key(st.index, h, |data|).length))
  }

  function SaveChunk(st: Store, h: Bytes, data: Bytes): Store {
    var payload := Payload(st, h, data);
    Store(Append(st.log, payload),
          st.index[h := Placed(st.log, Key(st.index, h, |data|), payload)],
          SizesAfter(st, |payload|))
  }

  /** The two records differ at most in where the bytes are. */
  predicate SameCounts(d: Entry, e: Entry) {
    d.length == e.length && d.count == e.count && d.deltaCount == e.deltaCount
  }

  /** Saving stores the rewritten bytes under `h` and changes no other chunk; an existing
      record keeps its length and counts. */
  lemma SaveChunkStores(st: Store, h: Bytes, data: Bytes)
    requires Sound(st) && Key(st.index, h, |data|).length <= |data|
    requires |Payload(st, h, data)| < st.log.max && NameLeft(st.log, |Payload(st, h, data)|)
    ensures Sound(SaveChunk(st, h, data))
    ensures Stored(SaveChunk(st, h, data)) == Stored(st)[h := Payload(st, h, data)]
    ensures SameCounts(SaveChunk(st, h, data).index[h], Key(st.index, h, |data|))
  {
    AppendStores(st.log, st.index, h, Key(st.index, h, |data|), Payload(st, h, data));
  }

  /** Closed, which records the open container's size, and opened again. */
  function ReopenedStore(st: Store): Store {
    Store(Reopened(st.log), st.index, st.sizes[st.log.openName := |st.log.open|])
  }

  // ---- Size accounting ----

  function Share(e: Entry, name: Name): nat {
    if e.name == name then e.length else 0
  }

  /** The bytes the index accounts for in container `name`. */
  ghost function LiveBytes(index: Index, name: Name): nat {
    if index == map[] then 0
    else
      var h :| h in index;
      Share(index[h], name) + LiveBytes(index - {h}, name)
  }

  lemma {:induction false} LiveBytesWithout(index: Index, name: Name, h: Bytes)
    requires h in index
    ensures LiveBytes(index, name) == Share(index[h], name) + LiveBytes(index - {h}, name)
    decreases |index|
  {
    var g :| g in index && LiveBytes(index, name) == Share(index[g], name) + LiveBytes(index - {g}, name);
    if g != h {
      LiveBytesWithout(index - {g}, name, h);
      LiveBytesWithout(index - {h}, name, g);
      assert index - {g} - {h} == index - {h} - {g};
    }
  }

  lemma LiveBytesWith(index: Index, name: Name, h: Bytes, e: Entry)
    ensures LiveBytes(index[h := e], name) + (if h in index then Share(index[h], name) else 0)
         == LiveBytes(index, name) + Share(e, name)
  {
    LiveBytesWithout(index[h := e], name, h);
    assert index[h := e] - {h} == index - {h};
    if h in index {
      LiveBytesWithout(index, name, h);
    } else {
      assert index - {h} == index;
    }
  }

  lemma {:induction false} NothingLive(index: Index, name: Name)
    requires forall h :: h in index ==> index[h].name != name
    ensures LiveBytes(index, name) == 0
    decreases |index|
  {
    if index != map[] {
      var h :| h in index;
      LiveBytesWithout(index, name, h);
      NothingLive(index - {h}, name);
    }
  }

  /** Knowing fewer records of the same places accounts for at most as many bytes. */
  lemma {:induction false} LiveBytesSub(index': Index, index: Index, name: Name)
    requires SamePlaces(index', index)
    ensures LiveBytes(index', name) <= LiveBytes(index, name)
    ensures index'.Keys == index.Keys ==> LiveBytes(index', name) == LiveBytes(index, name)
    decreases |index|
  {
    if index == map[] {
      assert index' == map[];
    } else {
      var h :| h in index;
      LiveBytesWithout(index, name, h);
      LiveBytesSub(index' - {h}, index - {h}, name);
      if h in index' {
        LiveBytesWithout(index', name, h);
        assert (index' - {h}).Keys == index'.Keys - {h} && (index - {h}).Keys == index.Keys - {h};
      } else {
        assert index' - {h} == index';
      }
    }
  }

  predicate Covers(exact: bool, recorded: int, live: nat) {
    if exact then recorded == live else recorded >= live
  }

  /** The recorded size of every sealed container covers the bytes live in it, exactly if `exact`;
      so does the fill level of the open one. */
  ghost predicate Accounted(st: Store, exact: bool) {
    && Covers(exact, |st.log.open|, LiveBytes(st.index, st.log.openName))
    && forall n :: n in st.sizes && n != st.log.openName ==> Covers(exact, st.sizes[n], LiveBytes(st.index, n))
  }

  /** The container `h` is moved out of is no longer accounted for. */
  predicate Unaccounted(st: Store, h: Bytes) {
    h in st.index ==> st.index[h].name != st.log.openName && st.index[h].name !in st.sizes
  }

  /** Saving conserves the accounting; saving over a record that is still accounted for only bounds it. */
  lemma SaveChunkAccounts(st: Store, h: Bytes, data: Bytes, exact: bool)
    requires Sound(st) && Accounted(st, exact) && Key(st.index, h, |data|).length <= |data|
    requires |Payload(st, h, data)| < st.log.max && NameLeft(st.log, |Payload(st, h, data)|)
    requires exact ==> Unaccounted(st, h)
    ensures Accounted(SaveChunk(st, h, data), exact)
  {
    hide LiveBytes, Less, NextPermutation, Last;
    var payload, st' := Payload(st, h, data), SaveChunk(st, h, data);
    var e' := Placed(st.log, Key(st.index, h, |data|), payload);
    forall n { LiveBytesWith(st.index, n, h, e'); }
    if Rolls(st.log, |payload|) {
      MadeRoomKeeps(st.log, |payload|, e');
      NothingLive(st.index, st'.log.openName);
    }
  }

  /** Every sealed container holding a chunk has a recorded size. */
  ghost predicate Catalogued(st: Store) {
    forall h :: h in st.index ==> st.index[h].name == st.log.openName || st.index[h].name in st.sizes
  }

  /** `Sound`, with `n` rollovers to go before the names start over. */
  ghost predicate Ready(st: Store, n: nat) {
    Sound(st) && Room(st.log.openName, n)
  }

  /** One save uses up at most one name. */
  lemma SaveChunkReady(st: Store, h: Bytes, data: Bytes, n: nat)
    requires Ready(st, n + 1) && Key(st.index, h, |data|).length <= |data|
    requires Key(st.index, h, |data|).length < st.log.max
    ensures NameLeft(st.log, |Payload(st, h, data)|)
    ensures Ready(SaveChunk(st, h, data), n)
  {
    SaveChunkStores(st, h, data);
    RoomShrinks(st.log.openName, n + 1, n);
  }
}
