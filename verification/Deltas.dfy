/** Chunks stored as deltas: what a fingerprint restores to, and `updateContainer`, which overwrites
    chunks in place with their pending deltas. */
module Deltas {
  import opened Bytes
  import opened Names
  import opened Options
  import opened Log
  import opened Store

  /** `delta_apply`, whose code is not part of this model: base bytes and delta to chunk bytes. */
  type Apply = (Bytes, Bytes) -> Bytes

  /** What each fingerprint stands for. */
  type Meaning = Bytes -> Bytes

  datatype Content = Content(bytes: Bytes, delta: bool)

  type Contents = map<Bytes, Content>

  ghost function ContentsOf(st: Store): (cs: Contents)
    requires Sound(st)
    ensures cs.Keys == st.index.Keys
  {
    map h | h in st.index :: Content(Stored(st)[h], st.index[h].deltaCount > 0)
  }

  /** The fingerprint of the base a delta was made from, at the front of its bytes. */
  function Base(delta: Bytes): Bytes
    requires |delta| >= HASH_SIZE
  {
    delta[..HASH_SIZE]
  }

  /** A delta needs a base of smaller rank: base references form no cycle. */
  ghost predicate RankedAt(c: Content, h: Bytes, rank: Bytes -> nat) {
    c.delta ==> |c.bytes| >= HASH_SIZE && rank(Base(c.bytes)) < rank(h)
  }

  ghost predicate Ranked(cs: Contents, rank: Bytes -> nat) {
    forall h :: h in cs ==> RankedAt(cs[h], h, rank)
  }

  /** What `restoreChunk` returns: the bytes of a plain chunk, or the delta applied to what its base
      restores to; a base that is gone counts as empty. */
  ghost function Restored(cs: Contents, apply: Apply, rank: Bytes -> nat, h: Bytes): Bytes
    requires Ranked(cs, rank) && h in cs
    decreases rank(h)
  {
    var c := cs[h];
    if !c.delta then c.bytes
    else
      assert RankedAt(c, h, rank);
      apply(if Base(c.bytes) in cs then Restored(cs, apply, rank, Base(c.bytes)) else [], c.bytes[HASH_SIZE..])
  }

  /** `c` decodes in one step to the meaning of `h`, given the meaning of its base. */
  ghost predicate Decodes(c: Content, h: Bytes, keys: set<Bytes>, apply: Apply, meaning: Meaning) {
    if c.delta then
      |c.bytes| >= HASH_SIZE && Base(c.bytes) in keys
      && apply(meaning(Base(c.bytes)), c.bytes[HASH_SIZE..]) == meaning(h)
    else
      c.bytes == meaning(h)
  }

  ghost predicate Consistent(cs: Contents, apply: Apply, meaning: Meaning) {
    forall h :: h in cs ==> Decodes(cs[h], h, cs.Keys, apply, meaning)
  }

  /** One-step decoding adds up: on acyclic references every fingerprint restores to its meaning. */
  lemma {:induction false} ConsistentRestores(cs: Contents, apply: Apply, meaning: Meaning, rank: Bytes -> nat,
          h: Bytes)
    requires Consistent(cs, apply, meaning) && Ranked(cs, rank) && h in cs
    ensures Restored(cs, apply, rank, h) == meaning(h)
    decreases rank(h)
  {
    assert RankedAt(cs[h], h, rank) && Decodes(cs[h], h, cs.Keys, apply, meaning);
    if cs[h].delta {
      ConsistentRestores(cs, apply, meaning, rank, Base(cs[h].bytes));
    }
  }

  /** No delta has lost its base. */
  ghost predicate BasesPresent(cs: Contents) {
    forall h :: h in cs && cs[h].delta ==> |cs[h].bytes| >= HASH_SIZE && Base(cs[h].bytes) in cs
  }

  ghost function RestoredAll(cs: Contents, apply: Apply, rank: Bytes -> nat): Meaning
    requires Ranked(cs, rank)
  {
    h => if h in cs then Restored(cs, apply, rank, h) else []
  }

  /** What a store restores is a meaning it is consistent with. */
  lemma RestoredIsConsistent(cs: Contents, apply: Apply, rank: Bytes -> nat)
    requires Ranked(cs, rank) && BasesPresent(cs)
    ensures Consistent(cs, apply, RestoredAll(cs, apply, rank))
  {
    forall h | h in cs ensures Decodes(cs[h], h, cs.Keys, apply, RestoredAll(cs, apply, rank)) {
      assert RankedAt(cs[h], h, rank);
    }
  }

  /** The contents decode to `meaning`, without cycles. */
  ghost predicate Means(cs: Contents, apply: Apply, meaning: Meaning, rank: Bytes -> nat) {
    Consistent(cs, apply, meaning) && Ranked(cs, rank)
  }

  /** Content that may stand for `h` next to contents with the given fingerprints. */
  ghost predicate Sensible(c: Content, h: Bytes, keys: set<Bytes>, apply: Apply, meaning: Meaning, rank: Bytes -> nat) {
    Decodes(c, h, keys, apply, meaning) && RankedAt(c, h, rank)
  }

  lemma MeansWith(cs: Contents, h: Bytes, c: Content, apply: Apply, meaning: Meaning, rank: Bytes -> nat)
    requires Means(cs, apply, meaning, rank) && Sensible(c, h, cs.Keys + {h}, apply, meaning, rank)
    ensures Means(cs[h := c], apply, meaning, rank)
  {
    hide RankedAt;
    var cs' := cs[h := c];
    forall g | g in cs' ensures Decodes(cs'[g], g, cs'.Keys, apply, meaning) {
      if g != h { assert Decodes(cs[g], g, cs.Keys, apply, meaning); }
    }
  }

  // ---- Installing a delta in place ----

  function Overwritten(body: Bytes, offset: nat, data: Bytes): Bytes
    requires offset + |data| <= |body|
  {
    body[..offset] + data + body[offset + |data|..]
  }

  /** The delta of `h` can be written over its chunk: in a sealed container of recorded size, and not longer. */
  ghost predicate Installable(st: Store, h: Bytes, data: Bytes) {
    && h in st.index && st.index[h].name != st.log.openName && st.index[h].name in st.sizes
    && |data| <= st.index[h].length
  }

  /** Writes the delta over the front of the chunk's region, shortens the record and the recorded size. */
  ghost function Install(st: Store, h: Bytes, data: Bytes, deltaCount: nat): Store
    requires Sound(st) && Installable(st, h, data)
  {
    var e := st.index[h];
    Store(st.log.(files := st.log.files[e.name := Overwritten(st.log.files[e.name], e.offset, data)]),
          st.index[h := e.(length := |data|, deltaCount := deltaCount)],
          st.sizes[e.name := st.sizes[e.name] - (e.length - |data|)])
  }

  lemma HeldAt(st: Store, h: Bytes)
    requires Sound(st) && h in st.index
    ensures Held(st.log, st.index[h])
  {
  }

  lemma InstallHolds(st: Store, h: Bytes, data: Bytes, deltaCount: nat)
    requires Sound(st) && Installable(st, h, data) && st.log.cacheName != st.index[h].name
    ensures var st' := Install(st, h, data, deltaCount);
            && Coherent(st'.log) && st'.sizes.Keys <= st'.log.files.Keys
            && st'.index == st.index[h := st.index[h].(length := |data|, deltaCount := deltaCount)]
            && Held(st'.log, st'.index[h]) && Slot(st'.log, st'.index[h]) == data
  {
    hide Less;
    assert Held(st.log, st.index[h]);
  }

  /** An install replaces the stored bytes of `h` and of nothing else, provided its container is not cached. */
  lemma InstallStores(st: Store, h: Bytes, data: Bytes, deltaCount: nat)
    requires Sound(st) && Installable(st, h, data) && st.log.cacheName != st.index[h].name
    ensures Sound(Install(st, h, data, deltaCount))
    ensures Stored(Install(st, h, data, deltaCount)) == Stored(st)[h := data]
    ensures Install(st, h, data, deltaCount).index
            == st.index[h := st.index[h].(length := |data|, deltaCount := deltaCount)]
  {
    hide Less, Install, Coherent, Slot, Held, Slots;
    var st' := Install(st, h, data, deltaCount);
    InstallHolds(st, h, data, deltaCount);
    forall g | g in st.index && g != h
      ensures Held(st.log, st.index[g]) && Undisturbed(st.log, st'.log, st.index[g], st'.index[h]) {
      assert Apart(st.index[g], st.index[h]);
      InstallLeaves(st, h, data, deltaCount, st.index[g]);
    }
    Relocated(st.log, st'.log, st.index, st'.index, h, st'.index[h]);
  }

  lemma InstallLeaves(st: Store, h: Bytes, data: Bytes, deltaCount: nat, d: Entry)
    requires Sound(st) && Installable(st, h, data) && Held(st.log, d) && Apart(d, st.index[h])
    ensures Undisturbed(st.log, Install(st, h, data, deltaCount).log, d, Install(st, h, data, deltaCount).index[h])
  {
    hide Less;
    var e, st' := st.index[h], Install(st, h, data, deltaCount);
    if d.name == e.name {
      var body := st.log.files[e.name];
      var body' := Overwritten(body, e.offset, data);
      assert Cut(d, body') == Cut(d, body);
    }
  }

  /** What a read of `h` returns after the install: the delta, exactly if the container was not cached or
      the chunk began with those bytes anyway; otherwise the old bytes. This is why the delta pass needs
      a store that has not read yet. */
  lemma ReadAfterInstall(st: Store, h: Bytes, data: Bytes, deltaCount: nat)
    requires Sound(st) && Installable(st, h, data)
    ensures var st' := Install(st, h, data, deltaCount);
            var source := Source(st'.log, st'.index[h].name);
            && source.Some? && Fits(st'.index[h], source.value)
            && (st.log.cacheName == st.index[h].name ==>
                  Cut(st'.index[h], source.value) == Stored(st)[h][..|data|])
            && (Cut(st'.index[h], source.value) == data <==>
                  st.log.cacheName != st.index[h].name || Stored(st)[h][..|data|] == data)
  {
    var e, e' := st.index[h], Install(st, h, data, deltaCount).index[h];
    assert Held(st.log, e);
    var body := st.log.files[e.name];
    assert Cut(e', Overwritten(body, e.offset, data)) == data;
    assert Cut(e', body) == Cut(e, body)[..|data|];
  }

  /** A store of one chunk, in a sealed container that has just been read. */
  function JustRead(h: Bytes): Store {
    Store(Log(8, map["a" := [1]], "b", [], "a", [1]), map[h := Entry("a", 0, 1, 1, 0)], map["a" := 1])
  }

  /** There the install goes wrong: the delta is written, and the old byte is read. */
  lemma StaleRead(h: Bytes)
    ensures Sound(JustRead(h)) && Installable(JustRead(h), h, [2])
    ensures var st := Install(JustRead(h), h, [2], 1);
            && st.log.files == map["a" := [2]]
            && Source(st.log, st.index[h].name) == Some([1])
  {
    var log, e := JustRead(h).log, JustRead(h).index[h];
    assert Held(log, e) && Slot(log, e) == [1];
    assert Overwritten([1], 0, [2]) == [2];
  }

  /** What writing bytes into a file leaves, also where they reach past its end. */
  function WrittenOver(body: Bytes, offset: nat, data: Bytes): Bytes
    requires offset <= |body|
  {
    if offset + |data| <= |body| then Overwritten(body, offset, data) else body[..offset] + data
  }

  /** The log once bytes have been written at the place of the sealed record `e`. */
  function WrittenAt(log: Log, e: Entry, data: Bytes): Log
    requires Held(log, e) && e.name != log.openName
  {
    log.(files := log.files[e.name := WrittenOver(log.files[e.name], e.offset, data)])
  }

  /** How many bytes of record `d` are reached by `n` bytes written at the place of `e`. */
  function Reach(e: Entry, n: nat, d: Entry): nat {
    if d.name != e.name || d.offset < e.offset || e.offset + n <= d.offset then 0
    else if d.offset + d.length <= e.offset + n then d.length
    else e.offset + n - d.offset
  }

  /** Those bytes become the part of the delta that falls on them; the others stay. */
  lemma DeltaReaches(log: Log, e: Entry, d: Entry, data: Bytes)
    requires Held(log, e) && Held(log, d) && Apart(d, e) && e.name != log.openName
    ensures var log', n := WrittenAt(log, e, data), Reach(e, |data|, d);
            && Held(log', d) && n <= d.length
            && (n == 0 ==> Slot(log', d) == Slot(log, d))
            && (n > 0 ==>
                  && d.offset - e.offset + n <= |data|
                  && Slot(log', d) == data[d.offset - e.offset..][..n] + Slot(log, d)[n..])
  {
    if d.name == e.name {
      var body := log.files[e.name];
      var body' := WrittenOver(body, e.offset, data);
      var n := Reach(e, |data|, d);
      assert n == 0 ==> Cut(d, body') == Cut(d, body);
      if n > 0 {
        assert Cut(d, body') == data[d.offset - e.offset..][..n] + Cut(d, body)[n..];
      }
    }
  }

  /** The stored bytes of all other chunks stay as they are. */
  ghost predicate Spares(st: Store, h: Bytes, data: Bytes)
    requires Sound(st) && h in st.index && st.index[h].name != st.log.openName
  {
    HeldAt(st, h);
    forall g :: g in st.index && g != h ==>
      Held(WrittenAt(st.log, st.index[h], data), st.index[g])
      && Slot(WrittenAt(st.log, st.index[h], data), st.index[g]) == Stored(st)[g]
  }

  /** A byte that differs from the one given, as often as asked for. */
  function Other(b: byte, n: nat): (data: Bytes)
    ensures |data| == n && b !in data
  {
    seq(n, _ => if b == 0 then 1 else 0)
  }

  lemma PrefixChanged(before: Bytes, data: Bytes, k: nat, n: nat)
    requires 0 < n <= |before| && k + n <= |data| && before[0] !in data
    ensures data[k..][..n] + before[n..] != before
  {
    assert (data[k..][..n] + before[n..])[0] == data[k];
  }

  lemma ReachedIsChanged(log: Log, e: Entry, d: Entry, n: nat)
    requires Held(log, e) && Held(log, d) && Apart(d, e) && e.name != log.openName && Reach(e, n, d) > 0
    ensures Slot(log, d) != [] && Held(WrittenAt(log, e, Other(Slot(log, d)[0], n)), d)
    ensures Slot(WrittenAt(log, e, Other(Slot(log, d)[0], n)), d) != Slot(log, d)
  {
    assert |Slot(log, d)| == d.length && d.length > 0;
    hide WrittenAt, Other, Slot, Reach, Held, Apart;
    var data := Other(Slot(log, d)[0], n);
    DeltaReaches(log, e, d, data);
    PrefixChanged(Slot(log, d), data, d.offset - e.offset, Reach(e, n, d));
  }

  /** Writing `n` bytes over a stored chunk spares all other chunks, whatever the bytes are, exactly if none of
      the other records is reached. No more bytes than the record has never reach one. */
  lemma LongDeltaSparesExactly(st: Store, h: Bytes, n: nat)
    requires Sound(st) && h in st.index && st.index[h].name != st.log.openName
    ensures (forall data: Bytes :: |data| == n ==> Spares(st, h, data)) <==>
            forall g :: g in st.index && g != h ==> Reach(st.index[h], n, st.index[g]) == 0
    ensures n <= st.index[h].length ==> forall g :: g in st.index && g != h ==> Reach(st.index[h], n, st.index[g]) == 0
  {
    hide Coherent, WrittenAt, Slot, Reach, Held;
    var e := st.index[h];
    forall g | g in st.index && g != h
      ensures (exists data: Bytes :: |data| == n && !Spares(st, h, data)) || Reach(e, n, st.index[g]) == 0
      ensures n <= e.length ==> Reach(e, n, st.index[g]) == 0
    {
      assert Apart(st.index[g], e);
      HeldAt(st, h);
      HeldAt(st, g);
      ShortReachesNone(e, n, st.index[g]);
      if Reach(e, n, st.index[g]) > 0 {
        ReachedIsChanged(st.log, e, st.index[g], n);
        assert !Spares(st, h, Other(Slot(st.log, st.index[g])[0], n));
      }
    }
    if forall g :: g in st.index && g != h ==> Reach(e, n, st.index[g]) == 0 {
      forall data: Bytes | |data| == n ensures Spares(st, h, data) {
        UnreachedSpared(st, h, data);
      }
    }
  }

  lemma ShortReachesNone(e: Entry, n: nat, d: Entry)
    requires Apart(d, e)
    ensures n <= e.length ==> Reach(e, n, d) == 0
  {
  }

  lemma UnreachedSpared(st: Store, h: Bytes, data: Bytes)
    requires Sound(st) && h in st.index && st.index[h].name != st.log.openName
    requires forall g :: g in st.index && g != h ==> Reach(st.index[h], |data|, st.index[g]) == 0
    ensures Spares(st, h, data)
  {
    hide Coherent, WrittenAt, Slot, Reach, Held;
    HeldAt(st, h);
    forall g | g in st.index && g != h
      ensures Held(WrittenAt(st.log, st.index[h], data), st.index[g])
      ensures Slot(WrittenAt(st.log, st.index[h], data), st.index[g]) == Stored(st)[g]
    {
      assert Apart(st.index[g], st.index[h]);
      HeldAt(st, g);
      DeltaReaches(st.log, st.index[h], st.index[g], data);
    }
  }

  /** Where it goes wrong: two bytes written over a record of one byte change the next record. */
  lemma LongDeltaOverwrites(name: Name)
    ensures var e, d := Entry(name, 0, 1, 1, 1), Entry(name, 1, 1, 1, 0);
            Apart(d, e) && Cut(d, Overwritten([1, 2], e.offset, [3, 4])) == [4] != Cut(d, [1, 2])
  {
    var d := Entry(name, 1, 1, 1, 0);
    assert Overwritten([1, 2], 0, [3, 4]) == [3, 4];
    assert Cut(d, [1, 2])[0] == 2 && Cut(d, [3, 4]) == [4];
  }

  lemma InstallAccounts(st: Store, h: Bytes, data: Bytes, deltaCount: nat, exact: bool)
    requires Sound(st) && Installable(st, h, data) && Accounted(st, exact)
    ensures Accounted(Install(st, h, data, deltaCount), exact)
  {
    hide LiveBytes, Sound;
    forall n { LiveBytesWith(st.index, n, h, Install(st, h, data, deltaCount).index[h]); }
  }
}
