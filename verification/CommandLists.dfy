/** Lists of commands that may be given: deltas saved one after the other and then installed. */
module CommandLists {
  import opened Bytes
  import opened Names
  import opened Log
  import opened Deltas
  import opened DeltaPass
  import RefCounts
  import opened Vault
  import opened Runs
  import opened PendingRuns
  import opened Program

  /** What a program's constructor asks of its deltas. */
  ghost predicate Works(prog: Program) {
    Inverse(prog.apply, prog.create) && prog.deltas.maxChunk <= prog.deltas.max <= prog.deltas.capacity
  }

  lemma FirstThenRest(prog: Program, v: Vault, c: Command, cs: seq<Command>, content: ContentMap)
    requires prog.CommandOk(v, c, content)
    requires forall w :: prog.Leads(v, c, w, content) ==> prog.AllOk(w, cs, content)
    ensures prog.AllOk(v, [c] + cs, content)
  {
    assert ([c] + cs)[0] == c && ([c] + cs)[1..] == cs;
  }

  // ---- Saving deltas, and installing them ----

  datatype Pair = Pair(base: Bytes, hash: Bytes)

  function Saves(pairs: seq<Pair>): seq<Command> {
    if pairs == [] then [] else [SaveDelta(pairs[0].base, pairs[0].hash)] + Saves(pairs[1..])
  }

  /** The base is known and of lower rank, and the other chunk is not yet stored as a delta. */
  ghost predicate PairFits(index: Index, pair: Pair, rank: Bytes -> nat) {
    && |pair.base| == HASH_SIZE && pair.base in index && (pair.hash in index ==> index[pair.hash].deltaCount == 0)
    && (pair.base != pair.hash ==> rank(pair.base) < rank(pair.hash))
  }

  /** One ranking does for all pairs, and each may use up a name of the delta log. */
  ghost predicate PairsFit(prog: Program, v: Vault, pairs: seq<Pair>, content: ContentMap, rank: Bytes -> nat) {
    && PendingWith(v, prog.apply, content, rank) && DeltaLogOk(v, prog.deltas.max, prog.deltas.capacity)
    && Room(DeltaLog(v, prog.deltas.max, prog.deltas.capacity).openName, |pairs|)
    && forall i :: 0 <= i < |pairs| ==> PairFits(v.st.index, pairs[i], rank)
  }

  lemma FirstFits(prog: Program, v: Vault, pairs: seq<Pair>, content: ContentMap, rank: Bytes -> nat)
    requires PairsFit(prog, v, pairs, content, rank) && pairs != []
    ensures prog.PairOk(v, pairs[0].base, pairs[0].hash, content, rank)
  {
    hide PendingWith, DeltaLogOk, Last, NextPermutation;
    assert PairFits(v.st.index, pairs[0], rank);
    LogFacts(v, prog.deltas.max, prog.deltas.capacity);
    assert !Last(DeltaLog(v, prog.deltas.max, prog.deltas.capacity).openName);
  }

  /** Reading leaves the delta log alone, and saving uses up at most one name. */
  lemma SaveUsesOneName(prog: Program, v: Vault, names: seq<Name>, base: Bytes, h: Bytes, content: ContentMap, n: nat)
    requires DeltaLogOk(v, prog.deltas.max, prog.deltas.capacity)
    requires Room(DeltaLog(v, prog.deltas.max, prog.deltas.capacity).openName, n + 1)
    ensures var w := prog.AfterSave(AfterReading(v, names), base, h, content);
            && w.st.index == v.st.index && v.pending.Keys <= w.pending.Keys
            && (prog.WorthSaving(v, base, h, content) ==> h in w.pending)
            && (DeltaLogOk(w, prog.deltas.max, prog.deltas.capacity) ==>
                  Room(DeltaLog(w, prog.deltas.max, prog.deltas.capacity).openName, n))
  {
    hide DeltaLogOk, AfterReads, Last, NextPermutation, Stem, San;
    LogFacts(v, prog.deltas.max, prog.deltas.capacity);
    RoomShrinks(DeltaLog(v, prog.deltas.max, prog.deltas.capacity).openName, n + 1, n);
    var w := prog.AfterSave(AfterReading(v, names), base, h, content);
    if DeltaLogOk(w, prog.deltas.max, prog.deltas.capacity) {
      LogFacts(w, prog.deltas.max, prog.deltas.capacity);
    }
  }

  lemma RestFits(
    prog: Program, v: Vault, pairs: seq<Pair>, names: seq<Name>, content: ContentMap, rank: Bytes -> nat
  )
    requires Works(prog) && pairs != [] && PairsFit(prog, v, pairs, content, rank)
    requires Good(v, prog.apply, content, false)
    ensures var w := prog.AfterSave(AfterReading(v, names), pairs[0].base, pairs[0].hash, content);
            && Good(w, prog.apply, content, false) && PairsFit(prog, w, pairs[1..], content, rank)
            && w.st.index == v.st.index && v.pending.Keys <= w.pending.Keys
            && (prog.WorthSaving(v, pairs[0].base, pairs[0].hash, content) ==> pairs[0].hash in w.pending)
  {
    hide Good, PendingWith, DeltaLogOk, PairFits, Program.AfterSave, Program.PairOk, Program.WorthSaving, Room;
    hide AfterReading;
    FirstFits(prog, v, pairs, content, rank);
    prog.SavingKeepsPending(v, names, pairs[0].base, pairs[0].hash, content, rank);
    SaveUsesOneName(prog, v, names, pairs[0].base, pairs[0].hash, content, |pairs| - 1);
  }

  /** The delta of `h` is pending, or will be once the pairs have been saved. */
  ghost predicate ToBePending(prog: Program, v: Vault, pairs: seq<Pair>, h: Bytes, content: ContentMap) {
    h in v.pending
    || exists i :: 0 <= i < |pairs| && pairs[i].hash == h && prog.WorthSaving(v, pairs[i].base, h, content)
  }

  lemma StillToBePending(prog: Program, v: Vault, w: Vault, pairs: seq<Pair>, h: Bytes, content: ContentMap)
    requires pairs != [] && ToBePending(prog, v, pairs, h, content)
    requires w.st.index == v.st.index && v.pending.Keys <= w.pending.Keys
    requires prog.WorthSaving(v, pairs[0].base, pairs[0].hash, content) ==> pairs[0].hash in w.pending
    ensures ToBePending(prog, w, pairs[1..], h, content)
  {
    if h !in w.pending {
      var i :| 0 <= i < |pairs| && pairs[i].hash == h && prog.WorthSaving(v, pairs[i].base, h, content);
      assert pairs[1..][i - 1] == pairs[i];
      assert prog.WorthSaving(w, pairs[i].base, h, content);
    }
  }

  /** Deltas may be saved one after the other, and then all be installed that were pending before or that
      were worth saving. */
  lemma {:induction false} SavesThenInstall(
    prog: Program, v: Vault, pairs: seq<Pair>, order: seq<Bytes>, content: ContentMap, rank: Bytes -> nat
  )
    requires Works(prog) && Good(v, prog.apply, content, false) && PairsFit(prog, v, pairs, content, rank)
    requires NoRepeats(order) && forall h :: h in order ==> ToBePending(prog, v, pairs, h, content)
    ensures prog.AllOk(v, Saves(pairs) + [InstallAll(order)], content)
    decreases |pairs|
  {
    hide Good, PairsFit, ToBePending, NoRepeats, Program.CommandOk, Program.AfterSave, Program.WorthSaving;
    if pairs == [] {
      InstallLast(prog, v, order, content, rank);
      assert Saves(pairs) + [InstallAll(order)] == [InstallAll(order)];
    } else {
      var c, rest := SaveDelta(pairs[0].base, pairs[0].hash), Saves(pairs[1..]) + [InstallAll(order)];
      FirstSave(prog, v, pairs, content, rank);
      forall w | prog.Leads(v, c, w, content) ensures prog.AllOk(w, rest, content) {
        var names :| w == prog.AfterSave(AfterReading(v, names), pairs[0].base, pairs[0].hash, content);
        RestFits(prog, v, pairs, names, content, rank);
        forall h | h in order ensures ToBePending(prog, w, pairs[1..], h, content) {
          StillToBePending(prog, v, w, pairs, h, content);
        }
        SavesThenInstall(prog, w, pairs[1..], order, content, rank);
      }
      FirstThenRest(prog, v, c, rest, content);
      assert Saves(pairs) + [InstallAll(order)] == [c] + rest;
    }
  }

  lemma FirstSave(prog: Program, v: Vault, pairs: seq<Pair>, content: ContentMap, rank: Bytes -> nat)
    requires PairsFit(prog, v, pairs, content, rank) && pairs != []
    ensures prog.CommandOk(v, SaveDelta(pairs[0].base, pairs[0].hash), content)
  {
    hide PairsFit, Program.PairOk;
    FirstFits(prog, v, pairs, content, rank);
  }

  lemma InstallLast(prog: Program, v: Vault, order: seq<Bytes>, content: ContentMap, rank: Bytes -> nat)
    requires Good(v, prog.apply, content, false) && PairsFit(prog, v, [], content, rank)
    requires NoRepeats(order) && forall h :: h in order ==> ToBePending(prog, v, [], h, content)
    ensures prog.AllOk(v, [InstallAll(order)], content)
  {
    hide Good, PendingWith, DeltaLogOk, NoRepeats, Program.CommandOk, Program.Leads;
    prog.InstallAlwaysOk(v, order, content);
    FirstThenRest(prog, v, InstallAll(order), [], content);
    assert [InstallAll(order)] + [] == [InstallAll(order)];
  }

  // ---- Installing after any commands ----

  /** What pending deltas ask of the commands: collections keep their bases, passes visit all of them, and at
      the end those of `order` are pending. */
  ghost predicate AllSafe(prog: Program, v: Vault, cs: seq<Command>, order: seq<Bytes>, content: ContentMap)
    requires prog.AllOk(v, cs, content)
    decreases |cs|
  {
    if cs == [] then forall h :: h in order ==> h in v.pending
    else
      && (cs[0].CollectAll? ==> PendingBasesIn(v, RefCounts.Collect(v.st.index).Keys))
      && (cs[0].InstallAll? ==> forall h :: h in v.pending ==> h in cs[0].order)
      && forall w :: prog.Leads(v, cs[0], w, content) ==> AllSafe(prog, w, cs[1..], order, content)
  }

  /** Then the pass may follow. */
  lemma {:induction false} InstallAfter(
    prog: Program, v: Vault, cs: seq<Command>, order: seq<Bytes>, content: ContentMap
  )
    requires Works(prog) && Good(v, prog.apply, content, false) && NoRepeats(order)
    requires PendingGood(v, prog.deltas.max, prog.deltas.capacity, prog.apply, content)
    requires prog.AllOk(v, cs, content) && AllSafe(prog, v, cs, order, content)
    ensures prog.AllOk(v, cs + [InstallAll(order)], content)
    decreases |cs|
  {
    hide Good, PendingGood, PendingBasesIn, NoRepeats, Program.CommandOk, Program.Leads, CommandTouches;
    if cs == [] {
      prog.InstallAlwaysOk(v, order, content);
      FirstThenRest(prog, v, InstallAll(order), [], content);
      assert cs + [InstallAll(order)] == [InstallAll(order)] + [];
    } else {
      var c, rest := cs[0], cs[1..] + [InstallAll(order)];
      forall w | prog.Leads(v, c, w, content) ensures prog.AllOk(w, rest, content) {
        prog.CommandGood(v, c, w, content, []);
        prog.CommandKeepsPending(v, c, w, content);
        InstallAfter(prog, w, cs[1..], order, content);
      }
      FirstThenRest(prog, v, c, rest, content);
      assert cs + [InstallAll(order)] == [c] + rest;
    }
  }
}
