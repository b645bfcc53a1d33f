/** The whole list, performed by a program that starts with nothing. */
module FullRun {
  import opened Bytes
  import opened Names
  import opened Options
  import opened Deltas
  import opened RefCounts
  import opened Vault
  import opened Runs
  import opened Containers
  import SC = StorageCore
  import RollingHash
  import opened Cuts
  import opened Restore
  import opened FileIndex
  import opened Chunker
  import opened WholeFile
  import opened Program
  import opened CommandLists
  import opened SampleRuns
  import opened Samples
  import opened FullList

  function Sevens(): Bytes {
    seq(40, _ => 7)
  }

  function Eights(): Bytes {
    seq(40, _ => 8)
  }

  /** A delta coder that makes nothing of one chunk, and puts a byte before the others. */
  function Pack(): Create {
    (base, chunk) => if chunk == Sevens() then [] else [1] + chunk
  }

  function Unpack(): Apply {
    (base, delta) => if delta == [] then Sevens() else delta[1..]
  }

  lemma PackInverse()
    ensures Inverse(Unpack(), Pack())
  {
    hide Sevens;
    forall base: Bytes, chunk: Bytes ensures Unpack()(base, Pack()(base, chunk)) == chunk {
      assert ([1] + chunk)[1..] == chunk;
    }
  }

  function PackedSample(): Sample {
    Example(Filled(1), Filled(2), [])
  }

  lemma PackedParts()
    ensures var s := PackedSample();
            && s.a == Chunk(Filled(1), Sevens()) && s.b == Chunk(Filled(2), Eights()) && s.delta == Filled(2)
            && s.name == INITIAL_NAME && s.max == 50 && s.fileA == [1] && s.fileB == [2]
  {
    assert Filled(2) + [] == Filled(2);
  }

  lemma PackedBytes()
    ensures San(Sevens()) == Sevens() && San(Eights()) == Eights() && Stem(Sevens()) != Stem(Eights())
    ensures Clean(Filled(2)) && Clean(Sevens()) && |Sevens()| == 40
  {
    assert Stem(Sevens())[0] == 7 && Stem(Eights())[0] == 8;
  }

  lemma PackedSampleOk()
    ensures SampleOk(PackedSample(), Unpack(), ExampleContent(Filled(1)))
  {
    hide San, Filled, Room, Stem, Clean;
    FilledDiffer(1, 2);
    NamesLast();
    PackedParts();
    PackedBytes();
  }

  /** The hypotheses on the sample can be met. */
  lemma PackedMade(prog: Program)
    requires prog.apply == Unpack() && prog.create == Pack() && prog.deltas == DeltaSettings(50, 50, 45)
    requires prog.p.min > 40 && prog.fp(Sevens()) == Filled(1) && prog.fp(Eights()) == Filled(2)
    ensures MadeBy(prog, PackedSample(), ExampleContent(Filled(1)))
  {
    hide San, Clean, Stem, SampleOk, PackedSample;
    PackInverse();
    PackedParts();
    PackedBytes();
    PackedSampleOk();
    assert Filled(2) + [] == Filled(2);
  }

  lemma EmptyIsGood(apply: Apply, content: ContentMap, name: Name, max: nat)
    requires name != [] && max > 0
    ensures Good(Empty(name, max), apply, content, false)
  {
    hide StoreGood, CountsAgree;
    EmptyGood(apply, content, name, max);
    InexactGood(Empty(name, max).st, apply, content, true);
  }

  lemma WholeListIs(s: Sample)
    requires s.fileA != s.fileB
    ensures var cs := [BackUpFile(s.fileB, s.b.data)] + AfterBackUps(s);
            && WholeList(s) == [BackUpFile(s.fileA, s.a.data)] + cs
            && forall i :: 0 <= i < |cs| ==> !CommandTouches(cs[i], s.fileA)
  {
    hide Order, ContainerNames;
  }

  /** A storage core on an empty directory and empty databases. */
  method NewCore() returns (core: SC.StorageCore)
    ensures core.Valid() && fresh(core.Repr()) && core.State() == Empty(INITIAL_NAME, 50).st
    ensures core.apply == Unpack() && core.log.max == core.log.cached.body.Length == 50
    ensures core.db.recipes == map[] && core.db.deltas == map[] && core.db.deltaConfig == None
  {
    var disk := new Directory();
    var db := new SC.Databases();
    hide ContainerLog.Valid;
    core := new SC.StorageCore(disk, db, Unpack(), 50, 50);
  }

  /** A program on it, and on an empty directory for its deltas. */
  method Start(limits: Limits, fp: Fingerprint) returns (prog: Program)
    ensures prog.Valid() && fresh(prog.Repr()) && prog.fp == fp && prog.p.min == 41
    ensures prog.apply == Unpack() && prog.create == Pack() && prog.deltas == DeltaSettings(50, 50, 45)
    ensures prog.State() == Empty(INITIAL_NAME, 50)
  {
    PackInverse();
    hide Pack, Unpack, Inverse, RollingHash.Pow2, ContainerLog.Valid;
    var core := NewCore();
    var deltaDisk := new Directory();
    prog := new Program(Settings(1, 41, 42, 43, 16, true, limits), DeltaSettings(50, 50, 45), fp, Pack(), core,
                        deltaDisk);
  }

  lemma ListOfSample(prog: Program, s: Sample, cs: seq<Command>, content: ContentMap)
    requires MadeBy(prog, s, content) && cs == [BackUpFile(s.fileB, s.b.data)] + AfterBackUps(s)
    ensures prog.AllOk(Empty(s.name, s.max), [BackUpFile(s.fileA, s.a.data)] + cs, content)
    ensures forall i :: 0 <= i < |cs| ==> !CommandTouches(cs[i], s.fileA)
    ensures Chunks(prog.p, s.a.data) == [s.a.data] && Good(Empty(s.name, s.max), prog.apply, content, false)
  {
    MadeWorks(prog, s, content);
    SampleNames(s, prog.apply, content);
    hide MadeBy, SampleOk, Good, Program.AllOk, WholeList, AfterBackUps;
    WholeListOk(prog, s, content);
    WholeListIs(s);
    assert 0 < |s.a.data| < prog.p.min by {
      ShortData(prog, s, content);
    }
    ShortFile(prog, s.a.data);
    EmptyIsGood(prog.apply, content, s.name, s.max);
  }

  lemma SampleNames(s: Sample, apply: Apply, content: ContentMap)
    requires SampleOk(s, apply, content)
    ensures s.fileA != s.fileB && s.name != [] && s.max > 0
  {
  }

  lemma ShortData(prog: Program, s: Sample, content: ContentMap)
    requires MadeBy(prog, s, content)
    ensures 0 < |s.a.data| < prog.p.min
  {
  }

  /** It performs the whole list, and the first file comes back. */
  method Perform(prog: Program, s: Sample, ghost content: ContentMap) returns (chunks: seq<RestoredChunk>)
    requires MadeBy(prog, s, content) && Clean(s.a.data)
    requires prog.Valid() && prog.State() == Empty(s.name, s.max)
    modifies prog.Repr()
    ensures JoinedBytes(chunks) == s.a.data
  {
    hide Good, Program.AllOk, MadeBy, JoinedBytes, Clean, Chunks, SameButNuls, AfterBackUps, Derived;
    hide CommandTouches, ContainerLog.Valid, SettingsOk, Inverse;
    var cs := [BackUpFile(s.fileB, s.b.data)] + AfterBackUps(s);
    ListOfSample(prog, s, cs, content);
    assert prog.State().recipes == map[];
    chunks := prog.BackUpRunRestore(s.fileA, s.a.data, cs, content);
  }

  /** So the theorem on lists of commands applies to a program that starts with nothing. */
  method WholeRun(limits: Limits, fp: Fingerprint) returns (chunks: seq<RestoredChunk>)
    requires fp(Sevens()) == Filled(1) && fp(Eights()) == Filled(2)
    ensures JoinedBytes(chunks) == Sevens()
  {
    hide San, Filled, MadeBy, PackedSample, JoinedBytes, Sevens, Eights, Clean, Pack, Unpack, Program.Valid;
    hide Program.State;
    var prog := Start(limits, fp);
    PackedParts();
    PackedBytes();
    PackedMade(prog);
    chunks := Perform(prog, PackedSample(), ExampleContent(Filled(1)));
  }
}
