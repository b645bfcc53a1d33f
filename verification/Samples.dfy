/** Samples for the runs: concrete names, chunks and deltas that meet their hypotheses. */
module Samples {
  import opened Bytes
  import opened Names
  import opened Deltas
  import opened Vault
  import opened SampleRuns
  import opened FailingRuns

  /** A sample with the given fingerprints, whose delta has the given tail. */
  function Example(hashA: Bytes, hashB: Bytes, tail: Bytes): Sample {
    Sample(INITIAL_NAME, 50, [1], [2], Chunk(hashA, seq(40, _ => 7)), Chunk(hashB, seq(40, _ => 8)), hashB + tail)
  }

  /** Makes the first chunk out of the second with the right delta, and nothing otherwise. */
  function ExampleApply(tail: Bytes): Apply {
    (base, delta) => if base != [] && delta == tail then seq(40, _ => 7) else []
  }

  function ExampleContent(hashA: Bytes): ContentMap {
    h => if h == hashA then seq(40, _ => 7) else seq(40, _ => 8)
  }

  lemma NamesLast()
    ensures Room(INITIAL_NAME, 3)
  {
    NextOf("abcdefghijklmno", 13, 14, "abcdefghijklmo", "n");
    NextOf("abcdefghijklmon", 12, 14, "abcdefghijkln", "om");
    NextOf("abcdefghijklnmo", 13, 14, "abcdefghijklno", "m");
    assert Reverse("n") == "n" && Reverse("m") == "m" && Reverse("om") == "mo";
    hide NextPermutation, Last;
    assert Room("abcdefghijklnom", 0);
    assert Room("abcdefghijklnmo", 1);
    assert Room("abcdefghijklmon", 2);
  }

  /** The next permutation, given its pivot, the character exchanged with it, and the parts after that. */
  lemma NextOf(s: Name, i: nat, j: nat, front: Name, back: Name)
    requires i < j < |s| && LastPivot(s) == i && RightmostAbove(s, i + 1, |s|, s[i]) == j
    requires Exchanged(s, i, j) == front + back && |front| == i + 1
    ensures !Last(s) && NextPermutation(s) == front + Reverse(back)
  {
  }

  lemma ExampleOk(hashA: Bytes, hashB: Bytes, tail: Bytes)
    requires |hashA| == |hashB| == HASH_SIZE && hashA != hashB && |tail| <= 8
    ensures SampleOk(Example(hashA, hashB, tail), ExampleApply(tail), ExampleContent(hashA))
  {
    NamesLast();
    var s := Example(hashA, hashB, tail);
    hide Room;
    assert s.delta[..HASH_SIZE] == hashB && s.delta[HASH_SIZE..] == tail;
    var a, b: Bytes := seq(40, _ => 7), seq(40, _ => 8);
    assert San(a) == a && San(b) == b;
    assert b[0] == 8;
  }

  /** Fingerprints for samples. */
  function Filled(b: byte): (hash: Bytes)
    ensures |hash| == HASH_SIZE
  {
    seq(HASH_SIZE, _ => b)
  }

  function WithNul(b: byte): (hash: Bytes)
    ensures |hash| == HASH_SIZE
  {
    [0] + seq(HASH_SIZE - 1, _ => b)
  }

  lemma ExampleParts(hashA: Bytes, hashB: Bytes, tail: Bytes)
    ensures var s := Example(hashA, hashB, tail);
            && s.a.hash == hashA && s.b.hash == hashB && s.delta == hashB + tail
            && |s.a.data| == 40 && forall i :: 0 <= i < 40 ==> s.a.data[i] == 7
  {
  }

  /** A sample for the run that does everything, and for the lost base. */
  lemma PlainSample()
    ensures var s, apply := Example(Filled(1), Filled(2), []), ExampleApply([]);
            SampleOk(s, apply, ExampleContent(Filled(1))) && Clean(s.delta) && NeedsBase(s, apply)
  {
    hide San, SampleOk, ExampleContent, Filled, Example, Clean, NeedsBase;
    FilledWith(1);
    FilledWith(2);
    FilledDiffer(1, 2);
    ExampleOk(Filled(1), Filled(2), []);
    ExampleNeedsBase(Filled(1), Filled(2));
  }

  lemma FilledDiffer(b: byte, c: byte)
    requires b != c
    ensures Filled(b) != Filled(c)
  {
    assert Filled(b)[0] == b && Filled(c)[0] == c;
  }

  lemma ExampleNeedsBase(hashA: Bytes, hashB: Bytes)
    requires |hashB| == HASH_SIZE && forall i :: 0 <= i < HASH_SIZE ==> hashB[i] != 0
    ensures Clean(Example(hashA, hashB, []).delta) && NeedsBase(Example(hashA, hashB, []), ExampleApply([]))
  {
    hide San, Example;
    ExampleParts(hashA, hashB, []);
    assert |San(Example(hashA, hashB, []).a.data)| == 40;
  }

  lemma FilledWith(b: byte)
    ensures forall i :: 0 <= i < HASH_SIZE ==> Filled(b)[i] == b
  {
  }

  /** The delta decodes to nothing, with another tail or without its base. */
  lemma ExampleWrong(hashA: Bytes, hashB: Bytes, tail: Bytes, delta: Bytes)
    requires |delta| >= HASH_SIZE && |hashA| == HASH_SIZE && delta[0] != hashA[0]
    requires delta[HASH_SIZE..] != tail || Base(delta) != hashB
    ensures DecodesWrongly(Example(hashA, hashB, tail), delta, ExampleApply(tail))
  {
    var s := Example(hashA, hashB, tail);
    hide San;
    assert Base(delta)[0] == delta[0];
    assert |San(s.a.data)| == 40;
  }

  function NulTail(): (tail: Bytes)
    ensures |tail| == 3 && tail[0] == 0
  {
    [0, 1, 1]
  }

  /** A sample for the spoilt delta: its tail has a NUL. */
  lemma UncleanSample()
    ensures var s, apply := Example(Filled(1), Filled(2), NulTail()), ExampleApply(NulTail());
            SampleOk(s, apply, ExampleContent(Filled(1))) && !Clean(s.delta) && DecodesWrongly(s, San(s.delta), apply)
  {
    hide San, SampleOk, DecodesWrongly, ExampleApply, ExampleContent, Filled, NulTail, Example;
    FilledWith(1);
    FilledWith(2);
    FilledDiffer(1, 2);
    var delta := Filled(2) + NulTail();
    assert delta[0] == Filled(2)[0] && delta[HASH_SIZE] == NulTail()[0];
    ExampleOk(Filled(1), Filled(2), NulTail());
    ExampleParts(Filled(1), Filled(2), NulTail());
    SanAt(delta, 0);
    SanAt(delta, HASH_SIZE);
    assert San(delta)[HASH_SIZE..][0] == MARK;
    ExampleWrong(Filled(1), Filled(2), NulTail(), San(delta));
  }

  /** Another one: the fingerprint of its base has a NUL, and compaction loses the base. */
  lemma UncleanBaseSample()
    ensures var s, apply := Example(Filled(1), WithNul(2), [1, 1]), ExampleApply([1, 1]);
            && SampleOk(s, apply, ExampleContent(Filled(1))) && !Clean(s.delta)
            && DecodesWrongly(s, San(s.delta), apply) && Base(San(s.delta)) != s.b.hash
  {
    var delta := WithNul(2) + [1, 1];
    assert Filled(1)[0] == 1 && WithNul(2)[0] == delta[0] == 0;
    hide San, SampleOk, DecodesWrongly, ExampleApply, ExampleContent, Filled, WithNul;
    ExampleOk(Filled(1), WithNul(2), [1, 1]);
    SanAt(delta, 0);
    assert Base(San(delta))[0] == MARK;
    ExampleWrong(Filled(1), WithNul(2), [1, 1], San(delta));
  }

  /** A sample for the overwritten delta. */
  lemma NulHashSample()
    ensures var s, apply := Example(WithNul(1), Filled(2), []), ExampleApply([]);
            && SampleOk(s, apply, ExampleContent(WithNul(1))) && !NulFree(s.a.hash)
            && DecodesWrongly(s, San(s.a.data[..|s.delta|]), apply)
  {
    var s := Example(WithNul(1), Filled(2), []);
    var raw := s.a.data[..|s.delta|];
    assert WithNul(1)[0] == 0 && Filled(2)[0] == 2 && raw[0] == 7;
    hide San, SampleOk, DecodesWrongly, ExampleApply, ExampleContent, Filled, WithNul;
    ExampleOk(WithNul(1), Filled(2), []);
    SanAt(raw, 0);
    assert Base(San(raw))[0] == 7;
    ExampleWrong(WithNul(1), Filled(2), [], San(raw));
  }
}
