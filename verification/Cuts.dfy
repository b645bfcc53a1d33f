/** Where content-defined chunking cuts, stated without the rolling hash or the read blocks. */
module Cuts {
  import opened Bytes
  import opened RollingHash

  /** Window size, minimum and maximum chunk size, and the number of mask bits. */
  datatype Params = Params(window: nat, min: nat, max: nat, bits: nat) {
    predicate Valid() {
      1 <= window < max && min <= max
    }
  }

  /** The hash of the last `window` bytes, in 16 bits. */
  function WindowHash(p: Params, s: Bytes): nat
    requires p.window <= |s|
  {
    Poly(s[|s| - p.window..]) % M16
  }

  /** A chunk may end after `s`: it is long enough and ends at an anchor, or has the maximum size. */
  predicate CutAfter(p: Params, s: Bytes) {
    |s| > p.window && |s| >= p.min && (IsAnchor(WindowHash(p, s), p.bits) || |s| >= p.max)
  }

  /** No chunk ends within `s`. */
  ghost predicate NoCutIn(p: Params, s: Bytes) {
    forall k :: 0 <= k <= |s| ==> !CutAfter(p, s[..k])
  }

  /** The least length, from `k` on, after which `data` is cut; one more than its length if there is none. */
  function CutFrom(p: Params, data: Bytes, k: nat): (cut: nat)
    requires k <= |data| + 1
    ensures k <= cut <= |data| + 1
    ensures cut <= |data| ==> CutAfter(p, data[..cut])
    ensures forall j :: k <= j < cut ==> !CutAfter(p, data[..j])
    decreases |data| + 1 - k
  {
    if k > |data| || CutAfter(p, data[..k]) then k else CutFrom(p, data, k + 1)
  }

  /** Greedy chunking: each chunk ends at the first cut; what is left over is the last chunk. */
  function Chunks(p: Params, data: Bytes): seq<Bytes> {
    if data == [] then []
    else
      var k := CutFrom(p, data, 1);
      if k <= |data| then [data[..k]] + Chunks(p, data[k..]) else [data]
  }

  /** `chunk` ends at its first cut. */
  ghost predicate Complete(p: Params, chunk: Bytes) {
    chunk != [] && CutAfter(p, chunk) && NoCutIn(p, chunk[..|chunk| - 1])
  }

  /** `chunk` is left over: not empty, and never cut. */
  ghost predicate Leftover(p: Params, chunk: Bytes) {
    chunk != [] && NoCutIn(p, chunk)
  }

  /** The greedy rule, chunk by chunk: only the last may be left over. */
  ghost predicate Greedy(p: Params, chunks: seq<Bytes>) {
    forall i :: 0 <= i < |chunks| ==> Complete(p, chunks[i]) || (i == |chunks| - 1 && Leftover(p, chunks[i]))
  }

  /** A first cut is the only first cut. */
  lemma CutFromIs(p: Params, data: Bytes, chunk: Bytes)
    requires chunk <= data && Complete(p, chunk)
    ensures CutFrom(p, data, 1) == |chunk|
  {
    assert data[..|chunk|] == chunk;
    forall k | 0 <= k < |chunk| ensures !CutAfter(p, data[..k]) {
      assert data[..k] == chunk[..|chunk| - 1][..k];
    }
  }

  lemma CompleteHead(p: Params, chunk: Bytes, rest: Bytes)
    requires Complete(p, chunk)
    ensures Chunks(p, chunk + rest) == [chunk] + Chunks(p, rest)
  {
    CutFromIs(p, chunk + rest, chunk);
    assert (chunk + rest)[..|chunk|] == chunk && (chunk + rest)[|chunk|..] == rest;
  }

  lemma LeftoverHead(p: Params, chunk: Bytes)
    requires Leftover(p, chunk)
    ensures Chunks(p, chunk) == [chunk]
  {
    var k := CutFrom(p, chunk, 1);
  }

  lemma EmptyIsNoCut(p: Params)
    ensures !CutAfter(p, [])
  {
  }

  /** What greedy chunking splits off is a complete chunk, or all there is and left over. */
  lemma FirstChunk(p: Params, data: Bytes)
    requires data != []
    ensures var k := CutFrom(p, data, 1);
            if k <= |data| then Complete(p, data[..k]) else Leftover(p, data)
  {
    hide CutAfter;
    EmptyIsNoCut(p);
    var k := CutFrom(p, data, 1);
    var uncut := if k <= |data| then data[..k][..k - 1] else data;
    forall j | 0 <= j <= |uncut| ensures !CutAfter(p, uncut[..j]) {
      assert uncut[..j] == data[..j];
    }
  }

  /** Chunking divides the data by the greedy rule. */
  lemma {:induction false} ChunksAreGreedy(p: Params, data: Bytes)
    ensures Concat(Chunks(p, data)) == data && Greedy(p, Chunks(p, data))
    decreases |data|
  {
    hide CutAfter, Complete, Leftover;
    if data != [] {
      FirstChunk(p, data);
      var k := CutFrom(p, data, 1);
      if k <= |data| {
        ChunksAreGreedy(p, data[k..]);
        assert data == data[..k] + data[k..];
        var rest := Chunks(p, data[k..]);
        assert Chunks(p, data) == [data[..k]] + rest && Chunks(p, data)[1..] == rest;
      } else {
        assert Chunks(p, data)[1..] == [];
      }
    }
  }

  /** The greedy rule determines the chunks: any division that follows it is the one computed. */
  lemma {:induction false} GreedyIsChunks(p: Params, chunks: seq<Bytes>)
    requires Greedy(p, chunks)
    ensures chunks == Chunks(p, Concat(chunks))
    decreases |chunks|
  {
    if chunks != [] {
      var rest := chunks[1..];
      assert Greedy(p, rest) by {
        forall i | 0 <= i < |rest| ensures Complete(p, rest[i]) || (i == |rest| - 1 && Leftover(p, rest[i])) {
          assert rest[i] == chunks[i + 1];
        }
      }
      GreedyIsChunks(p, rest);
      if Complete(p, chunks[0]) {
        CompleteHead(p, chunks[0], Concat(rest));
      } else {
        assert rest == [];
        assert Concat(chunks) == chunks[0];
        LeftoverHead(p, chunks[0]);
      }
    }
  }

  lemma LongIsCut(p: Params, s: Bytes)
    requires p.Valid()
    ensures |s| >= p.max ==> CutAfter(p, s[..p.max])
  {
  }

  /** Chunk sizes: at most the maximum, and all but the last longer than the window and at least the minimum. */
  lemma ChunkSizes(p: Params, data: Bytes, i: nat)
    requires p.Valid() && i < |Chunks(p, data)|
    ensures 0 < |Chunks(p, data)[i]| <= p.max
    ensures i < |Chunks(p, data)| - 1 ==> p.window < |Chunks(p, data)[i]| && p.min <= |Chunks(p, data)[i]|
  {
    ChunksAreGreedy(p, data);
    var c := Chunks(p, data)[i];
    LongIsCut(p, c);
    if Complete(p, c) {
      LongIsCut(p, c[..|c| - 1]);
    }
  }

  /** `data` ends at a cut: nothing is left over. */
  ghost predicate EndsAtCut(p: Params, data: Bytes) {
    var chunks := Chunks(p, data);
    chunks == [] || Complete(p, chunks[|chunks| - 1])
  }

  /** The cut condition with the anchor test on the unbounded polynomial of the window. */
  ghost predicate WideCutAfter(p: Params, s: Bytes) {
    && |s| > p.window && |s| >= p.min
    && (Poly(s[|s| - p.window..]) % Pow2(p.bits) == 0 || |s| >= p.max)
  }

  /** Testing 16 bits of the hash cuts where the whole polynomial would, exactly when the mask has at
      most 16 bits, or a window is one byte, or only one chunk size is possible. */
  lemma SameCutsExactly(p: Params)
    requires p.Valid()
    ensures (forall s :: CutAfter(p, s) <==> WideCutAfter(p, s)) <==>
            p.bits <= 16 || p.window == 1 || p.max == p.window + 1 || p.max == p.min
  {
    NarrowingInvisibleExactly(p.window, p.bits);
    hide IsAnchor, Pow2, Poly;
    if p.bits <= 16 || p.window == 1 {
      forall s ensures CutAfter(p, s) <==> WideCutAfter(p, s) {
        if |s| > p.window {
          assert TestAgrees(Poly(s[|s| - p.window..]), p.bits);
        }
      }
    } else if p.window + 1 < p.max && p.min < p.max {
      var n := if p.min <= p.window then p.window + 1 else p.min;
      var s := Zeros(n - p.window) + WideWindow(p.window);
      assert s[|s| - p.window..] == WideWindow(p.window);
      WideIsM16(p.window);
      WideDisagrees(p.bits);
      assert CutAfter(p, s) != WideCutAfter(p, s);
    }
  }

  /** Resynchronisation: after data that ends at a cut, the chunks are those of the rest alone. */
  lemma Resynchronises(p: Params, prefix: Bytes, suffix: Bytes)
    requires EndsAtCut(p, prefix)
    ensures Chunks(p, prefix + suffix) == Chunks(p, prefix) + Chunks(p, suffix)
  {
    hide Chunks, Complete, Greedy, Concat;
    var a, b := Chunks(p, prefix), Chunks(p, suffix);
    ChunksAreGreedy(p, prefix);
    ChunksAreGreedy(p, suffix);
    ConcatAppend(a, b);
    GreedyAppend(p, a, b);
    GreedyIsChunks(p, a + b);
  }

  lemma GreedyAppend(p: Params, a: seq<Bytes>, b: seq<Bytes>)
    requires Greedy(p, a) && Greedy(p, b) && (a == [] || Complete(p, a[|a| - 1]))
    ensures Greedy(p, a + b)
  {
    hide Complete, Leftover;
    forall i | 0 <= i < |a + b| ensures Complete(p, (a + b)[i]) || (i == |a + b| - 1 && Leftover(p, (a + b)[i])) {
      if i < |a| {
        assert Complete(p, a[i]);
      } else {
        assert (a + b)[i] == b[i - |a|];
      }
    }
  }

  /** Two files that cut at one point of a common suffix have the same chunks from there on. */
  lemma CommonSuffixSameChunks(p: Params, prefix1: Bytes, prefix2: Bytes, suffix: Bytes)
    requires EndsAtCut(p, prefix1) && EndsAtCut(p, prefix2)
    ensures Chunks(p, prefix1) <= Chunks(p, prefix1 + suffix) && Chunks(p, prefix2) <= Chunks(p, prefix2 + suffix)
    ensures Chunks(p, prefix1 + suffix)[|Chunks(p, prefix1)|..] == Chunks(p, prefix2 + suffix)[|Chunks(p, prefix2)|..]
  {
    Resynchronises(p, prefix1, suffix);
    Resynchronises(p, prefix2, suffix);
  }
}
