/** From the bytes of a file to the bytes restored: chunker, store and recipe together. */
module WholeFile {
  import opened Bytes
  import opened Cuts
  import opened Store
  import opened Deltas
  import opened RefCounts
  import opened Restore
  import opened Vault
  import opened Runs
  import opened Chunker

  /** The bytes of restored chunks, one after the other. */
  function JoinedBytes(chunks: seq<RestoredChunk>): Bytes {
    if chunks == [] then [] else chunks[0].data + JoinedBytes(chunks[1..])
  }

  /** The bytes of each piece rewritten as on saving. */
  function SanEach(pieces: seq<Bytes>): seq<Bytes> {
    seq(|pieces|, i requires 0 <= i < |pieces| => San(pieces[i]))
  }

  /** `b` is `a`, except that a NUL may have become 0x80. */
  ghost predicate SameButNuls(a: Bytes, b: Bytes) {
    |b| == |a| && forall i :: 0 <= i < |a| ==> b[i] == a[i] || (a[i] == 0 && b[i] == MARK)
  }

  lemma SanEachTail(pieces: seq<Bytes>)
    requires pieces != []
    ensures SanEach(pieces)[1..] == SanEach(pieces[1..])
  {
    hide San;
    forall i | 0 <= i < |pieces| - 1 ensures SanEach(pieces)[1..][i] == SanEach(pieces[1..])[i] {
      assert pieces[1..][i] == pieces[i + 1];
    }
  }

  /** Rewriting piece by piece changes nothing but NULs, and nothing at all exactly when every piece is clean. */
  lemma {:induction false} SanEachContents(pieces: seq<Bytes>)
    ensures SameButNuls(Concat(pieces), Concat(SanEach(pieces)))
    ensures Concat(SanEach(pieces)) == Concat(pieces) <==> forall i :: 0 <= i < |pieces| ==> Clean(pieces[i])
    decreases |pieces|
  {
    hide San, Clean;
    if pieces != [] {
      var first, rest := pieces[0], pieces[1..];
      SanEachContents(rest);
      SanOfPiece(first);
      SanEachTail(pieces);
      var a, b := first + Concat(rest), San(first) + Concat(SanEach(rest));
      assert a[..|first|] == first && b[..|first|] == San(first);
      assert a[|first|..] == Concat(rest) && b[|first|..] == Concat(SanEach(rest));
      assert (forall i :: 0 <= i < |pieces| ==> Clean(pieces[i]))
         <==> (Clean(first) && forall i :: 0 <= i < |rest| ==> Clean(rest[i])) by {
        assert forall i :: 0 <= i < |rest| ==> rest[i] == pieces[i + 1];
        assert forall i :: 0 < i < |pieces| ==> pieces[i] == rest[i - 1];
      }
    }
  }

  lemma SanOfPiece(piece: Bytes)
    ensures SameButNuls(piece, San(piece)) && (San(piece) == piece <==> Clean(piece))
  {
    SanFixesExactlyClean(piece);
  }

  lemma {:induction false} ContentsAre(out: seq<RestoredChunk>, pieces: seq<Bytes>)
    requires |out| == |pieces| && forall i :: 0 <= i < |out| ==> out[i].data == San(pieces[i])
    ensures JoinedBytes(out) == Concat(SanEach(pieces))
    decreases |out|
  {
    hide San;
    if out != [] {
      ContentsAre(out[1..], pieces[1..]);
      SanEachTail(pieces);
    }
  }

  /** Restored chunks that are those of a recipe of the file join to the file but for its NULs. */
  lemma ComesBack(
    out: seq<RestoredChunk>, recipe: Recipe, p: Params, file: Bytes, fp: Fingerprint, content: ContentMap
  )
    requires recipe == RecipeOf(Fingerprinted(fp, Chunks(p, file))) && Known(Chunks(p, file), fp, content)
    requires |out| == |recipe| && forall i :: 0 <= i < |out| ==> out[i] == Expected(recipe[i], content)
    ensures SameButNuls(file, JoinedBytes(out))
    ensures JoinedBytes(out) == file <==> forall i :: 0 <= i < |Chunks(p, file)| ==> Clean(Chunks(p, file)[i])
  {
    hide San, Clean, Chunks, JoinedBytes;
    ChunksAreGreedy(p, file);
    ContentsAre(out, Chunks(p, file));
    SanEachContents(Chunks(p, file));
  }

  /** A file is cut, backed up under a fresh path, and restored in full after any run that neither
      backs up nor drops that path: the bytes restored are those of the file, except that NULs may
      have become 0x80; they are all those of the file exactly when no chunk of it has a NUL outside
      its last two bytes. */
  lemma FileComesBack(v: Vault, name: Bytes, file: Bytes, p: Params, fp: Fingerprint, ops: seq<Op>, w: Vault,
                      apply: Apply, content: ContentMap, exact: bool, rank: Bytes -> nat)
    requires Good(v, apply, content, exact) && name !in v.recipes
    requires RunAllowed(v, [BackUp(name, Fingerprinted(fp, Chunks(p, file)))] + ops, apply, content)
    requires forall i :: 0 <= i < |ops| ==> !Touches(ops[i], name)
    requires w == Run(v, [BackUp(name, Fingerprinted(fp, Chunks(p, file)))] + ops, apply, content)
    requires Sound(w.st) && Ranked(ContentsOf(w.st), rank)
    ensures name in w.recipes
    ensures var out := RestoreRange(ContentsOf(w.st), apply, rank, w.recipes[name], 0, |w.recipes[name]|);
            && |out| == |Chunks(p, file)|
            && SameButNuls(file, JoinedBytes(out))
            && (JoinedBytes(out) == file <==> forall i :: 0 <= i < |Chunks(p, file)| ==> Clean(Chunks(p, file)[i]))
  {
    hide Good, RunAllowed, Run, Touches, Sound, Ranked, ContentsOf, RestoreRange, San, Clean, Chunks, JoinedBytes;
    var pieces := Chunks(p, file);
    EndToEnd(v, name, Fingerprinted(fp, pieces), ops, w, apply, content, exact, rank, 0, |pieces|);
    var out := RestoreRange(ContentsOf(w.st), apply, rank, w.recipes[name], 0, |pieces|);
    ChunksAreGreedy(p, file);
    ContentsAre(out, pieces);
    SanEachContents(pieces);
  }
}
