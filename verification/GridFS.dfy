/** The GridFS streams: a buffered writer that cuts a file into equal chunks, and a buffered reader
    that puts it together again (sections "File Upload" and "File Download" of the MongoDB GridFS
    Specification). */
module GridFS {
  import opened Bytes
  import opened Division
  import opened Options

  /** A chunk document of the file, and its files document. */
  datatype Doc = Doc(n: nat, data: Bytes)

  datatype FileDoc = FileDoc(length: nat, chunkSize: nat)

  const MAX_CHUNKS := 0x7fff_ffff
  const MAX_DOCUMENT_SIZE := 16 * 1024 * 1024
  const BATCH_BYTES := 16 * 1000 * 1000

  datatype Outcome = Done | StreamNotOpen | TooManyChunks | MissingChunk | PastLastChunk | WrongNumber | WrongSize

  function Min(a: nat, b: nat): nat {
    if a <= b then a else b
  }

  /** The bytes of `count` full chunks. */
  function Volume(count: nat, chunkSize: nat): nat {
    count * chunkSize
  }

  lemma VolumeGrows(count: nat, chunkSize: nat)
    ensures Volume(0, chunkSize) == 0
    ensures Volume(count + 1, chunkSize) == Volume(count, chunkSize) + chunkSize
  {
  }

  lemma VolumeMonotone(a: nat, b: nat, chunkSize: nat)
    requires a <= b
    ensures Volume(a, chunkSize) <= Volume(b, chunkSize)
  {
  }

  function Data(docs: seq<Doc>): Bytes {
    if docs == [] then [] else Data(docs[..|docs| - 1]) + docs[|docs| - 1].data
  }

  lemma {:induction false} DataAppend(a: seq<Doc>, b: seq<Doc>)
    ensures Data(a + b) == Data(a) + Data(b)
    decreases |b|
  {
    if b == [] {
      assert a + b == a;
    } else {
      var n := |b| - 1;
      assert (a + b)[..|a + b| - 1] == a + b[..n];
      DataAppend(a, b[..n]);
    }
  }

  lemma DataSnoc(docs: seq<Doc>, last: Doc)
    ensures Data(docs + [last]) == Data(docs) + last.data
  {
    assert (docs + [last])[..|docs|] == docs;
  }

  /** The number of chunks of a file. */
  function ChunkCount(length: nat, chunkSize: nat): nat
    requires chunkSize > 0
  {
    if length % chunkSize == 0 then length / chunkSize else length / chunkSize + 1
  }

  /** The size chunk `k` of `count` must have: full, or for the last what is left. */
  function SizeOf(length: nat, chunkSize: nat, k: nat): nat
    requires chunkSize > 0
  {
    if k + 1 != ChunkCount(length, chunkSize) || length % chunkSize == 0 then chunkSize else length % chunkSize
  }

  /** The documents are numbered from 0, and all have the size they must have. */
  ghost predicate WellFormed(docs: seq<Doc>, file: FileDoc)
    requires file.chunkSize > 0
  {
    && |docs| == ChunkCount(file.length, file.chunkSize)
    && forall k :: 0 <= k < |docs| ==> DocOk(docs, file, k)
  }

  predicate DocOk(docs: seq<Doc>, file: FileDoc, k: nat)
    requires file.chunkSize > 0 && k < |docs|
  {
    docs[k].n == k && |docs[k].data| == SizeOf(file.length, file.chunkSize, k)
  }

  /** Numbered from 0 and full. */
  ghost predicate AllFull(docs: seq<Doc>, chunkSize: nat) {
    forall k :: 0 <= k < |docs| ==> docs[k].n == k && |docs[k].data| == chunkSize
  }

  lemma {:induction false} FullLength(docs: seq<Doc>, chunkSize: nat)
    requires AllFull(docs, chunkSize)
    ensures |Data(docs)| == Volume(|docs|, chunkSize)
    decreases |docs|
  {
    hide Volume;
    VolumeGrows(if docs == [] then 0 else |docs| - 1, chunkSize);
    if docs != [] {
      FullLength(docs[..|docs| - 1], chunkSize);
    }
  }

  lemma DivMod(count: nat, chunkSize: nat, rest: nat)
    requires 0 < rest <= chunkSize
    ensures var length := Volume(count, chunkSize) + rest;
            && ChunkCount(length, chunkSize) == count + 1
            && SizeOf(length, chunkSize, count) == rest
            && forall k: nat :: k < count ==> SizeOf(length, chunkSize, k) == chunkSize
  {
    var length := Volume(count, chunkSize) + rest;
    if rest == chunkSize {
      VolumeGrows(count, chunkSize);
      QuotientRemainder(length, chunkSize, count + 1, 0);
    } else {
      QuotientRemainder(length, chunkSize, count, rest);
    }
  }

  /** Full documents, followed by one that is not empty and not too long, are well formed. */
  lemma LastMakesWellFormed(docs: seq<Doc>, last: Doc, chunkSize: nat)
    requires AllFull(docs, chunkSize) && last.n == |docs| && 0 < |last.data| <= chunkSize
    ensures WellFormed(docs + [last], FileDoc(Volume(|docs|, chunkSize) + |last.data|, chunkSize))
  {
    DivMod(|docs|, chunkSize, |last.data|);
  }

  /** The two collections, as far as one file is concerned. */
  class Bucket {
    var chunks: seq<Doc>
    var file: Option<FileDoc>

    constructor ()
      ensures chunks == [] && file == None
    {
      chunks, file := [], None;
    }
  }

  class Uploader {
    const chunkSize: nat
    const buffer: array<byte>
    const bucket: Bucket
    var bufferOff: nat
    var pending: seq<Doc>
    var chunksWritten: nat
    var closed: bool

    /** All chunks so far, sent or not. */
    ghost function Docs(): seq<Doc>
      reads this, bucket
    {
      bucket.chunks + pending
    }

    ghost function Written(): Bytes
      reads this, bucket, buffer
      requires bufferOff <= buffer.Length
    {
      Data(Docs()) + buffer[..bufferOff]
    }

    ghost predicate Valid()
      reads this, bucket
    {
      && buffer.Length == chunkSize > 0 && bufferOff <= chunkSize
      && chunksWritten == |Docs()| <= MAX_CHUNKS && AllFull(Docs(), chunkSize)
    }

    constructor (bucket: Bucket, chunkSize: nat)
      requires chunkSize > 0 && bucket.chunks == []
      ensures Valid() && !closed && Written() == [] && this.bucket == bucket && this.chunkSize == chunkSize
      ensures fresh(buffer)
    {
      this.chunkSize, this.bucket := chunkSize, bucket;
      buffer := new byte[chunkSize](_ => 0);
      bufferOff, pending, chunksWritten, closed := 0, [], 0, false;
      new;
      assert Docs() == [];
    }

    method FlushChunks()
      modifies `pending, bucket`chunks
      ensures pending == [] && Docs() == old(Docs())
    {
      if pending != [] {
        bucket.chunks := bucket.chunks + pending;
        pending := [];
      }
      assert bucket.chunks + [] == bucket.chunks;
    }

    /** Makes the buffered bytes a chunk, and sends the chunks when there are enough for a batch. */
    method FinishChunk() returns (o: Outcome)
      requires buffer.Length == chunkSize > 0 && bufferOff <= chunkSize && chunksWritten == |Docs()|
      modifies `pending, `chunksWritten, `bufferOff, bucket`chunks
      ensures bufferOff <= chunkSize && chunksWritten == |Docs()|
      ensures o == if old(bufferOff) > 0 && old(chunksWritten) == MAX_CHUNKS then TooManyChunks else Done
      ensures o != Done ==> Docs() == old(Docs()) && bufferOff == old(bufferOff)
      ensures o == Done ==> bufferOff == 0
      ensures o == Done ==>
                Docs() == if old(bufferOff) == 0 then old(Docs())
                  else old(Docs()) + [Doc(old(chunksWritten), old(buffer[..bufferOff]))]
      ensures o == Done && old(bufferOff) > 0 ==>
                pending == if |old(pending)| + 1 >= 16_000_000 / chunkSize then []
                  else old(pending) + [Doc(old(chunksWritten), old(buffer[..bufferOff]))]
    {
      if bufferOff == 0 {
        return Done;
      }
      if chunksWritten == MAX_CHUNKS {
        return TooManyChunks;
      }
      var doc := Doc(chunksWritten, buffer[..bufferOff]);
      chunksWritten := chunksWritten + 1;
      pending := pending + [doc];
      assert Docs() == old(Docs()) + [doc];
      if |pending| >= BATCH_BYTES / chunkSize {
        FlushChunks();
      }
      bufferOff := 0;
      o := Done;
    }

    /** Copies bytes into the buffer. */
    method Fill(bytes: Bytes)
      requires buffer.Length == chunkSize && bufferOff + |bytes| <= chunkSize
      modifies `bufferOff, buffer
      ensures bufferOff == old(bufferOff) + |bytes| && buffer[..bufferOff] == old(buffer[..bufferOff]) + bytes
    {
      forall i | 0 <= i < |bytes| {
        buffer[bufferOff + i] := bytes[i];
      }
      bufferOff := bufferOff + |bytes|;
    }

    lemma LengthWritten()
      requires Valid()
      ensures |Written()| == Volume(chunksWritten, chunkSize) + bufferOff <= Volume(MAX_CHUNKS + 1, chunkSize)
    {
      hide Volume;
      FullLength(Docs(), chunkSize);
      VolumeMonotone(chunksWritten, MAX_CHUNKS, chunkSize);
      VolumeGrows(MAX_CHUNKS, chunkSize);
    }

    /** Finishes the chunk in a full buffer: nothing is lost or added. */
    method FinishFullChunk() returns (o: Outcome)
      requires Valid() && bufferOff == chunkSize
      modifies `pending, `chunksWritten, `bufferOff, bucket`chunks
      ensures Valid() && Written() == old(Written())
      ensures o == if old(chunksWritten) == MAX_CHUNKS then TooManyChunks else Done
      ensures o == Done ==> bufferOff == 0
    {
      ghost var docs, doc := Docs(), Doc(chunksWritten, buffer[..bufferOff]);
      o := FinishChunk();
      if o == Done {
        assert Docs()[..|Docs()| - 1] == docs;
        assert buffer[..bufferOff] == [];
        assert AllFull(docs + [doc], chunkSize);
      }
    }

    /** Writes bytes behind those written so far. A pass over a full buffer only finishes the chunk.
        Fails exactly when the bytes do not fit into the most chunks there may be and one more buffer. */
    method Write(bytes: Bytes) returns (o: Outcome)
      requires Valid()
      modifies `pending, `chunksWritten, `bufferOff, buffer, bucket`chunks
      ensures Valid()
      ensures closed ==> o == StreamNotOpen && Written() == old(Written())
      ensures !closed ==> o == if |old(Written())| + |bytes| <= Volume(MAX_CHUNKS + 1, chunkSize) then Done
              else TooManyChunks
      ensures o == Done ==> Written() == old(Written()) + bytes
      ensures o == TooManyChunks ==> Written() == (old(Written()) + bytes)[..Volume(MAX_CHUNKS + 1, chunkSize)]
    {
      hide Data, AllFull, Volume;
      VolumeGrows(MAX_CHUNKS, chunkSize);
      LengthWritten();
      if closed {
        return StreamNotOpen;
      }
      var done := 0;
      assert old(Written()) + bytes[..0] == old(Written());
      while done < |bytes|
        invariant done <= |bytes| && Valid() && Written() == old(Written()) + bytes[..done]
        decreases |bytes| - done, bufferOff
      {
        LengthWritten();
        var free := chunkSize - bufferOff;
        if free == 0 {
          o := FinishFullChunk();
          if o != Done {
            assert |Written()| == Volume(MAX_CHUNKS + 1, chunkSize) by { LengthWritten(); }
            assert (old(Written()) + bytes)[..|Written()|] == Written();
            return;
          }
        }
        var length := if |bytes| - done <= free then |bytes| - done else free;
        ghost var before := buffer[..bufferOff];
        Fill(bytes[done..done + length]);
        assert old(Written()) + bytes[..done + length] == (old(Written()) + bytes[..done]) + bytes[done..done + length];
        done := done + length;
      }
      assert bytes[..done] == bytes;
      LengthWritten();
      o := Done;
    }

    /** Sends what is left and writes the files document, unless that needs more chunks than there may be. */
    method Close() returns (o: Outcome)
      requires Valid()
      modifies `pending, `chunksWritten, `bufferOff, `closed, bucket
      ensures closed
      ensures old(closed) ==> o == StreamNotOpen && bucket.file == old(bucket.file) && Docs() == old(Docs())
      ensures !old(closed) ==> o == if |old(Written())| <= Volume(MAX_CHUNKS, chunkSize) then Done else TooManyChunks
      ensures o == TooManyChunks ==> bucket.file == old(bucket.file)
      ensures o == Done ==>
                && bucket.file == Some(FileDoc(|old(Written())|, chunkSize))
                  && WellFormed(bucket.chunks, bucket.file.value)
                && Data(bucket.chunks) == old(Written())
    {
      hide Data, WellFormed, Volume;
      if closed {
        return StreamNotOpen;
      }
      LengthWritten();
      closed := true;
      var bytesUploaded := Volume(chunksWritten, chunkSize);
      var leftover := bufferOff;
      ghost var docs, last := Docs(), Doc(chunksWritten, buffer[..bufferOff]);
      VolumeMonotone(|docs|, MAX_CHUNKS, chunkSize);
      if |docs| < MAX_CHUNKS {
        VolumeGrows(|docs|, chunkSize);
        VolumeMonotone(|docs| + 1, MAX_CHUNKS, chunkSize);
      }
      o := FinishChunk();
      if o != Done {
        return;
      }
      hide AllFull;
      FlushChunks();
      assert bucket.chunks + [] == bucket.chunks;
      if leftover > 0 {
        DataSnoc(docs, last);
        LastMakesWellFormed(docs, last, chunkSize);
      } else {
        assert docs == bucket.chunks;
        FullIsWellFormed(docs, chunkSize);
        assert buffer[..0] == [];
      }
      bucket.file := Some(FileDoc(bytesUploaded + leftover, chunkSize));
    }
  }

  /** Full documents alone are well formed too. */
  lemma FullIsWellFormed(docs: seq<Doc>, chunkSize: nat)
    requires AllFull(docs, chunkSize) && chunkSize > 0
    ensures WellFormed(docs, FileDoc(Volume(|docs|, chunkSize), chunkSize))
  {
    QuotientRemainder(Volume(|docs|, chunkSize), chunkSize, |docs|, 0);
  }

  /** What a downloader accepts: a chunk size that fits a document, and not too many chunks. */
  predicate Acceptable(file: FileDoc) {
    0 < file.chunkSize <= MAX_DOCUMENT_SIZE && ChunkCount(file.length, file.chunkSize) <= MAX_CHUNKS
  }

  class Downloader {
    const file: FileDoc
    const docs: seq<Doc>
    const fileChunkCount: nat
    var current: nat
    var chunksSeen: nat
    var chunk: Bytes
    var offset: nat
    var closed: bool

    ghost predicate Valid()
      reads this
    {
      && Acceptable(file) && fileChunkCount == ChunkCount(file.length, file.chunkSize)
      && chunksSeen <= fileChunkCount && chunksSeen <= |docs| && offset <= |chunk|
      && current == (if chunksSeen == 0 then 0 else chunksSeen - 1)
      && chunk == (if chunksSeen == 0 then [] else docs[chunksSeen - 1].data)
      && forall k :: 0 <= k < chunksSeen ==> DocOk(docs, file, k)
    }

    /** The bytes still to be read: the rest of the chunk, and the documents not yet fetched. */
    ghost function Rest(): Bytes
      reads this
      requires Valid()
    {
      chunk[offset..] + Data(docs[chunksSeen..])
    }

    constructor (docs: seq<Doc>, file: FileDoc)
      requires Acceptable(file)
      ensures Valid() && !closed && this.docs == docs && this.file == file && Rest() == Data(docs)
      ensures chunksSeen == 0
    {
      this.docs, this.file := docs, file;
      fileChunkCount := ChunkCount(file.length, file.chunkSize);
      current, chunksSeen, chunk, offset, closed := 0, 0, [], 0, false;
      new;
      assert docs[0..] == docs;
    }

    /** Checks the number and the size of the document about to be read. */
    method CheckChunk(doc: Doc) returns (o: Outcome)
      requires Valid() && chunksSeen < fileChunkCount && chunksSeen < |docs| && doc == docs[chunksSeen]
      ensures o == Done <==> DocOk(docs, file, chunksSeen) && chunksSeen < MAX_CHUNKS
    {
      if doc.n != chunksSeen {
        return WrongNumber;
      }
      if chunksSeen == MAX_CHUNKS {
        return TooManyChunks;
      }
      if chunksSeen != fileChunkCount - 1 {
        if |doc.data| != file.chunkSize {
          return WrongSize;
        }
      } else {
        var expectedSize := file.length % file.chunkSize;
        if expectedSize == 0 {
          expectedSize := file.chunkSize;
        }
        if |doc.data| != expectedSize {
          return WrongSize;
        }
      }
      o := Done;
    }

    /** Moves to the next document and checks it. The end of the documents is noticed only if there
        are none; moving on from the last one is not checked. */
    method FetchChunk() returns (o: Outcome)
      requires Valid() && chunksSeen < fileChunkCount && offset == |chunk|
      modifies `current, `chunksSeen, `chunk, `offset
      ensures o == Done <==>
              old(chunksSeen) < |docs| && DocOk(docs, file, old(chunksSeen)) && old(chunksSeen) < MAX_CHUNKS
      ensures o == Done ==>
              Valid() && chunksSeen == old(chunksSeen) + 1 && chunk == docs[old(chunksSeen)].data && offset == 0
      ensures o == Done ==> chunk != [] && Rest() == old(Rest())
      ensures old(chunksSeen) == |docs| ==> o == if docs == [] then MissingChunk else PastLastChunk
    {
      hide ChunkCount, SizeOf, DocOk, Data, Acceptable;
      if current == |docs| {
        return MissingChunk;
      }
      if chunksSeen > 0 && current + 1 == |docs| {
        current := current + 1;
        return PastLastChunk;
      }
      var doc := docs[if chunksSeen > 0 then current + 1 else current];
      o := CheckChunk(doc);
      if chunksSeen > 0 {
        current := current + 1;
      }
      if o != Done {
        return;
      }
      CheckedNotEmpty(docs, file, chunksSeen);
      NextRest(docs, chunksSeen);
      chunksSeen := chunksSeen + 1;
      chunk := doc.data;
      offset := 0;
    }

    /** One pass of the read loop: fetches if the chunk is used up, then takes what the chunk has. */
    method ReadSome(requested: nat) returns (o: Outcome, bytes: Bytes)
      requires Valid() && requested > 0 && (chunksSeen != fileChunkCount || offset < |chunk|)
      modifies `current, `chunksSeen, `chunk, `offset
      ensures WellFormed(docs, file) ==> o == Done
      ensures o == Done ==> Valid() && 0 < |bytes| <= requested && old(Rest()) == bytes + Rest()
      ensures o != Done ==> bytes == []
    {
      hide ChunkCount, SizeOf, Data;
      bytes := [];
      o := Done;
      if offset == |chunk| {
        assert WellFormed(docs, file) ==> DocOk(docs, file, chunksSeen);
        hide DocOk;
        o := FetchChunk();
        if o != Done {
          return;
        }
      }
      var length := Min(requested, |chunk| - offset);
      assert chunk[offset..] == chunk[offset..offset + length] + chunk[offset + length..];
      bytes := chunk[offset..offset + length];
      offset := offset + length;
    }

    /** Reads up to `requested` bytes: as many as there are, on the documents of a well-formed file. */
    method Read(requested: nat) returns (o: Outcome, bytes: Bytes)
      requires Valid()
      modifies `current, `chunksSeen, `chunk, `offset
      ensures closed ==> o == StreamNotOpen && bytes == []
      ensures o == Done ==> Valid() && old(Rest()) == bytes + Rest() && |bytes| <= requested
      ensures !closed && WellFormed(docs, file) ==> o == Done && |bytes| == Min(requested, |old(Rest())|)
    {
      hide ChunkCount, SizeOf, Data, DocOk, Acceptable, WellFormed, Rest;
      bytes := [];
      if closed {
        return StreamNotOpen, bytes;
      }
      o := Done;
      assert old(Rest()) == [] + Rest();
      NothingLeft();
      if file.length == 0 {
        return;
      }
      while |bytes| < requested && (chunksSeen != fileChunkCount || offset < |chunk|)
        invariant Valid() && o == Done && |bytes| <= requested && old(Rest()) == bytes + Rest()
        decreases requested - |bytes|
      {
        var more;
        o, more := ReadSome(requested - |bytes|);
        if o != Done {
          return;
        }
        assert bytes + (more + Rest()) == (bytes + more) + Rest();
        bytes := bytes + more;
      }
      NothingLeft();
    }

    lemma NothingLeft()
      requires Valid()
      ensures WellFormed(docs, file) && file.length == 0 ==> Rest() == []
      ensures WellFormed(docs, file) && chunksSeen == fileChunkCount && offset == |chunk| ==> Rest() == []
    {
      NoChunks(file.chunkSize);
      EmptyData();
      hide ChunkCount, SizeOf, Data, DocOk;
    }
  }

  lemma CheckedNotEmpty(docs: seq<Doc>, file: FileDoc, k: nat)
    requires Acceptable(file) && k < |docs| && DocOk(docs, file, k)
    ensures docs[k].data != []
  {
  }

  lemma NextRest(docs: seq<Doc>, k: nat)
    requires k < |docs|
    ensures Data(docs[k..]) == docs[k].data + Data(docs[k + 1..])
  {
    hide Data;
    DataFirst(docs[k..]);
    assert docs[k..][1..] == docs[k + 1..];
  }

  lemma NoChunks(chunkSize: nat)
    requires chunkSize > 0
    ensures ChunkCount(0, chunkSize) == 0
  {
  }

  lemma EmptyData()
    ensures Data([]) == []
  {
  }

  lemma {:induction false} DataFirst(docs: seq<Doc>)
    requires docs != []
    ensures Data(docs) == docs[0].data + Data(docs[1..])
  {
    DataAppend(docs[..1], docs[1..]);
    assert docs == docs[..1] + docs[1..];
    assert docs[..1][..0] == [];
  }

  function Sum(sizes: seq<nat>): nat {
    if sizes == [] then 0 else Sum(sizes[..|sizes| - 1]) + sizes[|sizes| - 1]
  }

  /** Writes a file in the given pieces. */
  method WriteAll(bucket: Bucket, writes: seq<Bytes>, chunkSize: nat)
    requires bucket.chunks == [] && chunkSize > 0 && |Concat(writes)| <= Volume(MAX_CHUNKS, chunkSize)
    modifies bucket
    ensures bucket.file == Some(FileDoc(|Concat(writes)|, chunkSize))
    ensures WellFormed(bucket.chunks, bucket.file.value) && Data(bucket.chunks) == Concat(writes)
  {
    hide WellFormed, Data, AllFull, Volume, Concat;
    VolumeGrows(MAX_CHUNKS, chunkSize);
    var up := new Uploader(bucket, chunkSize);
    NothingYet([]);
    var i := 0;
    while i < |writes|
      invariant i <= |writes| && up.Valid() && !up.closed && fresh(up) && fresh(up.buffer)
      invariant up.Written() == Concat(writes[..i])
    {
      WriteMore(writes, i);
      var _ := up.Write(writes[i]);
      i := i + 1;
    }
    assert writes[..i] == writes;
    var _ := up.Close();
  }

  lemma NothingYet(requests: seq<nat>)
    ensures Concat([]) == [] && Sum(requests[..0]) == 0
  {
  }

  lemma ReadMore(requests: seq<nat>, j: nat, done: seq<Bytes>, bytes: Bytes, rest: Bytes)
    requires j < |requests|
    ensures Concat(done + [bytes]) + rest == Concat(done) + (bytes + rest)
    ensures |Concat(done + [bytes])| == |Concat(done)| + |bytes|
    ensures Sum(requests[..j + 1]) == Sum(requests[..j]) + requests[j]
  {
    ConcatSnoc(done, bytes);
    assert requests[..j + 1][..j] == requests[..j];
  }

  /** Reads a file in pieces of the requested sizes. */
  method ReadAll(docs: seq<Doc>, file: FileDoc, requests: seq<nat>) returns (parts: seq<Bytes>)
    requires Acceptable(file) && WellFormed(docs, file)
    ensures |parts| == |requests|
    ensures Concat(parts) == Data(docs)[..Min(Sum(requests), |Data(docs)|)]
  {
    hide WellFormed, Data, Acceptable, Concat, Sum;
    var down := new Downloader(docs, file);
    parts := [];
    var j := 0;
    NothingYet(requests);
    while j < |requests|
      invariant j <= |requests| && |parts| == j && down.Valid() && !down.closed && down.docs == docs
                && down.file == file
      invariant Concat(parts) + down.Rest() == Data(docs)
      invariant |Concat(parts)| == Min(Sum(requests[..j]), |Data(docs)|)
    {
      ghost var done := parts;
      var _, bytes := down.Read(requests[j]);
      parts := parts + [bytes];
      ReadMore(requests, j, done, bytes, down.Rest());
      j := j + 1;
    }
    assert requests[..j] == requests;
  }

  /** Round trip: whatever pieces a file is written in, and whatever pieces it is read in, the bytes
      read are the bytes written, in order, as far as they were asked for. */
  method RoundTrip(writes: seq<Bytes>, requests: seq<nat>, chunkSize: nat) returns (parts: seq<Bytes>)
    requires 0 < chunkSize <= MAX_DOCUMENT_SIZE && |Concat(writes)| <= Volume(MAX_CHUNKS, chunkSize)
    ensures |parts| == |requests|
    ensures Concat(parts) == Concat(writes)[..Min(Sum(requests), |Concat(writes)|)]
  {
    hide WellFormed, Data, Volume;
    var bucket := new Bucket();
    WriteAll(bucket, writes, chunkSize);
    CountBounded(|Concat(writes)|, chunkSize);
    parts := ReadAll(bucket.chunks, bucket.file.value, requests);
  }

  lemma WriteMore(writes: seq<Bytes>, i: nat)
    requires i < |writes|
    ensures Concat(writes[..i + 1]) == Concat(writes[..i]) + writes[i]
    ensures |Concat(writes[..i + 1])| <= |Concat(writes)|
  {
    hide Concat;
    assert writes[..i + 1] == writes[..i] + [writes[i]];
    ConcatSnoc(writes[..i], writes[i]);
    assert writes == writes[..i + 1] + writes[i + 1..];
    ConcatAppend(writes[..i + 1], writes[i + 1..]);
  }

  lemma CountBounded(length: nat, chunkSize: nat)
    requires chunkSize > 0 && length <= Volume(MAX_CHUNKS, chunkSize)
    ensures ChunkCount(length, chunkSize) <= MAX_CHUNKS
  {
    var q, r := length / chunkSize, length % chunkSize;
    assert length == chunkSize * q + r;
    assert length == Volume(q, chunkSize) + r;
    hide Volume;
    VolumeGrows(MAX_CHUNKS, chunkSize);
    if q > MAX_CHUNKS {
      VolumeMonotone(MAX_CHUNKS + 1, q, chunkSize);
    }
  }
}
