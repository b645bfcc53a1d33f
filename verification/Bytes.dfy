/** Byte strings, and what the program does to them before storing or looking them up. */
module Bytes {
  type byte = x: int | 0 <= x < 256
  type Bytes = seq<byte>

  /** The size of a chunk fingerprint; a delta slot starts with the fingerprint of its base. */
  const HASH_SIZE := 32
  const U32 := 0x1_0000_0000
  const MARK: byte := 0x80

  function Zeros(n: nat): Bytes {
    seq(n, _ => 0)
  }

  /** What is stored for a chunk: every NUL but in the last two bytes becomes 0x80. */
  function San(data: Bytes): (clean: Bytes)
    ensures |clean| == |data|
  {
    seq(|data|, i requires 0 <= i < |data| => if i + 2 < |data| && data[i] == 0 then MARK else data[i])
  }

  lemma SanAt(data: Bytes, i: nat)
    requires i < |data|
    ensures San(data)[i] == if i + 2 < |data| && data[i] == 0 then 0x80 else data[i]
  {
  }

  /** No NUL except perhaps in the last two bytes. */
  predicate Clean(data: Bytes) {
    forall i :: 0 <= i < |data| - 2 ==> data[i] != 0
  }

  /** The rewriting is lossless exactly on clean data, and a second pass changes nothing. */
  lemma SanFixesExactlyClean(data: Bytes)
    ensures San(data) == data <==> Clean(data)
    ensures Clean(San(data)) && San(San(data)) == San(data)
  {
    if !Clean(data) {
      var i :| 0 <= i < |data| - 2 && data[i] == 0;
      assert San(data)[i] == MARK;
    }
  }

  predicate NulFree(s: Bytes) {
    0 !in s
  }

  /** The key a byte string becomes when it is passed as a NUL-terminated C string. */
  function CKey(s: Bytes): Bytes {
    if s == [] || s[0] == 0 then [] else [s[0]] + CKey(s[1..])
  }

  /** It is what comes before the first NUL. */
  lemma {:induction false} CKeyStopsAtNul(s: Bytes)
    ensures |CKey(s)| <= |s| && CKey(s) == s[..|CKey(s)|] && 0 !in CKey(s)
    ensures |CKey(s)| < |s| ==> s[|CKey(s)|] == 0
  {
    if s != [] && s[0] != 0 {
      CKeyStopsAtNul(s[1..]);
    }
  }

  lemma {:induction false} CKeyFaithfulExactlyWithoutNul(s: Bytes)
    ensures NulFree(s) ==> CKey(s) == s
    ensures !NulFree(s) ==> |CKey(s)| < |s|
  {
    if s != [] {
      CKeyFaithfulExactlyWithoutNul(s[1..]);
      assert s == [s[0]] + s[1..];
    }
  }

  /** The parts, one after the other. */
  function Concat(parts: seq<Bytes>): Bytes {
    if parts == [] then [] else parts[0] + Concat(parts[1..])
  }

  lemma {:induction false} ConcatAppend(a: seq<Bytes>, b: seq<Bytes>)
    ensures Concat(a + b) == Concat(a) + Concat(b)
    decreases |a|
  {
    if a == [] {
      assert a + b == b;
    } else {
      ConcatAppend(a[1..], b);
      assert (a + b)[1..] == a[1..] + b;
    }
  }

  lemma ConcatSnoc(parts: seq<Bytes>, last: Bytes)
    ensures Concat(parts + [last]) == Concat(parts) + last
  {
    ConcatAppend(parts, [last]);
    assert Concat([last]) == last + [];
  }
}
