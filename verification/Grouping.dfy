/** Content-defined grouping: chunks into segments, and segments into containers, by one rule. */
module Grouping {
  import opened Bytes
  import RollingHash

  /** What is grouped: a fingerprint and the bytes counted for it. */
  datatype Item = Item(hash: Bytes, size: nat)

  /** A closed group: its number, its first and last member, and the digest of its members. */
  datatype Group = Group(id: nat, first: nat, last: nat, hash: Bytes)

  /** The size limits of a level and the divisor of its content test. */
  datatype Level = Level(min: nat, max: nat, divisor: nat)

  /** The digest of the fingerprints of a group, joined as C strings. */
  type Digest = Bytes -> Bytes

  /** The groups closed so far, where the open one starts, its counted bytes and its members'
      fingerprints. */
  datatype Grouping = Grouping(groups: seq<Group>, start: nat, size: nat, members: Bytes)

  const EMPTY := Grouping([], 0, 0, [])

  const ZERO_DIGIT: byte := 0x30

  /** The first four bytes as a little-endian number. */
  function LowWord(hash: Bytes): nat
    requires |hash| >= 4
  {
    (hash[0] as nat) + 0x100 * (hash[1] as nat) + 0x1_0000 * (hash[2] as nat) + 0x100_0000 * (hash[3] as nat)
  }

  /** The content test: all low bits of the first word are set, or the last nine bytes are the digit 0. */
  predicate Marked(hash: Bytes, divisor: nat) {
    |hash| == HASH_SIZE && divisor > 0
    && (RollingHash.BitAnd(LowWord(hash), divisor - 1) == divisor - 1
        || hash[HASH_SIZE - 9..] == seq(9, _ => ZERO_DIGIT))
  }

  /** The member with this fingerprint closes a group in which `size` bytes came before it. */
  predicate EndOfSegment(level: Level, hash: Bytes, size: nat) {
    if size < level.min then false
    else if size > level.max then true
    else Marked(hash, level.divisor)
  }

  /** The first four bytes, lowest first, are one less than a multiple of the divisor, or the last nine bytes
      are digits 0. */
  predicate HasPattern(hash: Bytes, divisor: nat)
    requires |hash| == 32 && divisor > 0
  {
    || ((hash[0] as nat) + 256 * (hash[1] as nat) + 65536 * (hash[2] as nat) + 16777216 * (hash[3] as nat)) % divisor
       == divisor - 1
    || forall i :: 23 <= i < 32 ==> hash[i] == 0x30
  }

  /** When a member closes its group: never below the minimum, always above the maximum, and between the two,
      for a divisor that is a power of two, exactly if its fingerprint has the pattern. */
  lemma EndOfSegmentExactly(level: Level, hash: Bytes, size: nat, k: nat)
    requires |hash| == 32 && level.divisor == RollingHash.Pow2(k)
    ensures size < level.min ==> !EndOfSegment(level, hash, size)
    ensures level.min <= size && level.max < size ==> EndOfSegment(level, hash, size)
    ensures level.min <= size <= level.max ==> (EndOfSegment(level, hash, size) <==> HasPattern(hash, level.divisor))
  {
    hide RollingHash.BitAnd, RollingHash.Pow2;
    RollingHash.MaskIsMod(LowWord(hash), k);
    var nine: Bytes := seq(9, _ => ZERO_DIGIT);
    if hash[HASH_SIZE - 9..] == nine {
      forall i | 23 <= i < 32 ensures hash[i] == 0x30 {
        assert hash[i] == nine[i - 23];
      }
    }
  }

  /** For the divisors of segments and of containers the first byte decides. */
  lemma FirstByteDecides(hash: Bytes)
    requires |hash| == 32
    ensures HasPattern(hash, 64) <==> hash[0] % 64 == 63 || forall i :: 23 <= i < 32 ==> hash[i] == 0x30
    ensures HasPattern(hash, 256) <==> hash[0] == 255 || forall i :: 23 <= i < 32 ==> hash[i] == 0x30
  {
  }

  /** Adds item number `n`. */
  function Add(level: Level, digest: Digest, g: Grouping, n: nat, item: Item): Grouping {
    if EndOfSegment(level, item.hash, g.size) then
      Grouping(g.groups + [Group(|g.groups|, g.start, n, digest(g.members + CKey(item.hash)))], n + 1, 0, [])
    else
      g.(size := g.size + item.size, members := g.members + CKey(item.hash))
  }

  function Size(items: seq<Item>): nat {
    if items == [] then 0 else Size(items[..|items| - 1]) + items[|items| - 1].size
  }

  /** The fingerprints joined: each is appended as a C string, up to its first NUL. */
  function Hashes(items: seq<Item>): Bytes {
    if items == [] then [] else Hashes(items[..|items| - 1]) + CKey(items[|items| - 1].hash)
  }

  /** One more item: its bytes are added, and its fingerprint is joined on, as it is if it has no NUL. */
  lemma HashesJoined(items: seq<Item>, item: Item)
    ensures Hashes([]) == [] && Hashes(items + [item]) == Hashes(items) + CKey(item.hash)
    ensures 0 !in item.hash ==> Hashes(items + [item]) == Hashes(items) + item.hash
    ensures Size([]) == 0 && Size(items + [item]) == Size(items) + item.size
  {
    assert (items + [item])[..|items|] == items;
    CKeyFaithfulExactlyWithoutNul(item.hash);
  }

  /** Among the items from `first` on, number `k` closes the group. */
  predicate ClosesAt(level: Level, items: seq<Item>, first: nat, k: nat)
    requires first <= k < |items|
  {
    EndOfSegment(level, items[k].hash, Size(items[first..k]))
  }

  /** No item of `[first, end)` closes a group that starts at `first`. */
  ghost predicate StaysOpen(level: Level, items: seq<Item>, first: nat, end: nat)
    requires first <= end <= |items|
  {
    forall k :: first <= k < end ==> !ClosesAt(level, items, first, k)
  }

  /** Where group `i` has to start: behind the group before it. */
  function StartOf(groups: seq<Group>, i: nat): nat
    requires i <= |groups|
  {
    if i == 0 then 0 else groups[i - 1].last + 1
  }

  /** Group `i` starts where it has to, ends at the first item that closes it, and digests its members. */
  ghost predicate GroupOk(level: Level, digest: Digest, items: seq<Item>, groups: seq<Group>, i: nat)
    requires i < |groups|
  {
    var g := groups[i];
    && g.id == i && g.first == StartOf(groups, i) && g.first <= g.last < |items|
    && ClosesAt(level, items, g.first, g.last) && StaysOpen(level, items, g.first, g.last)
    && g.hash == digest(Hashes(items[g.first..g.last + 1]))
  }

  /** `g` is the grouping of `items`: the closed groups tile the items before its start, and the
      items from there on form one open group. */
  ghost predicate Describes(level: Level, digest: Digest, items: seq<Item>, g: Grouping) {
    && (forall i :: 0 <= i < |g.groups| ==> GroupOk(level, digest, items, g.groups, i))
    && g.start == StartOf(g.groups, |g.groups|) <= |items|
    && StaysOpen(level, items, g.start, |items|)
    && g.size == Size(items[g.start..]) && g.members == Hashes(items[g.start..])
  }

  lemma EmptyDescribes(level: Level, digest: Digest)
    ensures Describes(level, digest, [], EMPTY)
  {
  }

  /** A closed group stays right when items and groups are added. */
  lemma GroupStays(level: Level, digest: Digest, items: seq<Item>, more: seq<Item>, groups: seq<Group>,
          moreGroups: seq<Group>, i: nat)
    requires i < |groups| && GroupOk(level, digest, items, groups, i)
    ensures GroupOk(level, digest, items + more, groups + moreGroups, i)
  {
    hide EndOfSegment, Size;
    var g := groups[i];
    var items' := items + more;
    assert (groups + moreGroups)[i] == g;
    assert i > 0 ==> (groups + moreGroups)[i - 1] == groups[i - 1];
    assert items'[g.first..g.last + 1] == items[g.first..g.last + 1];
    forall k | g.first <= k <= g.last
      ensures ClosesAt(level, items', g.first, k) == ClosesAt(level, items, g.first, k) {
      assert items'[g.first..k] == items[g.first..k];
    }
  }

  lemma NoHashes()
    ensures Hashes([]) == []
  {
  }

  lemma HashesSnoc(items: seq<Item>, item: Item)
    ensures Hashes(items + [item]) == Hashes(items) + CKey(item.hash)
  {
    assert (items + [item])[..|items|] == items;
  }

  /** Adding an item keeps the description. */
  lemma AddDescribes(level: Level, digest: Digest, items: seq<Item>, g: Grouping, item: Item)
    requires Describes(level, digest, items, g)
    ensures Describes(level, digest, items + [item], Add(level, digest, g, |items|, item))
  {
    hide EndOfSegment, GroupOk, CKey, Hashes;
    var n, items', g' := |items|, items + [item], Add(level, digest, g, |items|, item);
    assert items'[g.start..n] == items[g.start..];
    assert items'[g.start..] == items[g.start..] + [item];
    forall k | g.start <= k < n ensures !ClosesAt(level, items', g.start, k) {
      assert items'[g.start..k] == items[g.start..k];
      assert !ClosesAt(level, items, g.start, k);
    }
    forall i | 0 <= i < |g.groups| ensures GroupOk(level, digest, items', g'.groups, i) {
      assert g.groups + g'.groups[|g.groups|..] == g'.groups;
      GroupStays(level, digest, items, [item], g.groups, g'.groups[|g.groups|..], i);
    }
    if EndOfSegment(level, item.hash, g.size) {
      NewGroupOk(level, digest, items, g, item);
      NoHashes();
      assert items'[n + 1..] == [];
    } else {
      assert items'[g.start..][..n - g.start] == items[g.start..];
      HashesSnoc(items[g.start..], item);
      assert Hashes(items'[g.start..]) == g.members + CKey(item.hash);
    }
  }

  lemma NewGroupOk(level: Level, digest: Digest, items: seq<Item>, g: Grouping, item: Item)
    requires Describes(level, digest, items, g) && EndOfSegment(level, item.hash, g.size)
    ensures GroupOk(level, digest, items + [item], Add(level, digest, g, |items|, item).groups, |g.groups|)
  {
    hide EndOfSegment, Size;
    var n, items' := |items|, items + [item];
    assert items'[g.start..n] == items[g.start..];
    assert items'[g.start..n + 1] == items[g.start..] + [item];
    HashesSnoc(items[g.start..], item);
    assert Hashes(items'[g.start..n + 1]) == g.members + CKey(item.hash);
    forall k | g.start <= k < n ensures !ClosesAt(level, items', g.start, k) {
      assert items'[g.start..k] == items[g.start..k];
      assert !ClosesAt(level, items, g.start, k);
    }
  }

  /** A closed group holds, counting its last member, at least the minimum and at most the maximum
      plus two items. */
  lemma ClosedGroupBytes(level: Level, digest: Digest, items: seq<Item>, groups: seq<Group>, i: nat, biggest: nat)
    requires i < |groups| && GroupOk(level, digest, items, groups, i)
    requires level.min <= level.max && forall k :: 0 <= k < |items| ==> items[k].size <= biggest
    ensures level.min <= Size(items[groups[i].first..groups[i].last + 1]) <= level.max + 2 * biggest
  {
    var a, b := groups[i].first, groups[i].last;
    assert items[a..b + 1][..b - a] == items[a..b];
    assert ClosesAt(level, items, a, b);
    if a < b {
      assert !ClosesAt(level, items, a, b - 1);
      assert items[a..b][..b - a - 1] == items[a..b - 1];
    }
  }

  /** A closed group ends at the first member that has the pattern behind at least the minimum of bytes, unless
      more than the maximum come before. */
  lemma ClosedByPattern(level: Level, digest: Digest, items: seq<Item>, groups: seq<Group>, i: nat, k: nat)
    requires i < |groups| && GroupOk(level, digest, items, groups, i) && level.divisor == RollingHash.Pow2(k)
    requires forall j :: 0 <= j < |items| ==> |items[j].hash| == 32
    ensures var a, b := groups[i].first, groups[i].last;
            && level.min <= Size(items[a..b])
            && (Size(items[a..b]) <= level.max ==> HasPattern(items[b].hash, level.divisor))
            && forall j :: a <= j < b && level.min <= Size(items[a..j]) ==>
                 Size(items[a..j]) <= level.max && !HasPattern(items[j].hash, level.divisor)
  {
    hide EndOfSegment, HasPattern, Size, Hashes;
    var a, b := groups[i].first, groups[i].last;
    forall j | a <= j <= b
      ensures EndOfSegment(level, items[j].hash, Size(items[a..j])) <==> j == b
    {
      assert ClosesAt(level, items, a, j) <==> j == b;
      EndOfSegmentExactly(level, items[j].hash, Size(items[a..j]), k);
    }
    forall j | a <= j <= b {
      EndOfSegmentExactly(level, items[j].hash, Size(items[a..j]), k);
    }
  }

  /** The closed groups tile the items before the open group: each lies in exactly one. */
  lemma {:induction false} ClosedGroupsTile(level: Level, digest: Digest, items: seq<Item>, groups: seq<Group>, k: nat)
    requires forall i :: 0 <= i < |groups| ==> GroupOk(level, digest, items, groups, i)
    requires k < StartOf(groups, |groups|)
    ensures exists i :: 0 <= i < |groups| && groups[i].first <= k <= groups[i].last
    ensures forall i, j :: 0 <= i < j < |groups| ==> groups[i].last < groups[j].first
    decreases |groups|
  {
    hide ClosesAt, StaysOpen, Hashes;
    var n := |groups| - 1;
    var init := groups[..n];
    assert GroupOk(level, digest, items, groups, n);
    assert init + [groups[n]] == groups;
    forall i | 0 <= i < |groups|
      ensures groups[i].first <= groups[i].last && (i > 0 ==> groups[i - 1].last < groups[i].first) {
      assert GroupOk(level, digest, items, groups, i);
    }
    forall i | 0 <= i < n ensures GroupOk(level, digest, items, init, i) {
      assert GroupOk(level, digest, items, groups, i);
    }
    GroupsInOrder(groups);
    if k < groups[n].first {
      ClosedGroupsTile(level, digest, items, init, k);
      var i :| 0 <= i < |init| && init[i].first <= k <= init[i].last;
      assert groups[i] == init[i];
    }
  }

  lemma {:induction false} GroupsInOrder(groups: seq<Group>)
    requires forall i :: 0 <= i < |groups| ==>
             groups[i].first <= groups[i].last && (i > 0 ==> groups[i - 1].last < groups[i].first)
    ensures forall i, j :: 0 <= i < j < |groups| ==> groups[i].last < groups[j].first
    decreases |groups|
  {
    if |groups| > 1 {
      var init := groups[..|groups| - 1];
      GroupsInOrder(init);
      forall i, j | 0 <= i < j < |groups| ensures groups[i].last < groups[j].first {
        if j < |init| {
          assert init[i].last < init[j].first;
        } else if i < j - 1 {
          assert init[i].last < init[j - 1].first <= groups[j - 1].last < groups[j].first;
        }
      }
    }
  }

  /** The rule determines the grouping: two descriptions of the same items are the same. */
  lemma {:induction false} DescriptionUnique(level: Level, digest: Digest, items: seq<Item>, g: Grouping, h: Grouping)
    requires Describes(level, digest, items, g) && Describes(level, digest, items, h)
    ensures g == h
  {
    hide EndOfSegment;
    SameGroups(level, digest, items, g, h, |g.groups|);
    SameGroups(level, digest, items, h, g, |h.groups|);
  }

  /** An item that closes what starts behind the first `m` groups belongs to a closed group. */
  lemma ClosedNeedsGroup(level: Level, digest: Digest, items: seq<Item>, h: Grouping, m: nat, last: nat)
    requires Describes(level, digest, items, h) && m <= |h.groups| && StartOf(h.groups, m) <= last < |items|
    requires ClosesAt(level, items, StartOf(h.groups, m), last)
    ensures m < |h.groups|
  {
  }

  lemma SameLast(level: Level, items: seq<Item>, first: nat, a: nat, b: nat)
    requires first <= a < |items| && first <= b < |items|
    requires ClosesAt(level, items, first, a) && StaysOpen(level, items, first, a)
    requires ClosesAt(level, items, first, b) && StaysOpen(level, items, first, b)
    ensures a == b
  {
    hide EndOfSegment, Size;
  }

  /** The first groups of `g` are also groups of `h`. */
  lemma {:induction false} SameGroups(level: Level, digest: Digest, items: seq<Item>, g: Grouping, h: Grouping, n: nat)
    requires Describes(level, digest, items, g) && Describes(level, digest, items, h) && n <= |g.groups|
    ensures n <= |h.groups| && g.groups[..n] == h.groups[..n]
    decreases n
  {
    hide EndOfSegment, Size, Hashes;
    if n > 0 {
      SameGroups(level, digest, items, g, h, n - 1);
      assert GroupOk(level, digest, items, g.groups, n - 1);
      assert n > 1 ==> g.groups[n - 2] == g.groups[..n - 1][n - 2] == h.groups[..n - 1][n - 2] == h.groups[n - 2];
      var a := g.groups[n - 1];
      ClosedNeedsGroup(level, digest, items, h, n - 1, a.last);
      assert GroupOk(level, digest, items, h.groups, n - 1);
      var b := h.groups[n - 1];
      SameLast(level, items, a.first, a.last, b.last);
      assert g.groups[..n] == g.groups[..n - 1] + [a] && h.groups[..n] == h.groups[..n - 1] + [b];
    }
  }
}
