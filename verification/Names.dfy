/** Container names: a rollover moves the open name to its next permutation
    (std::next_permutation, section 25.4.9 of ISO/IEC 14882:2014). */
module Names {
  type Name = seq<char>

  /** The name of the first container. */
  const INITIAL_NAME: Name := "abcdefghijklmno"

  /** The lexicographic order on names. */
  predicate Less(a: Name, b: Name) {
    b != [] && (a == [] || a[0] < b[0] || (a[0] == b[0] && Less(a[1..], b[1..])))
  }

  lemma LessIrreflexive(a: Name)
    ensures !Less(a, a)
  {
  }

  lemma {:induction false} LessTransitive(a: Name, b: Name, c: Name)
    requires Less(a, b) && Less(b, c)
    ensures Less(a, c)
  {
    if a != [] && a[0] == b[0] && b[0] == c[0] {
      LessTransitive(a[1..], b[1..], c[1..]);
    }
  }

  /** A name that first differs at `k`, by a larger character, is larger. */
  lemma {:induction false} LessAt(a: Name, b: Name, k: nat)
    requires k < |a| && k < |b| && a[..k] == b[..k] && a[k] < b[k]
    ensures Less(a, b)
  {
    if k > 0 {
      assert a[0] == a[..k][0] == b[..k][0] == b[0];
      assert a[1..][..k - 1] == a[..k][1..] == b[..k][1..] == b[1..][..k - 1];
      LessAt(a[1..], b[1..], k - 1);
    }
  }

  predicate Descending(s: Name) {
    forall i, j :: 0 <= i < j < |s| ==> s[i] >= s[j]
  }

  function Reverse(s: Name): (r: Name)
    ensures |r| == |s|
  {
    if s == [] then [] else Reverse(s[1..]) + [s[0]]
  }

  lemma {:induction false} ReverseIsPermutation(s: Name)
    ensures multiset(Reverse(s)) == multiset(s)
  {
    if s != [] {
      ReverseIsPermutation(s[1..]);
      assert s == [s[0]] + s[1..];
    }
  }

  /** The rightmost position below `n` whose character is smaller than its successor, or -1. */
  function Pivot(s: Name, n: nat): (i: int)
    requires n == 0 || n < |s|
    ensures -1 <= i < n
    ensures i >= 0 ==> s[i] < s[i + 1]
  {
    if n == 0 then -1
    else if s[n - 1] < s[n] then n - 1
    else Pivot(s, n - 1)
  }

  /** The rightmost position in `s[lo..n]` holding a character larger than `c`. */
  function RightmostAbove(s: Name, lo: nat, n: nat, c: char): (j: nat)
    requires lo < n <= |s| && s[lo] > c
    ensures lo <= j < n && s[j] > c
  {
    if s[n - 1] > c then n - 1 else RightmostAbove(s, lo, n - 1, c)
  }

  function LastPivot(s: Name): (i: int)
    ensures s == [] ==> i == -1
    ensures -1 <= i && (i >= 0 ==> i + 1 < |s| && s[i] < s[i + 1])
  {
    if s == [] then -1 else Pivot(s, |s| - 1)
  }

  function Exchanged(s: Name, i: nat, j: nat): Name
    requires i < |s| && j < |s|
  {
    s[i := s[j]][j := s[i]]
  }

  /** No larger permutation: here the names start over. */
  predicate Last(s: Name) {
    LastPivot(s) < 0
  }

  /** Swaps the pivot with the rightmost larger character and reverses what follows;
      from the last permutation, starts over with the first. */
  function NextPermutation(s: Name): Name {
    var i := LastPivot(s);
    if i < 0 then Reverse(s)
    else
      var t := Exchanged(s, i, RightmostAbove(s, i + 1, |s|, s[i]));
      t[..i + 1] + Reverse(t[i + 1..])
  }

  lemma NextIsPermutation(s: Name)
    ensures multiset(NextPermutation(s)) == multiset(s)
  {
    var i := LastPivot(s);
    if i < 0 {
      ReverseIsPermutation(s);
    } else {
      var t := Exchanged(s, i, RightmostAbove(s, i + 1, |s|, s[i]));
      assert multiset(t) == multiset(s);
      assert t == t[..i + 1] + t[i + 1..];
      ReverseIsPermutation(t[i + 1..]);
    }
  }

  /** A rollover that does not wrap gets a name above the old one, so above every name used so far. */
  lemma NextIsLarger(s: Name)
    requires !Last(s)
    ensures Less(s, NextPermutation(s))
  {
    var i := LastPivot(s);
    var n := NextPermutation(s);
    assert n[..i] == s[..i];
    LessAt(s, n, i);
  }

  predicate DescendsIn(s: Name, lo: nat, n: nat)
    requires n <= |s|
  {
    forall i, j :: lo <= i < j < n ==> s[i] >= s[j]
  }

  /** Behind the pivot the characters descend. */
  lemma {:induction false} DescendsBehindPivot(s: Name, n: nat)
    requires n < |s|
    ensures DescendsIn(s, Pivot(s, n) + 1, n + 1)
  {
    if n > 0 && s[n - 1] >= s[n] {
      DescendsBehindPivot(s, n - 1);
      forall i, j | Pivot(s, n) + 1 <= i < j < n + 1 ensures s[i] >= s[j] {
        assert i < n - 1 ==> s[i] >= s[n - 1];
      }
    }
  }

  predicate LargerRearrangement(s: Name, r: Name) {
    multiset(r) == multiset(s) && Less(s, r)
  }

  /** `Last` tells exactly when the names start over: no rearrangement is larger. */
  lemma LastIsLargest(s: Name)
    ensures Last(s) <==> !exists r :: LargerRearrangement(s, r)
  {
    if Last(s) {
      if s != [] {
        DescendsBehindPivot(s, |s| - 1);
      }
      forall r | multiset(r) == multiset(s) ensures !LargerRearrangement(s, r) {
        NoneAboveDescending(s, r);
      }
    } else {
      NextIsPermutation(s);
      NextIsLarger(s);
      assert LargerRearrangement(s, NextPermutation(s));
    }
  }

  /** No rearrangement of a descending sequence is above it. */
  lemma {:induction false} NoneAboveDescending(s: Name, r: Name)
    requires Descending(s) && multiset(r) == multiset(s)
    ensures !Less(s, r)
  {
    assert |r| == |multiset(r)| == |s|;
    if s != [] {
      assert r[0] in multiset(r);
      assert r[0] in s;
      if r[0] == s[0] {
        TailsRearranged(s, r, 1);
        NoneAboveDescending(s[1..], r[1..]);
      }
    }
  }

  predicate Ascending(s: Name) {
    forall i, j :: 0 <= i < j < |s| ==> s[i] <= s[j]
  }

  lemma {:induction false} ReverseAt(s: Name, k: nat)
    requires k < |s|
    ensures Reverse(s)[k] == s[|s| - 1 - k]
  {
    if k < |s| - 1 {
      ReverseAt(s[1..], k);
    }
  }

  lemma ReverseAscends(s: Name)
    requires Descending(s)
    ensures Ascending(Reverse(s))
  {
    forall i, j | 0 <= i < j < |s| ensures Reverse(s)[i] <= Reverse(s)[j] {
      ReverseAt(s, i);
      ReverseAt(s, j);
    }
  }

  /** No rearrangement of an ascending sequence is below it. */
  lemma {:induction false} NoneBelowAscending(s: Name, r: Name)
    requires Ascending(s) && multiset(r) == multiset(s)
    ensures r == s || Less(s, r)
  {
    assert |r| == |multiset(r)| == |s|;
    if s != [] {
      assert r[0] in multiset(r);
      assert r[0] in s;
      if r[0] == s[0] {
        TailsRearranged(s, r, 1);
        NoneBelowAscending(s[1..], r[1..]);
        assert s == [s[0]] + s[1..] && r == [r[0]] + r[1..];
      }
    }
  }

  /** Behind a common prefix, rearrangements are rearrangements. */
  lemma TailsRearranged(a: Name, b: Name, k: nat)
    requires multiset(a) == multiset(b) && k <= |a| && k <= |b| && a[..k] == b[..k]
    ensures multiset(a[k..]) == multiset(b[k..])
  {
    assert a == a[..k] + a[k..] && b == b[..k] + b[k..];
    assert multiset(a[k..]) == multiset(a) - multiset(a[..k]);
    assert multiset(b[k..]) == multiset(b) - multiset(b[..k]);
  }

  lemma {:induction false} FirstDifference(a: Name, b: Name) returns (k: nat)
    requires Less(a, b) && |a| == |b|
    ensures k < |a| && a[..k] == b[..k] && a[k] < b[k]
  {
    if a[0] < b[0] {
      k := 0;
    } else {
      var n := FirstDifference(a[1..], b[1..]);
      k := n + 1;
      assert a[..k] == [a[0]] + a[1..][..n] && b[..k] == [b[0]] + b[1..][..n];
    }
  }

  lemma {:induction false} LessBehind(a: Name, b: Name, k: nat)
    requires k <= |a| && k <= |b| && a[..k] == b[..k] && Less(a[k..], b[k..])
    ensures Less(a, b)
  {
    if k > 0 {
      assert a[0] == a[..k][0] == b[..k][0] == b[0];
      assert a[1..][..k - 1] == a[..k][1..] == b[..k][1..] == b[1..][..k - 1];
      assert a[1..][k - 1..] == a[k..] && b[1..][k - 1..] == b[k..];
      LessBehind(a[1..], b[1..], k - 1);
    }
  }

  /** In a descending stretch, the rightmost larger character is the least larger one, and what
      is right of it is not larger. */
  lemma {:induction false} RightmostIsLeast(s: Name, lo: nat, n: nat, c: char)
    requires lo < n <= |s| && s[lo] > c && DescendsIn(s, lo, n)
    ensures var j := RightmostAbove(s, lo, n, c);
            forall m :: lo <= m < n ==> if m > j then s[m] <= c else s[m] >= s[j]
  {
    if s[n - 1] <= c {
      RightmostIsLeast(s, lo, n - 1, c);
    }
  }

  /** The pivot `c` in the place of the rightmost larger character leaves the stretch descending. */
  lemma {:induction false} ReplacedDescends(s: Name, lo: nat, n: nat, c: char)
    requires lo < n <= |s| && s[lo] > c && DescendsIn(s, lo, n)
    ensures DescendsIn(s[RightmostAbove(s, lo, n, c) := c], lo, n)
  {
    hide RightmostAbove;
    RightmostIsLeast(s, lo, n, c);
  }

  lemma BehindDescends(t: Name, lo: nat)
    requires lo <= |t| && DescendsIn(t, lo, |t|)
    ensures Descending(t[lo..])
  {
  }

  /** The next permutation keeps what is before the pivot `i`, puts there the least larger character
      of those behind it, and lets the rest ascend. */
  lemma NextShape(s: Name, i: nat)
    requires LastPivot(s) == i
    ensures var n := NextPermutation(s);
            && |n| == |s| && i + 1 < |s| && n[..i] == s[..i] && n[i] > s[i] && Ascending(n[i + 1..])
            && DescendsIn(s, i + 1, |s|)
            && forall m :: i < m < |s| && s[m] > s[i] ==> s[m] >= n[i]
  {
    hide RightmostAbove, Ascending, DescendsIn;
    PivotDescends(s, i);
    var j := RightmostAbove(s, i + 1, |s|, s[i]);
    NextParts(s, i, j);
    LeastAbove(s, i + 1, |s|, s[i]);
    RestAscends(s, i, j);
  }

  lemma PivotDescends(s: Name, i: nat)
    requires LastPivot(s) == i
    ensures i + 1 < |s| && s[i] < s[i + 1] && DescendsIn(s, i + 1, |s|)
  {
    hide Pivot;
    DescendsBehindPivot(s, |s| - 1);
  }

  lemma NextParts(s: Name, i: nat, j: nat)
    requires LastPivot(s) == i && i + 1 < |s| && s[i] < s[i + 1] && j == RightmostAbove(s, i + 1, |s|, s[i])
    ensures var n := NextPermutation(s);
            |n| == |s| && n[..i] == s[..i] && n[i] == s[j] > s[i] && n[i + 1..] == Reverse(s[j := s[i]][i + 1..])
  {
    hide RightmostAbove, LastPivot, Reverse;
    assert Exchanged(s, i, j)[i + 1..] == s[j := s[i]][i + 1..];
  }

  lemma LeastAbove(s: Name, lo: nat, n: nat, c: char)
    requires lo < n <= |s| && s[lo] > c && DescendsIn(s, lo, n)
    ensures forall m :: lo <= m < n && s[m] > c ==> s[m] >= s[RightmostAbove(s, lo, n, c)]
  {
    RightmostIsLeast(s, lo, n, c);
  }

  lemma RestAscends(s: Name, i: nat, j: nat)
    requires i + 1 < |s| && s[i] < s[i + 1] && DescendsIn(s, i + 1, |s|) && j == RightmostAbove(s, i + 1, |s|, s[i])
    ensures Ascending(Reverse(s[j := s[i]][i + 1..]))
  {
    hide RightmostAbove, DescendsIn, Ascending, Descending, Reverse;
    ReplacedDescends(s, i + 1, |s|, s[i]);
    BehindDescends(s[j := s[i]], i + 1);
    ReverseAscends(s[j := s[i]][i + 1..]);
  }

  /** Of all larger rearrangements the next permutation is the least. */
  lemma NextIsLeast(s: Name, r: Name)
    requires LargerRearrangement(s, r)
    ensures LargerRearrangement(s, NextPermutation(s))
    ensures r == NextPermutation(s) || Less(NextPermutation(s), r)
  {
    hide NextPermutation, Pivot, Ascending;
    assert !Last(s) by { LastIsLargest(s); }
    NextIsPermutation(s);
    NextIsLarger(s);
    assert |r| == |multiset(r)| == |s|;
    var i := LastPivot(s);
    var k := FirstDifference(s, r);
    NextShape(s, i);
    if k < i {
      assert NextPermutation(s)[..k] == NextPermutation(s)[..i][..k] == s[..k];
      assert NextPermutation(s)[k] == NextPermutation(s)[..i][k] == s[k];
      LessAt(NextPermutation(s), r, k);
    } else if k > i {
      TailsRearranged(s, r, k);
      NoneAboveDescending(s[k..], r[k..]);
    } else {
      LeastAtPivot(s, r, i);
    }
  }

  /** The case of a larger rearrangement that first differs at the pivot. */
  lemma LeastAtPivot(s: Name, r: Name, i: nat)
    requires LastPivot(s) == i && |r| == |s| && i < |s| && r[..i] == s[..i] && s[i] < r[i] && multiset(r) == multiset(s)
    ensures r == NextPermutation(s) || Less(NextPermutation(s), r)
  {
    hide NextPermutation, Pivot, Ascending, LastPivot;
    NextShape(s, i);
    NextIsPermutation(s);
    var n := NextPermutation(s);
    FoundBehind(s, r, i);
    if n[i] < r[i] {
      LessAt(n, r, i);
    } else {
      assert n[..i + 1] == n[..i] + [n[i]] == r[..i] + [r[i]] == r[..i + 1];
      NoneBelowAscendingTail(n, r, i + 1);
    }
  }

  /** Behind a common prefix, an ascending rest makes the least rearrangement. */
  lemma NoneBelowAscendingTail(n: Name, r: Name, k: nat)
    requires k <= |n| && k <= |r| && n[..k] == r[..k] && Ascending(n[k..]) && multiset(n) == multiset(r)
    ensures r == n || Less(n, r)
  {
    hide Ascending, Less;
    TailsRearranged(n, r, k);
    NoneBelowAscending(n[k..], r[k..]);
    if n[k..] == r[k..] {
      assert n == n[..k] + n[k..] && r == r[..k] + r[k..];
    } else {
      LessBehind(n, r, k);
    }
  }

  /** A rearrangement takes its first different character from behind. */
  lemma FoundBehind(s: Name, r: Name, i: nat)
    requires |r| == |s| && i < |s| && r[..i] == s[..i] && s[i] != r[i] && multiset(r) == multiset(s)
    ensures exists m :: i < m < |s| && s[m] == r[i]
  {
    TailsRearranged(s, r, i);
    assert r[i..][0] in multiset(r[i..]);
    assert r[i] in s[i..];
    var m :| 0 <= m < |s[i..]| && s[i..][m] == r[i];
    assert s[i + m] == r[i] && m > 0;
  }

  /** The next `n` rollovers from `s` do not wrap. */
  predicate Room(s: Name, n: nat)
    decreases n
  {
    n == 0 || (!Last(s) && Room(NextPermutation(s), n - 1))
  }

  lemma {:induction false} RoomShrinks(s: Name, n: nat, m: nat)
    requires Room(s, n) && m <= n
    ensures Room(s, m)
    decreases n
  {
    hide NextPermutation, Last;
    if m > 0 {
      RoomShrinks(NextPermutation(s), n - 1, m - 1);
    }
  }
}
