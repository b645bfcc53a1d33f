/** The sliding-window aligner of two chunk lists: window search, region state machine, termination. */
module Aligner {
  import opened Bytes
  import opened Options

  /** A position in both lists; also what is pushed for the start or end of a region. */
  datatype Pair = Pair(newID: int, oldID: int)

  /** A region as its chunks are fetched: from its opening to its closing pair. */
  datatype Region = Region(opening: Pair, closing: Pair)

  /** Equal fingerprints; reading past either end matches nothing. */
  predicate Matches(c1: seq<Bytes>, c2: seq<Bytes>, i: nat, j: nat) {
    i < |c1| && j < |c2| && c1[i] == c2[j]
  }

  // ---- The window search ----

  /** Where a match was found, as advances in the first and second list; or none in the window. */
  datatype Found = Found(k: nat, r: nat) | Exhausted

  /** The search, from advance `k` in row `r` on: along a row, then to the next. */
  function SearchFrom(c1: seq<Bytes>, c2: seq<Bytes>, i: nat, j: nat, size: nat, k: nat, r: nat): Found
    requires k < size && r <= size
    decreases size - r, size - k
  {
    if r == size then Exhausted
    else if Matches(c1, c2, i + k, j + r) then Found(k, r)
    else if i + k >= |c1| || k == size - 1 then SearchFrom(c1, c2, i, j, size, 0, r + 1)
    else SearchFrom(c1, c2, i, j, size, k + 1, r)
  }

  /** `(k, r)` comes at or after `(k0, r0)` in row-major order. */
  predicate NotBefore(k: nat, r: nat, k0: nat, r0: nat) {
    r > r0 || (r == r0 && k >= k0)
  }

  ghost predicate MatchInWindow(c1: seq<Bytes>, c2: seq<Bytes>, i: nat, j: nat, size: nat, k: nat, r: nat) {
    k < size && r < size && Matches(c1, c2, i + k, j + r)
  }

  /** The search finds the first match of the window in row-major order, or shows there is none. */
  lemma {:induction false} SearchFindsFirst(c1: seq<Bytes>, c2: seq<Bytes>, i: nat, j: nat, size: nat, k: nat, r: nat)
    requires k < size && r <= size
    ensures var f := SearchFrom(c1, c2, i, j, size, k, r);
            match f
            case Found(k1, r1) =>
              && MatchInWindow(c1, c2, i, j, size, k1, r1) && NotBefore(k1, r1, k, r)
              && forall k2: nat, r2: nat :: MatchInWindow(c1, c2, i, j, size, k2, r2) && NotBefore(k2, r2, k, r) ==>
                NotBefore(k2, r2, k1, r1)
            case Exhausted =>
              forall k2: nat, r2: nat :: MatchInWindow(c1, c2, i, j, size, k2, r2) ==> !NotBefore(k2, r2, k, r)
    decreases size - r, size - k
  {
    if r < size && !Matches(c1, c2, i + k, j + r) {
      if i + k >= |c1| || k == size - 1 {
        SearchFindsFirst(c1, c2, i, j, size, 0, r + 1);
      } else {
        SearchFindsFirst(c1, c2, i, j, size, k + 1, r);
      }
    }
  }

  // ---- The state machine as coded ----

  /** Window sizes: the small one, and the wide one used after a search has failed. */
  datatype Windows = Windows(small: nat, wide: nat)

  datatype State = State(i1: nat, i2: nat, size: nat, flag: nat, before: nat, after: nat, pairs: seq<Pair>,
    regions: seq<Region>)

  function Start(w: Windows): State {
    State(0, 0, w.small, 0, 0, 0, [], [])
  }

  /** Pushes the closing pair and looks the opening one up as the last but one. */
  function Close(st: State): State
    requires |st.pairs| >= 1
  {
    var pairs := st.pairs + [Pair(st.i1 - 1, st.i2 - 1)];
    st.(pairs := pairs, regions := st.regions + [Region(pairs[|pairs| - 2], pairs[|pairs| - 1])])
  }

  /** What a search does: moves to the match, or past the window and to equal positions. */
  function Searched(w: Windows, st: State, f: Found): State {
    match f
    case Found(k, r) =>
      var moved := st.(i1 := st.i1 + k, i2 := st.i2 + r, size := w.small);
      if st.flag == 2 then moved.(after := 1) else moved.(flag := 1)
    case Exhausted =>
      st.(i1 := st.i2 + st.size, i2 := st.i2 + st.size, size := w.wide, flag := 2, before := 1)
  }

  /** The four tests after a search that started at `(s1, s2)`. */
  function Settled(st: State, s1: nat, s2: nat): State
    requires st.flag == 2 && st.after == 1 ==> |st.pairs| >= 1
  {
    var a :=
      if st.flag == 1 && st.i1 != s1 && st.i2 != s2 && st.i1 - 1 != s1 && st.i2 - 1 != s2 then
        st.(pairs := st.pairs + [Pair(s1, s2), Pair(st.i1 - 1, st.i2 - 1)],
            regions := st.regions + [Region(Pair(s1, s2), Pair(st.i1 - 1, st.i2 - 1))], flag := 0)
      else st;
    var b :=
      if a.flag == 1 && ((a.i1 - 1 == s1 && a.i2 - 1 == s2) || (a.i1 == s1 && a.i2 == s2)) then
        a.(pairs := a.pairs + [Pair(s1, s2)], flag := 0)
      else a;
    var c :=
      if b.flag == 2 && b.before == 1 && b.after == 0 then
        b.(pairs := b.pairs + [Pair(s1, s2)], before := 0, after := 2)
      else b;
    if c.flag == 2 && c.after == 1 then Close(c.(after := 0, flag := 0)) else c
  }

  /** Between two steps: a region is open exactly when `flag` is 2, and then its opening pair is there. */
  predicate Consistent(st: State) {
    && st.size >= 1 && st.flag <= 2 && (st.after == 0 || st.after == 2)
    && (st.flag == 2 <==> st.after == 2) && (st.flag == 2 ==> |st.pairs| >= 1)
  }

  function Step(c1: seq<Bytes>, c2: seq<Bytes>, w: Windows, st: State): State
    requires Consistent(st)
  {
    if Matches(c1, c2, st.i1, st.i2) then
      var closed := if st.flag == 2 then Close(st.(after := 0, flag := 0)) else st;
      closed.(size := w.small, i1 := st.i1 + 1, i2 := st.i2 + 1)
    else
      Settled(Searched(w, st, SearchFrom(c1, c2, st.i1, st.i2, st.size, 0, 0)), st.i1, st.i2)
  }

  // ---- The same, without the mode variables ----

  /** The aligner with the open region itself in place of `flag`, `before` and `after`. */
  datatype Plain = Plain(i1: nat, i2: nat, size: nat, open: Option<Pair>, pairs: seq<Pair>, regions: seq<Region>)

  function ClosePlain(s: Plain): Plain
    requires s.open.Some?
  {
    var closing := Pair(s.i1 - 1, s.i2 - 1);
    s.(open := None, pairs := s.pairs + [closing], regions := s.regions + [Region(s.open.value, closing)])
  }

  /** What a search does: closes the open region at the match, or reports the stretch skipped
      before it; without a match, opens a region. */
  function PlainSearched(w: Windows, s: Plain, f: Found): Plain {
    var here := Pair(s.i1, s.i2);
    match f
    case Found(k, r) =>
      var moved := s.(i1 := s.i1 + k, i2 := s.i2 + r, size := w.small);
      if s.open.Some? then ClosePlain(moved)
      else if k >= 2 && r >= 2 then
        var there := Pair(moved.i1 - 1, moved.i2 - 1);
        moved.(pairs := s.pairs + [here, there], regions := s.regions + [Region(here, there)])
      else if k == 1 && r == 1 then moved.(pairs := s.pairs + [here])
      else moved
    case Exhausted =>
      var moved := s.(i1 := s.i2 + s.size, i2 := s.i2 + s.size, size := w.wide);
      if s.open.Some? then moved else moved.(open := Some(here), pairs := s.pairs + [here])
  }

  function PlainStep(c1: seq<Bytes>, c2: seq<Bytes>, w: Windows, s: Plain): Plain
    requires s.size >= 1
  {
    if Matches(c1, c2, s.i1, s.i2) then
      var closed := if s.open.Some? then ClosePlain(s) else s;
      closed.(size := w.small, i1 := s.i1 + 1, i2 := s.i2 + 1)
    else
      PlainSearched(w, s, SearchFrom(c1, c2, s.i1, s.i2, s.size, 0, 0))
  }

  /** What the coded state stands for: the open region starts at the last pair pushed. */
  function Abstract(st: State): Plain
    requires Consistent(st)
  {
    Plain(st.i1, st.i2, st.size, if st.flag == 2 then Some(st.pairs[|st.pairs| - 1]) else None, st.pairs, st.regions)
  }

  predicate Usable(w: Windows) {
    w.small >= 1 && w.wide >= 1
  }

  lemma FoundIsPlain(w: Windows, st: State, k: nat, r: nat)
    requires Consistent(st) && Usable(w) && (k > 0 || r > 0)
    ensures var t := Settled(Searched(w, st, Found(k, r)), st.i1, st.i2);
            Consistent(t) && Abstract(t) == PlainSearched(w, Abstract(st), Found(k, r))
  {
    if st.flag == 2 {
      var last := Pair(st.i1 + k - 1, st.i2 + r - 1);
      assert (st.pairs + [last])[|st.pairs| - 1] == st.pairs[|st.pairs| - 1];
    }
  }

  lemma ExhaustedIsPlain(w: Windows, st: State)
    requires Consistent(st) && Usable(w)
    ensures var t := Settled(Searched(w, st, Exhausted), st.i1, st.i2);
            Consistent(t) && Abstract(t) == PlainSearched(w, Abstract(st), Exhausted)
  {
  }

  lemma MatchIsPlain(c1: seq<Bytes>, c2: seq<Bytes>, w: Windows, st: State)
    requires Consistent(st) && Usable(w) && Matches(c1, c2, st.i1, st.i2)
    ensures var t := Step(c1, c2, w, st);
            Consistent(t) && Abstract(t) == PlainStep(c1, c2, w, Abstract(st))
  {
  }

  /** The mode variables do what the open region would do: one coded step is one plain step. In
      particular the pair looked up at a close is the opening pair, and nothing is pushed in between. */
  lemma StepIsPlain(c1: seq<Bytes>, c2: seq<Bytes>, w: Windows, st: State)
    requires Consistent(st) && Usable(w)
    ensures Consistent(Step(c1, c2, w, st))
    ensures Abstract(Step(c1, c2, w, st)) == PlainStep(c1, c2, w, Abstract(st))
  {
    if Matches(c1, c2, st.i1, st.i2) {
      MatchIsPlain(c1, c2, w, st);
    } else {
      SearchFindsFirst(c1, c2, st.i1, st.i2, st.size, 0, 0);
      hide SearchFrom, Settled, Searched, PlainSearched, Abstract;
      match SearchFrom(c1, c2, st.i1, st.i2, st.size, 0, 0)
      case Found(k, r) => FoundIsPlain(w, st, k, r);
      case Exhausted => ExhaustedIsPlain(w, st);
    }
  }

  predicate Running(c1: seq<Bytes>, c2: seq<Bytes>, i1: nat, i2: nat) {
    i1 < |c1| && i2 <= |c2|
  }

  /** What decreases: the second position advances, or a match is reached that makes it advance next. */
  function Remaining(c2: seq<Bytes>, i2: nat): int {
    |c2| + 1 - i2
  }

  function Mismatch(c1: seq<Bytes>, c2: seq<Bytes>, i1: nat, i2: nat): nat {
    if Matches(c1, c2, i1, i2) then 0 else 1
  }

  /** Every step makes progress, although the first position may move back. */
  lemma StepProgress(c1: seq<Bytes>, c2: seq<Bytes>, w: Windows, s: Plain)
    requires s.size >= 1 && Usable(w) && Running(c1, c2, s.i1, s.i2)
    ensures var t := PlainStep(c1, c2, w, s);
            && t.size >= 1 && t.i2 >= s.i2
            && (t.i2 > s.i2 || (Mismatch(c1, c2, s.i1, s.i2) == 1 && Mismatch(c1, c2, t.i1, t.i2) == 0))
  {
    if !Matches(c1, c2, s.i1, s.i2) {
      SearchFindsFirst(c1, c2, s.i1, s.i2, s.size, 0, 0);
    }
  }

  /** The whole alignment. */
  function PlainRun(c1: seq<Bytes>, c2: seq<Bytes>, w: Windows, s: Plain): Plain
    requires s.size >= 1 && Usable(w)
    decreases Remaining(c2, s.i2), Mismatch(c1, c2, s.i1, s.i2)
  {
    if Running(c1, c2, s.i1, s.i2) then
      StepProgress(c1, c2, w, s);
      PlainRun(c1, c2, w, PlainStep(c1, c2, w, s))
    else s
  }

  /** A region opens at a mismatch and closes just before a match, not before it opened in the second list. */
  predicate RegionOk(c1: seq<Bytes>, c2: seq<Bytes>, g: Region) {
    && g.opening.newID >= 0 && g.opening.oldID >= 0 && g.closing.newID >= -1 && g.closing.oldID >= -1
    && !Matches(c1, c2, g.opening.newID, g.opening.oldID)
    && Matches(c1, c2, g.closing.newID + 1, g.closing.oldID + 1)
    && g.opening.oldID <= g.closing.oldID
  }

  /** What every run keeps: the regions are right and follow each other in the second list, the pairs
      never go back there, and an open region starts at the last pair pushed, at a mismatch. */
  ghost predicate Ordered(c1: seq<Bytes>, c2: seq<Bytes>, s: Plain) {
    && (forall i :: 0 <= i < |s.regions| ==> RegionOk(c1, c2, s.regions[i]) && s.regions[i].closing.oldID < s.i2)
    && (forall i, j :: 0 <= i < j < |s.regions| ==> s.regions[i].closing.oldID < s.regions[j].opening.oldID)
    && (forall i, j :: 0 <= i < j < |s.pairs| ==> s.pairs[i].oldID <= s.pairs[j].oldID)
    && (forall i :: 0 <= i < |s.pairs| ==> s.pairs[i].oldID < s.i2)
    && match s.open
       case None => true
       case Some(o) =>
         && |s.pairs| > 0 && o == s.pairs[|s.pairs| - 1] && o.newID >= 0 && o.oldID >= 0
         && !Matches(c1, c2, o.newID, o.oldID)
         && forall i :: 0 <= i < |s.regions| ==> s.regions[i].closing.oldID < o.oldID
  }

  lemma ClosedOrdered(c1: seq<Bytes>, c2: seq<Bytes>, s: Plain)
    requires Ordered(c1, c2, s) && s.open.Some? && Matches(c1, c2, s.i1, s.i2)
    ensures Ordered(c1, c2, ClosePlain(s))
  {
  }

  lemma MovedOrdered(c1: seq<Bytes>, c2: seq<Bytes>, s: Plain, i1: nat, i2: nat, size: nat)
    requires Ordered(c1, c2, s) && s.i2 <= i2
    ensures Ordered(c1, c2, s.(i1 := i1, i2 := i2, size := size))
  {
  }

  lemma PushedOrdered(c1: seq<Bytes>, c2: seq<Bytes>, s: Plain, i1: nat, i2: nat, size: nat, opens: bool)
    requires Ordered(c1, c2, s) && s.open.None? && s.i2 < i2 && !Matches(c1, c2, s.i1, s.i2)
    ensures var here := Pair(s.i1, s.i2);
            Ordered(c1, c2, Plain(i1, i2, size, if opens then Some(here) else None, s.pairs + [here], s.regions))
  {
  }

  lemma SkippedOrdered(c1: seq<Bytes>, c2: seq<Bytes>, s: Plain, i1: nat, i2: nat, size: nat)
    requires Ordered(c1, c2, s) && s.open.None? && s.i2 + 2 <= i2 && i1 >= 1
    requires !Matches(c1, c2, s.i1, s.i2) && Matches(c1, c2, i1, i2)
    ensures var here, there := Pair(s.i1, s.i2), Pair(i1 - 1, i2 - 1);
            Ordered(c1, c2, Plain(i1, i2, size, None, s.pairs + [here, there], s.regions + [Region(here, there)]))
  {
    var here, there := Pair(s.i1, s.i2), Pair(i1 - 1, i2 - 1);
    PushedOrdered(c1, c2, s, i1, i2, size, true);
    var begun := Plain(i1, i2, size, Some(here), s.pairs + [here], s.regions);
    ClosedOrdered(c1, c2, begun);
    assert s.pairs + [here, there] == (s.pairs + [here]) + [there];
  }

  lemma SearchedOrdered(c1: seq<Bytes>, c2: seq<Bytes>, w: Windows, s: Plain, f: Found)
    requires Ordered(c1, c2, s) && s.size >= 1 && !Matches(c1, c2, s.i1, s.i2)
    requires f.Found? ==> Matches(c1, c2, s.i1 + f.k, s.i2 + f.r)
    ensures Ordered(c1, c2, PlainSearched(w, s, f))
  {
    hide Ordered, Matches;
    match f
    case Found(k, r) =>
      if s.open.Some? {
        MovedOrdered(c1, c2, s, s.i1 + k, s.i2 + r, w.small);
        ClosedOrdered(c1, c2, s.(i1 := s.i1 + k, i2 := s.i2 + r, size := w.small));
      } else if k >= 2 && r >= 2 {
        SkippedOrdered(c1, c2, s, s.i1 + k, s.i2 + r, w.small);
      } else if k == 1 && r == 1 {
        PushedOrdered(c1, c2, s, s.i1 + k, s.i2 + r, w.small, false);
      } else {
        MovedOrdered(c1, c2, s, s.i1 + k, s.i2 + r, w.small);
      }
    case Exhausted =>
      if s.open.Some? {
        MovedOrdered(c1, c2, s, s.i2 + s.size, s.i2 + s.size, w.wide);
      } else {
        PushedOrdered(c1, c2, s, s.i2 + s.size, s.i2 + s.size, w.wide, true);
      }
  }

  lemma StepOrdered(c1: seq<Bytes>, c2: seq<Bytes>, w: Windows, s: Plain)
    requires Ordered(c1, c2, s) && s.size >= 1
    ensures Ordered(c1, c2, PlainStep(c1, c2, w, s))
  {
    hide Ordered, Matches;
    if Matches(c1, c2, s.i1, s.i2) {
      if s.open.Some? {
        ClosedOrdered(c1, c2, s);
        MovedOrdered(c1, c2, ClosePlain(s), s.i1 + 1, s.i2 + 1, w.small);
      } else {
        MovedOrdered(c1, c2, s, s.i1 + 1, s.i2 + 1, w.small);
      }
    } else {
      SearchFindsFirst(c1, c2, s.i1, s.i2, s.size, 0, 0);
      SearchedOrdered(c1, c2, w, s, SearchFrom(c1, c2, s.i1, s.i2, s.size, 0, 0));
    }
  }

  lemma {:induction false} RunOrdered(c1: seq<Bytes>, c2: seq<Bytes>, w: Windows, s: Plain)
    requires Ordered(c1, c2, s) && s.size >= 1 && Usable(w)
    ensures Ordered(c1, c2, PlainRun(c1, c2, w, s))
    ensures !Running(c1, c2, PlainRun(c1, c2, w, s).i1, PlainRun(c1, c2, w, s).i2)
    decreases Remaining(c2, s.i2), Mismatch(c1, c2, s.i1, s.i2)
  {
    hide Ordered, PlainStep;
    if Running(c1, c2, s.i1, s.i2) {
      StepProgress(c1, c2, w, s);
      StepOrdered(c1, c2, w, s);
      RunOrdered(c1, c2, w, PlainStep(c1, c2, w, s));
    }
  }

  /** Every alignment from the start reports regions in order and pairs that never go back in the second list. */
  lemma AlignmentOrdered(c1: seq<Bytes>, c2: seq<Bytes>, w: Windows)
    requires Usable(w)
    ensures Ordered(c1, c2, PlainRun(c1, c2, w, Abstract(Start(w))))
  {
    RunOrdered(c1, c2, w, Abstract(Start(w)));
  }

  // ---- What is reported ----

  /** Where the aligner stands, and the first match of the window there. */
  datatype Stand = Stand(i1: nat, i2: nat, size: nat, first: Found)

  /** In row-major order, the first match of the window, or there is none. */
  ghost predicate FirstMatch(c1: seq<Bytes>, c2: seq<Bytes>, s: Stand) {
    match s.first
    case Found(k, r) =>
      && MatchInWindow(c1, c2, s.i1, s.i2, s.size, k, r)
      && forall k2: nat, r2: nat :: MatchInWindow(c1, c2, s.i1, s.i2, s.size, k2, r2) ==> NotBefore(k2, r2, k, r)
    case Exhausted =>
      forall k: nat, r: nat :: !MatchInWindow(c1, c2, s.i1, s.i2, s.size, k, r)
  }

  datatype Place = Place(i1: nat, i2: nat, size: nat)

  /** Where the aligner goes: past a match it stands at, to another match, or, without one, behind the window
      in the second list and to the same position in the first. */
  function NextPlace(w: Windows, stands: seq<Stand>): Place {
    if stands == [] then Place(0, 0, w.small)
    else
      var s := stands[|stands| - 1];
      if s.first == Found(0, 0) then Place(s.i1 + 1, s.i2 + 1, w.small)
      else if s.first.Found? then Place(s.i1 + s.first.k, s.i2 + s.first.r, w.small)
      else Place(s.i2 + s.size, s.i2 + s.size, w.wide)
  }

  /** The places the aligner goes through from the start on. */
  ghost predicate Walk(c1: seq<Bytes>, c2: seq<Bytes>, w: Windows, stands: seq<Stand>) {
    forall n :: 0 <= n < |stands| ==>
      && Place(stands[n].i1, stands[n].i2, stands[n].size) == NextPlace(w, stands[..n])
      && stands[n].i1 < |c1| && stands[n].i2 <= |c2| && FirstMatch(c1, c2, stands[n])
  }

  /** All of them, until a list has come to its end. */
  ghost predicate WholeWalk(c1: seq<Bytes>, c2: seq<Bytes>, w: Windows, stands: seq<Stand>) {
    Walk(c1, c2, w, stands)
    && (NextPlace(w, stands).i1 >= |c1| || NextPlace(w, stands).i2 > |c2|)
  }

  function Here(s: Stand): Pair {
    Pair(s.i1, s.i2)
  }

  /** Just before the match of the window. */
  function BeforeMatch(s: Stand): Pair
    requires s.first.Found?
  {
    Pair(s.i1 + s.first.k - 1, s.i2 + s.first.r - 1)
  }

  /** No window up to stand `n` has just been exhausted. */
  predicate Fresh(stands: seq<Stand>, n: nat)
    requires n < |stands|
  {
    n == 0 || stands[n - 1].first.Found?
  }

  /** At `n` a match is found that is at least two away in both lists. */
  predicate Skips(stands: seq<Stand>, n: nat)
    requires n < |stands|
  {
    Fresh(stands, n) && stands[n].first.Found? && stands[n].first.k >= 2 && stands[n].first.r >= 2
  }

  /** At `n` single chunks differ. */
  predicate Differs(stands: seq<Stand>, n: nat)
    requires n < |stands|
  {
    Fresh(stands, n) && stands[n].first == Found(1, 1)
  }

  /** From `m` on all windows are exhausted, up to the match found at `n`. */
  predicate Stretch(stands: seq<Stand>, m: nat, n: nat)
    requires m <= n < |stands|
  {
    m < n && Fresh(stands, m) && stands[n].first.Found? && forall l :: m <= l < n ==> stands[l].first.Exhausted?
  }

  /** A region is a skipped stretch, or an exhausted one. */
  ghost predicate RegionAt(stands: seq<Stand>, n: nat, g: Region)
    requires n < |stands|
  {
    || (Skips(stands, n) && g == Region(Here(stands[n]), BeforeMatch(stands[n])))
    || exists m :: 0 <= m < n && Stretch(stands, m, n) && g == Region(Here(stands[m]), BeforeMatch(stands[n]))
  }

  /** A pair is an end of a region, the start of one still open, or a place where single chunks differ. */
  ghost predicate PairAt(stands: seq<Stand>, n: nat, q: Pair)
    requires n < |stands|
  {
    || (Skips(stands, n) && (q == Here(stands[n]) || q == BeforeMatch(stands[n])))
    || (Differs(stands, n) && q == Here(stands[n]))
    || (Fresh(stands, n) && stands[n].first.Exhausted? && q == Here(stands[n]))
    || (!Fresh(stands, n) && stands[n].first.Found? && q == BeforeMatch(stands[n]))
  }

  /** What the last stand adds to the pairs. */
  function NewPairs(stands: seq<Stand>): seq<Pair>
    requires stands != []
  {
    var n := |stands| - 1;
    if Skips(stands, n) then [Here(stands[n]), BeforeMatch(stands[n])]
    else if Differs(stands, n) || (Fresh(stands, n) && stands[n].first.Exhausted?) then [Here(stands[n])]
    else if !Fresh(stands, n) && stands[n].first.Found? then [BeforeMatch(stands[n])]
    else []
  }

  /** Where the windows exhausted last begin. */
  function StretchStart(stands: seq<Stand>): (m: nat)
    requires stands != [] && stands[|stands| - 1].first.Exhausted?
    ensures m < |stands| && Fresh(stands, m) && forall l :: m <= l < |stands| ==> stands[l].first.Exhausted?
    decreases |stands|
  {
    var n := |stands| - 1;
    if Fresh(stands, n) then n else StretchStart(stands[..n])
  }

  function NewRegions(stands: seq<Stand>): seq<Region>
    requires stands != []
  {
    var n := |stands| - 1;
    if stands[n].first.Exhausted? then []
    else if Skips(stands, n) then [Region(Here(stands[n]), BeforeMatch(stands[n]))]
    else if !Fresh(stands, n) then [Region(Here(stands[StretchStart(stands[..n])]), BeforeMatch(stands[n]))]
    else []
  }

  function PairsOf(stands: seq<Stand>): seq<Pair>
    decreases |stands|
  {
    if stands == [] then [] else PairsOf(stands[..|stands| - 1]) + NewPairs(stands)
  }

  function RegionsOf(stands: seq<Stand>): seq<Region>
    decreases |stands|
  {
    if stands == [] then [] else RegionsOf(stands[..|stands| - 1]) + NewRegions(stands)
  }

  /** A stretch has one start. */
  lemma StretchStartOnly(stands: seq<Stand>, m: nat)
    requires stands != [] && !Fresh(stands, |stands| - 1) && m < |stands| - 1 && Stretch(stands, m, |stands| - 1)
    ensures m == StretchStart(stands[..|stands| - 1])
  {
    var n := |stands| - 1;
    var before := stands[..n];
    var k := StretchStart(before);
    assert Fresh(stands, m) && Fresh(before, k);
    assert k > 0 ==> before[k - 1] == stands[k - 1];
    assert m > 0 ==> before[m - 1] == stands[m - 1];
  }

  lemma NewRegionsExactly(stands: seq<Stand>, g: Region)
    requires stands != []
    ensures g in NewRegions(stands) <==> RegionAt(stands, |stands| - 1, g)
  {
    var n := |stands| - 1;
    forall m | 0 <= m < n && Stretch(stands, m, n) ensures !Fresh(stands, n) && m == StretchStart(stands[..n]) {
      assert stands[n - 1].first.Exhausted?;
      StretchStartOnly(stands, m);
    }
    if !Fresh(stands, n) && stands[n].first.Found? {
      var m := StretchStart(stands[..n]);
      assert Stretch(stands, m, n);
    }
  }

  lemma RegionAtPrefix(stands: seq<Stand>, k: nat, n: nat, g: Region)
    requires n < k <= |stands|
    ensures RegionAt(stands[..k], n, g) <==> RegionAt(stands, n, g)
  {
    assert forall m :: 0 <= m < n ==> (Stretch(stands[..k], m, n) <==> Stretch(stands, m, n));
  }

  /** The regions are exactly those of the stands. */
  lemma {:induction false} RegionsExactly(stands: seq<Stand>, g: Region)
    ensures g in RegionsOf(stands) <==> exists n :: 0 <= n < |stands| && RegionAt(stands, n, g)
    decreases |stands|
  {
    hide RegionAt, NewRegions;
    if stands != [] {
      var n := |stands| - 1;
      RegionsExactly(stands[..n], g);
      NewRegionsExactly(stands, g);
      forall l | 0 <= l < n ensures RegionAt(stands[..n], l, g) <==> RegionAt(stands, l, g) {
        RegionAtPrefix(stands, n, l, g);
      }
    }
  }

  /** And so are the pairs. */
  lemma {:induction false} PairsExactly(stands: seq<Stand>, q: Pair)
    ensures q in PairsOf(stands) <==> exists n :: 0 <= n < |stands| && PairAt(stands, n, q)
    decreases |stands|
  {
    hide PairAt, NewPairs;
    if stands != [] {
      var n := |stands| - 1;
      PairsExactly(stands[..n], q);
      NewPairsExactly(stands, q);
      forall l | 0 <= l < n ensures PairAt(stands[..n], l, q) <==> PairAt(stands, l, q) {
        PairAtPrefix(stands, n, l, q);
      }
    }
  }

  lemma NewPairsExactly(stands: seq<Stand>, q: Pair)
    requires stands != []
    ensures q in NewPairs(stands) <==> PairAt(stands, |stands| - 1, q)
  {
  }

  lemma PairAtPrefix(stands: seq<Stand>, k: nat, n: nat, q: Pair)
    requires n < k <= |stands|
    ensures PairAt(stands[..k], n, q) <==> PairAt(stands, n, q)
  {
  }

  /** The run has come to the end of this walk, and has reported what it asks for. */
  ghost predicate Reported(c1: seq<Bytes>, c2: seq<Bytes>, w: Windows, s: Plain, stands: seq<Stand>) {
    && Walk(c1, c2, w, stands) && NextPlace(w, stands) == Place(s.i1, s.i2, s.size)
    && s.pairs == PairsOf(stands) && s.regions == RegionsOf(stands) && s.open == OpenAfter(stands)
  }

  lemma WalkGrows(c1: seq<Bytes>, c2: seq<Bytes>, w: Windows, stands: seq<Stand>, s: Stand)
    requires Walk(c1, c2, w, stands) && NextPlace(w, stands) == Place(s.i1, s.i2, s.size)
    requires s.i1 < |c1| && s.i2 <= |c2| && FirstMatch(c1, c2, s)
    ensures Walk(c1, c2, w, stands + [s])
  {
    hide FirstMatch, NextPlace;
    var all := stands + [s];
    forall n | 0 <= n < |all| ensures all[..n] == if n < |stands| then stands[..n] else stands {
    }
  }

  /** The stand where the plain run is. */
  function StandAt(c1: seq<Bytes>, c2: seq<Bytes>, s: Plain): Stand
    requires s.size >= 1
  {
    Stand(s.i1, s.i2, s.size, SearchFrom(c1, c2, s.i1, s.i2, s.size, 0, 0))
  }

  /** The opening pair of the windows exhausted last, if they have just been. */
  function OpenAfter(stands: seq<Stand>): Option<Pair> {
    if stands != [] && stands[|stands| - 1].first.Exhausted? then Some(Here(stands[StretchStart(stands)])) else None
  }

  /** What one more stand adds, in terms of the region left open before it. */
  lemma OneMoreStand(stands: seq<Stand>, s: Stand)
    ensures var all, open := stands + [s], OpenAfter(stands);
            && PairsOf(all) == PairsOf(stands) + NewPairs(all) && RegionsOf(all) == RegionsOf(stands) + NewRegions(all)
            && (open.None? <==> Fresh(all, |stands|))
            && (open.Some? && s.first.Found? ==> NewRegions(all) == [Region(open.value, BeforeMatch(s))])
            && OpenAfter(all) == if s.first.Found? then None else if open.Some? then open else Some(Here(s))
  {
    var all := stands + [s];
    assert all[..|stands|] == stands;
    if OpenAfter(stands).Some? {
      assert all[StretchStart(stands)] == stands[StretchStart(stands)];
    }
  }

  lemma NewOnes(stands: seq<Stand>, s: Stand)
    ensures var all, open := stands + [s], OpenAfter(stands);
            && (s.first.Exhausted? ==>
                  NewPairs(all) == (if open.Some? then [] else [Here(s)]) && NewRegions(all) == [])
            && (s.first.Found? && open.Some? ==>
                  NewPairs(all) == [BeforeMatch(s)] && NewRegions(all) == [Region(open.value, BeforeMatch(s))])
            && (s.first.Found? && open.None? ==>
                  if s.first.k >= 2 && s.first.r >= 2
                    then NewPairs(all) == [Here(s), BeforeMatch(s)]
                      && NewRegions(all) == [Region(Here(s), BeforeMatch(s))]
                    else NewPairs(all) == (if s.first == Found(1, 1) then [Here(s)] else []) && NewRegions(all) == [])
  {
    OneMoreStand(stands, s);
    hide OpenAfter, StretchStart;
  }

  lemma FoundReports(w: Windows, s: Plain, stands: seq<Stand>, stand: Stand)
    requires s.open == OpenAfter(stands) && stand.first.Found? && stand.i1 == s.i1 && stand.i2 == s.i2
    ensures var t, all := PlainSearched(w, s, stand.first), stands + [stand];
            t.pairs == s.pairs + NewPairs(all) && t.regions == s.regions + NewRegions(all) && t.open == None
  {
    NewOnes(stands, stand);
    hide OpenAfter, NewPairs, NewRegions;
  }

  lemma ExhaustedReports(w: Windows, s: Plain, stands: seq<Stand>, stand: Stand)
    requires s.open == OpenAfter(stands) && stand.first.Exhausted? && stand.i1 == s.i1 && stand.i2 == s.i2
    ensures var t, all := PlainSearched(w, s, Exhausted), stands + [stand];
            && t.pairs == s.pairs + NewPairs(all) && t.regions == s.regions + NewRegions(all)
            && t.open == if s.open.Some? then s.open else Some(Here(stand))
  {
    NewOnes(stands, stand);
    hide OpenAfter, NewPairs, NewRegions;
  }

  lemma MatchReports(s: Plain, stands: seq<Stand>, stand: Stand)
    requires s.open == OpenAfter(stands) && stand.first == Found(0, 0) && stand.i1 == s.i1 && stand.i2 == s.i2
    ensures var t, all := if s.open.Some? then ClosePlain(s) else s, stands + [stand];
            t.pairs == s.pairs + NewPairs(all) && t.regions == s.regions + NewRegions(all) && t.open == None
  {
    NewOnes(stands, stand);
    hide OpenAfter, NewPairs, NewRegions;
  }

  lemma StepReports(c1: seq<Bytes>, c2: seq<Bytes>, w: Windows, s: Plain, stands: seq<Stand>)
    requires s.size >= 1 && s.open == OpenAfter(stands)
    ensures var t, all := PlainStep(c1, c2, w, s), stands + [StandAt(c1, c2, s)];
            && t.pairs == s.pairs + NewPairs(all) && t.regions == s.regions + NewRegions(all)
              && t.open == OpenAfter(all)
  {
    var stand := StandAt(c1, c2, s);
    OneMoreStand(stands, stand);
    hide OpenAfter, PairsOf, RegionsOf, NewPairs, NewRegions, PlainSearched, ClosePlain;
    if stand.first == Found(0, 0) {
      SearchFindsFirst(c1, c2, s.i1, s.i2, s.size, 0, 0);
      MatchReports(s, stands, stand);
    } else if stand.first.Found? {
      FoundReports(w, s, stands, stand);
    } else {
      ExhaustedReports(w, s, stands, stand);
    }
  }

  lemma StepMoves(c1: seq<Bytes>, c2: seq<Bytes>, w: Windows, s: Plain, stands: seq<Stand>)
    requires s.size >= 1
    ensures var t := PlainStep(c1, c2, w, s);
            NextPlace(w, stands + [StandAt(c1, c2, s)]) == Place(t.i1, t.i2, t.size)
  {
    SearchFindsFirst(c1, c2, s.i1, s.i2, s.size, 0, 0);
    hide SearchFrom;
  }

  lemma StepReported(c1: seq<Bytes>, c2: seq<Bytes>, w: Windows, s: Plain, stands: seq<Stand>)
    requires Reported(c1, c2, w, s, stands) && s.size >= 1 && Usable(w) && Running(c1, c2, s.i1, s.i2)
    ensures Reported(c1, c2, w, PlainStep(c1, c2, w, s), stands + [StandAt(c1, c2, s)])
  {
    var stand := StandAt(c1, c2, s);
    SearchFindsFirst(c1, c2, s.i1, s.i2, s.size, 0, 0);
    assert FirstMatch(c1, c2, stand);
    WalkGrows(c1, c2, w, stands, stand);
    hide Walk, FirstMatch, PlainStep, NextPlace, PairsOf, RegionsOf, NewPairs, NewRegions, OpenAfter, StandAt;
    OneMoreStand(stands, stand);
    StepReports(c1, c2, w, s, stands);
    StepMoves(c1, c2, w, s, stands);
  }

  /** A whole run reports what its walk asks for. */
  lemma {:induction false} RunReported(c1: seq<Bytes>, c2: seq<Bytes>, w: Windows, s: Plain, stands: seq<Stand>)
    returns (all: seq<Stand>)
    requires Reported(c1, c2, w, s, stands) && s.size >= 1 && Usable(w)
    ensures Reported(c1, c2, w, PlainRun(c1, c2, w, s), all) && WholeWalk(c1, c2, w, all)
    decreases Remaining(c2, s.i2), Mismatch(c1, c2, s.i1, s.i2)
  {
    hide PlainStep, SearchFrom, Walk, PairsOf, RegionsOf, NextPlace, OpenAfter;
    if Running(c1, c2, s.i1, s.i2) {
      StepProgress(c1, c2, w, s);
      StepReported(c1, c2, w, s, stands);
      all := RunReported(c1, c2, w, PlainStep(c1, c2, w, s), stands + [StandAt(c1, c2, s)]);
    } else {
      all := stands;
    }
  }

  lemma RunFromStart(c1: seq<Bytes>, c2: seq<Bytes>, w: Windows) returns (stands: seq<Stand>)
    requires Usable(w)
    ensures var end := PlainRun(c1, c2, w, Abstract(Start(w)));
            WholeWalk(c1, c2, w, stands) && end.pairs == PairsOf(stands) && end.regions == RegionsOf(stands)
    ensures forall q :: q in PairsOf(stands) <==> exists n :: 0 <= n < |stands| && PairAt(stands, n, q)
    ensures forall g :: g in RegionsOf(stands) <==> exists n :: 0 <= n < |stands| && RegionAt(stands, n, g)
  {
    stands := RunReported(c1, c2, w, Abstract(Start(w)), []);
    hide PlainRun, PairAt, RegionAt, PairsOf, RegionsOf, WholeWalk;
    forall q ensures q in PairsOf(stands) <==> exists n :: 0 <= n < |stands| && PairAt(stands, n, q) {
      PairsExactly(stands, q);
    }
    forall g ensures g in RegionsOf(stands) <==> exists n :: 0 <= n < |stands| && RegionAt(stands, n, g) {
      RegionsExactly(stands, g);
    }
  }

  /** Two chunks that differ, between equal ones, are skipped. */
  function TwoDiffer(): seq<Stand> {
    [Stand(0, 0, 3, Found(0, 0)), Stand(1, 1, 3, Found(2, 2)), Stand(3, 3, 3, Found(0, 0))]
  }

  lemma TwoDifferWalk(a: Bytes, x: Bytes, y: Bytes, b: Bytes, u: Bytes, v: Bytes, wide: nat)
    requires u !in [x, y, b] && v !in [x, y, b] && b !in [x, y]
    ensures WholeWalk([a, x, y, b], [a, u, v, b], Windows(3, wide), TwoDiffer())
  {
  }

  /** Their stretch is the one region reported. */
  lemma TwoDifferReported()
    ensures PairsOf(TwoDiffer()) == [Pair(1, 1), Pair(2, 2)]
    ensures RegionsOf(TwoDiffer()) == [Region(Pair(1, 1), Pair(2, 2))]
  {
    var all := TwoDiffer();
    assert all[..2][..1] == all[..1] && all[..1][..0] == [];
    assert all == all[..2] + [all[2]] && all[..2] == all[..1] + [all[1]];
    OneMoreStand(all[..2], all[2]);
    OneMoreStand(all[..1], all[1]);
  }

  /** There is only one walk of two lists, so what is reported is determined. */
  lemma {:induction false} WalkUnique(c1: seq<Bytes>, c2: seq<Bytes>, w: Windows, a: seq<Stand>, b: seq<Stand>)
    requires WholeWalk(c1, c2, w, a) && WholeWalk(c1, c2, w, b)
    ensures a == b
  {
    hide FirstMatch, NextPlace;
    var n := if |a| < |b| then |a| else |b|;
    assert a[..|a|] == a && b[..|b|] == b;
    SameWalk(c1, c2, w, a, b, n);
  }

  lemma {:induction false} SameWalk(c1: seq<Bytes>, c2: seq<Bytes>, w: Windows, a: seq<Stand>, b: seq<Stand>, n: nat)
    requires Walk(c1, c2, w, a) && Walk(c1, c2, w, b) && n <= |a| && n <= |b|
    ensures a[..n] == b[..n]
    decreases n
  {
    hide FirstMatch, NextPlace;
    if n > 0 {
      SameWalk(c1, c2, w, a, b, n - 1);
      SameFirst(c1, c2, a[n - 1], b[n - 1]);
      assert a[..n] == a[..n - 1] + [a[n - 1]] && b[..n] == b[..n - 1] + [b[n - 1]];
    }
  }

  lemma SameFirst(c1: seq<Bytes>, c2: seq<Bytes>, s: Stand, t: Stand)
    requires FirstMatch(c1, c2, s) && FirstMatch(c1, c2, t) && Place(s.i1, s.i2, s.size) == Place(t.i1, t.i2, t.size)
    ensures s == t
  {
    if s.first.Found? && t.first.Found? {
      assert NotBefore(s.first.k, s.first.r, t.first.k, t.first.r);
    }
  }

  // ---- The aligner ----

  /** The search as a loop: `k` runs along a row and starts again with the next. */
  method WindowSearch(c1: seq<Bytes>, c2: seq<Bytes>, i1: nat, i2: nat, size: nat)
    returns (found: bool, j1: nat, j2: nat)
    requires size >= 1
    ensures var f := SearchFrom(c1, c2, i1, i2, size, 0, 0);
            && found == f.Found?
            && j1 == (if found then i1 + f.k else i1) && j2 == (if found then i2 + f.r else i2 + size)
  {
    var k, count := 0, 0;
    j1, j2, found := i1, i2, false;
    while k < size
      invariant 0 <= k < size && count < size && j1 == i1 && j2 == i2 + count
      invariant SearchFrom(c1, c2, i1, i2, size, k, count) == SearchFrom(c1, c2, i1, i2, size, 0, 0)
      decreases size - count, size - k
    {
      if Matches(c1, c2, j1 + k, j2) {
        j1, found := j1 + k, true;
        break;
      } else if j1 + k >= |c1| || k == size - 1 {
        j2, k, count := j2 + 1, -1, count + 1;
        if count >= size {
          break;
        }
      }
      k := k + 1;
    }
  }

  class Dector {
    var transferPair: seq<Pair>
    var transferpairnumber: nat
    var fetched: seq<Region>

    constructor ()
      ensures transferPair == [] && transferpairnumber == 0 && fetched == []
    {
      transferPair, transferpairnumber, fetched := [], 0, [];
    }

    method Push(newID: int, oldID: int)
      modifies `transferPair, `transferpairnumber
      ensures transferPair == old(transferPair) + [Pair(newID, oldID)]
              && transferpairnumber == old(transferpairnumber) + 1
    {
      transferPair := transferPair + [Pair(newID, oldID)];
      transferpairnumber := transferpairnumber + 1;
    }

    /** Pushes the closing pair and fetches from the pair before it. */
    method PushClosing(i1: nat, i2: nat)
      requires |transferPair| >= 1
      modifies this
      ensures transferPair == old(transferPair) + [Pair(i1 - 1, i2 - 1)]
              && transferpairnumber == old(transferpairnumber) + 1
      ensures fetched == old(fetched) + [Region(transferPair[|transferPair| - 2], transferPair[|transferPair| - 1])]
    {
      Push(i1 - 1, i2 - 1);
      var opening := transferPair[|transferPair| - 2];
      fetched := fetched + [Region(opening, Pair(i1 - 1, i2 - 1))];
    }

    /** The four tests after a search that started at the two stands. */
    method SettleRegions(i1: nat, i2: nat, stand1: nat, stand2: nat, flag0: nat, before0: nat, after0: nat,
            ghost size: nat)
      returns (flag: nat, before: nat, after: nat)
      requires transferpairnumber == |transferPair| && (flag0 == 2 && after0 == 1 ==> |transferPair| >= 1)
      modifies this
      ensures transferpairnumber == |transferPair|
      ensures State(i1, i2, size, flag, before, after, transferPair, fetched)
              == Settled(State(i1, i2, size, flag0, before0, after0, old(transferPair), old(fetched)), stand1, stand2)
    {
      flag, before, after := flag0, before0, after0;
      if flag == 1 && i1 != stand1 && i2 != stand2 && i1 - 1 != stand1 && i2 - 1 != stand2 {
        Push(stand1, stand2);
        Push(i1 - 1, i2 - 1);
        fetched := fetched + [Region(Pair(stand1, stand2), Pair(i1 - 1, i2 - 1))];
        flag := 0;
      }
      if flag == 1 && ((i1 - 1 == stand1 && i2 - 1 == stand2) || (i1 == stand1 && i2 == stand2)) {
        Push(stand1, stand2);
        flag := 0;
      }
      if flag == 2 && before == 1 && after == 0 {
        Push(stand1, stand2);
        before, after := 0, 2;
      }
      if flag == 2 && after == 1 {
        after, flag := 0, 0;
        PushClosing(i1, i2);
      }
    }

    /** Aligns the two lists from their starts. */
    method TrueTransferDector(c1: seq<Bytes>, c2: seq<Bytes>, w: Windows) returns (ghost stands: seq<Stand>)
      requires Usable(w) && transferPair == [] && transferpairnumber == 0 && fetched == []
      modifies this
      ensures transferpairnumber == |transferPair|
      ensures WholeWalk(c1, c2, w, stands) && transferPair == PairsOf(stands) && fetched == RegionsOf(stands)
      ensures forall q :: q in transferPair <==> exists n :: 0 <= n < |stands| && PairAt(stands, n, q)
      ensures forall g :: g in fetched <==> exists n :: 0 <= n < |stands| && RegionAt(stands, n, g)
      ensures var end := PlainRun(c1, c2, w, Abstract(Start(w)));
              transferPair == end.pairs && fetched == end.regions
    {
      hide PlainRun, PlainStep, Matches, Abstract, Settled, SearchFrom, PairsOf, RegionsOf, WholeWalk, PairAt, RegionAt;
      ghost var begin := Abstract(Start(w));
      stands := RunFromStart(c1, c2, w);
      var i1: nat, i2: nat, size: nat := 0, 0, w.small;
      var flag: nat, before: nat, after: nat := 0, 0, 0;
      ghost var st := Start(w);
      AbstractPositions(st);
      while i1 < |c1| && i2 <= |c2|
        invariant st == State(i1, i2, size, flag, before, after, transferPair, fetched) && Consistent(st)
        invariant transferpairnumber == |transferPair|
        invariant begin.size >= 1 && Abstract(st).size >= 1
        invariant PlainRun(c1, c2, w, Abstract(st)) == PlainRun(c1, c2, w, begin)
        decreases Remaining(c2, i2), Mismatch(c1, c2, i1, i2)
      {
        StepAdvances(c1, c2, w, st);
        st := Step(c1, c2, w, st);
        if Matches(c1, c2, i1, i2) {
          if flag == 2 {
            after, flag := 0, 0;
            PushClosing(i1, i2);
          }
          size := w.small;
          i1, i2 := i1 + 1, i2 + 1;
        } else {
          var stand1, stand2 := i1, i2;
          var found, j1, j2 := WindowSearch(c1, c2, i1, i2, size);
          if found {
            i1, i2, size := j1, j2, w.small;
            if flag == 2 {
              after := 1;
            } else {
              flag := 1;
            }
          } else {
            i2, size := j2, w.wide;
            i1, flag, before := i2, 2, 1;
          }
          flag, before, after := SettleRegions(i1, i2, stand1, stand2, flag, before, after, size);
        }
      }
      AbstractPositions(st);
      RunUnfolds(c1, c2, w, Abstract(st));
    }
  }

  /** A coded step stays on the plain run and makes progress. */
  lemma StepAdvances(c1: seq<Bytes>, c2: seq<Bytes>, w: Windows, st: State)
    requires Consistent(st) && Usable(w) && Running(c1, c2, st.i1, st.i2) && Abstract(st).size >= 1
    ensures var t := Step(c1, c2, w, st);
            && Consistent(t) && Abstract(t).size >= 1
            && PlainRun(c1, c2, w, Abstract(t)) == PlainRun(c1, c2, w, Abstract(st))
            && t.i2 >= st.i2 && (t.i2 > st.i2 || Mismatch(c1, c2, t.i1, t.i2) < Mismatch(c1, c2, st.i1, st.i2))
  {
    hide PlainRun, PlainStep, Matches, Abstract, Step, Consistent;
    StepIsPlain(c1, c2, w, st);
    AbstractPositions(st);
    AbstractPositions(Step(c1, c2, w, st));
    StepProgress(c1, c2, w, Abstract(st));
    RunUnfolds(c1, c2, w, Abstract(st));
  }

  lemma AbstractPositions(st: State)
    requires Consistent(st)
    ensures var s := Abstract(st);
            s.i1 == st.i1 && s.i2 == st.i2 && s.size == st.size && s.pairs == st.pairs && s.regions == st.regions
  {
  }

  lemma RunUnfolds(c1: seq<Bytes>, c2: seq<Bytes>, w: Windows, s: Plain)
    requires s.size >= 1 && Usable(w)
    ensures if Running(c1, c2, s.i1, s.i2)
            then PlainStep(c1, c2, w, s).size >= 1
              && PlainRun(c1, c2, w, s) == PlainRun(c1, c2, w, PlainStep(c1, c2, w, s))
            else PlainRun(c1, c2, w, s) == s
  {
    if Running(c1, c2, s.i1, s.i2) {
      StepProgress(c1, c2, w, s);
    }
  }
}
