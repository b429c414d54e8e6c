/** Sharing the rows of a terminal among panels (cmd/agentctl/operator.go). */
module PanelHeights {

  const MINIMUM_ROWS: int := 4

  /** Two borders and a title. */
  const FRAME_ROWS: int := 3

  function Min(a: int, b: int): int {
    if a <= b then a else b
  }

  function Max(a: int, b: int): int {
    if a >= b then a else b
  }

  /** panelDesiredHeight: the content, at least one row of it, and the frame. */
  function Desired(contentRows: nat): int {
    Max(contentRows, 1) + FRAME_ROWS
  }

  /** A panel desires the least height whose frame leaves room for all its content, and for one row at least. */
  lemma DesiredIsLeast(contentRows: nat, height: int)
    ensures Desired(contentRows) <= height <==> contentRows <= height - FRAME_ROWS && 1 <= height - FRAME_ROWS
  {
  }

  function AllDesired(contents: seq<nat>): (d: seq<int>)
    ensures |d| == |contents| && forall i :: 0 <= i < |d| ==> d[i] == Desired(contents[i]) >= MINIMUM_ROWS
  {
    seq(|contents|, i requires 0 <= i < |contents| => Desired(contents[i]))
  }

  function Sum(s: seq<int>): int {
    if s == [] then 0 else Sum(s[..|s| - 1]) + s[|s| - 1]
  }

  lemma {:induction false} SumUpdate(s: seq<int>, i: nat, x: int)
    requires i < |s|
    ensures Sum(s[i := x]) == Sum(s) + x - s[i]
  {
    var t := s[i := x];
    if i == |s| - 1 {
      assert t[..i] == s[..i];
    } else {
      assert t[..|t| - 1] == s[..|s| - 1][i := x];
      SumUpdate(s[..|s| - 1], i, x);
    }
  }

  lemma {:induction false} SumBelow(s: seq<int>, t: seq<int>)
    requires |s| == |t| && forall i :: 0 <= i < |s| ==> s[i] <= t[i]
    ensures Sum(s) <= Sum(t)
    ensures Sum(s) == Sum(t) ==> s == t
  {
    if s != [] {
      SumBelow(s[..|s| - 1], t[..|t| - 1]);
      assert s == s[..|s| - 1] + [s[|s| - 1]] && t == t[..|t| - 1] + [t[|t| - 1]];
    }
  }

  /** Panels filled evenly up to `level`, the first `ahead` of them one row further, and none beyond
      what it desires. */
  function Filled(desired: seq<int>, level: int, ahead: nat): (h: seq<int>)
    ensures |h| == |desired|
    ensures forall i :: 0 <= i < |h| ==> h[i] == Min(desired[i], if i < ahead then level + 1 else level)
  {
    seq(|desired|, i requires 0 <= i < |desired| => Min(desired[i], if i < ahead then level + 1 else level))
  }

  /** No panel gets more than it desires; none exceeds by more than one row another that still wants
      more, and by one row only if it comes first. */
  ghost predicate Fair(h: seq<int>, desired: seq<int>) {
    && |h| == |desired|
    && (forall i :: 0 <= i < |h| ==> h[i] <= desired[i])
    && (forall i, j :: 0 <= i < |h| && 0 <= j < |h| && h[j] < desired[j] ==> h[i] <= h[j] + if i < j then 1 else 0)
  }

  lemma FilledIsFair(desired: seq<int>, level: int, ahead: nat)
    ensures Fair(Filled(desired, level, ahead), desired)
  {
  }

  lemma FilledEnough(desired: seq<int>, level: int, ahead: nat)
    requires level >= MINIMUM_ROWS && forall i :: 0 <= i < |desired| ==> desired[i] >= MINIMUM_ROWS
    ensures forall i :: 0 <= i < |desired| ==> MINIMUM_ROWS <= Filled(desired, level, ahead)[i] <= desired[i]
  {
  }

  lemma FilledOver(desired: seq<int>, level: int)
    ensures Filled(desired, level, |desired|) == Filled(desired, level + 1, 0)
  {
  }

  /** Fairness and the total determine every single height. */
  lemma FairIsUnique(g: seq<int>, h: seq<int>, desired: seq<int>)
    requires Fair(g, desired) && Fair(h, desired) && Sum(g) == Sum(h)
    ensures g == h
  {
    if i :| 0 <= i < |g| && g[i] < h[i] {
      SumBelow(g, h);
    } else {
      SumBelow(h, g);
    }
  }

  /** The heights before anything is shared out. */
  function Base(available: int, index: nat): int {
    Min(MINIMUM_ROWS, Max(available - 3 * index, 1))
  }

  function Bases(available: int, n: nat): (b: seq<int>)
    ensures |b| == n && forall i :: 0 <= i < n ==> b[i] == Base(available, i)
  {
    seq(n, i requires 0 <= i < n => Base(available, i))
  }

  lemma {:induction false} BasesNext(available: int, n: nat)
    ensures Sum(Bases(available, n + 1)) == Sum(Bases(available, n)) + Base(available, n)
  {
    assert Bases(available, n + 1)[..n] == Bases(available, n);
  }

  /** The base heights take exactly four rows each while they last; short of that they already take all
      the rows there are, or more. */
  lemma {:induction false} BasesTake(available: int, n: nat)
    ensures available - 3 * n >= 1 ==> Sum(Bases(available, n)) == MINIMUM_ROWS * n
    ensures available < MINIMUM_ROWS * n ==> Sum(Bases(available, n)) >= available
    ensures Sum(Bases(available, n)) <= MINIMUM_ROWS * n
  {
    if n > 0 {
      BasesTake(available, n - 1);
      BasesNext(available, n - 1);
    }
  }

  lemma WideBases(available: int, desired: seq<int>)
    requires available >= MINIMUM_ROWS * |desired| && forall i :: 0 <= i < |desired| ==> desired[i] >= MINIMUM_ROWS
    ensures Bases(available, |desired|) == Filled(desired, MINIMUM_ROWS, 0)
  {
  }

  /** One more row ahead of the level. */
  lemma FilledNext(desired: seq<int>, level: int, index: nat, h: seq<int>)
    requires index < |desired| && h == Filled(desired, level, index)
    ensures h[index] < desired[index] ==> h[index := h[index] + 1] == Filled(desired, level, index + 1)
    ensures h[index] >= desired[index] ==> h == Filled(desired, level, index + 1) && h[index] == desired[index]
  {
  }

  /** The base heights, and the rows they leave. */
  method InitialHeights(n: nat, available: int) returns (heights: array<int>, remaining: int)
    ensures fresh(heights) && heights.Length == n && heights[..] == Bases(available, n)
    ensures remaining == available - Sum(Bases(available, n))
  {
    heights := new int[n];
    remaining := available;
    for index := 0 to n
      invariant heights[..index] == Bases(available, index)
      invariant remaining == available - Sum(Bases(available, index))
    {
      heights[index] := Min(4, Max(available - index * 3, 1));
      remaining := remaining - heights[index];
      BasesNext(available, index);
      assert heights[..index + 1] == Bases(available, index) + [Base(available, index)];
    }
    assert heights[..n] == heights[..];
  }

  /** One round over the panels: a row more for each that wants one, while rows are left. */
  method ShareRound(heights: array<int>, contents: seq<nat>, remaining: int, ghost level: int)
    returns (left: int, advanced: bool, ghost ahead: nat)
    requires heights.Length == |contents| && remaining > 0 && heights[..] == Filled(AllDesired(contents), level, 0)
    modifies heights
    ensures 0 <= left <= remaining && Sum(heights[..]) + left == old(Sum(heights[..])) + remaining
    ensures heights[..] == Filled(AllDesired(contents), level, ahead) && (left > 0 ==> ahead == |contents|)
    ensures advanced <==> left < remaining
    ensures !advanced ==> heights[..] == AllDesired(contents)
  {
    ghost var desired := AllDesired(contents);
    hide AllDesired, Filled;
    left, advanced, ahead := remaining, false, 0;
    for index := 0 to heights.Length
      invariant 0 <= left <= remaining && Sum(heights[..]) + left == old(Sum(heights[..])) + remaining
      invariant ahead == index && heights[..] == Filled(desired, level, index)
      invariant advanced <==> left < remaining
      invariant !advanced ==> forall i :: 0 <= i < index ==> heights[i] == desired[i]
    {
      if left == 0 {
        break;
      }
      ghost var was := heights[..];
      FilledNext(desired, level, index, was);
      if heights[index] < Desired(contents[index]) {
        heights[index] := heights[index] + 1;
        left := left - 1;
        advanced := true;
        SumUpdate(was, index, was[index] + 1);
        assert heights[..] == was[index := was[index] + 1];
      }
      ahead := index + 1;
    }
  }

  /** allocatePanelHeights. With four rows for every panel it shares out exactly the rows there are, up
      to what is desired, and as evenly as possible; with fewer it hands out only the base heights. */
  method AllocatePanelHeights(contents: seq<nat>, available: int) returns (heights: array<int>)
    ensures heights.Length == |contents|
    ensures available >= MINIMUM_ROWS * |contents| ==>
      && Fair(heights[..], AllDesired(contents))
      && Sum(heights[..]) == Min(available, Sum(AllDesired(contents)))
      && forall i :: 0 <= i < |contents| ==> heights[i] >= MINIMUM_ROWS
    ensures available < MINIMUM_ROWS * |contents| ==>
      heights[..] == Bases(available, |contents|) && Sum(heights[..]) >= available
  {
    hide Filled, AllDesired, Bases, Base, Sum, Fair, Desired;
    var n := |contents|;
    ghost var desired := AllDesired(contents);
    var remaining;
    heights, remaining := InitialHeights(n, available);
    BasesTake(available, n);
    if available >= MINIMUM_ROWS * n {
      WideBases(available, desired);
    }
    ghost var level, ahead := MINIMUM_ROWS, 0;
    while remaining > 0
      invariant fresh(heights) && heights.Length == n
      invariant available < MINIMUM_ROWS * n ==> remaining <= 0 && heights[..] == Bases(available, n)
      invariant available >= MINIMUM_ROWS * n ==>
        && remaining >= 0 && level >= MINIMUM_ROWS && Sum(heights[..]) + remaining == available
        && heights[..] == Filled(desired, level, ahead) && (remaining > 0 ==> ahead == 0)
      decreases remaining
    {
      var advanced;
      remaining, advanced, ahead := ShareRound(heights, contents, remaining, level);
      if !advanced {
        break;
      }
      if remaining > 0 {
        FilledOver(desired, level);
        level, ahead := level + 1, 0;
      }
    }
    if available >= MINIMUM_ROWS * n {
      FilledIsFair(desired, level, ahead);
      FilledEnough(desired, level, ahead);
      SumBelow(heights[..], desired);
    }
  }
}
