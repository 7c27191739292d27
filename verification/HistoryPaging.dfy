/** Paging backwards through a History (session/history.go, historyPage). */
module HistoryPaging {
  import opened SessionTypes

  const PageLimit := 100

  predicate Numbered(h: seq<HistoryFact>) {
    forall i :: 0 <= i < |h| ==> h[i].sequence == i + 1
  }

  /** The Steps a range of facts belongs to. */
  function Steps(h: seq<HistoryFact>, start: int, end: int): (r: set<StepID>) {
    set i | start <= i < end && 0 <= i < |h| && h[i].step != 0 :: h[i].step
  }

  /** No Step is cut in two between the facts before and after position `i`. */
  predicate Clean(h: seq<HistoryFact>, i: int) {
    0 < i < |h| ==> h[i].step == 0 || h[i - 1].step != h[i].step
  }

  /** How far back the cursor has to move to leave the Step it points into. */
  function StepStart(h: seq<HistoryFact>, end: nat, step: StepID): (r: nat)
    requires end <= |h|
    ensures r <= end && (forall i :: r <= i < end ==> h[i].step == step) && (r > 0 ==> h[r - 1].step != step)
  {
    if end > 0 && h[end - 1].step == step then StepStart(h, end - 1, step) else end
  }

  /** Where a page before the given sequence ends. */
  function PageEnd(h: seq<HistoryFact>, before: nat): (r: nat)
    ensures r <= |h|
  {
    if before == 0 || before > |h| then |h|
    else
      var end := before - 1;
      if Clean(h, end) then end else StepStart(h, end, h[end].step)
  }

  /** What a page is: the facts from `start` up to the cursor, not empty unless nothing is left, with at most
      `limit` Steps, and beginning where the next page can go on. */
  ghost predicate IsPage(h: seq<HistoryFact>, before: nat, limit: nat, start: nat, end: nat) {
    && end == PageEnd(h, before) && start <= end
    && (end > 0 ==> start < end)
    && |Steps(h, start, end)| <= limit
    && (start > 0 ==> Clean(h, start))
  }

  /** The first position whose sequence reaches the cursor, moved out of the Step it points into. */
  method FindEnd(h: seq<HistoryFact>, before: nat) returns (end: nat)
    requires Numbered(h)
    ensures end == PageEnd(h, before)
  {
    end := |h|;
    if before != 0 {
      end := 0;
      while end < |h| && h[end].sequence < before
        invariant end <= |h| && (end > 0 ==> end < before)
      {
        end := end + 1;
      }
      assert end == if before > |h| then |h| else before - 1;
      if end > 0 && end < |h| && h[end].step != 0 && h[end - 1].step == h[end].step {
        var step := h[end].step;
        ghost var target := StepStart(h, end, step);
        while end > 0 && h[end - 1].step == step
          invariant end <= |h| && StepStart(h, end, step) == target
        {
          end := end - 1;
        }
      }
    }
  }

  /** Where the scan stops without having met a Step, there is none. */
  lemma {:induction false} StepsReach(h: seq<HistoryFact>, reach: nat, end: nat, limit: nat)
    requires reach <= end <= |h| && limit > 0
    requires reach > 0 ==> |Steps(h, reach, end)| == limit
    ensures |Steps(h, reach, end)| == 0 <==> Steps(h, 0, end) == {}
    ensures |Steps(h, reach, end)| == 0 ==> reach == 0
  {
    if |Steps(h, reach, end)| > 0 {
      var step :| step in Steps(h, reach, end);
      assert step in Steps(h, 0, end);
    }
  }

  /** The page ends where the cursor says, or at the front of the Step the cursor points into: the last place before the
      cursor that cuts no Step. */
  lemma {:induction false} PageEndExact(h: seq<HistoryFact>, before: nat)
    ensures before == 0 || before > |h| ==> PageEnd(h, before) == |h|
    ensures 0 < before <= |h| ==>
              var end := PageEnd(h, before);
              && end < before && (end > 0 ==> h[end].step == 0 || h[end - 1].step != h[end].step)
              && forall i :: end < i < before ==> h[i].step != 0 && h[i - 1].step == h[i].step
  {
  }

  /** The Run facts that may stand at the front of a page are those of Runs with a Step on it. */
  predicate Foreign(f: HistoryFact, runs: set<RunID>) {
    f.run != 0 && f.run !in runs
  }

  /** Fact `i` is part of a Step of the Run. */
  predicate StepOf(h: seq<HistoryFact>, i: int, run: RunID) {
    0 <= i < |h| && h[i].step != 0 && h[i].run == run && run != 0
  }

  /** The Runs with a Step between `start` and `end`. */
  ghost predicate RunsSeen(h: seq<HistoryFact>, start: int, end: int, runs: set<RunID>) {
    forall run: RunID :: run in runs <==> exists i :: start <= i < end && StepOf(h, i, run)
  }

  /** A fact of a Run that has no Step between `first` and `end`. */
  ghost predicate Stray(h: seq<HistoryFact>, i: int, first: int, end: int) {
    0 <= i < |h| && h[i].run != 0 && forall j :: first <= j < end ==> !StepOf(h, j, h[i].run)
  }

  /** Where a page that ends at `end` begins: as far back as at most `limit` Steps reach, but behind the facts there
      that belong to Runs without a Step on the page; without any Step, `limit` facts back. */
  ghost predicate Begins(h: seq<HistoryFact>, limit: nat, first: nat, start: nat, end: nat) {
    if Steps(h, 0, end) == {} then start == if end > limit then end - limit else 0
    else
      && first <= start < end <= |h|
      && |Steps(h, first, end)| <= limit && (first > 0 ==> |Steps(h, first - 1, end)| == limit + 1)
      && (forall i :: first <= i < start ==> Stray(h, i, first, end)) && !Stray(h, start, first, end)
  }

  /** The backward scan over at most `limit` Steps. */
  method CollectSteps(h: seq<HistoryFact>, end: nat, limit: nat) returns (start: nat, seen: set<StepID>,
                      runs: set<RunID>)
    requires end <= |h| && limit > 0
    ensures start <= end && seen == Steps(h, start, end) && |seen| <= limit && RunsSeen(h, start, end, runs)
    ensures end > 0 ==> start < end
    ensures start > 0 ==> h[start - 1].step != 0 && h[start - 1].step !in seen && |seen| == limit
    ensures start > 0 ==> |Steps(h, start - 1, end)| == limit + 1
  {
    start, seen, runs := end, {}, {};
    var index := end;
    assert Steps(h, end, end) == {};
    hide Steps;
    hide RunsSeen;
    assert RunsSeen(h, end, end, {}) by { NoRuns(h, end); }
    while index > 0
      invariant 0 <= index <= end && start == index
      invariant seen == Steps(h, start, end) && |seen| <= limit && RunsSeen(h, start, end, runs)
    {
      var f := h[index - 1];
      if f.step != 0 && f.step !in seen && |seen| == limit {
        StepsFront(h, index - 1, end);
        break;
      }
      StepsFront(h, index - 1, end);
      RunsFront(h, index - 1, end, runs);
      if f.step != 0 && f.step !in seen {
        seen := seen + {f.step};
      }
      if f.step != 0 && f.run != 0 {
        runs := runs + {f.run};
      }
      index := index - 1;
      start := index;
    }
  }

  lemma {:induction false} StepsFront(h: seq<HistoryFact>, start: nat, end: nat)
    requires start < end <= |h|
    ensures Steps(h, start, end) == Steps(h, start + 1, end) + if h[start].step != 0 then {h[start].step} else {}
  {
  }

  lemma {:induction false} NoRuns(h: seq<HistoryFact>, end: nat)
    ensures RunsSeen(h, end, end, {})
  {
  }

  lemma {:induction false} RunsFront(h: seq<HistoryFact>, start: nat, end: nat, runs: set<RunID>)
    requires start < end <= |h| && RunsSeen(h, start + 1, end, runs)
    ensures RunsSeen(h, start, end, if h[start].step != 0 && h[start].run != 0 then runs + {h[start].run} else runs)
  {
    var more := if h[start].step != 0 && h[start].run != 0 then runs + {h[start].run} else runs;
    forall run: RunID ensures run in more <==> exists i :: start <= i < end && StepOf(h, i, run) {
      if run in more && run !in runs {
        assert StepOf(h, start, run);
      }
      if i :| start <= i < end && StepOf(h, i, run) {
        assert i == start || run in runs;
      }
    }
  }

  lemma {:induction false} StrayIsForeign(h: seq<HistoryFact>, first: nat, end: nat, runs: set<RunID>, i: nat)
    requires end <= |h| && RunsSeen(h, first, end, runs) && i < |h|
    ensures Stray(h, i, first, end) <==> Foreign(h[i], runs)
  {
  }

  lemma {:induction false} StepsShrink(h: seq<HistoryFact>, a: nat, b: nat, end: nat)
    requires a <= b <= end <= |h|
    requires forall i :: a <= i < b ==> h[i].step == 0
    ensures Steps(h, a, end) == Steps(h, b, end)
  {
  }

  /** historyPage. */
  method HistoryPage(h: seq<HistoryFact>, sid: SessionID, before: nat, stepLimit: int)
    returns (r: Result<seq<HistoryFact>>, hasMore: bool, ghost start: nat, ghost end: nat)
    requires Numbered(h)
    ensures r.Ok? <==> sid != 0 && 0 <= stepLimit <= PageLimit
    ensures r.Ok? ==> IsPage(h, before, if stepLimit == 0 then PageLimit else stepLimit, start, end)
    ensures r.Ok? ==> start <= end <= |h| && r.value == h[start..end] && (hasMore <==> start > 0)
    ensures r.Ok? && end > 0 ==>
              var limit := if stepLimit == 0 then PageLimit else stepLimit;
              exists first: nat :: Begins(h, limit, first, start, end)
  {
    hasMore, start, end := false, 0, 0;
    if sid == 0 { return Err(InvalidInput), false, 0, 0; }
    var limit := if stepLimit == 0 then PageLimit else stepLimit;
    if limit < 0 || limit > PageLimit { return Err(InvalidInput), false, 0, 0; }
    var last := FindEnd(h, before);
    if last == 0 {
      NoSteps(h);
      return Ok([]), false, 0, 0;
    }
    var first, seen, runs := CollectSteps(h, last, limit);
    ghost var reach := first;
    StepsReach(h, reach, last, limit);
    hide Stray;
    hide Steps;
    if |seen| > 0 {
      first := SkipForeign(h, first, last, seen, runs);
    } else if last > limit {
      first := last - limit;
      NoneWithin(h, last);
    }
    start, end := first, last;
    assert Begins(h, limit, reach, start, end);
    return Ok(h[first..last]), first > 0, start, end;
  }

  lemma {:induction false} NoneWithin(h: seq<HistoryFact>, end: nat)
    requires end <= |h| && |Steps(h, 0, end)| == 0
    ensures forall i :: 0 <= i < end ==> h[i].step == 0 && |Steps(h, i, end)| == 0
  {
    assert Steps(h, 0, end) == {};
    forall i | 0 <= i < end ensures h[i].step == 0 && |Steps(h, i, end)| == 0 {
      var step := h[i].step;
      assert step == 0 || step in Steps(h, 0, end);
      assert Steps(h, i, end) <= Steps(h, 0, end);
    }
  }

  lemma {:induction false} NoSteps(h: seq<HistoryFact>)
    ensures forall i :: |Steps(h, i, i)| == 0
  {
    assert forall i :: Steps(h, i, i) == {};
  }

  /** Facts of Runs without a Step on the page are left to the older page. */
  method SkipForeign(h: seq<HistoryFact>, start: nat, end: nat, seen: set<StepID>,
                     runs: set<RunID>) returns (first: nat)
    requires start < end <= |h| && seen == Steps(h, start, end) && |seen| > 0 && RunsSeen(h, start, end, runs)
    requires start > 0 ==> h[start - 1].step !in seen
    ensures start <= first < end && Steps(h, first, end) == seen
    ensures first > 0 ==> Clean(h, first)
    ensures (forall i :: start <= i < first ==> Stray(h, i, start, end)) && !Stray(h, first, start, end)
  {
    first := start;
    while first < end && Foreign(h[first], runs)
      invariant start <= first <= end
      invariant forall i :: start <= i < first ==> h[i].step == 0
      invariant forall i :: start <= i < first ==> Stray(h, i, start, end)
    {
      StrayIsForeign(h, start, end, runs, first);
      ForeignHasNoStep(h, start, end, runs, first);
      hide Stray;
      first := first + 1;
    }
    SomeStepStays(h, start, end, first);
    StrayIsForeign(h, start, end, runs, first);
    StepsShrink(h, start, first, end);
    NoSteps(h);
    if first > start {
      assert h[first - 1].step == 0;
    } else if first > 0 && h[first].step != 0 {
      assert h[first].step in seen;
    }
  }

  lemma {:induction false} ForeignHasNoStep(h: seq<HistoryFact>, first: nat, end: nat, runs: set<RunID>, i: nat)
    requires first <= i < end <= |h| && RunsSeen(h, first, end, runs) && Foreign(h[i], runs)
    ensures h[i].step == 0
  {
    assert h[i].step != 0 ==> StepOf(h, i, h[i].run);
  }

  lemma {:induction false} SomeStepStays(h: seq<HistoryFact>, start: nat, end: nat, first: nat)
    requires start <= first <= end <= |h| && |Steps(h, start, end)| > 0
    requires forall i :: start <= i < first ==> h[i].step == 0
    ensures first < end
  {
    var step :| step in Steps(h, start, end);
  }

  // ---------------------------------------------------------------- walking

  /** A cursor that a page handed out is where the next page ends, however much was appended meanwhile. */
  lemma {:induction false} CursorResumes(h: seq<HistoryFact>, later: seq<HistoryFact>, start: nat)
    requires h <= later && Numbered(h) && 0 < start < |h| && Clean(h, start)
    ensures PageEnd(later, h[start].sequence) == start
  {
    assert later[start] == h[start] && later[start - 1] == h[start - 1];
  }

  /** One page request: the History at that moment, the Step limit, and the range it answered. */
  datatype Visit = Visit(history: seq<HistoryFact>, limit: nat, start: nat, end: nat) {
    function Facts(): (r: seq<HistoryFact>)
      requires start <= end <= |history|
    {
      history[start..end]
    }
  }

  ghost predicate FirstVisit(v: Visit) {
    Numbered(v.history) && 1 <= v.limit <= PageLimit && IsPage(v.history, 0, v.limit, v.start, v.end)
  }

  /** The next page is requested with the first sequence of the page before it, while commits append. */
  ghost predicate Follows(v: Visit, next: Visit) {
    && 0 < v.start < |v.history| && v.history <= next.history && Numbered(next.history) && 1 <= next.limit <= PageLimit
    && IsPage(next.history, v.history[v.start].sequence, next.limit, next.start, next.end)
  }

  ghost predicate IsWalk(visits: seq<Visit>) {
    |visits| > 0 && FirstVisit(visits[0]) && forall k :: 0 < k < |visits| ==> Follows(visits[k - 1], visits[k])
  }

  ghost predicate InRange(visits: seq<Visit>) {
    forall k :: 0 <= k < |visits| ==> visits[k].start <= visits[k].end <= |visits[k].history|
  }

  /** What the walk has collected, oldest page first. */
  ghost function Collected(visits: seq<Visit>): (r: seq<HistoryFact>)
    requires InRange(visits)
  {
    if visits == [] then [] else visits[|visits| - 1].Facts() + Collected(visits[..|visits| - 1])
  }

  lemma {:induction false} WalkFront(visits: seq<Visit>)
    requires IsWalk(visits) && |visits| > 1
    ensures IsWalk(visits[..|visits| - 1])
  {
  }

  lemma {:induction false} WalkStep(visits: seq<Visit>, k: nat)
    requires IsWalk(visits) && k < |visits|
    ensures Numbered(visits[k].history) && visits[0].history <= visits[k].history
    ensures visits[k].start <= visits[k].end <= |visits[0].history|
    ensures k > 0 ==> visits[k].end == visits[k - 1].start
    ensures visits[0].history != [] ==> visits[k].start < visits[k].end
    ensures |Steps(visits[k].history, visits[k].start, visits[k].end)| <= visits[k].limit
    ensures visits[k].start > 0 ==> Clean(visits[k].history, visits[k].start)
  {
    if k > 0 {
      WalkStep(visits, k - 1);
      var v, next := visits[k - 1], visits[k];
      assert Follows(v, next);
      CursorResumes(v.history, next.history, v.start);
    }
  }

  /** The pages are exactly the History as of the first page, from the last page's start on: no gap, no repeat,
      whatever the limits and whatever was appended in between. */
  lemma {:induction false} WalkCollects(visits: seq<Visit>)
    requires IsWalk(visits)
    ensures InRange(visits)
    ensures visits[|visits| - 1].start <= |visits[0].history|
    ensures Collected(visits) == visits[0].history[visits[|visits| - 1].start..]
  {
    forall k | 0 <= k < |visits| ensures visits[k].start <= visits[k].end <= |visits[k].history| {
      WalkStep(visits, k);
    }
    var last := |visits| - 1;
    hide Follows;
    hide FirstVisit;
    hide Steps;
    hide Clean;
    hide Numbered;
    WalkStep(visits, last);
    if last == 0 {
      assert visits[..0] == [];
      FirstReachesEnd(visits[0]);
    } else {
      WalkFront(visits);
      WalkCollects(visits[..last]);
      assert visits[..last][last - 1] == visits[last - 1];
      PageIsPart(visits[0].history, visits[last]);
    }
  }

  lemma {:induction false} PageIsPart(h: seq<HistoryFact>, v: Visit)
    requires h <= v.history && v.start <= v.end <= |h|
    ensures v.Facts() + h[v.end..] == h[v.start..]
  {
    assert v.Facts() == h[v.start..v.end];
  }

  lemma {:induction false} FirstReachesEnd(v: Visit)
    requires FirstVisit(v)
    ensures v.end == |v.history|
  {
  }

  /** Every page holds at least one fact and at most `limit` Steps, so a walk ends within as many pages as there
      are facts. */
  lemma {:induction false} WalkTerminates(visits: seq<Visit>)
    requires IsWalk(visits)
    ensures |visits| - 1 + visits[|visits| - 1].start <= |visits[0].history|
    ensures forall k :: 0 <= k < |visits| ==>
              |Steps(visits[k].history, visits[k].start, visits[k].end)| <= visits[k].limit
    ensures visits[0].history != [] ==> forall k :: 0 <= k < |visits| ==> visits[k].start < visits[k].end
  {
    forall k | 0 <= k < |visits|
      ensures |Steps(visits[k].history, visits[k].start, visits[k].end)| <= visits[k].limit
      ensures visits[0].history != [] ==> visits[k].start < visits[k].end
    {
      WalkStep(visits, k);
    }
    var last := |visits| - 1;
    WalkStep(visits, last);
    hide Follows;
    hide FirstVisit;
    hide Steps;
    hide Clean;
    hide Numbered;
    if last > 0 {
      WalkFront(visits);
      WalkTerminates(visits[..last]);
      assert visits[..last][last - 1] == visits[last - 1];
    }
  }
}
