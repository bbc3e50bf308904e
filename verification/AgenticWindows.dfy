// Overlapping windows over the lines of a document, and the merge of the groups
// that come back for each window in any order.
module AgenticWindows {
  import opened Common

  // ---- Windows ----------------------------------------------------------

  function Overlap(size: nat): nat { Max(size / 10, 5) }

  /** `window_size.saturating_sub(overlap)`. */
  function Stride(size: nat): nat { if size >= Overlap(size) then size - Overlap(size) else 0 }

  function EndOf(size: nat, total: nat, offset: nat): nat { Min(offset + size, total) }

  /** Lines are numbered from 1; `cutoff` is the first line the window answers for. */
  datatype Span = Span(first: nat, last: nat, cutoff: nat)

  function SpanAt(size: nat, total: nat, offset: nat): Span {
    Span(offset + 1, EndOf(size, total, offset), if offset == 0 then offset + 1 else offset + 1 + Overlap(size))
  }

  /** The window loop can make progress, or needs one round only. */
  predicate LoopEnds(size: nat, total: nat) { size > 5 || total <= size }

  function SpansFrom(size: nat, total: nat, offset: nat): (spans: seq<Span>)
    requires offset < total && LoopEnds(size, total)
    ensures |spans| > 0 && spans[0] == SpanAt(size, total, offset)
    decreases total - offset
  {
    [SpanAt(size, total, offset)]
    + if EndOf(size, total, offset) >= total then [] else SpansFrom(size, total, offset + Stride(size))
  }

  /** The loop is in its round `n`: the offsets of all rounds so far left lines over. */
  ghost predicate RoundIsReached(size: nat, total: nat, n: nat) {
    forall k :: 0 <= k < n ==> GoesOn(size, total, OffsetOf(size, k))
  }

  function OffsetOf(size: nat, n: nat): nat { if n == 0 then 0 else OffsetOf(size, n - 1) + Stride(size) }

  predicate GoesOn(size: nat, total: nat, offset: nat) { offset < total && EndOf(size, total, offset) < total }

  lemma {:induction false} OffsetsGrow(size: nat, n: nat)
    ensures OffsetOf(size, n) >= if Stride(size) > 0 then n else 0
    ensures Stride(size) == 0 ==> OffsetOf(size, n) == 0
  {
    if n > 0 { OffsetsGrow(size, n - 1); }
  }

  /** The window loop ends exactly when a window is longer than 5 lines or holds the whole document. */
  lemma {:induction false} WindowLoopEndsIff(size: nat, total: nat)
    requires total > 0
    ensures LoopEnds(size, total) <==> exists n: nat :: !RoundIsReached(size, total, n)
  {
    if LoopEnds(size, total) {
      if total <= size {
        assert !GoesOn(size, total, OffsetOf(size, 0));
        assert !RoundIsReached(size, total, 1);
      } else {
        OffsetsGrow(size, total);
        assert !GoesOn(size, total, OffsetOf(size, total));
        assert !RoundIsReached(size, total, total + 1);
      }
    } else {
      forall n: nat ensures RoundIsReached(size, total, n) {
        forall k | 0 <= k < n ensures GoesOn(size, total, OffsetOf(size, k)) { OffsetsGrow(size, k); }
      }
    }
  }

  /** Every window after the first starts answering where the window before it stops. */
  ghost predicate Chained(spans: seq<Span>, total: nat) {
    && spans != [] && spans[|spans| - 1].last == total
    && (forall k :: 0 <= k < |spans| ==> 1 <= spans[k].first <= spans[k].cutoff <= spans[k].last)
    && (forall k :: 0 < k < |spans| ==> spans[k].cutoff == spans[k - 1].last + 1)
  }

  lemma {:induction false} SpansChain(size: nat, total: nat, offset: nat)
    requires offset < total && LoopEnds(size, total) && (offset > 0 ==> offset + Overlap(size) < total)
    ensures Chained(SpansFrom(size, total, offset), total)
    decreases total - offset
  {
    if EndOf(size, total, offset) < total {
      SpansChain(size, total, offset + Stride(size));
      ChainsOn(SpanAt(size, total, offset), SpansFrom(size, total, offset + Stride(size)), total);
    }
  }

  lemma {:induction false} ChainsOn(first: Span, rest: seq<Span>, total: nat)
    requires Chained(rest, total) && rest[0].cutoff == first.last + 1 && 1 <= first.first <= first.cutoff <= first.last
    ensures Chained([first] + rest, total)
  {
    var all := [first] + rest;
    forall k | 0 < k < |all| ensures all[k].cutoff == all[k - 1].last + 1 {
      if k > 1 { assert rest[k - 1].cutoff == rest[k - 2].last + 1; }
    }
  }

  /** Neighbouring windows share exactly `overlap` lines. */
  lemma {:induction false} NeighboursShare(size: nat, total: nat, offset: nat, k: nat)
    requires offset < total && LoopEnds(size, total) && 0 < k < |SpansFrom(size, total, offset)|
    ensures var spans := SpansFrom(size, total, offset);
      spans[k - 1].last + 1 - spans[k].first == if size < 60 then 5 else size / 10
    decreases total - offset
  {
    if k > 1 { NeighboursShare(size, total, offset + Stride(size), k - 1); }
  }

  /** Each line is answered for by exactly one window. */
  lemma {:induction false} LinesArePartitioned(spans: seq<Span>, total: nat, line: nat) returns (k: nat)
    requires Chained(spans, total) && spans[0].cutoff <= line <= total
    ensures k < |spans| && spans[k].cutoff <= line <= spans[k].last
    ensures forall j :: 0 <= j < |spans| && spans[j].cutoff <= line <= spans[j].last ==> j == k
  {
    k := 0;
    while spans[k].last < line
      invariant k < |spans| && spans[k].cutoff <= line
      decreases |spans| - k
    {
      assert k + 1 < |spans|;
      k := k + 1;
    }
    forall j | 0 <= j < |spans| && spans[j].cutoff <= line <= spans[j].last ensures j == k {
      if j < k { OwnedInOrder(spans, total, j, k); }
      if k < j { OwnedInOrder(spans, total, k, j); }
    }
  }

  lemma {:induction false} OwnedInOrder(spans: seq<Span>, total: nat, j: nat, k: nat)
    requires Chained(spans, total) && j < k < |spans|
    ensures spans[j].last < spans[k].cutoff
    decreases k - j
  {
    if j + 1 < k { OwnedInOrder(spans, total, j + 1, k); }
  }

  datatype Window = Window(idx: nat, lines: seq<string>, offset: nat, cutoff: nat)

  function WindowAt(lines: seq<string>, idx: nat, span: Span): Window
    requires 1 <= span.first <= span.last <= |lines|
  {
    Window(idx, lines[span.first - 1..span.last], span.first, span.cutoff)
  }

  lemma {:induction false} SpansFit(size: nat, total: nat, offset: nat, k: nat)
    requires offset < total && LoopEnds(size, total) && k < |SpansFrom(size, total, offset)|
    ensures var s := SpansFrom(size, total, offset)[k]; 1 <= s.first <= s.last <= total
    decreases total - offset
  {
    if k > 0 { SpansFit(size, total, offset + Stride(size), k - 1); }
  }

  ghost predicate AreWindows(lines: seq<string>, spans: seq<Span>, windows: seq<Window>) {
    |windows| == |spans| && forall k :: 0 <= k < |spans| ==> IsWindow(lines, spans[k], k, windows[k])
  }

  ghost predicate IsWindow(lines: seq<string>, span: Span, k: nat, w: Window) {
    1 <= span.first <= span.last <= |lines| && w == WindowAt(lines, k, span)
  }

  lemma {:induction false} OneMoreWindow(
      lines: seq<string>, spans: seq<Span>, windows: seq<Window>, span: Span, w: Window)
    requires AreWindows(lines, spans, windows) && IsWindow(lines, span, |windows|, w)
    ensures AreWindows(lines, spans + [span], windows + [w])
  {
    assert forall k :: 0 <= k < |spans| ==> IsWindow(lines, spans[k], k, windows[k]);
  }

  lemma {:induction false} RoundSplits(size: nat, total: nat, offset: nat, done: seq<Span>)
    requires offset < total && LoopEnds(size, total)
    ensures EndOf(size, total, offset) >= total ==>
      done + SpansFrom(size, total, offset) == done + [SpanAt(size, total, offset)]
    ensures EndOf(size, total, offset) < total ==>
      done + SpansFrom(size, total, offset)
        == done + [SpanAt(size, total, offset)] + SpansFrom(size, total, offset + Stride(size))
  {
  }

  /** The window of one round. */
  method MakeWindow(lines: seq<string>, size: nat, offset: nat, idx: nat) returns (w: Window, end: nat)
    requires offset < |lines| && LoopEnds(size, |lines|)
    ensures IsWindow(lines, SpanAt(size, |lines|, offset), idx, w) && end == EndOf(size, |lines|, offset)
  {
    SpansFit(size, |lines|, offset, 0);
    var overlap := Max(size / 10, 5);
    end := Min(offset + size, |lines|);
    var first := offset + 1;
    var cutoff := if offset == 0 then first else first + overlap;
    w := Window(idx, lines[offset..end], first, cutoff);
  }

  lemma {:induction false} NextRound(size: nat, total: nat, offset: nat)
    requires offset < total && LoopEnds(size, total) && EndOf(size, total, offset) < total
    ensures offset < offset + Stride(size) < total
  {
  }

  /** `done` and the windows from `offset` on are the windows of the document. */
  ghost predicate Progress(size: nat, total: nat, offset: nat, done: seq<Span>)
    requires LoopEnds(size, total)
  {
    0 <= offset < total && done + SpansFrom(size, total, offset) == SpansFrom(size, total, 0)
  }

  lemma {:induction false} RoundGoesOn(size: nat, total: nat, offset: nat, done: seq<Span>)
    requires LoopEnds(size, total) && Progress(size, total, offset, done)
    ensures var done' := done + [SpanAt(size, total, offset)];
      if EndOf(size, total, offset) < total then Progress(size, total, offset + Stride(size), done')
      else done' == SpansFrom(size, total, 0)
  {
    RoundSplits(size, total, offset, done);
    if EndOf(size, total, offset) < total { NextRound(size, total, offset); }
  }

  // ---- The windows in full ----------------------------------------------

  /** Window `k` starts `step` lines after the one before it; behind the first it answers from `shared` lines on. */
  ghost predicate IsWindowAt(lines: seq<string>, size: nat, step: nat, shared: nat, k: nat, w: Window)
    requires k * step < |lines|
  {
    var offset := k * step;
    && w.idx == k && w.offset == offset + 1
    && w.lines == (if offset + size <= |lines| then lines[offset..offset + size] else lines[offset..])
    && w.cutoff == if k == 0 then 1 else offset + 1 + shared
  }

  ghost predicate AreAllWindows(lines: seq<string>, size: nat, step: nat, shared: nat, windows: seq<Window>) {
    && windows != []
    && (forall k :: 0 <= k < |windows| ==>
          IsOffset(lines, step, k) && IsWindowAt(lines, size, step, shared, k, windows[k]))
    && (forall k :: 0 <= k < |windows| ==> (EndsAll(lines, size, step, k) <==> k == |windows| - 1))
  }

  ghost predicate IsOffset(lines: seq<string>, step: nat, k: nat) { k * step < |lines| }

  /** Window `k` reaches the last line. */
  ghost predicate EndsAll(lines: seq<string>, size: nat, step: nat, k: nat) { k * step + size >= |lines| }

  /** Windows share a tenth of their size, and five lines at least. */
  ghost predicate AreWindowsOf(lines: seq<string>, size: nat, windows: seq<Window>) {
    && (size < 5 ==> AreAllWindows(lines, size, 0, 5, windows))
    && (5 <= size < 60 ==> AreAllWindows(lines, size, size - 5, 5, windows))
    && (60 <= size ==> AreAllWindows(lines, size, size - size / 10, size / 10, windows))
  }

  lemma {:induction false} OneStepMore(k: nat, step: nat)
    requires k > 0
    ensures k * step == step + (k - 1) * step
  {
  }

  lemma {:induction false} SpanIs(size: nat, total: nat, offset: nat, k: nat)
    requires offset < total && LoopEnds(size, total) && k < |SpansFrom(size, total, offset)|
    ensures var here := offset + k * Stride(size);
      && here < total && SpansFrom(size, total, offset)[k] == SpanAt(size, total, here)
      && (here + size >= total <==> k == |SpansFrom(size, total, offset)| - 1)
    decreases total - offset
  {
    if k > 0 {
      OneStepMore(k, Stride(size));
      SpanIs(size, total, offset + Stride(size), k - 1);
    }
  }

  lemma {:induction false} SpansAreWindows(lines: seq<string>, size: nat, windows: seq<Window>)
    requires lines != [] && LoopEnds(size, |lines|) && AreWindows(lines, SpansFrom(size, |lines|, 0), windows)
    ensures AreAllWindows(lines, size, Stride(size), Overlap(size), windows)
  {
    forall k | 0 <= k < |windows|
      ensures IsOffset(lines, Stride(size), k)
      ensures IsWindowAt(lines, size, Stride(size), Overlap(size), k, windows[k])
      ensures EndsAll(lines, size, Stride(size), k) <==> k == |windows| - 1
    {
      SpanIs(size, |lines|, 0, k);
      assert IsWindow(lines, SpansFrom(size, |lines|, 0)[k], k, windows[k]);
      SpanIsWindow(lines, size, k, windows[k], k * Stride(size));
    }
  }

  lemma {:induction false} SpanIsWindow(lines: seq<string>, size: nat, k: nat, w: Window, offset: nat)
    requires offset == k * Stride(size) && offset < |lines| && (k > 0 ==> Stride(size) > 0)
    requires IsWindow(lines, SpanAt(size, |lines|, offset), k, w)
    ensures IsWindowAt(lines, size, Stride(size), Overlap(size), k, w)
  {
    if k > 0 { OneStepMore(k, Stride(size)); }
  }

  method MakeWindows(lines: seq<string>, size: nat) returns (windows: seq<Window>)
    requires LoopEnds(size, |lines|)
    ensures lines == [] ==> windows == []
    ensures lines != [] ==> AreWindows(lines, SpansFrom(size, |lines|, 0), windows)
    ensures lines != [] ==> AreWindowsOf(lines, size, windows)
  {
    windows := SlideWindows(lines, size);
    if lines != [] { SpansAreWindows(lines, size, windows); }
  }

  method SlideWindows(lines: seq<string>, size: nat) returns (windows: seq<Window>)
    requires LoopEnds(size, |lines|)
    ensures lines == [] ==> windows == []
    ensures lines != [] ==> AreWindows(lines, SpansFrom(size, |lines|, 0), windows)
  {
    windows := [];
    var offset := 0;
    ghost var done: seq<Span> := [];
    while offset < |lines|
      invariant AreWindows(lines, done, windows)
      invariant if lines == [] then windows == [] else Progress(size, |lines|, offset, done)
      decreases |lines| - offset
    {
      var w, end := MakeWindow(lines, size, offset, |windows|);
      OneMoreWindow(lines, done, windows, SpanAt(size, |lines|, offset), w);
      RoundGoesOn(size, |lines|, offset, done);
      windows := windows + [w];
      done := done + [SpanAt(size, |lines|, offset)];
      if end >= |lines| {
        assert done == SpansFrom(size, |lines|, 0);
        return;
      }
      NextRound(size, |lines|, offset);
      offset := offset + Stride(size);
      assert Progress(size, |lines|, offset, done);
    }
  }

  // ---- Groups -----------------------------------------------------------

  datatype Group = Group(start: nat, end: nat, heading: Option<string>)

  /** What comes back for one window. */
  datatype Reply = Reply(idx: nat, cutoff: nat, groups: seq<Group>)

  function ByIndex(r: Reply): int { r.idx }

  function ByStart(g: Group): int { g.start }

  /** The groups follow each other without gaps from `first` to `last`. */
  ghost predicate Tiles(groups: seq<Group>, first: nat, last: nat) {
    && groups != [] && groups[0].start == first && groups[|groups| - 1].end == last
    && (forall i :: 0 <= i < |groups| ==> groups[i].start <= groups[i].end)
    && (forall i :: 0 < i < |groups| ==> groups[i].start == groups[i - 1].end + 1)
  }

  function Kept(r: Reply): seq<Group> { Filter((g: Group) => r.idx == 0 || g.start >= r.cutoff, r.groups) }

  function KeptAll(rs: seq<Reply>): seq<Group> { if rs == [] then [] else Kept(rs[0]) + KeptAll(rs[1..]) }

  /** Sorted by window, cut to what each window answers for, sorted by line. */
  function Merged(raw: seq<Reply>): seq<Group> { StableSort(ByStart, KeptAll(StableSort(ByIndex, raw))) }

  /** Sorts by window, keeps what each window answers for, sorts by line; `None` when nothing is left. */
  method MergeGroups(raw: seq<Reply>) returns (merged: Option<seq<Group>>)
    ensures merged == if KeptAll(StableSort(ByIndex, raw)) == [] then None else Some(Merged(raw))
    ensures IsMerge(raw, if merged.Some? then merged.value else []) && merged != Some([])
  {
    MergedIsMerge(raw);
    StableSortSorts(ByStart, KeptAll(StableSort(ByIndex, raw)));
    var all := CollectGroups(raw);
    if all == [] {
      return None;
    }
    return Some(StableSort(ByStart, all));
  }

  method CollectGroups(raw: seq<Reply>) returns (all: seq<Group>)
    ensures all == KeptAll(StableSort(ByIndex, raw))
  {
    var sorted := StableSort(ByIndex, raw);
    all := [];
    assert sorted[0..] == sorted;
    for k := 0 to |sorted|
      invariant all + KeptAll(sorted[k..]) == KeptAll(sorted)
    {
      assert sorted[k..][0] == sorted[k] && sorted[k..][1..] == sorted[k + 1..];
      var kept := KeepGroups(sorted[k]);
      assert all + (kept + KeptAll(sorted[k + 1..])) == all + kept + KeptAll(sorted[k + 1..]);
      all := all + kept;
    }
    assert sorted[|sorted|..] == [];
    assert all + [] == all;
  }

  // ---- The merge in full ------------------------------------------------

  function Flat(parts: seq<seq<Group>>): seq<Group> { if parts == [] then [] else parts[0] + Flat(parts[1..]) }

  /** Of the first window every group counts; of a later one, those that start at its cutoff or behind. */
  ghost predicate IsKept(r: Reply, kept: seq<Group>) {
    && (r.idx == 0 ==> kept == r.groups)
    && (r.idx > 0 ==> IsFiltered((g: Group) => g.start >= r.cutoff, r.groups, kept))
  }

  /** In the order of the windows, what counts of each, and all of that in the order of the lines. */
  ghost predicate IsMerge(raw: seq<Reply>, merged: seq<Group>) {
    exists sorted, parts ::
      && IsStableSort((r: Reply) => r.idx, raw, sorted)
      && ArePartsOf(sorted, parts)
      && IsStableSort((g: Group) => g.start, Flat(parts), merged)
  }

  ghost predicate ArePartsOf(sorted: seq<Reply>, parts: seq<seq<Group>>) {
    |parts| == |sorted| && forall k :: 0 <= k < |parts| ==> IsKept(sorted[k], parts[k])
  }

  lemma {:induction false} AllAreKept(keep: Group -> bool, groups: seq<Group>)
    requires forall g :: g in groups ==> keep(g)
    ensures Filter(keep, groups) == groups
  {
    if groups != [] { AllAreKept(keep, groups[1..]); }
  }

  lemma {:induction false} KeptIsKept(r: Reply)
    ensures IsKept(r, Kept(r))
  {
    var keep := (g: Group) => r.idx == 0 || g.start >= r.cutoff;
    if r.idx == 0 {
      AllAreKept(keep, r.groups);
    } else {
      FilterIsFiltered(keep, (g: Group) => g.start >= r.cutoff, r.groups);
    }
  }

  lemma {:induction false} KeptAllIsFlat(rs: seq<Reply>) returns (parts: seq<seq<Group>>)
    ensures ArePartsOf(rs, parts) && Flat(parts) == KeptAll(rs)
  {
    if rs == [] {
      parts := [];
    } else {
      var rest := KeptAllIsFlat(rs[1..]);
      parts := [Kept(rs[0])] + rest;
      KeptIsKept(rs[0]);
      assert parts[1..] == rest;
      forall k | 0 <= k < |parts| ensures IsKept(rs[k], parts[k]) {
        if k > 0 { assert IsKept(rs[1..][k - 1], rest[k - 1]); }
      }
    }
  }

  lemma {:induction false} SameSort<T(!new)>(key: T -> int, other: T -> int, s: seq<T>)
    requires forall x :: key(x) == other(x)
    ensures StableSort(key, s) == StableSort(other, s)
  {
    if s != [] {
      SameSort(key, other, s[1..]);
      SameInsert(key, other, s[0], StableSort(key, s[1..]));
    }
  }

  lemma {:induction false} SameInsert<T(!new)>(key: T -> int, other: T -> int, x: T, s: seq<T>)
    requires forall y :: key(y) == other(y)
    ensures InsertBy(key, x, s) == InsertBy(other, x, s)
  {
    if s != [] { SameInsert(key, other, x, s[1..]); }
  }

  lemma {:induction false} MergedIsMerge(raw: seq<Reply>)
    ensures IsMerge(raw, Merged(raw))
  {
    var byIndex, byStart := (r: Reply) => r.idx, (g: Group) => g.start;
    var sorted := StableSort(byIndex, raw);
    SameSort(ByIndex, byIndex, raw);
    StableSortIsThat(byIndex, raw);
    var parts := KeptAllIsFlat(sorted);
    SameSort(ByStart, byStart, Flat(parts));
    StableSortIsThat(byStart, Flat(parts));
  }

  method KeepGroups(r: Reply) returns (kept: seq<Group>)
    ensures kept == Kept(r)
  {
    kept := [];
    var keep := (g: Group) => r.idx == 0 || g.start >= r.cutoff;
    for i := 0 to |r.groups|
      invariant kept == Filter(keep, r.groups[..i])
    {
      FilterOfSnoc(keep, r.groups, i);
      var g := r.groups[i];
      if r.idx == 0 || g.start >= r.cutoff {
        kept := kept + [g];
      }
    }
    assert r.groups[..|r.groups|] == r.groups;
  }

  // ---- Completion order is irrelevant -----------------------------------

  /** No two replies are for the same window. */
  ghost predicate DistinctWindows(rs: seq<Reply>) {
    forall i, j :: 0 <= i < j < |rs| ==> rs[i].idx != rs[j].idx
  }

  lemma {:induction false} SortedIsUnique<T>(key: T -> int, a: seq<T>, b: seq<T>)
    requires SortedBy(key, a) && SortedBy(key, b) && multiset(a) == multiset(b)
    requires forall i, j :: 0 <= i < j < |b| ==> key(b[i]) != key(b[j])
    ensures a == b
    decreases |b|
  {
    if b == [] {
      assert |multiset(a)| == |multiset(b)|;
    } else {
      FirstIsLeast(key, a, b);
      assert multiset(a) == multiset{a[0]} + multiset(a[1..]) by { assert a == [a[0]] + a[1..]; }
      assert multiset(b) == multiset{b[0]} + multiset(b[1..]) by { assert b == [b[0]] + b[1..]; }
      CancelOne(b[0], multiset(a[1..]), multiset(b[1..]));
      SortedIsUnique(key, a[1..], b[1..]);
    }
  }

  lemma {:induction false} FirstIsLeast<T>(key: T -> int, a: seq<T>, b: seq<T>)
    requires SortedBy(key, a) && SortedBy(key, b) && multiset(a) == multiset(b) && b != []
    requires forall i, j :: 0 <= i < j < |b| ==> key(b[i]) != key(b[j])
    ensures a != [] && a[0] == b[0]
  {
    assert b[0] in multiset(a);
    var i :| 0 <= i < |a| && a[i] == b[0];
    assert a[0] in multiset(b);
    var j :| 0 <= j < |b| && b[j] == a[0];
  }

  lemma {:induction false} SortKeepsDistinct(raw: seq<Reply>)
    requires DistinctWindows(raw)
    ensures DistinctWindows(StableSort(ByIndex, raw))
  {
    StableSortSorts(ByIndex, raw);
    var sorted := StableSort(ByIndex, raw);
    forall i, j | 0 <= i < j < |sorted| ensures sorted[i].idx != sorted[j].idx {
      if sorted[i].idx == sorted[j].idx { TwoOfOneWindow(raw, sorted, i, j); }
    }
  }

  lemma {:induction false} CountsTwice<T>(s: seq<T>, i: nat, j: nat)
    requires i < j < |s| && s[i] == s[j]
    ensures multiset(s)[s[i]] >= 2
  {
    assert s == s[..j] + s[j..];
    assert s[i] in multiset(s[..j]) && s[j] in multiset(s[j..]);
  }

  lemma {:induction false} TwoPlaces<T>(s: seq<T>, x: T) returns (p: nat, q: nat)
    requires multiset(s)[x] >= 2
    ensures p < q < |s| && s[p] == x && s[q] == x
  {
    assert x in multiset(s);
    p :| 0 <= p < |s| && s[p] == x;
    var rest := s[..p] + s[p + 1..];
    assert s == s[..p] + [s[p]] + s[p + 1..];
    assert x in multiset(rest);
    var r :| 0 <= r < |rest| && rest[r] == x;
    if r < p { p, q := r, p; } else { q := r + 1; }
  }

  /** A window that occurs twice in one order occurs twice in every other. */
  lemma {:induction false} TwoOfOneWindow(raw: seq<Reply>, sorted: seq<Reply>, i: nat, j: nat)
    requires multiset(raw) == multiset(sorted) && i < j < |sorted| && sorted[i].idx == sorted[j].idx
    ensures !DistinctWindows(raw)
  {
    if sorted[i] == sorted[j] {
      CountsTwice(sorted, i, j);
      var p, q := TwoPlaces(raw, sorted[i]);
      assert raw[p].idx == raw[q].idx;
    } else {
      assert sorted[i] in multiset(raw) && sorted[j] in multiset(raw);
      var p :| 0 <= p < |raw| && raw[p] == sorted[i];
      var q :| 0 <= q < |raw| && raw[q] == sorted[j];
      assert raw[p].idx == raw[q].idx && p != q;
      assert p < q || q < p;
    }
  }

  lemma {:induction false} ArrivalOrderIsUndone(a: seq<Reply>, b: seq<Reply>)
    requires DistinctWindows(a) && multiset(a) == multiset(b)
    ensures StableSort(ByIndex, a) == StableSort(ByIndex, b)
  {
    StableSortSorts(ByIndex, a);
    StableSortSorts(ByIndex, b);
    SortKeepsDistinct(a);
    SortedIsUnique(ByIndex, StableSort(ByIndex, b), StableSort(ByIndex, a));
  }

  /** For any groups whatever, tiled or not, the merge does not depend on the order of arrival. */
  lemma {:induction false} MergeIgnoresArrival(a: seq<Reply>, b: seq<Reply>)
    requires DistinctWindows(a) && multiset(a) == multiset(b)
    ensures Merged(a) == Merged(b)
  {
    ArrivalOrderIsUndone(a, b);
  }

  /** The replies of a run, in window order. */
  ghost predicate Replies(rs: seq<Reply>, spans: seq<Span>) {
    && |rs| == |spans|
    && forall k :: 0 <= k < |rs| ==>
         rs[k].idx == k && rs[k].cutoff == spans[k].cutoff && Tiles(rs[k].groups, spans[k].first, spans[k].last)
  }

  lemma {:induction false} RepliesAreSorted(rs: seq<Reply>, spans: seq<Span>)
    requires Replies(rs, spans)
    ensures DistinctWindows(rs) && StableSort(ByIndex, rs) == rs
  {
    StableSortOfSorted(ByIndex, rs);
  }

  // ---- What is kept -----------------------------------------------------

  /** Groups in line order with no line in two of them. */
  ghost predicate Apart(groups: seq<Group>) {
    && (forall i :: 0 <= i < |groups| ==> groups[i].start <= groups[i].end)
    && (forall i, j :: 0 <= i < j < |groups| ==> groups[i].end < groups[j].start)
  }

  ghost predicate Within(groups: seq<Group>, first: nat, last: nat) {
    forall g :: g in groups ==> first <= g.start && g.end <= last
  }

  lemma {:induction false} TilesInOrder(groups: seq<Group>, first: nat, last: nat, i: nat, j: nat)
    requires Tiles(groups, first, last) && i < j < |groups|
    ensures groups[i].end < groups[j].start
    decreases j - i
  {
    if i + 1 < j { TilesInOrder(groups, first, last, i + 1, j); }
  }

  lemma {:induction false} TilesAreApart(groups: seq<Group>, first: nat, last: nat)
    requires Tiles(groups, first, last)
    ensures Apart(groups) && Within(groups, first, last)
  {
    forall i, j | 0 <= i < j < |groups| ensures groups[i].end < groups[j].start {
      TilesInOrder(groups, first, last, i, j);
    }
    forall i | 0 <= i < |groups| ensures first <= groups[i].start && groups[i].end <= last {
      if i > 0 { TilesInOrder(groups, first, last, 0, i); }
      if i < |groups| - 1 { TilesInOrder(groups, first, last, i, |groups| - 1); }
    }
  }

  ghost predicate After(groups: seq<Group>, line: nat) { forall g :: g in groups ==> line < g.start }

  lemma {:induction false} TailIsApart(groups: seq<Group>)
    requires Apart(groups) && groups != []
    ensures Apart(groups[1..]) && After(groups[1..], groups[0].end)
  {
    forall g | g in groups[1..] ensures groups[0].end < g.start {
      var k :| 0 <= k < |groups[1..]| && groups[1..][k] == g;
      assert groups[k + 1] == g;
    }
  }

  lemma {:induction false} ConsIsApart(g: Group, rest: seq<Group>)
    requires Apart(rest) && After(rest, g.end) && g.start <= g.end
    ensures Apart([g] + rest)
  {
    forall k | 0 <= k < |rest| ensures g.end < rest[k].start { assert rest[k] in rest; }
  }

  lemma {:induction false} FilterKeepsApart(keep: Group -> bool, groups: seq<Group>)
    requires Apart(groups)
    ensures Apart(Filter(keep, groups))
    decreases |groups|
  {
    if groups != [] {
      TailIsApart(groups);
      FilterKeepsApart(keep, groups[1..]);
      ConsIsApart(groups[0], Filter(keep, groups[1..]));
    }
  }

  lemma {:induction false} KeptIsApart(r: Reply, span: Span, total: nat)
    requires Tiles(r.groups, span.first, span.last) && r.cutoff == span.cutoff
    requires r.idx == 0 ==> span.first == span.cutoff
    ensures Apart(Kept(r)) && Within(Kept(r), span.cutoff, span.last)
  {
    TilesAreApart(r.groups, span.first, span.last);
    FilterKeepsApart((g: Group) => r.idx == 0 || g.start >= r.cutoff, r.groups);
  }

  lemma {:induction false} ApartJoins(a: seq<Group>, b: seq<Group>, m: nat, lo: nat, hi: nat)
    requires Apart(a) && Within(a, lo, m) && Apart(b) && Within(b, m + 1, hi) && lo <= m < hi
    ensures Apart(a + b) && Within(a + b, lo, hi)
  {
    forall i, j | 0 <= i < |a| && 0 <= j < |b| ensures a[i].end < b[j].start {
      assert a[i] in a && b[j] in b;
    }
    forall g | g in a + b ensures lo <= g.start && g.end <= hi {
      assert g in a || g in b;
    }
  }

  lemma {:induction false} KeptAllIsApart(rs: seq<Reply>, spans: seq<Span>, total: nat, k: nat)
    requires Chained(spans, total) && spans[0].first == spans[0].cutoff && Replies(rs, spans) && k < |rs|
    ensures Apart(KeptAll(rs[k..])) && Within(KeptAll(rs[k..]), spans[k].cutoff, total)
    decreases |rs| - k
  {
    KeptIsApart(rs[k], spans[k], total);
    assert rs[k..][0] == rs[k] && rs[k..][1..] == rs[k + 1..];
    if k + 1 < |rs| {
      KeptAllIsApart(rs, spans, total, k + 1);
      OwnedInOrder(spans, total, k, k + 1);
      LastsGrow(spans, total, k);
      ApartJoins(Kept(rs[k]), KeptAll(rs[k + 1..]), spans[k].last, spans[k].cutoff, total);
    } else {
      assert Kept(rs[k]) + [] == Kept(rs[k]);
    }
  }

  lemma {:induction false} LastsGrow(spans: seq<Span>, total: nat, k: nat)
    requires Chained(spans, total) && k + 1 < |spans|
    ensures spans[k].last < total
    decreases |spans| - k
  {
    if k + 2 < |spans| { LastsGrow(spans, total, k + 1); }
  }

  /**
   * When groups tile their windows, every completion order merges to the kept
   * groups in line order, no line in two of them.
   */
  lemma {:induction false} MergeIsDeterministic(raw: seq<Reply>, rs: seq<Reply>, spans: seq<Span>, total: nat)
    requires Chained(spans, total) && spans[0].first == spans[0].cutoff && Replies(rs, spans)
    requires multiset(raw) == multiset(rs)
    ensures Merged(raw) == KeptAll(rs) && Apart(KeptAll(rs))
  {
    RepliesAreSorted(rs, spans);
    MergeIgnoresArrival(rs, raw);
    KeptAllIsApart(rs, spans, total, 0);
    assert rs[0..] == rs;
    var kept := KeptAll(rs);
    forall i, j | 0 <= i < j < |kept| ensures kept[i].start <= kept[j].start { }
    StableSortOfSorted(ByStart, kept);
  }

  // ---- Lines that are lost ----------------------------------------------

  ghost predicate Covers(groups: seq<Group>, line: nat) {
    exists g :: g in groups && g.start <= line <= g.end
  }

  /** `line` lies behind the cutoff of a later window, in the group of that window that straddles the cutoff. */
  ghost predicate LostAt(rs: seq<Reply>, k: nat, line: nat)
    requires k < |rs|
  {
    k > 0 && exists g :: g in rs[k].groups && g.start < rs[k].cutoff <= line <= g.end
  }

  lemma {:induction false} TilesCover(groups: seq<Group>, first: nat, last: nat, line: nat) returns (i: nat)
    requires Tiles(groups, first, last) && first <= line <= last
    ensures i < |groups| && groups[i].start <= line <= groups[i].end
    ensures forall j :: 0 <= j < |groups| && groups[j].start <= line <= groups[j].end ==> j == i
  {
    i := 0;
    while groups[i].end < line
      invariant i < |groups| && groups[i].start <= line
      decreases |groups| - i
    {
      i := i + 1;
    }
    TilesAreApart(groups, first, last);
  }

  lemma {:induction false} OwnLineIsKeptIff(rs: seq<Reply>, spans: seq<Span>, total: nat, k: nat, line: nat)
    requires Chained(spans, total) && spans[0].first == spans[0].cutoff && Replies(rs, spans)
    requires k < |rs| && spans[k].cutoff <= line <= spans[k].last
    ensures Covers(Kept(rs[k]), line) <==> !LostAt(rs, k, line)
  {
    var i := TilesCover(rs[k].groups, spans[k].first, spans[k].last, line);
    var g := rs[k].groups[i];
    if k == 0 || g.start >= rs[k].cutoff {
      assert g in Kept(rs[k]);
    }
  }

  lemma {:induction false} KeptAllHolds(rs: seq<Reply>, g: Group)
    ensures g in KeptAll(rs) <==> exists k :: 0 <= k < |rs| && g in Kept(rs[k])
    decreases |rs|
  {
    if rs != [] {
      KeptAllHolds(rs[1..], g);
      if k :| 0 <= k < |rs| && g in Kept(rs[k]) {
        if k > 0 { assert rs[1..][k - 1] == rs[k]; }
      }
      if g in KeptAll(rs[1..]) {
        var k :| 0 <= k < |rs[1..]| && g in Kept(rs[1..][k]);
        assert rs[k + 1] == rs[1..][k];
      }
    }
  }

  /**
   * A line is in the merge unless it lies at or behind the cutoff of a later
   * window, inside the one group of that window that straddles the cutoff.
   */
  lemma {:induction false} LineIsKeptIff(rs: seq<Reply>, spans: seq<Span>, total: nat, line: nat)
    requires Chained(spans, total) && spans[0].first == spans[0].cutoff && Replies(rs, spans)
    requires spans[0].cutoff <= line <= total
    ensures Covers(KeptAll(rs), line) <==> forall k :: 0 <= k < |rs| ==> !LostAt(rs, k, line)
  {
    var own := LinesArePartitioned(spans, total, line);
    OwnLineIsKeptIff(rs, spans, total, own, line);
    forall k | 0 <= k < |rs| && k != own ensures !LostAt(rs, k, line) && !Covers(Kept(rs[k]), line) {
      OtherWindowsAreSilent(rs, spans, total, k, line);
    }
    if Covers(KeptAll(rs), line) {
      var g :| g in KeptAll(rs) && g.start <= line <= g.end;
      KeptAllHolds(rs, g);
      var k :| 0 <= k < |rs| && g in Kept(rs[k]);
      assert Covers(Kept(rs[k]), line);
    }
    if Covers(Kept(rs[own]), line) {
      var g :| g in Kept(rs[own]) && g.start <= line <= g.end;
      KeptAllHolds(rs, g);
    }
  }

  lemma {:induction false} OtherWindowsAreSilent(rs: seq<Reply>, spans: seq<Span>, total: nat, k: nat, line: nat)
    requires Chained(spans, total) && spans[0].first == spans[0].cutoff && Replies(rs, spans) && k < |rs|
    requires !(spans[k].cutoff <= line <= spans[k].last)
    ensures !LostAt(rs, k, line) && !Covers(Kept(rs[k]), line)
  {
    KeptIsApart(rs[k], spans[k], total);
    TilesAreApart(rs[k].groups, spans[k].first, spans[k].last);
  }

  // ---- Put together -----------------------------------------------------

  /**
   * For a document cut by `MakeWindows` whose windows are tiled by their
   * groups: the windows answer for every line once, and the merge keeps every
   * line except those behind a cutoff in the group that straddles it.
   */
  lemma {:induction false} AgenticChunkingLines(size: nat, total: nat, raw: seq<Reply>, rs: seq<Reply>, line: nat)
    requires total > 0 && LoopEnds(size, total) && Replies(rs, SpansFrom(size, total, 0))
    requires multiset(raw) == multiset(rs) && 1 <= line <= total
    ensures Apart(Merged(raw))
    ensures Covers(Merged(raw), line) <==> forall k :: 0 <= k < |rs| ==> !LostAt(rs, k, line)
  {
    var spans := SpansFrom(size, total, 0);
    SpansChain(size, total, 0);
    MergeIsDeterministic(raw, rs, spans, total);
    LineIsKeptIff(rs, spans, total, line);
  }
}
