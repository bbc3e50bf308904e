// The tour of a search: all its visits, and that every run, parallel or not,
// finds and counts what they do.
module SearchTour {
  import opened Common
  import opened SearchModel
  import opened SearchRuns
  import opened SearchTheorems
  import opened SearchMeaning

  // ---- The whole tour ---------------------------------------------------

  /** A visit: `address` says which of the chosen children were taken on the way from the root. */
  datatype Stop = Stop(address: seq<nat>, id: NodeId, path: seq<string>, choice: Choice, outcome: Outcome)

  ghost predicate IsStop(e: Engine, s: Stop) {
    && s.id in e.store
    && IsChoice(e, s.id, s.path, s.choice)
    && Yields(e, s.id, s.path, |s.address|, s.choice, s.outcome)
  }

  /** `t` is the visit of the `i`-th child that `s` goes on to. */
  ghost predicate GoesOnTo(e: Engine, s: Stop, i: nat, t: Stop) {
    && i < |s.outcome.next| && t.id == s.outcome.next[i] && t.id in e.store
    && t.address == s.address + [i] && t.path == s.path + [e.store[t.id].title]
  }

  ghost predicate IsReached(e: Engine, tour: seq<Stop>, s: Stop, i: nat) {
    exists t :: t in tour && GoesOnTo(e, s, i, t)
  }

  ghost predicate ComesFrom(e: Engine, tour: seq<Stop>, t: Stop) {
    exists s, i: nat :: s in tour && GoesOnTo(e, s, i, t)
  }

  ghost predicate NoneTwice(tour: seq<Stop>) {
    forall i, j :: 0 <= i < j < |tour| ==> tour[i].address != tour[j].address
  }

  /**
   * The visits of a search: the root, and then each child that a visit goes on
   * to, once for each time it does, and nothing else.
   */
  ghost predicate IsTour(e: Engine, root: NodeId, tour: seq<Stop>)
    requires root in e.store
  {
    && NoneTwice(tour)
    && (forall s :: s in tour ==> IsStop(e, s))
    && (forall s, i: nat :: s in tour && i < |s.outcome.next| ==> IsReached(e, tour, s, i))
    && tour != [] && tour[0].address == [] && tour[0].id == root && tour[0].path == [e.store[root].title]
    && (forall t :: t in tour && t != tour[0] ==> ComesFrom(e, tour, t))
  }

  function AllHits(tour: seq<Stop>): seq<SearchResult> {
    if tour == [] then [] else tour[0].outcome.hits + AllHits(tour[1..])
  }

  /** Every visit counts once, and adds what it pruned and the calls it made. */
  function Tally(tour: seq<Stop>): Stats {
    if tour == [] then Stats(0, 0, 0, 0)
    else Plus(Stats(1, tour[0].outcome.pruned, |tour[0].address|, tour[0].outcome.calls), Tally(tour[1..]))
  }

  /** Counters add up, and the deeper depth counts. */
  function Plus(a: Stats, b: Stats): Stats {
    Stats(a.visited + b.visited, a.pruned + b.pruned, Max(a.deepest, b.deepest), a.llmCalls + b.llmCalls)
  }

  // ---- Sums over a tour -------------------------------------------------

  lemma {:induction false} PlusAssociates(a: Stats, b: Stats, c: Stats)
    ensures Plus(Plus(a, b), c) == Plus(a, Plus(b, c))
    ensures Plus(Stats(0, 0, 0, 0), a) == a
  {
  }

  lemma {:induction false} CountPlus(a: Stats, event: Event, b: Stats)
    ensures Count(Plus(a, b), event) == Plus(Count(a, event), b)
  {
  }

  lemma {:induction false} CountsAdd(a: seq<Event>, b: seq<Event>)
    ensures StatsOf(a + b) == Plus(StatsOf(a), StatsOf(b))
  {
    if a == [] {
      assert a + b == b;
      PlusAssociates(StatsOf(b), StatsOf(b), StatsOf(b));
    } else {
      TailOfAppend(a, b);
      CountsAdd(a[1..], b);
      CountPlus(StatsOf(a[1..]), a[0], StatsOf(b));
    }
  }

  lemma {:induction false} TailOfTours(a: seq<Stop>, b: seq<Stop>)
    requires a != []
    ensures (a + b)[0] == a[0] && (a + b)[1..] == a[1..] + b
  {
  }

  function OwnTally(s: Stop): Stats { Stats(1, s.outcome.pruned, |s.address|, s.outcome.calls) }

  lemma {:induction false} FirstTally(tour: seq<Stop>)
    requires tour != []
    ensures Tally(tour) == Plus(OwnTally(tour[0]), Tally(tour[1..]))
  {
  }

  lemma {:induction false} TalliesAdd(a: seq<Stop>, b: seq<Stop>)
    ensures Tally(a + b) == Plus(Tally(a), Tally(b))
  {
    if a == [] {
      assert a + b == b;
      PlusAssociates(Tally(b), Tally(b), Tally(b));
    } else {
      TailOfTours(a, b);
      TalliesAdd(a[1..], b);
      FirstTally(a);
      FirstTally(a + b);
      PlusAssociates(OwnTally(a[0]), Tally(a[1..]), Tally(b));
    }
  }

  lemma {:induction false} AllHitsAdd(a: seq<Stop>, b: seq<Stop>)
    ensures AllHits(a + b) == AllHits(a) + AllHits(b)
  {
    if a == [] {
      assert a + b == b;
    } else {
      TailOfTours(a, b);
      AllHitsAdd(a[1..], b);
      Associates(a[0].outcome.hits, AllHits(a[1..]), AllHits(b));
    }
  }

  /** The events find and count what the visits do. */
  ghost predicate Sums(trace: seq<Event>, tour: seq<Stop>) {
    Hits(trace) == AllHits(tour) && StatsOf(trace) == Tally(tour)
  }

  lemma {:induction false} SumsAdd(a: seq<Event>, tourA: seq<Stop>, b: seq<Event>, tourB: seq<Stop>)
    requires Sums(a, tourA) && Sums(b, tourB)
    ensures Sums(a + b, tourA + tourB)
  {
    HitsOfAppend(a, b);
    CountsAdd(a, b);
    TalliesAdd(tourA, tourB);
    AllHitsAdd(tourA, tourB);
  }

  lemma {:induction false} OneStopSums(s: Stop, own: seq<Event>)
    requires AmountsTo(own, s.outcome)
    ensures Sums([Visited(|s.address|)] + own, [s])
  {
    var depth := |s.address|;
    HitsOfAppend([Visited(depth)], own);
    CountsAdd([Visited(depth)], own);
    assert [s][1..] == [];
    assert AllHits([s]) == s.outcome.hits + [];
  }

  // ---- Building the tour ------------------------------------------------

  /** `t` lies under one of the children of `a` from the `i`-th on. */
  ghost predicate IsUnder(a: seq<nat>, i: nat, t: Stop) {
    |t.address| > |a| && t.address[..|a|] == a && t.address[|a|] >= i
  }

  ghost predicate IsAtOrUnder(a: seq<nat>, t: Stop) { |t.address| >= |a| && t.address[..|a|] == a }

  /** Closed under going on, and made of proper visits. */
  ghost predicate IsClosed(e: Engine, tour: seq<Stop>) {
    && NoneTwice(tour)
    && (forall s :: s in tour ==> IsStop(e, s))
    && (forall s, i: nat :: s in tour && i < |s.outcome.next| ==> IsReached(e, tour, s, i))
  }

  /** The visits under the children of `s` from the `i`-th on. */
  ghost predicate IsForest(e: Engine, s: Stop, i: nat, forest: seq<Stop>) {
    && IsClosed(e, forest)
    && (forall t :: t in forest ==> IsUnder(s.address, i, t) && ComesFrom(e, [s] + forest, t))
    && (forall j: nat :: i <= j < |s.outcome.next| ==> IsReached(e, forest, s, j))
  }

  /** The visits at and under `s`. */
  ghost predicate IsSubtour(e: Engine, s: Stop, tour: seq<Stop>) {
    && IsClosed(e, tour) && tour != [] && tour[0] == s
    && (forall t :: t in tour ==> IsAtOrUnder(s.address, t))
    && (forall t :: t in tour && t != s ==> ComesFrom(e, tour, t))
  }

  lemma {:induction false} ReachedInMore(e: Engine, tour: seq<Stop>, more: seq<Stop>, s: Stop, i: nat)
    requires IsReached(e, tour, s, i) && forall t :: t in tour ==> t in more
    ensures IsReached(e, more, s, i)
  {
  }

  lemma {:induction false} ComesFromMore(e: Engine, tour: seq<Stop>, more: seq<Stop>, t: Stop)
    requires ComesFrom(e, tour, t) && forall s :: s in tour ==> s in more
    ensures ComesFrom(e, more, t)
  {
  }

  lemma {:induction false} ClosedAdd(e: Engine, a: seq<Stop>, b: seq<Stop>)
    requires IsClosed(e, a) && IsClosed(e, b)
    requires forall s, t :: s in a && t in b ==> s.address != t.address
    ensures IsClosed(e, a + b)
  {
    forall s, i: nat | s in a + b && i < |s.outcome.next| ensures IsReached(e, a + b, s, i) {
      if s in a { ReachedInMore(e, a, a + b, s, i); } else { ReachedInMore(e, b, a + b, s, i); }
    }
  }

  lemma {:induction false} StopAndForest(e: Engine, s: Stop, forest: seq<Stop>)
    requires IsStop(e, s) && IsForest(e, s, 0, forest)
    ensures IsSubtour(e, s, [s] + forest)
  {
    var tour := [s] + forest;
    forall r, i: nat | r in tour && i < |r.outcome.next| ensures IsReached(e, tour, r, i) {
      ReachedInMore(e, forest, tour, r, i);
    }
    forall t | t in tour ensures IsAtOrUnder(s.address, t) {
      if t in forest { assert IsUnder(s.address, 0, t); }
    }
    forall i, j | 0 <= i < j < |tour| ensures tour[i].address != tour[j].address {
      if i == 0 { assert IsUnder(s.address, 0, tour[j]); }
    }
  }

  lemma {:induction false} SubtourIsForest(e: Engine, s: Stop, i: nat, t: Stop, tour: seq<Stop>, rest: seq<Stop>)
    requires GoesOnTo(e, s, i, t) && IsSubtour(e, t, tour) && IsForest(e, s, i + 1, rest)
    ensures IsForest(e, s, i, tour + rest)
  {
    var forest := tour + rest;
    forall u | u in tour ensures IsUnder(s.address, i, u) && u.address[|s.address|] == i {
      assert IsAtOrUnder(t.address, u);
      assert u.address[|s.address|] == t.address[|s.address|];
      assert u.address[..|s.address|] == t.address[..|s.address|];
    }
    forall u | u in rest ensures IsUnder(s.address, i, u) && u.address[|s.address|] > i {
      assert IsUnder(s.address, i + 1, u);
    }
    ClosedAdd(e, tour, rest);
    forall u | u in forest ensures ComesFrom(e, [s] + forest, u) {
      if u == t {
        assert s in [s] + forest;
      } else if u in tour {
        ComesFromMore(e, tour, [s] + forest, u);
      } else {
        ComesFromMore(e, [s] + rest, [s] + forest, u);
      }
    }
    forall j: nat | i <= j < |s.outcome.next| ensures IsReached(e, forest, s, j) {
      if j == i { assert t in forest; } else { ReachedInMore(e, rest, forest, s, j); }
    }
  }

  lemma {:induction false} TourFrom(e: Engine, id: NodeId, path: seq<string>, address: seq<nat>)
      returns (s: Stop, tour: seq<Stop>)
    requires id in e.store && e.config.maxDepth < 255 && |address| <= e.config.maxDepth + 1
    ensures s.address == address && s.id == id && s.path == path + [e.store[id].title]
    ensures IsSubtour(e, s, tour) && Sums(VisitTrace(e, id, path, |address|), tour)
    decreases e.config.maxDepth + 1 - |address|, 1
  {
    var here, depth := path + [e.store[id].title], |address|;
    ChoiceIsMade(e, id, here);
    var o, own := VisitYields(e, id, here, depth);
    s := Stop(address, id, here, TheChoice(e, id, here), o);
    OneStopSums(s, own);
    tour := TourBelow(e, s, own);
  }

  lemma {:induction false} TourBelow(e: Engine, s: Stop, own: seq<Event>) returns (tour: seq<Stop>)
    requires IsStop(e, s) && e.config.maxDepth < 255 && |s.address| <= e.config.maxDepth + 1
    requires IsWhole(e, own, s.outcome.next, s.path, |s.address|, InsideTrace(e, s.id, s.path, |s.address|))
    requires Sums([Visited(|s.address|)] + own, [s])
    ensures IsSubtour(e, s, tour)
    ensures Sums([Visited(|s.address|)] + InsideTrace(e, s.id, s.path, |s.address|), tour)
    decreases e.config.maxDepth + 1 - |s.address|, 0
  {
    var depth, next := |s.address|, s.outcome.next;
    if next == [] {
      StopAndForest(e, s, []);
      tour := [s] + [];
      assert tour == [s];
    } else {
      var forest := ForestFrom(e, s, 0);
      assert next[0..] == next;
      tour := [s] + forest;
      StopAndForest(e, s, forest);
      var rest := BranchTrace(e, next, s.path, depth + 1);
      SumsAdd([Visited(depth)] + own, [s], rest, forest);
      Associates([Visited(depth)], own, rest);
    }
  }

  lemma {:induction false} BranchSums(
      e: Engine, next: seq<NodeId>, i: nat, path: seq<string>, depth: nat, tour: seq<Stop>, rest: seq<Stop>)
    requires i < |next| && (forall k :: k in next ==> k in e.store) && e.config.maxDepth < 255
    requires depth <= e.config.maxDepth + 1
    requires Sums(VisitTrace(e, next[i], path, depth), tour) && Sums(BranchTrace(e, next[i + 1..], path, depth), rest)
    ensures Sums(BranchTrace(e, next[i..], path, depth), tour + rest)
  {
    assert next[i..][0] == next[i] && next[i..][1..] == next[i + 1..];
    SumsAdd(VisitTrace(e, next[i], path, depth), tour, BranchTrace(e, next[i + 1..], path, depth), rest);
  }

  lemma {:induction false} ForestFrom(e: Engine, s: Stop, i: nat) returns (forest: seq<Stop>)
    requires e.config.maxDepth < 255 && |s.address| <= e.config.maxDepth
    requires i <= |s.outcome.next| && forall k :: k in s.outcome.next ==> k in e.store
    ensures IsForest(e, s, i, forest)
    ensures Sums(BranchTrace(e, s.outcome.next[i..], s.path, |s.address| + 1), forest)
    decreases e.config.maxDepth - |s.address|, 2, |s.outcome.next| - i
  {
    var next := s.outcome.next;
    if i == |next| {
      forest := [];
    } else {
      var t, tour := TourFrom(e, next[i], s.path, s.address + [i]);
      var rest := ForestFrom(e, s, i + 1);
      forest := tour + rest;
      SubtourIsForest(e, s, i, t, tour, rest);
      BranchSums(e, next, i, s.path, |s.address| + 1, tour, rest);
    }
  }

  lemma {:induction false} FullTour(e: Engine, root: NodeId) returns (tour: seq<Stop>)
    requires root in e.store && e.config.maxDepth < 255
    ensures IsTour(e, root, tour) && Sums(VisitTrace(e, root, [], 0), tour)
  {
    var s;
    s, tour := TourFrom(e, root, [], []);
    assert [] + [e.store[root].title] == [e.store[root].title];
  }

  // ---- Every run --------------------------------------------------------

  /** The response is that of the tour: all of it, unless there is too much. */
  ghost predicate IsAnswerTo(e: Engine, tour: seq<Stop>, response: SearchResponse) {
    && |response.results| == Min(e.config.maxResults, |AllHits(tour)|)
    && multiset(response.results) <= multiset(AllHits(tour)) && Falls(response.results)
    && (|response.results| < e.config.maxResults ==>
          multiset(response.results) == multiset(AllHits(tour)) && response.stats == Tally(tour))
  }

  lemma {:induction false} AnswersTheTour(e: Engine, root: NodeId, tour: seq<Stop>, response: SearchResponse)
    requires root in e.store && e.config.maxDepth < 255 && Sums(VisitTrace(e, root, [], 0), tour)
    requires
      var trace := VisitTrace(e, root, [], 0);
      && |response.results| == Min(e.config.maxResults, |Hits(trace)|)
      && multiset(response.results) <= multiset(Hits(trace)) && Falls(response.results)
      && (|Hits(trace)| < e.config.maxResults ==>
            multiset(response.results) == multiset(Hits(trace)) && response.stats == StatsOf(trace))
    ensures IsAnswerTo(e, tour, response)
  {
  }

  /**
   * Whatever the schedule: the finished search has the results of its tour, each
   * as often as the tour finds it, and as many of them as may be returned; with
   * fewer than `max_results`, its counters are the sums over the visits.
   */
  lemma {:induction false} EveryScheduleTours(e: Engine, root: NodeId, turns: seq<Turn>) returns (tour: seq<Stop>)
    requires root in e.store && e.config.maxDepth < 255
    requires Run(e, Start(root), FRESH, turns).Some? && Finished(Run(e, Start(root), FRESH, turns).value.task)
    ensures IsTour(e, root, tour)
    ensures IsAnswerTo(e, tour, Respond(e, Run(e, Start(root), FRESH, turns).value.shared))
  {
    tour := FullTour(e, root);
    EveryScheduleAnswers(e, root, turns);
    AnswersTheTour(e, root, tour, Respond(e, Run(e, Start(root), FRESH, turns).value.shared));
  }

  lemma {:induction false} HitsOfStop(tour: seq<Stop>, s: Stop, r: SearchResult)
    requires s in tour && r in s.outcome.hits
    ensures r in AllHits(tour)
  {
    if s != tour[0] { HitsOfStop(tour[1..], s, r); }
  }

  /**
   * Completeness: with fewer than `max_results` results, no visited leaf that
   * shares a keyword with the query and that the reasoner finds relevant, asked
   * about the prompt, is missing.
   */
  lemma {:induction false} RelevantLeafIsFound(
      e: Engine, root: NodeId, tour: seq<Stop>, response: SearchResponse, s: Stop, prompt: string)
    requires root in e.store && IsTour(e, root, tour) && IsAnswerTo(e, tour, response)
    requires |response.results| < e.config.maxResults
    requires s in tour && |s.address| <= e.config.maxDepth && s.id in e.store && e.store[s.id].children == []
    requires e.reasoner.queryHasTerms ==>
      var text := TextOf(e.store[s.id]);
      e.reasoner.hasAnyTerm(e.store[s.id].summary) || e.reasoner.hasAnyTerm(text[..Min(500, |text|)])
    requires IsQuestion(e.store[s.id], prompt)
    requires e.reasoner.verify(prompt).relevant && e.reasoner.verify(prompt).confidence >= e.config.minConfidence
    ensures SearchResult(s.id, TextOf(e.store[s.id]), e.reasoner.verify(prompt).confidence, s.path) in response.results
  {
    var r := SearchResult(s.id, TextOf(e.store[s.id]), e.reasoner.verify(prompt).confidence, s.path);
    assert IsStop(e, s) && IsWorthAsking(e, e.store[s.id]);
    assert r in s.outcome.hits;
    HitsOfStop(tour, s, r);
    assert r in multiset(AllHits(tour));
  }

  /** The same for the leaves that are asked about in one call: the first 25 candidates, or chosen children. */
  lemma {:induction false} RelevantBatchIsFound(
      e: Engine, root: NodeId, tour: seq<Stop>, response: SearchResponse, s: Stop, ids: seq<NodeId>,
      inputs: seq<BatchInput>, i: nat)
    requires root in e.store && IsTour(e, root, tour) && IsAnswerTo(e, tour, response)
    requires |response.results| < e.config.maxResults
    requires s in tour && |s.address| < e.config.maxDepth && s.id in e.store && e.store[s.id].children != []
    requires s.choice.kids != [] && Leafy(e, ids)
    requires ids == if Leafy(e, s.choice.candidates) then s.choice.candidates else s.choice.chosen
    requires AreInputs(e, ids, inputs) && i < Min(25, |ids|) && i < |e.reasoner.batchVerify(inputs)|
    requires IsRelevant(e, e.reasoner.batchVerify(inputs)[i])
    ensures ids[i] in e.store
    ensures SearchResult(
      ids[i], TextOf(e.store[ids[i]]), e.reasoner.batchVerify(inputs)[i].confidence, s.path) in response.results
  {
    var r := SearchResult(
      ids[i], TextOf(e.store[ids[i]]), e.reasoner.batchVerify(inputs)[i].confidence, s.path);
    assert IsStop(e, s) && ids != [];
    assert IsBatch(e, ids, s.path, s.outcome.hits);
    RelevantIsInBatch(e, ids, s.path, s.outcome.hits, inputs, i);
    HitsOfStop(tour, s, r);
    assert r in multiset(AllHits(tour));
  }

  lemma {:induction false} SameInputs(e: Engine, ids: seq<NodeId>, a: seq<BatchInput>, b: seq<BatchInput>)
    requires AreInputs(e, ids, a) && AreInputs(e, ids, b)
    ensures a == b
  {
    forall i | 0 <= i < |a| ensures a[i] == b[i] { }
  }

  lemma {:induction false} RelevantIsInBatch(
      e: Engine, ids: seq<NodeId>, path: seq<string>, hits: seq<SearchResult>, inputs: seq<BatchInput>, i: nat)
    requires IsBatch(e, ids, path, hits) && AreInputs(e, ids, inputs)
    requires i < Min(25, |ids|) && i < |e.reasoner.batchVerify(inputs)|
    requires IsRelevant(e, e.reasoner.batchVerify(inputs)[i])
    ensures ids[i] in e.store
    ensures SearchResult(ids[i], TextOf(e.store[ids[i]]), e.reasoner.batchVerify(inputs)[i].confidence, path) in hits
  {
    var asked :| AreInputs(e, ids, asked)
      && AreBatchHits(e, ids[..Min(25, |ids|)], e.reasoner.batchVerify(asked), path, hits);
    SameInputs(e, ids, asked, inputs);
    var top, verdicts := ids[..Min(25, |ids|)], e.reasoner.batchVerify(inputs);
    var wanted := (p: Pair) => p.1.relevant && p.1.confidence >= e.config.minConfidence;
    var pairs: seq<Pair>, relevant: seq<Pair> :| ArePaired(top, verdicts, pairs) && AreHitsOf(e, relevant, path, hits)
      && IsFiltered(wanted, pairs, relevant);
    FilteredIsFilter(wanted, wanted, pairs, relevant);
    assert pairs[i] == (ids[i], verdicts[i]) && pairs[i] in relevant;
    var j :| 0 <= j < |relevant| && relevant[j] == pairs[i];
    assert IsHitOf(e, relevant[j].0, relevant[j].1, path, hits[j]);
  }

  // ---- A document that is one leaf --------------------------------------

  lemma {:induction false} OnlyStop(e: Engine, root: NodeId, tour: seq<Stop>, t: Stop)
    requires root in e.store && IsTour(e, root, tour) && tour[0].outcome.next == [] && t in tour
    ensures t == tour[0]
    decreases |t.address|
  {
    if t != tour[0] {
      assert ComesFrom(e, tour, t);
      var s, i: nat :| s in tour && GoesOnTo(e, s, i, t);
      OnlyStop(e, root, tour, s);
    }
  }

  lemma {:induction false} OneStop(e: Engine, root: NodeId, tour: seq<Stop>)
    requires root in e.store && IsTour(e, root, tour) && tour[0].outcome.next == []
    ensures tour == [tour[0]] && AllHits(tour) == tour[0].outcome.hits
  {
    if |tour| > 1 { OnlyStop(e, root, tour, tour[1]); }
    assert tour[1..] == [];
  }

  lemma {:induction false} LeafStopHas(e: Engine, s: Stop, prompt: string)
    requires IsStop(e, s) && |s.address| <= e.config.maxDepth && e.store[s.id].children == []
    requires IsWorthAsking(e, e.store[s.id]) && IsQuestion(e.store[s.id], prompt)
    requires IsRelevant(e, e.reasoner.verify(prompt))
    ensures s.outcome.next == []
    ensures s.outcome.hits
      == [SearchResult(s.id, TextOf(e.store[s.id]), e.reasoner.verify(prompt).confidence, s.path)]
  {
    assert IsLeafVisit(e, s.id, s.path, s.outcome);
  }

  lemma {:induction false} OneAnswer(e: Engine, tour: seq<Stop>, response: SearchResponse, r: SearchResult)
    requires IsAnswerTo(e, tour, response) && AllHits(tour) == [r] && e.config.maxResults > 0
    ensures response.results == [r]
  {
    assert response.results[0] in multiset(response.results);
  }

  /** Whatever the schedule, a root without children that is worth asking about and relevant is the one result. */
  lemma {:induction false} LoneLeafIsFound(e: Engine, root: NodeId, turns: seq<Turn>, prompt: string)
    requires root in e.store && e.store[root].children == [] && e.config.maxDepth < 255 && e.config.maxResults > 0
    requires Run(e, Start(root), FRESH, turns).Some? && Finished(Run(e, Start(root), FRESH, turns).value.task)
    requires IsWorthAsking(e, e.store[root]) && IsQuestion(e.store[root], prompt)
    requires IsRelevant(e, e.reasoner.verify(prompt))
    ensures Respond(e, Run(e, Start(root), FRESH, turns).value.shared).results == [SearchResult(
      root, TextOf(e.store[root]), e.reasoner.verify(prompt).confidence, [e.store[root].title])]
  {
    var tour := EveryScheduleTours(e, root, turns);
    LeafStopHas(e, tour[0], prompt);
    OneStop(e, root, tour);
    OneAnswer(e, tour, Respond(e, Run(e, Start(root), FRESH, turns).value.shared), tour[0].outcome.hits[0]);
  }
}
