// `traverse` as it runs when `parallel_branches` is off: one branch at a time,
// updating the shared results and counters in place.
module SearchEngine {
  import opened Common
  import opened SearchModel
  import opened SearchRuns
  import opened SearchTheorems
  import opened SearchMeaning
  import opened SearchTour

  lemma {:induction false} StatsOfSnoc(a: seq<Event>, event: Event)
    ensures StatsOf(a + [event]) == Count(StatsOf(a), event)
  {
    var longer := a + [event];
    if a == [] {
      assert longer == [event] && longer[1..] == [];
    } else {
      StatsOfSnoc(a[1..], event);
      assert longer[1..] == a[1..] + [event] && longer[0] == a[0];
      CountCommutes(StatsOf(a[1..]), event, a[0]);
      assert StatsOf(longer) == Count(Count(StatsOf(a[1..]), event), a[0]);
    }
  }

  lemma {:induction false} JoinedWithin(a: seq<Event>, b: seq<Event>, wholeA: seq<Event>, wholeB: seq<Event>)
    requires multiset(a) <= multiset(wholeA) && multiset(b) <= multiset(wholeB)
    ensures multiset(a + b) <= multiset(wholeA + wholeB)
  {
  }

  lemma {:induction false} OutcomeAdds(log: seq<Event>, own: seq<Event>, o: Outcome)
    requires AmountsTo(own, o) && o.pruned == 0
    ensures Hits(log + own) == Hits(log) + o.hits
    ensures StatsOf(log + own) == StatsOf(log).(llmCalls := StatsOf(log).llmCalls + o.calls)
  {
    HitsOfAppend(log, own);
    CountsAdd(log, own);
  }

  class SearchSession {
    const engine: Engine
    var results: seq<SearchResult>
    var stats: Stats
    ghost var log: seq<Event>

    ghost predicate Valid()
      reads this
    {
      results == Hits(log) && stats == StatsOf(log)
    }

    predicate IsFull()
      reads this
    {
      |results| >= engine.config.maxResults
    }

    /** Some of the events of `whole`: all of them, in order, unless `results` filled up. */
    ghost predicate Covers(done: seq<Event>, whole: seq<Event>)
      reads this
    {
      multiset(done) <= multiset(whole) && (done == whole || IsFull())
    }

    lemma {:induction false} CoversAfter(first: seq<Event>, done: seq<Event>, rest: seq<Event>, whole: seq<Event>)
      requires Covers(done, rest) && whole == first + rest
      ensures Covers(first + done, whole)
    {
      JoinedWithin(first, done, first, rest);
    }

    constructor (e: Engine)
      ensures Valid() && engine == e && log == []
    {
      engine, results, stats, log := e, [], Stats(0, 0, 0, 0), [];
    }

    /** One lock section that updates the counters or pushes a result. */
    method Record(event: Event)
      requires Valid()
      modifies this
      ensures Valid() && log == old(log) + [event]
      ensures results == (if event.Found? then old(results) + [event.result] else old(results))
      ensures stats == Count(old(stats), event)
    {
      HitsOfAppend(log, [event]);
      StatsOfSnoc(log, event);
      if event.Found? { results := results + [event.result]; }
      stats := Count(stats, event);
      log := log + [event];
    }

    method PushAll(hits: seq<SearchResult>)
      requires Valid()
      modifies this
      ensures Valid() && log == old(log) + FoundAll(hits)
      ensures |results| >= |old(results)|
    {
      var i := 0;
      while i < |hits|
        invariant 0 <= i <= |hits| && Valid() && |results| >= |old(results)|
        invariant log + FoundAll(hits[i..]) == old(log) + FoundAll(hits)
      {
        assert hits[i..][0] == hits[i] && hits[i..][1..] == hits[i + 1..];
        assert log + ([Found(hits[i])] + FoundAll(hits[i + 1..])) == log + [Found(hits[i])] + FoundAll(hits[i + 1..]);
        Record(Found(hits[i]));
        i := i + 1;
      }
    }

    /** What a leaf comes to by itself, unless there are enough results. */
    method VerifyLeaf(id: NodeId, path: seq<string>) returns (ghost done: seq<Event>, ghost o: Outcome)
      requires Valid() && id in engine.store
      modifies this
      ensures Valid() && log == old(log) + done && |results| >= |old(results)|
      ensures Covers(done, LeafCheckTrace(engine, id, path))
      ensures IsLeafVisit(engine, id, path, o)
      ensures |old(results)| >= engine.config.maxResults ==> results == old(results) && stats == old(stats)
      ensures |old(results)| < engine.config.maxResults ==>
        results == old(results) + o.hits && stats == old(stats).(llmCalls := old(stats).llmCalls + o.calls)
    {
      o := LeafYields(engine, id, path);
      done := CheckLeaf(id, path);
      if |old(results)| < engine.config.maxResults { OutcomeAdds(old(log), done, o); }
    }

    method CheckLeaf(id: NodeId, path: seq<string>) returns (ghost done: seq<Event>)
      requires Valid() && id in engine.store
      modifies this
      ensures Valid() && log == old(log) + done && |results| >= |old(results)|
      ensures Covers(done, LeafCheckTrace(engine, id, path))
      ensures |old(results)| >= engine.config.maxResults ==> results == old(results) && stats == old(stats)
      ensures |old(results)| < engine.config.maxResults ==> done == LeafCheckTrace(engine, id, path)
    {
      Record(Looked);
      done := [Looked];
      if IsFull() || !PassesKeywordFilter(engine, engine.store[id]) {
        return;
      }
      AskLeaf(id, path);
      ghost var asked := [Called] + FoundAll(LeafHits(engine, id, path));
      done := [Looked] + asked;
      Associates(old(log), [Looked], asked);
    }

    method AskLeaf(id: NodeId, path: seq<string>)
      requires Valid() && id in engine.store
      modifies this
      ensures Valid() && log == old(log) + ([Called] + FoundAll(LeafHits(engine, id, path)))
      ensures |results| >= |old(results)|
    {
      Record(Called);
      var hits := LeafHits(engine, id, path);
      PushAll(hits);
      Associates(old(log), [Called], FoundAll(hits));
    }

    /** What a batch comes to, with one call for all. */
    method BatchVerifyNodes(ids: seq<NodeId>, path: seq<string>) returns (ghost o: Outcome)
      requires Valid() && forall k :: k in ids ==> k in engine.store
      modifies this
      ensures Valid() && log == old(log) + BatchTrace(engine, ids, path) && |results| >= |old(results)|
      ensures IsBatchVisit(engine, ids, path, 0, o)
      ensures results == old(results) + o.hits && stats == old(stats).(llmCalls := old(stats).llmCalls + o.calls)
    {
      o := BatchYields(engine, ids, path);
      OutcomeAdds(log, BatchTrace(engine, ids, path), o);
      AskBatch(ids, path);
    }

    method AskBatch(ids: seq<NodeId>, path: seq<string>)
      requires Valid() && forall k :: k in ids ==> k in engine.store
      modifies this
      ensures Valid() && log == old(log) + BatchTrace(engine, ids, path) && |results| >= |old(results)|
    {
      if ids == [] {
        return;
      }
      Record(Called);
      var hits := BatchHits(engine, ids, path);
      PushAll(hits);
      assert old(log) + ([Called] + FoundAll(hits)) == old(log) + [Called] + FoundAll(hits);
    }

    method Traverse(id: NodeId, path: seq<string>, depth: nat) returns (ghost done: seq<Event>)
      requires Valid() && id in engine.store
      requires engine.config.maxDepth < 255 && depth <= engine.config.maxDepth + 1
      modifies this
      ensures Valid() && log == old(log) + done && |results| >= |old(results)|
      ensures Covers(done, VisitTrace(engine, id, path, depth))
      decreases engine.config.maxDepth + 1 - depth, 4
    {
      Record(Visited(depth));
      var path' := path + [engine.store[id].title];
      ghost var inside := Inside(id, path', depth);
      done := [Visited(depth)] + inside;
      Associates(old(log), [Visited(depth)], inside);
      CoversAfter([Visited(depth)], inside, InsideTrace(engine, id, path', depth), VisitTrace(engine, id, path, depth));
    }

    method Inside(id: NodeId, path: seq<string>, depth: nat) returns (ghost done: seq<Event>)
      requires Valid() && id in engine.store
      requires engine.config.maxDepth < 255 && depth <= engine.config.maxDepth + 1
      modifies this
      ensures Valid() && log == old(log) + done && |results| >= |old(results)|
      ensures Covers(done, InsideTrace(engine, id, path, depth))
      decreases engine.config.maxDepth + 1 - depth, 3
    {
      done := [];
      if depth > engine.config.maxDepth {
        return;
      }
      if engine.store[id].IsLeaf() {
        ghost var o;
        done, o := VerifyLeaf(id, path);
        return;
      }
      var kids := GetChildren(engine, id);
      if kids == [] {
        return;
      }
      var candidates := Candidates(engine, kids);
      if depth < engine.config.maxDepth && AllLeaves(engine, candidates) {
        ghost var o := BatchVerifyNodes(candidates, path);
        done := BatchTrace(engine, candidates, path);
        return;
      }
      Record(Called);
      ghost var rest := Choose(|kids|, Selected(engine, id, path), Traced(engine, id, path), path, depth);
      done := [Called] + rest;
      Associates(old(log), [Called], rest);
      CoversAfter([Called], rest, PruneTrace(engine, id, path, depth), InsideTrace(engine, id, path, depth));
    }

    /** Counts the pruned children, then goes on unless there are enough results. */
    method Choose(kids: nat, selected: seq<Decision>, ids: seq<NodeId>, path: seq<string>, depth: nat)
      returns (ghost done: seq<Event>)
      requires Valid() && forall k :: k in ids ==> k in engine.store
      requires engine.config.maxDepth < 255 && depth <= engine.config.maxDepth
      modifies this
      ensures Valid() && log == old(log) + done && |results| >= |old(results)|
      ensures Covers(done, ChosenTrace(engine, kids, selected, ids, path, depth))
      decreases engine.config.maxDepth + 1 - depth, 2
    {
      var pruned := Pruned(kids - |selected|);
      Record(pruned);
      done := [pruned];
      if selected != [] {
        ghost var rest := PassGate(ids, path, depth);
        done := [pruned] + rest;
        Associates(old(log), [pruned], rest);
        CoversAfter([pruned], rest, [Looked] + AfterGateTrace(engine, ids, path, depth),
          ChosenTrace(engine, kids, selected, ids, path, depth));
      }
    }

    method PassGate(ids: seq<NodeId>, path: seq<string>, depth: nat) returns (ghost done: seq<Event>)
      requires Valid() && forall k :: k in ids ==> k in engine.store
      requires engine.config.maxDepth < 255 && depth <= engine.config.maxDepth
      modifies this
      ensures Valid() && log == old(log) + done && |results| >= |old(results)|
      ensures Covers(done, [Looked] + AfterGateTrace(engine, ids, path, depth))
      decreases engine.config.maxDepth + 1 - depth, 1
    {
      Record(Looked);
      done := [Looked];
      if IsFull() {
        return;
      }
      ghost var rest := Descend(ids, path, depth);
      done := [Looked] + rest;
      Associates(old(log), [Looked], rest);
      ghost var owed := AfterGateTrace(engine, ids, path, depth);
      CoversAfter([Looked], rest, owed, [Looked] + owed);
    }

    method Descend(ids: seq<NodeId>, path: seq<string>, depth: nat) returns (ghost done: seq<Event>)
      requires Valid() && forall k :: k in ids ==> k in engine.store
      requires engine.config.maxDepth < 255 && depth <= engine.config.maxDepth
      modifies this
      ensures Valid() && log == old(log) + done && |results| >= |old(results)|
      ensures Covers(done, AfterGateTrace(engine, ids, path, depth))
      decreases engine.config.maxDepth + 1 - depth, 0
    {
      if depth < engine.config.maxDepth && AllLeaves(engine, ids) && ids != [] {
        ghost var o := BatchVerifyNodes(ids, path);
        done := BatchTrace(engine, ids, path);
        return;
      }
      done := TraverseEach(ids, path, depth + 1);
    }

    /** The loop over the chosen children. */
    method TraverseEach(ids: seq<NodeId>, path: seq<string>, depth: nat) returns (ghost done: seq<Event>)
      requires Valid() && forall k :: k in ids ==> k in engine.store
      requires engine.config.maxDepth < 255 && depth <= engine.config.maxDepth + 1
      modifies this
      ensures Valid() && log == old(log) + done && |results| >= |old(results)|
      ensures Covers(done, BranchTrace(engine, ids, path, depth))
      decreases engine.config.maxDepth + 1 - depth, 5, 1
    {
      done := [];
      assert ids[..0] == [];
      for i := 0 to |ids|
        invariant Valid() && |results| >= |old(results)| && log == old(log) + done
        invariant Covers(done, BranchTrace(engine, ids[..i], path, depth))
      {
        done := TraverseOne(ids, i, path, depth, old(log), done);
      }
      assert ids[..|ids|] == ids;
    }

    /** One round of that loop. */
    method TraverseOne(
        ids: seq<NodeId>, i: nat, path: seq<string>, depth: nat, ghost start: seq<Event>, ghost before: seq<Event>)
      returns (ghost done: seq<Event>)
      requires Valid() && i < |ids| && forall k :: k in ids ==> k in engine.store
      requires engine.config.maxDepth < 255 && depth <= engine.config.maxDepth + 1
      requires log == start + before && Covers(before, BranchTrace(engine, ids[..i], path, depth))
      modifies this
      ensures Valid() && log == start + done && |results| >= |old(results)|
      ensures Covers(done, BranchTrace(engine, ids[..i + 1], path, depth))
      decreases engine.config.maxDepth + 1 - depth, 5, 0
    {
      ghost var visit := Traverse(ids[i], path, depth);
      ghost var all := VisitTrace(engine, ids[i], path, depth);
      done := before + visit;
      JoinedWithin(before, visit, BranchTrace(engine, ids[..i], path, depth), all);
      BranchOfSnoc(engine, ids, i, path, depth);
      Associates(start, before, visit);
    }
  }

  /** The branches up to and including the next one. */
  lemma {:induction false} BranchOfSnoc(e: Engine, ids: seq<NodeId>, i: nat, path: seq<string>, depth: nat)
    requires i < |ids| && forall k :: k in ids ==> k in e.store
    requires e.config.maxDepth < 255 && depth <= e.config.maxDepth + 1
    ensures BranchTrace(e, ids[..i + 1], path, depth)
         == BranchTrace(e, ids[..i], path, depth) + VisitTrace(e, ids[i], path, depth)
    decreases i
  {
    TailOfTake(ids, i + 1);
    if i == 0 {
      assert BranchTrace(e, ids[..1][1..], path, depth) == [];
    } else {
      TailOfTake(ids, i);
      BranchOfSnoc(e, ids[1..], i - 1, path, depth);
      Associates(VisitTrace(e, ids[0], path, depth), BranchTrace(e, ids[1..][..i - 1], path, depth),
        VisitTrace(e, ids[i], path, depth));
    }
  }

  /** `search`, one branch at a time: the same answer every parallel schedule gives. */
  method Search(e: Engine, root: NodeId) returns (response: SearchResponse, ghost tour: seq<Stop>)
    requires e.config.maxDepth < 255
    ensures root !in e.store ==> response == SearchResponse([], Stats(0, 0, 0, 0))
    ensures root in e.store ==> IsTour(e, root, tour) && IsAnswerTo(e, tour, response)
  {
    tour := [];
    if root !in e.store {
      return SearchResponse([], Stats(0, 0, 0, 0)), [];
    }
    tour := FullTour(e, root);
    var session := new SearchSession(e);
    ghost var done := session.Traverse(root, [], 0);
    assert session.log == done;
    var shared := Shared(session.results, session.stats);
    ghost var trace := VisitTrace(e, root, [], 0);
    EventsDecide(done, trace);
    SizesFollow(Hits(done), Hits(trace));
    RespondKeeps(e, shared);
    response := Respond(e, shared);
    AnswersTheTour(e, root, tour, response);
  }
}
