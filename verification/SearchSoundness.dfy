// What a result means, and the one depth limit at which a search need not end.
module SearchSoundness {
  import opened Common
  import opened SearchModel
  import opened SearchRuns
  import opened SearchTheorems

  // ---- Soundness --------------------------------------------------------

  ghost predicate IsChild(e: Engine, parent: NodeId, k: NodeId) {
    parent in e.store && k in e.store[parent].children
  }

  /** Each node is stored, and is a child of the one before it. */
  ghost predicate Linked(e: Engine, chain: seq<NodeId>) {
    && (forall i :: 0 <= i < |chain| ==> chain[i] in e.store)
    && (forall i :: 0 < i < |chain| ==> IsChild(e, chain[i - 1], chain[i]))
  }

  function Titles(e: Engine, chain: seq<NodeId>): (titles: seq<string>)
    requires forall i :: 0 <= i < |chain| ==> chain[i] in e.store
    ensures |titles| == |chain|
  {
    if chain == [] then []
    else Titles(e, chain[..|chain| - 1]) + [e.store[chain[|chain| - 1]].title]
  }

  lemma {:induction false} TitlesOfSnoc(e: Engine, chain: seq<NodeId>, k: NodeId)
    requires Linked(e, chain + [k]) && Linked(e, chain) && k in e.store
    ensures Titles(e, chain + [k]) == Titles(e, chain) + [e.store[k].title]
  {
    assert (chain + [k])[..|chain|] == chain;
  }

  lemma {:induction false} LinkedOfSnoc(e: Engine, chain: seq<NodeId>, k: NodeId)
    requires Linked(e, chain) && k in e.store && (chain != [] ==> k in e.store[chain[|chain| - 1]].children)
    ensures Linked(e, chain + [k])
  {
  }

  /** Asked about this leaf alone, the reasoner said yes. */
  ghost predicate JudgedAlone(e: Engine, r: SearchResult)
    requires r.id in e.store
  {
    e.reasoner.verify(LeafPrompt(e.store[r.id])) == Verification(true, r.confidence)
  }

  /** Asked about the first 25 of `ids` at once, the reasoner said yes at the position of this leaf. */
  ghost predicate JudgedAmong(e: Engine, ids: seq<NodeId>, r: SearchResult)
    requires forall k :: k in ids ==> k in e.store
  {
    var top := Take(ids, MAX_BATCH_INPUTS);
    var verdicts := e.reasoner.batchVerify(BatchInputs(e, top));
    exists i :: 0 <= i < |top| && i < |verdicts| && top[i] == r.id && verdicts[i] == Verification(true, r.confidence)
  }

  /** Judged with the other candidates of its parent, or with the other children chosen under it. */
  ghost predicate JudgedUnder(e: Engine, parent: NodeId, r: SearchResult)
    requires parent in e.store
  {
    JudgedAmong(e, Candidates(e, GetChildren(e, parent)), r) || JudgedAmong(e, Traced(e, parent, r.path), r)
  }

  ghost predicate IsAnswer(e: Engine, r: SearchResult) {
    && r.id in e.store && e.store[r.id].IsLeaf()
    && r.content == e.store[r.id].GetContent()
    && r.confidence >= e.config.minConfidence
  }

  /**
   * The path of a result along `chain`: all titles when the leaf was judged
   * alone, all but its own when it was judged in a batch.
   */
  ghost predicate IsPlaced(e: Engine, chain: seq<NodeId>, r: SearchResult)
    requires chain != [] && Linked(e, chain) && chain[|chain| - 1] == r.id
  {
    || (JudgedAlone(e, r) && r.path == Titles(e, chain))
    || (|chain| > 1 && JudgedUnder(e, chain[|chain| - 2], r) && r.path == Titles(e, chain[..|chain| - 1]))
  }

  /** The result is an answer at the end of at most `links` child links below the end of `chain`. */
  ghost predicate IsAnswerBelow(e: Engine, chain: seq<NodeId>, links: int, r: SearchResult) {
    && IsAnswer(e, r)
    && exists below: seq<NodeId> {:trigger EndsBelow(e, chain, below, r)} ::
         |below| <= links && EndsBelow(e, chain, below, r)
  }

  ghost predicate EndsBelow(e: Engine, chain: seq<NodeId>, below: seq<NodeId>, r: SearchResult) {
    EndsAt(e, chain + below, r)
  }

  ghost predicate EndsAt(e: Engine, chain: seq<NodeId>, r: SearchResult) {
    chain != [] && Linked(e, chain) && chain[|chain| - 1] == r.id && IsPlaced(e, chain, r)
  }

  ghost predicate AnswersWithin(e: Engine, chain: seq<NodeId>, links: int, hits: seq<SearchResult>) {
    forall r :: r in hits ==> IsAnswerBelow(e, chain, links, r)
  }

  /** `chain` leads to `id`, with the titles in `path`. */
  ghost predicate Leads(e: Engine, chain: seq<NodeId>, id: NodeId, path: seq<string>) {
    chain != [] && Linked(e, chain) && chain[|chain| - 1] == id && path == Titles(e, chain)
  }

  lemma {:induction false} LeafHitsAnswer(e: Engine, chain: seq<NodeId>, id: NodeId, path: seq<string>, links: nat)
    requires Leads(e, chain, id, path) && e.store[id].IsLeaf()
    ensures AnswersWithin(e, chain, links, LeafHits(e, id, path))
  {
    forall r | r in LeafHits(e, id, path) ensures IsAnswerBelow(e, chain, links, r) {
      assert chain + [] == chain;
      assert EndsBelow(e, chain, [], r);
    }
  }

  lemma {:induction false} AcceptedHitsAnswer(
      e: Engine, ids: seq<NodeId>, verdicts: seq<Verification>, path: seq<string>, r: SearchResult) returns (i: nat)
    requires forall k :: k in ids ==> k in e.store
    requires r in AcceptedHits(e, ids, verdicts, path)
    ensures i < |ids| && i < |verdicts| && ids[i] == r.id && Accepts(e, verdicts[i])
    ensures verdicts[i] == Verification(true, r.confidence) && r.content == e.store[r.id].GetContent() && r.path == path
    decreases |ids|
  {
    var first := SearchResult(ids[0], e.store[ids[0]].GetContent(), verdicts[0].confidence, path);
    if Accepts(e, verdicts[0]) && r == first {
      i := 0;
    } else {
      i := AcceptedHitsAnswer(e, ids[1..], verdicts[1..], path, r);
      i := i + 1;
    }
  }

  lemma {:induction false} BatchHitIsJudged(e: Engine, ids: seq<NodeId>, path: seq<string>, r: SearchResult)
    requires forall k :: k in ids ==> k in e.store && e.store[k].IsLeaf()
    requires r in BatchHits(e, ids, path)
    ensures r.id in ids && r.path == path && IsAnswer(e, r) && JudgedAmong(e, ids, r)
  {
    var top := Take(ids, MAX_BATCH_INPUTS);
    var i := AcceptedHitsAnswer(e, top, e.reasoner.batchVerify(BatchInputs(e, top)), path, r);
    assert top[i] in ids;
  }

  lemma {:induction false} BatchHitEnds(
      e: Engine, chain: seq<NodeId>, from: NodeId, ids: seq<NodeId>, path: seq<string>, r: SearchResult)
    requires Leads(e, chain, from, path) && r.id in e.store && r.id in e.store[from].children && r.path == path
    requires ids == Candidates(e, GetChildren(e, from)) || ids == Traced(e, from, path)
    requires JudgedAmong(e, ids, r)
    ensures EndsBelow(e, chain, [r.id], r)
  {
    LinkedOfSnoc(e, chain, r.id);
    assert (chain + [r.id])[..|chain|] == chain;
    assert JudgedUnder(e, from, r);
  }

  /** The hits of a batch are children whose own position in the batch that was asked got a yes. */
  lemma {:induction false} BatchHitsAnswer(
      e: Engine, chain: seq<NodeId>, from: NodeId, ids: seq<NodeId>, path: seq<string>, links: nat)
    requires Leads(e, chain, from, path) && links >= 1
    requires forall k :: k in ids ==> k in e.store && e.store[k].IsLeaf() && k in e.store[from].children
    requires ids == Candidates(e, GetChildren(e, from)) || ids == Traced(e, from, path)
    ensures AnswersWithin(e, chain, links, BatchHits(e, ids, path))
  {
    forall r | r in BatchHits(e, ids, path) ensures IsAnswerBelow(e, chain, links, r) {
      BatchHitIsJudged(e, ids, path, r);
      BatchHitEnds(e, chain, from, ids, path, r);
    }
  }

  lemma {:induction false} CallHits(hits: seq<SearchResult>)
    ensures Hits([Called] + FoundAll(hits)) == hits
    ensures Hits([Looked] + ([Called] + FoundAll(hits))) == hits
  {
    FoundAllIsFree(hits);
    HitsOfAppend([Called], FoundAll(hits));
    HitsOfAppend([Looked], [Called] + FoundAll(hits));
  }

  lemma {:induction false} InsideAnswers(e: Engine, chain: seq<NodeId>, id: NodeId, path: seq<string>, depth: nat)
    requires Leads(e, chain, id, path) && e.config.maxDepth < 255 && depth <= e.config.maxDepth + 1
    ensures AnswersWithin(e, chain, e.config.maxDepth - depth, Hits(InsideTrace(e, id, path, depth)))
    decreases e.config.maxDepth + 1 - depth, 3
  {
    if depth <= e.config.maxDepth {
      if e.store[id].IsLeaf() {
        CallHits(LeafHits(e, id, path));
        LeafHitsAnswer(e, chain, id, path, e.config.maxDepth - depth);
      } else {
        InnerAnswers(e, chain, id, path, depth);
      }
    }
  }

  lemma {:induction false} InnerAnswers(e: Engine, chain: seq<NodeId>, id: NodeId, path: seq<string>, depth: nat)
    requires Leads(e, chain, id, path) && e.config.maxDepth < 255 && depth <= e.config.maxDepth
    requires !e.store[id].IsLeaf()
    ensures AnswersWithin(e, chain, e.config.maxDepth - depth, Hits(InsideTrace(e, id, path, depth)))
    decreases e.config.maxDepth + 1 - depth, 2, 1
  {
    var kids := GetChildren(e, id);
    var candidates := Candidates(e, kids);
    if kids == [] {
    } else if depth < e.config.maxDepth && AllLeaves(e, candidates) {
      CallHits(BatchHits(e, candidates, path));
      BatchHitsAnswer(e, chain, id, candidates, path, e.config.maxDepth - depth);
    } else {
      HitsOfAppend([Called], PruneTrace(e, id, path, depth));
      PruneAnswers(e, chain, id, path, depth);
    }
  }

  lemma {:induction false} PruneHits(
      e: Engine, kids: nat, selected: seq<Decision>, ids: seq<NodeId>, path: seq<string>, depth: nat)
    requires forall k :: k in ids ==> k in e.store
    requires e.config.maxDepth < 255 && depth <= e.config.maxDepth
    ensures var hits := Hits(ChosenTrace(e, kids, selected, ids, path, depth));
      hits == [] || hits == Hits(AfterGateTrace(e, ids, path, depth))
  {
    var gate := AfterGateTrace(e, ids, path, depth);
    HitsOfAppend([Looked], gate);
    HitsOfAppend([Pruned(kids - |selected|)], [Looked] + gate);
  }

  lemma {:induction false} PruneAnswers(e: Engine, chain: seq<NodeId>, id: NodeId, path: seq<string>, depth: nat)
    requires Leads(e, chain, id, path) && e.config.maxDepth < 255 && depth <= e.config.maxDepth
    ensures AnswersWithin(e, chain, e.config.maxDepth - depth, Hits(PruneTrace(e, id, path, depth)))
    decreases e.config.maxDepth + 1 - depth, 2, 0
  {
    PruneHits(e, |GetChildren(e, id)|, Selected(e, id, path), Traced(e, id, path), path, depth);
    AfterGateAnswers(e, chain, id, path, depth);
  }

  lemma {:induction false} AfterGateAnswers(e: Engine, chain: seq<NodeId>, id: NodeId, path: seq<string>, depth: nat)
    requires Leads(e, chain, id, path) && e.config.maxDepth < 255 && depth <= e.config.maxDepth
    ensures AnswersWithin(e, chain, e.config.maxDepth - depth,
      Hits(AfterGateTrace(e, Traced(e, id, path), path, depth)))
    decreases e.config.maxDepth + 1 - depth, 1
  {
    var ids := Traced(e, id, path);
    if depth < e.config.maxDepth && AllLeaves(e, ids) && ids != [] {
      CallHits(BatchHits(e, ids, path));
      BatchHitsAnswer(e, chain, id, ids, path, e.config.maxDepth - depth);
    } else {
      BranchAnswers(e, chain, id, ids, path, depth + 1);
    }
  }

  lemma {:induction false} BranchAnswers(
      e: Engine, chain: seq<NodeId>, id: NodeId, ids: seq<NodeId>, path: seq<string>, depth: nat)
    requires Leads(e, chain, id, path) && e.config.maxDepth < 255 && depth <= e.config.maxDepth + 1
    requires forall k :: k in ids ==> k in e.store && k in e.store[id].children
    ensures AnswersWithin(e, chain, e.config.maxDepth + 1 - depth, Hits(BranchTrace(e, ids, path, depth)))
    decreases e.config.maxDepth + 1 - depth, 4, |ids|
  {
    if ids != [] {
      var here, rest := VisitTrace(e, ids[0], path, depth), BranchTrace(e, ids[1..], path, depth);
      ChildAnswers(e, chain, id, ids[0], path, depth);
      BranchAnswers(e, chain, id, ids[1..], path, depth);
      HitsOfAppend(here, rest);
      AnswersJoin(e, chain, e.config.maxDepth + 1 - depth, Hits(here), Hits(rest));
    }
  }

  lemma {:induction false} AnswersJoin(
      e: Engine, chain: seq<NodeId>, links: int, a: seq<SearchResult>, b: seq<SearchResult>)
    requires AnswersWithin(e, chain, links, a) && AnswersWithin(e, chain, links, b)
    ensures AnswersWithin(e, chain, links, a + b)
  {
  }

  lemma {:induction false} ChildAnswers(
      e: Engine, chain: seq<NodeId>, id: NodeId, child: NodeId, path: seq<string>, depth: nat)
    requires Leads(e, chain, id, path) && e.config.maxDepth < 255 && depth <= e.config.maxDepth + 1
    requires child in e.store && child in e.store[id].children
    ensures AnswersWithin(e, chain, e.config.maxDepth + 1 - depth, Hits(VisitTrace(e, child, path, depth)))
    decreases e.config.maxDepth + 1 - depth, 4, 0
  {
    var inside := InsideTrace(e, child, path + [e.store[child].title], depth);
    LinkedOfSnoc(e, chain, child);
    TitlesOfSnoc(e, chain, child);
    InsideAnswers(e, chain + [child], child, path + [e.store[child].title], depth);
    HitsOfAppend([Visited(depth)], inside);
    OneLinkAbove(e, chain, child, e.config.maxDepth - depth, Hits(inside));
  }

  lemma {:induction false} EndsOneAbove(
      e: Engine, chain: seq<NodeId>, child: NodeId, below: seq<NodeId>, r: SearchResult)
    requires EndsBelow(e, chain + [child], below, r)
    ensures EndsBelow(e, chain, [child] + below, r)
  {
    Associates(chain, [child], below);
  }

  lemma {:induction false} OneAnswerAbove(e: Engine, chain: seq<NodeId>, child: NodeId, links: int, r: SearchResult)
    requires IsAnswerBelow(e, chain + [child], links, r)
    ensures IsAnswerBelow(e, chain, links + 1, r)
  {
    var below: seq<NodeId> :| |below| <= links && EndsBelow(e, chain + [child], below, r);
    EndsOneAbove(e, chain, child, below, r);
  }

  lemma {:induction false} OneLinkAbove(
      e: Engine, chain: seq<NodeId>, child: NodeId, links: int, hits: seq<SearchResult>)
    requires AnswersWithin(e, chain + [child], links, hits)
    ensures AnswersWithin(e, chain, links + 1, hits)
  {
    forall r | r in hits ensures IsAnswerBelow(e, chain, links + 1, r) { OneAnswerAbove(e, chain, child, links, r); }
  }

  lemma {:induction false} RootLeads(e: Engine, root: NodeId)
    requires root in e.store
    ensures Leads(e, [root], root, [] + [e.store[root].title])
  {
    assert [root][..0] == [];
  }

  lemma {:induction false} RootAnswers(e: Engine, root: NodeId)
    requires root in e.store && e.config.maxDepth < 255
    ensures AnswersWithin(e, [root], e.config.maxDepth, Hits(VisitTrace(e, root, [], 0)))
  {
    var path := [] + [e.store[root].title];
    RootLeads(e, root);
    InsideAnswers(e, [root], root, path, 0);
    HitsOfAppend([Visited(0)], InsideTrace(e, root, path, 0));
  }

  /**
   * In every run, finished or not: each result is a leaf at most `max_depth`
   * child links below the root, with its own content and the titles on the way,
   * that the reasoner judged relevant with at least the minimum confidence.
   */
  lemma {:induction false} EveryResultIsAnAnswer(e: Engine, root: NodeId, turns: seq<Turn>)
    requires root in e.store && e.config.maxDepth < 255
    requires Run(e, Start(root), FRESH, turns).Some?
    ensures AnswersWithin(e, [root], e.config.maxDepth,
      Respond(e, Run(e, Start(root), FRESH, turns).value.shared).results)
  {
    var p := Run(e, Start(root), FRESH, turns).value;
    var trace := VisitTrace(e, root, [], 0);
    RunFromRoot(e, root, turns);
    EventsDecide(p.log, trace);
    RootAnswers(e, root);
    RespondKeeps(e, p.shared);
    var results := Respond(e, p.shared).results;
    forall r | r in results ensures r in Hits(trace) {
      assert r in multiset(results);
      assert r in multiset(Hits(p.log));
    }
  }

  // ---- What is explored -------------------------------------------------

  /** The keyword filter never leaves fewer candidates than the beam is wide, unless there are fewer children. */
  lemma {:induction false} EnoughCandidates(e: Engine, kids: seq<NodeId>)
    requires forall k :: k in kids ==> k in e.store
    ensures |Candidates(e, kids)| >= Min(EffectiveBeam(e, kids), |kids|)
    ensures Candidates(e, kids) != kids ==> forall k :: k in kids ==>
      (k in Candidates(e, kids) <==> e.reasoner.hasAnyTerm(e.store[k].summary))
  {
  }

  /** The cap keeps up to 30 candidates, and drops none that scores higher than one it keeps. */
  lemma {:induction false} CapKeepsBest(e: Engine, candidates: seq<NodeId>) returns (dropped: seq<NodeId>)
    ensures |CappedCandidates(e, candidates)| == Min(|candidates|, MAX_DECIDE_CANDIDATES)
    ensures multiset(CappedCandidates(e, candidates) + dropped) == multiset(candidates)
    ensures forall k, d :: k in CappedCandidates(e, candidates) && d in dropped ==>
      CandidateScore(e, k) >= CandidateScore(e, d)
  {
    var capped := CappedCandidates(e, candidates);
    if |candidates| <= MAX_DECIDE_CANDIDATES {
      dropped := [];
      assert capped + dropped == candidates;
    } else {
      var key := k => -CandidateScore(e, k);
      var sorted := StableSort(key, candidates);
      StableSortSorts(key, candidates);
      assert capped == sorted[..MAX_DECIDE_CANDIDATES];
      dropped := sorted[MAX_DECIDE_CANDIDATES..];
      assert capped + dropped == sorted;
      forall k, d | k in capped && d in dropped ensures CandidateScore(e, k) >= CandidateScore(e, d) {
        var i :| 0 <= i < |capped| && capped[i] == k;
        var j :| 0 <= j < |dropped| && dropped[j] == d;
        assert key(sorted[i]) <= key(sorted[MAX_DECIDE_CANDIDATES + j]);
      }
    }
  }

  function AskedContext(e: Engine, id: NodeId, path: seq<string>): string
    requires id in e.store
  {
    if e.config.includePath then Join(path, " > ") else e.store[id].summary
  }

  function Replies(e: Engine, id: NodeId, path: seq<string>): seq<Decision>
    requires id in e.store
  {
    var kids := GetChildren(e, id);
    e.reasoner.decide(AskedContext(e, id, path), CappedCandidates(e, Candidates(e, kids)), EffectiveBeam(e, kids))
  }

  lemma {:induction false} TakeHolds<T>(s: seq<T>, n: nat, x: T)
    requires x in Take(s, n)
    ensures x in s
  {
  }

  lemma {:induction false} SelectedIsConfident(e: Engine, id: NodeId, path: seq<string>, d: Decision)
    requires id in e.store && d in Selected(e, id, path)
    ensures d in Replies(e, id, path) && d.confidence >= e.config.minConfidence
  {
    var confident := Filter((d: Decision) => d.confidence >= e.config.minConfidence, Replies(e, id, path));
    TakeHolds(confident, EffectiveBeam(e, GetChildren(e, id)), d);
  }

  /** A child is explored only if the reasoner, asked about the capped candidates, chose it with enough confidence. */
  lemma {:induction false} ExploredWasChosen(e: Engine, id: NodeId, path: seq<string>, k: NodeId) returns (d: Decision)
    requires id in e.store && k in Traced(e, id, path)
    ensures k in GetChildren(e, id) && d.id == k
    ensures d in Replies(e, id, path) && d.confidence >= e.config.minConfidence
    ensures |Traced(e, id, path)| <= EffectiveBeam(e, GetChildren(e, id))
  {
    var selected := Selected(e, id, path);
    var ids := Map((d: Decision) => d.id, selected);
    assert k in ids;
    var i :| 0 <= i < |ids| && ids[i] == k;
    d := selected[i];
    assert d in selected;
    SelectedIsConfident(e, id, path, d);
  }

  // ---- The depth limit that never fires ---------------------------------

  /** A node that is its own child, searched with `max_depth` 255. */
  const LOOP: Engine := Engine(
    SearchConfig(1, 255, 1, 0, true, true),
    map["loop" := PageNode("", "", None, ["loop"])],
    Reasoner((c, ids, n) => [Decision("loop", 0)], c => Verification(false, 0), ins => [], false, s => false, s => 0))

  ghost predicate Spins(t: Task) {
    match t
    case At(f) =>
      (f.Visit? || f.Decide? || f.Prune? || f.Gate?) && f.id == "loop" && f.depth < 256
    case Then(a, b) => Spins(a) && b == Done
    case _ => false
  }

  lemma {:induction false} LoopChoosesItself(path: seq<string>)
    ensures GetChildren(LOOP, "loop") == ["loop"]
    ensures Candidates(LOOP, ["loop"]) == ["loop"]
    ensures |Selected(LOOP, "loop", path)| == 1 && Traced(LOOP, "loop", path) == ["loop"]
  {
    assert LOOP.store["loop"].children == ["loop"];
    assert GetChildren(LOOP, "loop") == ["loop"] by {
      assert Filter((k: NodeId) => k in LOOP.store, ["loop"][1..]) == [];
    }
    var kept := Filter((d: Decision) => d.confidence >= LOOP.config.minConfidence, [Decision("loop", 0)]);
    assert kept == [Decision("loop", 0)];
    assert EffectiveBeam(LOOP, ["loop"]) == 1;
    assert Selected(LOOP, "loop", path) == [Decision("loop", 0)];
    assert Map((d: Decision) => d.id, [Decision("loop", 0)]) == ["loop"];
  }

  lemma {:induction false} FrameSpins(f: Frame, sh: Shared)
    requires Spins(At(f)) && sh.results == []
    ensures StoredFrame(LOOP, f) && Spins(LockSection(LOOP, f, sh).task)
    ensures Apply(sh, LockSection(LOOP, f, sh).event).results == []
  {
    LoopChoosesItself(f.path);
    LoopChoosesItself(f.path + [""]);
    assert ["loop"][1..] == [];
    assert Branches([], f.path, NextDepth(f.depth), RunsParallel(LOOP, ["loop"])) == Done;
  }

  lemma {:induction false} TaskSpins(t: Task, sh: Shared)
    requires Spins(t) && sh.results == []
    ensures !Finished(t) && Stored(LOOP, t) && Step(LOOP, t, sh, NextTurn(t)).Some?
    ensures var s := Step(LOOP, t, sh, NextTurn(t)).value; Spins(s.task) && Apply(sh, s.event).results == []
    decreases t
  {
    if t.At? { FrameSpins(t.frame, sh); } else { TaskSpins(t.first, sh); }
  }

  /** With `max_depth` 255 the depth guard never fires: this search has runs of every length. */
  lemma {:induction false} SearchNeedNotEnd(n: nat) returns (turns: seq<Turn>)
    ensures LOOP.config.maxDepth == 255 && |turns| == n
    ensures Run(LOOP, Start("loop"), FRESH, turns).Some?
    ensures !Finished(Run(LOOP, Start("loop"), FRESH, turns).value.task)
  {
    turns := SpinOn(Start("loop"), FRESH, n);
  }

  lemma {:induction false} SpinOn(t: Task, sh: Shared, n: nat) returns (turns: seq<Turn>)
    requires Spins(t) && sh.results == []
    ensures Stored(LOOP, t) && |turns| == n && Run(LOOP, t, sh, turns).Some?
    ensures !Finished(Run(LOOP, t, sh, turns).value.task)
    decreases n
  {
    TaskSpins(t, sh);
    if n == 0 {
      turns := [];
    } else {
      var s := Step(LOOP, t, sh, NextTurn(t)).value;
      var rest := SpinOn(s.task, Apply(sh, s.event), n - 1);
      turns := [NextTurn(t)] + rest;
    }
  }
}
