// What a search finds and counts, said without the traversal: which nodes are
// visited, what each visit finds, and that the answer is exactly that.
module SearchMeaning {
  import opened Common
  import opened SearchModel
  import opened SearchRuns
  import opened SearchTheorems

  // ---- What is weighed up at one node -----------------------------------

  /** From the children of a node to those that are descended into. */
  datatype Choice = Choice(
    kids: seq<NodeId>,                          // the children that are stored
    beam: nat,
    matching: seq<NodeId>,                      // of them, those whose summaries match the query
    candidates: seq<NodeId>,
    asked: seq<NodeId>,                         // those that the reasoner is shown
    replies: seq<Decision>,
    confident: seq<Decision>,
    named: seq<NodeId>,                         // by the first `beam` confident replies
    chosen: seq<NodeId>)                        // of them, those that are children

  ghost predicate Leafy(e: Engine, ids: seq<NodeId>) {
    forall k :: k in ids ==> k in e.store && e.store[k].children == []
  }

  /** The keyword filter applies unless it leaves fewer than the beam, and fewer than there are. */
  ghost predicate IsShortlist(e: Engine, id: NodeId, c: Choice)
    requires id in e.store
  {
    && IsFiltered(k => k in e.store, e.store[id].children, c.kids)
    && (|c.kids| <= 20 ==> c.beam == e.config.beamWidth)
    && (20 < |c.kids| <= 50 ==> c.beam == 2 * e.config.beamWidth)
    && (50 < |c.kids| ==> c.beam == 4 * e.config.beamWidth)
    && IsFiltered(k => k in e.store && e.reasoner.hasAnyTerm(e.store[k].summary), c.kids, c.matching)
    && c.candidates == if |c.matching| < c.beam && |c.matching| < |c.kids| then c.kids else c.matching
  }

  /** Inner nodes score 100 more, and then the keywords in the summary count. */
  ghost predicate IsScore(e: Engine, score: NodeId -> int) {
    forall k :: k in e.store ==>
      score(k) == (if e.store[k].children != [] then 100 else 0)
        + if e.reasoner.queryHasTerms then e.reasoner.keywordScore(e.store[k].summary) else 0
  }

  /** `ranked` is `ids` by falling score, and in their order where scores are equal. */
  ghost predicate IsRanked(score: NodeId -> int, ids: seq<NodeId>, ranked: seq<NodeId>) {
    && multiset(ranked) == multiset(ids)
    && (forall i, j :: 0 <= i < j < |ranked| ==> score(ranked[i]) >= score(ranked[j]))
    && (forall v :: SameWith(score, v, ranked, ids))
  }

  ghost predicate SameWith(score: NodeId -> int, v: int, a: seq<NodeId>, b: seq<NodeId>) {
    Filter(k => -score(k) == v, a) == Filter(k => -score(k) == v, b)
  }

  /** The reasoner is shown the 30 candidates that score best. */
  ghost predicate IsAsked(e: Engine, c: Choice) {
    && (|c.candidates| <= 30 ==> c.asked == c.candidates)
    && (|c.candidates| > 30 ==>
          exists score, ranked :: IsScore(e, score) && IsRanked(score, c.candidates, ranked)
            && |c.asked| == 30 && c.asked <= ranked)
  }

  /** The first `beam` confident replies count, when they name a child. */
  ghost predicate IsAnswered(e: Engine, id: NodeId, path: seq<string>, c: Choice)
    requires id in e.store
  {
    && (e.config.includePath ==>
          exists context :: IsJoined(path, " > ", context) && c.replies == e.reasoner.decide(context, c.asked, c.beam))
    && (!e.config.includePath ==> c.replies == e.reasoner.decide(e.store[id].summary, c.asked, c.beam))
    && IsFiltered((d: Decision) => d.confidence >= e.config.minConfidence, c.replies, c.confident)
    && |c.named| == Min(c.beam, |c.confident|)
    && (forall i :: 0 <= i < |c.named| ==> c.named[i] == c.confident[i].id)
    && IsFiltered(k => k in c.kids, c.named, c.chosen)
  }

  ghost predicate IsChoice(e: Engine, id: NodeId, path: seq<string>, c: Choice)
    requires id in e.store
  {
    IsShortlist(e, id, c) && IsAsked(e, c) && IsAnswered(e, id, path, c)
  }

  // ---- What one visit comes to ------------------------------------------

  /** What a visit finds by itself, what it counts, and where it goes on. */
  datatype Outcome = Outcome(hits: seq<SearchResult>, calls: nat, pruned: int, next: seq<NodeId>)

  const NOTHING: Outcome := Outcome([], 0, 0, [])

  function TextOf(n: PageNode): string {
    if n.content.Some? then n.content.value else "[No content - internal node]"
  }

  /** The leaf shares a keyword with the query, in its summary or in the first 500 characters of its text. */
  ghost predicate IsWorthAsking(e: Engine, n: PageNode) {
    e.reasoner.queryHasTerms ==>
      e.reasoner.hasAnyTerm(n.summary) || e.reasoner.hasAnyTerm(TextOf(n)[..Min(500, |TextOf(n)|)])
  }

  /** The text a leaf is judged by: behind the first 300 characters of a summary that says something else. */
  ghost predicate IsQuestion(n: PageNode, prompt: string) {
    && (n.summary == "" || n.summary == TextOf(n) ==> prompt == TextOf(n))
    && (n.summary != "" && n.summary != TextOf(n) ==>
          prompt == "[Section summary: " + n.summary[..Min(300, |n.summary|)] + "]\n\n" + TextOf(n))
  }

  ghost predicate IsRelevant(e: Engine, v: Verification) { v.relevant && v.confidence >= e.config.minConfidence }

  /** The one result of a leaf that is relevant, when it is asked about alone. */
  ghost predicate IsLeafVisit(e: Engine, id: NodeId, path: seq<string>, o: Outcome)
    requires id in e.store
  {
    var n := e.store[id];
    && o.pruned == 0 && o.next == []
    && (!IsWorthAsking(e, n) ==> o.calls == 0 && o.hits == [])
    && (IsWorthAsking(e, n) ==> o.calls == 1)
    && (IsWorthAsking(e, n) ==>
          exists prompt :: IsQuestion(n, prompt) && IsLeafVerdict(e, id, path, e.reasoner.verify(prompt), o.hits))
  }

  ghost predicate IsLeafVerdict(e: Engine, id: NodeId, path: seq<string>, v: Verification, hits: seq<SearchResult>)
    requires id in e.store
  {
    hits == if IsRelevant(e, v) then [SearchResult(id, TextOf(e.store[id]), v.confidence, path)] else []
  }

  /** The short text a leaf has in a batch: 200 characters of its summary, or 180 of its text. */
  ghost predicate IsInput(n: PageNode, input: string) {
    && (n.summary != "" ==> input == n.summary[..Min(200, |n.summary|)])
    && (n.summary == "" ==> input == TextOf(n)[..Min(180, |TextOf(n)|)])
  }

  /** The first 25 are asked about. */
  ghost predicate AreInputs(e: Engine, ids: seq<NodeId>, inputs: seq<BatchInput>) {
    && |inputs| == Min(25, |ids|)
    && forall i :: 0 <= i < |inputs| ==>
         ids[i] in e.store && inputs[i].id == ids[i] && IsInput(e.store[ids[i]], inputs[i].content)
  }

  type Pair = (NodeId, Verification)

  ghost predicate ArePaired(ids: seq<NodeId>, verdicts: seq<Verification>, pairs: seq<Pair>) {
    |pairs| == Min(|ids|, |verdicts|) && forall i :: 0 <= i < |pairs| ==> pairs[i] == (ids[i], verdicts[i])
  }

  ghost predicate AreHitsOf(e: Engine, pairs: seq<Pair>, path: seq<string>, hits: seq<SearchResult>) {
    && |hits| == |pairs|
    && forall i :: 0 <= i < |hits| ==> IsHitOf(e, pairs[i].0, pairs[i].1, path, hits[i])
  }

  ghost predicate IsHitOf(e: Engine, id: NodeId, v: Verification, path: seq<string>, hit: SearchResult) {
    id in e.store && hit == SearchResult(id, TextOf(e.store[id]), v.confidence, path)
  }

  /** A verdict counts for the leaf at its own position; the results are in that order. */
  ghost predicate AreBatchHits(
      e: Engine, ids: seq<NodeId>, verdicts: seq<Verification>, path: seq<string>, hits: seq<SearchResult>)
  {
    exists pairs, relevant ::
      ArePaired(ids, verdicts, pairs) && AreHitsOf(e, relevant, path, hits)
      && IsFiltered((p: Pair) => p.1.relevant && p.1.confidence >= e.config.minConfidence, pairs, relevant)
  }

  /** Leaves that are asked about in one call. */
  ghost predicate IsBatch(e: Engine, ids: seq<NodeId>, path: seq<string>, hits: seq<SearchResult>) {
    exists inputs ::
      AreInputs(e, ids, inputs)
      && AreBatchHits(e, ids[..Min(25, |ids|)], e.reasoner.batchVerify(inputs), path, hits)
  }

  /** Children are judged all at once when they are all leaves and within the depth limit. */
  ghost predicate IsBatchVisit(e: Engine, ids: seq<NodeId>, path: seq<string>, calls: nat, o: Outcome) {
    && o.next == []
    && (ids == [] ==> o.calls == calls && o.hits == [])
    && (ids != [] ==> o.calls == calls + 1 && IsBatch(e, ids, path, o.hits))
  }

  /** What a visit at `depth` comes to. */
  ghost predicate Yields(e: Engine, id: NodeId, path: seq<string>, depth: nat, c: Choice, o: Outcome)
    requires id in e.store
  {
    if depth > e.config.maxDepth then o == NOTHING
    else if e.store[id].children == [] then IsLeafVisit(e, id, path, o)
    else if c.kids == [] then o == NOTHING
    else if depth < e.config.maxDepth && Leafy(e, c.candidates) then
      o.pruned == 0 && IsBatchVisit(e, c.candidates, path, 0, o)
    else IsChosenVisit(e, |c.kids| - |c.named|, c.chosen, path, depth, o)
  }

  /** One call chooses; the chosen are judged in a second one, or visited one by one. */
  ghost predicate IsChosenVisit(
      e: Engine, pruned: int, chosen: seq<NodeId>, path: seq<string>, depth: nat, o: Outcome)
  {
    && o.pruned == pruned
    && if depth < e.config.maxDepth && Leafy(e, chosen) && chosen != []
       then IsBatchVisit(e, chosen, path, 1, o)
       else o == Outcome([], 1, pruned, chosen)
  }

  // ---- Every visit comes to that ----------------------------------------

  ghost function TheChoice(e: Engine, id: NodeId, path: seq<string>): Choice
    requires id in e.store
  {
    var kids := GetChildren(e, id);
    var beam := EffectiveBeam(e, kids);
    var candidates := Candidates(e, kids);
    var asked := CappedCandidates(e, candidates);
    var context := if e.config.includePath then Join(path, " > ") else e.store[id].summary;
    var replies := e.reasoner.decide(context, asked, beam);
    Choice(
      kids, beam, Filter(k => k in e.store && e.reasoner.hasAnyTerm(e.store[k].summary), kids), candidates, asked,
      replies,
      Filter((d: Decision) => d.confidence >= e.config.minConfidence, replies),
      Map((d: Decision) => d.id, Selected(e, id, path)), Traced(e, id, path))
  }

  lemma {:induction false} ShortlistIsMade(e: Engine, id: NodeId, path: seq<string>)
    requires id in e.store
    ensures IsShortlist(e, id, TheChoice(e, id, path))
  {
    var kids := GetChildren(e, id);
    FilterIsFiltered(k => k in e.store, k => k in e.store, e.store[id].children);
    var matches := k => k in e.store && e.reasoner.hasAnyTerm(e.store[k].summary);
    FilterIsFiltered(matches, matches, kids);
  }

  lemma {:induction false} ScoreFalls(key: NodeId -> int, score: NodeId -> int, ids: seq<NodeId>)
    requires forall k :: key(k) == -score(k)
    ensures IsRanked(score, ids, StableSort(key, ids))
  {
    var ranked := StableSort(key, ids);
    StableSortSorts(key, ids);
    forall i, j | 0 <= i < j < |ranked| ensures score(ranked[i]) >= score(ranked[j]) {
      assert key(ranked[i]) <= key(ranked[j]);
    }
    forall v ensures SameWith(score, v, ranked, ids) { EqualScoresStay(key, score, v, ids); }
  }

  lemma {:induction false} EqualScoresStay(key: NodeId -> int, score: NodeId -> int, v: int, ids: seq<NodeId>)
    requires forall k :: key(k) == -score(k)
    ensures SameWith(score, v, StableSort(key, ids), ids)
  {
    StableSortIsStable(key, ids, v, (k: NodeId) => -score(k) == v);
  }

  lemma {:induction false} BestAreAsked(e: Engine, c: Choice)
    requires c.asked == CappedCandidates(e, c.candidates)
    ensures IsAsked(e, c)
  {
    if |c.candidates| > 30 {
      var key := k => -CandidateScore(e, k);
      var score := k => CandidateScore(e, k);
      var ranked := StableSort(key, c.candidates);
      ScoreFalls(key, score, c.candidates);
      StableSortSorts(key, c.candidates);
      assert IsScore(e, score) && IsRanked(score, c.candidates, ranked) && |c.asked| == 30 && c.asked <= ranked;
    }
  }

  lemma {:induction false} AnswerIsTaken(e: Engine, id: NodeId, path: seq<string>)
    requires id in e.store
    ensures IsAnswered(e, id, path, TheChoice(e, id, path))
  {
    var c := TheChoice(e, id, path);
    if e.config.includePath { JoinIsJoined(path, " > "); }
    var confident := (d: Decision) => d.confidence >= e.config.minConfidence;
    FilterIsFiltered(confident, confident, c.replies);
    var isKid := k => k in c.kids;
    FilterIsFiltered(isKid, isKid, c.named);
  }

  lemma {:induction false} ChoiceIsMade(e: Engine, id: NodeId, path: seq<string>)
    requires id in e.store
    ensures IsChoice(e, id, path, TheChoice(e, id, path))
  {
    ShortlistIsMade(e, id, path);
    BestAreAsked(e, TheChoice(e, id, path));
    AnswerIsTaken(e, id, path);
  }

  lemma {:induction false} LeafIsAsked(e: Engine, id: NodeId, path: seq<string>)
    requires id in e.store
    ensures var hits := LeafHits(e, id, path);
      IsLeafVisit(e, id, path,
        if PassesKeywordFilter(e, e.store[id]) then Outcome(hits, 1, 0, []) else NOTHING)
  {
    var n := e.store[id];
    assert TextOf(n) == n.GetContent();
    assert TextOf(n)[..Min(500, |TextOf(n)|)] == Take(TextOf(n), 500);
    var prompt := LeafPrompt(n);
    assert n.summary[..Min(300, |n.summary|)] == Take(n.summary, 300);
    assert IsQuestion(n, prompt) && IsLeafVerdict(e, id, path, e.reasoner.verify(prompt), LeafHits(e, id, path));
  }

  lemma {:induction false} InputsAreShort(e: Engine, ids: seq<NodeId>)
    requires forall k :: k in ids ==> k in e.store
    ensures AreInputs(e, ids, BatchInputs(e, Take(ids, 25)))
  {
    var inputs := BatchInputs(e, Take(ids, 25));
    forall i | 0 <= i < |inputs|
      ensures ids[i] in e.store && inputs[i].id == ids[i] && IsInput(e.store[ids[i]], inputs[i].content)
    {
      var n := e.store[ids[i]];
      assert inputs[i] == BatchInputFor(ids[i], n);
      assert n.summary[..Min(200, |n.summary|)] == Take(n.summary, 200);
      assert TextOf(n)[..Min(180, |TextOf(n)|)] == Take(n.GetContent(), 180);
    }
  }

  function Pairs(ids: seq<NodeId>, verdicts: seq<Verification>): seq<Pair> {
    if ids == [] || verdicts == [] then [] else [(ids[0], verdicts[0])] + Pairs(ids[1..], verdicts[1..])
  }

  lemma {:induction false} PairsArePaired(ids: seq<NodeId>, verdicts: seq<Verification>)
    ensures ArePaired(ids, verdicts, Pairs(ids, verdicts))
    decreases |ids|
  {
    if ids != [] && verdicts != [] { PairsArePaired(ids[1..], verdicts[1..]); }
  }

  lemma {:induction false} AcceptedAreRelevant(
      e: Engine, ids: seq<NodeId>, verdicts: seq<Verification>, path: seq<string>, relevant: Pair -> bool)
    requires forall k :: k in ids ==> k in e.store
    requires forall p: Pair :: relevant(p) <==> IsRelevant(e, p.1)
    ensures AreHitsOf(e, Filter(relevant, Pairs(ids, verdicts)), path, AcceptedHits(e, ids, verdicts, path))
    decreases |ids|
  {
    if ids != [] && verdicts != [] {
      AcceptedAreRelevant(e, ids[1..], verdicts[1..], path, relevant);
      assert Pairs(ids, verdicts)[1..] == Pairs(ids[1..], verdicts[1..]);
    }
  }

  lemma {:induction false} AcceptedInOrder(e: Engine, ids: seq<NodeId>, verdicts: seq<Verification>, path: seq<string>)
    requires forall k :: k in ids ==> k in e.store
    ensures AreBatchHits(e, ids, verdicts, path, AcceptedHits(e, ids, verdicts, path))
  {
    var relevant := (p: Pair) => p.1.relevant && p.1.confidence >= e.config.minConfidence;
    PairsArePaired(ids, verdicts);
    AcceptedAreRelevant(e, ids, verdicts, path, relevant);
    FilterIsFiltered(relevant, relevant, Pairs(ids, verdicts));
  }

  lemma {:induction false} BatchIsAsked(e: Engine, ids: seq<NodeId>, path: seq<string>)
    requires forall k :: k in ids ==> k in e.store
    ensures IsBatch(e, ids, path, BatchHits(e, ids, path))
  {
    InputsAreShort(e, ids);
    var top := Take(ids, 25);
    assert ids[..Min(25, |ids|)] == top;
    AcceptedInOrder(e, top, e.reasoner.batchVerify(BatchInputs(e, top)), path);
  }

  // ---- One visit of the traversal ---------------------------------------

  /** The events of a visit by itself amount to its outcome. */
  ghost predicate AmountsTo(own: seq<Event>, o: Outcome) {
    Hits(own) == o.hits && StatsOf(own) == Stats(0, o.pruned, 0, o.calls)
  }

  lemma {:induction false} FoundAmountsTo(hits: seq<SearchResult>)
    ensures AmountsTo(FoundAll(hits), Outcome(hits, 0, 0, []))
  {
    if hits != [] { FoundAmountsTo(hits[1..]); }
  }

  lemma {:induction false} CallAmountsTo(hits: seq<SearchResult>, next: seq<NodeId>)
    ensures AmountsTo([Called] + FoundAll(hits), Outcome(hits, 1, 0, next))
  {
    var found := FoundAll(hits);
    FoundAmountsTo(hits);
    assert ([Called] + found)[1..] == found;
  }

  lemma {:induction false} LookAmountsTo(rest: seq<Event>, o: Outcome)
    requires AmountsTo(rest, o)
    ensures AmountsTo([Looked] + rest, o)
  {
    assert ([Looked] + rest)[1..] == rest;
  }

  lemma {:induction false} ChoiceAmountsTo(pruned: int, rest: seq<Event>, o: Outcome)
    requires AmountsTo(rest, o) && o.pruned == 0
    ensures AmountsTo([Called] + ([Pruned(pruned)] + rest), Outcome(o.hits, o.calls + 1, pruned, o.next))
  {
    var inner := [Pruned(pruned)] + rest;
    assert inner[1..] == rest && ([Called] + inner)[1..] == inner;
  }

  lemma {:induction false} LeafYields(e: Engine, id: NodeId, path: seq<string>) returns (o: Outcome)
    requires id in e.store
    ensures IsLeafVisit(e, id, path, o) && o.pruned == 0 && o.next == [] && AmountsTo(LeafCheckTrace(e, id, path), o)
  {
    var hits := LeafHits(e, id, path);
    LeafIsAsked(e, id, path);
    if PassesKeywordFilter(e, e.store[id]) {
      o := Outcome(hits, 1, 0, []);
      CallAmountsTo(hits, []);
      LookAmountsTo([Called] + FoundAll(hits), o);
    } else {
      o := NOTHING;
      LookAmountsTo([], o);
    }
  }

  lemma {:induction false} BatchYields(e: Engine, ids: seq<NodeId>, path: seq<string>) returns (o: Outcome)
    requires forall k :: k in ids ==> k in e.store
    ensures IsBatchVisit(e, ids, path, 0, o) && o.pruned == 0 && AmountsTo(BatchTrace(e, ids, path), o)
  {
    if ids == [] {
      o := NOTHING;
    } else {
      o := Outcome(BatchHits(e, ids, path), 1, 0, []);
      BatchIsAsked(e, ids, path);
      CallAmountsTo(o.hits, []);
    }
  }

  /** `whole` is the visit's own events, and then those of the children it goes on to. */
  ghost predicate IsWhole(
      e: Engine, own: seq<Event>, next: seq<NodeId>, path: seq<string>, depth: nat, whole: seq<Event>)
    requires e.config.maxDepth < 255 && depth <= e.config.maxDepth + 1
  {
    && (forall k :: k in next ==> k in e.store)
    && (next == [] ==> whole == own)
    && (next != [] ==> depth <= e.config.maxDepth && whole == own + BranchTrace(e, next, path, depth + 1))
  }

  lemma {:induction false} BatchIsChosen(e: Engine, pruned: int, ids: seq<NodeId>, path: seq<string>)
      returns (o: Outcome, own: seq<Event>)
    requires forall k :: k in ids ==> k in e.store
    ensures own == [Called] + ([Pruned(pruned)] + ([Looked] + BatchTrace(e, ids, path)))
    ensures o.pruned == pruned && IsBatchVisit(e, ids, path, 1, o) && AmountsTo(own, o)
  {
    var trace := BatchTrace(e, ids, path);
    var batch := BatchYields(e, ids, path);
    LookAmountsTo(trace, batch);
    ChoiceAmountsTo(pruned, [Looked] + trace, batch);
    o := Outcome(batch.hits, batch.calls + 1, pruned, []);
    own := [Called] + ([Pruned(pruned)] + ([Looked] + trace));
  }

  lemma {:induction false} BranchesAreChosen(e: Engine, pruned: int, ids: seq<NodeId>, path: seq<string>, depth: nat)
      returns (own: seq<Event>)
    requires forall k :: k in ids ==> k in e.store
    requires e.config.maxDepth < 255 && depth <= e.config.maxDepth
    ensures AmountsTo(own, Outcome([], 1, pruned, ids))
    ensures IsWhole(e, own, ids, path, depth,
      [Called] + ([Pruned(pruned)] + ([Looked] + BranchTrace(e, ids, path, depth + 1))))
  {
    var rest := BranchTrace(e, ids, path, depth + 1);
    own := [Called] + ([Pruned(pruned)] + ([Looked] + []));
    LookAmountsTo([], NOTHING);
    ChoiceAmountsTo(pruned, [Looked] + [], NOTHING);
    assert [Called] + ([Pruned(pruned)] + ([Looked] + rest)) == own + rest;
    if ids == [] { assert own + rest == own; }
  }

  lemma {:induction false} ChosenYields(
      e: Engine, kids: nat, selected: seq<Decision>, ids: seq<NodeId>, path: seq<string>, depth: nat)
      returns (o: Outcome, own: seq<Event>)
    requires forall k :: k in ids ==> k in e.store
    requires e.config.maxDepth < 255 && depth <= e.config.maxDepth && (selected == [] ==> ids == [])
    ensures IsChosenVisit(e, kids - |selected|, ids, path, depth, o) && AmountsTo(own, o)
    ensures IsWhole(e, own, o.next, path, depth, [Called] + ChosenTrace(e, kids, selected, ids, path, depth))
  {
    var pruned := kids - |selected|;
    assert AllLeaves(e, ids) == Leafy(e, ids);
    if selected == [] {
      o, own := Outcome([], 1, pruned, []), [Called] + ([Pruned(pruned)] + []);
      ChoiceAmountsTo(pruned, [], NOTHING);
    } else if depth < e.config.maxDepth && Leafy(e, ids) && ids != [] {
      o, own := BatchIsChosen(e, pruned, ids, path);
    } else {
      own := BranchesAreChosen(e, pruned, ids, path, depth);
      o := Outcome([], 1, pruned, ids);
    }
  }

  lemma {:induction false} ChoiceYields(e: Engine, id: NodeId, path: seq<string>, depth: nat)
      returns (o: Outcome, own: seq<Event>)
    requires id in e.store && e.config.maxDepth < 255 && depth <= e.config.maxDepth
    ensures var c := TheChoice(e, id, path); IsChosenVisit(e, |c.kids| - |c.named|, c.chosen, path, depth, o)
    ensures AmountsTo(own, o) && IsWhole(e, own, o.next, path, depth, [Called] + PruneTrace(e, id, path, depth))
  {
    o, own := ChosenYields(e, |GetChildren(e, id)|, Selected(e, id, path), Traced(e, id, path), path, depth);
  }

  /** Every visit of the traversal comes to what it should. */
  lemma {:induction false} VisitYields(e: Engine, id: NodeId, path: seq<string>, depth: nat)
      returns (o: Outcome, own: seq<Event>)
    requires id in e.store && e.config.maxDepth < 255 && depth <= e.config.maxDepth + 1
    ensures Yields(e, id, path, depth, TheChoice(e, id, path), o)
    ensures AmountsTo(own, o) && IsWhole(e, own, o.next, path, depth, InsideTrace(e, id, path, depth))
  {
    var c := TheChoice(e, id, path);
    if depth > e.config.maxDepth || (!e.store[id].IsLeaf() && c.kids == []) {
      o, own := NOTHING, [];
    } else if e.store[id].IsLeaf() {
      o := LeafYields(e, id, path);
      own := LeafCheckTrace(e, id, path);
    } else if depth < e.config.maxDepth && Leafy(e, c.candidates) {
      o := BatchYields(e, c.candidates, path);
      own := BatchTrace(e, c.candidates, path);
    } else {
      o, own := ChoiceYields(e, id, path, depth);
    }
  }
}
