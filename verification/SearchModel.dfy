// What one query does to one document: the data a traversal reads, and the
// decisions it takes between two lock sections.  Everything here is a pure
// function of the stored nodes, the configuration and the reasoner.
module SearchModel {
  import opened Common

  type NodeId = string

  datatype PageNode = PageNode(title: string, summary: string, content: Option<string>, children: seq<NodeId>) {
    predicate IsLeaf() { children == [] }

    function GetContent(): string {
      if content.Some? then content.value else "[No content - internal node]"
    }
  }

  datatype SearchConfig = SearchConfig(
    beamWidth: nat, maxDepth: u8, maxResults: nat, minConfidence: int, parallelBranches: bool, includePath: bool)

  datatype Decision = Decision(id: NodeId, confidence: int)

  datatype Verification = Verification(relevant: bool, confidence: int)

  datatype BatchInput = BatchInput(id: NodeId, content: string)

  /** A deterministic reasoner, and the keyword matcher of one fixed query. */
  datatype Reasoner = Reasoner(
    decide: (string, seq<NodeId>, nat) -> seq<Decision>,
    verify: string -> Verification,
    batchVerify: seq<BatchInput> -> seq<Verification>,
    queryHasTerms: bool,
    hasAnyTerm: string -> bool,
    keywordScore: string -> nat)

  datatype Engine = Engine(config: SearchConfig, store: map<NodeId, PageNode>, reasoner: Reasoner)

  datatype SearchResult = SearchResult(id: NodeId, content: string, confidence: int, path: seq<string>)

  const MAX_BATCH_INPUTS: nat := 25
  const MAX_DECIDE_CANDIDATES: nat := 30

  // ---- Choosing branches ------------------------------------------------

  /** Children that no longer exist in the store are skipped. */
  function GetChildren(e: Engine, id: NodeId): (kids: seq<NodeId>)
    requires id in e.store
    ensures forall k :: k in kids <==> k in e.store[id].children && k in e.store
  {
    Filter(k => k in e.store, e.store[id].children)
  }

  function EffectiveBeam(e: Engine, kids: seq<NodeId>): (beam: nat)
    ensures beam <= 4 * e.config.beamWidth
  {
    if |kids| > 50 then e.config.beamWidth * 4
    else if |kids| > 20 then e.config.beamWidth * 2
    else e.config.beamWidth
  }

  function Candidates(e: Engine, kids: seq<NodeId>): (candidates: seq<NodeId>)
    requires forall k :: k in kids ==> k in e.store
    ensures forall k :: k in candidates ==> k in kids
  {
    var matched := Filter(k => k in e.store && e.reasoner.hasAnyTerm(e.store[k].summary), kids);
    if |matched| >= Min(EffectiveBeam(e, kids), |kids|) then matched else kids
  }

  function CandidateScore(e: Engine, k: NodeId): int {
    if k !in e.store then 0
    else
      (if e.reasoner.queryHasTerms then e.reasoner.keywordScore(e.store[k].summary) else 0)
      + (if e.store[k].IsLeaf() then 0 else 100)
  }

  function CappedCandidates(e: Engine, candidates: seq<NodeId>): seq<NodeId> {
    if |candidates| > MAX_DECIDE_CANDIDATES
    then Take(StableSort(k => -CandidateScore(e, k), candidates), MAX_DECIDE_CANDIDATES)
    else candidates
  }

  predicate AllLeaves(e: Engine, ids: seq<NodeId>)
    requires forall k :: k in ids ==> k in e.store
  {
    forall k :: k in ids ==> e.store[k].IsLeaf()
  }

  function Selected(e: Engine, id: NodeId, path: seq<string>): (selected: seq<Decision>)
    requires id in e.store
    ensures |selected| <= 4 * e.config.beamWidth
  {
    var kids := GetChildren(e, id);
    var context := if e.config.includePath then Join(path, " > ") else e.store[id].summary;
    var decisions := e.reasoner.decide(context, CappedCandidates(e, Candidates(e, kids)), EffectiveBeam(e, kids));
    Take(Filter((d: Decision) => d.confidence >= e.config.minConfidence, decisions), EffectiveBeam(e, kids))
  }

  /** The selected decisions that name a child; the others are dropped. */
  function Traced(e: Engine, id: NodeId, path: seq<string>): (ids: seq<NodeId>)
    requires id in e.store
    ensures |ids| <= 4 * e.config.beamWidth
    ensures forall k :: k in ids ==> k in e.store[id].children && k in e.store
  {
    var kids := GetChildren(e, id);
    Filter(k => k in kids, Map((d: Decision) => d.id, Selected(e, id, path)))
  }

  // ---- Judging leaves ---------------------------------------------------

  function LeafPrompt(node: PageNode): string {
    var raw := node.GetContent();
    if node.summary != "" && node.summary != raw
    then "[Section summary: " + Take(node.summary, 300) + "]\n\n" + raw
    else raw
  }

  predicate PassesKeywordFilter(e: Engine, node: PageNode) {
    e.reasoner.queryHasTerms ==>
      e.reasoner.hasAnyTerm(node.summary) || e.reasoner.hasAnyTerm(Take(node.GetContent(), 500))
  }

  predicate Accepts(e: Engine, v: Verification) {
    v.relevant && v.confidence >= e.config.minConfidence
  }

  function LeafHits(e: Engine, id: NodeId, path: seq<string>): seq<SearchResult>
    requires id in e.store
  {
    var v := e.reasoner.verify(LeafPrompt(e.store[id]));
    if Accepts(e, v) then [SearchResult(id, e.store[id].GetContent(), v.confidence, path)] else []
  }

  function BatchInputFor(id: NodeId, node: PageNode): BatchInput {
    BatchInput(id, if node.summary != "" then Take(node.summary, 200) else Take(node.GetContent(), 180))
  }

  function BatchInputs(e: Engine, ids: seq<NodeId>): (inputs: seq<BatchInput>)
    requires forall k :: k in ids ==> k in e.store
    ensures |inputs| == |ids|
    ensures forall i :: 0 <= i < |ids| ==> inputs[i] == BatchInputFor(ids[i], e.store[ids[i]])
  {
    seq(|ids|, i requires 0 <= i < |ids| => BatchInputFor(ids[i], e.store[ids[i]]))
  }

  /** Pairs nodes with verdicts up to the shorter list, as `zip` does. */
  function AcceptedHits(e: Engine, ids: seq<NodeId>, verdicts: seq<Verification>, path: seq<string>): seq<SearchResult>
    requires forall k :: k in ids ==> k in e.store
  {
    if ids == [] || verdicts == [] then []
    else
      (if Accepts(e, verdicts[0])
       then [SearchResult(ids[0], e.store[ids[0]].GetContent(), verdicts[0].confidence, path)] else [])
      + AcceptedHits(e, ids[1..], verdicts[1..], path)
  }

  function BatchHits(e: Engine, ids: seq<NodeId>, path: seq<string>): seq<SearchResult>
    requires forall k :: k in ids ==> k in e.store
  {
    var top := Take(ids, MAX_BATCH_INPUTS);
    AcceptedHits(e, top, e.reasoner.batchVerify(BatchInputs(e, top)), path)
  }

  // ---- The full traversal -----------------------------------------------

  /** What a branch does to the shared state in one lock section. */
  datatype Event =
    | Visited(depth: nat)
    | Looked
    | Called
    | Found(result: SearchResult)
    | Pruned(count: int)

  function FoundAll(hits: seq<SearchResult>): seq<Event> {
    if hits == [] then [] else [Found(hits[0])] + FoundAll(hits[1..])
  }

  function LeafCheckTrace(e: Engine, id: NodeId, path: seq<string>): seq<Event>
    requires id in e.store
  {
    [Looked] + if PassesKeywordFilter(e, e.store[id]) then [Called] + FoundAll(LeafHits(e, id, path)) else []
  }

  function BatchTrace(e: Engine, ids: seq<NodeId>, path: seq<string>): seq<Event>
    requires forall k :: k in ids ==> k in e.store
  {
    if ids == [] then [] else [Called] + FoundAll(BatchHits(e, ids, path))
  }

  /**
   * The full traversal: `traverse` run one branch at a time, with neither of
   * the two `results.len() >= max_results` exits.
   */
  function VisitTrace(e: Engine, id: NodeId, path: seq<string>, depth: nat): seq<Event>
    requires id in e.store && e.config.maxDepth < 255 && depth <= e.config.maxDepth + 1
    decreases e.config.maxDepth + 1 - depth, 4
  {
    [Visited(depth)] + InsideTrace(e, id, path + [e.store[id].title], depth)
  }

  function InsideTrace(e: Engine, id: NodeId, path: seq<string>, depth: nat): seq<Event>
    requires id in e.store && e.config.maxDepth < 255 && depth <= e.config.maxDepth + 1
    decreases e.config.maxDepth + 1 - depth, 3
  {
    if depth > e.config.maxDepth then []
    else if e.store[id].IsLeaf() then LeafCheckTrace(e, id, path)
    else
      var kids := GetChildren(e, id);
      if kids == [] then []
      else if depth < e.config.maxDepth && AllLeaves(e, Candidates(e, kids))
      then BatchTrace(e, Candidates(e, kids), path)
      else [Called] + PruneTrace(e, id, path, depth)
  }

  function PruneTrace(e: Engine, id: NodeId, path: seq<string>, depth: nat): seq<Event>
    requires id in e.store && e.config.maxDepth < 255 && depth <= e.config.maxDepth
    decreases e.config.maxDepth + 1 - depth, 2, 1
  {
    ChosenTrace(e, |GetChildren(e, id)|, Selected(e, id, path), Traced(e, id, path), path, depth)
  }

  function ChosenTrace(
      e: Engine, kids: nat, selected: seq<Decision>, ids: seq<NodeId>, path: seq<string>, depth: nat): seq<Event>
    requires forall k :: k in ids ==> k in e.store
    requires e.config.maxDepth < 255 && depth <= e.config.maxDepth
    decreases e.config.maxDepth + 1 - depth, 2, 0
  {
    [Pruned(kids - |selected|)] + if selected == [] then [] else [Looked] + AfterGateTrace(e, ids, path, depth)
  }

  function AfterGateTrace(e: Engine, ids: seq<NodeId>, path: seq<string>, depth: nat): seq<Event>
    requires forall k :: k in ids ==> k in e.store
    requires e.config.maxDepth < 255 && depth <= e.config.maxDepth
    decreases e.config.maxDepth + 1 - depth, 1
  {
    if depth < e.config.maxDepth && AllLeaves(e, ids) && ids != [] then BatchTrace(e, ids, path)
    else BranchTrace(e, ids, path, depth + 1)
  }

  function BranchTrace(e: Engine, ids: seq<NodeId>, path: seq<string>, depth: nat): seq<Event>
    requires forall k :: k in ids ==> k in e.store
    requires e.config.maxDepth < 255 && depth <= e.config.maxDepth + 1
    decreases e.config.maxDepth + 1 - depth, 5, |ids|
  {
    if ids == [] then []
    else VisitTrace(e, ids[0], path, depth) + BranchTrace(e, ids[1..], path, depth)
  }

  // ---- What a trace amounts to ------------------------------------------

  datatype Stats = Stats(visited: nat, pruned: int, deepest: nat, llmCalls: nat)

  function Hits(trace: seq<Event>): seq<SearchResult> {
    if trace == [] then []
    else (if trace[0].Found? then [trace[0].result] else []) + Hits(trace[1..])
  }

  function Count(stats: Stats, event: Event): Stats {
    match event
    case Visited(depth) => stats.(visited := stats.visited + 1, deepest := Max(stats.deepest, depth))
    case Called => stats.(llmCalls := stats.llmCalls + 1)
    case Pruned(n) => stats.(pruned := stats.pruned + n)
    case _ => stats
  }

  function StatsOf(trace: seq<Event>): Stats {
    if trace == [] then Stats(0, 0, 0, 0) else Count(StatsOf(trace[1..]), trace[0])
  }
}
