// `summarize_batch` as it runs: levels from the deepest up, batches that finish
// in any order, summaries written in place and flushed level by level.
module BatchSummarizer {
  import opened Common
  import opened SummaryFold

  // ---- The nodes along a run --------------------------------------------

  ghost predicate Tree(ns: seq<TreeNode>) { Distinct(ns) && Layered(ForestOf(ns)) }

  /** `index` finds the position of every node by its id. */
  ghost predicate IsIndex(ns: seq<TreeNode>, index: map<NodeId, nat>) {
    && (forall id :: id in index ==> index[id] < |ns| && ns[index[id]].id == id)
    && (forall i :: 0 <= i < |ns| ==> ns[i].id in index && index[ns[i].id] == i)
  }

  lemma {:induction false} IndexFindsForest(ns: seq<TreeNode>, index: map<NodeId, nat>, id: NodeId)
    requires Distinct(ns) && IsIndex(ns, index)
    ensures id in index <==> id in ForestOf(ns)
    ensures id in index ==> ForestOf(ns)[id] == ns[index[id]]
  {
    ForestHolds(ns);
    if id in ForestOf(ns) {
      var i :| 0 <= i < |ns| && ns[i].id == id;
    }
  }

  /** The summary that node `i` ends with. */
  ghost function Target(llm: Llm, init: seq<TreeNode>, i: nat): string
    requires Tree(init) && i < |init|
  {
    ForestHolds(init);
    Fold(llm, ForestOf(init), init[i].id)
  }

  ghost predicate Asks(llm: Llm, init: seq<TreeNode>, i: nat)
    requires Tree(init) && i < |init|
  {
    ForestHolds(init);
    NeedsLlm(llm, ForestOf(init), init[i].id)
  }

  ghost function ItemFor(llm: Llm, init: seq<TreeNode>, i: nat): Item
    requires Tree(init) && i < |init|
  {
    ForestHolds(init);
    var f := ForestOf(init);
    ItemOf(init[i], FoldContent(llm, f, init[i].id), ParentSummary(f, init[i]))
  }

  /** Levels below `level` and the nodes in `done` have their summaries; nothing else has changed. */
  ghost predicate Summarised(llm: Llm, init: seq<TreeNode>, ns: seq<TreeNode>, level: int, done: set<nat>)
    requires Tree(init)
  {
    && |ns| == |init|
    && (forall i :: i in done ==> i < |init| && init[i].depth == level)
    && (forall i :: 0 <= i < |init| ==> SummarisedNode(llm, init, ns[i], i, level, done))
  }

  ghost predicate SummarisedNode(llm: Llm, init: seq<TreeNode>, n: TreeNode, i: nat, level: int, done: set<nat>)
    requires Tree(init) && i < |init|
  {
    n == if init[i].depth > level || i in done then init[i].(summary := Target(llm, init, i)) else init[i]
  }

  lemma {:induction false} OneMoreDone(
      llm: Llm, init: seq<TreeNode>, ns: seq<TreeNode>, level: int, done: set<nat>, i: nat, ns': seq<TreeNode>)
    requires Tree(init) && Summarised(llm, init, ns, level, done)
    requires i < |init| && init[i].depth == level
    requires ns' == ns[i := init[i].(summary := Target(llm, init, i))]
    ensures Summarised(llm, init, ns', level, done + {i})
  {
    forall j | 0 <= j < |init| ensures SummarisedNode(llm, init, ns'[j], j, level, done + {i}) {
      assert SummarisedNode(llm, init, ns[j], j, level, done);
    }
  }

  /** The nodes of a level that a run has to write. */
  ghost function PendingSet(init: seq<TreeNode>, level: int): set<nat> {
    set i: nat | i < |init| && init[i].depth == level && init[i].summary == ""
  }

  lemma {:induction false} LevelDone(llm: Llm, init: seq<TreeNode>, ns: seq<TreeNode>, level: int)
    requires Tree(init) && Summarised(llm, init, ns, level, PendingSet(init, level))
    ensures Summarised(llm, init, ns, level - 1, {})
  {
    ForestHolds(init);
    forall i | 0 <= i < |init| ensures SummarisedNode(llm, init, ns[i], i, level - 1, {}) {
      assert SummarisedNode(llm, init, ns[i], i, level, PendingSet(init, level));
    }
  }

  // ---- What one node is asked -------------------------------------------

  /** The lines that the children contribute, from the summaries they have now. */
  function PartsNow(ns: seq<TreeNode>, index: map<NodeId, nat>, ids: seq<NodeId>): seq<string>
    requires forall id :: id in index ==> index[id] < |ns|
  {
    if ids == [] then []
    else
      (if ids[0] in index then Part(ns[index[ids[0]]].title, ns[index[ids[0]]].summary) else [])
      + PartsNow(ns, index, ids[1..])
  }

  lemma {:induction false} PartsOfSnoc(ns: seq<TreeNode>, index: map<NodeId, nat>, ids: seq<NodeId>, k: nat)
    requires k < |ids| && forall id :: id in index ==> index[id] < |ns|
    ensures PartsNow(ns, index, ids[..k + 1]) == PartsNow(ns, index, ids[..k])
      + if ids[k] in index then Part(ns[index[ids[k]]].title, ns[index[ids[k]]].summary) else []
    decreases k
  {
    if k > 0 {
      PartsOfSnoc(ns, index, ids[1..], k - 1);
      assert ids[..k + 1][1..] == ids[1..][..k] && ids[..k][1..] == ids[1..][..k - 1];
    }
  }

  /** The nodes as they are found by their ids. */
  ghost function NodesAt(ns: seq<TreeNode>, index: map<NodeId, nat>): Forest
    requires forall id :: id in index ==> index[id] < |ns|
  {
    map id | id in index :: ns[index[id]]
  }

  lemma {:induction false} PartsNowAreLines(ns: seq<TreeNode>, index: map<NodeId, nat>, ids: seq<NodeId>)
    requires forall id :: id in index ==> index[id] < |ns|
    ensures var g := NodesAt(ns, index); SpeakInLines(g, Filter(Speaking(g), ids), PartsNow(ns, index, ids))
    decreases |ids|
  {
    if ids != [] {
      var g := NodesAt(ns, index);
      PartsNowAreLines(ns, index, ids[1..]);
      if Speaking(g)(ids[0]) {
        OneMoreSpeaks(g, ids[0], Filter(Speaking(g), ids[1..]),
          "- " + g[ids[0]].title + ": " + g[ids[0]].summary, PartsNow(ns, index, ids[1..]));
      }
    }
  }

  function ParentNow(ns: seq<TreeNode>, index: map<NodeId, nat>, n: TreeNode): Option<string>
    requires forall id :: id in index ==> index[id] < |ns|
  {
    if n.parent.Some? && n.parent.value in index then Some(ns[index[n.parent.value]].summary) else None
  }

  /** Children of a node on this level already have the summaries that the fold gives them. */
  lemma {:induction false} PartsAreFolded(
      llm: Llm, init: seq<TreeNode>, ns: seq<TreeNode>, level: u8, done: set<nat>, index: map<NodeId, nat>,
      ids: seq<NodeId>)
    requires Tree(init) && Summarised(llm, init, ns, level, done) && IsIndex(init, index)
    requires forall c :: c in ids && c in ForestOf(init) ==> ForestOf(init)[c].depth > level
    ensures PartsNow(ns, index, ids) == FoldParts(llm, ForestOf(init), ids, level)
    decreases |ids|
  {
    if ids != [] {
      PartsAreFolded(llm, init, ns, level, done, index, ids[1..]);
      IndexFindsForest(init, index, ids[0]);
      if ids[0] in index {
        var i := index[ids[0]];
        assert SummarisedNode(llm, init, ns[i], i, level, done);
      }
    }
  }

  lemma {:induction false} ParentIsUntouched(
      llm: Llm, init: seq<TreeNode>, ns: seq<TreeNode>, level: u8, done: set<nat>, index: map<NodeId, nat>, i: nat)
    requires Tree(init) && Summarised(llm, init, ns, level, done) && IsIndex(init, index)
    requires i < |init| && init[i].depth == level
    ensures ParentNow(ns, index, init[i]) == ParentSummary(ForestOf(init), init[i])
  {
    ForestHolds(init);
    if init[i].parent.Some? {
      IndexFindsForest(init, index, init[i].parent.value);
      if init[i].parent.value in index {
        var p := index[init[i].parent.value];
        assert SummarisedNode(llm, init, ns[p], p, level, done);
      }
    }
  }

  lemma {:induction false} ItemIsFolded(
      llm: Llm, init: seq<TreeNode>, ns: seq<TreeNode>, level: u8, done: set<nat>, index: map<NodeId, nat>, i: nat)
    requires Tree(init) && Summarised(llm, init, ns, level, done) && IsIndex(init, index)
    requires i < |init| && init[i].depth == level && init[i].summary == "" && i !in done
    ensures ns[i] == init[i]
    ensures var content := ContentOf(init[i], PartsNow(ns, index, init[i].children));
      && ItemOf(init[i], content, ParentNow(ns, index, init[i])) == ItemFor(llm, init, i)
      && (Asks(llm, init, i) <==> content != "")
      && Target(llm, init, i) == Answer(llm, init[i], content, ParentSummary(ForestOf(init), init[i]))
  {
    ForestHolds(init);
    assert SummarisedNode(llm, init, ns[i], i, level, done);
    PartsAreFolded(llm, init, ns, level, done, index, init[i].children);
    ParentIsUntouched(llm, init, ns, level, done, index, i);
  }

  // ---- Batches ----------------------------------------------------------

  /** A node waiting for the reply to its item. */
  datatype Work = Work(index: nat, item: Item)

  ghost predicate GoodWork(llm: Llm, init: seq<TreeNode>, level: int, w: Work)
    requires Tree(init)
  {
    && w.index < |init| && init[w.index].depth == level
    && Asks(llm, init, w.index) && w.item == ItemFor(llm, init, w.index)
  }

  ghost predicate GoodBatch(llm: Llm, init: seq<TreeNode>, level: int, batch: seq<Work>)
    requires Tree(init)
  {
    forall w :: w in batch ==> GoodWork(llm, init, level, w)
  }

  ghost function SetOf(s: seq<nat>): set<nat> { set i | i in s }

  ghost predicate NoRepeats(s: seq<nat>) { forall j, k :: 0 <= j < k < |s| ==> s[j] != s[k] }

  lemma {:induction false} ChunkIsNew(s: seq<nat>, start: nat, end: nat)
    requires NoRepeats(s) && start <= end <= |s|
    ensures NoRepeats(s[start..end]) && SetOf(s[start..end]) !! SetOf(s[..start])
    ensures SetOf(s[start..end]) <= SetOf(s)
    ensures SetOf(s[..end]) == SetOf(s[..start]) + SetOf(s[start..end])
  {
    assert s[..end] == s[..start] + s[start..end];
    assert forall i :: i in s[start..end] ==> i !in s[..start];
  }

  ghost function Indices(batch: seq<Work>): set<nat> { set w | w in batch :: w.index }

  ghost function AllIndices(batches: seq<seq<Work>>): set<nat> {
    if batches == [] then {} else Indices(batches[0]) + AllIndices(batches[1..])
  }

  lemma {:induction false} AllIndicesOfSnoc(batches: seq<seq<Work>>, batch: seq<Work>)
    ensures AllIndices(batches + [batch]) == AllIndices(batches) + Indices(batch)
  {
    if batches != [] {
      AllIndicesOfSnoc(batches[1..], batch);
      assert (batches + [batch])[1..] == batches[1..] + [batch];
    } else {
      assert ([batch])[1..] == [];
    }
  }

  lemma {:induction false} AllIndicesWithout(batches: seq<seq<Work>>, k: nat)
    requires k < |batches|
    ensures AllIndices(batches) == Indices(batches[k]) + AllIndices(batches[..k] + batches[k + 1..])
  {
    var rest := batches[..k] + batches[k + 1..];
    if k == 0 {
      assert rest == batches[1..];
    } else {
      AllIndicesWithout(batches[1..], k - 1);
      assert rest[0] == batches[0] && rest[1..] == batches[1..][..k - 1] + batches[1..][k..];
    }
  }

  // ---- The store --------------------------------------------------------

  class NodeStore {
    var nodes: Forest
    /** Every state the store has been in: a crash may find it in any of them. */
    ghost var history: seq<Forest>
    /** Some write has failed. */
    ghost var lost: bool

    constructor (f: Forest)
      ensures nodes == f && history == [f] && !lost
    {
      nodes, history, lost := f, [f], false;
    }

    /** The write may fail, and then changes nothing. */
    method UpdateNode(n: TreeNode) returns (fine: bool)
      modifies this
      ensures nodes == (if fine then old(nodes)[n.id := n] else old(nodes)) && history == old(history) + [nodes]
      ensures lost <==> old(lost) || !fine
    {
      fine := *;
      if fine {
        nodes := nodes[n.id := n];
      } else {
        lost := true;
      }
      history := history + [nodes];
    }
  }

  /** The store once levels below `level` and the nodes in `done` are flushed. */
  ghost function Stored(llm: Llm, f: Forest, level: int, done: set<NodeId>): Forest
    requires Layered(f)
  {
    map id | id in f :: f[id].(summary :=
      if NeedsLlm(llm, f, id) && (f[id].depth > level || id in done) then Fold(llm, f, id) else f[id].summary)
  }

  lemma {:induction false} StoredIsFlushing(llm: Llm, f: Forest, level: int, done: set<NodeId>)
    requires Layered(f) && forall id :: id in done ==> id in f && f[id].depth == level
    ensures Flushing(llm, f, Stored(llm, f, level, done), level)
  {
  }

  lemma {:induction false} StoredOneMore(llm: Llm, f: Forest, level: int, done: set<NodeId>, id: NodeId)
    requires Layered(f) && id in f && NeedsLlm(llm, f, id)
    ensures Stored(llm, f, level, done)[id := f[id].(summary := Fold(llm, f, id))] == Stored(llm, f, level, done + {id})
  {
  }

  lemma {:induction false} StoredLevel(llm: Llm, f: Forest, level: int, done: set<NodeId>)
    requires Layered(f) && forall id :: id in done ==> id in f && f[id].depth == level
    requires forall id :: id in f && f[id].depth == level && NeedsLlm(llm, f, id) ==> id in done
    ensures Stored(llm, f, level, done) == Stored(llm, f, level - 1, {})
  {
  }

  lemma {:induction false} TargetIsReply(llm: Llm, init: seq<TreeNode>, w: Work)
    requires Tree(init) && w.index < |init| && Asks(llm, init, w.index) && w.item == ItemFor(llm, init, w.index)
    ensures Target(llm, init, w.index)
      == match llm(w.item) case Some(summary) => summary case None => Fallback(init[w.index])
  {
    ForestHolds(init);
  }

  lemma {:induction false} LossyOneMore(llm: Llm, f: Forest, g: Forest, id: NodeId)
    requires Layered(f) && id in f && NeedsLlm(llm, f, id) && Lossy(llm, f, g)
    ensures Lossy(llm, f, g[id := f[id].(summary := Fold(llm, f, id))])
  {
    var g' := g[id := f[id].(summary := Fold(llm, f, id))];
    forall i | i in f ensures LossyNode(llm, f, g'[i].summary, i) {
      assert LossyNode(llm, f, g[i].summary, i);
    }
  }

  /** `history` goes on from `before` only with stores that a run over `f` may leave. */
  ghost predicate Extends(llm: Llm, f: Forest, before: seq<Forest>, history: seq<Forest>, lost: bool) {
    && before <= history
    && forall k :: |before| <= k < |history| ==> MayHold(llm, f, history[k], lost)
  }

  lemma {:induction false} ExtendsByOne(
      llm: Llm, f: Forest, first: seq<Forest>, history: seq<Forest>, before: bool, next: Forest, lost: bool)
    requires Extends(llm, f, first, history, before) && MayHold(llm, f, next, lost) && (before ==> lost)
    ensures Extends(llm, f, first, history + [next], lost)
  {
    forall k | |first| <= k < |history| ensures MayHold(llm, f, history[k], lost) {
      HeldIsLossy(llm, f, history[k], before);
    }
  }

  lemma {:induction false} ExtendsFurther(
      llm: Llm, f: Forest, first: seq<Forest>, before: seq<Forest>, lostBefore: bool, history: seq<Forest>, lost: bool)
    requires Extends(llm, f, first, before, lostBefore) && Extends(llm, f, before, history, lost)
    requires lostBefore ==> lost
    ensures Extends(llm, f, first, history, lost)
  {
    forall k | |first| <= k < |history| ensures MayHold(llm, f, history[k], lost) {
      if k < |before| {
        assert history[k] == before[k];
        HeldIsLossy(llm, f, before[k], lostBefore);
      }
    }
  }

  /** The store has exactly the levels below `level`, or has lost some writes of them. */
  ghost predicate HoldsLevels(llm: Llm, f: Forest, g: Forest, level: int, done: set<NodeId>, lost: bool)
    requires Layered(f)
  {
    Lossy(llm, f, g) && (!lost ==> g == Stored(llm, f, level, done))
  }

  lemma {:induction false} HeldOnTheWay(llm: Llm, f: Forest, g: Forest, level: int, done: set<NodeId>, lost: bool)
    requires Layered(f) && HoldsLevels(llm, f, g, level, done, lost)
    requires forall id :: id in done ==> id in f && f[id].depth == level
    ensures MayHold(llm, f, g, lost)
  {
    StoredIsFlushing(llm, f, level, done);
  }

  /** One write of a level, fine or not. */
  lemma {:induction false} HoldsOneMore(
      llm: Llm, f: Forest, g: Forest, level: int, done: set<NodeId>, lost: bool, id: NodeId, fine: bool)
    requires Layered(f) && id in f && NeedsLlm(llm, f, id) && HoldsLevels(llm, f, g, level, done, lost)
    ensures var g' := if fine then g[id := f[id].(summary := Fold(llm, f, id))] else g;
      HoldsLevels(llm, f, g', level, done + {id}, lost || !fine)
  {
    LossyOneMore(llm, f, g, id);
    StoredOneMore(llm, f, level, done, id);
  }

  /** The nodes of a level that wait for a reply; they are the ones flushed. */
  ghost function AskedSet(llm: Llm, init: seq<TreeNode>, level: int): set<nat>
    requires Tree(init)
  {
    set i: nat | i < |init| && init[i].depth == level && Asks(llm, init, i)
  }

  ghost function IdsOf(init: seq<TreeNode>, indices: seq<nat>): set<NodeId> {
    set i | i in indices && i < |init| :: init[i].id
  }

  lemma {:induction false} IdsOfSnoc(init: seq<TreeNode>, indices: seq<nat>, k: nat)
    requires k < |indices| && indices[k] < |init|
    ensures IdsOf(init, indices[..k + 1]) == IdsOf(init, indices[..k]) + {init[indices[k]].id}
  {
    assert indices[..k + 1] == indices[..k] + [indices[k]];
    assert indices[k] in indices[..k + 1];
  }

  lemma {:induction false} IdsAreOnLevel(llm: Llm, init: seq<TreeNode>, indices: seq<nat>, level: int)
    requires Tree(init) && forall i :: i in indices ==> i in AskedSet(llm, init, level)
    ensures forall id :: id in IdsOf(init, indices) ==> id in ForestOf(init) && ForestOf(init)[id].depth == level
  {
    ForestHolds(init);
  }

  lemma {:induction false} AllIdsFlushed(llm: Llm, init: seq<TreeNode>, indices: seq<nat>, level: int)
    requires Tree(init) && forall i :: i in AskedSet(llm, init, level) ==> i in indices
    ensures forall id ::
      id in ForestOf(init) && ForestOf(init)[id].depth == level && NeedsLlm(llm, ForestOf(init), id) ==>
        id in IdsOf(init, indices)
  {
    ForestHolds(init);
    forall id | id in ForestOf(init) && ForestOf(init)[id].depth == level && NeedsLlm(llm, ForestOf(init), id)
      ensures id in IdsOf(init, indices)
    {
      var i :| 0 <= i < |init| && init[i].id == id;
      assert i in AskedSet(llm, init, level);
    }
  }

  lemma {:induction false} FlushedNode(llm: Llm, init: seq<TreeNode>, ns: seq<TreeNode>, level: int, i: nat)
    requires Tree(init) && Summarised(llm, init, ns, level, PendingSet(init, level))
    requires i in AskedSet(llm, init, level)
    ensures var f, id := ForestOf(init), init[i].id;
      id in f && NeedsLlm(llm, f, id) && ns[i].id == id && ns[i] == f[id].(summary := Fold(llm, f, id))
  {
    ForestHolds(init);
    assert SummarisedNode(llm, init, ns[i], i, level, PendingSet(init, level));
  }

  lemma {:induction false} GoodBatchesAsk(llm: Llm, init: seq<TreeNode>, level: int, batches: seq<seq<Work>>)
    requires Tree(init) && forall b :: b in batches ==> GoodBatch(llm, init, level, b)
    ensures AllIndices(batches) <= AskedSet(llm, init, level)
  {
    if batches != [] {
      GoodBatchesAsk(llm, init, level, batches[1..]);
      assert batches[0] in batches;
    }
  }

  /** Every pending node without content is named at once; the others are asked about. */
  lemma {:induction false} BatchesAskAll(
      llm: Llm, init: seq<TreeNode>, level: int, named: set<nat>, batches: seq<seq<Work>>)
    requires Tree(init) && forall b :: b in batches ==> GoodBatch(llm, init, level, b)
    requires named + AllIndices(batches) == PendingSet(init, level)
    requires forall i :: i in named ==> i < |init| && !Asks(llm, init, i)
    ensures AllIndices(batches) == AskedSet(llm, init, level)
  {
    GoodBatchesAsk(llm, init, level, batches);
    ForestHolds(init);
    forall i | i in AskedSet(llm, init, level) ensures i in AllIndices(batches) {
      assert i in PendingSet(init, level);
    }
  }

  lemma {:induction false} PendingIsInitial(llm: Llm, init: seq<TreeNode>, ns: seq<TreeNode>, level: int)
    requires Tree(init) && Summarised(llm, init, ns, level, {})
    ensures PendingSet(ns, level) == PendingSet(init, level)
  {
    assert forall i :: 0 <= i < |init| ==> SummarisedNode(llm, init, ns[i], i, level, {});
  }

  /** Every node has the summary of the fold, and is otherwise as it was. */
  ghost predicate AllSummarised(llm: Llm, init: seq<TreeNode>, ns: seq<TreeNode>)
    requires Tree(init)
  {
    |ns| == |init| && forall i :: 0 <= i < |init| ==> ns[i] == init[i].(summary := Target(llm, init, i))
  }

  lemma {:induction false} AllDone(llm: Llm, init: seq<TreeNode>, ns: seq<TreeNode>)
    requires Tree(init) && Summarised(llm, init, ns, -1, {})
    ensures AllSummarised(llm, init, ns)
    ensures Stored(llm, ForestOf(init), -1, {}) == FlushedForest(llm, ForestOf(init))
  {
    assert forall i :: 0 <= i < |init| ==> SummarisedNode(llm, init, ns[i], i, -1, {});
    AllStored(llm, ForestOf(init));
  }

  lemma {:induction false} AllStored(llm: Llm, f: Forest)
    requires Layered(f)
    ensures Stored(llm, f, -1, {}) == FlushedForest(llm, f)
  {
    var stored, flushed := Stored(llm, f, -1, {}), FlushedForest(llm, f);
    assert stored.Keys == flushed.Keys;
    assert forall id :: id in f ==> stored[id] == flushed[id];
  }

  lemma {:induction false} FoldedForest(llm: Llm, init: seq<TreeNode>, ns: seq<TreeNode>)
    requires Tree(init) && AllSummarised(llm, init, ns)
    ensures var f, g := ForestOf(init), ForestOf(ns);
      f.Keys == g.Keys && forall id :: id in f ==> g[id] == f[id].(summary := Fold(llm, f, id))
  {
    ForestHolds(init);
    assert Distinct(ns);
    ForestHolds(ns);
    forall id ensures id in ForestOf(init) <==> id in ForestOf(ns) {
      if id in ForestOf(init) {
        var i :| 0 <= i < |init| && init[i].id == id;
        assert ns[i].id == id;
      }
      if id in ForestOf(ns) {
        var i :| 0 <= i < |ns| && ns[i].id == id;
        assert init[i].id == id;
      }
    }
    forall id | id in ForestOf(init)
      ensures ForestOf(ns)[id] == ForestOf(init)[id].(summary := Fold(llm, ForestOf(init), id))
    {
      var i :| 0 <= i < |init| && init[i].id == id;
      assert ns[i] == init[i].(summary := Target(llm, init, i));
    }
  }

  lemma {:induction false} NothingDone(llm: Llm, init: seq<TreeNode>, deepest: int)
    requires Tree(init) && forall i :: 0 <= i < |init| ==> init[i].depth <= deepest
    ensures Summarised(llm, init, init, deepest, {})
    ensures Stored(llm, ForestOf(init), deepest, {}) == ForestOf(init)
  {
    ForestHolds(init);
  }

  lemma {:induction false} NothingLost(llm: Llm, f: Forest)
    requires Layered(f)
    ensures Lossy(llm, f, f)
  {
  }

  // ---- The summariser ---------------------------------------------------

  class Summarizer {
    const llm: Llm
    const batchSize: nat
    const store: NodeStore?

    constructor (llm: Llm, batchSize: nat, store: NodeStore?)
      requires batchSize >= 1
      ensures this.llm == llm && this.batchSize == batchSize && this.store == store
    {
      this.llm, this.batchSize, this.store := llm, batchSize, store;
    }

    method BuildIndex(nodes: array<TreeNode>) returns (index: map<NodeId, nat>)
      requires Distinct(nodes[..])
      ensures IsIndex(nodes[..], index)
    {
      index := map[];
      for i := 0 to nodes.Length
        invariant forall id :: id in index ==> index[id] < i && nodes[index[id]].id == id
        invariant forall j :: 0 <= j < i ==> nodes[j].id in index && index[nodes[j].id] == j
      {
        index := index[nodes[i].id := i];
      }
    }

    method MaxDepth(nodes: array<TreeNode>) returns (deepest: u8)
      ensures forall i :: 0 <= i < nodes.Length ==> nodes[i].depth <= deepest
    {
      deepest := 0;
      for i := 0 to nodes.Length
        invariant forall j :: 0 <= j < i ==> nodes[j].depth <= deepest
      {
        if nodes[i].depth > deepest { deepest := nodes[i].depth; }
      }
    }

    method PendingAt(nodes: array<TreeNode>, level: u8) returns (pending: seq<nat>)
      ensures SetOf(pending) == PendingSet(nodes[..], level) && NoRepeats(pending)
    {
      pending := [];
      for i := 0 to nodes.Length
        invariant forall j :: j in pending <==> 0 <= j < i && nodes[j].depth == level && nodes[j].summary == ""
        invariant NoRepeats(pending)
      {
        if nodes[i].depth == level && nodes[i].summary == "" {
          assert i !in pending;
          pending := pending + [i];
        }
      }
    }

    method GetContentForNode(nodes: array<TreeNode>, index: map<NodeId, nat>, n: TreeNode) returns (content: string)
      requires forall id :: id in index ==> index[id] < nodes.Length
      ensures content == ContentOf(n, PartsNow(nodes[..], index, n.children))
      ensures Says(NodesAt(nodes[..], index), n, content)
    {
      if n.IsLeaf() {
        return if n.content.Some? then n.content.value else "";
      }
      var parts := [];
      ghost var now := nodes[..];
      for k := 0 to |n.children|
        invariant parts == PartsNow(now, index, n.children[..k])
      {
        PartsOfSnoc(now, index, n.children, k);
        if n.children[k] in index {
          var child := nodes[index[n.children[k]]];
          if child.summary != "" {
            parts := parts + ["- " + child.title + ": " + child.summary];
          }
        }
      }
      assert n.children[..|n.children|] == n.children;
      PartsNowAreLines(now, index, n.children);
      SpeakersSay(NodesAt(now, index), n, parts);
      content := Join(parts, "\n");
    }

    /** The item of one pending node; a node without content is named after its title at once. */
    method PrepareNode(
        nodes: array<TreeNode>, index: map<NodeId, nat>, i: nat, level: u8, ghost init: seq<TreeNode>,
        ghost done: set<nat>)
      returns (work: Option<Work>)
      requires Tree(init) && IsIndex(init, index) && Summarised(llm, init, nodes[..], level, done)
      requires i in PendingSet(init, level) && i !in done
      modifies nodes
      ensures work.None? ==> Summarised(llm, init, nodes[..], level, done + {i}) && !Asks(llm, init, i)
      ensures work.Some? ==> Summarised(llm, init, nodes[..], level, done)
      ensures work.Some? ==> work.value.index == i && GoodWork(llm, init, level, work.value)
    {
      ItemIsFolded(llm, init, nodes[..], level, done, index, i);
      var n := nodes[i];
      var content := GetContentForNode(nodes, index, n);
      if content == "" {
        OneMoreDone(llm, init, nodes[..], level, done, i, nodes[..][i := n.(summary := Fallback(n))]);
        nodes[i] := n.(summary := Fallback(n));
        return None;
      }
      return Some(Work(i, ItemOf(n, content, ParentNow(nodes[..], index, n))));
    }

    method PrepareBatch(
        nodes: array<TreeNode>, index: map<NodeId, nat>, chunk: seq<nat>, level: u8, ghost init: seq<TreeNode>,
        ghost before: set<nat>)
      returns (batch: seq<Work>, ghost named: set<nat>)
      requires Tree(init) && IsIndex(init, index) && Summarised(llm, init, nodes[..], level, before)
      requires NoRepeats(chunk) && SetOf(chunk) <= PendingSet(init, level) && SetOf(chunk) !! before
      requires forall i :: i in before ==> i < |init| && !Asks(llm, init, i)
      modifies nodes
      ensures forall i :: i in named ==> i < |init| && !Asks(llm, init, i)
      ensures Summarised(llm, init, nodes[..], level, named)
      ensures named + Indices(batch) == before + SetOf(chunk) && named <= before + SetOf(chunk)
      ensures |batch| <= |chunk|
      ensures forall w :: w in batch ==> GoodWork(llm, init, level, w)
    {
      batch, named := [], before;
      for k := 0 to |chunk|
        invariant Summarised(llm, init, nodes[..], level, named) && |batch| <= k
        invariant named + Indices(batch) == before + SetOf(chunk[..k]) && named <= before + SetOf(chunk[..k])
        invariant forall i :: i in named ==> i < |init| && !Asks(llm, init, i)
        invariant forall w :: w in batch ==> GoodWork(llm, init, level, w)
      {
        var i := chunk[k];
        assert i in SetOf(chunk) && i !in SetOf(chunk[..k]);
        assert chunk[..k + 1] == chunk[..k] + [i];
        var work := PrepareNode(nodes, index, i, level, init, named);
        if work.None? {
          named := named + {i};
        } else {
          batch := batch + [work.value];
        }
      }
      assert chunk[..|chunk|] == chunk;
    }

    /** Cuts the pending nodes into batches. */
    method PrepareBatches(
        nodes: array<TreeNode>, index: map<NodeId, nat>, pending: seq<nat>, level: u8, ghost init: seq<TreeNode>)
      returns (batches: seq<seq<Work>>, ghost named: set<nat>)
      requires batchSize >= 1 && Tree(init) && IsIndex(init, index)
      requires Summarised(llm, init, nodes[..], level, {})
      requires NoRepeats(pending) && SetOf(pending) == PendingSet(init, level)
      modifies nodes
      ensures Summarised(llm, init, nodes[..], level, named)
      ensures named + AllIndices(batches) == PendingSet(init, level)
      ensures forall i :: i in named ==> i < |init| && !Asks(llm, init, i)
      ensures forall b :: b in batches ==> GoodBatch(llm, init, level, b)
      ensures forall b :: b in batches ==> 0 < |b| <= batchSize
    {
      batches, named := [], {};
      var start := 0;
      while start < |pending|
        invariant 0 <= start <= |pending|
        invariant Summarised(llm, init, nodes[..], level, named)
        invariant named + AllIndices(batches) == SetOf(pending[..start])
        invariant forall i :: i in named ==> i < |init| && !Asks(llm, init, i)
        invariant forall b :: b in batches ==> GoodBatch(llm, init, level, b)
        invariant forall b :: b in batches ==> 0 < |b| <= batchSize
      {
        var end := if start + batchSize <= |pending| then start + batchSize else |pending|;
        ChunkIsNew(pending, start, end);
        assert named <= SetOf(pending[..start]);
        var batch, named' := PrepareBatch(nodes, index, pending[start..end], level, init, named);
        AllIndicesOfSnoc(batches, batch);
        if batch != [] {
          batches := batches + [batch];
        }
        named := named';
        start := end;
      }
      assert pending[..start] == pending;
    }

    /** Writes the replies to one batch. */
    method Collect(
        nodes: array<TreeNode>, batch: seq<Work>, level: u8, ghost init: seq<TreeNode>, ghost before: set<nat>)
      returns (updated: seq<nat>)
      requires Tree(init) && Summarised(llm, init, nodes[..], level, before)
      requires GoodBatch(llm, init, level, batch)
      modifies nodes
      ensures Summarised(llm, init, nodes[..], level, before + Indices(batch))
      ensures forall i :: i in updated <==> i in Indices(batch)
    {
      updated := [];
      ghost var done := before;
      for k := 0 to |batch|
        invariant done == before + Indices(batch[..k]) && Summarised(llm, init, nodes[..], level, done)
        invariant forall i :: i in updated <==> i in Indices(batch[..k])
      {
        var w := batch[k];
        assert w in batch;
        var reply := llm(w.item);
        var n := nodes[w.index];
        assert SummarisedNode(llm, init, n, w.index, level, done);
        var n' := n.(summary := if reply.Some? then reply.value else Fallback(n));
        TargetIsReply(llm, init, w);
        OneMoreDone(llm, init, nodes[..], level, done, w.index, nodes[..][w.index := n']);
        nodes[w.index] := n';
        updated := updated + [w.index];
        done := done + {w.index};
        assert batch[..k + 1] == batch[..k] + [w];
      }
      assert batch[..|batch|] == batch;
    }

    /** Sends every batch of a level and writes the replies in the order in which they arrive. */
    method Dispatch(
        nodes: array<TreeNode>, batches: seq<seq<Work>>, level: u8, ghost init: seq<TreeNode>, ghost named: set<nat>)
      returns (ok: bool, updated: seq<nat>)
      requires Tree(init) && Summarised(llm, init, nodes[..], level, named)
      requires forall b :: b in batches ==> GoodBatch(llm, init, level, b)
      modifies nodes
      ensures ok ==> Summarised(llm, init, nodes[..], level, named + AllIndices(batches))
      ensures ok ==> forall i :: i in updated <==> i in AllIndices(batches)
    {
      updated := [];
      var waiting := batches;
      ghost var done := named;
      while waiting != []
        invariant forall b :: b in waiting ==> b in batches
        invariant Summarised(llm, init, nodes[..], level, done)
        invariant done + AllIndices(waiting) == named + AllIndices(batches)
        invariant (set i | i in updated) + AllIndices(waiting) == AllIndices(batches)
        decreases |waiting|
      {
        var next :| 0 <= next < |waiting|;
        if * {
          return false, updated;
        }
        assert waiting[next] in batches;
        AllIndicesWithout(waiting, next);
        var more := Collect(nodes, waiting[next], level, init, done);
        updated := updated + more;
        done := done + Indices(waiting[next]);
        waiting := waiting[..next] + waiting[next + 1..];
      }
      return true, updated;
    }

    /** Writes a finished level to the store, one node at a time; a write that fails is passed over. */
    method Flush(nodes: array<TreeNode>, updated: seq<nat>, level: u8, ghost init: seq<TreeNode>, store: NodeStore)
      requires Tree(init) && Summarised(llm, init, nodes[..], level, PendingSet(init, level))
      requires forall i :: i in updated <==> i in AskedSet(llm, init, level)
      requires HoldsLevels(llm, ForestOf(init), store.nodes, level, {}, store.lost)
      modifies store
      ensures HoldsLevels(llm, ForestOf(init), store.nodes, level - 1, {}, store.lost)
      ensures Extends(llm, ForestOf(init), old(store.history), store.history, store.lost)
      ensures old(store.lost) ==> store.lost
    {
      ghost var f := ForestOf(init);
      ghost var done: set<NodeId> := {};
      for k := 0 to |updated|
        invariant done == IdsOf(init, updated[..k])
        invariant HoldsLevels(llm, f, store.nodes, level, done, store.lost)
        invariant Extends(llm, f, old(store.history), store.history, store.lost) && (old(store.lost) ==> store.lost)
      {
        var i := updated[k];
        FlushedNode(llm, init, nodes[..], level, i);
        ghost var g, before, lost := store.nodes, store.history, store.lost;
        var fine := store.UpdateNode(nodes[i]);
        HoldsOneMore(llm, f, g, level, done, lost, init[i].id, fine);
        IdsOfSnoc(init, updated, k);
        done := done + {init[i].id};
        IdsAreOnLevel(llm, init, updated[..k + 1], level);
        HeldOnTheWay(llm, f, store.nodes, level, done, store.lost);
        ExtendsByOne(llm, f, old(store.history), before, lost, store.nodes, store.lost);
      }
      assert updated[..|updated|] == updated;
      AllIdsFlushed(llm, init, updated, level);
      IdsAreOnLevel(llm, init, updated, level);
      StoredLevel(llm, f, level, done);
    }

    /** The store, if there is one, has the levels below `level`, but for the writes that it lost. */
    ghost predicate StoreAt(f: Forest, level: int)
      requires Layered(f)
      reads this, store
    {
      store != null ==> HoldsLevels(llm, f, store.nodes, level, {}, store.lost)
    }

    /** The store, if there is one, went from `before` only through states that a run may leave. */
    ghost predicate StoreExtends(f: Forest, before: seq<Forest>)
      reads this, store
    {
      store != null ==> Extends(llm, f, before, store.history, store.lost)
    }

    ghost function Lost(): bool
      reads this, store
    {
      store != null && store.lost
    }

    ghost function History(): seq<Forest>
      reads this, store
    {
      if store != null then store.history else []
    }

    /** Levels below `level` are summarised and stored. */
    ghost predicate AtLevel(nodes: array<TreeNode>, init: seq<TreeNode>, level: int)
      requires Tree(init)
      reads this, nodes, store
    {
      Summarised(llm, init, nodes[..], level, {}) && StoreAt(ForestOf(init), level)
    }

    /** The store has gone on from `history`, and what was lost stays lost. */
    ghost predicate GoesOn(f: Forest, history: seq<Forest>, lost: bool)
      reads this, store
    {
      StoreExtends(f, history) && (lost ==> Lost())
    }

    /** One depth level: cut batches, collect the replies in any order, flush. */
    method SummarizeLevel(
        nodes: array<TreeNode>, index: map<NodeId, nat>, level: u8, ghost init: seq<TreeNode>,
        ghost history: seq<Forest>, ghost lost: bool) returns (ok: bool)
      requires batchSize >= 1 && Tree(init) && IsIndex(init, index)
      requires AtLevel(nodes, init, level) && GoesOn(ForestOf(init), history, lost)
      modifies nodes, store
      ensures GoesOn(ForestOf(init), history, lost)
      ensures ok ==> AtLevel(nodes, init, level - 1)
    {
      var pending := PendingAt(nodes, level);
      PendingIsInitial(llm, init, nodes[..], level);
      var batches, named := PrepareBatches(nodes, index, pending, level, init);
      var updated;
      ok, updated := Dispatch(nodes, batches, level, init, named);
      if !ok {
        return;
      }
      BatchesAskAll(llm, init, level, named, batches);
      if store != null {
        ghost var before, lostBefore := store.history, store.lost;
        Flush(nodes, updated, level, init, store);
        ExtendsFurther(llm, ForestOf(init), history, before, lostBefore, store.history, store.lost);
      }
      LevelDone(llm, init, nodes[..], level);
    }

    method SummarizeLevels(nodes: array<TreeNode>, index: map<NodeId, nat>, deepest: u8, ghost init: seq<TreeNode>)
      returns (ok: bool)
      requires batchSize >= 1 && Tree(init) && IsIndex(init, index) && AtLevel(nodes, init, deepest)
      modifies nodes, store
      ensures GoesOn(ForestOf(init), old(History()), old(Lost()))
      ensures ok ==> AtLevel(nodes, init, -1)
    {
      var level: int := deepest;
      ghost var history, lost := History(), Lost();
      while level >= 0
        invariant -1 <= level <= deepest
        invariant AtLevel(nodes, init, level) && GoesOn(ForestOf(init), history, lost)
      {
        var fine := SummarizeLevel(nodes, index, level, init, history, lost);
        if !fine {
          return false;
        }
        level := level - 1;
      }
      assert level == -1;
      return true;
    }

    /**
     * Summarises every node in place.  Whatever the batch size, the order of
     * replies, or a failing batch: each node ends with the summary of the fold
     * when no batch fails, and at every moment the store is one that a resumed
     * run can start from.
     */
    method SummarizeBatch(nodes: array<TreeNode>) returns (ok: bool)
      requires batchSize >= 1 && Tree(nodes[..])
      requires store != null ==> store.nodes == ForestOf(nodes[..])
      modifies nodes, store
      ensures ok ==> AllSummarised(llm, old(nodes[..]), nodes[..])
      ensures store != null ==>
          Extends(llm, ForestOf(old(nodes[..])), old(store.history), store.history, store.lost)
      ensures store != null && old(store.lost) ==> store.lost
      ensures ok && store != null && !store.lost ==> store.nodes == FlushedForest(llm, ForestOf(old(nodes[..])))
      ensures ok ==> AllSay(llm, ForestOf(old(nodes[..])), ForestOf(nodes[..]))
      ensures ok && store != null && !store.lost ==>
          StoreSays(ForestOf(old(nodes[..])), ForestOf(nodes[..]), store.nodes)
    {
      ghost var init := nodes[..];
      var index := BuildIndex(nodes);
      var deepest := MaxDepth(nodes);
      NothingDone(llm, init, deepest);
      NothingLost(llm, ForestOf(init));
      ok := SummarizeLevels(nodes, index, deepest, init);
      if ok {
        AllDone(llm, init, nodes[..]);
        FoldedForest(llm, init, nodes[..]);
        FlushedSays(llm, ForestOf(init), ForestOf(nodes[..]));
      }
    }
  }

  // ---- Ingest, crash, resume --------------------------------------------

  lemma {:induction false} ForestOfSnoc(ns: seq<TreeNode>, n: TreeNode)
    ensures ForestOf(ns + [n]) == ForestOf(ns)[n.id := n]
  {
    assert (ns + [n])[..|ns|] == ns;
  }

  /** `listed` holds each node of `g` that is not in `left`, once. */
  ghost predicate Listed(g: Forest, listed: seq<TreeNode>, left: set<NodeId>) {
    && left <= g.Keys && Distinct(listed)
    && (forall n :: n in listed ==> n.id !in left)
    && ForestOf(listed) == g - left
  }

  lemma {:induction false} ListedOneMore(g: Forest, listed: seq<TreeNode>, left: set<NodeId>, id: NodeId)
    requires Listed(g, listed, left) && id in left && g[id].id == id
    ensures Listed(g, listed + [g[id]], left - {id})
  {
    ForestOfSnoc(listed, g[id]);
    assert g - (left - {id}) == (g - left)[id := g[id]];
  }

  /** The stored nodes of the document, in whatever order the store lists them. */
  method GetNodesForDocument(store: NodeStore) returns (nodes: array<TreeNode>)
    requires forall id :: id in store.nodes ==> store.nodes[id].id == id
    ensures fresh(nodes) && Distinct(nodes[..]) && ForestOf(nodes[..]) == store.nodes
  {
    var g := store.nodes;
    var listed: seq<TreeNode> := [];
    var left := g.Keys;
    while left != {}
      invariant Listed(g, listed, left)
      decreases |left|
    {
      var id :| id in left;
      ListedOneMore(g, listed, left, id);
      listed := listed + [g[id]];
      left := left - {id};
    }
    nodes := new TreeNode[|listed|](i requires 0 <= i < |listed| => listed[i]);
    assert nodes[..] == listed;
  }

  /** Stores the nodes, then summarises them; a crash may come at any moment after the first write. */
  method IngestCheckpointed(llm: Llm, batchSize: nat, nodes: array<TreeNode>) returns (ok: bool, store: NodeStore)
    requires batchSize >= 1 && Tree(nodes[..])
    modifies nodes
    ensures ok ==> AllSummarised(llm, old(nodes[..]), nodes[..])
    ensures ok ==> AllSay(llm, ForestOf(old(nodes[..])), ForestOf(nodes[..]))
    ensures forall k :: 0 <= k < |store.history| ==>
      MayHold(llm, ForestOf(old(nodes[..])), store.history[k], store.lost)
  {
    ghost var f := ForestOf(nodes[..]);
    store := new NodeStore(ForestOf(nodes[..]));
    UntouchedIsFlushing(llm, f);
    NothingLost(llm, f);
    var summarizer := new Summarizer(llm, batchSize, store);
    ok := summarizer.SummarizeBatch(nodes);
  }

  /**
   * Resumes over a store that a crashed ingest of `f`, or a crashed resume,
   * left behind, with or without lost writes.  The nodes end as in a run without
   * a crash, and the store only passes through states that can be resumed again.
   */
  method ResumeSummarization(llm: Llm, batchSize: nat, store: NodeStore, ghost f: Forest)
    returns (ok: bool, nodes: array<TreeNode>)
    requires batchSize >= 1 && Layered(f) && MayResume(llm, f, store.lost) && MayHold(llm, f, store.nodes, store.lost)
    modifies store
    ensures Extends(llm, f, old(store.history), store.history, store.lost) && (old(store.lost) ==> store.lost)
    ensures ok ==> Distinct(nodes[..]) && ResumedTo(llm, f, nodes[..])
  {
    ghost var g := store.nodes;
    HeldResumes(llm, f, g, store.lost);
    nodes := GetNodesForDocument(store);
    ghost var init := nodes[..];
    var pending := AnyPending(nodes);
    if !pending {
      NothingPending(llm, f, g, init);
      return true, nodes;
    }
    var summarizer := new Summarizer(llm, batchSize, store);
    ok := summarizer.SummarizeBatch(nodes);
    ExtendsThrough(llm, f, g, old(store.lost), old(store.history), store.history, store.lost);
    if ok { TargetsResume(llm, f, g, init, nodes[..]); }
  }

  method AnyPending(nodes: array<TreeNode>) returns (pending: bool)
    ensures pending <==> exists n :: n in nodes[..] && n.summary == ""
  {
    pending := false;
    for i := 0 to nodes.Length
      invariant pending <==> exists n :: n in nodes[..i] && n.summary == ""
    {
      assert nodes[..i + 1] == nodes[..i] + [nodes[i]];
      if nodes[i].summary == "" { pending := true; }
    }
    assert nodes[..nodes.Length] == nodes[..];
  }

  /** The nodes of `f`, in some order, each with the summary of the uninterrupted run. */
  ghost predicate ResumedTo(llm: Llm, f: Forest, ns: seq<TreeNode>)
    requires Layered(f)
  {
    && (forall n :: n in ns ==> n.id in f && n == f[n.id].(summary := Fold(llm, f, n.id)))
    && (forall id :: id in f ==> exists n :: n in ns && n.id == id)
  }

  lemma {:induction false} NothingPending(llm: Llm, f: Forest, g: Forest, ns: seq<TreeNode>)
    requires Layered(f) && Layered(g) && SameTree(f, g) && SameSummaries(llm, f, g)
    requires Distinct(ns) && ForestOf(ns) == g && forall n :: n in ns ==> n.summary != ""
    ensures ResumedTo(llm, f, ns)
  {
    ForestHolds(ns);
    forall n | n in ns ensures n.id in f && n == f[n.id].(summary := Fold(llm, f, n.id)) {
      assert Fold(llm, g, n.id) == n.summary;
    }
  }

  lemma {:induction false} SameIdsListed(llm: Llm, init: seq<TreeNode>, ns: seq<TreeNode>)
    requires Tree(init) && AllSummarised(llm, init, ns)
    ensures Distinct(ns)
    ensures forall id :: id in ForestOf(init) ==> exists n :: n in ns && n.id == id
  {
    ForestHolds(init);
    forall id | id in ForestOf(init) ensures exists n :: n in ns && n.id == id {
      var i :| 0 <= i < |init| && init[i].id == id;
      assert ns[i] in ns;
    }
  }

  lemma {:induction false} TargetsResume(llm: Llm, f: Forest, g: Forest, init: seq<TreeNode>, ns: seq<TreeNode>)
    requires Layered(f) && Layered(g) && SameTree(f, g) && SameSummaries(llm, f, g)
    requires Tree(init) && ForestOf(init) == g && AllSummarised(llm, init, ns)
    ensures Distinct(ns) && ResumedTo(llm, f, ns)
  {
    SameIdsListed(llm, init, ns);
    forall n | n in ns ensures n.id in f && n == f[n.id].(summary := Fold(llm, f, n.id)) {
      var i :| 0 <= i < |ns| && ns[i] == n;
      ForestHolds(init);
    }
  }

  lemma {:induction false} ExtendsThrough(
      llm: Llm, f: Forest, g: Forest, before: bool, first: seq<Forest>, history: seq<Forest>, lost: bool)
    requires MayHold(llm, f, g, before) && Layered(f) && MayResume(llm, f, before) && (before ==> lost)
    requires Extends(llm, g, first, history, lost)
    ensures Extends(llm, f, first, history, lost)
  {
    forall k | |first| <= k < |history| ensures MayHold(llm, f, history[k], lost) {
      HeldFurther(llm, f, g, history[k], before, lost);
    }
  }
}
