// What summarising a document tree means, as a plain recursive fold, and why a
// run that resumes from a partly flushed store means the same.
module SummaryFold {
  import opened Common

  type NodeId = string

  datatype TreeNode = TreeNode(
    id: NodeId, title: string, summary: string, depth: u8, parent: Option<NodeId>, children: seq<NodeId>,
    content: Option<string>)
  {
    predicate IsLeaf() { children == [] }
  }

  datatype Context = Context(title: string, parentSummary: Option<string>, depth: u8, isLeaf: bool)

  datatype Item = Item(id: NodeId, content: string, context: Context)

  /** The reply to one item of a batch; `None` when the reply leaves the item out. */
  type Llm = Item -> Option<string>

  type Forest = map<NodeId, TreeNode>

  /** The index over a list of nodes: a later node with the same id wins. */
  function ForestOf(ns: seq<TreeNode>): Forest {
    if ns == [] then map[] else ForestOf(ns[..|ns| - 1])[ns[|ns| - 1].id := ns[|ns| - 1]]
  }

  ghost predicate Distinct(ns: seq<TreeNode>) {
    forall i, j :: 0 <= i < j < |ns| ==> ns[i].id != ns[j].id
  }

  /** Links lead strictly deeper, and nodes are filed under their own id. */
  ghost predicate Layered(f: Forest) {
    forall id :: id in f ==>
      && f[id].id == id
      && (forall c :: c in f[id].children && c in f ==> f[c].depth > f[id].depth)
      && (f[id].parent.Some? && f[id].parent.value in f ==> f[f[id].parent.value].depth < f[id].depth)
  }

  lemma {:induction false} ForestHolds(ns: seq<TreeNode>)
    requires Distinct(ns)
    ensures forall i :: 0 <= i < |ns| ==> ns[i].id in ForestOf(ns) && ForestOf(ns)[ns[i].id] == ns[i]
    ensures forall id :: id in ForestOf(ns) ==> exists i :: 0 <= i < |ns| && ns[i].id == id
  {
    if ns != [] {
      var front := ns[..|ns| - 1];
      ForestHolds(front);
      forall id | id in ForestOf(ns) ensures exists i :: 0 <= i < |ns| && ns[i].id == id {
        if id in ForestOf(front) {
          var i :| 0 <= i < |front| && front[i].id == id;
          assert ns[i].id == id;
        } else {
          assert ns[|ns| - 1].id == id;
        }
      }
    }
  }

  // ---- One node ---------------------------------------------------------

  function Part(title: string, summary: string): seq<string> {
    if summary == "" then [] else ["- " + title + ": " + summary]
  }

  function ContentOf(n: TreeNode, parts: seq<string>): string {
    if n.IsLeaf() then (if n.content.Some? then n.content.value else "") else Join(parts, "\n")
  }

  function ParentSummary(f: Forest, n: TreeNode): Option<string> {
    if n.parent.Some? && n.parent.value in f then Some(f[n.parent.value].summary) else None
  }

  function ItemOf(n: TreeNode, content: string, parentSummary: Option<string>): Item {
    Item(n.id, content, Context(n.title, parentSummary, n.depth, n.IsLeaf()))
  }

  /** What a node is called when there is nothing to summarise. */
  function Fallback(n: TreeNode): string { "Section: " + n.title }

  function Answer(llm: Llm, n: TreeNode, content: string, parentSummary: Option<string>): string {
    if content == "" then Fallback(n)
    else
      match llm(ItemOf(n, content, parentSummary))
      case Some(summary) => summary
      case None => Fallback(n)
  }

  // ---- The fold ---------------------------------------------------------

  function FoldParts(llm: Llm, f: Forest, ids: seq<NodeId>, above: u8): seq<string>
    requires Layered(f) && forall c :: c in ids && c in f ==> f[c].depth > above
    decreases 256 - above, 0, |ids|
  {
    if ids == [] then []
    else
      (if ids[0] in f then Part(f[ids[0]].title, Fold(llm, f, ids[0])) else [])
      + FoldParts(llm, f, ids[1..], above)
  }

  function FoldContent(llm: Llm, f: Forest, id: NodeId): string
    requires Layered(f) && id in f
    decreases 256 - f[id].depth, 1
  {
    ContentOf(f[id], FoldParts(llm, f, f[id].children, f[id].depth))
  }

  /** A summary is kept; a node without one gets the reply on its own text or on its children's summaries. */
  function Fold(llm: Llm, f: Forest, id: NodeId): string
    requires Layered(f) && id in f
    decreases 256 - f[id].depth, 2
  {
    if f[id].summary != "" then f[id].summary
    else Answer(llm, f[id], FoldContent(llm, f, id), ParentSummary(f, f[id]))
  }

  ghost predicate NeedsLlm(llm: Llm, f: Forest, id: NodeId)
    requires Layered(f) && id in f
  {
    f[id].summary == "" && FoldContent(llm, f, id) != ""
  }

  // ---- What the summaries say -------------------------------------------

  /** One line for each listed child that has a summary, in the order of the list. */
  ghost predicate AreLines(g: Forest, children: seq<NodeId>, named: seq<NodeId>, lines: seq<string>) {
    && IsFiltered(c => c in g && g[c].summary != "", children, named)
    && |lines| == |named|
    && forall i :: 0 <= i < |lines| ==> IsLine(g, named[i], lines[i])
  }

  ghost predicate IsLine(g: Forest, c: NodeId, line: string) {
    c in g && line == "- " + g[c].title + ": " + g[c].summary
  }

  /** What a node has to say, when its children have the summaries they have in `g`. */
  ghost predicate Says(g: Forest, n: TreeNode, content: string) {
    && (n.children == [] ==> content == if n.content.Some? then n.content.value else "")
    && (n.children != [] ==>
          exists named, lines :: AreLines(g, n.children, named, lines) && IsJoined(lines, "\n", content))
  }

  /** The summary of a node that says `content`, below a parent whose summary was `above` before the run. */
  ghost predicate IsReply(llm: Llm, n: TreeNode, above: Option<string>, content: string, summary: string) {
    && (content == "" ==> summary == "Section: " + n.title)
    && (content != "" ==>
          match llm(Item(n.id, content, Context(n.title, above, n.depth, n.children == [])))
          case Some(reply) => summary == reply
          case None => summary == "Section: " + n.title)
  }

  /** A summary in `f` is kept; every other node has in `g` the reply to what it says there. */
  ghost predicate IsSummarised(llm: Llm, f: Forest, g: Forest, id: NodeId)
    requires id in f && id in g
  {
    var n := f[id];
    && g[id] == n.(summary := g[id].summary)
    && (n.summary != "" ==> g[id].summary == n.summary)
    && (n.summary == "" ==>
          var above := if n.parent.Some? && n.parent.value in f then Some(f[n.parent.value].summary) else None;
          exists content :: Says(g, n, content) && IsReply(llm, n, above, content, g[id].summary))
  }

  ghost predicate AllSay(llm: Llm, f: Forest, g: Forest) {
    f.Keys == g.Keys && forall id :: id in f ==> IsSummarised(llm, f, g, id)
  }

  /** The children that have something to say. */
  ghost function Speaking(g: Forest): NodeId -> bool { c => c in g && g[c].summary != "" }

  ghost predicate SpeakInLines(g: Forest, named: seq<NodeId>, lines: seq<string>) {
    |lines| == |named| && forall i :: 0 <= i < |lines| ==> IsLine(g, named[i], lines[i])
  }

  lemma {:induction false} LinesOfSpeakers(g: Forest, ids: seq<NodeId>, lines: seq<string>)
    requires SpeakInLines(g, Filter(Speaking(g), ids), lines)
    ensures AreLines(g, ids, Filter(Speaking(g), ids), lines)
  {
    FilterIsFiltered(Speaking(g), c => c in g && g[c].summary != "", ids);
  }

  lemma {:induction false} OneMoreSpeaks(g: Forest, c: NodeId, named: seq<NodeId>, line: string, lines: seq<string>)
    requires SpeakInLines(g, named, lines) && IsLine(g, c, line)
    ensures SpeakInLines(g, [c] + named, [line] + lines)
  {
  }

  lemma {:induction false} PartsAreLines(llm: Llm, f: Forest, g: Forest, ids: seq<NodeId>, above: u8)
    requires Layered(f) && f.Keys == g.Keys && forall c :: c in ids && c in f ==> f[c].depth > above
    requires forall c :: c in ids && c in f ==> g[c].title == f[c].title && g[c].summary == Fold(llm, f, c)
    ensures SpeakInLines(g, Filter(Speaking(g), ids), FoldParts(llm, f, ids, above))
    decreases |ids|
  {
    if ids != [] {
      PartsAreLines(llm, f, g, ids[1..], above);
      if Speaking(g)(ids[0]) {
        OneMoreSpeaks(g, ids[0], Filter(Speaking(g), ids[1..]),
          "- " + g[ids[0]].title + ": " + g[ids[0]].summary, FoldParts(llm, f, ids[1..], above));
      }
    }
  }

  lemma {:induction false} SpeakersSay(g: Forest, n: TreeNode, lines: seq<string>)
    requires n.children != [] && SpeakInLines(g, Filter(Speaking(g), n.children), lines)
    ensures Says(g, n, Join(lines, "\n"))
  {
    LinesOfSpeakers(g, n.children, lines);
    JoinIsJoined(lines, "\n");
  }

  /** The fold gives every node the reply to what its children say. */
  lemma {:induction false} FoldSays(llm: Llm, f: Forest, g: Forest, id: NodeId)
    requires Layered(f) && f.Keys == g.Keys && id in f
    requires forall i :: i in f ==> g[i] == f[i].(summary := Fold(llm, f, i))
    ensures IsSummarised(llm, f, g, id)
    ensures Says(g, f[id], FoldContent(llm, f, id))
  {
    var n, content := f[id], FoldContent(llm, f, id);
    if n.children != [] {
      var parts := FoldParts(llm, f, n.children, n.depth);
      PartsAreLines(llm, f, g, n.children, n.depth);
      SpeakersSay(g, n, parts);
    }
    assert Says(g, n, content);
    if n.summary == "" { assert IsReply(llm, n, ParentSummary(f, n), content, g[id].summary); }
  }

  // ---- Stores along a run -----------------------------------------------

  /** `g` holds the nodes of `f`, with other summaries at most. */
  ghost predicate SameTree(f: Forest, g: Forest) {
    f.Keys == g.Keys && forall id :: id in f ==> g[id] == f[id].(summary := g[id].summary)
  }

  lemma {:induction false} SameTreeIsLayered(f: Forest, g: Forest)
    requires Layered(f) && SameTree(f, g)
    ensures Layered(g)
  {
  }

  /**
   * What the store may hold while a run over `f` flushes level `level`: deeper
   * levels are written, shallower ones are not, this one may be half written,
   * and nodes that need no reply are never written.
   */
  ghost predicate Flushing(llm: Llm, f: Forest, g: Forest, level: int)
    requires Layered(f)
  {
    && SameTree(f, g)
    && forall id :: id in f ==> FlushingNode(llm, f, g[id].summary, id, level)
  }

  ghost predicate FlushingNode(llm: Llm, f: Forest, stored: string, id: NodeId, level: int)
    requires Layered(f) && id in f
  {
    && (stored == f[id].summary || (NeedsLlm(llm, f, id) && f[id].depth >= level && stored == Fold(llm, f, id)))
    && (NeedsLlm(llm, f, id) && f[id].depth > level ==> stored == Fold(llm, f, id))
  }

  /** The node is replied the same again once its parent's summary is known. */
  ghost predicate Repeats(llm: Llm, f: Forest, id: NodeId)
    requires Layered(f) && id in f && ParentIsWritten(llm, f, id)
  {
    Answer(llm, f[id], FoldContent(llm, f, id), Some(Fold(llm, f, f[id].parent.value))) == Fold(llm, f, id)
  }

  /**
   * A reply that was blank is blank again once the parent's summary is known.
   * It is vacuous for a reasoner that never replies with an empty summary.
   */
  ghost predicate BlanksRepeat(llm: Llm, f: Forest)
    requires Layered(f)
  {
    forall id :: id in f && NeedsLlm(llm, f, id) && ParentIsWritten(llm, f, id) && Fold(llm, f, id) == "" ==>
      Repeats(llm, f, id)
  }

  /** Every reply is the same again once the parent's summary is known. */
  ghost predicate RepliesRepeat(llm: Llm, f: Forest)
    requires Layered(f)
  {
    forall id :: id in f && NeedsLlm(llm, f, id) && ParentIsWritten(llm, f, id) ==> Repeats(llm, f, id)
  }

  ghost predicate ParentIsWritten(llm: Llm, f: Forest, id: NodeId)
    requires Layered(f) && id in f
  {
    f[id].parent.Some? && f[id].parent.value in f && NeedsLlm(llm, f, f[id].parent.value)
  }

  ghost predicate SameSummaries(llm: Llm, f: Forest, g: Forest)
    requires Layered(f) && Layered(g)
  {
    f.Keys == g.Keys && forall id :: id in f ==> Fold(llm, g, id) == Fold(llm, f, id)
  }

  lemma {:induction false} PartsAgree(llm: Llm, f: Forest, g: Forest, ids: seq<NodeId>, above: u8)
    requires Layered(f) && Layered(g) && SameTree(f, g)
    requires forall c :: c in ids && c in f ==> f[c].depth > above && Fold(llm, g, c) == Fold(llm, f, c)
    ensures FoldParts(llm, g, ids, above) == FoldParts(llm, f, ids, above)
    decreases |ids|
  {
    if ids != [] { PartsAgree(llm, f, g, ids[1..], above); }
  }

  /** What the store may hold when any of the writes of a run over `f` may fail. */
  ghost predicate Lossy(llm: Llm, f: Forest, g: Forest)
    requires Layered(f)
  {
    SameTree(f, g) && forall id :: id in f ==> LossyNode(llm, f, g[id].summary, id)
  }

  ghost predicate LossyNode(llm: Llm, f: Forest, stored: string, id: NodeId)
    requires Layered(f) && id in f
  {
    stored == f[id].summary || (NeedsLlm(llm, f, id) && stored == Fold(llm, f, id))
  }

  /** Every node that is asked again is replied the same again, beside the parent that `g` holds. */
  ghost predicate AsksAgain(llm: Llm, f: Forest, g: Forest)
    requires Layered(f) && SameTree(f, g)
  {
    forall id :: id in f && NeedsLlm(llm, f, id) && g[id].summary == "" ==> AsksNodeAgain(llm, f, g, id)
  }

  ghost predicate AsksNodeAgain(llm: Llm, f: Forest, g: Forest, id: NodeId)
    requires Layered(f) && id in f && id in g
  {
    Answer(llm, f[id], FoldContent(llm, f, id), ParentSummary(g, f[id])) == Fold(llm, f, id)
  }

  lemma {:induction false} SameAnswer(llm: Llm, f: Forest, g: Forest, id: NodeId)
    requires SameTree(f, g) && id in f
    ensures forall content, above :: Answer(llm, g[id], content, above) == Answer(llm, f[id], content, above)
    ensures ParentSummary(g, g[id]) == ParentSummary(g, f[id])
  {
  }

  /** A resumed fold gives what the uninterrupted one gives, node by node from the leaves up. */
  lemma {:induction false} ResumedNode(llm: Llm, f: Forest, g: Forest, id: NodeId)
    requires Layered(f) && Layered(g) && Lossy(llm, f, g) && AsksAgain(llm, f, g) && id in f
    ensures Fold(llm, g, id) == Fold(llm, f, id)
    decreases 256 - f[id].depth
  {
    assert LossyNode(llm, f, g[id].summary, id);
    if g[id].summary == "" && f[id].summary == "" {
      forall c | c in f[id].children && c in f ensures Fold(llm, g, c) == Fold(llm, f, c) {
        ResumedNode(llm, f, g, c);
      }
      PartsAgree(llm, f, g, f[id].children, f[id].depth);
      SameAnswer(llm, f, g, id);
      assert FoldContent(llm, g, id) == FoldContent(llm, f, id);
      if NeedsLlm(llm, f, id) { assert AsksNodeAgain(llm, f, g, id); }
    }
  }

  /** Conversely, equal summaries mean that whatever was asked again was replied the same. */
  lemma {:induction false} AgreesOnlyIfSame(llm: Llm, f: Forest, g: Forest, id: NodeId)
    requires Layered(f) && Layered(g) && SameTree(f, g) && SameSummaries(llm, f, g)
    requires id in f && NeedsLlm(llm, f, id) && g[id].summary == ""
    ensures AsksNodeAgain(llm, f, g, id)
  {
    PartsAgree(llm, f, g, f[id].children, f[id].depth);
    SameAnswer(llm, f, g, id);
    assert FoldContent(llm, g, id) == FoldContent(llm, f, id);
  }

  /**
   * Resuming from a store with any of the writes missing gives the summaries of
   * the uninterrupted run exactly when what is asked again is replied the same.
   */
  lemma {:induction false} AgreesIffAskedTheSame(llm: Llm, f: Forest, g: Forest)
    requires Layered(f) && Lossy(llm, f, g)
    ensures Layered(g) && (SameSummaries(llm, f, g) <==> AsksAgain(llm, f, g))
  {
    SameTreeIsLayered(f, g);
    if AsksAgain(llm, f, g) {
      forall id | id in f ensures Fold(llm, g, id) == Fold(llm, f, id) { ResumedNode(llm, f, g, id); }
    }
    if SameSummaries(llm, f, g) {
      forall id | id in f && NeedsLlm(llm, f, id) && g[id].summary == "" ensures AsksNodeAgain(llm, f, g, id) {
        AgreesOnlyIfSame(llm, f, g, id);
      }
    }
  }

  lemma {:induction false} FlushingIsLossy(llm: Llm, f: Forest, g: Forest, level: int)
    requires Layered(f) && Flushing(llm, f, g, level)
    ensures Lossy(llm, f, g)
  {
    forall id | id in f ensures LossyNode(llm, f, g[id].summary, id) {
      assert FlushingNode(llm, f, g[id].summary, id, level);
    }
  }

  /** While a run flushes level by level, only blank replies are asked again beside a written parent. */
  lemma {:induction false} FlushingAsksAgain(llm: Llm, f: Forest, g: Forest, level: int)
    requires Layered(f) && Flushing(llm, f, g, level) && BlanksRepeat(llm, f)
    ensures AsksAgain(llm, f, g)
  {
    forall id | id in f && NeedsLlm(llm, f, id) && g[id].summary == "" ensures AsksNodeAgain(llm, f, g, id) {
      assert FlushingNode(llm, f, g[id].summary, id, level);
      LastParent(llm, f, g, level, id);
      if ParentIsWritten(llm, f, id) && Fold(llm, f, id) == "" { assert Repeats(llm, f, id); }
    }
  }

  lemma {:induction false} LastParent(llm: Llm, f: Forest, g: Forest, level: int, id: NodeId)
    requires Layered(f) && Flushing(llm, f, g, level) && id in f
    ensures ParentSummary(g, f[id]) == ParentSummary(f, f[id])
      || (ParentIsWritten(llm, f, id) && ParentSummary(g, f[id]) == Some(Fold(llm, f, f[id].parent.value))
          && f[id].depth > level)
  {
    if f[id].parent.Some? && f[id].parent.value in f {
      var p := f[id].parent.value;
      assert FlushingNode(llm, f, g[p].summary, p, level);
    }
  }

  /** The store once every level has been flushed. */
  ghost function FlushedForest(llm: Llm, f: Forest): (g: Forest)
    requires Layered(f)
    ensures Flushing(llm, f, g, -1) && Layered(g)
  {
    map id | id in f :: f[id].(summary := if NeedsLlm(llm, f, id) then Fold(llm, f, id) else f[id].summary)
  }

  /** A fully flushed store has the final summaries of exactly those nodes that had none and have something to say. */
  ghost predicate StoreSays(f: Forest, g: Forest, stored: Forest) {
    stored.Keys == f.Keys == g.Keys && forall id :: id in f ==> StoredSays(g, f[id], g[id].summary, stored[id])
  }

  ghost predicate StoredSays(g: Forest, n: TreeNode, summary: string, stored: TreeNode) {
    exists content :: Says(g, n, content)
      && stored == n.(summary := if n.summary == "" && content != "" then summary else n.summary)
  }

  lemma {:induction false} FlushedSays(llm: Llm, f: Forest, g: Forest)
    requires Layered(f) && f.Keys == g.Keys && forall i :: i in f ==> g[i] == f[i].(summary := Fold(llm, f, i))
    ensures AllSay(llm, f, g) && StoreSays(f, g, FlushedForest(llm, f))
  {
    var stored := FlushedForest(llm, f);
    forall id | id in f ensures IsSummarised(llm, f, g, id) && StoredSays(g, f[id], g[id].summary, stored[id]) {
      FoldSays(llm, f, g, id);
    }
  }

  /**
   * Resuming from any state of the store gives the summaries of the
   * uninterrupted run, exactly when blank replies repeat.
   */
  lemma {:induction false} ResumeAgreesIff(llm: Llm, f: Forest)
    requires Layered(f)
    ensures BlanksRepeat(llm, f)
      <==> forall g, level :: Flushing(llm, f, g, level) ==> Layered(g) && SameSummaries(llm, f, g)
  {
    if BlanksRepeat(llm, f) {
      forall g, level | Flushing(llm, f, g, level) ensures Layered(g) && SameSummaries(llm, f, g) {
        ResumeAgrees(llm, f, g, level);
      }
    }
    if SameSummaries(llm, f, FlushedForest(llm, f)) { OnlyIfBlanksRepeat(llm, f); }
  }

  lemma {:induction false} ResumeAgrees(llm: Llm, f: Forest, g: Forest, level: int)
    requires Layered(f) && BlanksRepeat(llm, f) && Flushing(llm, f, g, level)
    ensures Layered(g) && SameSummaries(llm, f, g)
  {
    FlushingIsLossy(llm, f, g, level);
    FlushingAsksAgain(llm, f, g, level);
    AgreesIffAskedTheSame(llm, f, g);
  }

  lemma {:induction false} OnlyIfBlanksRepeat(llm: Llm, f: Forest)
    requires Layered(f) && SameSummaries(llm, f, FlushedForest(llm, f))
    ensures BlanksRepeat(llm, f)
  {
    var g := FlushedForest(llm, f);
    forall id | id in f && NeedsLlm(llm, f, id) && ParentIsWritten(llm, f, id) && Fold(llm, f, id) == ""
      ensures Repeats(llm, f, id)
    {
      AgreesOnlyIfSame(llm, f, g, id);
      assert AsksNodeAgain(llm, f, g, id);
    }
  }

  /**
   * A failed write of a node is not noticed either.  Whatever writes fail, a
   * resumed run gives the summaries of the uninterrupted one, exactly when every
   * reply repeats, not only the blank ones.
   */
  lemma {:induction false} LostWritesAgreeIff(llm: Llm, f: Forest)
    requires Layered(f)
    ensures RepliesRepeat(llm, f) <==> forall g :: Lossy(llm, f, g) ==> Layered(g) && SameSummaries(llm, f, g)
  {
    if RepliesRepeat(llm, f) {
      forall g | Lossy(llm, f, g) ensures Layered(g) && SameSummaries(llm, f, g) {
        LossyAsksAgain(llm, f, g);
        AgreesIffAskedTheSame(llm, f, g);
      }
    }
    if forall g :: Lossy(llm, f, g) ==> Layered(g) && SameSummaries(llm, f, g) {
      forall id | id in f && NeedsLlm(llm, f, id) && ParentIsWritten(llm, f, id) ensures Repeats(llm, f, id) {
        AllButIsLossy(llm, f, id);
        OneLostWrite(llm, f, id);
      }
    }
  }

  lemma {:induction false} LossyAsksAgain(llm: Llm, f: Forest, g: Forest)
    requires Layered(f) && Lossy(llm, f, g) && RepliesRepeat(llm, f)
    ensures AsksAgain(llm, f, g)
  {
    forall id | id in f && NeedsLlm(llm, f, id) && g[id].summary == "" ensures AsksNodeAgain(llm, f, g, id) {
      if f[id].parent.Some? && f[id].parent.value in f {
        assert LossyNode(llm, f, g[f[id].parent.value].summary, f[id].parent.value);
        if ParentIsWritten(llm, f, id) { assert Repeats(llm, f, id); }
      }
    }
  }

  /** The store when only the write of `id` has failed. */
  ghost function AllBut(llm: Llm, f: Forest, id: NodeId): Forest
    requires Layered(f) && id in f
  {
    FlushedForest(llm, f)[id := f[id]]
  }

  lemma {:induction false} AllButIsLossy(llm: Llm, f: Forest, id: NodeId)
    requires Layered(f) && id in f
    ensures Lossy(llm, f, AllBut(llm, f, id)) && Layered(AllBut(llm, f, id))
  {
    var g := FlushedForest(llm, f);
    FlushingIsLossy(llm, f, g, -1);
    forall i | i in f ensures LossyNode(llm, f, AllBut(llm, f, id)[i].summary, i) {
      assert LossyNode(llm, f, g[i].summary, i);
    }
    SameTreeIsLayered(f, AllBut(llm, f, id));
  }

  lemma {:induction false} OneLostWrite(llm: Llm, f: Forest, id: NodeId)
    requires Layered(f) && id in f && NeedsLlm(llm, f, id) && ParentIsWritten(llm, f, id)
    requires Layered(AllBut(llm, f, id)) && SameSummaries(llm, f, AllBut(llm, f, id))
    ensures Repeats(llm, f, id)
  {
    AgreesOnlyIfSame(llm, f, AllBut(llm, f, id), id);
    assert f[id].parent.value != id;
  }

  /** A reasoner that never replies with an empty summary is safe to resume. */
  lemma {:induction false} RealRepliesResume(llm: Llm, f: Forest)
    requires Layered(f) && forall item :: llm(item) != Some("")
    ensures BlanksRepeat(llm, f)
  {
    forall id | id in f ensures Fold(llm, f, id) != "" {
      assert Answer(llm, f[id], FoldContent(llm, f, id), ParentSummary(f, f[id])) != "";
    }
  }

  // ---- Any number of crashes --------------------------------------------

  /** A run over `f` may leave `g` behind. */
  ghost predicate MayLeave(llm: Llm, f: Forest, g: Forest) {
    Layered(f) && exists level :: Flushing(llm, f, g, level)
  }

  /** Each store is one that a run over the store before it may leave behind. */
  ghost predicate Crashes(llm: Llm, stores: seq<Forest>) {
    forall i :: 0 < i < |stores| ==> MayLeave(llm, stores[i - 1], stores[i])
  }

  /** A crash during a resumed run leaves a store that one crash could have left. */
  lemma {:induction false} CrashesCompose(llm: Llm, f: Forest, g: Forest, h: Forest, levelG: int, levelH: int)
    requires Layered(f) && Layered(g) && BlanksRepeat(llm, f)
    requires Flushing(llm, f, g, levelG) && Flushing(llm, g, h, levelH)
    ensures Flushing(llm, f, h, Min(levelG, levelH))
  {
    ResumeAgrees(llm, f, g, levelG);
    forall id | id in f ensures FlushingNode(llm, f, h[id].summary, id, Min(levelG, levelH)) {
      assert FlushingNode(llm, f, g[id].summary, id, levelG) && FlushingNode(llm, g, h[id].summary, id, levelH);
      PartsAgree(llm, f, g, f[id].children, f[id].depth);
      assert FoldContent(llm, g, id) == FoldContent(llm, f, id);
    }
  }

  lemma {:induction false} CrashesAreOneCrash(llm: Llm, stores: seq<Forest>) returns (level: int)
    requires |stores| > 0 && Layered(stores[0]) && BlanksRepeat(llm, stores[0]) && Crashes(llm, stores)
    ensures Flushing(llm, stores[0], stores[|stores| - 1], level)
    decreases |stores|
  {
    var last := |stores| - 1;
    if last == 0 {
      level := 256;
      UntouchedIsFlushing(llm, stores[0]);
    } else {
      var before := stores[..last];
      forall i | 0 < i < last ensures MayLeave(llm, before[i - 1], before[i]) {
        assert MayLeave(llm, stores[i - 1], stores[i]);
      }
      level := CrashesAreOneCrash(llm, before);
      assert MayLeave(llm, stores[last - 1], stores[last]);
      var last' :| Flushing(llm, stores[last - 1], stores[last], last');
      CrashesCompose(llm, stores[0], stores[last - 1], stores[last], level, last');
      level := Min(level, last');
    }
  }

  lemma {:induction false} UntouchedIsFlushing(llm: Llm, f: Forest)
    requires Layered(f)
    ensures Flushing(llm, f, f, 256)
  {
  }

  /** Crash and resume any number of times: the last run still gives the summaries of an uninterrupted one. */
  lemma {:induction false} ManyCrashesAgree(llm: Llm, stores: seq<Forest>)
    requires |stores| > 0 && Layered(stores[0]) && BlanksRepeat(llm, stores[0]) && Crashes(llm, stores)
    ensures Layered(stores[|stores| - 1]) && SameSummaries(llm, stores[0], stores[|stores| - 1])
  {
    var level := CrashesAreOneCrash(llm, stores);
    ResumeAgrees(llm, stores[0], stores[|stores| - 1], level);
  }

  // ---- Failed writes ----------------------------------------------------

  /** What the store may hold on the way, when writes have been `lost` or not. */
  ghost predicate MayHold(llm: Llm, f: Forest, g: Forest, lost: bool) {
    if lost then Layered(f) && Lossy(llm, f, g) else MayLeave(llm, f, g)
  }

  /** When a resumed run may be trusted. */
  ghost predicate MayResume(llm: Llm, f: Forest, lost: bool)
    requires Layered(f)
  {
    if lost then RepliesRepeat(llm, f) else BlanksRepeat(llm, f)
  }

  lemma {:induction false} HeldIsLossy(llm: Llm, f: Forest, g: Forest, lost: bool)
    requires MayHold(llm, f, g, lost)
    ensures Layered(f) && Layered(g) && Lossy(llm, f, g)
  {
    if !lost {
      var level :| Flushing(llm, f, g, level);
      FlushingIsLossy(llm, f, g, level);
    }
    SameTreeIsLayered(f, g);
  }

  lemma {:induction false} HeldResumes(llm: Llm, f: Forest, g: Forest, lost: bool)
    requires Layered(f) && MayHold(llm, f, g, lost) && MayResume(llm, f, lost)
    ensures Layered(g) && SameTree(f, g) && SameSummaries(llm, f, g)
  {
    if lost {
      LostWritesAgreeIff(llm, f);
    } else {
      var level :| Flushing(llm, f, g, level);
      ResumeAgrees(llm, f, g, level);
    }
  }

  /** Losing writes, resuming and losing writes again is losing writes once. */
  lemma {:induction false} LossesCompose(llm: Llm, f: Forest, g: Forest, h: Forest)
    requires Layered(f) && Layered(g) && Lossy(llm, f, g) && SameSummaries(llm, f, g) && Lossy(llm, g, h)
    ensures Lossy(llm, f, h)
  {
    forall id | id in f ensures LossyNode(llm, f, h[id].summary, id) {
      assert LossyNode(llm, f, g[id].summary, id) && LossyNode(llm, g, h[id].summary, id);
      PartsAgree(llm, f, g, f[id].children, f[id].depth);
      assert FoldContent(llm, g, id) == FoldContent(llm, f, id);
    }
  }

  /** What may be left behind by a run that resumed from what may have been left behind. */
  lemma {:induction false} HeldFurther(llm: Llm, f: Forest, g: Forest, h: Forest, before: bool, lost: bool)
    requires Layered(f) && MayHold(llm, f, g, before) && MayResume(llm, f, before)
    requires MayHold(llm, g, h, lost) && (before ==> lost)
    ensures MayHold(llm, f, h, lost)
  {
    HeldResumes(llm, f, g, before);
    if lost {
      HeldIsLossy(llm, f, g, before);
      LossesCompose(llm, f, g, h);
    } else {
      var levelG :| Flushing(llm, f, g, levelG);
      var levelH :| Flushing(llm, g, h, levelH);
      CrashesCompose(llm, f, g, h, levelG, levelH);
    }
  }

  // ---- The reply that does not repeat -----------------------------------

  /** Replies blank until it is told what the section is about. */
  function Fickle(item: Item): Option<string> {
    if item.id == "a" then (if item.context.parentSummary == Some("") then Some("") else Some("late")) else Some("s")
  }

  const PARENT := TreeNode("p", "P", "", 0, None, ["a", "b"], None)
  const BLANK := TreeNode("a", "A", "", 1, Some("p"), [], Some("x"))
  const PLAIN := TreeNode("b", "B", "", 1, Some("p"), [], Some("y"))

  const FAMILY: Forest := map["p" := PARENT, "a" := BLANK, "b" := PLAIN]

  lemma {:induction false} FamilyIsLayered()
    ensures Layered(FAMILY) && FAMILY.Keys == {"p", "a", "b"}
    ensures FAMILY["p"] == PARENT && FAMILY["a"] == BLANK && FAMILY["b"] == PLAIN
  {
  }

  /** A leaf without a summary is asked about its text. */
  lemma {:induction false} FoldOfLeaf(llm: Llm, f: Forest, id: NodeId)
    requires Layered(f) && id in f && f[id].IsLeaf() && f[id].content.Some? && f[id].content.value != ""
    requires f[id].summary == ""
    ensures FoldContent(llm, f, id) == f[id].content.value
    ensures Fold(llm, f, id) == Answer(llm, f[id], f[id].content.value, ParentSummary(f, f[id]))
  {
  }

  lemma {:induction false} FamilyLeaves()
    ensures Layered(FAMILY) && "a" in FAMILY && "b" in FAMILY && NeedsLlm(Fickle, FAMILY, "a")
    ensures Fold(Fickle, FAMILY, "a") == "" && Fold(Fickle, FAMILY, "b") == "s"
  {
    FamilyIsLayered();
    FoldOfLeaf(Fickle, FAMILY, "a");
    FoldOfLeaf(Fickle, FAMILY, "b");
  }

  lemma {:induction false} FamilyParts()
    ensures Layered(FAMILY) && FoldParts(Fickle, FAMILY, ["a", "b"], 0) == Part("B", "s")
  {
    FamilyIsLayered();
    FamilyLeaves();
    assert ["b"][1..] == [] && ["a", "b"][1..] == ["b"];
    assert FoldParts(Fickle, FAMILY, [], 0) == [];
    assert FoldParts(Fickle, FAMILY, ["b"], 0) == Part("B", "s");
  }

  lemma {:induction false} FamilyParent()
    ensures Layered(FAMILY) && "p" in FAMILY && NeedsLlm(Fickle, FAMILY, "p") && Fold(Fickle, FAMILY, "p") == "s"
  {
    FamilyIsLayered();
    FamilyParts();
    assert FoldContent(Fickle, FAMILY, "p") == Part("B", "s")[0];
    assert |Part("B", "s")[0]| > 0;
  }

  lemma {:induction false} FlushedFamily()
    ensures Layered(FAMILY) && FlushedForest(Fickle, FAMILY).Keys == {"p", "a", "b"}
    ensures FlushedForest(Fickle, FAMILY)["p"].summary == "s" && FlushedForest(Fickle, FAMILY)["a"] == BLANK
  {
    FamilyIsLayered();
    FamilyLeaves();
    FamilyParent();
  }

  /** Without the condition a resumed run may differ: here node `a` ends blank, or not, by the crash. */
  lemma {:induction false} ResumeMayDiffer()
    ensures Layered(FAMILY) && "a" in FAMILY && Flushing(Fickle, FAMILY, FlushedForest(Fickle, FAMILY), -1)
    ensures Fold(Fickle, FAMILY, "a") == "" && Fold(Fickle, FlushedForest(Fickle, FAMILY), "a") == "late"
  {
    FamilyIsLayered();
    FamilyLeaves();
    FamilyParent();
    FlushedFamily();
    FoldOfLeaf(Fickle, FlushedForest(Fickle, FAMILY), "a");
  }
}
