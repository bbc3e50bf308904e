// The tree builder as it runs: a stack of open headings, and nodes whose list of
// children grows in place; and the second builder that should agree with it.
module TreeBuilder {
  import opened Common
  import opened TreeShape
  import opened HeadingChains

  datatype BuildNode = BuildNode(
    title: string, content: string, depth: u8, children: seq<nat>, parent: Option<nat>, isLeaf: bool,
    summary: Option<string>)

  datatype PageNode = PageNode(
    title: string, summary: string, content: Option<string>, depth: u8, parent: Option<nat>, children: seq<nat>)

  /** Only a leaf with text keeps its text, and only it takes the summary supplied with the chunk. */
  function ToPageNode(n: BuildNode): PageNode {
    if n.isLeaf && n.content != ""
    then PageNode(
      n.title, if n.summary.Some? then n.summary.value else "", Some(n.content), n.depth, n.parent, n.children)
    else PageNode(n.title, "", None, n.depth, n.parent, n.children)
  }

  // ---- What a built tree is ---------------------------------------------

  /** Node `p` is the one that chunk `i` hangs under: the innermost enclosing heading's, or the root. */
  ghost predicate IsParentOf(cs: seq<Chunk>, unheaded: u8, p: nat, i: nat)
    requires i < |cs|
  {
    if p == 0 then forall k :: 0 <= k < i ==> !Encloses(cs, unheaded, k, i)
    else IsInnermost(cs, unheaded, p - 1, i)
  }

  /** The children are the nodes whose parent is `p`, in order; a leaf has none. */
  ghost predicate IsLinked(nodes: seq<BuildNode>, p: nat)
    requires p < |nodes|
  {
    && Ascends(nodes[p].children)
    && (forall c: nat :: c in nodes[p].children <==> c < |nodes| && nodes[c].parent == Some(p))
  }

  ghost predicate IsRoot(title: string, n: BuildNode) {
    n.title == title && n.content == "" && n.depth == 0 && n.parent == None && n.summary == None && !n.isLeaf
  }

  /** A heading is its own title; for other text one is generated. */
  ghost predicate IsTitle(c: Chunk, generated: string -> string, title: string) {
    && (c.level.Some? ==> title == c.heading)
    && (c.level.None? ==> title == generated(c.content))
  }

  /** The node of chunk `i`: one deeper, on a `u8`, than there are headings around it. */
  ghost predicate IsNodeOf(cs: seq<Chunk>, unheaded: u8, generated: string -> string, n: BuildNode, i: nat)
    requires i < |cs|
  {
    && IsTitle(cs[i], generated, n.title)
    && n.content == cs[i].content && n.summary == cs[i].summary
    && n.depth == (|Enclosing(cs, unheaded, i)| + 1) % 256
    && n.parent.Some? && IsParentOf(cs, unheaded, n.parent.value, i)
    && (n.isLeaf <==> n.children == [])
  }

  /** The root, and then a node for each chunk, linked both ways. */
  ghost predicate IsTreeOf(
      title: string, cs: seq<Chunk>, unheaded: u8, generated: string -> string, nodes: seq<BuildNode>)
  {
    && |nodes| == |cs| + 1 && IsRoot(title, nodes[0])
    && (forall k :: 0 < k < |nodes| ==> IsNodeOf(cs, unheaded, generated, nodes[k], k - 1))
    && (forall p :: 0 <= p < |nodes| ==> IsLinked(nodes, p))
  }

  /** Text, and the summary supplied with it, stay where nothing is nested; the rest of a node is as it was. */
  ghost predicate IsPageOf(n: BuildNode, page: PageNode) {
    && page.title == n.title && page.depth == n.depth && page.parent == n.parent && page.children == n.children
    && (n.isLeaf && n.content != "" ==>
          page.content == Some(n.content) && page.summary == if n.summary.Some? then n.summary.value else "")
    && (!(n.isLeaf && n.content != "") ==> page.content == None && page.summary == "")
  }

  ghost predicate ArePagesOf(nodes: seq<BuildNode>, pages: seq<PageNode>) {
    |pages| == |nodes| && forall k :: 0 <= k < |pages| ==> IsPageOf(nodes[k], pages[k])
  }

  lemma {:induction false} MappedArePages(nodes: seq<BuildNode>)
    ensures ArePagesOf(nodes, Map(ToPageNode, nodes))
  {
  }

  lemma {:induction false} ParentIsParent(cs: seq<Chunk>, unheaded: u8, i: nat)
    requires i < |cs|
    ensures IsParentOf(cs, unheaded, ParentNode(cs, unheaded, i), i)
  {
    var p := ParentNode(cs, unheaded, i);
    ParentIsRootIff(cs, unheaded, i);
    if p > 0 { ParentIsNearest(cs, unheaded, i, p - 1); }
  }

  /** An entry of the level stack: a level and a node. */
  type Entry = (u8, nat)

  function Entries(cs: seq<Chunk>, stack: seq<nat>): (entries: seq<Entry>)
    requires Headings(cs, stack)
    ensures |entries| == |stack|
    ensures forall t :: 0 <= t < |stack| ==> entries[t] == (cs[stack[t]].level.value, stack[t] + 1)
  {
    seq(|stack|, t requires 0 <= t < |stack| => (cs[stack[t]].level.value, stack[t] + 1))
  }

  lemma {:induction false} EntriesOfSnoc(cs: seq<Chunk>, stack: seq<nat>, i: nat)
    requires Headings(cs, stack) && i < |cs| && cs[i].IsHeaded()
    ensures Headings(cs, stack + [i])
    ensures Entries(cs, stack + [i]) == Entries(cs, stack) + [(cs[i].level.value, i + 1)]
  {
  }

  lemma {:induction false} PrefixGrows(par: seq<nat>, k: nat)
    requires k < |par|
    ensures par[..k + 1] == par[..k] + [par[k]]
  {
  }

  class TreeBuilder {
    const maxDepth: u8
    const generateTitle: string -> string

    constructor (maxDepth: u8, generateTitle: string -> string)
      ensures this.maxDepth == maxDepth && this.generateTitle == generateTitle
    {
      this.maxDepth, this.generateTitle := maxDepth, generateTitle;
    }

    function TitleOf(c: Chunk): string { if c.IsHeaded() then c.heading else generateTitle(c.content) }

    /** Node `k` when the first `|par|` nodes have been placed: the root, or a chunk under its parent. */
    ghost function NodeAt(title: string, cs: seq<Chunk>, par: seq<nat>, k: nat): BuildNode
      requires k <= |cs| && k < |par|
    {
      var kids := Children(par, k);
      if k == 0 then BuildNode(title, "", 0, kids, None, false, None)
      else
        var c := cs[k - 1];
        BuildNode(TitleOf(c), c.content, Depth(cs, maxDepth, k - 1), kids, Some(par[k]), kids == [], c.summary)
    }

    ghost predicate Placed(title: string, cs: seq<Chunk>, par: seq<nat>, nodes: seq<BuildNode>)
      requires |par| <= |cs| + 1
    {
      |nodes| == |par| && forall k :: 0 <= k < |nodes| ==> nodes[k] == NodeAt(title, cs, par, k)
    }

    /** The nodes that `build_tree` returns. */
    ghost predicate Built(title: string, cs: seq<Chunk>, nodes: seq<BuildNode>) {
      Placed(title, cs, Parents(cs, maxDepth), nodes)
    }

    /** Drops the entries that cannot enclose a chunk of level `low`; the root stays. */
    method PopLevels(stack: seq<Entry>, low: u8, cs: seq<Chunk>, ghost open: seq<nat>) returns (rest: seq<Entry>)
      requires Headings(cs, open) && stack == [(0, 0)] + Entries(cs, open)
      ensures rest == [(0, 0)] + Entries(cs, Pop(cs, open, low))
    {
      rest := stack;
      ghost var left := open;
      while |rest| > 1 && rest[|rest| - 1].0 >= low
        invariant Headings(cs, left) && rest == [(0, 0)] + Entries(cs, left)
        invariant Pop(cs, left, low) == Pop(cs, open, low)
        decreases |rest|
      {
        rest := rest[..|rest| - 1];
        left := left[..|left| - 1];
        assert rest == [(0, 0)] + Entries(cs, left);
      }
    }

    lemma {:induction false} ChildrenOneMore(par: seq<nat>, q: nat, k: nat)
      requires k <= |par| && q < |par|
      ensures Children(par + [q], k)
        == if k == |par| then [] else if k == q then Children(par, k) + [|par|] else Children(par, k)
    {
      ChildrenOfSnoc(par, q, k, 0);
      if k == |par| { LastHasNoChildren(par, k); }
    }

    /** A new leaf under node `q` changes the children of `q` and nothing else. */
    lemma {:induction false} PlacesOneMore(
        title: string, cs: seq<Chunk>, par: seq<nat>, nodes: seq<BuildNode>, q: nat, leaf: BuildNode,
        after: seq<BuildNode>)
      requires 0 < |par| <= |cs| && q < |par| && Placed(title, cs, par, nodes)
      requires leaf == NodeAt(title, cs, par + [q], |par|).(children := [], isLeaf := true)
      requires after
        == (nodes + [leaf])[q := nodes[q].(children := nodes[q].children + [|par|], isLeaf := false)]
      ensures Placed(title, cs, par + [q], after)
    {
      forall k | 0 <= k <= |par| ensures after[k] == NodeAt(title, cs, par + [q], k) {
        ChildrenOneMore(par, q, k);
      }
    }

    lemma {:induction false} TopIsParent(cs: seq<Chunk>, i: nat, stack: seq<Entry>)
      requires i < |cs| && stack == [(0, 0)] + Entries(cs, Chain(cs, maxDepth, i))
      ensures stack[|stack| - 1].1 == ParentNode(cs, maxDepth, i)
    {
    }

    /** A node for chunk `i`, below the innermost open heading. */
    method PlaceChunk(title: string, cs: seq<Chunk>, i: nat, before: seq<BuildNode>, stack: seq<Entry>)
      returns (nodes: seq<BuildNode>)
      requires i < |cs| && Placed(title, cs, Parents(cs, maxDepth)[..i + 1], before)
      requires stack == [(0, 0)] + Entries(cs, Chain(cs, maxDepth, i))
      ensures Placed(title, cs, Parents(cs, maxDepth)[..i + 2], nodes)
    {
      ghost var par := Parents(cs, maxDepth);
      var chunk, parent := cs[i], stack[|stack| - 1].1;
      TopIsParent(cs, i, stack);
      PrefixGrows(par, i + 1);
      var leaf := BuildNode(TitleOf(chunk), chunk.content, AsU8(|stack|), [], Some(parent), true, chunk.summary);
      nodes := before + [leaf];
      nodes := nodes[parent := nodes[parent].(children := nodes[parent].children + [i + 1], isLeaf := false)];
      PlacesOneMore(title, cs, par[..i + 1], before, parent, leaf, nodes);
    }

    /** The level stack when chunk `i` is reached: the root, and the headings still open. */
    ghost predicate IsStackAt(stack: seq<Entry>, cs: seq<Chunk>, i: nat)
      requires i <= |cs|
    {
      stack == [(0, 0)] + Entries(cs, Before(cs, maxDepth, i))
    }

    lemma {:induction false} PushesHeading(cs: seq<Chunk>, i: nat, stack: seq<Entry>)
      requires i < |cs| && stack == [(0, 0)] + Entries(cs, Chain(cs, maxDepth, i))
      ensures IsStackAt(if cs[i].IsHeaded() then stack + [(cs[i].level.value, i + 1)] else stack, cs, i + 1)
    {
      if cs[i].IsHeaded() { EntriesOfSnoc(cs, Chain(cs, maxDepth, i), i); }
    }

    /** One round of the loop over the chunks. */
    method AddChunk(title: string, cs: seq<Chunk>, i: nat, before: seq<BuildNode>, stack: seq<Entry>)
      returns (nodes: seq<BuildNode>, rest: seq<Entry>)
      requires i < |cs| && Placed(title, cs, Parents(cs, maxDepth)[..i + 1], before) && IsStackAt(stack, cs, i)
      ensures Placed(title, cs, Parents(cs, maxDepth)[..i + 2], nodes) && IsStackAt(rest, cs, i + 1)
    {
      var level := if cs[i].level.Some? then cs[i].level.value else maxDepth;
      rest := PopLevels(stack, level, cs, Before(cs, maxDepth, i));
      nodes := PlaceChunk(title, cs, i, before, rest);
      PushesHeading(cs, i, rest);
      if cs[i].IsHeaded() {
        rest := rest + [(level, i + 1)];
      }
    }

    method BuildTree(title: string, cs: seq<Chunk>) returns (nodes: seq<BuildNode>)
      ensures Built(title, cs, nodes) && IsTreeOf(title, cs, maxDepth, generateTitle, nodes)
    {
      nodes := [BuildNode(title, "", 0, [], None, false, None)];
      var levelStack: seq<Entry> := [(0, 0)];
      ghost var par := Parents(cs, maxDepth);
      LastHasNoChildren(par[..1], 0);
      for i := 0 to |cs|
        invariant Placed(title, cs, par[..i + 1], nodes) && IsStackAt(levelStack, cs, i)
      {
        nodes, levelStack := AddChunk(title, cs, i, nodes, levelStack);
      }
      assert par[..|cs| + 1] == par;
      BuiltIsTree(title, cs, nodes);
    }

    lemma {:induction false} BuiltIsTree(title: string, cs: seq<Chunk>, nodes: seq<BuildNode>)
      requires Built(title, cs, nodes)
      ensures IsTreeOf(title, cs, maxDepth, generateTitle, nodes)
    {
      forall k | 0 < k < |nodes| ensures IsNodeOf(cs, maxDepth, generateTitle, nodes[k], k - 1) {
        BuiltIsNode(title, cs, nodes, k);
      }
      forall p | 0 <= p < |nodes| ensures IsLinked(nodes, p) { BuiltIsLinked(title, cs, nodes, p); }
    }

    lemma {:induction false} BuiltIsNode(title: string, cs: seq<Chunk>, nodes: seq<BuildNode>, k: nat)
      requires Built(title, cs, nodes) && 0 < k < |nodes|
      ensures IsNodeOf(cs, maxDepth, generateTitle, nodes[k], k - 1)
    {
      PlacedAs(title, cs, nodes, k);
      PlacedIsNode(cs, nodes[k], k - 1);
    }

    lemma {:induction false} PlacedIsNode(cs: seq<Chunk>, n: BuildNode, i: nat)
      requires i < |cs| && n.title == TitleOf(cs[i]) && n.content == cs[i].content && n.summary == cs[i].summary
      requires n.depth == AsU8(|Chain(cs, maxDepth, i)| + 1) && n.parent == Some(ParentNode(cs, maxDepth, i))
      requires n.isLeaf <==> n.children == []
      ensures IsNodeOf(cs, maxDepth, generateTitle, n, i)
    {
      ParentIsParent(cs, maxDepth, i);
      ChainCounts(cs, maxDepth, i);
    }

    lemma {:induction false} PlacedAs(title: string, cs: seq<Chunk>, nodes: seq<BuildNode>, k: nat)
      requires Built(title, cs, nodes) && 0 < k < |nodes|
      ensures var n, c := nodes[k], cs[k - 1];
        && n.title == TitleOf(c) && n.content == c.content && n.summary == c.summary
        && n.depth == AsU8(|Chain(cs, maxDepth, k - 1)| + 1)
        && n.parent == Some(ParentNode(cs, maxDepth, k - 1)) && (n.isLeaf <==> n.children == [])
    {
      assert nodes[k] == NodeAt(title, cs, Parents(cs, maxDepth), k);
    }

    lemma {:induction false} BuiltIsLinked(title: string, cs: seq<Chunk>, nodes: seq<BuildNode>, p: nat)
      requires Built(title, cs, nodes) && p < |nodes|
      ensures IsLinked(nodes, p)
    {
      ChildrenInvertParents(Parents(cs, maxDepth), p, 0);
      forall c: nat ensures c in nodes[p].children <==> c < |nodes| && nodes[c].parent == Some(p) {
        if c < |nodes| { LinksAgree(title, cs, nodes, p, c); }
      }
    }

    /** The page nodes of a document, root first, and the deepest level among them. */
    method Build(title: string, cs: seq<Chunk>) returns (pages: seq<PageNode>, deepest: u8)
      ensures cs == [] ==> pages == [PageNode(title, "", None, 0, None, [])] && deepest == 0
      ensures cs != [] ==> exists nodes :: Built(title, cs, nodes) && pages == Map(ToPageNode, nodes)
      ensures cs != [] ==>
        exists nodes :: IsTreeOf(title, cs, maxDepth, generateTitle, nodes) && ArePagesOf(nodes, pages)
      ensures forall k :: 0 <= k < |pages| ==> pages[k].depth <= deepest
      ensures exists k :: 0 <= k < |pages| && pages[k].depth == deepest
    {
      if cs == [] {
        pages, deepest := [PageNode(title, "", None, 0, None, [])], 0;
        assert pages[0].depth == deepest;
        return;
      }
      var nodes := BuildTree(title, cs);
      pages, deepest := ToPages(nodes);
      MappedArePages(nodes);
    }

    method ToPages(nodes: seq<BuildNode>) returns (pages: seq<PageNode>, deepest: u8)
      requires nodes != []
      ensures pages == Map(ToPageNode, nodes)
      ensures forall k :: 0 <= k < |pages| ==> pages[k].depth <= deepest
      ensures exists k :: 0 <= k < |pages| && pages[k].depth == deepest
    {
      pages, deepest := [], 0;
      ghost var witnessed := 0;
      for k := 0 to |nodes|
        invariant |pages| == k && forall j :: 0 <= j < k ==> pages[j] == ToPageNode(nodes[j])
        invariant forall j :: 0 <= j < k ==> pages[j].depth <= deepest
        invariant if k == 0 then deepest == 0 else witnessed < k && pages[witnessed].depth == deepest
      {
        var page := ToPageNode(nodes[k]);
        if k == 0 || page.depth > deepest {
          deepest := page.depth;
          witnessed := k;
        }
        pages := pages + [page];
      }
      assert pages == Map(ToPageNode, nodes);
    }

    /** A chunk keeps its text exactly when it has some and nothing is nested in it; the root never has text. */
    lemma {:induction false} TextIsKeptIff(title: string, cs: seq<Chunk>, nodes: seq<BuildNode>, i: nat)
      requires Built(title, cs, nodes) && i < |cs|
      ensures ToPageNode(nodes[i + 1]).content
        == if !Opens(cs, maxDepth, i) && cs[i].content != "" then Some(cs[i].content) else None
      ensures ToPageNode(nodes[0]).content == None
      ensures ToPageNode(nodes[i + 1]).children != [] <==> Opens(cs, maxDepth, i)
    {
      LeafIsLocal(cs, maxDepth, i);
    }

    /** Parents and children are mutual inverses, in order. */
    lemma {:induction false} LinksAgree(title: string, cs: seq<Chunk>, nodes: seq<BuildNode>, p: nat, c: nat)
      requires Built(title, cs, nodes) && p < |nodes| && c < |nodes|
      ensures c in nodes[p].children <==> nodes[c].parent == Some(p)
      ensures Ascends(nodes[p].children)
    {
      var par := Parents(cs, maxDepth);
      ChildrenAscend(par, p, 0);
      ChildrenAreThose(par, p, 0, c);
    }

    lemma {:induction false} FieldsOf(title: string, cs: seq<Chunk>, nodes: seq<BuildNode>, k: nat)
      requires Built(title, cs, nodes) && k < |nodes|
      ensures k == 0 ==> nodes[k].depth == 0
      ensures k > 0 ==> nodes[k].depth == Depth(cs, maxDepth, k - 1)
      ensures k > 0 ==> nodes[k].parent == Some(ParentNode(cs, maxDepth, k - 1))
    {
    }

    /** A child lies one deeper than its parent, on a `u8`. */
    lemma {:induction false} ChildIsDeeper(title: string, cs: seq<Chunk>, nodes: seq<BuildNode>, c: nat)
      requires Built(title, cs, nodes) && 0 < c < |nodes|
      ensures nodes[c].parent.Some? && nodes[c].parent.value < c
      ensures nodes[c].depth == AsU8(nodes[nodes[c].parent.value].depth + 1)
    {
      var p := ParentNode(cs, maxDepth, c - 1);
      FieldsOf(title, cs, nodes, c);
      FieldsOf(title, cs, nodes, p);
      DepthOfChild(cs, maxDepth, c - 1);
      assert nodes[c].parent == Some(p);
    }

    /** With levels from 1 to `max_depth`, no node lies deeper than `max_depth`, and no depth wraps. */
    lemma {:induction false} DepthWithinMax(title: string, cs: seq<Chunk>, nodes: seq<BuildNode>, k: nat)
      requires Built(title, cs, nodes) && 0 < k < |nodes|
      requires maxDepth >= 1 && LevelsFrom(cs, 1) && forall c :: c in cs && c.IsHeaded() ==> c.level.value <= maxDepth
      ensures nodes[k].depth == |Chain(cs, maxDepth, k - 1)| + 1 <= maxDepth
    {
      DepthWithinLevel(cs, maxDepth, k - 1);
      assert cs[k - 1] in cs;
    }
  }

  // ---- The second builder -----------------------------------------------

  /** The chunks nested directly in chunk `i`, when unheaded chunks count as level 255. */
  function Nested(par: seq<nat>, i: nat): (kids: seq<nat>)
    ensures |kids| == |Children(par, i + 1)|
    ensures forall t :: 0 <= t < |kids| ==> kids[t] == Children(par, i + 1)[t] - 1
  {
    var kids := Children(par, i + 1);
    seq(|kids|, t requires 0 <= t < |kids| => kids[t] - 1)
  }

  const UNHEADED: u8 := 255

  /** An entry of the stack: a level and a chunk. */
  function Indices(cs: seq<Chunk>, stack: seq<nat>): (entries: seq<(u8, nat)>)
    requires Headings(cs, stack)
    ensures |entries| == |stack|
    ensures forall t :: 0 <= t < |stack| ==> entries[t] == (cs[stack[t]].level.value, stack[t])
  {
    seq(|stack|, t requires 0 <= t < |stack| => (cs[stack[t]].level.value, stack[t]))
  }

  method PopIndices(stack: seq<(u8, nat)>, low: u8, cs: seq<Chunk>, ghost open: seq<nat>) returns (rest: seq<(u8, nat)>)
    requires Headings(cs, open) && stack == Indices(cs, open)
    ensures rest == Indices(cs, Pop(cs, open, low))
  {
    rest := stack;
    ghost var left := open;
    while rest != [] && rest[|rest| - 1].0 >= low
      invariant Headings(cs, left) && rest == Indices(cs, left)
      invariant Pop(cs, left, low) == Pop(cs, open, low)
      decreases |rest|
    {
      rest := rest[..|rest| - 1];
      left := left[..|left| - 1];
      assert rest == Indices(cs, left);
    }
  }

  /** The chunks before `i` have been handed to their parents. */
  ghost predicate Organized(result: seq<(nat, seq<nat>)>, n: nat, par: seq<nat>) {
    |result| == n && forall k :: 0 <= k < n ==> result[k] == (k, Nested(par, k))
  }

  /** Gives chunk `i` to the innermost open heading, if there is one. */
  method HandOver(cs: seq<Chunk>, i: nat, before: seq<(nat, seq<nat>)>, stack: seq<(u8, nat)>)
    returns (result: seq<(nat, seq<nat>)>)
    requires i < |cs| && Organized(before, |cs|, Parents(cs, UNHEADED)[..i + 1])
    requires stack == Indices(cs, Chain(cs, UNHEADED, i))
    ensures Organized(result, |cs|, Parents(cs, UNHEADED)[..i + 2])
  {
    ghost var par := Parents(cs, UNHEADED);
    result := before;
    if stack != [] {
      var parent := stack[|stack| - 1].1;
      result := result[parent := (parent, result[parent].1 + [i])];
    }
    PrefixGrows(par, i + 1);
    NestsOneMore(par[..i + 1], par[i + 1], before, result);
  }

  /** The stack when chunk `i` is reached: the headings still open. */
  ghost predicate AreOpenAt(stack: seq<(u8, nat)>, cs: seq<Chunk>, i: nat)
    requires i <= |cs|
  {
    stack == Indices(cs, Before(cs, UNHEADED, i))
  }

  lemma {:induction false} OpensHeading(cs: seq<Chunk>, i: nat, stack: seq<(u8, nat)>)
    requires i < |cs| && stack == Indices(cs, Chain(cs, UNHEADED, i))
    ensures AreOpenAt(if cs[i].IsHeaded() then stack + [(cs[i].level.value, i)] else stack, cs, i + 1)
  {
    if cs[i].IsHeaded() { IndicesOfSnoc(cs, Chain(cs, UNHEADED, i), i); }
  }

  lemma {:induction false} IndicesOfSnoc(cs: seq<Chunk>, stack: seq<nat>, i: nat)
    requires Headings(cs, stack) && i < |cs| && cs[i].IsHeaded()
    ensures Headings(cs, stack + [i])
    ensures Indices(cs, stack + [i]) == Indices(cs, stack) + [(cs[i].level.value, i)]
  {
  }

  /** One round of the loop over the chunks. */
  method OrganizeChunk(cs: seq<Chunk>, i: nat, before: seq<(nat, seq<nat>)>, stack: seq<(u8, nat)>)
    returns (result: seq<(nat, seq<nat>)>, rest: seq<(u8, nat)>)
    requires i < |cs| && Organized(before, |cs|, Parents(cs, UNHEADED)[..i + 1]) && AreOpenAt(stack, cs, i)
    ensures Organized(result, |cs|, Parents(cs, UNHEADED)[..i + 2]) && AreOpenAt(rest, cs, i + 1)
  {
    var level := if cs[i].level.Some? then cs[i].level.value else UNHEADED;
    rest := PopIndices(stack, level, cs, Before(cs, UNHEADED, i));
    result := HandOver(cs, i, before, rest);
    OpensHeading(cs, i, rest);
    if cs[i].IsHeaded() {
      rest := rest + [(level, i)];
    }
  }

  lemma {:induction false} NothingNested(par: seq<nat>, n: nat)
    requires |par| == 1
    ensures Organized(seq(n, i => (i, [])), n, par)
  {
    forall k | 0 <= k < n ensures Nested(par, k) == [] { LastHasNoChildren(par, k + 1); }
  }

  /** Pairs of a chunk and its children, without a root. */
  method Organize(cs: seq<Chunk>) returns (result: seq<(nat, seq<nat>)>)
    ensures Organized(result, |cs|, Parents(cs, UNHEADED)) && IsOrganizedAs(cs, result)
  {
    result := seq(|cs|, i => (i, []));
    var stack: seq<(u8, nat)> := [];
    ghost var par := Parents(cs, UNHEADED);
    NothingNested(par[..1], |cs|);
    for i := 0 to |cs|
      invariant Organized(result, |cs|, par[..i + 1]) && AreOpenAt(stack, cs, i)
    {
      result, stack := OrganizeChunk(cs, i, result, stack);
    }
    assert par[..|cs| + 1] == par;
    OrganizedByNearest(cs, result);
  }

  /**
   * Each chunk comes with those whose innermost enclosing heading it is, in order,
   * when unheaded text is of level 255.
   */
  ghost predicate IsOrganizedAs(cs: seq<Chunk>, result: seq<(nat, seq<nat>)>) {
    |result| == |cs| && forall k :: 0 <= k < |cs| ==> IsOrganizedAt(cs, k, result[k])
  }

  ghost predicate IsOrganizedAt(cs: seq<Chunk>, k: nat, entry: (nat, seq<nat>)) {
    && entry.0 == k && Ascends(entry.1)
    && forall c: nat :: c in entry.1 <==> c < |cs| && IsInnermost(cs, 255, k, c)
  }

  lemma {:induction false} NestedAreInnermost(cs: seq<Chunk>, k: nat)
    requires k < |cs|
    ensures IsOrganizedAt(cs, k, (k, Nested(Parents(cs, UNHEADED), k)))
  {
    var par := Parents(cs, UNHEADED);
    ChildrenInvertParents(par, k + 1, 0);
    forall c: nat ensures c in Nested(par, k) <==> c < |cs| && IsInnermost(cs, 255, k, c) {
      NestedIsInnermost(cs, k, c);
    }
  }

  lemma {:induction false} NestedMember(par: seq<nat>, k: nat, c: nat)
    ensures c in Nested(par, k) <==> c + 1 in Children(par, k + 1)
  {
    var kids, nested := Children(par, k + 1), Nested(par, k);
    if c in nested {
      var t :| 0 <= t < |nested| && nested[t] == c;
      assert kids[t] in kids;
    }
    if c + 1 in kids {
      var t :| 0 <= t < |kids| && kids[t] == c + 1;
      assert nested[t] == c;
    }
  }

  lemma {:induction false} NestedIsInnermost(cs: seq<Chunk>, k: nat, c: nat)
    requires k < |cs|
    ensures c in Nested(Parents(cs, UNHEADED), k) <==> c < |cs| && IsInnermost(cs, 255, k, c)
  {
    var par := Parents(cs, UNHEADED);
    NestedMember(par, k, c);
    ChildrenAreThose(par, k + 1, 0, c + 1);
    if k < c < |cs| { ParentIsNearest(cs, UNHEADED, c, k); }
  }

  lemma {:induction false} OrganizedByNearest(cs: seq<Chunk>, result: seq<(nat, seq<nat>)>)
    requires Organized(result, |cs|, Parents(cs, UNHEADED))
    ensures IsOrganizedAs(cs, result)
  {
    forall k | 0 <= k < |cs| ensures IsOrganizedAt(cs, k, result[k]) { NestedAreInnermost(cs, k); }
  }

  lemma {:induction false} NestedOfSnoc(par: seq<nat>, q: nat, k: nat)
    requires q < |par|
    ensures Nested(par + [q], k) == if q == k + 1 then Nested(par, k) + [|par| - 1] else Nested(par, k)
  {
    ChildrenOfSnoc(par, q, k + 1, 0);
    var before, after := Children(par, k + 1), Children(par + [q], k + 1);
    assert after == if q == k + 1 then before + [|par|] else before;
  }

  /** A chunk is handed to the chunk it is nested in, or to nobody. */
  lemma {:induction false} NestsOneMore(
      par: seq<nat>, q: nat, before: seq<(nat, seq<nat>)>, after: seq<(nat, seq<nat>)>)
    requires 0 < |par| <= |before| && q < |par| && Organized(before, |before|, par)
    requires after == if q == 0 then before else before[q - 1 := (q - 1, before[q - 1].1 + [|par| - 1])]
    ensures Organized(after, |before|, par + [q])
  {
    forall k | 0 <= k < |before| ensures after[k] == (k, Nested(par + [q], k)) {
      NestedOfSnoc(par, q, k);
      assert before[k] == (k, Nested(par, k));
    }
  }

  // ---- Agreement --------------------------------------------------------

  predicate IsBelow255(c: Chunk) { c.IsHeaded() && c.level.value < UNHEADED }

  /** The node of the last heading before chunk `i`, headings of level 255 aside; 0 if there is none. */
  function HeadingBefore(cs: seq<Chunk>, i: nat): (h: nat)
    requires i <= |cs|
    ensures h <= i && (h > 0 ==> IsBelow255(cs[h - 1]))
    ensures forall k :: h <= k < i ==> !IsBelow255(cs[k])
  {
    if i == 0 then 0 else if IsBelow255(cs[i - 1]) then i else HeadingBefore(cs, i - 1)
  }

  /** The last heading before each unheaded chunk has a level below `max_depth`, or is of level 255. */
  ghost predicate UnheadedFit(cs: seq<Chunk>, maxDepth: u8) {
    forall i :: 0 <= i < |cs| && !cs[i].IsHeaded() ==> FitsAt(cs, maxDepth, i)
  }

  predicate FitsAt(cs: seq<Chunk>, maxDepth: u8, i: nat)
    requires i < |cs|
  {
    var h := HeadingBefore(cs, i);
    h == 0 || cs[h - 1].level.value < maxDepth
  }

  /** `organize` nests an unheaded chunk in the last heading before it, headings of level 255 aside. */
  lemma {:induction false} UnheadedParent(cs: seq<Chunk>, i: nat)
    requires i < |cs| && !cs[i].IsHeaded()
    ensures ParentNode(cs, UNHEADED, i) == HeadingBefore(cs, i)
  {
    var h := HeadingBefore(cs, i);
    if h == 0 {
      ParentIsRootIff(cs, UNHEADED, i);
    } else {
      ParentIsNearest(cs, UNHEADED, i, h - 1);
    }
  }

  lemma {:induction false} PopTwice(cs: seq<Chunk>, stack: seq<nat>, low: u8, lower: u8)
    requires Headings(cs, stack) && lower <= low
    ensures Pop(cs, Pop(cs, stack, low), lower) == Pop(cs, stack, lower)
    decreases |stack|
  {
    if stack != [] && cs[stack[|stack| - 1]].level.value >= low { PopTwice(cs, stack[..|stack| - 1], low, lower); }
  }

  lemma {:induction false} NothingToPop(cs: seq<Chunk>, stack: seq<nat>, low: u8)
    requires Headings(cs, stack) && (stack != [] ==> cs[stack[|stack| - 1]].level.value < low)
    ensures Pop(cs, stack, low) == stack
  {
  }

  lemma {:induction false} TopFits(cs: seq<Chunk>, maxDepth: u8, i: nat)
    requires i < |cs| && !cs[i].IsHeaded() && FitsAt(cs, maxDepth, i)
    ensures var chain := Chain(cs, UNHEADED, i); chain != [] ==> cs[chain[|chain| - 1]].level.value < maxDepth
  {
    UnheadedParent(cs, i);
  }

  lemma {:induction false} StacksAgree(cs: seq<Chunk>, maxDepth: u8, i: nat)
    requires i <= |cs| && UnheadedFit(cs, maxDepth)
    ensures Before(cs, maxDepth, i) == Before(cs, UNHEADED, i)
    decreases i, 0
  {
    if i > 0 { ChainsAgree(cs, maxDepth, i - 1); }
  }

  lemma {:induction false} ChainsAgree(cs: seq<Chunk>, maxDepth: u8, i: nat)
    requires i < |cs| && UnheadedFit(cs, maxDepth)
    ensures Chain(cs, maxDepth, i) == Chain(cs, UNHEADED, i)
    decreases i, 1
  {
    StacksAgree(cs, maxDepth, i);
    if !cs[i].IsHeaded() {
      assert FitsAt(cs, maxDepth, i);
      TopFits(cs, maxDepth, i);
      PopTwice(cs, Before(cs, UNHEADED, i), UNHEADED, maxDepth);
      NothingToPop(cs, Chain(cs, UNHEADED, i), maxDepth);
    }
  }

  lemma {:induction false} ParentsAgreeAt(cs: seq<Chunk>, maxDepth: u8, k: nat)
    requires UnheadedFit(cs, maxDepth) && k <= |cs|
    ensures Parents(cs, maxDepth)[k] == Parents(cs, UNHEADED)[k]
  {
    if k > 0 { ChainsAgree(cs, maxDepth, k - 1); }
  }

  lemma {:induction false} SameElements(a: seq<nat>, b: seq<nat>)
    requires |a| == |b| && forall k :: 0 <= k < |a| ==> a[k] == b[k]
    ensures a == b
  {
  }

  lemma {:induction false} FittingParentsAgree(cs: seq<Chunk>, maxDepth: u8)
    requires UnheadedFit(cs, maxDepth)
    ensures Parents(cs, maxDepth) == Parents(cs, UNHEADED)
  {
    var mine, other := Parents(cs, maxDepth), Parents(cs, UNHEADED);
    forall k | 0 <= k < |mine| ensures mine[k] == other[k] { ParentsAgreeAt(cs, maxDepth, k); }
    SameElements(mine, other);
  }

  lemma {:induction false} AgreeingChunkFits(cs: seq<Chunk>, maxDepth: u8, i: nat)
    requires i < |cs| && !cs[i].IsHeaded() && ParentNode(cs, maxDepth, i) == ParentNode(cs, UNHEADED, i)
    ensures FitsAt(cs, maxDepth, i)
  {
    UnheadedParent(cs, i);
    var h := HeadingBefore(cs, i);
    if h > 0 { ParentIsNearest(cs, maxDepth, i, h - 1); }
  }

  /**
   * Both builders nest every chunk alike exactly when the last heading before
   * each unheaded chunk, headings of level 255 aside, has a level below
   * `max_depth`.
   */
  lemma {:induction false} BuildersAgreeIff(cs: seq<Chunk>, maxDepth: u8)
    ensures Parents(cs, maxDepth) == Parents(cs, UNHEADED) <==> UnheadedFit(cs, maxDepth)
  {
    if UnheadedFit(cs, maxDepth) { FittingParentsAgree(cs, maxDepth); }
    if Parents(cs, maxDepth) == Parents(cs, UNHEADED) {
      forall i | 0 <= i < |cs| && !cs[i].IsHeaded() ensures FitsAt(cs, maxDepth, i) {
        assert Parents(cs, maxDepth)[i + 1] == Parents(cs, UNHEADED)[i + 1];
        AgreeingChunkFits(cs, maxDepth, i);
      }
    }
  }

  /** At the default `max_depth` 10: text below a heading of level 10 goes to the root, or to the heading. */
  lemma {:induction false} BuildersMayDisagree()
    ensures var cs := [Chunk(Some(10), "", "", None), Chunk(None, "", "x", None)];
      ParentNode(cs, 10, 1) == 0 && ParentNode(cs, UNHEADED, 1) == 1
  {
    TextBelowHeading(10, 10);
    TextBelowHeading(10, UNHEADED);
  }

  /** Unheaded text hangs under the heading before it when it counts as deeper. */
  lemma {:induction false} TextBelowHeading(level: u8, unheaded: u8)
    ensures var cs := [Chunk(Some(level), "", "", None), Chunk(None, "", "x", None)];
      ParentNode(cs, unheaded, 1) == if level < unheaded then 1 else 0
  {
    var cs := [Chunk(Some(level), "", "", None), Chunk(None, "", "x", None)];
    assert Encloses(cs, unheaded, 0, 1) <==> level < unheaded;
    ParentIsRootIff(cs, unheaded, 1);
  }

  /**
   * When every heading level is below `max_depth`, `organize` gives each chunk
   * the ordered children that `build_tree` gives its node.
   */
  lemma {:induction false} BuildersAgree(b: TreeBuilder, title: string, cs: seq<Chunk>, nodes: seq<BuildNode>, i: nat)
    requires b.Built(title, cs, nodes) && i < |cs|
    requires forall c :: c in cs && c.IsHeaded() ==> c.level.value < b.maxDepth
    ensures |Nested(Parents(cs, UNHEADED), i)| == |nodes[i + 1].children|
    ensures forall t :: 0 <= t < |nodes[i + 1].children| ==>
      Nested(Parents(cs, UNHEADED), i)[t] == nodes[i + 1].children[t] - 1
  {
    forall k | 0 <= k < |cs| && !cs[k].IsHeaded() ensures FitsAt(cs, b.maxDepth, k) {
      var h := HeadingBefore(cs, k);
      if h > 0 { assert cs[h - 1] in cs; }
    }
    BuildersAgreeIff(cs, b.maxDepth);
  }

  // ---- A depth that wraps -----------------------------------------------

  function Staircase(n: nat): (cs: seq<Chunk>)
    requires n <= 256
    ensures |cs| == n && forall t :: 0 <= t < n ==> cs[t] == Chunk(Some(t), "", "", None)
  {
    seq(n, t requires 0 <= t < n => Chunk(Some(t), "", "", None))
  }

  lemma {:induction false} RangeOfSnoc(i: nat)
    ensures Range(0, i) + [i] == Range(0, i + 1)
  {
  }

  lemma {:induction false} StaircaseNests(cs: seq<Chunk>, i: nat)
    requires i < |cs| == 256 && forall t :: 0 <= t < 256 ==> cs[t].level == Some(t)
    ensures Chain(cs, 10, i) == Range(0, i)
  {
    if i > 0 {
      StaircaseNests(cs, i - 1);
      RangeOfSnoc(i - 1);
      NothingPops(cs, Before(cs, 10, i), i);
    }
  }

  lemma {:induction false} NothingPops(cs: seq<Chunk>, stack: seq<nat>, i: u8)
    requires Headings(cs, stack) && stack != [] && cs[stack[|stack| - 1]].level.value < i
    ensures Pop(cs, stack, i) == stack
  {
  }

  /** Headings of levels 0 to 255 in a row: the last one gets depth 0. */
  lemma {:induction false} DepthMayWrap()
    ensures |Chain(Staircase(256), 10, 255)| == 255 && Depth(Staircase(256), 10, 255) == 0
  {
    StaircaseNests(Staircase(256), 255);
  }
}
