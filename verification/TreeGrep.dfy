// Grepping a stored tree: a recursive walk that pushes hits, and a score over them.
module TreeGrep {
  import opened Common
  import opened TreeShape
  import opened HeadingChains
  import opened TreeBuilder

  datatype Hit = Hit(
    node: nat, title: string, depth: u8, titleMatch: bool, summaryMatch: bool, contentMatch: bool, matches: nat)

  /** How many of the query's terms a text contains. */
  type Matcher = string -> nat

  function Matches(count: Matcher, n: PageNode): nat {
    Max(Max(count(n.title), count(n.summary)), if n.content.Some? then count(n.content.value) else 0)
  }

  function HitOf(count: Matcher, k: nat, n: PageNode): Hit {
    Hit(k, n.title, n.depth, count(n.title) > 0, count(n.summary) > 0,
      n.content.Some? && count(n.content.value) > 0, Matches(count, n))
  }

  function OwnHit(count: Matcher, nodes: seq<PageNode>, k: nat): seq<Hit> {
    if k < |nodes| && Matches(count, nodes[k]) > 0 then [HitOf(count, k, nodes[k])] else []
  }

  /** The hits among `ks`, in that order. */
  function HitsAmong(count: Matcher, nodes: seq<PageNode>, ks: seq<nat>): (hits: seq<Hit>)
  {
    if ks == [] then [] else OwnHit(count, nodes, ks[0]) + HitsAmong(count, nodes, ks[1..])
  }

  lemma {:induction false} TailOfJoin(a: seq<nat>, b: seq<nat>)
    requires a != []
    ensures (a + b)[0] == a[0] && (a + b)[1..] == a[1..] + b
  {
  }

  lemma {:induction false} HitsOfJoin(count: Matcher, nodes: seq<PageNode>, a: seq<nat>, b: seq<nat>)
    ensures HitsAmong(count, nodes, a + b) == HitsAmong(count, nodes, a) + HitsAmong(count, nodes, b)
    decreases |a|
  {
    if a == [] {
      assert a + b == b;
    } else {
      TailOfJoin(a, b);
      HitsOfJoin(count, nodes, a[1..], b);
      Associates(OwnHit(count, nodes, a[0]), HitsAmong(count, nodes, a[1..]), HitsAmong(count, nodes, b));
    }
  }

  // ---- Score ------------------------------------------------------------

  function FieldScore(h: Hit): real {
    if h.titleMatch then 3.0 else if h.summaryMatch then 1.5 else if h.contentMatch then 1.0 else 0.0
  }

  function Score(h: Hit, terms: nat): real
    requires terms > 0
  {
    h.matches as real / terms as real * (1.0 / (1.0 + h.depth as real)) * FieldScore(h)
  }

  function TotalScore(hits: seq<Hit>, terms: nat): real
    requires terms > 0
  {
    if hits == [] then 0.0 else Score(hits[0], terms) + TotalScore(hits[1..], terms)
  }

  /** Of the three weights of a hit, the largest one that applies. */
  lemma {:induction false} FieldScoreIsMax(h: Hit)
    ensures FieldScore(h) >= (if h.titleMatch then 3.0 else 0.0)
    ensures FieldScore(h) >= (if h.summaryMatch then 1.5 else 0.0)
    ensures FieldScore(h) >= (if h.contentMatch then 1.0 else 0.0)
    ensures (h.titleMatch && FieldScore(h) == 3.0) || (h.summaryMatch && FieldScore(h) == 1.5)
         || (h.contentMatch && FieldScore(h) == 1.0) || FieldScore(h) == 0.0
    ensures FieldScore(h) == 0.0 <==> !h.titleMatch && !h.summaryMatch && !h.contentMatch
  {
  }

  lemma {:induction false} ProductIsPositive(a: real, b: real)
    requires a > 0.0 && b > 0.0
    ensures a * b > 0.0
  {
  }

  lemma {:induction false} QuotientIsPositive(a: real, b: real)
    requires a > 0.0 && b > 0.0
    ensures a / b > 0.0
  {
    if a / b <= 0.0 { assert a == (a / b) * b; }
  }

  ghost predicate IsHit(h: Hit) { h.matches > 0 && (h.titleMatch || h.summaryMatch || h.contentMatch) }

  ghost predicate AreHits(hits: seq<Hit>) { forall i :: 0 <= i < |hits| ==> IsHit(hits[i]) }

  lemma {:induction false} HitScores(h: Hit, terms: nat)
    requires terms > 0 && IsHit(h)
    ensures Score(h, terms) > 0.0
  {
    QuotientIsPositive(h.matches as real, terms as real);
    QuotientIsPositive(1.0, 1.0 + h.depth as real);
    ProductIsPositive(h.matches as real / terms as real, 1.0 / (1.0 + h.depth as real));
    ProductIsPositive(h.matches as real / terms as real * (1.0 / (1.0 + h.depth as real)), FieldScore(h));
  }

  lemma {:induction false} ProductsKeepOrder(a: real, b: real, c: real)
    requires a > b && c > 0.0
    ensures a * c > b * c && c * a > c * b
  {
    ProductIsPositive(a - b, c);
    assert (a - b) * c == a * c - b * c;
  }

  lemma {:induction false} PositiveFactor(a: real, b: real)
    requires a > 0.0 && a * b > 0.0
    ensures b > 0.0
  {
  }

  lemma {:induction false} ReciprocalsReverseOrder(a: real, b: real)
    requires 0.0 < a < b
    ensures 1.0 / a > 1.0 / b > 0.0
  {
    QuotientIsPositive(1.0, a);
    QuotientIsPositive(1.0, b);
    ProductsKeepOrder(b, a, 1.0 / b);
    assert a * (1.0 / a - 1.0 / b) == a * (1.0 / a) - a * (1.0 / b);
    PositiveFactor(a, 1.0 / a - 1.0 / b);
  }

  /** The same match counts for more the shallower it lies, and in a title for more than elsewhere. */
  lemma {:induction false} ShallowerAndTitlesScoreMore(h: Hit, terms: nat, shallow: u8, deep: u8)
    requires terms > 0 && IsHit(h) && shallow < deep
    ensures Score(h.(depth := shallow), terms) > Score(h.(depth := deep), terms)
    ensures !h.titleMatch ==> Score(h.(titleMatch := true), terms) > Score(h, terms)
  {
    var base, near, far := h.matches as real / terms as real, 1.0 / (1.0 + shallow as real), 1.0 / (1.0 + deep as real);
    QuotientIsPositive(h.matches as real, terms as real);
    ReciprocalsReverseOrder(1.0 + shallow as real, 1.0 + deep as real);
    ProductsKeepOrder(near, far, base);
    ProductsKeepOrder(base * near, base * far, FieldScore(h));
    QuotientIsPositive(1.0, 1.0 + h.depth as real);
    ProductIsPositive(base, 1.0 / (1.0 + h.depth as real));
    if !h.titleMatch { ProductsKeepOrder(3.0, FieldScore(h), base * (1.0 / (1.0 + h.depth as real))); }
  }

  /** The score is positive exactly when something matched. */
  lemma {:induction false} ScoreIsPositiveIff(hits: seq<Hit>, terms: nat)
    requires terms > 0 && AreHits(hits)
    ensures TotalScore(hits, terms) >= 0.0
    ensures TotalScore(hits, terms) > 0.0 <==> hits != []
    decreases |hits|
  {
    if hits != [] {
      HitScores(hits[0], terms);
      ScoreIsPositiveIff(hits[1..], terms);
    }
  }

  lemma {:induction false} HitsAreHits(count: Matcher, nodes: seq<PageNode>, ks: seq<nat>)
    ensures AreHits(HitsAmong(count, nodes, ks))
    decreases |ks|
  {
    if ks != [] { HitsAreHits(count, nodes, ks[1..]); }
  }

  // ---- Hits and score in full -------------------------------------------

  /** A term occurs in the title, in the summary or in the text. */
  ghost predicate Mentions(count: Matcher, n: PageNode) {
    count(n.title) > 0 || count(n.summary) > 0 || (n.content.Some? && count(n.content.value) > 0)
  }

  /** How often the terms occur where they occur most. */
  ghost predicate IsMost(count: Matcher, n: PageNode, most: nat) {
    && most >= count(n.title) && most >= count(n.summary) && (n.content.Some? ==> most >= count(n.content.value))
    && (most == count(n.title) || most == count(n.summary) || (n.content.Some? && most == count(n.content.value)))
  }

  /** The hit says where the node is and what matched in it. */
  ghost predicate IsHitFor(count: Matcher, nodes: seq<PageNode>, k: nat, h: Hit) {
    && k < |nodes| && h.node == k && h.title == nodes[k].title && h.depth == nodes[k].depth
    && (h.titleMatch <==> count(nodes[k].title) > 0)
    && (h.summaryMatch <==> count(nodes[k].summary) > 0)
    && (h.contentMatch <==> nodes[k].content.Some? && count(nodes[k].content.value) > 0)
    && IsMost(count, nodes[k], h.matches)
  }

  ghost predicate AreHitsFor(count: Matcher, nodes: seq<PageNode>, named: seq<nat>, hits: seq<Hit>) {
    |hits| == |named| && forall i :: 0 <= i < |hits| ==> IsHitFor(count, nodes, named[i], hits[i])
  }

  /** One hit for each of the nodes `ks` that mentions a term, in that order, and none for the others. */
  ghost predicate AreMatches(count: Matcher, nodes: seq<PageNode>, ks: seq<nat>, hits: seq<Hit>) {
    exists named ::
      && IsFiltered((k: nat) => k < |nodes| && Mentions(count, nodes[k]), ks, named)
      && AreHitsFor(count, nodes, named, hits)
  }

  ghost function Mentioning(count: Matcher, nodes: seq<PageNode>): nat -> bool {
    (k: nat) => k < |nodes| && Mentions(count, nodes[k])
  }

  lemma {:induction false} HitsForMentions(count: Matcher, nodes: seq<PageNode>, ks: seq<nat>)
    ensures AreHitsFor(count, nodes, Filter(Mentioning(count, nodes), ks), HitsAmong(count, nodes, ks))
    decreases |ks|
  {
    if ks != [] {
      HitsForMentions(count, nodes, ks[1..]);
      OwnHitForMention(count, nodes, ks[0]);
      if Mentioning(count, nodes)(ks[0]) {
        OneHitMore(count, nodes, ks[0], HitOf(count, ks[0], nodes[ks[0]]), Filter(Mentioning(count, nodes), ks[1..]),
          HitsAmong(count, nodes, ks[1..]));
      } else {
        assert [] + HitsAmong(count, nodes, ks[1..]) == HitsAmong(count, nodes, ks[1..]);
      }
    }
  }

  lemma {:induction false} OwnHitForMention(count: Matcher, nodes: seq<PageNode>, k: nat)
    ensures OwnHit(count, nodes, k) == if Mentioning(count, nodes)(k) then [HitOf(count, k, nodes[k])] else []
    ensures Mentioning(count, nodes)(k) ==> IsHitFor(count, nodes, k, HitOf(count, k, nodes[k]))
  {
  }

  lemma {:induction false} OneHitMore(
      count: Matcher, nodes: seq<PageNode>, k: nat, h: Hit, named: seq<nat>, hits: seq<Hit>)
    requires AreHitsFor(count, nodes, named, hits) && IsHitFor(count, nodes, k, h)
    ensures AreHitsFor(count, nodes, [k] + named, [h] + hits)
  {
  }

  lemma {:induction false} HitsAreMatches(count: Matcher, nodes: seq<PageNode>, ks: seq<nat>)
    ensures AreMatches(count, nodes, ks, HitsAmong(count, nodes, ks))
  {
    HitsForMentions(count, nodes, ks);
    FilterIsFiltered(Mentioning(count, nodes), (k: nat) => k < |nodes| && Mentions(count, nodes[k]), ks);
  }

  /** The share of the terms, the depth, and 3, 1.5 or 1 for a title, a summary or the text. */
  ghost predicate IsScoreOf(h: Hit, terms: nat, x: real)
    requires terms > 0
  {
    var weight := if h.titleMatch then 3.0 else if h.summaryMatch then 1.5 else if h.contentMatch then 1.0 else 0.0;
    x == h.matches as real / terms as real * (1.0 / (1.0 + h.depth as real)) * weight
  }

  /** `sums[i]` is what the hits from the `i`-th on add up to. */
  ghost predicate AreSums(hits: seq<Hit>, terms: nat, sums: seq<real>)
    requires terms > 0
  {
    && |sums| == |hits| + 1 && sums[|hits|] == 0.0
    && forall i :: 0 <= i < |hits| ==> IsScoreOf(hits[i], terms, sums[i] - sums[i + 1])
  }

  ghost predicate IsTotal(hits: seq<Hit>, terms: nat, total: real)
    requires terms > 0
  {
    exists sums :: AreSums(hits, terms, sums) && sums[0] == total
  }

  lemma {:induction false} ScoresAddUp(hits: seq<Hit>, terms: nat) returns (sums: seq<real>)
    requires terms > 0
    ensures AreSums(hits, terms, sums) && sums[0] == TotalScore(hits, terms)
    decreases |hits|
  {
    if hits == [] {
      sums := [0.0];
    } else {
      var rest := ScoresAddUp(hits[1..], terms);
      sums := [TotalScore(hits, terms)] + rest;
      ScoreIsScoreOf(hits[0], terms);
      OneSumMore(hits, terms, rest, Score(hits[0], terms));
    }
  }

  lemma {:induction false} ScoreIsScoreOf(h: Hit, terms: nat)
    requires terms > 0
    ensures IsScoreOf(h, terms, Score(h, terms))
  {
  }

  lemma {:induction false} OneSumMore(hits: seq<Hit>, terms: nat, rest: seq<real>, x: real)
    requires terms > 0 && hits != [] && AreSums(hits[1..], terms, rest) && IsScoreOf(hits[0], terms, x)
    ensures AreSums(hits, terms, [x + rest[0]] + rest)
  {
    var sums := [x + rest[0]] + rest;
    forall i | 0 <= i < |hits| ensures IsScoreOf(hits[i], terms, sums[i] - sums[i + 1]) {
      if i == 0 {
        assert sums[0] - sums[1] == x;
      } else {
        assert hits[1..][i - 1] == hits[i];
        assert IsScoreOf(hits[1..][i - 1], terms, rest[i - 1] - rest[i - 1 + 1]);
      }
    }
  }

  // ---- The walk ---------------------------------------------------------

  /** The stored nodes of a built document. */
  ghost predicate Stored(nodes: seq<PageNode>, par: seq<nat>) {
    |nodes| == |par| && forall k :: 0 <= k < |nodes| ==> nodes[k].children == Children(par, k)
  }

  class Grepper {
    const nodes: seq<PageNode>
    const count: Matcher
    var hits: seq<Hit>

    constructor (nodes: seq<PageNode>, count: Matcher)
      ensures this.nodes == nodes && this.count == count && hits == []
    {
      this.nodes, this.count, hits := nodes, count, [];
    }

    method GrepNode(k: nat, ghost par: seq<nat>)
      requires Stored(nodes, par) && k < |nodes|
      modifies this
      ensures hits == old(hits) + HitsAmong(count, nodes, Preorder(par, k))
      decreases |par| - k, 1, 0
    {
      var n := nodes[k];
      var matched := Matches(count, n);
      if matched > 0 {
        hits := hits + [HitOf(count, k, n)];
      }
      assert hits == old(hits) + HitsAmong(count, nodes, [k]) by { assert HitsAmong(count, nodes, [k][1..]) == []; }
      GrepChildren(n.children, k, par);
      HitsOfJoin(count, nodes, [k], PreorderAll(par, n.children, k));
      Associates(old(hits), HitsAmong(count, nodes, [k]), HitsAmong(count, nodes, PreorderAll(par, n.children, k)));
    }

    method GrepChildren(kids: seq<nat>, ghost above: nat, ghost par: seq<nat>)
      requires Stored(nodes, par) && above < |nodes|
      requires forall i :: 0 <= i < |kids| ==> above < kids[i] < |nodes|
      modifies this
      ensures hits == old(hits) + HitsAmong(count, nodes, PreorderAll(par, kids, above))
      decreases |par| - above, 0, |kids|
    {
      if kids != [] {
        GrepNode(kids[0], par);
        GrepChildren(kids[1..], above, par);
        HitsOfJoin(count, nodes, Preorder(par, kids[0]), PreorderAll(par, kids[1..], above));
        Associates(old(hits), HitsAmong(count, nodes, Preorder(par, kids[0])),
          HitsAmong(count, nodes, PreorderAll(par, kids[1..], above)));
      }
    }
  }

  /** Hits and score for a document; `terms` is the number of query terms. */
  method Grep(nodes: seq<PageNode>, count: Matcher, terms: nat, ghost par: seq<nat>)
    returns (hits: seq<Hit>, score: real)
    requires NonCrossing(par) && Stored(nodes, par)
    ensures terms == 0 ==> hits == [] && score == 0.0
    ensures terms > 0 ==> hits == HitsAmong(count, nodes, Range(0, |nodes|)) && score == TotalScore(hits, terms)
    ensures terms > 0 ==> AreMatches(count, nodes, Range(0, |nodes|), hits) && IsTotal(hits, terms, score)
    ensures score > 0.0 <==> hits != []
  {
    if terms == 0 {
      return [], 0.0;
    }
    var grepper := new Grepper(nodes, count);
    grepper.GrepNode(0, par);
    hits := grepper.hits;
    PreorderIsIdentity(par);
    HitsAreHits(count, nodes, Range(0, |nodes|));
    HitsAreMatches(count, nodes, Range(0, |nodes|));
    ghost var sums := ScoresAddUp(hits, terms);
    ScoreIsPositiveIff(hits, terms);
    score := TotalScore(hits, terms);
  }

  /** A built tree is one that `Grep` accepts: it visits each node once, in document order. */
  lemma {:induction false} BuiltTreesAreStored(
      b: TreeBuilder, title: string, cs: seq<Chunk>, nodes: seq<BuildNode>)
    requires b.Built(title, cs, nodes)
    ensures NonCrossing(Parents(cs, b.maxDepth))
    ensures Stored(Map(ToPageNode, nodes), Parents(cs, b.maxDepth))
  {
    ParentsDoNotCross(cs, b.maxDepth);
  }
}
