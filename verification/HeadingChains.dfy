// Which earlier headings a chunk is nested under: the stack of headings that
// are still open, and what it contains.
module HeadingChains {
  import opened Common
  import opened TreeShape

  datatype Chunk = Chunk(level: Option<u8>, heading: string, content: string, summary: Option<string>) {
    predicate IsHeaded() { level.Some? }
  }

  /** A chunk without a heading counts as one of level `unheaded`. */
  function Effective(c: Chunk, unheaded: u8): u8 { if c.level.Some? then c.level.value else unheaded }

  predicate Headings(cs: seq<Chunk>, stack: seq<nat>) {
    forall t :: 0 <= t < |stack| ==> stack[t] < |cs| && cs[stack[t]].IsHeaded()
  }

  /** Drops the innermost headings whose level is `low` or more. */
  function Pop(cs: seq<Chunk>, stack: seq<nat>, low: u8): (rest: seq<nat>)
    requires Headings(cs, stack)
    ensures |rest| <= |stack| && rest == stack[..|rest|]
  {
    if stack != [] && cs[stack[|stack| - 1]].level.value >= low then Pop(cs, stack[..|stack| - 1], low) else stack
  }

  /** The headings that enclose chunk `i`, outermost first. */
  function Chain(cs: seq<Chunk>, unheaded: u8, i: nat): (chain: seq<nat>)
    requires i < |cs|
    ensures Headings(cs, chain) && forall t :: 0 <= t < |chain| ==> chain[t] < i
    decreases i, 1
  {
    Pop(cs, Before(cs, unheaded, i), Effective(cs[i], unheaded))
  }

  /** The headings still open when chunk `i` is reached. */
  function Before(cs: seq<Chunk>, unheaded: u8, i: nat): (stack: seq<nat>)
    requires i <= |cs|
    ensures Headings(cs, stack) && forall t :: 0 <= t < |stack| ==> stack[t] < i
    decreases i, 0
  {
    if i == 0 then []
    else Chain(cs, unheaded, i - 1) + if cs[i - 1].IsHeaded() then [i - 1] else []
  }

  // ---- What is open -----------------------------------------------------

  /** The chunk lies deeper than a heading of that level. */
  ghost predicate IsDeeper(c: Chunk, unheaded: u8, level: u8) {
    && (c.level.Some? ==> level < c.level.value)
    && (c.level.None? ==> level < unheaded)
  }

  /** Every chunk after `j`, up to but not including `i`, is nested deeper than heading `j`. */
  ghost predicate IsOpenBefore(cs: seq<Chunk>, unheaded: u8, j: nat, i: nat)
    requires i <= |cs|
  {
    && j < i && cs[j].level.Some?
    && forall k :: j < k < i ==> IsDeeper(cs[k], unheaded, cs[j].level.value)
  }

  /** Heading `j` encloses chunk `i`: every chunk after `j`, up to `i`, is nested deeper. */
  ghost predicate Encloses(cs: seq<Chunk>, unheaded: u8, j: nat, i: nat)
    requires i < |cs|
  {
    IsOpenBefore(cs, unheaded, j, i) && IsDeeper(cs[i], unheaded, cs[j].level.value)
  }

  ghost predicate Deepens(cs: seq<Chunk>, stack: seq<nat>)
    requires Headings(cs, stack)
  {
    forall t, u :: 0 <= t < u < |stack| ==>
      stack[t] < stack[u] && cs[stack[t]].level.value < cs[stack[u]].level.value
  }

  lemma {:induction false} TopIsDeepest(cs: seq<Chunk>, stack: seq<nat>, j: nat)
    requires Headings(cs, stack) && Deepens(cs, stack) && stack != [] && j in stack
    ensures cs[j].level.value <= cs[stack[|stack| - 1]].level.value
  {
    var t :| 0 <= t < |stack| && stack[t] == j;
  }

  lemma {:induction false} PopKeepsLower(cs: seq<Chunk>, stack: seq<nat>, low: u8)
    requires Headings(cs, stack) && Deepens(cs, stack)
    ensures Deepens(cs, Pop(cs, stack, low))
    ensures forall j :: j in Pop(cs, stack, low) <==> j in stack && cs[j].level.value < low
    decreases |stack|
  {
    if stack != [] {
      var front, top := stack[..|stack| - 1], stack[|stack| - 1];
      if cs[top].level.value >= low {
        PopKeepsLower(cs, front, low);
        assert stack == front + [top];
      } else {
        forall j | j in stack ensures cs[j].level.value < low { TopIsDeepest(cs, stack, j); }
      }
    }
  }

  lemma {:induction false} SnocDeepens(cs: seq<Chunk>, stack: seq<nat>, i: nat)
    requires i < |cs| && cs[i].IsHeaded() && Headings(cs, stack) && Deepens(cs, stack)
    requires forall j :: j in stack ==> j < i && cs[j].level.value < cs[i].level.value
    ensures Deepens(cs, stack + [i])
  {
    forall t | 0 <= t < |stack| ensures stack[t] < i && cs[stack[t]].level.value < cs[i].level.value {
      assert stack[t] in stack;
    }
  }

  lemma {:induction false} StackMember(cs: seq<Chunk>, unheaded: u8, i: nat, j: nat)
    requires i < |cs| && (j in Chain(cs, unheaded, i) <==> Encloses(cs, unheaded, j, i))
    ensures j in Before(cs, unheaded, i + 1) <==> IsOpenBefore(cs, unheaded, j, i + 1)
  {
    if j < i { OpenOneFurther(cs, unheaded, j, i); }
  }

  lemma {:induction false} BeforeIsOpen(cs: seq<Chunk>, unheaded: u8, i: nat)
    requires i <= |cs|
    ensures Deepens(cs, Before(cs, unheaded, i))
    ensures forall j :: j in Before(cs, unheaded, i) <==> IsOpenBefore(cs, unheaded, j, i)
    decreases i, 0
  {
    if i > 0 {
      ChainEncloses(cs, unheaded, i - 1);
      if cs[i - 1].IsHeaded() { SnocDeepens(cs, Chain(cs, unheaded, i - 1), i - 1); }
      forall j: nat ensures j in Before(cs, unheaded, i) <==> IsOpenBefore(cs, unheaded, j, i) {
        StackMember(cs, unheaded, i - 1, j);
      }
    }
  }

  lemma {:induction false} OpenOneFurther(cs: seq<Chunk>, unheaded: u8, j: nat, i: nat)
    requires j < i < |cs|
    ensures IsOpenBefore(cs, unheaded, j, i + 1) <==> Encloses(cs, unheaded, j, i)
  {
  }

  /** The chain of a chunk is exactly the headings that enclose it, in order, with rising levels. */
  lemma {:induction false} ChainEncloses(cs: seq<Chunk>, unheaded: u8, i: nat)
    requires i < |cs|
    ensures Deepens(cs, Chain(cs, unheaded, i))
    ensures forall j :: j in Chain(cs, unheaded, i) <==> Encloses(cs, unheaded, j, i)
    decreases i, 1
  {
    BeforeIsOpen(cs, unheaded, i);
    PopKeepsLower(cs, Before(cs, unheaded, i), Effective(cs[i], unheaded));
  }

  // ---- Parents ----------------------------------------------------------

  /** Node 0 is the root, and node `i + 1` is chunk `i`. */
  function ParentNode(cs: seq<Chunk>, unheaded: u8, i: nat): (p: nat)
    requires i < |cs|
    ensures p <= i
  {
    var chain := Chain(cs, unheaded, i);
    if chain == [] then 0 else chain[|chain| - 1] + 1
  }

  /** Heading `j` encloses chunk `i`, and no later heading does. */
  ghost predicate IsInnermost(cs: seq<Chunk>, unheaded: u8, j: nat, i: nat)
    requires i < |cs|
  {
    Encloses(cs, unheaded, j, i) && forall k :: j < k < i ==> !Encloses(cs, unheaded, k, i)
  }

  lemma {:induction false} ParentEncloses(cs: seq<Chunk>, unheaded: u8, i: nat)
    requires i < |cs| && ParentNode(cs, unheaded, i) > 0
    ensures Encloses(cs, unheaded, ParentNode(cs, unheaded, i) - 1, i)
  {
    var chain := Chain(cs, unheaded, i);
    ChainEncloses(cs, unheaded, i);
    assert chain[|chain| - 1] in chain;
  }

  lemma {:induction false} NothingNearer(cs: seq<Chunk>, unheaded: u8, i: nat, k: nat)
    requires i < |cs| && Encloses(cs, unheaded, k, i)
    ensures k + 1 <= ParentNode(cs, unheaded, i)
  {
    var chain := Chain(cs, unheaded, i);
    ChainEncloses(cs, unheaded, i);
    assert k in chain;
  }

  /** The parent is the root exactly when no heading encloses the chunk. */
  lemma {:induction false} ParentIsRootIff(cs: seq<Chunk>, unheaded: u8, i: nat)
    requires i < |cs|
    ensures ParentNode(cs, unheaded, i) == 0 <==> forall k :: 0 <= k < i ==> !Encloses(cs, unheaded, k, i)
  {
    if ParentNode(cs, unheaded, i) > 0 { ParentEncloses(cs, unheaded, i); }
    forall k | 0 <= k < i && Encloses(cs, unheaded, k, i) ensures ParentNode(cs, unheaded, i) > 0 {
      NothingNearer(cs, unheaded, i, k);
    }
  }

  /**
   * The parent is the nearest earlier heading whose level is below the
   * effective level of every chunk after it, up to this one.
   */
  lemma {:induction false} ParentIsNearest(cs: seq<Chunk>, unheaded: u8, i: nat, j: nat)
    requires j < i < |cs|
    ensures ParentNode(cs, unheaded, i) == j + 1
      <==> Encloses(cs, unheaded, j, i) && forall k :: j < k < i ==> !Encloses(cs, unheaded, k, i)
  {
    if ParentNode(cs, unheaded, i) > 0 { ParentEncloses(cs, unheaded, i); }
    forall k | j <= k < i && Encloses(cs, unheaded, k, i) ensures k + 1 <= ParentNode(cs, unheaded, i) {
      NothingNearer(cs, unheaded, i, k);
    }
  }

  lemma {:induction false} OuterEncloses(cs: seq<Chunk>, unheaded: u8, j: nat, i: nat, k: nat)
    requires i <= k < |cs| && j < i && Encloses(cs, unheaded, j, k)
    ensures Encloses(cs, unheaded, j, i)
  {
    assert cs[j].level.value < Effective(cs[i], unheaded);
  }

  /** The parents of all nodes; the root is given itself. */
  function Parents(cs: seq<Chunk>, unheaded: u8): (par: seq<nat>)
    ensures |par| == |cs| + 1 && par[0] == 0
    ensures forall k :: 0 < k < |par| ==> par[k] == ParentNode(cs, unheaded, k - 1)
  {
    [0] + seq(|cs|, i requires 0 <= i < |cs| => ParentNode(cs, unheaded, i))
  }

  lemma {:induction false} ParentsDoNotCross(cs: seq<Chunk>, unheaded: u8)
    ensures NonCrossing(Parents(cs, unheaded))
  {
    var par := Parents(cs, unheaded);
    assert IsShape(par);
    forall a, b | 0 < a < b < |par| ensures par[b] <= par[a] || par[b] >= a {
      NodesDoNotCross(cs, unheaded, a, b);
    }
  }

  lemma {:induction false} NodesDoNotCross(cs: seq<Chunk>, unheaded: u8, a: nat, b: nat)
    requires 0 < a < b <= |cs|
    ensures var par := Parents(cs, unheaded); par[b] <= par[a] || par[b] >= a
  {
    PairDoesNotCross(cs, unheaded, a - 1, b - 1);
  }

  lemma {:induction false} PairDoesNotCross(cs: seq<Chunk>, unheaded: u8, i: nat, k: nat)
    requires i < k < |cs|
    ensures ParentNode(cs, unheaded, k) <= ParentNode(cs, unheaded, i) || ParentNode(cs, unheaded, k) >= i + 1
  {
    var above := ParentNode(cs, unheaded, k);
    if 0 < above < i + 1 {
      var j := above - 1;
      ParentIsNearest(cs, unheaded, k, j);
      OuterEncloses(cs, unheaded, j, i, k);
      ChainEncloses(cs, unheaded, i);
      var chain := Chain(cs, unheaded, i);
      var t :| 0 <= t < |chain| && chain[t] == j;
    }
  }

  /** The node list is the preorder of the tree it describes: flattening gives the chunks back in order. */
  lemma {:induction false} BuiltTreeFlattens(cs: seq<Chunk>, unheaded: u8)
    ensures Preorder(Parents(cs, unheaded), 0) == Range(0, |cs| + 1)
    ensures Map(k => if 0 < k <= |cs| then cs[k - 1].content else "", Preorder(Parents(cs, unheaded), 0)[1..])
      == Map((c: Chunk) => c.content, cs)
  {
    ParentsDoNotCross(cs, unheaded);
    PreorderIsIdentity(Parents(cs, unheaded));
  }

  // ---- Depths -----------------------------------------------------------

  /** A heading's chain is what stands before it on every later stack. */
  lemma {:induction false} StackIsChains(cs: seq<Chunk>, unheaded: u8, i: nat, t: nat)
    requires i <= |cs| && t < |Before(cs, unheaded, i)|
    ensures Before(cs, unheaded, i)[..t] == Chain(cs, unheaded, Before(cs, unheaded, i)[t])
    decreases i
  {
    var chain := Chain(cs, unheaded, i - 1);
    if t < |chain| {
      StackIsChains(cs, unheaded, i - 1, t);
      assert Before(cs, unheaded, i)[..t] == chain[..t] == Before(cs, unheaded, i - 1)[..t];
    } else {
      assert Before(cs, unheaded, i)[..t] == chain;
    }
  }

  lemma {:induction false} ChainOfParent(cs: seq<Chunk>, unheaded: u8, i: nat)
    requires i < |cs| && Chain(cs, unheaded, i) != []
    ensures var chain := Chain(cs, unheaded, i);
      Chain(cs, unheaded, chain[|chain| - 1]) == chain[..|chain| - 1]
  {
    var chain := Chain(cs, unheaded, i);
    StackIsChains(cs, unheaded, i, |chain| - 1);
    assert Before(cs, unheaded, i)[..|chain| - 1] == chain[..|chain| - 1];
  }

  /** `len() as u8`. */
  function AsU8(n: nat): u8 { n % 256 }

  function Depth(cs: seq<Chunk>, unheaded: u8, i: nat): u8
    requires i < |cs|
  {
    AsU8(|Chain(cs, unheaded, i)| + 1)
  }

  /** The headings that enclose chunk `i`. */
  ghost function Enclosing(cs: seq<Chunk>, unheaded: u8, i: nat): set<nat>
    requires i < |cs|
  {
    set j: nat | j < i && Encloses(cs, unheaded, j, i)
  }

  lemma {:induction false} AscendingSize(stack: seq<nat>, members: set<nat>)
    requires forall t, u :: 0 <= t < u < |stack| ==> stack[t] < stack[u]
    requires forall j :: j in members <==> j in stack
    ensures |members| == |stack|
    decreases |stack|
  {
    if stack != [] {
      var front, top := stack[..|stack| - 1], stack[|stack| - 1];
      assert stack == front + [top];
      assert top !in front;
      AscendingSize(front, members - {top});
    } else {
      assert members == {};
    }
  }

  /** The chain is as long as there are enclosing headings. */
  lemma {:induction false} ChainCounts(cs: seq<Chunk>, unheaded: u8, i: nat)
    requires i < |cs|
    ensures |Chain(cs, unheaded, i)| == |Enclosing(cs, unheaded, i)|
  {
    ChainEncloses(cs, unheaded, i);
    AscendingSize(Chain(cs, unheaded, i), Enclosing(cs, unheaded, i));
  }

  lemma {:induction false} LevelsClimb(cs: seq<Chunk>, stack: seq<nat>, lowest: nat, t: nat)
    requires Headings(cs, stack) && Deepens(cs, stack) && t < |stack|
    requires forall u :: 0 <= u < |stack| ==> cs[stack[u]].level.value >= lowest
    ensures cs[stack[t]].level.value >= lowest + t
    decreases t
  {
    if t > 0 { LevelsClimb(cs, stack, lowest, t - 1); }
  }

  ghost predicate LevelsFrom(cs: seq<Chunk>, lowest: nat) {
    forall c :: c in cs && c.IsHeaded() ==> c.level.value >= lowest
  }

  /** With heading levels from `lowest` up, a chain is no longer than the levels below its chunk's. */
  lemma {:induction false} ChainIsShort(cs: seq<Chunk>, unheaded: u8, i: nat, lowest: nat)
    requires i < |cs| && LevelsFrom(cs, lowest) && unheaded >= lowest
    ensures |Chain(cs, unheaded, i)| + lowest <= Effective(cs[i], unheaded)
  {
    var chain := Chain(cs, unheaded, i);
    ChainEncloses(cs, unheaded, i);
    forall u | 0 <= u < |chain| ensures cs[chain[u]].level.value >= lowest { assert cs[chain[u]] in cs; }
    assert cs[i] in cs;
    if chain != [] {
      LevelsClimb(cs, chain, lowest, |chain| - 1);
      assert chain[|chain| - 1] in chain;
    }
  }

  /** When levels start at 1 the depth never wraps, and is at most the effective level. */
  lemma {:induction false} DepthWithinLevel(cs: seq<Chunk>, unheaded: u8, i: nat)
    requires i < |cs| && LevelsFrom(cs, 1) && unheaded >= 1
    ensures Depth(cs, unheaded, i) == |Chain(cs, unheaded, i)| + 1 <= Effective(cs[i], unheaded)
  {
    ChainIsShort(cs, unheaded, i, 1);
  }

  /** A heading of level `t` encloses chunk `i`. */
  ghost predicate EnclosedAt(cs: seq<Chunk>, unheaded: u8, i: nat, t: nat)
    requires i < |cs|
  {
    exists j :: 0 <= j < i && Encloses(cs, unheaded, j, i) && cs[j].level.value == t
  }

  ghost predicate HasLevel(cs: seq<Chunk>, stack: seq<nat>, t: nat)
    requires Headings(cs, stack)
  {
    exists p :: 0 <= p < |stack| && cs[stack[p]].level.value == t
  }

  /** In a stack with all levels up to `t`, the heading of level `t` is not among the first `t`. */
  lemma {:induction false} LevelsFill(cs: seq<Chunk>, stack: seq<nat>, t: nat) returns (p: nat)
    requires Headings(cs, stack) && Deepens(cs, stack) && forall u :: 0 <= u <= t ==> HasLevel(cs, stack, u)
    ensures t <= p < |stack| && cs[stack[p]].level.value == t
    decreases t
  {
    assert HasLevel(cs, stack, t);
    p :| 0 <= p < |stack| && cs[stack[p]].level.value == t;
    if t > 0 { var q := LevelsFill(cs, stack, t - 1); }
  }

  lemma {:induction false} EnclosedIsOnChain(cs: seq<Chunk>, unheaded: u8, i: nat, t: nat)
    requires i < |cs| && EnclosedAt(cs, unheaded, i, t)
    ensures HasLevel(cs, Chain(cs, unheaded, i), t)
  {
    ChainEncloses(cs, unheaded, i);
    var j :| 0 <= j < i && Encloses(cs, unheaded, j, i) && cs[j].level.value == t;
    assert j in Chain(cs, unheaded, i);
  }

  lemma {:induction false} FullChainHasAllLevels(cs: seq<Chunk>, unheaded: u8, i: nat, t: nat)
    requires i < |cs| && |Chain(cs, unheaded, i)| == 255 && t < 255
    ensures Effective(cs[i], unheaded) == 255 && EnclosedAt(cs, unheaded, i, t)
  {
    var chain := Chain(cs, unheaded, i);
    ChainEncloses(cs, unheaded, i);
    LevelsClimb(cs, chain, 0, t);
    LevelsFall(cs, unheaded, i, t);
    assert chain[t] in chain;
  }

  /**
   * For all levels: the depth wraps exactly when the chunk has effective level
   * 255 and headings of all levels from 0 to 254 enclose it.
   */
  lemma {:induction false} DepthWrapsIff(cs: seq<Chunk>, unheaded: u8, i: nat)
    requires i < |cs|
    ensures Depth(cs, unheaded, i) != |Chain(cs, unheaded, i)| + 1
      <==> Effective(cs[i], unheaded) == 255 && forall t :: 0 <= t < 255 ==> EnclosedAt(cs, unheaded, i, t)
  {
    var chain := Chain(cs, unheaded, i);
    ChainIsShort(cs, unheaded, i, 0);
    if |chain| == 255 {
      forall t | 0 <= t < 255 ensures Effective(cs[i], unheaded) == 255 && EnclosedAt(cs, unheaded, i, t) {
        FullChainHasAllLevels(cs, unheaded, i, t);
      }
      FullChainHasAllLevels(cs, unheaded, i, 0);
    } else if forall t :: 0 <= t < 255 ==> EnclosedAt(cs, unheaded, i, t) {
      forall t | 0 <= t <= 254 ensures HasLevel(cs, chain, t) { EnclosedIsOnChain(cs, unheaded, i, t); }
      ChainEncloses(cs, unheaded, i);
      var p := LevelsFill(cs, chain, 254);
    }
  }

  lemma {:induction false} LevelsFall(cs: seq<Chunk>, unheaded: u8, i: nat, t: nat)
    requires i < |cs| && t < |Chain(cs, unheaded, i)|
    requires Deepens(cs, Chain(cs, unheaded, i))
    requires forall j :: j in Chain(cs, unheaded, i) ==> Encloses(cs, unheaded, j, i)
    ensures cs[Chain(cs, unheaded, i)[t]].level.value + |Chain(cs, unheaded, i)| - t <= Effective(cs[i], unheaded)
    decreases |Chain(cs, unheaded, i)| - t
  {
    var chain := Chain(cs, unheaded, i);
    if t + 1 < |chain| { LevelsFall(cs, unheaded, i, t + 1); } else { assert chain[t] in chain; }
  }

  /** A child lies one deeper than its parent, on a `u8`. */
  lemma {:induction false} DepthOfChild(cs: seq<Chunk>, unheaded: u8, i: nat)
    requires i < |cs|
    ensures var p := ParentNode(cs, unheaded, i);
      Depth(cs, unheaded, i) == if p == 0 then 1 else AsU8(Depth(cs, unheaded, p - 1) + 1)
  {
    var chain := Chain(cs, unheaded, i);
    if chain != [] {
      ChainOfParent(cs, unheaded, i);
      ChainIsShort(cs, unheaded, chain[|chain| - 1], 0);
      ChainIsShort(cs, unheaded, i, 0);
    }
  }

  // ---- Leaves -----------------------------------------------------------

  lemma {:induction false} NextIsChild(cs: seq<Chunk>, unheaded: u8, i: nat)
    requires i + 1 < |cs| && cs[i].IsHeaded() && Effective(cs[i + 1], unheaded) > Effective(cs[i], unheaded)
    ensures ParentNode(cs, unheaded, i + 1) == i + 1
  {
    ParentIsNearest(cs, unheaded, i + 1, i);
  }

  lemma {:induction false} ChildMeansNext(cs: seq<Chunk>, unheaded: u8, i: nat, k: nat)
    requires i < k < |cs| && ParentNode(cs, unheaded, k) == i + 1
    ensures cs[i].IsHeaded() && Effective(cs[i + 1], unheaded) > Effective(cs[i], unheaded)
  {
    ParentIsNearest(cs, unheaded, k, i);
    OuterEncloses(cs, unheaded, i, i + 1, k);
  }

  /** Chunk `i` has a nested chunk right behind it. */
  predicate Opens(cs: seq<Chunk>, unheaded: u8, i: nat)
    requires i < |cs|
  {
    cs[i].IsHeaded() && i + 1 < |cs| && Effective(cs[i + 1], unheaded) > Effective(cs[i], unheaded)
  }

  /**
   * A chunk stays a leaf exactly when it is unheaded, last, or followed by a
   * chunk that is not nested deeper.
   */
  lemma {:induction false} LeafIsLocal(cs: seq<Chunk>, unheaded: u8, i: nat)
    requires i < |cs|
    ensures Children(Parents(cs, unheaded), i + 1) == [] <==> !Opens(cs, unheaded, i)
  {
    var par := Parents(cs, unheaded);
    ChildrenInvertParents(par, i + 1, 0);
    if Opens(cs, unheaded, i) {
      NextIsChild(cs, unheaded, i);
      assert par[i + 2] == i + 1;
      assert i + 2 in Children(par, i + 1);
    } else if Children(par, i + 1) != [] {
      var k := Children(par, i + 1)[0];
      assert k in Children(par, i + 1);
      ChildMeansNext(cs, unheaded, i, k - 1);
    }
  }
}
