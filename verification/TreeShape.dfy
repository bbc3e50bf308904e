// Trees as lists of parents: node 0 is the root, and every other node comes
// after its parent.
module TreeShape {
  import opened Common

  predicate IsShape(par: seq<nat>) { par != [] && forall k :: 0 < k < |par| ==> par[k] < k }

  /** A node hangs below its predecessor or below one of the predecessor's ancestors, never in between. */
  ghost predicate NonCrossing(par: seq<nat>) {
    IsShape(par) && forall a, b :: 0 < a < b < |par| ==> par[b] <= par[a] || par[b] >= a
  }

  /** The children of `p` from position `m` on, in order. */
  function ChildrenFrom(par: seq<nat>, p: nat, m: nat): (kids: seq<nat>)
    ensures forall i :: 0 <= i < |kids| ==> m <= kids[i] < |par| && p < kids[i]
    decreases |par| - m
  {
    if m >= |par| then []
    else if m > p && par[m] == p then [m] + ChildrenFrom(par, p, m + 1)
    else ChildrenFrom(par, p, m + 1)
  }

  function Children(par: seq<nat>, p: nat): seq<nat> { ChildrenFrom(par, p, 0) }

  ghost predicate Ascends(s: seq<nat>) { forall i, j :: 0 <= i < j < |s| ==> s[i] < s[j] }

  lemma {:induction false} ChildrenAscend(par: seq<nat>, p: nat, m: nat)
    ensures Ascends(ChildrenFrom(par, p, m))
    decreases |par| - m
  {
    if m < |par| { ChildrenAscend(par, p, m + 1); }
  }

  lemma {:induction false} ChildrenAreThose(par: seq<nat>, p: nat, m: nat, k: nat)
    ensures k in ChildrenFrom(par, p, m) <==> m <= k < |par| && k > p && par[k] == p
    decreases |par| - m
  {
    if m < |par| { ChildrenAreThose(par, p, m + 1, k); }
  }

  /** The list of children is the inverse of the list of parents, in increasing order. */
  lemma {:induction false} ChildrenInvertParents(par: seq<nat>, p: nat, m: nat)
    ensures Ascends(ChildrenFrom(par, p, m))
    ensures forall k :: k in ChildrenFrom(par, p, m) <==> m <= k < |par| && k > p && par[k] == p
  {
    ChildrenAscend(par, p, m);
    forall k: nat ensures k in ChildrenFrom(par, p, m) <==> m <= k < |par| && k > p && par[k] == p {
      ChildrenAreThose(par, p, m, k);
    }
  }

  lemma {:induction false} ChildrenSkip(par: seq<nat>, p: nat, m: nat, n: nat)
    requires m <= n && forall k :: m <= k < n && k < |par| && k > p ==> par[k] != p
    ensures ChildrenFrom(par, p, m) == ChildrenFrom(par, p, n)
    decreases n - m
  {
    if m < n {
      ChildrenSkip(par, p, m + 1, n);
    }
  }

  /** One more node extends the list of children of its parent and no other. */
  lemma {:induction false} ChildrenOfSnoc(par: seq<nat>, q: nat, p: nat, m: nat)
    requires m <= |par|
    ensures ChildrenFrom(par + [q], p, m) == ChildrenFrom(par, p, m) + if q == p && |par| > p then [|par|] else []
    decreases |par| - m
  {
    if m < |par| {
      ChildrenOfSnoc(par, q, p, m + 1);
      assert (par + [q])[m] == par[m];
    } else {
      assert ChildrenFrom(par + [q], p, m + 1) == [];
    }
  }

  lemma {:induction false} LastHasNoChildren(par: seq<nat>, p: nat)
    requires p + 1 >= |par|
    ensures Children(par, p) == []
  {
    ChildrenSkip(par, p, 0, |par|);
  }

  // ---- Preorder ---------------------------------------------------------

  function Preorder(par: seq<nat>, p: nat): seq<nat>
    requires p < |par|
    decreases |par| - p, 0
  {
    [p] + PreorderAll(par, Children(par, p), p)
  }

  function PreorderAll(par: seq<nat>, kids: seq<nat>, above: nat): seq<nat>
    requires above < |par| && forall i :: 0 <= i < |kids| ==> above < kids[i] < |par|
    decreases |par| - above - 1, |kids|
  {
    if kids == [] then []
    else Preorder(par, kids[0]) + PreorderAll(par, kids[1..], above)
  }

  /** The first node after `p`, from `m` on, that is not below `p`. */
  function EndFrom(par: seq<nat>, p: nat, m: nat): (e: nat)
    requires p < m <= |par|
    ensures m <= e <= |par|
    ensures forall k :: m <= k < e ==> par[k] >= p
    ensures e < |par| ==> par[e] < p
    decreases |par| - m
  {
    if m == |par| || par[m] < p then m else EndFrom(par, p, m + 1)
  }

  function End(par: seq<nat>, p: nat): (e: nat)
    requires p < |par|
    ensures p < e <= |par|
  {
    EndFrom(par, p, p + 1)
  }

  lemma {:induction false} EndIsUnique(par: seq<nat>, p: nat, m: nat, e: nat)
    requires p < m <= e <= |par| && (forall k :: m <= k < e ==> par[k] >= p) && (e < |par| ==> par[e] < p)
    ensures EndFrom(par, p, m) == e
    decreases e - m
  {
    if m < e { EndIsUnique(par, p, m + 1, e); }
  }

  lemma {:induction false} RangeSplits(a: nat, b: nat, c: nat)
    requires a <= b <= c
    ensures Range(a, b) + Range(b, c) == Range(a, c)
  {
  }

  /** The subtree of each node is a block of consecutive nodes, listed in order. */
  lemma {:induction false} SubtreeIsBlock(par: seq<nat>, p: nat)
    requires NonCrossing(par) && p < |par|
    ensures Preorder(par, p) == Range(p, End(par, p))
    decreases |par| - p, 0
  {
    ChildrenSkip(par, p, 0, p + 1);
    ChildrenAreBlocks(par, p, p + 1);
    assert [p] == Range(p, p + 1);
    RangeSplits(p, p + 1, End(par, p));
  }

  lemma {:induction false} ChildrenAreBlocks(par: seq<nat>, p: nat, m: nat)
    requires NonCrossing(par) && p < |par| && p < m <= End(par, p) && (m < End(par, p) ==> par[m] == p)
    ensures PreorderAll(par, ChildrenFrom(par, p, m), p) == Range(m, End(par, p))
    decreases |par| - p - 1, |par| - m
  {
    var e := End(par, p);
    if m == e {
      forall k | m <= k < |par| && k > p ensures par[k] != p {
        if k > e { assert par[k] <= par[e] || par[k] >= e; }
      }
      ChildrenSkip(par, p, m, |par|);
    } else {
      var next := End(par, m);
      SubtreeIsBlock(par, m);
      BlockEnds(par, p, m);
      ChildrenSkip(par, p, m + 1, next);
      ChildrenAreBlocks(par, p, next);
      assert ChildrenFrom(par, p, m) == [m] + ChildrenFrom(par, p, next);
      RangeSplits(m, next, e);
    }
  }

  /** After the block of one child comes the next child, or the end of the parent's block. */
  lemma {:induction false} BlockEnds(par: seq<nat>, p: nat, m: nat)
    requires NonCrossing(par) && p < |par| && p < m < End(par, p) && par[m] == p
    ensures End(par, m) <= End(par, p)
    ensures End(par, m) < End(par, p) ==> par[End(par, m)] == p
  {
  }

  /** Flattening the tree gives the nodes back in the order of the list. */
  lemma {:induction false} PreorderIsIdentity(par: seq<nat>)
    requires NonCrossing(par)
    ensures Preorder(par, 0) == Range(0, |par|)
  {
    SubtreeIsBlock(par, 0);
    EndIsUnique(par, 0, 1, |par|);
  }
}
