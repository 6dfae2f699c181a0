/** Constituency parse trees and the two tree walks of the feature extractor: the
    "smallest subtree containing a token sequence" search and the pre-order collection
    of internal-node labels. A tree node stands for an `nltk.tree.Tree`; a leaf for a
    plain word, which the Python code tells apart with `isinstance(child, Tree)`. */
module ParseTree {
  import opened Wrappers
  import opened Text

  datatype Tree = Leaf(word: string) | Node(category: string, children: seq<Tree>)

  /** `tree.leaves()`: the words at the leaves, left to right. */
  function Leaves(t: Tree): seq<string>
    decreases t, 1, 0
  {
    match t
    case Leaf(w) => [w]
    case Node(_, _) => LeavesFrom(t, 0)
  }

  /** The leaves of the children of `t` from position `i` on. */
  function LeavesFrom(t: Tree, i: nat): seq<string>
    requires t.Node? && i <= |t.children|
    decreases t, 0, |t.children| - i
  {
    if i == |t.children| then [] else Leaves(t.children[i]) + LeavesFrom(t, i + 1)
  }

  /** `words_in_tree`: the target words joined by spaces occur as a substring of the
      tree's leaves joined by spaces. This is string containment, not alignment of
      whole tokens. */
  predicate WordsInTree(t: Tree, target: seq<string>)
  {
    IsSubstring(Join(" ", target), Join(" ", Leaves(t)))
  }

  /** The test the search applies to a child: it is a tree node and contains the target. */
  predicate NodeContains(c: Tree, target: seq<string>)
  {
    c.Node? && WordsInTree(c, target)
  }

  /** `s` is `t` itself or lies somewhere below it. */
  predicate DescendantOrSelf(s: Tree, t: Tree)
    decreases t
  {
    s == t || (t.Node? && exists i | 0 <= i < |t.children| :: DescendantOrSelf(s, t.children[i]))
  }

  lemma {:induction false} LeavesAround(t: Tree, j: nat, i: nat) returns (pre: seq<string>)
    requires t.Node? && j <= i < |t.children|
    ensures LeavesFrom(t, j) == pre + Leaves(t.children[i]) + LeavesFrom(t, i + 1)
    decreases i - j
  {
    if j == i {
      pre := [];
    } else {
      var rest := LeavesAround(t, j + 1, i);
      pre := Leaves(t.children[j]) + rest;
    }
  }

  /** If a child contains the target, so does its parent: the child's joined leaves are a
      contiguous piece of the parent's joined leaves. */
  lemma ChildContainmentLifts(t: Tree, i: nat, target: seq<string>)
    requires t.Node? && i < |t.children|
    requires WordsInTree(t.children[i], target)
    ensures WordsInTree(t, target)
  {
    var pre := LeavesAround(t, 0, i);
    var mid := Leaves(t.children[i]);
    var post := LeavesFrom(t, i + 1);
    JoinInfix(" ", pre, mid, post);
    SubstringTransitive(Join(" ", target), Join(" ", mid), Join(" ", pre + mid + post));
  }

  /** Containment holds of every ancestor of a subtree that contains the target. */
  lemma {:induction false} AncestorContainment(s: Tree, t: Tree, target: seq<string>)
    requires DescendantOrSelf(s, t) && WordsInTree(s, target)
    ensures WordsInTree(t, target)
    decreases t
  {
    if s != t {
      var i :| 0 <= i < |t.children| && DescendantOrSelf(s, t.children[i]);
      AncestorContainment(s, t.children[i], target);
      ChildContainmentLifts(t, i, target);
    }
  }

  // ---------------------------------------------------------------------------
  // get_subtree_between_words, as written: an accumulator `smallest` threaded through
  // the loop over the children

  /** One call of `get_subtree_between_words(tree, target, smallest)` on a tree node. */
  function Walk(t: Tree, target: seq<string>, smallest: Option<Tree>): Option<Tree>
    requires t.Node?
    decreases t, 1, 0
  {
    if WordsInTree(t, target) then WalkChildren(t, 0, target, Some(t)) else smallest
  }

  /** The `for child in tree` loop from child `i` on: every tree child is searched with
      the current best, and its answer becomes the new best. */
  function WalkChildren(t: Tree, i: nat, target: seq<string>, smallest: Option<Tree>): Option<Tree>
    requires t.Node? && i <= |t.children|
    decreases t, 0, |t.children| - i
  {
    if i == |t.children| then smallest
    else
      var c := t.children[i];
      WalkChildren(t, i + 1, target, if c.Node? then Walk(c, target, smallest) else smallest)
  }

  // A reference definition of what the search finds

  /** Index of the last tree child among the first `n` that contains the target, or -1. */
  function LastContaining(t: Tree, target: seq<string>, n: nat): (k: int)
    requires t.Node? && n <= |t.children|
    ensures -1 <= k < n
    ensures k >= 0 ==> NodeContains(t.children[k], target)
    ensures forall j :: k < j < n ==> !NodeContains(t.children[j], target)
  {
    if n == 0 then -1
    else if NodeContains(t.children[n - 1], target) then n - 1
    else LastContaining(t, target, n - 1)
  }

  /** Descend into the last tree child that contains the target for as long as there is
      one. */
  function Deepest(t: Tree, target: seq<string>): (s: Tree)
    requires t.Node? && WordsInTree(t, target)
    ensures s.Node? && WordsInTree(s, target) && DescendantOrSelf(s, t)
    ensures forall j :: 0 <= j < |s.children| ==> !NodeContains(s.children[j], target)
    decreases t
  {
    var k := LastContaining(t, target, |t.children|);
    if k < 0 then t
    else
      var s := Deepest(t.children[k], target);
      assert DescendantOrSelf(s, t.children[k]);
      s
  }

  lemma {:induction false} WalkFindsDeepest(t: Tree, target: seq<string>, smallest: Option<Tree>)
    requires t.Node?
    ensures Walk(t, target, smallest) ==
            if WordsInTree(t, target) then Some(Deepest(t, target)) else smallest
    decreases t, 1, 0
  {
    if WordsInTree(t, target) {
      WalkChildrenFindsDeepest(t, 0, target, Some(t));
    }
  }

  lemma {:induction false} WalkChildrenFindsDeepest(t: Tree, i: nat, target: seq<string>, smallest: Option<Tree>)
    requires t.Node? && i <= |t.children|
    ensures var k := LastContaining(t, target, |t.children|);
            WalkChildren(t, i, target, smallest) ==
            if k >= i then Some(Deepest(t.children[k], target)) else smallest
    decreases t, 0, |t.children| - i
  {
    if i < |t.children| {
      var c := t.children[i];
      var next := if c.Node? then Walk(c, target, smallest) else smallest;
      if c.Node? {
        WalkFindsDeepest(c, target, smallest);
      }
      WalkChildrenFindsDeepest(t, i + 1, target, next);
    }
  }

  /** `get_subtree_between_words(tree, target)` with the default (non-tree) accumulator:
      `None` when the whole tree does not contain the target; otherwise the node reached by
      repeatedly descending into the last child that still contains it. That node contains
      the target, lies in the tree, and none of its own tree children contains the target. */
  function SubtreeBetweenWords(tree: Tree, target: seq<string>): (r: Option<Tree>)
    requires tree.Node?
    ensures r.None? <==> !WordsInTree(tree, target)
    ensures r.Some? ==> r.value == Deepest(tree, target)
    ensures r.Some? ==> r.value.Node? && WordsInTree(r.value, target) && DescendantOrSelf(r.value, tree)
    ensures r.Some? ==> forall j :: 0 <= j < |r.value.children| ==> !NodeContains(r.value.children[j], target)
  {
    WalkFindsDeepest(tree, target, None);
    Walk(tree, target, None)
  }

  // ---------------------------------------------------------------------------
  // get_tree_labels

  /** `get_tree_labels`: the labels of the internal nodes in pre-order. */
  function TreeLabels(t: Tree): seq<string>
    requires t.Node?
    decreases t, 1, 0
  {
    [t.category] + LabelsFrom(t, 0)
  }

  function LabelsFrom(t: Tree, i: nat): seq<string>
    requires t.Node? && i <= |t.children|
    decreases t, 0, |t.children| - i
  {
    if i == |t.children| then []
    else
      var c := t.children[i];
      (if c.Node? then TreeLabels(c) else []) + LabelsFrom(t, i + 1)
  }

  /** Number of internal nodes of a tree; leaves count zero. */
  function NodeCount(t: Tree): nat
    decreases t
  {
    match t
    case Leaf(_) => 0
    case Node(_, cs) => 1 + SumCounts(cs)
  }

  function SumCounts(cs: seq<Tree>): nat
    decreases cs
  {
    if |cs| == 0 then 0 else NodeCount(cs[0]) + SumCounts(cs[1..])
  }

  lemma {:induction false} SumCountsFrom(t: Tree, i: nat)
    requires t.Node? && i <= |t.children|
    ensures |LabelsFrom(t, i)| == SumCounts(t.children[i..])
    decreases t, 0, |t.children| - i
  {
    if i < |t.children| {
      var c := t.children[i];
      if c.Node? {
        LabelsCountNodes(c);
      }
      SumCountsFrom(t, i + 1);
      assert t.children[i..][1..] == t.children[i + 1..];
    }
  }

  /** The label list starts with the root's category label and has one entry per internal node. */
  lemma {:induction false} LabelsCountNodes(t: Tree)
    requires t.Node?
    ensures |TreeLabels(t)| == NodeCount(t)
    ensures TreeLabels(t)[0] == t.category
    decreases t, 1, 0
  {
    SumCountsFrom(t, 0);
    assert t.children[0..] == t.children;
  }

  /** Every label in the list belongs to an internal node of the tree, and every internal
      node of the tree contributes its label. */
  lemma {:induction false} LabelsAreNodeLabels(t: Tree, l: string)
    requires t.Node?
    ensures l in TreeLabels(t) <==> exists s :: DescendantOrSelf(s, t) && s.Node? && s.category == l
    decreases t, 1, 0
  {
    LabelsFromAreNodeLabels(t, 0, l);
    if exists s :: DescendantOrSelf(s, t) && s.Node? && s.category == l {
      var s :| DescendantOrSelf(s, t) && s.Node? && s.category == l;
      if s != t {
        var j :| 0 <= j < |t.children| && DescendantOrSelf(s, t.children[j]);
        assert l in LabelsFrom(t, 0);
      }
    }
  }

  lemma {:induction false} LabelsFromAreNodeLabels(t: Tree, i: nat, l: string)
    requires t.Node? && i <= |t.children|
    ensures l in LabelsFrom(t, i) <==>
            exists j, s :: i <= j < |t.children| && DescendantOrSelf(s, t.children[j]) && s.Node? && s.category == l
    decreases t, 0, |t.children| - i
  {
    if i < |t.children| {
      var c := t.children[i];
      LabelsFromAreNodeLabels(t, i + 1, l);
      if c.Node? {
        LabelsAreNodeLabels(c, l);
      } else {
        forall s | DescendantOrSelf(s, c) ensures !s.Node? { }
      }
      if exists j, s :: i <= j < |t.children| && DescendantOrSelf(s, t.children[j]) && s.Node? && s.category == l {
        var j, s :| i <= j < |t.children| && DescendantOrSelf(s, t.children[j]) && s.Node? && s.category == l;
        if j == i {
          assert l in (if c.Node? then TreeLabels(c) else []);
        } else {
          assert l in LabelsFrom(t, i + 1);
        }
      }
    }
  }
}
