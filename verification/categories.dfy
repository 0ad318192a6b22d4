/** Category asset counts. The server sends a forest of categories in which
    each node counts only its own assets; before handing the tree to the
    client the daemon adds every child's count into its parent, bottom-up, so
    that each node counts its whole subtree. */
module Categories {

  /** The counts of a category tree as plain values: a node's `assetCount`
      and its `children`, in order. */
  datatype Tree = Node(count: int, children: seq<Tree>)

  /** The sum of the counts of `ts`, added left to right. */
  function SumCounts(ts: seq<Tree>): int
    decreases |ts|
  {
    if ts == [] then 0 else SumCounts(ts[..|ts| - 1]) + ts[|ts| - 1].count
  }

  /** The sum of every original count in the subtree of `t`. */
  function Total(t: Tree): int
    decreases t, 1
  {
    t.count + TotalAll(t.children, |t.children|)
  }

  /** The subtree totals of the first `n` trees of `ts`, summed. */
  function TotalAll(ts: seq<Tree>, n: nat): int
    requires n <= |ts|
    decreases ts, 0, n
  {
    if n == 0 then 0 else TotalAll(ts, n - 1) + Total(ts[n - 1])
  }

  /** The tree the bottom-up pass leaves behind: every child aggregated first,
      then their new counts added into the parent. */
  function Aggregate(t: Tree): Tree
    decreases t
  {
    var ch := seq(|t.children|, k requires 0 <= k < |t.children| => Aggregate(t.children[k]));
    Node(t.count + SumCounts(ch), ch)
  }

  /** One node of the aggregated tree, in terms of its aggregated children. */
  lemma AggregateNode(t: Tree)
    ensures |Aggregate(t).children| == |t.children|
    ensures forall k :: 0 <= k < |t.children| ==> Aggregate(t).children[k] == Aggregate(t.children[k])
    ensures Aggregate(t).count == t.count + SumCounts(Aggregate(t).children)
  {
  }

  /** `agg` follows the rule of the pass at every node: same shape as `orig`,
      and each count is the original count plus the new counts of the children. */
  ghost predicate Consistent(orig: Tree, agg: Tree)
    decreases orig
  {
    && |agg.children| == |orig.children|
    && agg.count == orig.count + SumCounts(agg.children)
    && forall k :: 0 <= k < |orig.children| ==> Consistent(orig.children[k], agg.children[k])
  }

  /** `agg` has the shape of `orig`, and every node of `agg` holds the sum of
      the original counts of its subtree. */
  ghost predicate HoldsTotals(orig: Tree, agg: Tree)
    decreases orig
  {
    && |agg.children| == |orig.children|
    && agg.count == Total(orig)
    && forall k :: 0 <= k < |orig.children| ==> HoldsTotals(orig.children[k], agg.children[k])
  }

  /** The aggregated tree keeps the shape of the original and follows the
      parent-plus-children rule at every node. */
  lemma {:induction false} AggregateConsistent(t: Tree)
    ensures Consistent(t, Aggregate(t))
    decreases t
  {
    var a := Aggregate(t);
    forall k | 0 <= k < |t.children|
      ensures Consistent(t.children[k], a.children[k])
    {
      AggregateConsistent(t.children[k]);
    }
  }

  /** The rule pins the result down: the only tree that follows it at every
      node is the aggregated one. */
  lemma {:induction false} ConsistentUnique(orig: Tree, agg: Tree)
    requires Consistent(orig, agg)
    ensures agg == Aggregate(orig)
    decreases orig
  {
    var a := Aggregate(orig);
    forall k | 0 <= k < |orig.children|
      ensures agg.children[k] == a.children[k]
    {
      ConsistentUnique(orig.children[k], agg.children[k]);
    }
    assert agg.children == a.children;
  }

  /** Summing aggregated counts is summing subtree totals. */
  lemma {:induction false} SumOfTotals(orig: seq<Tree>, agg: seq<Tree>, n: nat)
    requires n <= |orig| == |agg|
    requires forall k :: 0 <= k < |orig| ==> agg[k].count == Total(orig[k])
    ensures SumCounts(agg[..n]) == TotalAll(orig, n)
    decreases n
  {
    if n > 0 {
      SumOfTotals(orig, agg, n - 1);
      assert agg[..n][..n - 1] == agg[..n - 1];
    }
  }

  /** Every node of the aggregated tree counts all original assets of its subtree. */
  lemma {:induction false} AggregateHoldsTotals(t: Tree)
    ensures HoldsTotals(t, Aggregate(t))
    decreases t
  {
    var a := Aggregate(t);
    forall k | 0 <= k < |t.children|
      ensures HoldsTotals(t.children[k], a.children[k]) && a.children[k].count == Total(t.children[k])
    {
      AggregateHoldsTotals(t.children[k]);
    }
    SumOfTotals(t.children, a.children, |t.children|);
    assert a.children[..|t.children|] == a.children;
  }

  /** In particular the root ends up with the sum of all counts of its tree. */
  lemma AggregateRootTotal(t: Tree)
    ensures Aggregate(t).count == Total(t)
  {
    AggregateHoldsTotals(t);
  }

  /** The pass is not idempotent: a second run counts the children twice. */
  lemma TwiceCountsTwice()
    ensures var t := Node(1, [Node(2, [])]);
      Aggregate(t) == Node(3, [Node(2, [])]) && Aggregate(Aggregate(t)) == Node(5, [Node(2, [])])
  {
    var t := Node(1, [Node(2, [])]);
    assert Aggregate(Node(2, [])) == Node(2, []);
    assert Aggregate(t).children == [Node(2, [])];
    assert Aggregate(Node(3, [Node(2, [])])).children == [Node(2, [])];
  }

  /** A category node of the fetched JSON. Only `assetCount` is ever written;
      the children list, its order and the node's other keys are fixed. */
  class Category {
    var assetCount: int
    const children: seq<Category>
    /** This node and every node below it. */
    ghost const Repr: set<object>

    /** The nodes form a tree: each child's subtree lies inside this one's,
        does not contain this node, and is disjoint from its siblings'. */
    ghost predicate Valid()
      decreases Repr
    {
      && this in Repr
      && (forall k :: 0 <= k < |children| ==>
            children[k] in Repr && children[k].Repr <= Repr && this !in children[k].Repr)
      && (forall j, k :: 0 <= j < k < |children| ==> children[j].Repr !! children[k].Repr)
      && (forall k :: 0 <= k < |children| ==> children[k].Valid())
    }

    /** The counts below this node as a value. */
    ghost function Model(): Tree
      requires Valid()
      reads Repr
      decreases Repr, 1
    {
      Node(assetCount, ChildModels(|children|))
    }

    /** The models of the first `n` children. */
    ghost function ChildModels(n: nat): (ms: seq<Tree>)
      requires Valid() && n <= |children|
      reads Repr
      ensures |ms| == n
      ensures forall k :: 0 <= k < n ==> ms[k] == children[k].Model()
      decreases Repr, 0, n
    {
      if n == 0 then [] else ChildModels(n - 1) + [children[n - 1].Model()]
    }

    /** A node with the given count above the given subtrees. */
    constructor (count: int, children: seq<Category>)
      requires forall k :: 0 <= k < |children| ==> children[k].Valid()
      requires forall j, k :: 0 <= j < k < |children| ==> children[j].Repr !! children[k].Repr
      ensures Valid() && this.children == children
      ensures Repr == {this} + Footprint(children)
      ensures Model().count == count && |Model().children| == |children|
      ensures forall k :: 0 <= k < |children| ==> Model().children[k] == children[k].Model()
    {
      assetCount := count;
      this.children := children;
      Repr := {this} + Footprint(children);
      new;
      assert forall k :: 0 <= k < |children| ==> children[k] in children[k].Repr;
    }

    /** The state of `count_to_parent` after its first `i` children: those
        hold their aggregated models `after`, the rest their models `before`,
        and this node has added the first `i` new counts to its own. */
    ghost predicate CountedUpTo(i: nat, before: Tree, after: seq<Tree>)
      requires Valid()
      reads Repr
    {
      && i <= |children| == |after| == |before.children|
      && assetCount == before.count + SumCounts(after[..i])
      && (forall k :: 0 <= k < i ==> children[k].Model() == after[k])
      && (forall k :: i <= k < |children| ==> children[k].Model() == before.children[k])
    }

    /** `count_to_parent(parent)`: each child is aggregated in turn, then its
        new count is added into this node. */
    method CountToParent()
      requires Valid()
      modifies Repr
      ensures Model() == Aggregate(old(Model()))
      ensures HoldsTotals(old(Model()), Model())
      decreases Repr
    {
      ghost var before := Model();
      AggregateNode(before);
      ghost var after := Aggregate(before).children;
      var i := 0;
      while i < |children|
        invariant CountedUpTo(i, before, after)
      {
        ChildStep(i, before, after);
        i := i + 1;
      }
      CountedAll(before, after);
      AggregateHoldsTotals(before);
    }

    /** One iteration of the loop of `CountToParent`: aggregate child `i`, add
        its new count into this node; the other children are not touched. */
    method ChildStep(i: nat, ghost before: Tree, ghost after: seq<Tree>)
      requires Valid() && i < |children|
      requires CountedUpTo(i, before, after)
      requires forall k :: 0 <= k < |after| ==> after[k] == Aggregate(before.children[k])
      modifies Repr
      ensures CountedUpTo(i + 1, before, after)
      decreases Repr, 0
    {
      var child := children[i];
      child.CountToParent();
      label Counted:
      assetCount := assetCount + child.assetCount;
      ModelUnchanged@Counted(child);
      forall k | 0 <= k < |children| && k != i
        ensures children[k].Model() == old(children[k].Model())
      {
        assert children[k].Repr !! child.Repr;
        ModelUnchanged(children[k]);
      }
      assert after[..i + 1][..i] == after[..i];
    }

    /** Once every child is done, the node's model is the original count plus
        the new counts, above the aggregated children. */
    lemma CountedAll(before: Tree, after: seq<Tree>)
      requires Valid() && CountedUpTo(|children|, before, after)
      ensures Model() == Node(before.count + SumCounts(after), after)
    {
      assert after[..|children|] == after;
      assert ChildModels(|children|) == after;
    }
  }

  /** Every node of the given trees. */
  ghost function Footprint(cs: seq<Category>): (fp: set<object>)
    ensures forall k :: 0 <= k < |cs| ==> cs[k].Repr <= fp
    decreases |cs|
  {
    if cs == [] then {} else Footprint(cs[..|cs| - 1]) + cs[|cs| - 1].Repr
  }

  /** The models of the given trees, in order. */
  ghost function Models(cs: seq<Category>): (ms: seq<Tree>)
    requires forall k :: 0 <= k < |cs| ==> cs[k].Valid()
    reads Footprint(cs)
    ensures |ms| == |cs|
    ensures forall k :: 0 <= k < |cs| ==> ms[k] == cs[k].Model()
    decreases |cs|
  {
    if cs == [] then [] else Models(cs[..|cs| - 1]) + [cs[|cs| - 1].Model()]
  }

  /** The state of `fix_category_counts` after its first `i` roots: those
      hold their aggregated trees, the others are as they were. */
  ghost predicate FixedUpTo(cs: seq<Category>, i: nat, before: seq<Tree>)
    requires forall k :: 0 <= k < |cs| ==> cs[k].Valid()
    reads Footprint(cs)
  {
    && i <= |cs| == |before|
    && (forall k :: 0 <= k < i ==> cs[k].Model() == Aggregate(before[k]))
    && (forall k :: i <= k < |cs| ==> cs[k].Model() == before[k])
  }

  /** `fix_category_counts(categories)`: every root tree is aggregated on its
      own; nothing outside the trees changes, and an empty list is left as is. */
  method FixCategoryCounts(categories: seq<Category>)
    requires forall k :: 0 <= k < |categories| ==> categories[k].Valid()
    requires forall j, k :: 0 <= j < k < |categories| ==> categories[j].Repr !! categories[k].Repr
    modifies Footprint(categories)
    ensures forall k :: 0 <= k < |categories| ==> categories[k].Model() == Aggregate(old(categories[k].Model()))
    ensures forall k :: 0 <= k < |categories| ==> HoldsTotals(old(categories[k].Model()), categories[k].Model())
  {
    ghost var before := Models(categories);
    var i := 0;
    while i < |categories|
      invariant FixedUpTo(categories, i, before)
    {
      FixRoot(categories, i, before);
      i := i + 1;
    }
    forall k | 0 <= k < |categories|
      ensures HoldsTotals(before[k], categories[k].Model())
    {
      AggregateHoldsTotals(before[k]);
    }
  }

  /** One iteration of the loop of `FixCategoryCounts`: root `i` is aggregated,
      the other roots are not touched. */
  method FixRoot(cs: seq<Category>, i: nat, ghost before: seq<Tree>)
    requires forall k :: 0 <= k < |cs| ==> cs[k].Valid()
    requires forall j, k :: 0 <= j < k < |cs| ==> cs[j].Repr !! cs[k].Repr
    requires i < |cs| && FixedUpTo(cs, i, before)
    modifies Footprint(cs)
    ensures FixedUpTo(cs, i + 1, before)
  {
    cs[i].CountToParent();
    forall k | 0 <= k < |cs| && k != i
      ensures cs[k].Model() == old(cs[k].Model())
    {
      assert cs[k].Repr !! cs[i].Repr;
      ModelUnchanged(cs[k]);
    }
  }

  /** A node's model depends only on the nodes of its subtree. */
  twostate lemma ModelUnchanged(c: Category)
    requires c.Valid() && unchanged(c.Repr)
    ensures c.Model() == old(c.Model())
  {
  }
}
