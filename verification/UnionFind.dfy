/** _UnionFind: disjoint sets with path compression, where every root is the smallest id of its class. */
module UnionFind {
  import opened Common

  type Pairs = set<(Id, Id)>

  // ----- connectivity, independently of any parent table -----

  /** No pair leaves or enters s. */
  predicate Closed(pairs: Pairs, s: set<Id>) {
    forall e :: e in pairs ==> (e.0 in s <==> e.1 in s)
  }

  /** b belongs to every closed set that a belongs to. */
  ghost predicate Connected(pairs: Pairs, a: Id, b: Id) {
    forall s: set<Id> {:trigger Closed(pairs, s)} :: Closed(pairs, s) && a in s ==> b in s
  }

  lemma PairConnected(pairs: Pairs, a: Id, b: Id)
    requires (a, b) in pairs || (b, a) in pairs
    ensures Connected(pairs, a, b)
  {
    forall s: set<Id> | Closed(pairs, s) && a in s ensures b in s {
      if (a, b) in pairs {
        assert ((a, b)).0 in s <==> ((a, b)).1 in s;
      } else {
        assert ((b, a)).0 in s <==> ((b, a)).1 in s;
      }
    }
  }

  lemma ConnectedSymmetric(pairs: Pairs, a: Id, b: Id)
    requires Connected(pairs, a, b)
    ensures Connected(pairs, b, a)
  {
    forall s: set<Id> | Closed(pairs, s) && b in s ensures a in s {
      var ids := (set e | e in pairs :: e.0) + (set e | e in pairs :: e.1) + {a};
      var rest := ids - s;
      assert Closed(pairs, rest);
    }
  }

  // ----- parent tables -----

  /** One node's parent and root fit together: parents are nodes and, except at a root, smaller than their
      child; a node has its parent's root; a root is its own parent. */
  predicate NodeFits(parent: map<Id, Id>, roots: map<Id, Id>, v: Id)
    requires v in parent && parent.Keys == roots.Keys
  {
    && parent[v] in parent && parent[v] <= v
    && roots[v] in parent && roots[v] <= v
    && roots[parent[v]] == roots[v]
    && roots[roots[v]] == roots[v] && parent[roots[v]] == roots[v]
    && (parent[v] == v ==> roots[v] == v)
  }

  /** `roots` gives the root that following parents from each node leads to. */
  ghost predicate HasRoots(parent: map<Id, Id>, roots: map<Id, Id>) {
    && parent.Keys == roots.Keys
    && forall v {:trigger NodeFits(parent, roots, v)} :: v in parent ==> NodeFits(parent, roots, v)
  }

  /** Following parents ends: a table has only one assignment of roots. */
  lemma {:induction false} RootsUnique(parent: map<Id, Id>, roots: map<Id, Id>, others: map<Id, Id>, v: Id)
    requires HasRoots(parent, roots) && HasRoots(parent, others) && v in parent
    ensures roots[v] == others[v]
    decreases v
  {
    assert NodeFits(parent, roots, v) && NodeFits(parent, others, v);
    if parent[v] != v {
      RootsUnique(parent, roots, others, parent[v]);
    }
  }

  // ----- tables that represent connectivity -----

  /** Two nodes have the same root exactly when the pairs connect them. */
  ghost predicate Partitions(roots: map<Id, Id>, pairs: Pairs) {
    && (forall e :: e in pairs ==> e.0 in roots && e.1 in roots)
    && forall a, b {:trigger SameClass(roots, pairs, a, b)} :: a in roots && b in roots ==>
         SameClass(roots, pairs, a, b)
  }

  ghost predicate SameClass(roots: map<Id, Id>, pairs: Pairs, a: Id, b: Id)
    requires a in roots && b in roots
  {
    roots[a] == roots[b] <==> Connected(pairs, a, b)
  }

  /** What a structure holding this parent table, these roots and these pairs stands for. */
  ghost predicate Represents(parent: map<Id, Id>, roots: map<Id, Id>, pairs: Pairs) {
    HasRoots(parent, roots) && Partitions(roots, pairs)
  }

  /** The root is the smallest id of the component. */
  lemma RootIsLeast(parent: map<Id, Id>, roots: map<Id, Id>, pairs: Pairs, v: Id, w: Id)
    requires Represents(parent, roots, pairs) && v in parent && w in parent
    ensures roots[v] in parent && Connected(pairs, v, roots[v])
    ensures Connected(pairs, v, w) ==> roots[v] <= w
  {
    assert NodeFits(parent, roots, v) && NodeFits(parent, roots, w);
    assert SameClass(roots, pairs, v, roots[v]);
    assert SameClass(roots, pairs, v, w);
  }

  /** The same pairs up to orientation. */
  predicate SamePairs(pairs: Pairs, others: Pairs) {
    && (forall e :: e in pairs ==> e in others || (e.1, e.0) in others)
    && (forall e :: e in others ==> e in pairs || (e.1, e.0) in pairs)
  }

  /** Whatever order, repetition or orientation the same connections arrived in, and whatever paths were
      compressed on the way, every node ends with the same root. */
  lemma RootsAgree(parent: map<Id, Id>, roots: map<Id, Id>, pairs: Pairs,
                   otherParent: map<Id, Id>, otherRoots: map<Id, Id>, otherPairs: Pairs)
    requires Represents(parent, roots, pairs) && Represents(otherParent, otherRoots, otherPairs)
    requires parent.Keys == otherParent.Keys && SamePairs(pairs, otherPairs)
    ensures roots == otherRoots
  {
    forall v | v in roots ensures roots[v] == otherRoots[v] {
      assert NodeFits(parent, roots, v) && NodeFits(otherParent, otherRoots, v);
      RootIsLeast(parent, roots, pairs, v, v);
      RootIsLeast(otherParent, otherRoots, otherPairs, v, v);
      ConnectionsAgree(pairs, otherPairs, v, roots[v]);
      ConnectionsAgree(pairs, otherPairs, v, otherRoots[v]);
      RootIsLeast(parent, roots, pairs, v, otherRoots[v]);
      RootIsLeast(otherParent, otherRoots, otherPairs, v, roots[v]);
    }
  }

  lemma ConnectionsAgree(pairs: Pairs, others: Pairs, a: Id, b: Id)
    requires SamePairs(pairs, others)
    ensures Connected(pairs, a, b) <==> Connected(others, a, b)
  {
    if Connected(pairs, a, b) {
      ConnectionsCarry(pairs, others, a, b);
    }
    if Connected(others, a, b) {
      ConnectionsCarry(others, pairs, a, b);
    }
  }

  lemma ConnectionsCarry(pairs: Pairs, others: Pairs, a: Id, b: Id)
    requires SamePairs(pairs, others) && Connected(pairs, a, b)
    ensures Connected(others, a, b)
  {
    forall s: set<Id> | Closed(others, s) && a in s ensures b in s {
      ClosedAgree(pairs, others, s);
    }
  }

  lemma ClosedAgree(pairs: Pairs, others: Pairs, s: set<Id>)
    requires SamePairs(pairs, others) && Closed(others, s)
    ensures Closed(pairs, s)
  {
    forall e | e in pairs ensures e.0 in s <==> e.1 in s {
      if e !in others {
        assert (e.1, e.0) in others;
      }
    }
  }

  lemma FreshPartition(values: set<Id>)
    ensures var same := map v | v in values :: v; Represents(same, same, {})
  {
    var same := map v | v in values :: v;
    forall a, b {:trigger SameClass(same, {}, a, b)} | a in same && b in same ensures SameClass(same, {}, a, b) {
      assert Closed({}, {a});
    }
  }

  // ----- merging two classes -----

  /** The roots after the classes of l and r are merged under the smaller root. */
  function Merged(roots: map<Id, Id>, l: Id, r: Id): map<Id, Id>
    requires l in roots && r in roots
  {
    var low := if roots[l] < roots[r] then roots[l] else roots[r];
    var high := if roots[l] < roots[r] then roots[r] else roots[l];
    map w | w in roots :: if roots[w] == high then low else roots[w]
  }

  lemma MergedPartition(roots: map<Id, Id>, pairs: Pairs, l: Id, r: Id)
    requires Partitions(roots, pairs) && l in roots && r in roots
    ensures Partitions(Merged(roots, l, r), pairs + {(l, r)})
  {
    var next, more := Merged(roots, l, r), pairs + {(l, r)};
    forall a, b {:trigger SameClass(next, more, a, b)} | a in next && b in next ensures SameClass(next, more, a, b) {
      if next[a] == next[b] {
        MergeConnects(roots, pairs, l, r, a, b);
      } else {
        MergeSeparates(roots, pairs, l, r, a, b);
      }
    }
  }

  lemma MergeConnects(roots: map<Id, Id>, pairs: Pairs, l: Id, r: Id, a: Id, b: Id)
    requires Partitions(roots, pairs) && l in roots && r in roots && a in roots && b in roots
    requires Merged(roots, l, r)[a] == Merged(roots, l, r)[b]
    ensures Connected(pairs + {(l, r)}, a, b)
  {
    var more := pairs + {(l, r)};
    forall s: set<Id> | Closed(more, s) && a in s ensures b in s {
      assert Closed(pairs, s);
      assert (l, r) in more;
      assert ((l, r)).0 in s <==> ((l, r)).1 in s;
      Carries(roots, pairs, a, l, s);
      Carries(roots, pairs, a, r, s);
      Carries(roots, pairs, a, b, s);
      Carries(roots, pairs, l, b, s);
      Carries(roots, pairs, r, b, s);
    }
  }

  lemma Carries(roots: map<Id, Id>, pairs: Pairs, a: Id, b: Id, s: set<Id>)
    requires Partitions(roots, pairs) && a in roots && b in roots && Closed(pairs, s)
    ensures roots[a] == roots[b] && a in s ==> b in s
  {
    assert SameClass(roots, pairs, a, b);
  }

  lemma MergeSeparates(roots: map<Id, Id>, pairs: Pairs, l: Id, r: Id, a: Id, b: Id)
    requires Partitions(roots, pairs) && l in roots && r in roots && a in roots && b in roots
    requires Merged(roots, l, r)[a] != Merged(roots, l, r)[b]
    ensures !Connected(pairs + {(l, r)}, a, b)
  {
    var next, more := Merged(roots, l, r), pairs + {(l, r)};
    var s := set w | w in next && next[w] == next[a];
    forall e | e in more ensures e.0 in s <==> e.1 in s {
      if e in pairs {
        PairConnected(pairs, e.0, e.1);
        assert SameClass(roots, pairs, e.0, e.1);
      }
    }
    assert Closed(more, s) && a in s && b !in s;
  }

  /** Linking the greater root below the smaller one gives the merged roots. */
  lemma LinkMerges(parent: map<Id, Id>, roots: map<Id, Id>, l: Id, r: Id, low: Id, high: Id)
    requires HasRoots(parent, roots) && l in parent && r in parent && low < high
    requires (low == roots[l] && high == roots[r]) || (low == roots[r] && high == roots[l])
    ensures HasRoots(parent[high := low], Merged(roots, l, r))
  {
    var linked, next := parent[high := low], Merged(roots, l, r);
    assert NodeFits(parent, roots, l) && NodeFits(parent, roots, r);
    assert NodeFits(parent, roots, low) && NodeFits(parent, roots, high);
    forall v {:trigger NodeFits(linked, next, v)} | v in linked ensures NodeFits(linked, next, v) {
      assert NodeFits(parent, roots, v);
    }
  }

  lemma SameClassMerges(roots: map<Id, Id>, l: Id, r: Id)
    requires l in roots && r in roots && roots[l] == roots[r]
    ensures Merged(roots, l, r) == roots
  {
  }

  lemma Compressed(parent: map<Id, Id>, roots: map<Id, Id>, v: Id)
    requires HasRoots(parent, roots) && v in parent
    ensures HasRoots(parent[v := roots[v]], roots)
  {
    var next := parent[v := roots[v]];
    assert NodeFits(parent, roots, v);
    forall w {:trigger NodeFits(next, roots, w)} | w in next ensures NodeFits(next, roots, w) {
      assert NodeFits(parent, roots, w);
    }
  }

  class UnionFind {
    var parent: map<Id, Id>
    ghost var roots: map<Id, Id>
    ghost var pairs: Pairs

    ghost predicate Valid()
      reads this
    {
      Represents(parent, roots, pairs)
    }

    constructor (values: set<Id>)
      ensures Valid() && parent.Keys == values && pairs == {}
    {
      parent := map v | v in values :: v;
      roots := map v | v in values :: v;
      pairs := {};
      new;
      FreshPartition(values);
    }

    /** The representative of v, compressing the path to it: parents change, roots do not. */
    method Find(v: Id) returns (root: Id)
      requires Valid() && v in parent
      modifies this`parent
      ensures Valid() && parent.Keys == old(parent.Keys)
      ensures root == roots[v]
      decreases v
    {
      assert NodeFits(parent, roots, v);
      var next := parent[v];
      if next != v {
        var found := Find(next);
        Compressed(parent, roots, v);
        parent := parent[v := found];
      }
      root := parent[v];
    }

    method Union(left: Id, right: Id)
      requires Valid() && left in parent && right in parent
      modifies this
      ensures Valid() && parent.Keys == old(parent.Keys)
      ensures pairs == old(pairs) + {(left, right)}
    {
      var leftRoot := Find(left);
      var rightRoot := Find(right);
      if leftRoot != rightRoot {
        var low := if leftRoot < rightRoot then leftRoot else rightRoot;
        var high := if leftRoot < rightRoot then rightRoot else leftRoot;
        LinkMerges(parent, roots, left, right, low, high);
        parent := parent[high := low];
      } else {
        SameClassMerges(roots, left, right);
      }
      MergedPartition(roots, pairs, left, right);
      roots, pairs := Merged(roots, left, right), pairs + {(left, right)};
    }
  }
}
