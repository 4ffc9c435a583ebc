/** What a forest is, that there is one for a list, and that flattening it and building again gives it back. */
module CategoryForest {
  import opened Text
  import opened Categories

  /** The items with this parent, in list order. */
  function ChildrenOf(list: seq<Item>, pid: int): seq<Item>
  {
    if list == [] then [] else (if list[0].pid == pid then [list[0]] else []) + ChildrenOf(list[1..], pid)
  }

  function Roots(trees: seq<Tree>): seq<Item>
  {
    if trees == [] then [] else [trees[0].item] + Roots(trees[1..])
  }

  /** Every node's children are the list's items with its id as their parent, in list order. */
  predicate IsForest(list: seq<Item>, pid: int, trees: seq<Tree>) { Roots(trees) == ChildrenOf(list, pid) && Subtrees(list, trees) }

  predicate Subtrees(list: seq<Item>, trees: seq<Tree>)
  {
    trees == [] || (Roots(trees[0].children) == ChildrenOf(list, trees[0].item.id) && Subtrees(list, trees[0].children) && Subtrees(list, trees[1..]))
  }

  lemma {:induction false} SiblingsAreForest(list: seq<Item>, rest: seq<Item>, path: seq<Item>)
    requires Good(list) && Chain(list, path) && (forall i :: 0 <= i < |rest| ==> rest[i] in list) && |rest| <= |list|
    ensures var t := Siblings(list, rest, path); Roots(t) == ChildrenOf(rest, Last(path)) && Subtrees(list, t)
    decreases |list| - |path|, |rest|
  {
    ChainsFit(list, path);
    if rest != [] {
      var x := rest[0];
      SiblingsAreForest(list, rest[1..], path);
      if x.pid == Last(path) {
        LongerChain(list, path, x);
        ChainsFit(list, path + [x]);
        SiblingsAreForest(list, list, path + [x]);
        var t, more := Node(x, MakeTrees(list, path + [x])), Siblings(list, rest[1..], path);
        assert ([t] + more)[1..] == more;
      }
    }
  }

  /** What is built is a forest: siblings keep the order of the list, at every level. */
  lemma BuiltIsForest(list: seq<Item>)
    requires Good(list)
    ensures IsForest(list, 0, MakeTrees(list, []))
  {
    SiblingsAreForest(list, list, []);
  }

  lemma {:induction false} SameRootsSameTrees(list: seq<Item>, a: seq<Tree>, b: seq<Tree>)
    requires Subtrees(list, a) && Subtrees(list, b) && Roots(a) == Roots(b)
    ensures a == b
    decreases a
  {
    if a == [] {
      assert b == [] by {
        assert b != [] ==> |Roots(b)| > 0;
      }
    } else {
      assert b != [] by {
        assert |Roots(a)| > 0;
      }
      assert Roots(a)[1..] == Roots(a[1..]) && Roots(b)[1..] == Roots(b[1..]);
      assert a[0].item == Roots(a)[0] == Roots(b)[0] == b[0].item;
      SameRootsSameTrees(list, a[0].children, b[0].children);
      SameRootsSameTrees(list, a[1..], b[1..]);
    }
  }

  /** A list has one forest. */
  lemma OneForest(list: seq<Item>, pid: int, a: seq<Tree>, b: seq<Tree>)
    requires IsForest(list, pid, a) && IsForest(list, pid, b)
    ensures a == b
  {
    SameRootsSameTrees(list, a, b);
  }

  // ---------------------------------------------------------------- what it holds

  /** The item's parents lead to a root. */
  ghost predicate Rooted(list: seq<Item>, x: Item) { exists c: seq<Item> :: Chain(list, c) && c != [] && c[|c| - 1] == x }

  /** The flattened forest holds the items whose parents lead to a root, each once, and nothing else. */
  lemma HoldsRootedOnce(list: seq<Item>, x: Item)
    requires Good(list)
    ensures multiset(Flatten(MakeTrees(list, [])))[x] == if Rooted(list, x) then 1 else 0
  {
    SiblingsHold(list, list, [], x);
    if Rooted(list, x) {
      var c: seq<Item> :| Chain(list, c) && c != [] && c[|c| - 1] == x;
      assert Link(list, c, 0);
      assert Extends(list, [], x, c) && c[0] in list;
      assert Below(list, list, [], x);
    } else {
      NothingBelow(list, x);
    }
  }

  lemma NothingBelow(list: seq<Item>, x: Item)
    requires !Rooted(list, x)
    ensures !Below(list, list, [], x)
  {
  }

  lemma FlatIsGood(list: seq<Item>)
    requires Good(list)
    ensures Good(Flatten(MakeTrees(list, [])))
  {
    var flat := Flatten(MakeTrees(list, []));
    forall x | x in flat ensures x in list {
      HoldsRootedOnce(list, x);
      RootedIsListed(list, x);
    }
    forall i, j | 0 <= i < j < |flat| ensures flat[i].id != flat[j].id {
      HoldsRootedOnce(list, flat[i]);
      TwiceInSequence(flat, i, j);
      assert flat[i] in list && flat[j] in list;
    }
    forall i | 0 <= i < |flat| ensures flat[i].id != 0 {
      assert flat[i] in list;
    }
  }

  lemma RootedIsListed(list: seq<Item>, x: Item)
    requires Rooted(list, x)
    ensures x in list
  {
    var c: seq<Item> :| Chain(list, c) && c != [] && c[|c| - 1] == x;
    assert Link(list, c, |c| - 1);
  }

  lemma TwiceInSequence(s: seq<Item>, i: nat, j: nat)
    requires i < j < |s|
    ensures s[i] == s[j] ==> multiset(s)[s[i]] >= 2
  {
    assert s == s[..i] + [s[i]] + s[i + 1..j] + [s[j]] + s[j + 1..];
  }

  // ---------------------------------------------------------------- flattening and building again

  lemma {:induction false} ChildrenOfSum(a: seq<Item>, b: seq<Item>, pid: int)
    ensures ChildrenOf(a + b, pid) == ChildrenOf(a, pid) + ChildrenOf(b, pid)
  {
    if a == [] {
      assert a + b == b;
    } else {
      var head := if a[0].pid == pid then [a[0]] else [];
      assert (a + b)[0] == a[0] && (a + b)[1..] == a[1..] + b;
      ChildrenOfSum(a[1..], b, pid);
      assert head + (ChildrenOf(a[1..], pid) + ChildrenOf(b, pid)) == head + ChildrenOf(a[1..], pid) + ChildrenOf(b, pid);
    }
  }

  function Ids(s: seq<Item>): multiset<int> { if s == [] then multiset{} else multiset{s[0].id} + Ids(s[1..]) }

  lemma {:induction false} IdsSum(a: seq<Item>, b: seq<Item>)
    ensures Ids(a + b) == Ids(a) + Ids(b)
  {
    if a == [] {
      assert a + b == b;
    } else {
      assert (a + b)[0] == a[0] && (a + b)[1..] == a[1..] + b;
      IdsSum(a[1..], b);
    }
  }

  ghost predicate DistinctIds(flat: seq<Item>) { forall id :: Ids(flat)[id] <= 1 }

  lemma {:induction false} GoodIds(s: seq<Item>)
    requires Good(s)
    ensures DistinctIds(s) && forall id :: id in Ids(s) <==> exists i :: 0 <= i < |s| && s[i].id == id
  {
    if s != [] {
      GoodIds(s[1..]);
      assert forall i :: 0 <= i < |s[1..]| ==> s[1..][i] == s[i + 1];
      forall id ensures id in Ids(s) <==> exists i :: 0 <= i < |s| && s[i].id == id {
        if exists i :: 0 <= i < |s| && s[i].id == id {
          var i :| 0 <= i < |s| && s[i].id == id;
          assert i > 0 ==> s[1..][i - 1].id == id;
        }
      }
    }
  }

  /** The ids of a forest are those of its first tree's root, of the trees under it, and of the other trees. */
  lemma ForestIds(trees: seq<Tree>)
    requires trees != []
    ensures Ids(Flatten(trees)) == multiset{trees[0].item.id} + Ids(Flatten(trees[0].children)) + Ids(Flatten(trees[1..]))
  {
    var x, a, b := trees[0].item, Flatten(trees[0].children), Flatten(trees[1..]);
    IdsSum([x] + a, b);
    IdsSum([x], a);
    assert [x][1..] == [] && Ids([x]) == multiset{x.id};
  }

  lemma DistinctForest(trees: seq<Tree>, p: int)
    requires trees != [] && DistinctIds(Flatten(trees))
    ensures
      var id, a, b := trees[0].item.id, Flatten(trees[0].children), Flatten(trees[1..]);
      && DistinctIds(a) && DistinctIds(b) && id !in Ids(a) && id !in Ids(b)
      && (p in Ids(a) ==> p !in Ids(b))
      && (p in Ids(Flatten(trees)) <==> p == id || p in Ids(a) || p in Ids(b))
  {
    hide Ids, Flatten;
    ForestIds(trees);
    var id, a, b := trees[0].item.id, Ids(Flatten(trees[0].children)), Ids(Flatten(trees[1..]));
    forall p ensures Ids(Flatten(trees))[p] == multiset{id}[p] + a[p] + b[p] {
    }
  }

  /** What the trees contribute to the children of p: their roots when p is the parent of these, and its own when p is below. */
  function Share(list: seq<Item>, q: int, trees: seq<Tree>, p: int): seq<Item>
  {
    (if p == q then Roots(trees) else []) + (if p in Ids(Flatten(trees)) then ChildrenOf(list, p) else [])
  }

  /** The share of a forest is made up of those of its parts, of which at most one is not empty. */
  lemma Shares(list: seq<Item>, q: int, trees: seq<Tree>, p: int)
    requires trees != [] && trees[0].item.pid == q && DistinctIds(Flatten(trees)) && q !in Ids(Flatten(trees))
    requires Roots(trees[0].children) == ChildrenOf(list, trees[0].item.id)
    ensures
      var t := trees[0];
      (if t.item.pid == p then [t.item] else []) + Share(list, t.item.id, t.children, p) + Share(list, q, trees[1..], p) == Share(list, q, trees, p)
  {
    hide ChildrenOf, Ids, Flatten, DistinctIds, Roots;
    DistinctForest(trees, p);
    DistinctForest(trees, q);
    FirstRoot(trees);
    var t, more := trees[0], trees[1..];
    var own := ChildrenOf(list, p);
    if p == q {
      assert Share(list, t.item.id, t.children, p) == [] && Share(list, q, more, p) == Roots(more);
    } else if p == t.item.id {
      assert Share(list, t.item.id, t.children, p) == own && Share(list, q, more, p) == [];
    } else if p in Ids(Flatten(t.children)) {
      assert Share(list, t.item.id, t.children, p) == own && Share(list, q, more, p) == [];
    } else {
      assert Share(list, t.item.id, t.children, p) == [];
    }
  }

  /** In a flattened forest an item's children are those it has in the list; nobody else's come between. */
  lemma {:induction false} FlatChildren(list: seq<Item>, q: int, trees: seq<Tree>, p: int)
    requires Subtrees(list, trees) && DistinctIds(Flatten(trees)) && q !in Ids(Flatten(trees))
    requires forall i :: 0 <= i < |Roots(trees)| ==> Roots(trees)[i].pid == q
    ensures ChildrenOf(Flatten(trees), p) == Share(list, q, trees, p)
    decreases trees
  {
    if trees == [] {
      NoForest(list, q, p);
    } else {
      hide ChildrenOf, Ids, Flatten, DistinctIds, Roots, Share, Subtrees;
      var t, more := trees[0], trees[1..];
      DistinctForest(trees, q);
      FirstRoot(trees);
      SubtreesUnfold(list, trees);
      assert Roots(trees)[0] == t.item;
      ChildrenHaveParent(list, t.item.id);
      FlatChildren(list, t.item.id, t.children, p);
      FlatChildren(list, q, more, p);
      FlatUnfold(trees, p);
      Shares(list, q, trees, p);
    }
  }

  lemma NoForest(list: seq<Item>, q: int, p: int)
    ensures ChildrenOf(Flatten([]), p) == Share(list, q, [], p)
  {
  }

  lemma SubtreesUnfold(list: seq<Item>, trees: seq<Tree>)
    requires trees != [] && Subtrees(list, trees)
    ensures Roots(trees[0].children) == ChildrenOf(list, trees[0].item.id) && Subtrees(list, trees[0].children) && Subtrees(list, trees[1..])
  {
  }

  lemma FirstRoot(trees: seq<Tree>)
    requires trees != []
    ensures Roots(trees) == [trees[0].item] + Roots(trees[1..])
    ensures forall i :: 0 <= i < |Roots(trees[1..])| ==> Roots(trees[1..])[i] == Roots(trees)[i + 1]
  {
  }

  lemma FlatUnfold(trees: seq<Tree>, p: int)
    requires trees != []
    ensures ChildrenOf(Flatten(trees), p) ==
            (if trees[0].item.pid == p then [trees[0].item] else []) + ChildrenOf(Flatten(trees[0].children), p) + ChildrenOf(Flatten(trees[1..]), p)
  {
    var x, a, b := trees[0].item, Flatten(trees[0].children), Flatten(trees[1..]);
    ChildrenOfSum([x] + a, b, p);
    ChildrenOfSum([x], a, p);
    assert [x][1..] == [] && ChildrenOf([x], p) == (if x.pid == p then [x] else []);
  }

  lemma {:induction false} ChildrenHaveParent(list: seq<Item>, p: int)
    ensures forall i :: 0 <= i < |ChildrenOf(list, p)| ==> ChildrenOf(list, p)[i].pid == p
  {
    if list != [] {
      ChildrenHaveParent(list[1..], p);
    }
  }

  /** Every node has the same children in both lists. */
  ghost predicate SameChildren(list: seq<Item>, flat: seq<Item>, trees: seq<Tree>)
  {
    forall id :: id in Ids(Flatten(trees)) ==> ChildrenOf(flat, id) == ChildrenOf(list, id)
  }

  lemma {:induction false} SubtreesOfFlat(list: seq<Item>, flat: seq<Item>, trees: seq<Tree>)
    requires Subtrees(list, trees) && SameChildren(list, flat, trees)
    ensures Subtrees(flat, trees)
    decreases trees
  {
    if trees != [] {
      ForestIds(trees);
      SubtreesOfFlat(list, flat, trees[0].children);
      SubtreesOfFlat(list, flat, trees[1..]);
    }
  }

  /** Building from the flattened forest gives the same forest. */
  lemma RebuildIsIdentity(list: seq<Item>)
    requires Good(list)
    ensures var trees := MakeTrees(list, []); Good(Flatten(trees)) && MakeTrees(Flatten(trees), []) == trees
  {
    hide MakeTrees;
    var trees := MakeTrees(list, []);
    var flat := Flatten(trees);
    FlatIsGood(list);
    GoodIds(flat);
    BuiltIsForest(list);
    ChildrenHaveParent(list, 0);
    forall id | id in Ids(flat) ensures ChildrenOf(flat, id) == ChildrenOf(list, id) {
      FlatChildren(list, 0, trees, id);
      assert [] + ChildrenOf(list, id) == ChildrenOf(list, id);
    }
    SubtreesOfFlat(list, flat, trees);
    FlatChildren(list, 0, trees, 0);
    assert Roots(trees) + [] == Roots(trees);
    BuiltIsForest(flat);
    OneForest(flat, 0, MakeTrees(flat, []), trees);
  }
}
