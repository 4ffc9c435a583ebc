/**
 Category forests: a list of items with parent ids becomes trees, and trees become a list again. A chain
 is a way down from a root; it is what bounds the recursion, whatever cycles the rest of the list has.
 */
module Categories {
  import opened Text

  datatype Item = Item(id: int, pid: int, name: string)

  datatype Tree = Node(item: Item, children: seq<Tree>)

  /** Ids are not zero, and no two items have the same. */
  predicate Good(list: seq<Item>)
  {
    && (forall i :: 0 <= i < |list| ==> list[i].id != 0)
    && (forall i, j :: 0 <= i < j < |list| ==> list[i].id != list[j].id)
  }

  // ---------------------------------------------------------------- chains

  /** The item before this one in a chain has to be its parent; the first has parent 0. */
  predicate Link(list: seq<Item>, path: seq<Item>, k: nat)
    requires k < |path|
  {
    path[k] in list && path[k].pid == if k == 0 then 0 else path[k - 1].id
  }

  /** A way down from a root, item by item. */
  predicate Chain(list: seq<Item>, path: seq<Item>) { forall k :: 0 <= k < |path| ==> Link(list, path, k) }

  /** The id that the next item of a chain has as its parent. */
  function Last(path: seq<Item>): int { if path == [] then 0 else path[|path| - 1].id }

  lemma SameId(list: seq<Item>, x: Item, y: Item)
    requires Good(list) && x in list && y in list && x.id == y.id
    ensures x == y
  {
  }

  /** Only the empty chain has the last id 0. */
  lemma LastIsListed(list: seq<Item>, p: seq<Item>)
    requires Good(list) && Chain(list, p)
    ensures p == [] <==> Last(p) == 0
  {
    if p != [] {
      assert Link(list, p, |p| - 1);
    }
  }

  /** Chains that end in the same place are the same. */
  lemma {:induction false} OneChain(list: seq<Item>, p: seq<Item>, q: seq<Item>)
    requires Good(list) && Chain(list, p) && Chain(list, q) && Last(p) == Last(q)
    ensures p == q
    decreases |p|
  {
    LastIsListed(list, p);
    LastIsListed(list, q);
    if p != [] && q != [] {
      var m, n := |p| - 1, |q| - 1;
      assert Link(list, p, m) && Link(list, q, n);
      SameId(list, p[m], q[n]);
      ShorterChain(list, p, m);
      ShorterChain(list, q, n);
      OneChain(list, p[..m], q[..n]);
      assert p == p[..m] + [p[m]] && q == q[..n] + [q[n]];
    }
  }

  lemma ShorterChain(list: seq<Item>, p: seq<Item>, n: nat)
    requires Chain(list, p) && n <= |p|
    ensures Chain(list, p[..n]) && Last(p[..n]) == if n == 0 then 0 else p[n - 1].id
  {
    forall k | 0 <= k < n ensures Link(list, p[..n], k) {
      assert Link(list, p, k);
    }
  }

  lemma LongerChain(list: seq<Item>, p: seq<Item>, x: Item)
    requires Chain(list, p) && x in list && x.pid == Last(p)
    ensures Chain(list, p + [x]) && Last(p + [x]) == x.id
  {
    forall k | 0 <= k < |p + [x]| ensures Link(list, p + [x], k) {
      if k < |p| {
        assert Link(list, p, k);
      }
    }
  }

  /** A chain does not come back to an item: it would be two chains to the same place. */
  lemma ChainsAreDistinct(list: seq<Item>, p: seq<Item>, i: nat, j: nat)
    requires Good(list) && Chain(list, p) && i < j < |p|
    ensures p[i] != p[j]
  {
    ShorterChain(list, p, i + 1);
    ShorterChain(list, p, j + 1);
    if Last(p[..i + 1]) == Last(p[..j + 1]) {
      OneChain(list, p[..i + 1], p[..j + 1]);
    }
  }

  lemma {:induction false} DistinctFit(list: seq<Item>, p: seq<Item>)
    requires forall k :: 0 <= k < |p| ==> p[k] in list
    requires forall i, j :: 0 <= i < j < |p| ==> p[i] != p[j]
    ensures |p| <= |list|
  {
    if p != [] {
      var x := p[|p| - 1];
      var i :| 0 <= i < |list| && list[i] == x;
      var rest := list[..i] + list[i + 1..];
      forall k | 0 <= k < |p| - 1 ensures p[k] in rest {
        var j :| 0 <= j < |list| && list[j] == p[k];
        assert p[k] != x;
        assert rest[if j < i then j else j - 1] == p[k];
      }
      DistinctFit(rest, p[..|p| - 1]);
    }
  }

  lemma ChainsFit(list: seq<Item>, p: seq<Item>)
    requires Good(list) && Chain(list, p)
    ensures |p| <= |list|
  {
    forall i, j | 0 <= i < j < |p| ensures p[i] != p[j] {
      ChainsAreDistinct(list, p, i, j);
    }
    forall k | 0 <= k < |p| ensures p[k] in list {
      assert Link(list, p, k);
    }
    DistinctFit(list, p);
  }

  // ---------------------------------------------------------------- building

  ghost predicate Bounded(list: seq<Item>, n: nat) { forall path: seq<Item> :: Chain(list, path) ==> |path| <= n }

  /** There is a bound for the chains, as there is when ids are distinct. */
  ghost predicate Finite(list: seq<Item>) { Good(list) || exists n: nat :: Bounded(list, n) }

  /** How long chains can be. */
  ghost function Height(list: seq<Item>): nat
    requires Finite(list)
  {
    if Good(list) then |list| else var n: nat :| Bounded(list, n); n
  }

  lemma ChainsEnd(list: seq<Item>, path: seq<Item>)
    requires Finite(list) && Chain(list, path)
    ensures |path| <= Height(list)
  {
    if Good(list) {
      ChainsFit(list, path);
    }
  }

  /** A chain that comes back to an item can go round again and again. */
  lemma {:induction false} GoRound(list: seq<Item>, p: seq<Item>, i: nat, j: nat, n: nat) returns (q: seq<Item>)
    requires Chain(list, p) && i < j < |p| && p[i] == p[j]
    ensures Chain(list, q) && |q| > n && q[|q| - 1] == p[j]
  {
    if n == 0 {
      ShorterChain(list, p, j + 1);
      q := p[..j + 1];
    } else {
      var r := GoRound(list, p, i, j, n - 1);
      q := r + p[i + 1..j + 1];
      forall k | 0 <= k < |q| ensures Link(list, q, k) {
        if k < |r| {
          assert Link(list, r, k);
        } else {
          assert Link(list, p, i + 1 + k - |r|);
        }
      }
    }
  }

  ghost predicate NoReturn(list: seq<Item>)
  {
    forall p: seq<Item>, i: nat, j: nat :: Chain(list, p) && i < j < |p| ==> p[i] != p[j]
  }

  /** Building ends if and only if no way down from a root comes back to an item. */
  lemma BuildingEnds(list: seq<Item>)
    ensures Finite(list) <==> NoReturn(list)
  {
    if Finite(list) {
      forall p: seq<Item>, i: nat, j: nat | Chain(list, p) && i < j < |p| ensures p[i] != p[j] {
        if p[i] == p[j] {
          var q := GoRound(list, p, i, j, Height(list));
          ChainsEnd(list, q);
        }
      }
    }
    if NoReturn(list) {
      forall p: seq<Item> | Chain(list, p) ensures |p| <= |list| {
        forall k | 0 <= k < |p| ensures p[k] in list {
          assert Link(list, p, k);
        }
        DistinctFit(list, p);
      }
      assert Bounded(list, |list|);
    }
  }

  /** The children of the last item of a chain; the chain grows with every level and fits into the list. */
  ghost function MakeTrees(list: seq<Item>, path: seq<Item>): seq<Tree>
    requires Finite(list) && Chain(list, path)
    decreases Height(list) - |path|, |list| + 1
  {
    ChainsEnd(list, path);
    Siblings(list, list, path)
  }

  ghost function Siblings(list: seq<Item>, rest: seq<Item>, path: seq<Item>): seq<Tree>
    requires Finite(list) && Chain(list, path) && (forall i :: 0 <= i < |rest| ==> rest[i] in list) && |rest| <= |list|
    decreases Height(list) - |path|, |rest|
  {
    if rest == [] then []
    else
      var x := rest[0];
      var more := Siblings(list, rest[1..], path);
      if x.pid != Last(path) then more
      else
        LongerChain(list, path, x);
        ChainsEnd(list, path + [x]);
        [Node(x, MakeTrees(list, path + [x]))] + more
  }

  /** The trees in the order of their items, parents before children. */
  function Flatten(trees: seq<Tree>): seq<Item>
  {
    if trees == [] then [] else [trees[0].item] + Flatten(trees[0].children) + Flatten(trees[1..])
  }

  // ---------------------------------------------------------------- what a forest holds

  /** A chain to x that starts with `path`. */
  ghost predicate Extends(list: seq<Item>, path: seq<Item>, x: Item, c: seq<Item>)
  {
    Chain(list, c) && |c| > |path| && c[..|path|] == path && c[|c| - 1] == x
  }

  /** x can be reached from the end of `path` through one of the items `rest`. */
  ghost predicate Below(list: seq<Item>, rest: seq<Item>, path: seq<Item>, x: Item)
  {
    exists c: seq<Item> :: Extends(list, path, x, c) && c[|path|] in rest
  }

  lemma {:induction false} SiblingsHold(list: seq<Item>, rest: seq<Item>, path: seq<Item>, x: Item)
    requires Good(list) && Chain(list, path) && (forall i :: 0 <= i < |rest| ==> rest[i] in list) && |rest| <= |list| && Good(rest)
    ensures multiset(Flatten(Siblings(list, rest, path)))[x] == if Below(list, rest, path, x) then 1 else 0
    decreases |list| - |path|, |rest|
  {
    ChainsFit(list, path);
    if rest == [] {
    } else {
      var y, more := rest[0], rest[1..];
      SiblingsHold(list, more, path, x);
      if y.pid == Last(path) {
        var next := path + [y];
        LongerChain(list, path, y);
        ChainsFit(list, next);
        SiblingsHold(list, list, next, x);
        var t := MakeTrees(list, next);
        FlattenOne(Node(y, t), Siblings(list, more, path), x);
        BelowFirst(list, rest, path, x);
      } else {
        BelowOther(list, rest, path, x);
      }
    }
  }

  lemma FlattenOne(t: Tree, more: seq<Tree>, x: Item)
    ensures multiset(Flatten([t] + more))[x] ==
            (if t.item == x then 1 else 0) + multiset(Flatten(t.children))[x] + multiset(Flatten(more))[x]
  {
    assert ([t] + more)[1..] == more;
  }

  /** There is one chain to x, and it decides what x is below of. */
  lemma BelowByChain(list: seq<Item>, rest: seq<Item>, path: seq<Item>, x: Item, c: seq<Item>)
    requires Good(list) && Chain(list, c) && c != [] && c[|c| - 1] == x
    ensures Below(list, rest, path, x) <==> |c| > |path| && c[..|path|] == path && c[|path|] in rest
  {
    if Below(list, rest, path, x) {
      var d: seq<Item> :| Extends(list, path, x, d) && d[|path|] in rest;
      OneChain(list, c, d);
    }
    if |c| > |path| && c[..|path|] == path && c[|path|] in rest {
      assert Extends(list, path, x, c);
    }
  }

  lemma BelowOther(list: seq<Item>, rest: seq<Item>, path: seq<Item>, x: Item)
    requires rest != [] && rest[0].pid != Last(path)
    ensures Below(list, rest, path, x) <==> Below(list, rest[1..], path, x)
  {
    if Below(list, rest, path, x) {
      var c: seq<Item> :| Extends(list, path, x, c) && c[|path|] in rest;
      assert Link(list, c, |path|);
      assert path != [] ==> c[|path| - 1] == c[..|path|][|path| - 1];
      assert c[|path|] in rest[1..];
    }
  }

  /** x is the first sibling, or below it, or below another one: and only one of these. */
  lemma BelowFirst(list: seq<Item>, rest: seq<Item>, path: seq<Item>, x: Item)
    requires Good(list) && Good(rest) && rest != [] && rest[0].pid == Last(path) && Chain(list, path)
    requires forall i :: 0 <= i < |rest| ==> rest[i] in list
    ensures
      (if Below(list, rest, path, x) then 1 else 0) ==
      (if rest[0] == x then 1 else 0) + (if Below(list, list, path + [rest[0]], x) then 1 else 0)
      + (if Below(list, rest[1..], path, x) then 1 else 0)
  {
    var y, more := rest[0], rest[1..];
    var next := path + [y];
    LongerChain(list, path, y);
    if exists c: seq<Item> :: Chain(list, c) && c != [] && c[|c| - 1] == x {
      var c: seq<Item> :| Chain(list, c) && c != [] && c[|c| - 1] == x;
      BelowByChain(list, rest, path, x, c);
      BelowByChain(list, more, path, x, c);
      BelowByChain(list, list, next, x, c);
      FirstStep(list, rest, path, x, c);
    } else {
      assert next[|next| - 1] == y;
      assert !Below(list, rest, path, x) && !Below(list, more, path, x) && !Below(list, list, next, x);
    }
  }

  lemma FirstStep(list: seq<Item>, rest: seq<Item>, path: seq<Item>, x: Item, c: seq<Item>)
    requires Good(list) && Good(rest) && rest != [] && rest[0].pid == Last(path) && Chain(list, path) && rest[0] in list
    requires Chain(list, c) && c != [] && c[|c| - 1] == x
    ensures
      var y, next := rest[0], path + [rest[0]];
      var onward := |c| > |path| && c[..|path|] == path;
      && (y == x <==> c == next)
      && (|c| > |next| && c[..|next|] == next && c[|next|] in list <==> onward && c[|path|] == y && c != next)
      && (onward ==> (c[|path|] in rest <==> c[|path|] == y || c[|path|] in rest[1..]))
      && (c == next ==> onward && c[|path|] == y)
      && y !in rest[1..]
  {
    var y, next := rest[0], path + [rest[0]];
    LongerChain(list, path, y);
    if y == x {
      OneChain(list, c, next);
    }
    if |c| > |path| && c[..|path|] == path && c[|path|] == y {
      assert c[..|next|] == next;
      if |c| > |next| {
        assert Link(list, c, |next|);
      } else {
        assert c == next;
      }
    }
    if |c| > |next| && c[..|next|] == next {
      assert c[|path|] == next[|path|] && c[..|path|] == next[..|path|];
    }
  }
}
