/** Looking for ids in a forest: what is below an item, and what is above it. */
module CategorySearch {
  import opened Text
  import opened Categories
  import opened CategoryForest

  /** The first node with this id, parents before children. */
  function FindId(id: int, data: seq<Tree>): Option<Tree>
  {
    if data == [] then None
    else if data[0].item.id == id then Some(data[0])
    else
      match FindId(id, data[0].children)
      case Some(t) => Some(t)
      case None => FindId(id, data[1..])
  }

  /** The ids of all nodes in list form. */
  function IdList(items: seq<Item>): (r: seq<int>)
    ensures |r| == |items| && forall i :: 0 <= i < |items| ==> r[i] == items[i].id
  {
    seq(|items|, i requires 0 <= i < |items| => items[i].id)
  }

  /** The ids found below each of the parents, one parent after the other. */
  function BelowEach(parents: seq<int>, trees: seq<Tree>): seq<int>
  {
    if parents == [] then []
    else
      (match FindId(parents[0], trees)
       case None => []
       case Some(t) => IdList(Flatten(t.children)))
      + BelowEach(parents[1..], trees)
  }

  /** The parents themselves, known or not, and everything below them; nothing when there is no tree at all. */
  function FindTrees(parents: seq<int>, trees: seq<Tree>): seq<int>
  {
    if trees == [] then [] else parents + BelowEach(parents, trees)
  }

  // ---------------------------------------------------------------- finding a node

  lemma {:induction false} NotFound(id: int, trees: seq<Tree>)
    ensures FindId(id, trees).Some? <==> id in Ids(Flatten(trees))
    decreases trees
  {
    if trees != [] {
      ForestIds(trees);
      NotFound(id, trees[0].children);
      NotFound(id, trees[1..]);
    }
  }

  lemma {:induction false} IdsAreOfItems(s: seq<Item>, id: int)
    ensures id in Ids(s) <==> exists x :: x in s && x.id == id
  {
    if s != [] {
      IdsAreOfItems(s[1..], id);
      assert forall x :: x in s <==> x == s[0] || x in s[1..];
    }
  }

  /** An id is in the trees under a chain when its item is below that chain. */
  lemma IdBelow(list: seq<Item>, path: seq<Item>, x: Item)
    requires Good(list) && Chain(list, path) && x in list
    ensures x.id in Ids(Flatten(MakeTrees(list, path))) <==> Below(list, list, path, x)
  {
    var flat := Flatten(MakeTrees(list, path));
    IdsAreOfItems(flat, x.id);
    SiblingsHold(list, list, path, x);
    if x.id in Ids(flat) {
      var y :| y in flat && y.id == x.id;
      SiblingsHold(list, list, path, y);
      BelowIsListed(list, path, y);
    }
  }

  lemma BelowIsListed(list: seq<Item>, path: seq<Item>, y: Item)
    requires Below(list, list, path, y)
    ensures y in list
  {
    var c: seq<Item> :| Extends(list, path, y, c) && c[|path|] in list;
    assert Link(list, c, |c| - 1);
  }

  /** The node found for the end of a chain has the trees under that chain. */
  lemma {:induction false} FoundByChain(list: seq<Item>, rest: seq<Item>, path: seq<Item>, c: seq<Item>)
    requires Good(list) && Good(rest) && Chain(list, path) && (forall i :: 0 <= i < |rest| ==> rest[i] in list) && |rest| <= |list|
    requires Chain(list, c) && |c| > |path| && c[..|path|] == path && c[|path|] in rest
    ensures FindId(Last(c), Siblings(list, rest, path)) == Some(Node(c[|c| - 1], MakeTrees(list, c)))
    decreases |list| - |path|, |rest|
  {
    hide FindId;
    ChainsFit(list, path);
    var x, y := c[|c| - 1], rest[0];
    assert Link(list, c, |c| - 1);
    PidAt(list, c, |path|);
    if y.pid != Last(path) {
      assert c[|path|] in rest[1..];
      FoundByChain(list, rest[1..], path, c);
    } else {
      var next := path + [y];
      LongerChain(list, path, y);
      ChainsFit(list, next);
      var below, more := MakeTrees(list, next), Siblings(list, rest[1..], path);
      FindFirst(x.id, Node(y, below), more);
      if c[|path|] == y {
        assert c[..|next|] == next;
        if |c| == |next| {
          assert c == next;
        } else {
          ChainsAreDistinct(list, c, |path|, |c| - 1);
          assert Link(list, c, |next|);
          FoundByChain(list, list, next, c);
          DifferentIds(list, x, y);
        }
      } else {
        assert c[|path|] in rest[1..];
        FoundByChain(list, rest[1..], path, c);
        NotUnder(list, path, c, y);
        NotFound(x.id, below);
      }
    }
  }

  lemma PidAt(list: seq<Item>, c: seq<Item>, k: nat)
    requires Chain(list, c) && k < |c|
    ensures c[k].pid == Last(c[..k])
  {
    assert Link(list, c, k);
  }

  lemma DifferentIds(list: seq<Item>, x: Item, y: Item)
    requires Good(list) && x in list && y in list && x != y
    ensures x.id != y.id
  {
  }

  lemma FindFirst(id: int, t: Tree, more: seq<Tree>)
    ensures FindId(id, [t] + more) ==
            if t.item.id == id then Some(t) else if FindId(id, t.children).Some? then FindId(id, t.children) else FindId(id, more)
  {
    assert ([t] + more)[1..] == more;
  }

  lemma PrefixAt(c: seq<Item>, p: seq<Item>, k: nat)
    requires k < |p| <= |c|
    ensures c[..|p|] == p ==> c[k] == p[k]
  {
  }

  /** What is reached through one sibling is neither another sibling nor below it. */
  lemma NotUnder(list: seq<Item>, path: seq<Item>, c: seq<Item>, y: Item)
    requires Good(list) && Chain(list, path) && y in list && y.pid == Last(path) && Chain(list, path + [y])
    requires Chain(list, c) && |c| > |path| && c[..|path|] == path && c[|path|] != y
    ensures c[|c| - 1].id != y.id && c[|c| - 1].id !in Ids(Flatten(MakeTrees(list, path + [y])))
  {
    var x, next := c[|c| - 1], path + [y];
    assert Link(list, c, |c| - 1);
    if x.id == y.id {
      SameId(list, x, y);
      OneChain(list, c, next);
    }
    IdBelow(list, next, x);
    BelowByChain(list, list, next, x, c);
    if |c| > |next| {
      PrefixAt(c, next, |path|);
    }
  }

  // ---------------------------------------------------------------- descendants

  /** A way down from one item to another. */
  ghost predicate WayDown(list: seq<Item>, way: seq<Item>, a: Item, x: Item)
  {
    && |way| >= 2 && way[0] == a && way[|way| - 1] == x
    && forall k :: 1 <= k < |way| ==> way[k] in list && way[k].pid == way[k - 1].id
  }

  ghost predicate Descendant(list: seq<Item>, a: Item, x: Item) { exists way: seq<Item> :: WayDown(list, way, a, x) }

  lemma {:induction false} WayDownIsChain(list: seq<Item>, c: seq<Item>, way: seq<Item>, n: nat)
    requires Chain(list, c) && c != [] && way != [] && way[0] == c[|c| - 1] && n < |way|
    requires forall k :: 1 <= k < |way| ==> way[k] in list && way[k].pid == way[k - 1].id
    ensures Chain(list, c + way[1..n + 1]) && Last(c + way[1..n + 1]) == way[n].id
  {
    if n == 0 {
      assert c + way[1..1] == c;
    } else {
      WayDownIsChain(list, c, way, n - 1);
      LongerChain(list, c + way[1..n], way[n]);
      assert c + way[1..n] + [way[n]] == c + way[1..n + 1];
    }
  }

  /** Below a chain is what its last item has as descendants. */
  lemma BelowIsDescendant(list: seq<Item>, c: seq<Item>, x: Item)
    requires Good(list) && Chain(list, c) && c != []
    ensures Below(list, list, c, x) <==> Descendant(list, c[|c| - 1], x)
  {
    var a := c[|c| - 1];
    if Below(list, list, c, x) {
      var d: seq<Item> :| Extends(list, c, x, d) && d[|c|] in list;
      var way := d[|c| - 1..];
      assert way[0] == d[..|c|][|c| - 1] == a;
      forall k | 1 <= k < |way| ensures way[k] in list && way[k].pid == way[k - 1].id {
        assert Link(list, d, |c| - 1 + k);
      }
      assert WayDown(list, way, a, x);
    }
    if Descendant(list, a, x) {
      var way: seq<Item> :| WayDown(list, way, a, x);
      var d := c + way[1..];
      WayDownIsChain(list, c, way, |way| - 1);
      assert way[1..|way|] == way[1..];
      assert d[|c|] == way[1] && d[..|c|] == c && d[|d| - 1] == x;
      assert Extends(list, c, x, d);
    }
  }

  /** Below an id that is in the forest are its descendants, each once. */
  lemma FoundHoldsDescendants(list: seq<Item>, a: Item, x: Item)
    requires Good(list) && Rooted(list, a)
    ensures
      var t := FindId(a.id, MakeTrees(list, []));
      t.Some? && t.value.item == a && multiset(Flatten(t.value.children))[x] == if Descendant(list, a, x) then 1 else 0
  {
    var c: seq<Item> :| Chain(list, c) && c != [] && c[|c| - 1] == a;
    assert Link(list, c, 0) && c[..0] == [];
    FoundByChain(list, list, [], c);
    SiblingsHold(list, list, c, x);
    BelowIsDescendant(list, c, x);
  }

  lemma FoundIsRooted(list: seq<Item>, id: int)
    requires Good(list) && FindId(id, MakeTrees(list, [])).Some?
    ensures exists a :: Rooted(list, a) && a.id == id
  {
    var flat := Flatten(MakeTrees(list, []));
    NotFound(id, MakeTrees(list, []));
    IdsAreOfItems(flat, id);
    var a :| a in flat && a.id == id;
    HoldsRootedOnce(list, a);
  }

  /** The id is one of the parents, or that of a descendant of one of them. */
  ghost predicate Wanted(list: seq<Item>, parents: seq<int>, id: int)
  {
    exists a: Item, x: Item :: Rooted(list, a) && a.id in parents && x.id == id && Descendant(list, a, x)
  }

  lemma {:induction false} BelowEachHolds(list: seq<Item>, parents: seq<int>, id: int)
    requires Good(list)
    ensures id in BelowEach(parents, MakeTrees(list, [])) <==> Wanted(list, parents, id)
  {
    hide MakeTrees, FindId, Descendant, Rooted;
    if parents != [] {
      var p, trees := parents[0], MakeTrees(list, []);
      BelowEachHolds(list, parents[1..], id);
      assert forall q :: q in parents <==> q == p || q in parents[1..];
      BelowOne(list, p, id);
    }
  }

  ghost predicate WantedFrom(list: seq<Item>, p: int, id: int)
  {
    exists a: Item, x: Item :: Rooted(list, a) && a.id == p && x.id == id && Descendant(list, a, x)
  }

  lemma BelowOne(list: seq<Item>, p: int, id: int)
    requires Good(list)
    ensures
      var t := FindId(p, MakeTrees(list, []));
      (t.Some? && id in IdList(Flatten(t.value.children))) <==> WantedFrom(list, p, id)
  {
    hide MakeTrees, FindId, Descendant, Rooted;
    var t := FindId(p, MakeTrees(list, []));
    if t.Some? && id in IdList(Flatten(t.value.children)) {
      FoundIsRooted(list, p);
      var a :| Rooted(list, a) && a.id == p;
      var i :| 0 <= i < |Flatten(t.value.children)| && IdList(Flatten(t.value.children))[i] == id;
      FoundHoldsDescendants(list, a, Flatten(t.value.children)[i]);
    }
    if WantedFrom(list, p, id) {
      var a: Item, x: Item :| Rooted(list, a) && a.id == p && x.id == id && Descendant(list, a, x);
      FoundHoldsDescendants(list, a, x);
      var i :| 0 <= i < |Flatten(t.value.children)| && Flatten(t.value.children)[i] == x;
      assert IdList(Flatten(t.value.children))[i] == id;
    }
  }

  /** FindTrees gives the parent ids and the ids of all their descendants, and no others. */
  lemma FindTreesGivesDescendants(list: seq<Item>, parents: seq<int>, id: int)
    requires Good(list) && MakeTrees(list, []) != []
    ensures id in FindTrees(parents, MakeTrees(list, [])) <==> id in parents || Wanted(list, parents, id)
  {
    BelowEachHolds(list, parents, id);
  }

  // ---------------------------------------------------------------- ancestors

  predicate Listed(list: seq<Item>, id: int) { exists i :: 0 <= i < |list| && list[i].id == id }

  /** The items above id, the nearest first, up to a root or to a parent that is not in the list. */
  predicate Ancestors(list: seq<Item>, id: int, up: seq<Item>)
    decreases |up|
  {
    if up == [] then id == 0 || !Listed(list, id)
    else up[0] in list && up[0].id == id && Ancestors(list, up[0].pid, up[1..])
  }

  /** The items above an id are determined by the list. */
  lemma {:induction false} OneAncestry(list: seq<Item>, id: int, a: seq<Item>, b: seq<Item>)
    requires Good(list) && Ancestors(list, id, a) && Ancestors(list, id, b)
    ensures a == b
    decreases |a|
  {
    if a == [] || b == [] {
      if a != [] {
        HeadIsListed(list, id, a);
      }
      if b != [] {
        HeadIsListed(list, id, b);
      }
    } else {
      SameId(list, a[0], b[0]);
      OneAncestry(list, a[0].pid, a[1..], b[1..]);
    }
  }

  lemma HeadIsListed(list: seq<Item>, id: int, up: seq<Item>)
    requires Good(list) && up != [] && Ancestors(list, id, up)
    ensures id != 0 && Listed(list, id)
  {
    var i :| 0 <= i < |list| && list[i] == up[0];
    assert list[i].id == id;
  }

  /** The item with an id. */
  function ItemOf(list: seq<Item>, id: int): (x: Item)
    requires Listed(list, id)
    ensures x in list && x.id == id
  {
    if list[0].id == id then list[0] else ItemOf(list[1..], id)
  }

  /** From an id to the one above it n times; above an id that is not in the list there is only 0. */
  function Climb(list: seq<Item>, id: int, n: nat): int
  {
    if n == 0 then id
    else
      var below := Climb(list, id, n - 1);
      if Listed(list, below) then ItemOf(list, below).pid else 0
  }

  /** Going up from an id comes back to an item. */
  ghost predicate MeetsCycle(list: seq<Item>, id: int)
  {
    exists m: nat, n: nat :: m < n && Climb(list, id, m) == Climb(list, id, n) && Listed(list, Climb(list, id, m))
  }

  lemma {:induction false} ClimbShift(list: seq<Item>, id: int, n: nat)
    requires Listed(list, id)
    ensures Climb(list, id, n + 1) == Climb(list, ItemOf(list, id).pid, n)
  {
    if n > 0 {
      ClimbShift(list, id, n - 1);
    }
  }

  /** The n-th step up leads to the n-th ancestor, and after the last one to no item. */
  lemma {:induction false} ClimbsAncestry(list: seq<Item>, id: int, up: seq<Item>, n: nat)
    requires Good(list) && Ancestors(list, id, up)
    ensures n < |up| ==> Climb(list, id, n) == up[n].id && Ancestors(list, up[n].id, up[n..])
    ensures n >= |up| ==> !Listed(list, Climb(list, id, n))
  {
    if n == 0 {
      if up == [] {
        assert id != 0 || !Listed(list, 0);
      } else {
        assert up[0..] == up;
      }
    } else {
      ClimbsAncestry(list, id, up, n - 1);
      if n - 1 < |up| {
        var x := up[n - 1];
        HeadIsListed(list, x.id, up[n - 1..]);
        SameId(list, x, ItemOf(list, x.id));
        assert up[n - 1..][1..] == up[n..];
        if n == |up| {
          assert Ancestors(list, x.pid, []);
        }
      }
    }
  }

  /** The items met in the first n steps, as long as there are any. */
  lemma ClimbedFit(list: seq<Item>, id: int, n: nat)
    requires !MeetsCycle(list, id) && forall k: nat :: k < n ==> Listed(list, Climb(list, id, k))
    ensures n <= |list|
  {
    var p := seq(n, k requires 0 <= k < n => ItemOf(list, Climb(list, id, k)));
    forall i, j | 0 <= i < j < n ensures p[i] != p[j] {
      assert Climb(list, id, i) != Climb(list, id, j);
    }
    DistinctFit(list, p);
  }

  lemma {:induction false} AncestryAfter(list: seq<Item>, id: int, n: nat) returns (up: seq<Item>)
    requires Good(list) && !Listed(list, Climb(list, id, n)) && forall k: nat :: k < n ==> Listed(list, Climb(list, id, k))
    ensures |up| == n && Ancestors(list, id, up)
    decreases n
  {
    if n == 0 {
      up := [];
    } else {
      assert Climb(list, id, 0) == id;
      var x := ItemOf(list, id);
      forall k: nat | k < n ensures Climb(list, id, k + 1) == Climb(list, x.pid, k) {
        ClimbShift(list, id, k);
      }
      var rest := AncestryAfter(list, x.pid, n - 1);
      up := [x] + rest;
      assert up[1..] == rest;
    }
  }

  ghost predicate EndsWithin(list: seq<Item>, id: int, n: nat) { exists up: seq<Item> :: Ancestors(list, id, up) && |up| <= n }

  lemma FirstUnlisted(list: seq<Item>, id: int, n: nat) returns (k: nat)
    requires !Listed(list, Climb(list, id, n))
    ensures !Listed(list, Climb(list, id, k)) && forall m: nat :: m < k ==> Listed(list, Climb(list, id, m))
  {
    k := 0;
    while k < n && Listed(list, Climb(list, id, k))
      invariant k <= n && forall m: nat :: m < k ==> Listed(list, Climb(list, id, m))
    {
      k := k + 1;
    }
  }

  lemma AncestryWithoutCycle(list: seq<Item>, id: int) returns (up: seq<Item>)
    requires Good(list) && !MeetsCycle(list, id)
    ensures Ancestors(list, id, up) && |up| <= |list|
  {
    if forall k: nat :: k < |list| + 1 ==> Listed(list, Climb(list, id, k)) {
      ClimbedFit(list, id, |list| + 1);
    }
    var n: nat :| n < |list| + 1 && !Listed(list, Climb(list, id, n));
    var k := FirstUnlisted(list, id, n);
    ClimbedFit(list, id, k);
    up := AncestryAfter(list, id, k);
  }

  lemma NoAncestryInCycle(list: seq<Item>, id: int, up: seq<Item>)
    requires Good(list) && MeetsCycle(list, id)
    ensures !Ancestors(list, id, up)
  {
    if Ancestors(list, id, up) {
      var m: nat, n: nat :| m < n && Climb(list, id, m) == Climb(list, id, n) && Listed(list, Climb(list, id, m));
      ClimbsAncestry(list, id, up, m);
      ClimbsAncestry(list, id, up, n);
      OneAncestry(list, up[m].id, up[m..], up[n..]);
    }
  }

  /** Following parents from an id ends, and within as many steps as there are items, if and only if it meets no cycle. */
  lemma AncestryEnds(list: seq<Item>, id: int)
    requires Good(list)
    ensures !MeetsCycle(list, id) ==> EndsWithin(list, id, |list|)
    ensures MeetsCycle(list, id) ==> forall n: nat :: !EndsWithin(list, id, n)
  {
    if MeetsCycle(list, id) {
      forall up: seq<Item> ensures !Ancestors(list, id, up) {
        NoAncestryInCycle(list, id, up);
      }
    } else {
      var up := AncestryWithoutCycle(list, id);
    }
  }

  /** The items above an id, where they end. */
  ghost function Ancestry(list: seq<Item>, id: int): seq<Item>
  {
    if exists up: seq<Item> :: Ancestors(list, id, up) then var up: seq<Item> :| Ancestors(list, id, up); up else []
  }

  lemma AncestryExists(list: seq<Item>, id: int)
    requires Good(list) && !MeetsCycle(list, id)
    ensures Ancestors(list, id, Ancestry(list, id))
  {
    AncestryEnds(list, id);
  }

  function Reverse(s: seq<Item>): (r: seq<Item>)
    ensures |r| == |s| && forall i :: 0 <= i < |s| ==> r[i] == s[|s| - 1 - i]
  {
    if s == [] then [] else Reverse(s[1..]) + [s[0]]
  }

  lemma {:induction false} AncestorLinks(list: seq<Item>, id: int, up: seq<Item>, k: nat)
    requires Ancestors(list, id, up) && k < |up|
    ensures up[k] in list && up[k].id == if k == 0 then id else up[k - 1].pid
    ensures k == |up| - 1 ==> up[k].pid == 0 || !Listed(list, up[k].pid)
    decreases k
  {
    if k > 0 {
      AncestorLinks(list, up[0].pid, up[1..], k - 1);
    }
    if |up| == 1 {
      assert up[1..] == [];
    }
  }

  /** Turned around, the ancestors lead from the topmost one down to the item, each the parent of the next. */
  lemma ReversedIsWayDown(list: seq<Item>, id: int, up: seq<Item>)
    requires Ancestors(list, id, up) && up != []
    ensures
      var r := Reverse(up);
      && r[|r| - 1].id == id
      && (r[0].pid == 0 || !Listed(list, r[0].pid))
      && forall k :: 0 < k < |r| ==> r[k] in list && r[k].pid == r[k - 1].id
  {
    var r, n := Reverse(up), |up|;
    AncestorLinks(list, id, up, 0);
    AncestorLinks(list, id, up, n - 1);
    forall k | 0 < k < n ensures r[k] in list && r[k].pid == r[k - 1].id {
      AncestorLinks(list, id, up, n - 1 - k);
      AncestorLinks(list, id, up, n - k);
    }
  }
}
