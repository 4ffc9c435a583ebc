/** The category list and its trees as an object, with the program's own loops and recursions. */
module CategoryObject {
  import opened Text
  import opened Categories
  import opened CategoryForest
  import opened CategorySearch

  class Category {
    var List: seq<Item>
    var Trees: seq<Tree>

    constructor ()
      ensures List == [] && Trees == []
    {
      List, Trees := [], [];
    }

    /** An id of 0 leaves a hole in the list, which building cannot take; and building has to end. */
    method Conv(list: seq<Item>)
      requires Finite(list) && forall i :: 0 <= i < |list| ==> list[i].id != 0
      modifies this
      ensures List == list
      ensures list != [] ==> Trees == Categories.MakeTrees(list, [])
      ensures list == [] ==> Trees == old(Trees)
    {
      List := list;
      if |List| <= 0 {
        return;
      }
      Trees := MakeTrees(0, []);
    }

    /** The trees under an id; `path` is the chain that leads there. */
    method MakeTrees(pid: int, ghost path: seq<Item>) returns (children: seq<Tree>)
      requires Finite(List) && Chain(List, path) && pid == Last(path)
      ensures children == Categories.MakeTrees(List, path)
      decreases Height(List) - |path|
    {
      hide Categories.MakeTrees, Siblings, Finite, Height;
      ChainsEnd(List, path);
      children := [];
      TreesUnfold(List, path);
      assert List[0..] == List;
      for i := 0 to |List|
        invariant children + Siblings(List, List[i..], path) == Categories.MakeTrees(List, path)
      {
        var value := List[i];
        ghost var rest := List[i + 1..];
        assert List[i..][0] == value && List[i..][1..] == rest;
        SiblingsUnfold(List, List[i..], path);
        if value.pid == pid {
          LongerChain(List, path, value);
          ChainsEnd(List, path + [value]);
          var subs := MakeTrees(value.id, path + [value]);
          Onward(children, Node(value, subs), Siblings(List, rest, path));
          children := children + [Node(value, subs)];
        }
      }
      NoSiblings(List, path);
      assert List[|List|..] == [] && children + [] == children;
    }

    method SubFlatList(trees: seq<Tree>) returns (list: seq<Item>)
      ensures list == Flatten(trees)
      decreases trees
    {
      list := [];
      assert trees[0..] == trees;
      for i := 0 to |trees|
        invariant list + Flatten(trees[i..]) == Flatten(trees)
      {
        assert trees[i..][0] == trees[i] && trees[i..][1..] == trees[i + 1..];
        FlatOnward(list, trees[i..]);
        list := list + [trees[i].item];
        if |trees[i].children| > 0 {
          var sub := SubFlatList(trees[i].children);
          list := list + sub;
        } else {
          assert Flatten(trees[i].children) == [] && list + [] == list;
        }
      }
      assert trees[|trees|..] == [] && list + [] == list;
    }

    method FindId(id: int, data: seq<Tree>) returns (t: Option<Tree>)
      ensures t == CategorySearch.FindId(id, data)
      decreases data
    {
      assert data[0..] == data;
      for i := 0 to |data|
        invariant CategorySearch.FindId(id, data[i..]) == CategorySearch.FindId(id, data)
      {
        assert data[i..][0] == data[i] && data[i..][1..] == data[i + 1..];
        if data[i].item.id == id {
          return Some(data[i]);
        }
        if |data[i].children| > 0 {
          var sub := FindId(id, data[i].children);
          if sub.Some? {
            return sub;
          }
        }
      }
      return None;
    }

    /** An empty list leaves the trees of the last call in place, and these are searched then. */
    method FindTrees(parentIds: seq<int>, list: seq<Item>) returns (ids: seq<int>)
      requires Good(list)
      modifies this
      ensures ids == CategorySearch.FindTrees(parentIds, if list == [] then old(Trees) else Categories.MakeTrees(list, []))
    {
      hide Categories.MakeTrees, CategorySearch.FindId, Flatten;
      Conv(list);
      var trees := Trees;
      if |trees| <= 0 {
        return [];
      }
      var records := FindRecords(parentIds, trees);
      ids := AppendIds(parentIds, records);
    }

    method FindRecords(parentIds: seq<int>, trees: seq<Tree>) returns (records: seq<Tree>)
      ensures BelowAll(records) == BelowEach(parentIds, trees)
    {
      hide CategorySearch.FindId, Flatten, BelowAll;
      records := [];
      BelowAllNothing();
      assert parentIds[0..] == parentIds && [] + BelowEach(parentIds, trees) == BelowEach(parentIds, trees);
      for i := 0 to |parentIds|
        invariant BelowAll(records) + BelowEach(parentIds[i..], trees) == BelowEach(parentIds, trees)
      {
        assert parentIds[i..][0] == parentIds[i] && parentIds[i..][1..] == parentIds[i + 1..];
        var item := FindId(parentIds[i], trees);
        if item.Some? {
          BelowAllSnoc(records, item.value);
          Reassociate(BelowAll(records), IdList(Flatten(item.value.children)), BelowEach(parentIds[i + 1..], trees));
          records := records + [item.value];
        } else {
          assert [] + BelowEach(parentIds[i + 1..], trees) == BelowEach(parentIds[i + 1..], trees);
        }
      }
      assert parentIds[|parentIds|..] == [] && BelowAll(records) + [] == BelowAll(records);
    }

    method AppendIds(parentIds: seq<int>, records: seq<Tree>) returns (ids: seq<int>)
      ensures ids == parentIds + BelowAll(records)
    {
      hide Flatten;
      ids := parentIds;
      assert records[0..] == records;
      for i := 0 to |records|
        invariant ids + BelowAll(records[i..]) == parentIds + BelowAll(records)
      {
        assert records[i..][0] == records[i] && records[i..][1..] == records[i + 1..];
        var subs := SubFlatList(records[i].children);
        Reassociate(ids, IdList(subs), BelowAll(records[i + 1..]));
        ids := ids + IdList(subs);
      }
      assert records[|records|..] == [] && ids + [] == ids;
    }

    /** The ancestors of an item that is in the list, topmost first, and then the item. */
    method FindParents(id: int) returns (res: seq<Item>)
      requires Good(List) && !MeetsCycle(List, id)
      ensures Ancestors(List, id, Ancestry(List, id)) && res == Reverse(Ancestry(List, id))
    {
      AncestryExists(List, id);
      ghost var up := Ancestry(List, id);
      var current: Option<Item> := None;
      for i := 0 to |List|
        invariant current == if up != [] && up[0] in List[..i] then Some(up[0]) else None
      {
        assert List[..i + 1] == List[..i] + [List[i]];
        if List[i].id == id {
          FoundItem(List, id, up, i);
          current := Some(List[i]);
        }
      }
      assert List[..|List|] == List;
      if current == None {
        return [];
      }
      if current.value.pid == 0 {
        RootIsLast(List, id, up);
        return [current.value];
      }
      var parents := FindAbove(current.value.pid, up[1..]);
      var list := [current.value] + parents;
      assert list == up;
      res := [];
      var i := |list|;
      while i > 0
        invariant 0 <= i <= |list| && |res| == |list| - i
        invariant forall k :: 0 <= k < |res| ==> res[k] == list[|list| - 1 - k]
      {
        i := i - 1;
        res := res + [list[i]];
      }
    }

    method FindAbove(pid: int, ghost up: seq<Item>) returns (parents: seq<Item>)
      requires Good(List) && Ancestors(List, pid, up) && pid != 0
      ensures parents == up
      decreases |up|
    {
      parents := [];
      ghost var found := false;
      for i := 0 to |List|
        invariant found <==> up != [] && up[0] in List[..i]
        invariant parents == if found then up else []
      {
        assert List[..i + 1] == List[..i] + [List[i]];
        if List[i].id == pid {
          FoundItem(List, pid, up, i);
          OnlyOnce(List, i);
          found := true;
          parents := parents + [List[i]];
          if List[i].pid == 0 {
            RootIsLast(List, pid, up);
            assert parents == up;
            return;
          }
          var more := FindAbove(List[i].pid, up[1..]);
          parents := parents + more;
          assert parents == up;
        }
      }
      assert List[..|List|] == List;
    }
  }

  lemma TreesUnfold(list: seq<Item>, path: seq<Item>)
    requires Finite(list) && Chain(list, path)
    ensures [] + Siblings(list, list, path) == Categories.MakeTrees(list, path)
  {
  }

  lemma SiblingsUnfold(list: seq<Item>, rest: seq<Item>, path: seq<Item>)
    requires Finite(list) && Chain(list, path) && (forall i :: 0 <= i < |rest| ==> rest[i] in list) && 0 < |rest| <= |list|
    ensures rest[0].pid != Last(path) ==> Siblings(list, rest, path) == Siblings(list, rest[1..], path)
    ensures rest[0].pid == Last(path) ==>
              && Chain(list, path + [rest[0]])
              && Siblings(list, rest, path) == [Node(rest[0], Categories.MakeTrees(list, path + [rest[0]]))] + Siblings(list, rest[1..], path)
  {
    if rest[0].pid == Last(path) {
      LongerChain(list, path, rest[0]);
    }
  }

  lemma NoSiblings(list: seq<Item>, path: seq<Item>)
    requires Finite(list) && Chain(list, path)
    ensures Siblings(list, [], path) == []
  {
  }

  lemma Onward(done: seq<Tree>, t: Tree, more: seq<Tree>)
    ensures done + ([t] + more) == done + [t] + more
  {
  }

  lemma FlatOnward(done: seq<Item>, trees: seq<Tree>)
    requires trees != []
    ensures done + Flatten(trees) == done + [trees[0].item] + Flatten(trees[0].children) + Flatten(trees[1..])
  {
  }

  /** The ids below each of the nodes. */
  function BelowAll(records: seq<Tree>): seq<int>
  {
    if records == [] then [] else IdList(Flatten(records[0].children)) + BelowAll(records[1..])
  }

  lemma BelowAllNothing()
    ensures BelowAll([]) == []
  {
  }

  lemma Reassociate(a: seq<int>, b: seq<int>, c: seq<int>)
    ensures a + (b + c) == a + b + c
  {
  }

  lemma {:induction false} BelowAllSnoc(records: seq<Tree>, t: Tree)
    ensures BelowAll(records + [t]) == BelowAll(records) + IdList(Flatten(t.children))
  {
    if records == [] {
      assert [t][1..] == [] && BelowAll([t]) == IdList(Flatten(t.children)) + [];
    } else {
      BelowAllSnoc(records[1..], t);
      assert (records + [t])[0] == records[0] && (records + [t])[1..] == records[1..] + [t];
      var a, b, c := IdList(Flatten(records[0].children)), BelowAll(records[1..]), IdList(Flatten(t.children));
      assert a + (b + c) == a + b + c;
    }
  }

  lemma FoundItem(list: seq<Item>, id: int, up: seq<Item>, i: nat)
    requires Good(list) && Ancestors(list, id, up) && i < |list| && list[i].id == id
    ensures up != [] && up[0] == list[i]
  {
  }

  lemma OnlyOnce(list: seq<Item>, i: nat)
    requires Good(list) && i < |list|
    ensures list[i] !in list[..i]
  {
  }

  lemma RootIsLast(list: seq<Item>, id: int, up: seq<Item>)
    requires Good(list) && Ancestors(list, id, up) && up != [] && up[0].pid == 0
    ensures up == [up[0]]
  {
    if up[1..] != [] {
      HeadIsListed(list, 0, up[1..]);
    }
  }
}
