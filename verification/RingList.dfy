/** The intrusive circular list (myframe/list.cpp), refining a sequence of nodes. */
module RingList {
  import opened Basics

  class ListNode {
    var prev: ListNode?
    var next: ListNode?

    constructor ()
      ensures prev == null && next == null
    {
      prev, next := null, null;
    }
  }

  /** The ring cut open at its root: position 0 and position |nodes| + 1 are the root. */
  ghost function At(root: ListNode, nodes: seq<ListNode>, i: nat): ListNode
    requires i <= |nodes| + 1
  {
    if 1 <= i <= |nodes| then nodes[i - 1] else root
  }

  /** From one position to another, reading `next` gives the nodes in order and reading `prev` gives them
      backwards. */
  ghost predicate Chain(root: ListNode, nodes: seq<ListNode>, from: nat, to: nat)
    requires to <= |nodes| + 1
    reads root, nodes
  {
    && (forall i {:trigger At(root, nodes, i).next} :: from <= i < to ==>
          At(root, nodes, i).next == At(root, nodes, i + 1))
    && (forall i {:trigger At(root, nodes, i).prev} :: from < i <= to ==>
          At(root, nodes, i).prev == At(root, nodes, i - 1))
  }

  ghost predicate Linked(root: ListNode, nodes: seq<ListNode>)
    reads root, nodes
  {
    Chain(root, nodes, 0, |nodes| + 1)
  }

  ghost function Inserted<T>(s: seq<T>, k: nat, x: T): (r: seq<T>)
    requires k <= |s|
    ensures |r| == |s| + 1
  {
    s[..k] + [x] + s[k..]
  }

  ghost function Removed<T>(s: seq<T>, k: nat): (r: seq<T>)
    requires k < |s|
    ensures |r| == |s| - 1
  {
    s[..k] + s[k + 1..]
  }

  lemma DistinctInserted<T>(s: seq<T>, k: nat, x: T)
    requires k <= |s| && Distinct(s) && x !in s
    ensures Distinct(Inserted(s, k, x))
    ensures forall y :: y in Inserted(s, k, x) <==> y == x || y in s
  {
    forall y ensures y in Inserted(s, k, x) <==> y == x || y in s {
      assert s == s[..k] + s[k..];
    }
  }

  lemma DistinctRemoved<T>(s: seq<T>, k: nat)
    requires k < |s| && Distinct(s)
    ensures Distinct(Removed(s, k))
    ensures forall y :: y in Removed(s, k) <==> y != s[k] && y in s
  {
    forall y ensures y in Removed(s, k) <==> y != s[k] && y in s {
      assert s == s[..k] + [s[k]] + s[k + 1..];
    }
  }

  lemma AtInserted(root: ListNode, s: seq<ListNode>, k: nat, x: ListNode)
    requires k <= |s|
    ensures forall i :: 0 <= i <= |s| + 2 ==>
              At(root, Inserted(s, k, x), i) == if i == k + 1 then x else At(root, s, if i <= k then i else i - 1)
  {
  }

  lemma AtRemoved(root: ListNode, s: seq<ListNode>, k: nat)
    requires k < |s|
    ensures forall i :: 0 <= i <= |s| ==>
              At(root, Removed(s, k), i) == At(root, s, if i <= k then i else i + 1)
  {
  }

  lemma AtDistinct(root: ListNode, s: seq<ListNode>)
    requires Distinct(s) && root !in s
    ensures forall i, j :: 0 <= i < j <= |s| + 1 && (i > 0 || j <= |s|) ==> At(root, s, i) != At(root, s, j)
  {
  }

  lemma AtNode(root: ListNode, s: seq<ListNode>, k: nat)
    requires k < |s|
    ensures At(root, s, k + 1) == s[k]
  {
  }

  lemma AtOther(root: ListNode, s: seq<ListNode>, x: ListNode)
    requires x != root && x !in s
    ensures forall i :: 0 <= i <= |s| + 1 ==> At(root, s, i) != x
  {
  }

  lemma AtAppended(root: ListNode, other: ListNode, s: seq<ListNode>, t: seq<ListNode>)
    ensures forall i :: 0 <= i <= |s| ==> At(root, s + t, i) == At(root, s, i)
    ensures forall i :: |s| < i <= |s| + |t| ==> At(root, s + t, i) == At(other, t, i - |s|)
    ensures At(root, s + t, |s| + |t| + 1) == root
  {
  }

  lemma AtApart(root: ListNode, other: ListNode, s: seq<ListNode>, t: seq<ListNode>)
    requires root != other && root !in t && other !in s && forall x :: x in s ==> x !in t
    ensures forall i, j :: 0 <= i <= |s| + 1 && 0 <= j <= |t| + 1 ==> At(root, s, i) != At(other, t, j)
  {
    forall i, j | 0 <= i <= |s| + 1 && 0 <= j <= |t| + 1 ensures At(root, s, i) != At(other, t, j) {
      assert 1 <= i <= |s| ==> At(root, s, i) in s;
      assert 1 <= j <= |t| ==> At(other, t, j) in t;
    }
  }

  lemma EmptyRing(root: ListNode)
    requires root.prev == root && root.next == root
    ensures Linked(root, []) && Distinct<ListNode>([])
  {
  }

  lemma DistinctAppended<T>(s: seq<T>, t: seq<T>)
    requires Distinct(s) && Distinct(t) && forall x :: x in s ==> x !in t
    ensures Distinct(s + t)
  {
    forall i, j | 0 <= i < j < |s + t| ensures (s + t)[i] != (s + t)[j] {
      if i < |s| <= j {
        assert s[i] in s && t[j - |s|] in t;
      }
    }
  }

  /** Rewriting the four pointers around the seam joins two rings into one. */
  lemma Spliced(root: ListNode, other: ListNode, s: seq<ListNode>, t: seq<ListNode>)
    requires t != []
    requires Chain(root, s, 0, |s|)
    requires Chain(other, t, 1, |t|)
    requires At(root, s, |s|).next == At(other, t, 1)
    requires At(other, t, 1).prev == At(root, s, |s|)
    requires At(other, t, |t|).next == root
    requires root.prev == At(other, t, |t|)
    ensures Linked(root, s + t)
  {
    AtAppended(root, other, s, t);
    hide At;
    forall i | 0 <= i <= |s + t|
      ensures At(root, s + t, i).next == At(root, s + t, i + 1)
      ensures At(root, s + t, i + 1).prev == At(root, s + t, i)
    {
      if i < |s| {
        assert At(root, s, i).next == At(root, s, i + 1);
      } else if i > |s| && i < |s| + |t| {
        assert At(other, t, i - |s|).next == At(other, t, i - |s| + 1);
      }
    }
  }

  class List {
    const root: ListNode
    var count: int
    // The nodes in order, without the root.
    ghost var nodes: seq<ListNode>

    ghost predicate Valid()
      reads this, root, nodes
    {
      count == |nodes| && Distinct(nodes) && root !in nodes && Linked(root, nodes)
    }

    constructor ()
      ensures Valid() && nodes == [] && fresh(root)
    {
      root := new ListNode();
      count := 0;
      nodes := [];
      new;
      root.prev, root.next := root, root;
    }

    /** The node reached from the root by k reads of `next`. */
    ghost function FollowNext(k: nat): (r: ListNode?)
      reads this, root, nodes
    {
      if k == 0 then root
      else
        var x := FollowNext(k - 1);
        if x == null || (x != root && x !in nodes) then null else x.next
    }

    /** The node reached from the root by k reads of `prev`. */
    ghost function FollowPrev(k: nat): (r: ListNode?)
      reads this, root, nodes
    {
      if k == 0 then root
      else
        var x := FollowPrev(k - 1);
        if x == null || (x != root && x !in nodes) then null else x.prev
    }

    lemma Neighbours(i: nat)
      requires Valid() && i <= |nodes|
      ensures At(root, nodes, i).next == At(root, nodes, i + 1) && At(root, nodes, i + 1).prev == At(root, nodes, i)
      ensures At(root, nodes, i) == root || At(root, nodes, i) in nodes
      ensures At(root, nodes, i + 1) == root || At(root, nodes, i + 1) in nodes
    {
      hide Distinct;
    }

    lemma {:induction false} Forwards(k: nat)
      requires Valid() && k <= |nodes| + 1
      ensures FollowNext(k) == At(root, nodes, k)
    {
      hide Valid, At;
      if k > 0 {
        Forwards(k - 1);
        Neighbours(k - 1);
      } else {
        assert At(root, nodes, 0) == root by { Ends(); }
      }
    }

    lemma {:induction false} Backwards(k: nat)
      requires Valid() && k <= |nodes| + 1
      ensures FollowPrev(k) == At(root, nodes, |nodes| + 1 - k)
    {
      hide Valid, At;
      if k > 0 {
        Backwards(k - 1);
        Neighbours(|nodes| + 1 - k);
      } else {
        assert At(root, nodes, |nodes| + 1) == root by { Ends(); }
      }
    }

    lemma Ends()
      ensures At(root, nodes, 0) == root && At(root, nodes, |nodes| + 1) == root
    {
    }

    /** Reading `next` from the root gives the nodes in order, reading `prev` gives them in reverse, and after one
        more than `count` reads both are back at the root. */
    lemma BothWays(k: nat)
      requires Valid() && k <= |nodes| + 1
      ensures count == |nodes|
      ensures FollowNext(k) == if 1 <= k <= |nodes| then nodes[k - 1] else root
      ensures FollowPrev(k) == if 1 <= k <= |nodes| then nodes[|nodes| - k] else root
    {
      Forwards(k);
      Backwards(k);
      hide Linked, Distinct, FollowNext, FollowPrev;
    }

    /** `__Init`: an empty ring, whatever was linked before. */
    method Init()
      modifies this, root
      ensures Valid() && nodes == []
    {
      root.prev, root.next := root, root;
      count := 0;
      nodes := [];
      EmptyRing(root);
    }

    predicate IsEmpty()
      requires Valid()
      reads this, root, nodes
      ensures IsEmpty() <==> nodes == []
    {
      assert At(root, nodes, 0) == root;
      root.next == root
    }

    /** `__Add`: links a node between two neighbours, here those around position k. */
    method Add(prev: ListNode, next: ListNode, node: ListNode, ghost k: nat)
      requires Valid() && node != root && node !in nodes
      requires k <= |nodes| && prev == At(root, nodes, k) && next == At(root, nodes, k + 1)
      modifies this, root, nodes, node
      ensures Valid()
      ensures nodes == Inserted(old(nodes), k, node)
    {
      ghost var was, now := nodes, Inserted(nodes, k, node);
      DistinctInserted(was, k, node);
      AtInserted(root, was, k, node);
      AtDistinct(root, was);
      AtOther(root, was, node);
      hide Inserted, At, Distinct;
      prev.next := node;
      next.prev := node;
      node.prev := prev;
      node.next := next;
      forall i | 0 <= i <= |now|
        ensures At(root, now, i).next == At(root, now, i + 1)
        ensures At(root, now, i + 1).prev == At(root, now, i)
      {
        if i < k {
          assert old(At(root, was, i).next) == At(root, was, i + 1);
        } else if i > k + 1 {
          assert old(At(root, was, i - 1).next) == At(root, was, i);
        }
      }
      count := count + 1;
      nodes := now;
    }

    method AddHead(node: ListNode?)
      requires Valid()
      requires node != null ==> node != root && node !in nodes
      modifies this, root, nodes, node
      ensures Valid()
      ensures nodes == if node == null then old(nodes) else [node] + old(nodes)
    {
      assert At(root, nodes, 0) == root;
      if node != null {
        Add(root, root.next, node, 0);
      }
    }

    method AddTail(node: ListNode?)
      requires Valid()
      requires node != null ==> node != root && node !in nodes
      modifies this, root, nodes, node
      ensures Valid()
      ensures nodes == if node == null then old(nodes) else old(nodes) + [node]
    {
      assert At(root, nodes, |nodes|).next == root;
      if node != null {
        Add(root.prev, root, node, |nodes|);
      }
    }

    /** `__Del` without deleting: unlinks what is between two neighbours, here the node at index k. */
    method Unlink(prev: ListNode, next: ListNode, ghost k: nat)
      requires Valid() && k < |nodes|
      requires prev == At(root, nodes, k) && next == At(root, nodes, k + 2)
      modifies this, root, nodes
      ensures Valid()
      ensures nodes == Removed(old(nodes), k)
      ensures old(nodes)[k].prev == old(nodes[k].prev) && old(nodes)[k].next == old(nodes[k].next)
    {
      ghost var was, now := nodes, Removed(nodes, k);
      DistinctRemoved(was, k);
      AtRemoved(root, was, k);
      AtDistinct(root, was);
      AtNode(root, was, k);
      hide Removed, At, Distinct;
      prev.next := next;
      next.prev := prev;
      forall i | 0 <= i <= |now|
        ensures At(root, now, i).next == At(root, now, i + 1)
        ensures At(root, now, i + 1).prev == At(root, now, i)
      {
        var j := if i <= k then i else i + 1;
        assert At(root, now, i) == At(root, was, j);
        if i != k {
          assert At(root, now, i + 1) == At(root, was, j + 1);
          assert old(At(root, was, j).next) == At(root, was, j + 1);
        }
      }
      count := count - 1;
      nodes := now;
    }

    method Del(node: ListNode, ghost k: nat)
      requires Valid() && k < |nodes| && node == nodes[k]
      modifies this, root, nodes
      ensures Valid()
      ensures nodes == Removed(old(nodes), k)
      ensures node.prev == node && node.next == node
    {
      assert At(root, nodes, k).next == node && At(root, nodes, k + 1).next == At(root, nodes, k + 2);
      Unlink(node.prev, node.next, k);
      node.prev, node.next := node, node;
    }

    method DelHead()
      requires Valid()
      modifies this, root, nodes
      ensures Valid()
      ensures nodes == if old(nodes) == [] then [] else old(nodes)[1..]
    {
      if IsEmpty() {
        return;
      }
      assert At(root, nodes, 0).next == nodes[0];
      Del(root.next, 0);
    }

    method DelTail()
      requires Valid()
      modifies this, root, nodes
      ensures Valid()
      ensures nodes == if old(nodes) == [] then [] else old(nodes)[..|old(nodes)| - 1]
    {
      if IsEmpty() {
        return;
      }
      assert At(root, nodes, |nodes|).next == root;
      Del(root.prev, |nodes| - 1);
    }

    /** Element `index`, walking from the nearer end; the root when the list is empty, null when out of range. */
    method GetData(index: int) returns (r: ListNode?)
      requires Valid()
      ensures r == if nodes == [] then root else if 0 <= index < |nodes| then nodes[index] else null
    {
      if IsEmpty() {
        return root;
      }
      if index < 0 || index >= count {
        return null;
      }
      var temp := root;
      if index >= count / 2 {
        var tempIndex := count;
        while index != tempIndex
          invariant index <= tempIndex <= |nodes|
          invariant temp == At(root, nodes, tempIndex + 1)
        {
          assert At(root, nodes, tempIndex).next == At(root, nodes, tempIndex + 1);
          tempIndex := tempIndex - 1;
          temp := temp.prev;
        }
      } else {
        var tempIndex := -1;
        while index != tempIndex
          invariant -1 <= tempIndex <= index
          invariant temp == At(root, nodes, tempIndex + 1)
          decreases index - tempIndex
        {
          assert At(root, nodes, tempIndex + 1).next == At(root, nodes, tempIndex + 2);
          tempIndex := tempIndex + 1;
          temp := temp.next;
        }
      }
      return temp;
    }

    method DelWithIndex(index: int)
      requires Valid()
      modifies this, root, nodes
      ensures Valid()
      ensures nodes == if 0 <= index < |old(nodes)| then Removed(old(nodes), index) else old(nodes)
    {
      if IsEmpty() {
        return;
      }
      var temp := GetData(index);
      if temp != null {
        assert At(root, nodes, index).next == temp && At(root, nodes, index + 1).next == At(root, nodes, index + 2);
        Unlink(temp.prev, temp.next, index);
      }
    }

    method MoveHead(node: ListNode, ghost k: nat)
      requires Valid() && k < |nodes| && node == nodes[k]
      modifies this, root, nodes
      ensures Valid()
      ensures nodes == [node] + Removed(old(nodes), k)
    {
      assert At(root, nodes, k).next == node && At(root, nodes, k + 1).next == At(root, nodes, k + 2);
      DistinctRemoved(nodes, k);
      Unlink(node.prev, node.next, k);
      AddHead(node);
    }

    method MoveTail(node: ListNode, ghost k: nat)
      requires Valid() && k < |nodes| && node == nodes[k]
      modifies this, root, nodes
      ensures Valid()
      ensures nodes == Removed(old(nodes), k) + [node]
    {
      assert At(root, nodes, k).next == node && At(root, nodes, k + 1).next == At(root, nodes, k + 2);
      DistinctRemoved(nodes, k);
      Unlink(node.prev, node.next, k);
      AddTail(node);
    }

    /** The pointer writes of `Append`: joins the other ring's nodes between this ring's last node and its root. */
    method Join(from: List)
      requires Valid() && from.Valid() && from.nodes != []
      requires from.root != root && root !in from.nodes && from.root !in nodes
      requires forall x :: x in nodes ==> x !in from.nodes
      modifies root, nodes, from.nodes
      ensures Linked(root, nodes + from.nodes)
    {
      ghost var mine, theirs := nodes, from.nodes;
      AtAppended(root, from.root, mine, theirs);
      AtApart(root, from.root, mine, theirs);
      assert At(root, mine, |mine|).next == root;
      assert At(from.root, theirs, 0).next == theirs[0];
      assert At(from.root, theirs, |theirs|).next == from.root;
      var head, tail, last := from.root.next, from.root.prev, root.prev;
      assert last == root || last in mine;
      assert head in theirs && tail in theirs;
      last.next := head;
      head.prev := last;
      tail.next := root;
      root.prev := tail;
      forall i | 0 <= i < |mine|
        ensures At(root, mine, i).next == At(root, mine, i + 1)
        ensures At(root, mine, i + 1).prev == At(root, mine, i)
      {
        assert old(At(root, mine, i).next) == At(root, mine, i + 1);
      }
      forall i | 1 <= i < |theirs|
        ensures At(from.root, theirs, i).next == At(from.root, theirs, i + 1)
        ensures At(from.root, theirs, i + 1).prev == At(from.root, theirs, i)
      {
        assert old(At(from.root, theirs, i).next) == At(from.root, theirs, i + 1);
      }
      Spliced(root, from.root, mine, theirs);
    }

    /** Splices the whole of another list onto the end of this one, leaving it empty. */
    method Append(from: List)
      requires Valid() && from.Valid() && from != this
      requires from.root != root && root !in from.nodes && from.root !in nodes
      requires forall x :: x in nodes ==> x !in from.nodes
      modifies this, root, nodes, from, from.root, from.nodes
      ensures Valid() && from.Valid()
      ensures nodes == old(nodes) + old(from.nodes) && from.nodes == []
    {
      if from.IsEmpty() {
        return;
      }
      DistinctAppended(nodes, from.nodes);
      Join(from);
      hide At, Distinct, Chain, Linked;
      count := count + from.count;
      nodes := nodes + from.nodes;
      from.Init();
    }

    method Clear()
      requires Valid()
      modifies this, root, nodes
      ensures Valid() && nodes == []
    {
      while !IsEmpty()
        invariant Valid()
        invariant |nodes| <= |old(nodes)| && nodes == old(nodes)[|old(nodes)| - |nodes|..]
        decreases |nodes|
      {
        assert forall x :: x in nodes ==> x in old(nodes);
        DelHead();
      }
      count := 0;
    }
  }
}
