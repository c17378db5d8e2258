/** The circular iterator of libs/iterator.c: a cycle from `head` to `last` and a cursor that
    goes round it. */
module IteratorRing {
  import opened Tallies
  import opened Wire

  class IterNode<T> {
    var infoBlock: T
    var next: IterNode?<T>

    // create_iterator
    constructor (infoBlock: T)
      ensures this.infoBlock == infoBlock && next == null
    {
      this.infoBlock, next := infoBlock, null;
    }
  }

  // The index after k on a cycle of n.
  function After(k: nat, n: nat): (r: nat)
    requires k < n
    ensures r < n
  {
    if k + 1 == n then 0 else k + 1
  }

  class Ring<T> {
    var listLen: nat
    var head: IterNode?<T>
    var last: IterNode?<T>
    var forwardCurr: IterNode?<T>
    ghost var Nodes: seq<IterNode<T>>   // the cycle, from head to last

    // When the ring is empty, `head` and `last` may be left over from a freed node.
    ghost predicate Valid()
      reads this, Nodes
    {
      && listLen == |Nodes|
      && (forall i, j :: 0 <= i < j < |Nodes| ==> Nodes[i] != Nodes[j])
      && (Nodes != [] ==> head == Nodes[0] && last == Nodes[|Nodes| - 1])
      && (forall i {:trigger Nodes[i].next} :: 0 <= i < |Nodes| ==> Nodes[i].next == Nodes[After(i, |Nodes|)])
    }

    constructor ()
      ensures Valid() && Nodes == [] && forwardCurr == null
    {
      listLen, head, last, forwardCurr, Nodes := 0, null, null, null, [];
    }

    method Link(node: IterNode<T>)
      requires Valid() && node !in Nodes
      modifies this, Nodes, node
      ensures Valid() && Nodes == old(Nodes) + [node]
      ensures forwardCurr == if old(Nodes) == [] then node else old(forwardCurr)
      ensures forall n :: n in Nodes ==> n.infoBlock == old(n.infoBlock)
    {
      if listLen == 0 {
        head, last := node, node;
        node.next := head;
        forwardCurr := head;
        listLen := listLen + 1;
      } else {
        last.next := node;
        node.next := head;
        last := node;
        listLen := listLen + 1;
      }
      Nodes := Nodes + [node];
    }

    // The walk to the predecessor, starting at the node itself: it ends within one lap.
    method Predecessor(node: IterNode<T>, ghost k: nat) returns (prev: IterNode<T>)
      requires Valid() && k < |Nodes| && Nodes[k] == node
      ensures prev == Nodes[if k == 0 then |Nodes| - 1 else k - 1]
    {
      prev := node;
      ghost var at: nat, left: nat := k, |Nodes| - 1;
      while prev.next != node
        invariant at < |Nodes| && prev == Nodes[at]
        invariant left == if at < k then k - 1 - at else |Nodes| - 1 - at + k
        decreases left
      {
        prev := prev.next;
        at, left := After(at, |Nodes|), left - 1;
      }
    }

    method RemoveHead(node: IterNode<T>) returns (hold: T)
      requires Valid() && Nodes != [] && Nodes[0] == node
      modifies this, Nodes
      ensures Valid() && Nodes == Without(old(Nodes), 0)
      ensures hold == old(node.infoBlock) && forwardCurr == old(forwardCurr)
      ensures forall n :: n in Nodes ==> n.infoBlock == old(n.infoBlock)
    {
      listLen := listLen - 1;
      head := node.next;
      last.next := head;
      hold := node.infoBlock;
      Nodes := Without(Nodes, 0);
    }

    method RemoveInner(node: IterNode<T>, ghost k: nat) returns (hold: T)
      requires Valid() && 0 < k < |Nodes| && Nodes[k] == node
      modifies this, Nodes
      ensures Valid() && Nodes == Without(old(Nodes), k)
      ensures hold == old(node.infoBlock) && forwardCurr == old(forwardCurr)
      ensures forall n :: n in Nodes ==> n.infoBlock == old(n.infoBlock)
    {
      var prev := Predecessor(node, k);
      prev.next := node.next;
      if node == last { last := prev; }
      hold := node.infoBlock;
      listLen := listLen - 1;
      ghost var s := Nodes;
      Nodes := Without(Nodes, k);
      forall i | 0 <= i < |Nodes| ensures Nodes[i].next == Nodes[After(i, |Nodes|)] {
        ghost var j := if i < k then i else i + 1;
        assert Nodes[i] == s[j] && old(s[j].next) == s[After(j, |s|)];
        assert s[j] != prev ==> s[j].next == old(s[j].next);
      }
    }

    /** Takes a node off the cycle and frees it; NULL for a NULL node. The cursor is not looked
        at: it stays on the cycle exactly when it was not on the node removed. */
    method Remove(node: IterNode?<T>, ghost k: nat) returns (hold: Option<T>)
      requires Valid() && (node != null ==> k < |Nodes| && Nodes[k] == node)
      modifies this, Nodes
      ensures Valid() && forwardCurr == old(forwardCurr)
      ensures node == null ==> hold == None && Nodes == old(Nodes)
      ensures node != null ==> hold == Some(old(node.infoBlock)) && Nodes == Without(old(Nodes), k)
      ensures old(forwardCurr) in old(Nodes) ==> (forwardCurr in Nodes <==> forwardCurr != node)
      ensures forall n :: n in Nodes ==> n.infoBlock == old(n.infoBlock)
    {
      if node == null { return None; }
      forall n ensures n in Without(Nodes, k) <==> n in Nodes && n != node { WithoutMembers(Nodes, k, n); }
      var block;
      if node == head {
        block := RemoveHead(node);
      } else {
        block := RemoveInner(node, k);
      }
      hold := Some(block);
    }

    method MoveForward() returns (curr: IterNode?<T>)
      requires Valid() && (forwardCurr == null || forwardCurr in Nodes)
      modifies this`forwardCurr
      ensures Valid() && curr == forwardCurr
      ensures old(forwardCurr) == null ==> curr == null
      ensures forall k :: 0 <= k < |Nodes| && Nodes[k] == old(forwardCurr) ==> curr == Nodes[After(k, |Nodes|)]
    {
      if forwardCurr == null { return null; }
      forwardCurr := forwardCurr.next;
      curr := forwardCurr;
    }

    method GoRound(ghost c: nat) returns (visited: seq<IterNode?<T>>)
      requires Valid() && c < |Nodes| && forwardCurr == Nodes[c]
      modifies this`forwardCurr
      ensures Valid() && forwardCurr == old(forwardCurr)
      ensures visited == Visits(Nodes, c, |Nodes|)
    {
      assert listLen == |Nodes|;
      hide Valid;
      visited := [];
      ghost var at: nat := c;
      while |visited| < listLen
        invariant Valid() && |visited| <= listLen && at < |Nodes| && forwardCurr == Nodes[at]
        invariant at == Wrap(c + |visited|, |Nodes|)
        invariant visited == Visits(Nodes, c, |visited|)
      {
        var curr := MoveForward();
        at := After(at, |Nodes|);
        visited := visited + [curr];
      }
    }

    /** One lap of forward moves from any place on the cycle meets every node exactly once, in
        cycle order, and comes back to where it started. */
    method Lap(ghost c: nat) returns (visited: seq<IterNode?<T>>)
      requires Valid() && c < |Nodes| && forwardCurr == Nodes[c]
      modifies this`forwardCurr
      ensures Valid() && forwardCurr == old(forwardCurr)
      ensures visited == Nodes[c + 1..] + Nodes[..c + 1]
    {
      hide Valid;
      visited := GoRound(c);
      VisitsRotate(Nodes, c);
    }
  }

  function Wrap(k: nat, n: nat): nat { if k < n then k else k - n }

  // The first m nodes that forward moves from index c come to.
  ghost function Visits<T>(nodes: seq<T>, c: nat, m: nat): seq<T>
    requires c < |nodes| && m <= |nodes|
  {
    if m == 0 then [] else Visits(nodes, c, m - 1) + [nodes[Wrap(c + m, |nodes|)]]
  }

  lemma {:induction false} VisitsAt<T>(nodes: seq<T>, c: nat, m: nat)
    requires c < |nodes| && m <= |nodes|
    ensures |Visits(nodes, c, m)| == m
    ensures forall k :: 0 <= k < m ==> Visits(nodes, c, m)[k] == nodes[Wrap(c + 1 + k, |nodes|)]
  {
    if m > 0 {
      VisitsAt(nodes, c, m - 1);
    }
  }

  lemma VisitsRotate<T>(nodes: seq<T>, c: nat)
    requires c < |nodes|
    ensures Visits(nodes, c, |nodes|) == nodes[c + 1..] + nodes[..c + 1]
  {
    VisitsAt(nodes, c, |nodes|);
  }

  /** What a lap visits is every node exactly once. */
  lemma LapMeetsEachOnce<T>(nodes: seq<T>, c: nat)
    requires c < |nodes| && forall i, j :: 0 <= i < j < |nodes| ==> nodes[i] != nodes[j]
    ensures forall n :: n in nodes ==> multiset(nodes[c + 1..] + nodes[..c + 1])[n] == 1
  {
    RotationKeepsAll(nodes, c + 1);
    forall n | n in nodes ensures multiset(nodes)[n] == 1 {
      EachOnce(nodes, n);
    }
  }

  lemma RotationKeepsAll<T>(s: seq<T>, k: nat)
    requires k <= |s|
    ensures multiset(s[k..] + s[..k]) == multiset(s)
  {
    assert s == s[..k] + s[k..];
  }

  lemma {:induction false} EachOnce<T>(s: seq<T>, x: T)
    requires x in s && forall i, j :: 0 <= i < j < |s| ==> s[i] != s[j]
    ensures multiset(s)[x] == 1
  {
    var n := |s| - 1;
    assert s == s[..n] + [s[n]];
    if s[n] == x {
      assert x !in s[..n];
    } else {
      EachOnce(s[..n], x);
    }
  }
}
