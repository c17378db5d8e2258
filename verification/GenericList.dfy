/** The doubly linked list of libs/generic_linked_list.c. A node that is freed leaves the ghost
    `Spine`. The invariant is the one the code really keeps: `prev` is right for every node
    except possibly the head, because removing the head leaves its successor's `prev` behind. */
module GenericList {
  import opened Wire
  import opened Tallies

  // `data` None is a NULL pointer.
  class ListNode<T> {
    var data: Option<T>
    var next: ListNode?<T>
    var prev: ListNode?<T>

    // create_list_node
    constructor (data: Option<T>)
      ensures this.data == data && next == null && prev == null
    {
      this.data, next, prev := data, null, null;
    }
  }

  class List<T> {
    var head: ListNode?<T>
    var tail: ListNode?<T>
    var listLen: int
    ghost var Spine: seq<ListNode<T>>

    ghost predicate Valid()
      reads this, Spine
    {
      && listLen == |Spine|
      && (forall i, j :: 0 <= i < j < |Spine| ==> Spine[i] != Spine[j])
      && (forall i {:trigger Spine[i].next} :: 0 <= i < |Spine| - 1 ==> Spine[i].next == Spine[i + 1])
      && (forall i {:trigger Spine[i].prev} :: 1 <= i < |Spine| ==> Spine[i].prev == Spine[i - 1])
      && (Spine != [] ==> Spine[|Spine| - 1].next == null)
      && head == (if Spine == [] then null else Spine[0])
      && tail == (if Spine == [] then null else Spine[|Spine| - 1])
    }

    ghost function Contents(): seq<Option<T>>
      reads this, Spine
    {
      seq(|Spine|, i requires 0 <= i < |Spine| reads this, Spine => Spine[i].data)
    }

    constructor ()
      ensures Valid() && Spine == [] && listLen == 0
    {
      head, tail, listLen, Spine := null, null, 0, [];
    }

    predicate Empty()
      reads this
    {
      head == null
    }

    // A NULL node is refused. The node's own `prev` is not written when it becomes the only one.
    method Append(node: ListNode?<T>) returns (status: int)
      requires Valid() && (node != null ==> node !in Spine && node.next == null)
      modifies this, Spine, {node}
      ensures Valid() && status == if node == null then -1 else 0
      ensures node == null ==> Spine == old(Spine) && Contents() == old(Contents())
      ensures node != null ==>
        && Spine == old(Spine) + [node] && listLen == old(listLen) + 1
        && Contents() == old(Contents()) + [node.data] && node.data == old(node.data)
    {
      if node == null { return -1; }
      if Empty() {
        head, tail := node, node;
        listLen := listLen + 1;
      } else {
        tail.next := node;
        node.prev := tail;
        tail := node;
        listLen := listLen + 1;
      }
      Spine := Spine + [node];
      status := 0;
    }

    method PushBack(data: Option<T>)
      requires Valid()
      modifies this, Spine
      ensures Valid() && Contents() == old(Contents()) + [data]
      ensures |Spine| == |old(Spine)| + 1 && Spine[..|old(Spine)|] == old(Spine) && fresh(Spine[|old(Spine)|])
    {
      var np := new ListNode(data);
      if Empty() {
        head, tail := np, np;
        listLen := listLen + 1;
      } else {
        np.prev := tail;
        tail.next := np;
        tail := np;
        listLen := listLen + 1;
      }
      Spine := Spine + [np];
    }

    method PushFront(data: Option<T>)
      requires Valid()
      modifies this, Spine
      ensures Valid() && Contents() == [data] + old(Contents())
      ensures |Spine| == |old(Spine)| + 1 && Spine[1..] == old(Spine) && fresh(Spine[0]) && Spine[0].data == data
      ensures forall n :: n in old(Spine) ==> n.data == old(n.data)
    {
      var np := new ListNode(data);
      if Empty() {
        head, tail := np, np;
        listLen := listLen + 1;
      } else {
        np.next := head;
        head.prev := np;
        head := np;
        listLen := listLen + 1;
      }
      Spine := [np] + Spine;
    }

    method PopFront() returns (hold: Option<T>)
      requires Valid()
      modifies this, Spine
      ensures Valid() && listLen == |Spine|
      ensures old(Spine) == [] ==> hold == None && Spine == []
      ensures old(Spine) != [] ==>
        Spine == old(Spine)[1..] && hold == old(Spine[0].data)
      ensures forall n :: n in old(Spine) ==> n.data == old(n.data)
    {
      if Empty() { return None; }
      hold := head.data;
      head := head.next;
      if head == null { tail := null; } else { head.prev := null; }
      listLen := listLen - 1;
      Spine := Spine[1..];
    }

    // The only node left, and its `prev` still names a node that was removed.
    ghost predicate StaleHead()
      reads this, Spine
    {
      |Spine| == 1 && Spine[0].prev != null
    }

    /** Correct exactly when the head is not stale. Otherwise the length drops to 0 while `head`
        still names the freed node, which no list satisfies. */
    method PopBack() returns (hold: Option<T>)
      requires Valid()
      modifies this, Spine, set n | n in Spine :: n.prev
      ensures old(Spine) == [] ==> hold == None && Valid() && Spine == []
      ensures old(Spine) != [] ==> hold == old(Spine[|Spine| - 1].data)
      ensures old(Spine) != [] && !old(StaleHead()) ==>
        Valid() && Spine == old(Spine)[..|old(Spine)| - 1] && Contents() == old(Contents())[..|old(Spine)| - 1]
      ensures old(StaleHead()) ==> listLen == 0 && head == old(head) != null
    {
      if Empty() { return None; }
      hold := tail.data;
      tail := tail.prev;
      if tail == null { head := null; } else { tail.next := null; }
      listLen := listLen - 1;
      Spine := Spine[..|Spine| - 1];
    }

    /** Insertion behind a node that is not the last (behind the last one the code follows a
        NULL pointer), or in front when no node is given. The success path runs into the error
        path, so the destructor is called on the data just inserted: `disposed`. */
    method InsertNextTo(data: Option<T>, nextTo: ListNode?<T>) returns (done: bool, disposed: seq<T>, ghost at: nat)
      requires Valid()
      requires nextTo != null ==> nextTo in Spine && nextTo != Spine[|Spine| - 1]
      modifies this, Spine
      ensures Valid() && done == data.Some?
      ensures data.None? ==> Spine == old(Spine) && disposed == []
      ensures data.Some? ==> disposed == [data.value] && at <= |old(Spine)| && |Spine| == |old(Spine)| + 1
      ensures data.Some? ==> if nextTo == null then at == 0 else at > 0 && old(Spine)[at - 1] == nextTo
      ensures data.Some? ==>
        Spine == old(Spine)[..at] + [Spine[at]] + old(Spine)[at..] && fresh(Spine[at]) && Spine[at].data == data
      ensures forall n :: n in old(Spine) ==> n.data == old(n.data)
    {
      if data.None? { return false, [], 0; }
      if nextTo == null {
        PushFront(data);
        at := 0;
      } else {
        ghost var k :| 0 <= k < |Spine| && Spine[k] == nextTo;
        at := k + 1;
        InsertAfter(data, nextTo, at);
      }
      return true, [data.value], at;
    }

    method InsertAfter(data: Option<T>, nextTo: ListNode<T>, ghost at: nat)
      requires Valid() && 0 < at < |Spine| && Spine[at - 1] == nextTo
      modifies this, Spine
      ensures Valid() && |Spine| == |old(Spine)| + 1
      ensures Spine == old(Spine)[..at] + [Spine[at]] + old(Spine)[at..] && fresh(Spine[at]) && Spine[at].data == data
      ensures forall n :: n in old(Spine) ==> n.data == old(n.data)
    {
      var np := new ListNode(data);
      np.next := nextTo.next;
      np.prev := nextTo;
      nextTo.next.prev := np;
      nextTo.next := np;
      listLen := listLen + 1;
      ghost var s := Spine;
      Spine := s[..at] + [np] + s[at..];
      forall i | 0 <= i < |s| ensures Spine[i].next == Spine[i + 1] && Spine[i + 1].prev == Spine[i] {
        if i + 1 < at {
          assert old(s[i].next) == s[i + 1] && old(s[i + 1].prev) == s[i];
        } else if i > at {
          assert old(s[i - 1].next) == s[i] && old(s[i].prev) == s[i - 1];
        }
      }
    }

    /** Takes a node out of the list and frees it. A node that was never linked has two NULL
        links and is not the head; every linked node fails that test, so it is never mistaken
        for one, and freeing a node that was never linked leaves the list alone. */
    method DestroyListNode(node: ListNode<T>) returns (disposed: seq<T>, ghost at: nat)
      requires Valid()
      requires node in Spine || (node.next == null && node.prev == null)
      modifies this, Spine
      ensures Valid()
      ensures node !in old(Spine) ==> Spine == old(Spine)
      ensures node !in old(Spine) ==> forall n :: n in Spine ==> n.next == old(n.next) && n.prev == old(n.prev)
      ensures node in old(Spine) ==>
        at < |old(Spine)| && old(Spine)[at] == node && Spine == Without(old(Spine), at)
      ensures forall n :: n in Spine <==> n in old(Spine) && n != node
      ensures listLen == if node in old(Spine) then old(listLen) - 1 else old(listLen)
      ensures node in old(Spine) && at == 0 ==> forall n :: n in Spine ==> n.prev == old(n.prev)
      ensures disposed == match old(node.data) { case Some(d) => [d] case None => [] }
      ensures forall n :: n in old(Spine) ==> n.data == old(n.data)
    {
      disposed := match node.data { case Some(d) => [d] case None => [] };
      if node.next == null && node.prev == null && node != head {
        return disposed, 0;
      }
      at :| 0 <= at < |Spine| && Spine[at] == node;
      forall n ensures n in Without(Spine, at) <==> n in Spine && n != node { WithoutMembers(Spine, at, n); }
      Unlink(node, at);
    }

    method UnlinkHead(node: ListNode<T>)
      requires Valid() && Spine != [] && Spine[0] == node
      modifies this
      ensures Valid() && Spine == Without(old(Spine), 0)
    {
      head := node.next;
      if head == null { tail := null; }
      listLen := listLen - 1;
      Spine := Without(Spine, 0);
    }

    method UnlinkInner(node: ListNode<T>, ghost at: nat)
      requires Valid() && 0 < at < |Spine| && Spine[at] == node
      modifies this, Spine
      ensures Valid() && Spine == Without(old(Spine), at)
      ensures forall n :: n in old(Spine) ==> n.data == old(n.data)
    {
      if node == tail { tail := node.prev; }
      node.prev.next := node.next;
      if node.next != null { node.next.prev := node.prev; }
      listLen := listLen - 1;
      Spine := Without(Spine, at);
    }

    method Unlink(node: ListNode<T>, ghost at: nat)
      requires Valid() && at < |Spine| && Spine[at] == node
      modifies this, Spine
      ensures Valid() && Spine == Without(old(Spine), at)
      ensures at == 0 ==> forall n :: n in Spine ==> n.prev == old(n.prev)
      ensures forall n :: n in old(Spine) ==> n.data == old(n.data)
    {
      if node == head {
        UnlinkHead(node);
      } else {
        UnlinkInner(node, at);
      }
    }

    /** Pops until the length is 0; the destructor meets the data in list order. */
    method Destroy() returns (disposed: seq<Option<T>>)
      requires Valid()
      modifies this, Spine
      ensures Valid() && Spine == [] && disposed == old(Contents())
    {
      disposed := [];
      assert listLen == |Spine| && (head == null <==> Spine == []);
      hide Valid;
      if head != null {
        while listLen != 0
          invariant Valid() && listLen == |Spine| <= |old(Spine)|
          invariant Spine == old(Spine)[|old(Spine)| - |Spine|..]
          invariant |disposed| == |old(Spine)| - |Spine|
          invariant forall n :: n in old(Spine) ==> n.data == old(n.data)
          invariant disposed == old(Contents())[..|disposed|]
          decreases listLen
        {
          assert old(Contents())[|disposed|] == old(Spine[|disposed|].data);
          var data := PopFront();
          disposed := disposed + [data];
        }
      }
    }
  }

  /** A stale head does arise: two nodes are linked and the first is destroyed. */
  method StaleHeadArises() returns (l: List<int>)
    ensures fresh(l) && l.Valid() && l.StaleHead()
  {
    l := new List<int>();
    var first := new ListNode(Some(1));
    var second := new ListNode(Some(2));
    var status := l.Append(first);
    status := l.Append(second);
    assert l.Spine == [first, second] && l.Spine[1].prev == l.Spine[0];
    var disposed, at := l.DestroyListNode(first);
    assert l.Spine == [second];
  }
}
