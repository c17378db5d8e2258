/** The linked queue of libs/queue.c. A node that is freed leaves the ghost `Spine`. */
module PacketQueue {
  import opened Wire

  class QueueNode<T> {
    var data: T
    var next: QueueNode?<T>

    constructor (data: T)
      ensures this.data == data && next == null
    {
      this.data, next := data, null;
    }
  }

  class Queue<T> {
    var head: QueueNode?<T>
    var tail: QueueNode?<T>
    ghost var Spine: seq<QueueNode<T>>   // the allocated nodes, head first
    ghost var Contents: seq<T>           // their packets
    ghost var Nodes: set<QueueNode<T>>   // all nodes the queue ever had

    ghost predicate Valid()
      reads this, Nodes
    {
      && (forall i :: 0 <= i < |Spine| ==> Spine[i] in Nodes)
      && |Contents| == |Spine|
      && (forall i, j :: 0 <= i < j < |Spine| ==> Spine[i] != Spine[j])
      && (forall i :: 0 <= i < |Spine| ==> Spine[i].data == Contents[i])
      && (forall i {:trigger Spine[i].next} :: 0 <= i < |Spine| - 1 ==> Spine[i].next == Spine[i + 1])
      && (Spine != [] ==> Spine[|Spine| - 1].next == null)
      && head == (if Spine == [] then null else Spine[0])
      && tail == (if Spine == [] then null else Spine[|Spine| - 1])
    }

    constructor ()
      ensures Valid() && Contents == [] && Nodes == {}
    {
      head, tail, Spine, Contents, Nodes := null, null, [], [], {};
    }

    predicate Empty()
      reads this
    {
      head == null
    }

    lemma EmptyMeans()
      requires Valid()
      ensures Empty() <==> Contents == []
    {
    }

    method Enqueue(data: T)
      requires Valid()
      modifies this, Nodes
      ensures Valid() && Contents == old(Contents) + [data]
      ensures old(Nodes) <= Nodes && fresh(Nodes - old(Nodes))
    {
      var np := new QueueNode(data);
      if Empty() {
        head, tail := np, np;
      } else {
        tail.next := np;
        tail := np;
      }
      Spine, Contents, Nodes := Spine + [np], Contents + [data], Nodes + {np};
    }

    // NULL from an empty queue, otherwise the oldest packet.
    method Dequeue() returns (hold: Option<T>)
      requires Valid()
      modifies this
      ensures Valid() && Nodes == old(Nodes)
      ensures old(Contents) == [] ==> hold == None && Contents == []
      ensures old(Contents) != [] ==> hold == Some(old(Contents)[0]) && Contents == old(Contents)[1..]
    {
      if Empty() { return None; }
      hold := Some(head.data);
      head := head.next;
      if head == null { tail := null; }
      Spine, Contents := Spine[1..], Contents[1..];
    }

    /** Drains the queue; `destroyed` lists the packets in the order they are destroyed, each
        of them once. */
    method Destroy() returns (destroyed: seq<T>)
      requires Valid()
      modifies this
      ensures Valid() && Contents == [] && Nodes == old(Nodes)
      ensures destroyed == old(Contents)
    {
      hide Valid, Empty;
      destroyed := [];
      EmptyMeans();
      while !Empty()
        invariant Valid() && Nodes == old(Nodes)
        invariant destroyed + Contents == old(Contents)
        invariant Empty() <==> Contents == []
        decreases |Contents|
      {
        var pk := Dequeue();
        destroyed := destroyed + [pk.value];
        EmptyMeans();
      }
    }
  }
}
