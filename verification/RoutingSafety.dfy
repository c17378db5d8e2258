/** What every reachable state satisfies when AUTH is handled only on sessions that have not
    authenticated: what can sit in a queue, whom the address table points to, who owns a
    packet object, and how many handlers are registered. */
module RoutingSafety {
  import opened Wire
  import opened Protocol
  import opened Tallies

  // A packet that may sit in the queue of the session of user `id`.
  predicate Relayable(o: Obj, id: int) {
    && WellFormed(o.pk) && o.pk.receiver == id
    && o.pk.ptype in {MSG_PACKET, GET_GEO_PACKET, GEO_PACKET}
    && (o.pk.ptype == GET_GEO_PACKET ==> o.pk.sender != o.pk.receiver)
  }

  // Every entry points to a live session that carries its id.
  ghost predicate TableSound(s: State) {
    forall id :: id in s.table ==>
      && 1 <= id && s.table[id] < |s.sessions|
      && s.sessions[s.table[id]].live && s.sessions[s.table[id]].userid == id
      && s.sessions[s.table[id]].auth != NotAuth
  }

  ghost predicate SessionSound(x: Session, users: nat) {
    && (x.queue != [] ==> x.live && x.auth != NotAuth && 1 <= x.userid)
    && (x.auth == NotAuth ==> x.userid == -1)
    && (x.auth == Authed ==> 1 <= x.userid)
    && (x.userid == -1 || 1 <= x.userid <= users)
    && (x.linked ==> x.live)
    && (forall o :: o in x.queue ==> Relayable(o, x.userid))
  }

  ghost predicate SessionsSound(s: State) {
    forall i :: 0 <= i < |s.sessions| ==> SessionSound(s.sessions[i], |s.users|)
  }

  function QueueAddrs(x: Session): multiset<nat> { multiset(Addrs(x.queue)) }

  // Every place that holds a packet object: a position of a queue, or the heap's free list.
  function Owned(s: State): multiset<nat> { Tally(s.sessions, QueueAddrs) + multiset(s.freed) }

  ghost predicate OwnershipSound(s: State) {
    forall a: nat :: Owned(s)[a] <= 1 && (a >= s.next ==> Owned(s)[a] == 0)
  }

  function Link(x: Session): multiset<bool> { if x.linked then multiset{true} else multiset{} }

  ghost predicate ListSound(s: State) {
    s.listLen == |Tally(s.sessions, Link)| && s.listLen <= s.maxConn + 1
  }

  // A session that is in the table, or may still enter it, is in the list of threads.
  ghost predicate LinksSound(s: State) {
    && (forall id :: id in s.table ==> s.table[id] < |s.sessions| && s.sessions[s.table[id]].linked)
    && (forall i :: 0 <= i < |s.sessions| && s.sessions[i].live && s.sessions[i].auth == NotAuth ==>
          s.sessions[i].linked)
  }

  ghost predicate Inv(s: State) {
    TableSound(s) && SessionsSound(s) && OwnershipSound(s) && ListSound(s) && LinksSound(s)
  }

  // ---------- handling one packet ----------

  // What a packet may be when a session starts to handle it.
  ghost predicate Handleable(s: State, i: nat, o: Obj) {
    && Alive(s, i) && WellFormed(o.pk) && Defined(s, i, o.pk)
    && (o.pk.ptype == AUTH_PACKET ==> s.sessions[i].auth == NotAuth)
  }

  lemma ReplyIsRelayable(s: State, i: nat, pk: Packet)
    requires i < |s.sessions| && WellFormed(pk)
    ensures Relayable(GeoReply(s, i, pk), pk.sender)
  {
  }

  // The target of a delivery is online under the receiver's id.
  lemma DeliveryIsRelayable(s: State, i: nat, o: Obj)
    requires TableSound(s) && Handleable(s, i, o) && Routed(s, i, o).Some?
    ensures var d := Routed(s, i, o).value;
            && s.sessions[d.target].live && s.sessions[d.target].auth != NotAuth
            && 1 <= s.sessions[d.target].userid
            && Relayable(d.what, s.sessions[d.target].userid)
            && o.pk.ptype != AUTH_PACKET
  {
    ReplyIsRelayable(s, i, o.pk);
  }

  lemma UpdatedIsSound(s: State, i: nat, o: Obj, env: Env)
    requires TableSound(s) && SessionsSound(s) && Handleable(s, i, o)
    ensures SessionSound(Updated(s, i, o, env), |s.users|)
  {
    var me, you := s.sessions[i], Updated(s, i, o, env);
    assert SessionSound(me, |s.users|);
    if o.pk.ptype == AUTH_PACKET { assert me.queue == [] == you.queue; }
  }

  lemma InterpretKeepsSessions(s: State, i: nat, o: Obj, env: Env)
    requires TableSound(s) && SessionsSound(s) && Handleable(s, i, o)
    ensures SessionsSound(Interpret(s, i, o, env))
  {
    var r := Interpret(s, i, o, env);
    UpdatedIsSound(s, i, o, env);
    if Routed(s, i, o).Some? { DeliveryIsRelayable(s, i, o); }
    forall k | 0 <= k < |r.sessions| ensures SessionSound(r.sessions[k], |r.users|) {
      assert SessionSound(s.sessions[k], |s.users|);
    }
  }

  // Only an AUTH packet changes a session's id or adds an entry.
  lemma InterpretKeepsTable(s: State, i: nat, o: Obj, env: Env)
    requires TableSound(s) && SessionsSound(s) && Handleable(s, i, o)
    ensures TableSound(Interpret(s, i, o, env))
  {
    var r := Interpret(s, i, o, env);
    assert SessionSound(s.sessions[i], |s.users|);
    forall id | id in r.table
      ensures 1 <= id && r.table[id] < |r.sessions|
      ensures r.sessions[r.table[id]].live && r.sessions[r.table[id]].userid == id
      ensures r.sessions[r.table[id]].auth != NotAuth
    {
      if id in s.table { assert s.sessions[s.table[id]].userid == id; }
    }
  }

  // ---------- ownership ----------

  lemma AddrsAppend(q: seq<Obj>, o: Obj)
    ensures multiset(Addrs(q + [o])) == multiset(Addrs(q)) + multiset{o.addr}
  {
    assert Addrs(q + [o]) == Addrs(q) + [o.addr];
  }

  lemma AddrsHead(q: seq<Obj>)
    requires q != []
    ensures multiset(Addrs(q)) == multiset(Addrs(q[1..])) + multiset{q[0].addr}
  {
    assert Addrs(q) == [q[0].addr] + Addrs(q[1..]);
  }

  function DeliveredAddr(d: Option<Delivery>): multiset<nat> {
    match d { case Some(x) => multiset{x.what.addr} case None => multiset{} }
  }

  lemma PutInQueueAddrs(ss: seq<Session>, d: Option<Delivery>)
    requires d.Some? ==> d.value.target < |ss|
    ensures Tally(PutInQueue(ss, d), QueueAddrs) == Tally(ss, QueueAddrs) + DeliveredAddr(d)
  {
    if d.Some? {
      var j, o := d.value.target, d.value.what;
      AddrsAppend(ss[j].queue, o);
      TallyGrow(ss, j, ss[j].(queue := ss[j].queue + [o]), QueueAddrs, multiset{o.addr});
    }
  }

  // What handling a packet adds to the places that hold objects: the packet itself when it is
  // forwarded or destroyed, and the reply when there is one.
  function Placed(s: State, i: nat, o: Obj): multiset<nat>
    requires i < |s.sessions|
  {
    DeliveredAddr(Routed(s, i, o)) + if Destroys(s, i, o.pk) then multiset{o.addr} else multiset{}
  }

  lemma InterpretOwned(s: State, i: nat, o: Obj, env: Env)
    requires i < |s.sessions| && Defined(s, i, o.pk)
    ensures Owned(Interpret(s, i, o, env)) == Owned(s) + Placed(s, i, o)
  {
    var ss := s.sessions[i := Updated(s, i, o, env)];
    TallyKeep(s.sessions, i, Updated(s, i, o, env), QueueAddrs);
    PutInQueueAddrs(ss, Routed(s, i, o));
    var r := Interpret(s, i, o, env);
    assert multiset(r.freed) == multiset(s.freed) + if Destroys(s, i, o.pk) then multiset{o.addr} else multiset{};
    FourSums(Tally(s.sessions, QueueAddrs), DeliveredAddr(Routed(s, i, o)), multiset(s.freed),
             if Destroys(s, i, o.pk) then multiset{o.addr} else multiset{});
  }

  // A packet taken from a queue is neither forwarded nor destroyed by its handler.
  lemma QueuedIsNotPlaced(s: State, i: nat, o: Obj, env: Env)
    requires i < |s.sessions| && s.sessions[i].auth != NotAuth && Relayable(o, s.sessions[i].userid)
    ensures !Destroys(s, i, o.pk) && !Ends(s, i, o.pk) && Messages(s, i, o, env) == s.messages
    ensures Routed(s, i, o).Some? ==> Replies(s, i, o.pk) && Routed(s, i, o).value.what == GeoReply(s, i, o.pk)
    ensures Placed(s, i, o) == if Replies(s, i, o.pk) then multiset{s.next} else multiset{}
  {
  }

  lemma PoppedOwned(s: State, i: nat)
    requires i < |s.sessions| && s.sessions[i].queue != []
    ensures Owned(s) == Owned(Popped(s, i)) + multiset{s.sessions[i].queue[0].addr}
  {
    AddrsHead(s.sessions[i].queue);
    TallyShrink(s.sessions, i, Popped(s, i).sessions[i], QueueAddrs, multiset{s.sessions[i].queue[0].addr});
    Exchange(Tally(Popped(s, i).sessions, QueueAddrs), multiset{s.sessions[i].queue[0].addr}, multiset(s.freed));
  }

  lemma CleanedUpOwned(s: State, i: nat)
    requires i < |s.sessions|
    ensures Owned(CleanedUp(s, i)) == Owned(s)
  {
    var gone := multiset(Addrs(s.sessions[i].queue));
    TallyShrink(s.sessions, i, CleanedUp(s, i).sessions[i], QueueAddrs, gone);
    Regroup(Tally(CleanedUp(s, i).sessions, QueueAddrs), gone, multiset(s.freed));
    Exchange(Tally(CleanedUp(s, i).sessions, QueueAddrs), gone, multiset(s.freed));
  }

  // ---------- one step ----------

  lemma PoppedIsSound(s: State, i: nat)
    requires Alive(s, i) && TableSound(s) && SessionsSound(s) && s.sessions[i].queue != []
    ensures TableSound(Popped(s, i)) && SessionsSound(Popped(s, i))
    ensures Relayable(s.sessions[i].queue[0], s.sessions[i].userid) && s.sessions[i].auth != NotAuth
  {
    var r := Popped(s, i);
    assert SessionSound(s.sessions[i], |s.users|);
    forall k | 0 <= k < |r.sessions| ensures SessionSound(r.sessions[k], |r.users|) {
      assert SessionSound(s.sessions[k], |s.users|);
    }
  }

  lemma CleanedUpIsSound(s: State, i: nat)
    requires Alive(s, i) && TableSound(s) && SessionsSound(s)
    ensures TableSound(CleanedUp(s, i)) && SessionsSound(CleanedUp(s, i))
  {
    var r := CleanedUp(s, i);
    forall k | 0 <= k < |r.sessions| ensures SessionSound(r.sessions[k], |r.users|) {
      assert SessionSound(s.sessions[k], |s.users|);
    }
  }

  lemma ConnectedIsSound(s: State)
    requires TableSound(s) && SessionsSound(s)
    ensures TableSound(Connected(s)) && SessionsSound(Connected(s))
  {
    var r := Connected(s);
    forall k | 0 <= k < |r.sessions| ensures SessionSound(r.sessions[k], |r.users|) {
      if k < |s.sessions| { assert SessionSound(s.sessions[k], |s.users|); }
    }
  }

  // Neither invariant looks at the heap's free list or at the allocation counter.
  lemma HeapIsIrrelevant(s: State, freed: seq<nat>, next: nat)
    requires TableSound(s) && SessionsSound(s)
    ensures TableSound(s.(freed := freed, next := next)) && SessionsSound(s.(freed := freed, next := next))
  {
  }

  // The state in which the packet of a Recv event is handled.
  function Allocated(s: State): State { s.(next := s.next + 1) }

  // Reading a packet is handling it with one more allocation made.
  lemma RecvStep(s: State, e: Event)
    requires e.Recv? && Enabled(s, e)
    ensures Step(s, e) == Interpret(Allocated(s), e.sid, Fresh(s, e), e.env)
  {
    hide Interpret;
  }

  // Looking at the queue is handling its head and destroying it, or nothing.
  lemma DequeueStep(s: State, e: Event)
    requires e.Dequeue?
    ensures !Enabled(s, e) ==> Step(s, e) == s
    ensures Enabled(s, e) ==>
              var o := s.sessions[e.sid].queue[0];
              var r := Interpret(Popped(s, e.sid), e.sid, o, e.env);
              Step(s, e) == r.(freed := r.freed + [o.addr])
  {
    hide Interpret;
  }

  lemma RecvIsHandleable(s: State, e: Event)
    requires Legal(s, e) && e.Recv? && Enabled(s, e)
    ensures Handleable(Allocated(s), e.sid, Fresh(s, e))
    ensures Step(s, e) == Interpret(Allocated(s), e.sid, Fresh(s, e), e.env)
  {
  }

  lemma RecvIsSound(s: State, e: Event)
    requires TableSound(s) && SessionsSound(s) && Legal(s, e) && e.Recv? && Enabled(s, e)
    ensures TableSound(Step(s, e)) && SessionsSound(Step(s, e))
  {
    var t := Allocated(s);
    HeapIsIrrelevant(s, s.freed, s.next + 1);
    RecvIsHandleable(s, e);
    InterpretKeepsSessions(t, e.sid, Fresh(s, e), e.env);
    InterpretKeepsTable(t, e.sid, Fresh(s, e), e.env);
  }

  lemma DequeueIsSound(s: State, e: Event)
    requires TableSound(s) && SessionsSound(s) && e.Dequeue? && Enabled(s, e)
    ensures TableSound(Step(s, e)) && SessionsSound(Step(s, e))
  {
    var i, o := e.sid, s.sessions[e.sid].queue[0];
    PoppedIsSound(s, i);
    InterpretKeepsSessions(Popped(s, i), i, o, e.env);
    InterpretKeepsTable(Popped(s, i), i, o, e.env);
    var r := Interpret(Popped(s, i), i, o, e.env);
    HeapIsIrrelevant(r, r.freed + [o.addr], r.next);
  }

  lemma StepKeepsTableAndSessions(s: State, e: Event)
    requires TableSound(s) && SessionsSound(s) && Legal(s, e)
    ensures TableSound(Step(s, e)) && SessionsSound(Step(s, e))
  {
    if Enabled(s, e) {
      match e
      case Connect => ConnectedIsSound(s);
      case Recv(_, _, _) => RecvIsSound(s, e);
      case Dequeue(_, _) => DequeueIsSound(s, e);
      case Cleanup(i) => CleanedUpIsSound(s, i);
    }
  }

  /** The packet objects a step adds to those already held somewhere: the packet it reads, if
      it is forwarded or destroyed, and the reply it makes. Dequeuing and cleaning up only move
      objects. */
  function Gained(s: State, e: Event): multiset<nat> {
    if !Enabled(s, e) then multiset{}
    else
      match e
      case Recv(i, pk, env) => Placed(Allocated(s), i, Fresh(s, e))
      case Dequeue(i, env) =>
        if Replies(Popped(s, i), i, s.sessions[i].queue[0].pk) then multiset{s.next} else multiset{}
      case _ => multiset{}
  }

  lemma DequeueOwned(s: State, e: Event)
    requires TableSound(s) && SessionsSound(s) && e.Dequeue? && Enabled(s, e)
    ensures Owned(Step(s, e)) == Owned(s) + Gained(s, e)
  {
    var i, o := e.sid, s.sessions[e.sid].queue[0];
    var t := Popped(s, i);
    var r := Interpret(t, i, o, e.env);
    PoppedIsSound(s, i);
    PoppedOwned(s, i);
    InterpretOwned(t, i, o, e.env);
    QueuedIsNotPlaced(t, i, o, e.env);
    calc {
      Owned(Step(s, e));
      Tally(r.sessions, QueueAddrs) + multiset(r.freed + [o.addr]);
      Tally(r.sessions, QueueAddrs) + (multiset(r.freed) + multiset{o.addr});
      { Regroup(Tally(r.sessions, QueueAddrs), multiset(r.freed), multiset{o.addr}); }
      Owned(r) + multiset{o.addr};
      (Owned(t) + Placed(t, i, o)) + multiset{o.addr};
      { Exchange(Owned(t), Placed(t, i, o), multiset{o.addr}); }
      Owned(s) + Placed(t, i, o);
    }
  }

  lemma ConnectOwned(s: State)
    ensures Owned(Connected(s)) == Owned(s)
  {
    var x := Connected(s).sessions[|s.sessions|];
    TallyAppendNone(s.sessions, x, QueueAddrs);
  }

  lemma RecvOwned(s: State, e: Event)
    requires e.Recv? && Enabled(s, e)
    ensures Owned(Step(s, e)) == Owned(s) + Gained(s, e)
  {
    hide Interpret, Step, Placed;
    RecvStep(s, e);
    InterpretOwned(Allocated(s), e.sid, Fresh(s, e), e.env);
  }

  lemma StepOwned(s: State, e: Event)
    requires TableSound(s) && SessionsSound(s)
    ensures Owned(Step(s, e)) == Owned(s) + Gained(s, e)
  {
    if !Enabled(s, e) {
    } else if e.Connect? {
      ConnectOwned(s);
    } else if e.Recv? {
      RecvOwned(s, e);
    } else if e.Dequeue? {
      DequeueOwned(s, e);
    } else {
      CleanedUpOwned(s, e.sid);
    }
  }

  lemma PlacedIsNew(s: State, i: nat, o: Obj, env: Env)
    requires i < |s.sessions| && Defined(s, i, o.pk) && o.addr < s.next
    ensures forall a: nat :: Placed(s, i, o)[a] <= 1
    ensures forall a: nat :: Placed(s, i, o)[a] > 0 ==> a == o.addr || s.next <= a < Interpret(s, i, o, env).next
    ensures s.next <= Interpret(s, i, o, env).next
  {
  }

  // What a step gains it has just allocated, and once.
  lemma GainedIsNew(s: State, e: Event)
    ensures forall a: nat :: Gained(s, e)[a] <= 1
    ensures forall a: nat :: Gained(s, e)[a] > 0 ==> s.next <= a < Step(s, e).next
    ensures s.next <= Step(s, e).next
  {
    if Enabled(s, e) && e.Recv? {
      PlacedIsNew(Allocated(s), e.sid, Fresh(s, e), e.env);
    }
  }

  lemma StepKeepsOwnership(s: State, e: Event)
    requires TableSound(s) && SessionsSound(s) && OwnershipSound(s)
    ensures OwnershipSound(Step(s, e))
  {
    StepOwned(s, e);
    GainedIsNew(s, e);
    var r, g := Step(s, e), Gained(s, e);
    forall a: nat ensures Owned(r)[a] <= 1 && (a >= r.next ==> Owned(r)[a] == 0) {
      assert Owned(r)[a] == Owned(s)[a] + g[a];
    }
  }

  lemma InterpretLinks(s: State, i: nat, o: Obj, env: Env)
    requires i < |s.sessions| && Defined(s, i, o.pk)
    ensures Tally(Interpret(s, i, o, env).sessions, Link) == Tally(s.sessions, Link)
  {
    TallySame(Interpret(s, i, o, env).sessions, s.sessions, Link);
  }

  lemma ConnectKeepsList(s: State)
    requires ListSound(s)
    ensures ListSound(Connected(s))
  {
    TallyAppend(s.sessions, Connected(s).sessions[|s.sessions|], Link);
  }

  lemma CleanupKeepsList(s: State, i: nat)
    requires ListSound(s) && i < |s.sessions|
    ensures ListSound(CleanedUp(s, i))
  {
    TallyShrink(s.sessions, i, CleanedUp(s, i).sessions[i], Link, Link(s.sessions[i]));
  }

  lemma DequeueKeepsList(s: State, e: Event)
    requires ListSound(s) && e.Dequeue? && Enabled(s, e)
    ensures ListSound(Step(s, e))
  {
    TallyKeep(s.sessions, e.sid, Popped(s, e.sid).sessions[e.sid], Link);
    InterpretLinks(Popped(s, e.sid), e.sid, s.sessions[e.sid].queue[0], e.env);
  }

  lemma StepKeepsList(s: State, e: Event)
    requires ListSound(s)
    ensures ListSound(Step(s, e))
  {
    if !Enabled(s, e) {
    } else if e.Connect? {
      ConnectKeepsList(s);
    } else if e.Recv? {
      InterpretLinks(Allocated(s), e.sid, Fresh(s, e), e.env);
    } else if e.Dequeue? {
      DequeueKeepsList(s, e);
    } else {
      CleanupKeepsList(s, e.sid);
    }
  }

  lemma InterpretKeepsLinks(s: State, i: nat, o: Obj, env: Env)
    requires LinksSound(s) && Handleable(s, i, o)
    ensures LinksSound(Interpret(s, i, o, env))
  {
    var r := Interpret(s, i, o, env);
    assert forall k :: 0 <= k < |r.sessions| ==> r.sessions[k].linked == s.sessions[k].linked;
    assert forall k :: 0 <= k < |r.sessions| && r.sessions[k].auth == NotAuth ==> s.sessions[k].auth == NotAuth;
  }

  lemma DequeueKeepsLinks(s: State, e: Event)
    requires TableSound(s) && SessionsSound(s) && LinksSound(s) && e.Dequeue? && Enabled(s, e)
    ensures LinksSound(Step(s, e))
  {
    var i, o := e.sid, s.sessions[e.sid].queue[0];
    PoppedIsSound(s, i);
    assert LinksSound(Popped(s, i));
    InterpretKeepsLinks(Popped(s, i), i, o, e.env);
  }

  lemma StepKeepsLinks(s: State, e: Event)
    requires TableSound(s) && SessionsSound(s) && LinksSound(s) && Legal(s, e)
    ensures LinksSound(Step(s, e))
  {
    if !Enabled(s, e) {
    } else if e.Recv? {
      RecvIsHandleable(s, e);
      assert LinksSound(Allocated(s));
      InterpretKeepsLinks(Allocated(s), e.sid, Fresh(s, e), e.env);
    } else if e.Dequeue? {
      DequeueKeepsLinks(s, e);
    }
  }

  lemma StepKeepsInv(s: State, e: Event)
    requires Inv(s) && Legal(s, e)
    ensures Inv(Step(s, e))
  {
    hide Step;
    StepKeepsTableAndSessions(s, e);
    StepKeepsOwnership(s, e);
    StepKeepsList(s, e);
    StepKeepsLinks(s, e);
  }

  // ---------- every run ----------

  lemma {:induction false} RunKeepsInv(s: State, es: seq<Event>)
    requires Inv(s) && LegalRun(s, es)
    ensures Inv(Run(s, es))
    decreases |es|
  {
    if es != [] {
      RunKeepsInv(s, es[..|es| - 1]);
      StepKeepsInv(Run(s, es[..|es| - 1]), es[|es| - 1]);
    }
  }

  lemma ReachableIsSound(maxConn: nat, es: seq<Event>)
    requires LegalRun(Init(maxConn), es)
    ensures Inv(Run(Init(maxConn), es))
  {
    RunKeepsInv(Init(maxConn), es);
  }

  // The object at position k of queue i.
  function AddrAt(s: State, i: nat, k: nat): nat
    requires i < |s.sessions| && k < |s.sessions[i].queue|
  {
    s.sessions[i].queue[k].addr
  }

  lemma OnePosition(s: State, i: nat, k: nat, j: nat, l: nat)
    requires OwnershipSound(s) && i < |s.sessions| && k < |s.sessions[i].queue|
    requires j < |s.sessions| && l < |s.sessions[j].queue| && AddrAt(s, i, k) == AddrAt(s, j, l)
    ensures i == j && k == l
  {
    var a := AddrAt(s, i, k);
    assert Addrs(s.sessions[i].queue)[k] == a && Addrs(s.sessions[j].queue)[l] == a;
    assert Owned(s)[a] <= 1;
    if i == j {
      TallyPart(s.sessions, i, QueueAddrs);
      if k < l { TwiceIn(Addrs(s.sessions[i].queue), k, l); }
      if l < k { TwiceIn(Addrs(s.sessions[i].queue), l, k); }
    } else {
      TallyTwoParts(s.sessions, if i < j then i else j, if i < j then j else i, QueueAddrs);
    }
  }

  lemma NotFreed(s: State, i: nat, k: nat)
    requires OwnershipSound(s) && i < |s.sessions| && k < |s.sessions[i].queue|
    ensures AddrAt(s, i, k) !in s.freed
  {
    assert Addrs(s.sessions[i].queue)[k] == AddrAt(s, i, k);
    TallyPart(s.sessions, i, QueueAddrs);
    assert Owned(s)[AddrAt(s, i, k)] <= 1;
  }

  /** Ownership spelled out: no packet object is at two positions of the queues, none is
      destroyed while it is queued, and none is destroyed twice. */
  lemma OwnershipMeans(s: State)
    requires OwnershipSound(s)
    ensures forall i, j, k, l ::
              0 <= i < |s.sessions| && 0 <= k < |s.sessions[i].queue| &&
              0 <= j < |s.sessions| && 0 <= l < |s.sessions[j].queue| && AddrAt(s, i, k) == AddrAt(s, j, l)
              ==> i == j && k == l
    ensures forall i, k ::
              0 <= i < |s.sessions| && 0 <= k < |s.sessions[i].queue| ==> AddrAt(s, i, k) !in s.freed
    ensures forall k, l :: 0 <= k < l < |s.freed| ==> s.freed[k] != s.freed[l]
  {
    forall i, j, k, l |
      0 <= i < |s.sessions| && 0 <= k < |s.sessions[i].queue| &&
      0 <= j < |s.sessions| && 0 <= l < |s.sessions[j].queue| && AddrAt(s, i, k) == AddrAt(s, j, l)
      ensures i == j && k == l
    {
      OnePosition(s, i, k, j, l);
    }
    forall i, k | 0 <= i < |s.sessions| && 0 <= k < |s.sessions[i].queue| ensures AddrAt(s, i, k) !in s.freed {
      NotFreed(s, i, k);
    }
    forall k, l | 0 <= k < l < |s.freed| ensures s.freed[k] != s.freed[l] {
      assert Owned(s)[s.freed[k]] <= 1;
      if s.freed[k] == s.freed[l] { TwiceIn(s.freed, k, l); }
    }
  }

  lemma TwiceIn(xs: seq<nat>, k: nat, l: nat)
    requires k < l < |xs| && xs[k] == xs[l]
    ensures multiset(xs)[xs[k]] >= 2
  {
    assert xs == xs[..l] + [xs[l]] + xs[l + 1..];
    assert xs[..l][k] == xs[k];
  }

  /** A dequeued packet is never forwarded again: when its handling is over it is destroyed,
      and it is in no queue. */
  lemma DequeuedIsGone(s: State, i: nat, env: Env)
    requires Inv(s) && Enabled(s, Dequeue(i, env))
    ensures var a, r := s.sessions[i].queue[0].addr, Step(s, Dequeue(i, env));
            a in r.freed
            && forall k, l :: 0 <= k < |r.sessions| && 0 <= l < |r.sessions[k].queue| ==> AddrAt(r, k, l) != a
  {
    StepKeepsInv(s, Dequeue(i, env));
    OwnershipMeans(Step(s, Dequeue(i, env)));
  }

  /** A queue never holds a packet its session cannot handle. */
  lemma QueuedIsDefined(s: State, i: nat, env: Env)
    requires Inv(s) && Alive(s, i)
    ensures Enabled(s, Dequeue(i, env)) <==> s.sessions[i].queue != []
  {
    assert SessionSound(s.sessions[i], |s.users|);
    if s.sessions[i].queue != [] {
      assert Relayable(s.sessions[i].queue[0], s.sessions[i].userid);
    }
  }
}
