/** What happens when a session that has authenticated sends AUTH again. Its id changes while its
    old entry and its queue stay: the table names a session that no longer has the id, and a
    waiting message is queued again and destroyed all the same. With the exact conditions, and
    runs in which it happens. */
module Reauthentication {
  import opened Wire
  import opened Protocol
  import opened Tallies
  import opened RoutingSafety
  import opened Runs

  // The session has an entry, and the packet names an existing user other than its own.
  predicate Rebinds(s: State, e: Event)
    requires e.Recv? && Enabled(s, e)
  {
    var me, id := s.sessions[e.sid], ClaimedId(s, e.pk);
    Lookup(s, me.userid) == Some(e.sid) && id.Some? && id.value != me.userid
  }

  /** Re-authentication: an AUTH packet keeps the table sound exactly when it does not rebind a
      session that already has an entry. */
  lemma ReauthenticationBreaksTable(s: State, e: Event)
    requires TableSound(s) && e.Recv? && Enabled(s, e) && e.pk.ptype == AUTH_PACKET
    ensures TableSound(Step(s, e)) <==> !Rebinds(s, e)
  {
    var i, me, r := e.sid, s.sessions[e.sid], Step(s, e);
    var o := Fresh(s, e);
    assert r == Interpret(Allocated(s), i, o, e.env);
    assert Routed(Allocated(s), i, o).None?;
    if Rebinds(s, e) {
      assert me.userid in r.table && r.table[me.userid] == i && r.sessions[i].userid != me.userid;
    } else {
      forall id | id in r.table
        ensures 1 <= id && r.table[id] < |r.sessions|
        ensures r.sessions[r.table[id]].live && r.sessions[r.table[id]].userid == id
        ensures r.sessions[r.table[id]].auth != NotAuth
      {
        if id in s.table { assert s.sessions[s.table[id]].userid == id; }
      }
    }
  }

  /** And it keeps what is queued addressed to its session exactly when the session keeps its
      id or has nothing queued. */
  lemma ReauthenticationMisroutes(s: State, e: Event)
    requires SessionsSound(s) && e.Recv? && Enabled(s, e) && e.pk.ptype == AUTH_PACKET
    ensures SessionsSound(Step(s, e)) <==>
            !(ClaimedId(s, e.pk).Some? && ClaimedId(s, e.pk).value != s.sessions[e.sid].userid
              && s.sessions[e.sid].queue != [])
  {
    var i, me, r := e.sid, s.sessions[e.sid], Step(s, e);
    assert r == Interpret(Allocated(s), i, Fresh(s, e), e.env);
    assert r.sessions[i].queue == me.queue && r.users == s.users;
    assert SessionSound(me, |s.users|);
    if ClaimedId(s, e.pk).Some? && ClaimedId(s, e.pk).value != me.userid && me.queue != [] {
      assert me.queue[0] in me.queue && Relayable(me.queue[0], me.userid);
      assert !Relayable(me.queue[0], r.sessions[i].userid);
      assert !SessionSound(r.sessions[i], |s.users|);
    } else {
      forall k | 0 <= k < |r.sessions| ensures SessionSound(r.sessions[k], |r.users|) {
        assert SessionSound(s.sessions[k], |s.users|);
      }
    }
  }

  // ---------- packet objects ----------

  // The handler puts the very packet it was given in a queue.
  predicate Forwards(s: State, i: nat, pk: Packet)
    requires i < |s.sessions|
  {
    && !TurnedAway(s, i, pk) && Lookup(s, pk.receiver).Some?
    && ((pk.ptype == MSG_PACKET && pk.receiver != s.sessions[i].userid)
        || (pk.ptype == GET_GEO_PACKET && Asking(s.sessions[i], pk)))
  }

  // What a dequeue adds to the places that hold objects, whatever it dequeues.
  lemma AnyDequeueOwned(s: State, e: Event)
    requires e.Dequeue? && Enabled(s, e)
    ensures Owned(Step(s, e)) == Owned(s) + Placed(Popped(s, e.sid), e.sid, s.sessions[e.sid].queue[0])
  {
    var i, o := e.sid, s.sessions[e.sid].queue[0];
    var t := Popped(s, i);
    var r := Interpret(t, i, o, e.env);
    PoppedOwned(s, i);
    InterpretOwned(t, i, o, e.env);
    calc {
      Owned(Step(s, e));
      Tally(r.sessions, QueueAddrs) + multiset(r.freed + [o.addr]);
      Tally(r.sessions, QueueAddrs) + (multiset(r.freed) + multiset{o.addr});
      { Regroup(Tally(r.sessions, QueueAddrs), multiset(r.freed), multiset{o.addr}); }
      Owned(r) + multiset{o.addr};
      (Owned(t) + Placed(t, i, o)) + multiset{o.addr};
      { Exchange(Owned(t), Placed(t, i, o), multiset{o.addr}); }
      Owned(s) + Placed(t, i, o);
    }
  }

  /** A dequeue keeps objects apart exactly when the handler neither forwards nor destroys the
      packet: the loop destroys it in any case. */
  lemma DequeueKeepsOwnership(s: State, e: Event)
    requires OwnershipSound(s) && e.Dequeue? && Enabled(s, e)
    ensures OwnershipSound(Step(s, e)) <==>
            var pk := s.sessions[e.sid].queue[0].pk; !Forwards(s, e.sid, pk) && !Destroys(s, e.sid, pk)
  {
    hide Step, Owned, Placed, Forwards, Destroys, Replies;
    var i, o := e.sid, s.sessions[e.sid].queue[0];
    AnyDequeueOwned(s, e);
    HeadIsOwned(s, i);
    PlacedAgain(s, i);
    DequeueAllocates(s, e);
    OwnedAgain(s, Step(s, e), Placed(Popped(s, i), i, o), o.addr);
  }

  lemma DequeueAllocates(s: State, e: Event)
    requires e.Dequeue? && Enabled(s, e)
    ensures Step(s, e).next == if Replies(s, e.sid, s.sessions[e.sid].queue[0].pk) then s.next + 1 else s.next
  {
  }

  // Adding objects g to a sound state, all of them new but perhaps a.
  lemma OwnedAgain(s: State, r: State, g: multiset<nat>, a: nat)
    requires OwnershipSound(s) && Owned(s)[a] == 1 && a < s.next <= r.next && Owned(r) == Owned(s) + g
    requires forall x: nat :: x != a ==> g[x] == if s.next <= x < r.next then 1 else 0
    ensures OwnershipSound(r) <==> g[a] == 0
  {
    hide Owned;
    assert Owned(r)[a] == Owned(s)[a] + g[a];
    forall x: nat | x != a ensures Owned(r)[x] <= 1 && (x >= r.next ==> Owned(r)[x] == 0) {
      assert Owned(r)[x] == Owned(s)[x] + g[x];
    }
  }

  lemma HeadIsOwned(s: State, i: nat)
    requires OwnershipSound(s) && i < |s.sessions| && s.sessions[i].queue != []
    ensures var a := s.sessions[i].queue[0].addr; Owned(s)[a] == 1 && a < s.next
  {
    assert Addrs(s.sessions[i].queue)[0] == s.sessions[i].queue[0].addr;
    TallyPart(s.sessions, i, QueueAddrs);
  }

  lemma PlacedAgain(s: State, i: nat)
    requires i < |s.sessions| && s.sessions[i].queue != [] && s.sessions[i].queue[0].addr < s.next
    ensures var o := s.sessions[i].queue[0];
            var g := Placed(Popped(s, i), i, o);
            && (g[o.addr] == 0 <==> !Forwards(s, i, o.pk) && !Destroys(s, i, o.pk))
            && forall a: nat :: a != o.addr ==> g[a] == if Replies(s, i, o.pk) && a == s.next then 1 else 0
  {
    hide Placed, Forwards, Destroys, Replies;
    var o := s.sessions[i].queue[0];
    PoppedDecides(s, i, o.pk);
    PlacedParts(Popped(s, i), i, o);
  }

  // What the handler does with a packet does not depend on the queues.
  lemma PoppedDecides(s: State, i: nat, pk: Packet)
    requires i < |s.sessions| && s.sessions[i].queue != []
    ensures Forwards(Popped(s, i), i, pk) == Forwards(s, i, pk)
    ensures Destroys(Popped(s, i), i, pk) == Destroys(s, i, pk)
    ensures Replies(Popped(s, i), i, pk) == Replies(s, i, pk)
  {
  }

  lemma PlacedParts(s: State, i: nat, o: Obj)
    requires i < |s.sessions| && o.addr < s.next
    ensures var g := Placed(s, i, o);
            && (g[o.addr] == 0 <==> !Forwards(s, i, o.pk) && !Destroys(s, i, o.pk))
            && forall a: nat :: a != o.addr ==> g[a] == if Replies(s, i, o.pk) && a == s.next then 1 else 0
  {
  }

  /** A packet that is forwarded when it is dequeued waits in a queue after it was destroyed. */
  lemma ForwardedIsFreed(s: State, e: Event)
    requires e.Dequeue? && Enabled(s, e) && Forwards(s, e.sid, s.sessions[e.sid].queue[0].pk)
    ensures var o, r := s.sessions[e.sid].queue[0], Step(s, e);
            var j := s.table[o.pk.receiver];
            j < |r.sessions| && o in r.sessions[j].queue && o.addr in r.freed
  {
  }

  /** So a message that waits when its session authenticates as someone else ends up in the
      queue of that same session, destroyed. */
  lemma RebindingFreesWhatWaits(s: State, e: Event, env: Env)
    requires TableSound(s) && SessionsSound(s)
    requires e.Recv? && Enabled(s, e) && e.pk.ptype == AUTH_PACKET && Rebinds(s, e)
    requires s.sessions[e.sid].queue != [] && s.sessions[e.sid].queue[0].pk.ptype == MSG_PACKET
    ensures var i, o, t := e.sid, s.sessions[e.sid].queue[0], Step(s, e);
            var r := Step(t, Dequeue(i, env));
            && Enabled(t, Dequeue(i, env)) && i < |r.sessions| && t.sessions[i].queue[0] == o
            && o in r.sessions[i].queue && o.addr in r.freed
            && !SessionsSound(t) && !OwnershipSound(r)
  {
    var i, o, t := e.sid, s.sessions[e.sid].queue[0], Step(s, e);
    RecvStep(s, e);
    assert SessionSound(s.sessions[i], |s.users|) && Relayable(o, s.sessions[i].userid);
    assert t.sessions[i].queue == s.sessions[i].queue && t.table[o.pk.receiver] == i;
    ForwardedIsFreed(t, Dequeue(i, env));
    ReauthenticationMisroutes(s, e);
    QueuedAndFreed(Step(t, Dequeue(i, env)), i, o);
  }

  // ---------- runs in which it happens ----------

  // A logged in client registers a second user and authenticates as that user.
  function SecondUser(env: Env): seq<Event> { Crowd(1, env) + [Recv(0, MemberPacket(REG_PACKET, 1), env)] }

  /** After a legal run a client can send an AUTH packet that breaks the table. */
  lemma TableBreaks(maxConn: nat, env: Env)
    ensures var s, e := Run(Init(maxConn), SecondUser(env)), Recv(0, MemberPacket(AUTH_PACKET, 1), env);
            LegalRun(Init(maxConn), SecondUser(env)) && Enabled(s, e) && Rebinds(s, e) && !TableSound(Step(s, e))
  {
    var t := Run(Init(maxConn), Crowd(1, env));
    var reg, e := Recv(0, MemberPacket(REG_PACKET, 1), env), Recv(0, MemberPacket(AUTH_PACKET, 1), env);
    CrowdIsOnline(maxConn, 1, env);
    NewMember(t.users, 1);
    Registering(t, reg, 1);
    RunOne(t, reg);
    RunAppend(Init(maxConn), Crowd(1, env), [reg]);
    MemberCredentials(AUTH_PACKET, 1);
    ReachableIsSound(maxConn, SecondUser(env));
    ReauthenticationBreaksTable(Step(t, reg), e);
  }

  const HELLO := Packet(MSG_PACKET, 2, 1, 0, "hello")

  // Of two clients online, the second writes to the first and registers a third user.
  function Writing(env: Env): seq<Event> { [Recv(1, HELLO, env), Recv(1, MemberPacket(REG_PACKET, 2), env)] }

  lemma HelloWaits(s: State, env: Env)
    requires Crowded(s, 2)
    ensures var e := Recv(1, HELLO, env);
            Enabled(s, e) && Step(s, e) == s.(next := s.next + 1,
              sessions := s.sessions[0 := s.sessions[0].(queue := [Fresh(s, e)])])
  {
    var e := Recv(1, HELLO, env);
    RecvStep(s, e);
    assert s.sessions[1].out + [] == s.sessions[1].out;
    assert Updated(Allocated(s), 1, Fresh(s, e), env) == s.sessions[1];
    assert s.sessions[1 := s.sessions[1]] == s.sessions;
    assert s.sessions[0].queue + [Fresh(s, e)] == [Fresh(s, e)];
  }

  /** After a legal run a client that has a message waiting can send an AUTH packet after which
      its queue is not addressed to it, and the next packet it dequeues is queued again and
      destroyed. */
  lemma WaitingMessageIsFreed(maxConn: nat, env: Env)
    requires maxConn >= 1
    ensures var es, e := Crowd(2, env) + Writing(env), Recv(0, MemberPacket(AUTH_PACKET, 2), env);
            var s := Run(Init(maxConn), es);
            var t := Step(s, e);
            var r := Step(t, Dequeue(0, env));
            && LegalRun(Init(maxConn), es) && Enabled(s, e) && !SessionsSound(t)
            && Enabled(t, Dequeue(0, env)) && !OwnershipSound(r) && |r.sessions| > 0
            && t.sessions[0].queue[0] in r.sessions[0].queue && t.sessions[0].queue[0].addr in r.freed
  {
    hide Step, Run, LegalRun, OwnershipSound, SessionsSound;
    var e := Recv(0, MemberPacket(AUTH_PACKET, 2), env);
    var s := WritingRun(maxConn, env);
    ReachableIsSound(maxConn, Crowd(2, env) + Writing(env));
    MemberCredentials(AUTH_PACKET, 2);
    RebindingFreesWhatWaits(s, e, env);
  }

  lemma QueuedAndFreed(s: State, i: nat, o: Obj)
    requires i < |s.sessions| && o in s.sessions[i].queue && o.addr in s.freed
    ensures !OwnershipSound(s)
  {
    if OwnershipSound(s) {
      var k :| 0 <= k < |s.sessions[i].queue| && s.sessions[i].queue[k] == o;
      NotFreed(s, i, k);
    }
  }

  lemma WritingRun(maxConn: nat, env: Env) returns (s: State)
    requires maxConn >= 1
    ensures s == Run(Init(maxConn), Crowd(2, env) + Writing(env))
    ensures LegalRun(Init(maxConn), Crowd(2, env) + Writing(env))
    ensures |s.sessions| == 2 && s.table == OnlineTable(2) && FindUser(s.users, Member(2)) == Some(3)
    ensures var x := s.sessions[0];
            && x.live && !x.cancelled && x.auth == Authed && x.userid == 1
            && |x.queue| == 1 && x.queue[0].pk == HELLO
  {
    var s0 := Run(Init(maxConn), Crowd(2, env));
    var es := Writing(env);
    CrowdIsOnline(maxConn, 2, env);
    HelloWaits(s0, env);
    NewMember(s0.users, 2);
    Registering(Step(s0, es[0]), es[1], 2);
    s := Step(Step(s0, es[0]), es[1]);
    RunFirst(s0, es);
    RunOne(Step(s0, es[0]), es[1]);
    assert es[1..] == [es[1]];
    RunAppend(Init(maxConn), Crowd(2, env), es);
  }
}
