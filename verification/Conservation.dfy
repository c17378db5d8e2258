/** Books that balance over every run: the messages clients hand over, and the requests for
    someone's location. */
module Conservation {
  import opened Wire
  import opened Protocol
  import opened Tallies
  import opened RoutingSafety
  import opened MessageFlow
  import opened Runs

  // A sum over sessions that looks at queues and sockets only.
  ghost predicate LooksAtTraffic<T>(f: Session -> multiset<T>) {
    forall x: Session, y: Session :: x.queue == y.queue && x.out == y.out ==> f(x) == f(y)
  }

  // How such a sum moves when a packet is handled.
  lemma InterpretTally<T>(s: State, i: nat, o: Obj, env: Env, f: Session -> multiset<T>,
                          written: multiset<T>, queued: multiset<T>)
    requires i < |s.sessions| && Defined(s, i, o.pk) && LooksAtTraffic(f)
    requires f(s.sessions[i].(out := s.sessions[i].out + Writes(s, i, o))) == f(s.sessions[i]) + written
    requires Routed(s, i, o).None? ==> queued == multiset{}
    requires Routed(s, i, o).Some? ==> var d := Routed(s, i, o).value;
               forall y: Session :: f(y.(queue := y.queue + [d.what])) == f(y) + queued
    ensures Tally(Interpret(s, i, o, env).sessions, f) == Tally(s.sessions, f) + (written + queued)
  {
    var x := Updated(s, i, o, env);
    assert f(x) == f(s.sessions[i]) + written;
    TallyGrow(s.sessions, i, x, f, written);
    var ss := s.sessions[i := x];
    if Routed(s, i, o).Some? {
      var d := Routed(s, i, o).value;
      TallyGrow(ss, d.target, ss[d.target].(queue := ss[d.target].queue + [d.what]), f, queued);
    }
    Regroup(Tally(s.sessions, f), written, queued);
  }

  // ---------- messages ----------

  function MsgObj(o: Obj): seq<Obj> { if o.pk.ptype == MSG_PACKET then [o] else [] }
  function MsgWrite(w: Write): seq<Obj> { if w.Msg? then [w.o] else [] }
  function RowObj(r: Row): seq<Obj> { [r.o] }

  function QueuedMsgs(x: Session): multiset<Obj> { multiset(Collect(x.queue, MsgObj)) }
  function WrittenMsgs(x: Session): multiset<Obj> { multiset(Collect(x.out, MsgWrite)) }
  function StoredMsgs(ms: seq<Row>): multiset<Obj> { multiset(Collect(ms, RowObj)) }

  // The three places where a message can be in a state.
  function Held(s: State): multiset<Obj> {
    Tally(s.sessions, WrittenMsgs) + Tally(s.sessions, QueuedMsgs) + StoredMsgs(s.messages)
  }

  // The message an event accepts from a client.
  function Accepted(s: State, e: Event): multiset<Obj> {
    if Enabled(s, e) && e.Recv? && e.pk.ptype == MSG_PACKET && s.sessions[e.sid].auth != NotAuth
    then multiset{Fresh(s, e)} else multiset{}
  }

  // The messages an event discards with a queue.
  function DiscardedMsgs(s: State, e: Event): multiset<Obj> {
    if Enabled(s, e) && e.Cleanup? then QueuedMsgs(s.sessions[e.sid]) else multiset{}
  }

  lemma WritesOneMessage(s: State, i: nat, o: Obj)
    requires i < |s.sessions| && Defined(s, i, o.pk)
    ensures Collect(Writes(s, i, o), MsgWrite)
         == if o.pk.ptype == MSG_PACKET && !TurnedAway(s, i, o.pk) && o.pk.receiver == s.sessions[i].userid
            then [o] else []
  {
    var ws := Writes(s, i, o);
    if o.pk.ptype == MSG_PACKET && ws != [] {
      assert ws[..0] == [];
    } else if Collect(ws, MsgWrite) != [] {
      var k := CollectSource(ws, MsgWrite, Collect(ws, MsgWrite)[0]);
    }
  }

  lemma {:induction false} MarkingKeepsObjects(ms: seq<Row>, id: int)
    ensures Collect(MarkReceived(ms, id), RowObj) == Collect(ms, RowObj)
  {
    if ms != [] {
      var n := |ms| - 1;
      MarkingKeepsObjects(ms[..n], id);
      assert MarkReceived(ms, id)[..n] == MarkReceived(ms[..n], id);
    }
  }

  // The place a message goes to when it is handled.
  function WrittenNow(s: State, i: nat, o: Obj): multiset<Obj>
    requires i < |s.sessions| && Defined(s, i, o.pk)
  {
    multiset(Collect(Writes(s, i, o), MsgWrite))
  }

  function QueuedNow(s: State, i: nat, o: Obj): multiset<Obj>
    requires i < |s.sessions|
  {
    match Routed(s, i, o) { case Some(d) => multiset(MsgObj(d.what)) case None => multiset{} }
  }

  predicate GoesToStore(s: State, i: nat, o: Obj)
    requires i < |s.sessions|
  {
    o.pk.ptype == MSG_PACKET && !TurnedAway(s, i, o.pk) && o.pk.receiver != s.sessions[i].userid
    && Lookup(s, o.pk.receiver).None?
  }

  function StoredNow(s: State, i: nat, o: Obj): multiset<Obj>
    requires i < |s.sessions|
  {
    if GoesToStore(s, i, o) then multiset{o} else multiset{}
  }

  lemma StoresRow(ms: seq<Row>, row: Row)
    ensures StoredMsgs(ms + [row]) == StoredMsgs(ms) + multiset{row.o}
  {
    CollectAppend(ms, row, RowObj);
  }

  lemma MarkingStoresNothing(ms: seq<Row>, id: int)
    ensures StoredMsgs(MarkReceived(ms, id)) == StoredMsgs(ms)
  {
    MarkingKeepsObjects(ms, id);
  }

  lemma MessagesCases(s: State, i: nat, o: Obj, env: Env)
    requires i < |s.sessions|
    ensures GoesToStore(s, i, o) ==> Messages(s, i, o, env) == s.messages + [Row(o, env.now, true)]
    ensures !GoesToStore(s, i, o) ==>
      Messages(s, i, o, env) == s.messages || Messages(s, i, o, env) == MarkReceived(s.messages, s.sessions[i].userid)
  {
  }

  lemma InterpretStores(s: State, i: nat, o: Obj, env: Env)
    requires i < |s.sessions| && Defined(s, i, o.pk)
    ensures StoredMsgs(Messages(s, i, o, env)) == StoredMsgs(s.messages) + StoredNow(s, i, o)
  {
    hide Messages, GoesToStore, StoredMsgs, MarkReceived;
    MessagesCases(s, i, o, env);
    StoresRow(s.messages, Row(o, env.now, true));
    MarkingStoresNothing(s.messages, s.sessions[i].userid);
  }

  lemma InterpretWrites(s: State, i: nat, o: Obj, env: Env)
    requires i < |s.sessions| && Defined(s, i, o.pk)
    ensures Tally(Interpret(s, i, o, env).sessions, WrittenMsgs) == Tally(s.sessions, WrittenMsgs) + WrittenNow(s, i, o)
  {
    CollectConcat(s.sessions[i].out, Writes(s, i, o), MsgWrite);
    InterpretTally(s, i, o, env, WrittenMsgs, WrittenNow(s, i, o), multiset{});
  }

  lemma InterpretQueues(s: State, i: nat, o: Obj, env: Env)
    requires i < |s.sessions| && Defined(s, i, o.pk)
    ensures Tally(Interpret(s, i, o, env).sessions, QueuedMsgs) == Tally(s.sessions, QueuedMsgs) + QueuedNow(s, i, o)
  {
    if Routed(s, i, o).Some? {
      var d := Routed(s, i, o).value;
      forall y: Session ensures QueuedMsgs(y.(queue := y.queue + [d.what])) == QueuedMsgs(y) + QueuedNow(s, i, o) {
        CollectAppend(y.queue, d.what, MsgObj);
      }
    }
    InterpretTally(s, i, o, env, QueuedMsgs, multiset{}, QueuedNow(s, i, o));
  }

  // A message handled goes to exactly one of the three; nothing else does.
  lemma OnePlace(s: State, i: nat, o: Obj)
    requires i < |s.sessions| && Defined(s, i, o.pk)
    ensures WrittenNow(s, i, o) + QueuedNow(s, i, o) + StoredNow(s, i, o)
         == if o.pk.ptype == MSG_PACKET && !TurnedAway(s, i, o.pk) then multiset{o} else multiset{}
  {
    hide Writes, Tokens, Collect;
    WritesOneMessage(s, i, o);
  }

  lemma SixSums<T>(a: multiset<T>, b: multiset<T>, c: multiset<T>, x: multiset<T>, y: multiset<T>, z: multiset<T>)
    ensures (a + x) + (b + y) + (c + z) == (a + b + c) + (x + y + z)
  {
  }

  lemma InterpretHeld(s: State, i: nat, o: Obj, env: Env)
    requires i < |s.sessions| && Defined(s, i, o.pk)
    ensures Held(Interpret(s, i, o, env))
         == Held(s) + if o.pk.ptype == MSG_PACKET && !TurnedAway(s, i, o.pk) then multiset{o} else multiset{}
  {
    InterpretWrites(s, i, o, env);
    InterpretQueues(s, i, o, env);
    InterpretStores(s, i, o, env);
    OnePlace(s, i, o);
    SixSums(Tally(s.sessions, WrittenMsgs), Tally(s.sessions, QueuedMsgs), StoredMsgs(s.messages),
            WrittenNow(s, i, o), QueuedNow(s, i, o), StoredNow(s, i, o));
  }

  lemma PoppedHeld(s: State, i: nat)
    requires i < |s.sessions| && s.sessions[i].queue != []
    ensures Held(s) == Held(Popped(s, i)) + multiset(MsgObj(s.sessions[i].queue[0]))
  {
    var o, x := s.sessions[i].queue[0], Popped(s, i).sessions[i];
    CollectHead(s.sessions[i].queue, MsgObj);
    TallyShrink(s.sessions, i, x, QueuedMsgs, multiset(MsgObj(o)));
    TallyKeep(s.sessions, i, x, WrittenMsgs);
    SixSums(Tally(s.sessions, WrittenMsgs), Tally(Popped(s, i).sessions, QueuedMsgs), StoredMsgs(s.messages),
            multiset{}, multiset(MsgObj(o)), multiset{});
  }

  lemma CleanedUpHeld(s: State, i: nat)
    requires i < |s.sessions|
    ensures Held(s) == Held(CleanedUp(s, i)) + QueuedMsgs(s.sessions[i])
  {
    var x := CleanedUp(s, i).sessions[i];
    TallyShrink(s.sessions, i, x, QueuedMsgs, QueuedMsgs(s.sessions[i]));
    TallyKeep(s.sessions, i, x, WrittenMsgs);
    SixSums(Tally(s.sessions, WrittenMsgs), Tally(CleanedUp(s, i).sessions, QueuedMsgs), StoredMsgs(s.messages),
            multiset{}, QueuedMsgs(s.sessions[i]), multiset{});
  }

  lemma ConnectedHeld(s: State)
    ensures Held(Connected(s)) == Held(s)
  {
    var x := Connected(s).sessions[|s.sessions|];
    TallyAppendNone(s.sessions, x, WrittenMsgs);
    TallyAppendNone(s.sessions, x, QueuedMsgs);
  }

  lemma RecvHeld(s: State, e: Event)
    requires e.Recv? && Enabled(s, e)
    ensures Held(Step(s, e)) == Held(s) + Accepted(s, e)
  {
    hide Interpret, Step;
    RecvStep(s, e);
    InterpretHeld(Allocated(s), e.sid, Fresh(s, e), e.env);
    assert Held(Allocated(s)) == Held(s);
  }

  lemma DequeueHeld(s: State, e: Event)
    requires TableSound(s) && SessionsSound(s) && e.Dequeue? && Enabled(s, e)
    ensures Held(Step(s, e)) == Held(s)
  {
    var i, o := e.sid, s.sessions[e.sid].queue[0];
    PoppedIsSound(s, i);
    PoppedHeld(s, i);
    InterpretHeld(Popped(s, i), i, o, e.env);
    assert Held(Step(s, e)) == Held(Interpret(Popped(s, i), i, o, e.env));
  }

  lemma StepBalances(s: State, e: Event)
    requires TableSound(s) && SessionsSound(s)
    ensures Held(Step(s, e)) + DiscardedMsgs(s, e) == Held(s) + Accepted(s, e)
  {
    if !Enabled(s, e) {
    } else if e.Connect? {
      ConnectedHeld(s);
    } else if e.Recv? {
      RecvHeld(s, e);
    } else if e.Dequeue? {
      DequeueHeld(s, e);
    } else {
      CleanedUpHeld(s, e.sid);
    }
  }

  // What the events of a run add up to.
  function Total<T>(s: State, es: seq<Event>, f: (State, Event) -> multiset<T>): multiset<T>
    decreases |es|
  {
    if es == [] then multiset{} else
      Total(s, es[..|es| - 1], f) + f(Run(s, es[..|es| - 1]), es[|es| - 1])
  }

  lemma Balance<T>(h: multiset<T>, d: multiset<T>, a: multiset<T>, h': multiset<T>, d1: multiset<T>, a1: multiset<T>)
    requires h + d == a && h' + d1 == h + a1
    ensures h' + (d + d1) == a + a1
  {
    assert h' + (d + d1) == (h' + d1) + d;
    assert (h + a1) + d == (h + d) + a1;
  }

  // Packets accepted are different objects.
  lemma {:induction false} AcceptedOnce(s: State, es: seq<Event>)
    ensures forall o :: Total(s, es, Accepted)[o] <= 1 && (o in Total(s, es, Accepted) ==> o.addr < Run(s, es).next)
    decreases |es|
  {
    if es != [] {
      AcceptedOnce(s, es[..|es| - 1]);
      GainedIsNew(Run(s, es[..|es| - 1]), es[|es| - 1]);
      var t, e := Run(s, es[..|es| - 1]), es[|es| - 1];
      forall o ensures Total(s, es, Accepted)[o] == Total(s, es[..|es| - 1], Accepted)[o] + Accepted(t, e)[o] {}
      assert forall o :: o in Accepted(t, e) ==> o.addr == t.next < Step(t, e).next;
    }
  }

  /** Conservation of messages: at every point of every run, each message a client handed over
      is in exactly one place: written to its receiver's socket, waiting in the receiver's
      queue, stored in the database, or discarded with a destroyed queue; and no message is
      anywhere that was not handed over. */
  lemma {:induction false} MessagesAreConserved(maxConn: nat, es: seq<Event>)
    requires LegalRun(Init(maxConn), es)
    ensures var s, r := Init(maxConn), Run(Init(maxConn), es);
            && Tally(r.sessions, WrittenMsgs) + Tally(r.sessions, QueuedMsgs) + StoredMsgs(r.messages)
                 + Total(s, es, DiscardedMsgs) == Total(s, es, Accepted)
            && forall o :: Total(s, es, Accepted)[o] <= 1
    decreases |es|
  {
    var s := Init(maxConn);
    AcceptedOnce(s, es);
    if es != [] {
      var front, e := es[..|es| - 1], es[|es| - 1];
      MessagesAreConserved(maxConn, front);
      ReachableIsSound(maxConn, front);
      StepBalances(Run(s, front), e);
      Balance(Held(Run(s, front)), Total(s, front, DiscardedMsgs), Total(s, front, Accepted),
              Held(Run(s, es)), DiscardedMsgs(Run(s, front), e), Accepted(Run(s, front), e));
    }
  }

  // ---------- requests for a location ----------

  // Who asks, and whom.
  function GeoRequest(o: Obj): seq<(int, int)> {
    if o.pk.ptype == GET_GEO_PACKET then [(o.pk.sender, o.pk.receiver)] else []
  }

  // The request a reply answers.
  function AnsweredBy(o: Obj): seq<(int, int)> {
    if o.pk.ptype == GEO_PACKET then [(o.pk.receiver, o.pk.sender)] else []
  }

  function WaitingRequests(x: Session): multiset<(int, int)> { multiset(Collect(x.queue, GeoRequest)) }

  function Waiting(s: State): multiset<(int, int)> { Tally(s.sessions, WaitingRequests) }

  // Requests an event puts in the queue of an online responder, and replies it puts in the
  // queue of an online requester; both are read off the delivery it makes.
  function Requested(s: State, e: Event): multiset<(int, int)> {
    match DeliveryOf(s, e) { case Some(d) => multiset(GeoRequest(d.what)) case None => multiset{} }
  }

  function Replied(s: State, e: Event): multiset<(int, int)> {
    match DeliveryOf(s, e) { case Some(d) => multiset(AnsweredBy(d.what)) case None => multiset{} }
  }

  // Requests an event drops because the requester has left, or discards with the queue of a
  // responder that leaves.
  function Dropped(s: State, e: Event): multiset<(int, int)> {
    if !Enabled(s, e) then multiset{}
    else if e.Cleanup? then WaitingRequests(s.sessions[e.sid])
    else if e.Dequeue? then
      var o := s.sessions[e.sid].queue[0];
      if Lookup(s, o.pk.sender).None? then multiset(GeoRequest(o)) else multiset{}
    else multiset{}
  }

  // A client sends a request that names its own user as the one asked, with another as sender.
  predicate Unasked(s: State, e: Event) {
    e.Recv? && Enabled(s, e) && Replies(Allocated(s), e.sid, e.pk)
  }

  lemma InterpretWaiting(s: State, i: nat, o: Obj, env: Env)
    requires i < |s.sessions| && Defined(s, i, o.pk)
    ensures Waiting(Interpret(s, i, o, env))
         == Waiting(s) + match Routed(s, i, o) { case Some(d) => multiset(GeoRequest(d.what)) case None => multiset{} }
  {
    if Routed(s, i, o).Some? {
      var d := Routed(s, i, o).value;
      var more := multiset(GeoRequest(d.what));
      forall y: Session ensures WaitingRequests(y.(queue := y.queue + [d.what])) == WaitingRequests(y) + more {
        CollectAppend(y.queue, d.what, GeoRequest);
      }
      InterpretTally(s, i, o, env, WaitingRequests, multiset{}, more);
    } else {
      InterpretTally(s, i, o, env, WaitingRequests, multiset{}, multiset{});
    }
  }

  lemma PoppedWaiting(s: State, i: nat)
    requires i < |s.sessions| && s.sessions[i].queue != []
    ensures Waiting(s) == Waiting(Popped(s, i)) + multiset(GeoRequest(s.sessions[i].queue[0]))
  {
    CollectHead(s.sessions[i].queue, GeoRequest);
    TallyShrink(s.sessions, i, Popped(s, i).sessions[i], WaitingRequests, multiset(GeoRequest(s.sessions[i].queue[0])));
  }

  // A request taken from a queue is replied to or dropped; nothing else taken is either.
  lemma AnsweredOrDropped(s: State, e: Event)
    requires TableSound(s) && SessionsSound(s) && e.Dequeue? && Enabled(s, e)
    ensures Replied(s, e) + Dropped(s, e) == multiset(GeoRequest(s.sessions[e.sid].queue[0]))
    ensures Requested(s, e) == multiset{}
  {
    PoppedIsSound(s, e.sid);
    QueuedIsNotPlaced(Popped(s, e.sid), e.sid, s.sessions[e.sid].queue[0], e.env);
  }

  lemma DequeueAccounts(s: State, e: Event)
    requires TableSound(s) && SessionsSound(s) && e.Dequeue? && Enabled(s, e)
    ensures Waiting(s) == Waiting(Step(s, e)) + (Replied(s, e) + Dropped(s, e))
  {
    var i, o := e.sid, s.sessions[e.sid].queue[0];
    PoppedWaiting(s, i);
    InterpretWaiting(Popped(s, i), i, o, e.env);
    AnsweredOrDropped(s, e);
    assert Waiting(Step(s, e)) == Waiting(Popped(s, i)) + Requested(s, e);
  }

  lemma UnaskedReplies(s: State, e: Event)
    requires e.Recv? && Enabled(s, e)
    ensures Unasked(s, e) <==> Replied(s, e) != multiset{}
  {
  }

  lemma RecvAccounts(s: State, e: Event)
    requires e.Recv? && Enabled(s, e)
    ensures Waiting(Step(s, e)) == Waiting(s) + Requested(s, e)
    ensures Dropped(s, e) == multiset{}
  {
    hide Interpret, Step;
    RecvStep(s, e);
    InterpretWaiting(Allocated(s), e.sid, Fresh(s, e), e.env);
    assert Waiting(Allocated(s)) == Waiting(s);
  }

  lemma CleanupAccounts(s: State, e: Event)
    requires e.Cleanup? && Enabled(s, e)
    ensures Waiting(s) == Waiting(Step(s, e)) + Dropped(s, e)
  {
    var me := s.sessions[e.sid];
    TallyShrink(s.sessions, e.sid, CleanedUp(s, e.sid).sessions[e.sid], WaitingRequests, WaitingRequests(me));
  }

  lemma ConnectAccounts(s: State)
    ensures Waiting(Connected(s)) == Waiting(s)
  {
    var x := Connected(s).sessions[|s.sessions|];
    TallyAppendNone(s.sessions, x, WaitingRequests);
  }

  lemma RecvBalances(s: State, e: Event)
    requires e.Recv? && Enabled(s, e)
    ensures Waiting(Step(s, e)) + (Replied(s, e) + Dropped(s, e)) == Waiting(s) + Requested(s, e)
       <==> !Unasked(s, e)
  {
    hide Waiting, Step, Replied, Requested, Dropped, Unasked;
    RecvAccounts(s, e);
    UnaskedReplies(s, e);
    Surplus(Waiting(s) + Requested(s, e), Replied(s, e));
  }

  lemma Surplus<T>(a: multiset<T>, b: multiset<T>)
    ensures a + (b + multiset{}) == a <==> b == multiset{}
  {
    assert |a + (b + multiset{})| == |a| + |b|;
  }

  /** The accounts of location requests balance at a step exactly when the step is not one
      where a client makes its session reply to a request nobody sent. */
  lemma RequestsAreAccounted(s: State, e: Event)
    requires TableSound(s) && SessionsSound(s)
    ensures Waiting(Step(s, e)) + (Replied(s, e) + Dropped(s, e)) == Waiting(s) + Requested(s, e)
       <==> !Unasked(s, e)
  {
    hide Waiting;
    if !Enabled(s, e) {
    } else if e.Connect? {
      ConnectAccounts(s);
    } else if e.Recv? {
      RecvBalances(s, e);
    } else if e.Dequeue? {
      DequeueAccounts(s, e);
      AnsweredOrDropped(s, e);
    } else {
      CleanupAccounts(s, e);
    }
  }

  // The first of two clients online names the second as the one who asks it for its location.
  const FORGED := Packet(GET_GEO_PACKET, 2, 1, 0, "0")

  /** After a legal run a client can make its session answer a request nobody sent. */
  lemma RepliesToNobody(maxConn: nat, env: Env)
    requires maxConn >= 1
    ensures var s, e := Run(Init(maxConn), Crowd(2, env)), Recv(0, FORGED, env);
            && LegalRun(Init(maxConn), Crowd(2, env)) && Unasked(s, e)
            && Replied(s, e) == multiset{(2, 1)} && Waiting(s) == multiset{}
  {
    hide Step, LegalRun, Crowded;
    CrowdIsOnline(maxConn, 2, env);
    ForgedIsAnswered(Run(Init(maxConn), Crowd(2, env)), env);
  }

  lemma ForgedIsAnswered(s: State, env: Env)
    requires Crowded(s, 2)
    ensures var e := Recv(0, FORGED, env);
            Unasked(s, e) && Replied(s, e) == multiset{(2, 1)} && Waiting(s) == multiset{}
  {
    assert AnsweredBy(GeoReply(Allocated(s), 0, FORGED)) == [(2, 1)];
    NothingWaits(s.sessions);
  }

  lemma {:induction false} NothingWaits(xs: seq<Session>)
    requires forall k :: 0 <= k < |xs| ==> xs[k].queue == []
    ensures Tally(xs, WaitingRequests) == multiset{}
  {
    if xs != [] {
      NothingWaits(xs[..|xs| - 1]);
    }
  }

  // Every request of the run is honest about its sender.
  predicate HonestRun(s: State, es: seq<Event>)
    decreases |es|
  {
    es == [] || (HonestRun(s, es[..|es| - 1]) && !Unasked(Run(s, es[..|es| - 1]), es[|es| - 1]))
  }

  // The accounts of a run: requests accepted for an online responder are those replied to,
  // those dropped because a party left, and those still waiting.
  ghost predicate Balanced(s: State, es: seq<Event>) {
    Total(s, es, Requested) == Total(s, es, Replied) + Total(s, es, Dropped) + Waiting(Run(s, es))
  }

  lemma Cancel<T>(a: multiset<T>, b: multiset<T>, c: multiset<T>)
    ensures a + b == a + c <==> b == c
  {
    if a + b == a + c {
      forall x ensures b[x] == c[x] {
        assert (a + b)[x] == (a + c)[x];
      }
    }
  }

  // Books closed with p replied, d dropped and w waiting, and one step more.
  lemma NextBalance<T>(p: multiset<T>, d: multiset<T>, w: multiset<T>, q1: multiset<T>, p1: multiset<T>,
                       d1: multiset<T>, w': multiset<T>)
    ensures (p + d + w) + q1 == (p + p1) + (d + d1) + w' <==> w' + (p1 + d1) == w + q1
  {
    assert (p + d + w) + q1 == (p + d) + (w + q1);
    assert (p + p1) + (d + d1) + w' == (p + d) + (w' + (p1 + d1));
    Cancel(p + d, w' + (p1 + d1), w + q1);
  }

  lemma BalanceStep(s: State, es: seq<Event>)
    requires es != [] && Inv(Run(s, es[..|es| - 1])) && Balanced(s, es[..|es| - 1])
    ensures Balanced(s, es) <==> !Unasked(Run(s, es[..|es| - 1]), es[|es| - 1])
  {
    hide Step, Waiting, Requested, Replied, Dropped, Unasked;
    var front, e := es[..|es| - 1], es[|es| - 1];
    var t := Run(s, front);
    RequestsAreAccounted(t, e);
    NextBalance(Total(s, front, Replied), Total(s, front, Dropped), Waiting(t), Requested(t, e), Replied(t, e),
                Dropped(t, e), Waiting(Step(t, e)));
  }

  lemma NothingToBalance(maxConn: nat)
    ensures Balanced(Init(maxConn), [])
  {
  }

  /** The accounts balance at every point of a legal run exactly when every request of the run
      is honest about its sender. */
  lemma {:induction false} BalancedThroughout(maxConn: nat, es: seq<Event>)
    requires LegalRun(Init(maxConn), es)
    ensures (forall n :: 0 <= n <= |es| ==> Balanced(Init(maxConn), es[..n])) <==> HonestRun(Init(maxConn), es)
    decreases |es|
  {
    hide Balanced, Unasked, Inv;
    var s := Init(maxConn);
    if es == [] {
      assert es[..0] == [];
      NothingToBalance(maxConn);
    } else {
      var front := es[..|es| - 1];
      BalancedThroughout(maxConn, front);
      ReachableIsSound(maxConn, front);
      assert forall n :: 0 <= n <= |front| ==> front[..n] == es[..n];
      assert front[..|front|] == front && es[..|es|] == es;
      if Balanced(s, front) {
        BalanceStep(s, es);
      }
    }
  }

  /** For each ordered pair of users, at every point of every run with honest requests: the
      requests accepted for an online responder are those replied to, those dropped because a
      party left, and those still waiting. */
  lemma RequestsAreSettled(maxConn: nat, es: seq<Event>, asker: int, asked: int)
    requires LegalRun(Init(maxConn), es) && HonestRun(Init(maxConn), es)
    ensures var s, p := Init(maxConn), (asker, asked);
            Total(s, es, Requested)[p]
            == Total(s, es, Replied)[p] + Total(s, es, Dropped)[p] + Waiting(Run(s, es))[p]
  {
    BalancedThroughout(maxConn, es);
    assert es[..|es|] == es;
  }
}
