/** The order of messages: what enters and leaves the queues and what reaches the clients, over
    every run. */
module MessageFlow {
  import opened Wire
  import opened Protocol
  import opened Tallies
  import opened RoutingSafety

  // ---------- the queue of one session ----------

  function QueueOf(s: State, k: nat): seq<Obj> {
    if k < |s.sessions| then s.sessions[k].queue else []
  }

  // The delivery an event makes.
  function DeliveryOf(s: State, e: Event): Option<Delivery> {
    if !Enabled(s, e) then None
    else
      match e
      case Recv(i, pk, env) => Routed(Allocated(s), i, Fresh(s, e))
      case Dequeue(i, env) => Routed(Popped(s, i), i, s.sessions[i].queue[0])
      case _ => None
  }

  // Packets an event puts in queue k, takes from it to handle, and discards with it.
  function Arrivals(s: State, e: Event, k: nat): seq<Obj> {
    match DeliveryOf(s, e)
    case Some(d) => if d.target == k then [d.what] else []
    case None => []
  }

  function Departures(s: State, e: Event, k: nat): seq<Obj> {
    if e.Dequeue? && e.sid == k && Enabled(s, e) then [s.sessions[k].queue[0]] else []
  }

  function Discards(s: State, e: Event, k: nat): seq<Obj> {
    if e.Cleanup? && e.sid == k && Enabled(s, e) then s.sessions[k].queue else []
  }

  lemma InterpretQueue(s: State, i: nat, o: Obj, env: Env, k: nat)
    requires i < |s.sessions| && Defined(s, i, o.pk)
    ensures QueueOf(Interpret(s, i, o, env), k)
         == QueueOf(s, k) + match Routed(s, i, o) {
                              case Some(d) => if d.target == k then [d.what] else []
                              case None => []
                            }
  {
  }

  lemma DequeueEvolves(s: State, e: Event, k: nat)
    requires e.Dequeue? && Enabled(s, e)
    ensures QueueOf(s, k) + Arrivals(s, e, k) == Departures(s, e, k) + QueueOf(Step(s, e), k)
  {
    hide Interpret, Step;
    DequeueStep(s, e);
    var q := s.sessions[e.sid].queue;
    InterpretQueue(Popped(s, e.sid), e.sid, q[0], e.env, k);
    assert QueueOf(Step(s, e), k) == QueueOf(Popped(s, e.sid), k) + Arrivals(s, e, k);
    if k == e.sid {
      assert q + Arrivals(s, e, k) == [q[0]] + (q[1..] + Arrivals(s, e, k));
    }
  }

  lemma RecvEvolves(s: State, e: Event, k: nat)
    requires e.Recv? && Enabled(s, e)
    ensures QueueOf(s, k) + Arrivals(s, e, k) == QueueOf(Step(s, e), k)
  {
    hide Interpret, Step;
    RecvStep(s, e);
    InterpretQueue(Allocated(s), e.sid, Fresh(s, e), e.env, k);
    assert QueueOf(Allocated(s), k) == QueueOf(s, k);
  }

  /** A queue changes at its ends only, and only by these three. */
  lemma QueueEvolves(s: State, e: Event, k: nat)
    ensures QueueOf(s, k) + Arrivals(s, e, k)
         == Departures(s, e, k) + (Discards(s, e, k) + QueueOf(Step(s, e), k))
  {
    if !Enabled(s, e) {
    } else if e.Recv? {
      RecvEvolves(s, e, k);
    } else if e.Dequeue? {
      DequeueEvolves(s, e, k);
    }
  }

  // The same over a run, oldest first.
  function Enqueued(s: State, es: seq<Event>, k: nat): seq<Obj>
    decreases |es|
  {
    if es == [] then [] else
      var front, t := es[..|es| - 1], Run(s, es[..|es| - 1]);
      Enqueued(s, front, k) + Arrivals(t, es[|es| - 1], k)
  }

  function Processed(s: State, es: seq<Event>, k: nat): seq<Obj>
    decreases |es|
  {
    if es == [] then [] else
      var front, t := es[..|es| - 1], Run(s, es[..|es| - 1]);
      Processed(s, front, k) + Departures(t, es[|es| - 1], k)
  }

  function Discarded(s: State, es: seq<Event>, k: nat): seq<Obj>
    decreases |es|
  {
    if es == [] then [] else
      var front, t := es[..|es| - 1], Run(s, es[..|es| - 1]);
      Discarded(s, front, k) + Discards(t, es[|es| - 1], k)
  }

  // A destroyed session gets, handles and discards nothing any more.
  lemma DeadIsSilent(s: State, e: Event, k: nat)
    requires TableSound(s) && SessionsSound(s) && Legal(s, e)
    requires k < |s.sessions| && !s.sessions[k].live
    ensures Arrivals(s, e, k) == [] && Departures(s, e, k) == [] && Discards(s, e, k) == []
    ensures k < |Step(s, e).sessions| && !Step(s, e).sessions[k].live
  {
    if DeliveryOf(s, e).Some? {
      if e.Recv? {
        RecvIsHandleable(s, e);
        HeapIsIrrelevant(s, s.freed, s.next + 1);
        DeliveryIsRelayable(Allocated(s), e.sid, Fresh(s, e));
      } else {
        PoppedIsSound(s, e.sid);
        DeliveryIsRelayable(Popped(s, e.sid), e.sid, s.sessions[e.sid].queue[0]);
      }
    }
  }

  lemma DeadQueuesAreEmpty(s: State, k: nat)
    requires SessionsSound(s) && k < |s.sessions| && !s.sessions[k].live
    ensures QueueOf(s, k) == []
  {
    assert SessionSound(s.sessions[k], |s.users|);
  }

  lemma Append<T>(p: seq<T>, q: seq<T>, a: seq<T>, d: seq<T>, x: seq<T>, q': seq<T>)
    requires q + a == d + (x + q')
    ensures (p + [] + q) + a == (p + d) + ([] + x) + q'
  {
    assert (p + [] + q) + a == p + (q + a);
  }

  // One step of the bookkeeping: p was handled and d discarded before.
  lemma FifoStep(s: State, e: Event, k: nat, p: seq<Obj>, d: seq<Obj>)
    requires TableSound(s) && SessionsSound(s) && Legal(s, e)
    requires d != [] ==> k < |s.sessions| && !s.sessions[k].live
    ensures (p + d + QueueOf(s, k)) + Arrivals(s, e, k)
         == (p + Departures(s, e, k)) + (d + Discards(s, e, k)) + QueueOf(Step(s, e), k)
    ensures d + Discards(s, e, k) != [] ==> k < |Step(s, e).sessions| && !Step(s, e).sessions[k].live
  {
    if d != [] {
      DeadIsSilent(s, e, k);
      DeadQueuesAreEmpty(s, k);
      StepKeepsTableAndSessions(s, e);
      DeadQueuesAreEmpty(Step(s, e), k);
    } else {
      QueueEvolves(s, e, k);
      Append(p, QueueOf(s, k), Arrivals(s, e, k), Departures(s, e, k), Discards(s, e, k), QueueOf(Step(s, e), k));
    }
  }

  /** First in, first out: at every point of every run, what was put in a session's queue is
      what the session has handled, then what was discarded with it, then what still waits, in
      that order; and nothing is discarded while the session lives. */
  lemma {:induction false} FirstInFirstOut(maxConn: nat, es: seq<Event>, k: nat)
    requires LegalRun(Init(maxConn), es)
    ensures var s, r := Init(maxConn), Run(Init(maxConn), es);
            && Enqueued(s, es, k) == Processed(s, es, k) + Discarded(s, es, k) + QueueOf(r, k)
            && (Discarded(s, es, k) != [] ==> k < |r.sessions| && !r.sessions[k].live)
    decreases |es|
  {
    if es != [] {
      var s := Init(maxConn);
      var front, e := es[..|es| - 1], es[|es| - 1];
      FirstInFirstOut(maxConn, front, k);
      ReachableIsSound(maxConn, front);
      FifoStep(Run(s, front), e, k, Processed(s, front, k), Discarded(s, front, k));
    }
  }

  // ---------- what reaches the client ----------

  function OutOf(s: State, k: nat): seq<Write> {
    if k < |s.sessions| then s.sessions[k].out else []
  }

  // What an event writes to the socket of session k: only its own handler writes there.
  function WritesTo(s: State, e: Event, k: nat): seq<Write> {
    if !Enabled(s, e) then []
    else
      match e
      case Recv(i, pk, env) => if i == k then Writes(Allocated(s), i, Fresh(s, e)) else []
      case Dequeue(i, env) => if i == k then Writes(Popped(s, i), i, s.sessions[i].queue[0]) else []
      case _ => []
  }

  lemma InterpretOut(s: State, i: nat, o: Obj, env: Env, k: nat)
    requires i < |s.sessions| && Defined(s, i, o.pk)
    ensures OutOf(Interpret(s, i, o, env), k) == OutOf(s, k) + if i == k then Writes(s, i, o) else []
  {
  }

  lemma OutEvolves(s: State, e: Event, k: nat)
    ensures OutOf(Step(s, e), k) == OutOf(s, k) + WritesTo(s, e, k)
  {
    if Enabled(s, e) {
      if e.Recv? {
        InterpretOut(Allocated(s), e.sid, Fresh(s, e), e.env, k);
        assert OutOf(Allocated(s), k) == OutOf(s, k);
      } else if e.Dequeue? {
        InterpretOut(Popped(s, e.sid), e.sid, s.sessions[e.sid].queue[0], e.env, k);
        assert OutOf(Popped(s, e.sid), k) == OutOf(s, k);
      }
    }
  }

  // The packet objects relayed to session k's client, not read from its own socket.
  function RelayedTo(k: nat): Write -> seq<Obj> {
    (w: Write) =>
      match w
      case Msg(o) => if o.reader != k then [o] else []
      case Geo(o) => if o.reader != k then [o] else []
      case _ => []
  }

  // Of the packets a session handles from its queue, those it passes on to its client.
  function PassedOn(o: Obj): seq<Obj> {
    if o.pk.ptype == MSG_PACKET || o.pk.ptype == GEO_PACKET then [o] else []
  }

  // Nothing in a queue was allocated by the queue's own session.
  ghost predicate Foreign(s: State) {
    forall k: nat, o :: o in QueueOf(s, k) ==> o.reader != k
  }

  // Every delivery goes to another session's queue and carries a number allocated just now.
  lemma DeliveryIsForeign(s: State, e: Event)
    requires TableSound(s) && SessionsSound(s) && Legal(s, e) && DeliveryOf(s, e).Some?
    ensures var d := DeliveryOf(s, e).value;
            d.what.reader == e.sid != d.target && s.next <= d.what.addr < Step(s, e).next && WellFormed(d.what.pk)
  {
    if e.Recv? {
      RecvIsHandleable(s, e);
      HeapIsIrrelevant(s, s.freed, s.next + 1);
      DeliveryIsRelayable(Allocated(s), e.sid, Fresh(s, e));
    } else {
      PoppedIsSound(s, e.sid);
      DeliveryIsRelayable(Popped(s, e.sid), e.sid, s.sessions[e.sid].queue[0]);
      QueuedIsNotPlaced(Popped(s, e.sid), e.sid, s.sessions[e.sid].queue[0], e.env);
    }
  }

  lemma QueuedBefore(s: State, e: Event, k: nat, o: Obj)
    requires o in QueueOf(Step(s, e), k)
    ensures o in QueueOf(s, k) || o in Arrivals(s, e, k)
  {
    QueueEvolves(s, e, k);
    assert o in Departures(s, e, k) + (Discards(s, e, k) + QueueOf(Step(s, e), k));
  }

  lemma StepKeepsForeign(s: State, e: Event)
    requires TableSound(s) && SessionsSound(s) && Legal(s, e) && Foreign(s)
    ensures Foreign(Step(s, e))
  {
    forall k: nat, o | o in QueueOf(Step(s, e), k) ensures o.reader != k {
      QueuedBefore(s, e, k, o);
      if o in Arrivals(s, e, k) { DeliveryIsForeign(s, e); }
    }
  }

  lemma {:induction false} RunKeepsForeign(maxConn: nat, es: seq<Event>)
    requires LegalRun(Init(maxConn), es)
    ensures Foreign(Run(Init(maxConn), es))
    decreases |es|
  {
    if es != [] {
      RunKeepsForeign(maxConn, es[..|es| - 1]);
      ReachableIsSound(maxConn, es[..|es| - 1]);
      StepKeepsForeign(Run(Init(maxConn), es[..|es| - 1]), es[|es| - 1]);
    }
  }

  // A packet read from the socket yields no relayed write at its own session.
  lemma OwnWritesAreNotRelayed(s: State, i: nat, o: Obj)
    requires i < |s.sessions| && Defined(s, i, o.pk) && o.reader == i
    ensures Collect(Writes(s, i, o), RelayedTo(i)) == []
  {
    var ws := Writes(s, i, o);
    if Collect(ws, RelayedTo(i)) != [] {
      var k := CollectSource(ws, RelayedTo(i), Collect(ws, RelayedTo(i))[0]);
    }
  }

  lemma QueuedWrites(s: State, i: nat, o: Obj)
    requires i < |s.sessions| && Defined(s, i, o.pk) && o.reader != i
    requires s.sessions[i].auth != NotAuth && Relayable(o, s.sessions[i].userid)
    ensures Collect(Writes(s, i, o), RelayedTo(i)) == PassedOn(o)
  {
    var ws := Writes(s, i, o);
    assert |ws| <= 1;
    if |ws| == 1 {
      assert ws[..0] == [];
    }
  }

  lemma StepRelays(s: State, e: Event, k: nat)
    requires TableSound(s) && SessionsSound(s) && Legal(s, e) && Foreign(s)
    ensures Collect(WritesTo(s, e, k), RelayedTo(k)) == Collect(Departures(s, e, k), PassedOn)
  {
    if Enabled(s, e) {
      if e.Recv? && e.sid == k {
        OwnWritesAreNotRelayed(Allocated(s), k, Fresh(s, e));
      } else if e.Dequeue? && e.sid == k {
        PoppedIsSound(s, k);
        var o := s.sessions[k].queue[0];
        assert o in QueueOf(s, k);
        QueuedWrites(Popped(s, k), k, o);
        assert Departures(s, e, k)[..0] == [];
      }
    }
  }

  lemma {:induction false} RelayedIsProcessed(maxConn: nat, es: seq<Event>, k: nat)
    requires LegalRun(Init(maxConn), es)
    ensures Collect(OutOf(Run(Init(maxConn), es), k), RelayedTo(k))
         == Collect(Processed(Init(maxConn), es, k), PassedOn)
    decreases |es|
  {
    var s := Init(maxConn);
    if es != [] {
      var front, e := es[..|es| - 1], es[|es| - 1];
      var t := Run(s, front);
      RelayedIsProcessed(maxConn, front, k);
      ReachableIsSound(maxConn, front);
      RunKeepsForeign(maxConn, front);
      OutEvolves(t, e, k);
      CollectConcat(OutOf(t, k), WritesTo(t, e, k), RelayedTo(k));
      StepRelays(t, e, k);
      CollectConcat(Processed(s, front, k), Departures(t, e, k), PassedOn);
    }
  }

  ghost predicate Ascending(q: seq<Obj>) {
    forall i, j :: 0 <= i < j < |q| ==> q[i].addr < q[j].addr
  }

  lemma {:induction false} EnqueuedAscends(maxConn: nat, es: seq<Event>, k: nat)
    requires LegalRun(Init(maxConn), es)
    ensures Ascending(Enqueued(Init(maxConn), es, k))
    ensures forall o :: o in Enqueued(Init(maxConn), es, k) ==> o.addr < Run(Init(maxConn), es).next && WellFormed(o.pk)
    decreases |es|
  {
    var s := Init(maxConn);
    if es != [] {
      var front, e := es[..|es| - 1], es[|es| - 1];
      var t := Run(s, front);
      EnqueuedAscends(maxConn, front, k);
      ReachableIsSound(maxConn, front);
      GainedIsNew(t, e);
      if DeliveryOf(t, e).Some? { DeliveryIsForeign(t, e); }
      var before := Enqueued(s, front, k);
      forall i, j | 0 <= i < j < |Enqueued(s, es, k)|
        ensures Enqueued(s, es, k)[i].addr < Enqueued(s, es, k)[j].addr
      {
        assert before[i] in before;
      }
    }
  }

  /** What a client is sent on behalf of others is a prefix of what was put in its session's
      queue, in that order; and since packets are numbered as they are read, it is in the order
      in which the server read them, so the messages of one sender stay in order. */
  lemma RelayedInOrder(maxConn: nat, es: seq<Event>, k: nat)
    requires LegalRun(Init(maxConn), es)
    ensures var s, relayed := Init(maxConn), Collect(OutOf(Run(Init(maxConn), es), k), RelayedTo(k));
            relayed <= Collect(Enqueued(s, es, k), PassedOn) && Ascending(relayed)
  {
    var s := Init(maxConn);
    var p, rest := Processed(s, es, k), Discarded(s, es, k) + QueueOf(Run(s, es), k);
    RelayedIsProcessed(maxConn, es, k);
    FirstInFirstOut(maxConn, es, k);
    Associate(p, Discarded(s, es, k), QueueOf(Run(s, es), k));
    PrefixOfAscending(p, rest, maxConn, es, k);
  }

  lemma PrefixOfAscending(p: seq<Obj>, rest: seq<Obj>, maxConn: nat, es: seq<Event>, k: nat)
    requires LegalRun(Init(maxConn), es) && Enqueued(Init(maxConn), es, k) == p + rest
    ensures Collect(p, PassedOn) <= Collect(p + rest, PassedOn) && Ascending(Collect(p, PassedOn))
  {
    CollectConcat(p, rest, PassedOn);
    EnqueuedAscends(maxConn, es, k);
    PassedOnAscends(p + rest);
    var a, b := Collect(p, PassedOn), Collect(rest, PassedOn);
    forall i, j | 0 <= i < j < |a| ensures a[i].addr < a[j].addr {
      assert (a + b)[i] == a[i] && (a + b)[j] == a[j];
    }
  }

  lemma {:induction false} PassedOnAscends(q: seq<Obj>)
    requires Ascending(q)
    ensures Ascending(Collect(q, PassedOn))
  {
    if q != [] {
      var n := |q| - 1;
      PassedOnAscends(q[..n]);
      forall o | o in Collect(q[..n], PassedOn) ensures o.addr < q[n].addr {
        var k := CollectSource(q[..n], PassedOn, o);
      }
      var c := Collect(q[..n], PassedOn);
      forall i, j | 0 <= i < j < |Collect(q, PassedOn)|
        ensures Collect(q, PassedOn)[i].addr < Collect(q, PassedOn)[j].addr
      {
        assert c[i] in c;
      }
    }
  }
}
