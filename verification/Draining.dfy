/** Without new input the queues empty, relaying cannot go on for ever, and what waited can all
    be delivered. */
module Draining {
  import opened Protocol
  import opened Tallies
  import opened RoutingSafety
  import opened MessageFlow
  import opened Conservation
  import opened Runs

  // A request may cause one more packet, its reply; so it weighs two.
  function Weigh(o: Obj): seq<int> { if o.pk.ptype == GET_GEO_PACKET then [0, 0] else [0] }

  function QueueWeight(x: Session): multiset<int> { multiset(Collect(x.queue, Weigh)) }

  function Weight(s: State): nat { |Tally(s.sessions, QueueWeight)| }

  lemma PoppedWeight(s: State, i: nat)
    requires i < |s.sessions| && s.sessions[i].queue != []
    ensures Weight(s) == Weight(Popped(s, i)) + |Weigh(s.sessions[i].queue[0])|
  {
    var less := multiset(Weigh(s.sessions[i].queue[0]));
    CollectHead(s.sessions[i].queue, Weigh);
    TallyShrink(s.sessions, i, Popped(s, i).sessions[i], QueueWeight, less);
  }

  lemma InterpretWeight(s: State, i: nat, o: Obj, env: Env)
    requires i < |s.sessions| && Defined(s, i, o.pk)
    ensures Weight(Interpret(s, i, o, env))
         == Weight(s) + match Routed(s, i, o) { case Some(d) => |Weigh(d.what)| case None => 0 }
  {
    if Routed(s, i, o).Some? {
      var d := Routed(s, i, o).value;
      var more := multiset(Weigh(d.what));
      forall y: Session ensures QueueWeight(y.(queue := y.queue + [d.what])) == QueueWeight(y) + more {
        CollectAppend(y.queue, d.what, Weigh);
      }
      InterpretTally(s, i, o, env, QueueWeight, multiset{}, more);
    } else {
      InterpretTally(s, i, o, env, QueueWeight, multiset{}, multiset{});
    }
  }

  /** Handling a queued packet takes exactly one unit of weight away, or two when the session
      that asked for a location has left. */
  lemma DequeueWeight(s: State, e: Event)
    requires Inv(s) && e.Dequeue? && Enabled(s, e)
    ensures var o := s.sessions[e.sid].queue[0];
            Weight(s) == Weight(Step(s, e))
                         + if o.pk.ptype == GET_GEO_PACKET && Lookup(s, o.pk.sender).None? then 2 else 1
  {
    hide Interpret, Step, OwnershipSound, ListSound, LinksSound;
    var i, o := e.sid, s.sessions[e.sid].queue[0];
    DequeueStep(s, e);
    PoppedIsSound(s, i);
    PoppedWeight(s, i);
    InterpretWeight(Popped(s, i), i, o, e.env);
    QueuedIsNotPlaced(Popped(s, i), i, o, e.env);
    assert Weight(Step(s, e)) == Weight(Interpret(Popped(s, i), i, o, e.env));
  }

  lemma CleanupWeight(s: State, e: Event)
    requires e.Cleanup? && Enabled(s, e)
    ensures Weight(Step(s, e)) <= Weight(s)
  {
    var i := e.sid;
    TallyShrink(s.sessions, i, CleanedUp(s, i).sessions[i], QueueWeight, QueueWeight(s.sessions[i]));
  }

  // No socket is read and nobody connects.
  predicate Quiet(es: seq<Event>) { forall k :: 0 <= k < |es| ==> es[k].Dequeue? || es[k].Cleanup? }

  // How many packets are taken from queues.
  function Handled(s: State, es: seq<Event>): nat
    decreases |es|
  {
    if es == [] then 0 else
      var front, e := es[..|es| - 1], es[|es| - 1];
      Handled(s, front) + if e.Dequeue? && Enabled(Run(s, front), e) then 1 else 0
  }

  // Every queue of a live session is empty.
  ghost predicate Drained(s: State) { forall k :: 0 <= k < |s.sessions| ==> s.sessions[k].queue == [] }

  /** Every quiet run, however the sessions are interleaved, handles at most as many packets as
      the queues weigh at its start. */
  lemma {:induction false} QuietRunsAreBounded(s: State, es: seq<Event>)
    requires Inv(s) && Quiet(es)
    ensures LegalRun(s, es) && Inv(Run(s, es))
    ensures Handled(s, es) + Weight(Run(s, es)) <= Weight(s)
    decreases |es|
  {
    if es != [] {
      var front, e := es[..|es| - 1], es[|es| - 1];
      QuietRunsAreBounded(s, front);
      var t := Run(s, front);
      StepKeepsInv(t, e);
      if e.Dequeue? && Enabled(t, e) {
        DequeueWeight(t, e);
      } else if Enabled(t, e) {
        CleanupWeight(t, e);
      }
    }
  }

  lemma DrainedMeans(s: State, env: Env)
    requires Inv(s)
    ensures Drained(s) <==> forall k: nat :: !Enabled(s, Dequeue(k, env))
  {
    if !Drained(s) {
      var k := NotStuck(s, env);
    }
  }

  // While something is queued, some session can handle a packet.
  lemma NotStuck(s: State, env: Env) returns (k: nat)
    requires Inv(s) && !Drained(s)
    ensures Enabled(s, Dequeue(k, env))
  {
    k :| k < |s.sessions| && s.sessions[k].queue != [];
    assert SessionSound(s.sessions[k], |s.users|);
    QueuedIsDefined(s, k, env);
  }

  // The messages a client was written, then those that wait for it.
  function MessageLine(s: State, k: nat): seq<Obj> {
    Collect(OutOf(s, k), MsgWrite) + Collect(QueueOf(s, k), MsgObj)
  }

  // The head of a queue is written to its own client if it is a message, and nothing is
  // written for it otherwise; no message is queued for anybody.
  lemma HeadIsWritten(s: State, e: Event, k: nat)
    requires Inv(s) && e.Dequeue? && Enabled(s, e)
    ensures Collect(WritesTo(s, e, k), MsgWrite) == Collect(Departures(s, e, k), MsgObj)
    ensures Collect(Arrivals(s, e, k), MsgObj) == []
    ensures Step(s, e).messages == s.messages && |Step(s, e).sessions| == |s.sessions|
  {
    hide OwnershipSound, ListSound, LinksSound, Step, Writes, Routed, FindUser;
    var i, o := e.sid, s.sessions[e.sid].queue[0];
    DequeueStep(s, e);
    PoppedIsSound(s, i);
    QueuedIsNotPlaced(Popped(s, i), i, o, e.env);
    WritesOneMessage(Popped(s, i), i, o);
    assert Departures(s, e, i)[..0] == [];
  }

  // A dequeue moves a message along its line, if it moves any.
  lemma DequeueKeepsLine(s: State, e: Event, k: nat)
    requires Inv(s) && e.Dequeue? && Enabled(s, e)
    ensures MessageLine(Step(s, e), k) == MessageLine(s, k)
  {
    hide Step, Collect, WritesTo, Arrivals, Departures, OutOf, QueueOf, Inv;
    var r := Step(s, e);
    HeadIsWritten(s, e, k);
    OutEvolves(s, e, k);
    CollectConcat(OutOf(s, k), WritesTo(s, e, k), MsgWrite);
    QueueEvolves(s, e, k);
    assert QueueOf(s, k) + Arrivals(s, e, k) == Departures(s, e, k) + QueueOf(r, k);
    CollectConcat(QueueOf(s, k), Arrivals(s, e, k), MsgObj);
    CollectConcat(Departures(s, e, k), QueueOf(r, k), MsgObj);
    Associate(Collect(OutOf(s, k), MsgWrite), Collect(WritesTo(s, e, k), MsgWrite), Collect(QueueOf(r, k), MsgObj));
  }

  /** From every sound state the queues can be emptied by dequeuing alone, in no more steps than
      they weigh, and they are empty exactly when nobody can dequeue. Nothing is stored on the
      way, and each client has then been written the messages that waited for it, all of them
      and in order, behind those it had been written before. */
  lemma {:induction false} QueuesDrain(s: State, env: Env) returns (es: seq<Event>)
    requires Inv(s)
    ensures (forall n :: 0 <= n < |es| ==> es[n].Dequeue?) && |es| <= Weight(s) && Drained(Run(s, es))
    ensures Drained(s) <==> forall k: nat :: !Enabled(s, Dequeue(k, env))
    ensures Run(s, es).messages == s.messages && |Run(s, es).sessions| == |s.sessions|
    ensures forall k: nat ::
              Collect(OutOf(Run(s, es), k), MsgWrite) == Collect(OutOf(s, k), MsgWrite) + Collect(QueueOf(s, k), MsgObj)
    decreases Weight(s)
  {
    hide Step, Weight, Inv, Drained, Collect, OutOf, QueueOf;
    DrainedMeans(s, env);
    if Drained(s) {
      es := [];
      forall k: nat ensures MessageLine(s, k) == Collect(OutOf(s, k), MsgWrite) { NothingQueued(s, k); }
    } else {
      var k := NotStuck(s, env);
      var e := Dequeue(k, env);
      DequeueWeight(s, e);
      StepKeepsInv(s, e);
      HeadIsWritten(s, e, k);
      var rest := QueuesDrain(Step(s, e), env);
      es := [e] + rest;
      RunFirst(s, es);
      assert es[1..] == rest;
      forall j: nat ensures Collect(OutOf(Run(s, es), j), MsgWrite) == MessageLine(s, j) {
        assert Collect(OutOf(Run(Step(s, e), rest), j), MsgWrite) == MessageLine(Step(s, e), j);
        DequeueKeepsLine(s, e, j);
      }
    }
  }

  lemma NothingQueued(s: State, k: nat)
    requires Drained(s)
    ensures MessageLine(s, k) == Collect(OutOf(s, k), MsgWrite)
  {
  }

  /** What was queued is written then: the server holds the same messages, none of them waiting
      in a queue. */
  lemma MessagesAreDelivered(s: State, env: Env) returns (es: seq<Event>)
    requires Inv(s)
    ensures (forall n :: 0 <= n < |es| ==> es[n].Dequeue?) && |es| <= Weight(s) && Drained(Run(s, es))
    ensures LegalRun(s, es) && Run(s, es).messages == s.messages
    ensures Tally(Run(s, es).sessions, WrittenMsgs) == Tally(s.sessions, WrittenMsgs) + Tally(s.sessions, QueuedMsgs)
  {
    hide Run, LegalRun, Weight, Inv, Drained, Collect;
    es := QueuesDrain(s, env);
    QuietRunsAreBounded(s, es);
    var r := Run(s, es);
    forall k | 0 <= k < |s.sessions|
      ensures WrittenMsgs(r.sessions[k]) == WrittenMsgs(s.sessions[k]) + QueuedMsgs(s.sessions[k])
    {
      assert OutOf(r, k) == r.sessions[k].out && OutOf(s, k) == s.sessions[k].out;
      assert Collect(OutOf(r, k), MsgWrite) == Collect(OutOf(s, k), MsgWrite) + Collect(QueueOf(s, k), MsgObj);
    }
    TallySum(s.sessions, r.sessions, WrittenMsgs, QueuedMsgs);
  }
}
