/** The whole server at work: from its constructor, connections are accepted and handlers run,
    step by step or in whole turns of their loops, in any order. Whatever the order, the real
    structures go through a legal run of module Protocol, so that all that is proved about runs
    holds of them. What is asked for is room in the address table at each step; a server that
    takes at most 97 connections has it in every run. */
module Service {
  import opened Wire
  import opened Protocol
  import opened RoutingSafety
  import opened Capacity
  import opened Runs
  import opened ConnectHandler

  // What happens to the server. A handler reads a text, looks at its queue, finishes, or goes
  // once round its loop with what it received, if anything.
  datatype Input =
    | Arrive
    | Read(sid: nat, text: string, env: Env)
    | Look(sid: nat, env: Env)
    | Finish(sid: nat)
    | Loop(sid: nat, received: Option<string>, env: Env, env': Env)

  // The packet a complete text parses to.
  function PacketOf(text: string): (pk: Option<Packet>)
    ensures pk.Some? ==> StringToPacket(text) == Complete(pk.value)
  {
    var np := StringToPacket(text);
    if np.ptype.Some? && np.sender.Some? && np.receiver.Some? && np.tmsg.Some? && np.msg.Some?
    then Some(Packet(np.ptype.value, np.sender.value, np.receiver.value, np.tmsg.value, np.msg.value))
    else None
  }

  predicate CanRead(s: State, i: nat, text: string, env: Env) {
    && PacketOf(text).Some?
    && Enabled(s, Recv(i, PacketOf(text).value, env)) && Legal(s, Recv(i, PacketOf(text).value, env))
  }

  predicate CanLoop(s: State, i: nat) { Alive(s, i) && !s.sessions[i].cancelled && s.sessions[i].auth != ToExit }

  predicate Possible(s: State, input: Input) {
    match input
    case Arrive => true
    case Read(i, text, env) => CanRead(s, i, text, env)
    case Look(i, _) => Alive(s, i)
    case Finish(i) => Alive(s, i)
    case Loop(i, received, env, _) =>
      CanLoop(s, i) && (received.Some? ==> CanRead(s, i, received.value, env))
  }

  function Reading(i: nat, text: string, env: Env): seq<Event> {
    match PacketOf(text) { case Some(pk) => [Recv(i, pk, env)] case None => [] }
  }

  // The steps of module Protocol an input comes to.
  function EventsOf(input: Input): seq<Event> {
    match input
    case Arrive => [Connect]
    case Read(i, text, env) => Reading(i, text, env)
    case Look(i, env) => [Dequeue(i, env)]
    case Finish(i) => [Cleanup(i)]
    case Loop(i, received, env, env') =>
      (if received.Some? then Reading(i, received.value, env) else []) + [Dequeue(i, env'), Cleanup(i)]
  }

  function History(inputs: seq<Input>): seq<Event> {
    if inputs == [] then [] else History(inputs[..|inputs| - 1]) + EventsOf(inputs[|inputs| - 1])
  }

  predicate PossibleRun(s: State, inputs: seq<Input>)
    decreases |inputs|
  {
    inputs == [] ||
    (PossibleRun(s, inputs[..|inputs| - 1])
     && Possible(Run(s, History(inputs[..|inputs| - 1])), inputs[|inputs| - 1]))
  }

  lemma LoopRun(s: State, i: nat, received: Option<string>, env: Env, env': Env)
    requires received.Some? ==> CanRead(s, i, received.value, env)
    ensures var es := EventsOf(Loop(i, received, env, env'));
            var t := if received.Some? then Step(s, Recv(i, PacketOf(received.value).value, env)) else s;
            LegalRun(s, es) && Run(s, es) == Step(Step(t, Dequeue(i, env')), Cleanup(i))
  {
    var es := EventsOf(Loop(i, received, env, env'));
    if received.Some? {
      RunFirst(s, es);
      assert es[1..] == [Dequeue(i, env'), Cleanup(i)];
    }
    var t := if received.Some? then Step(s, Recv(i, PacketOf(received.value).value, env)) else s;
    RunFirst(t, [Dequeue(i, env'), Cleanup(i)]);
    assert [Dequeue(i, env'), Cleanup(i)][1..] == [Cleanup(i)];
    RunOne(Step(t, Dequeue(i, env')), Cleanup(i));
  }

  lemma LoopHasRoom(s: State, i: nat, received: Option<string>, env: Env, env': Env)
    requires received.Some? ==> CanRead(s, i, received.value, env)
    requires RoomThroughout(s, EventsOf(Loop(i, received, env, env')))
    ensures var t := if received.Some? then Step(s, Recv(i, PacketOf(received.value).value, env)) else s;
            && (received.Some? ==> RoomFor(s, Recv(i, PacketOf(received.value).value, env)))
            && RoomFor(Step(t, Dequeue(i, env')), Cleanup(i))
  {
    hide Step, RoomThroughout, RoomFor, PacketOf, Enabled;
    var es := EventsOf(Loop(i, received, env, env'));
    var t := if received.Some? then Step(s, Recv(i, PacketOf(received.value).value, env)) else s;
    var rest := [Dequeue(i, env'), Cleanup(i)];
    if received.Some? {
      RoomFirst(s, es);
      assert es[1..] == rest;
    } else {
      assert es == rest;
    }
    RoomFirst(t, rest);
    assert rest[1..] == [Cleanup(i)];
    RoomFirst(Step(t, Dequeue(i, env')), [Cleanup(i)]);
  }

  lemma PossibleIsLegal(s: State, input: Input)
    requires Possible(s, input)
    ensures LegalRun(s, EventsOf(input))
  {
    match input
    case Arrive => RunOne(s, Connect);
    case Read(i, text, env) => RunOne(s, Recv(i, PacketOf(text).value, env));
    case Look(i, env) => RunOne(s, Dequeue(i, env));
    case Finish(i) => RunOne(s, Cleanup(i));
    case Loop(i, received, env, env') => LoopRun(s, i, received, env, env');
  }

  // ---------- every run can be served ----------

  // The event happens to something that is there.
  predicate Applies(s: State, e: Event) {
    match e
    case Connect => true
    case Recv(_, _, _) => Enabled(s, e)
    case Dequeue(i, _) => Alive(s, i)
    case Cleanup(i) => Alive(s, i)
  }

  ghost predicate AppliesThroughout(s: State, es: seq<Event>) {
    forall n :: 0 <= n < |es| ==> Applies(Run(s, es[..n]), es[n])
  }

  // The input that brings an event about; a packet arrives as its printed text.
  function InputFor(e: Event): Input {
    match e
    case Connect => Arrive
    case Recv(i, pk, env) => Read(i, PacketToString(pk), env)
    case Dequeue(i, env) => Look(i, env)
    case Cleanup(i) => Finish(i)
  }

  lemma InputBringsEvent(s: State, e: Event)
    requires Legal(s, e) && Applies(s, e)
    ensures Possible(s, InputFor(e)) && EventsOf(InputFor(e)) == [e]
  {
    if e.Recv? {
      RoundTrip(e.pk);
      assert PacketOf(PacketToString(e.pk)) == Some(e.pk);
    }
  }

  /** Every legal run in which nothing is asked of sessions that are gone is the history of some
      inputs, so what is proved of runs is proved of nothing but what the real server can do. */
  lemma {:induction false} EveryRunIsServed(s: State, es: seq<Event>) returns (inputs: seq<Input>)
    requires LegalRun(s, es) && AppliesThroughout(s, es)
    ensures PossibleRun(s, inputs) && History(inputs) == es
    decreases |es|
  {
    hide Step, Legal, Applies, Possible, EventsOf, InputFor;
    if es == [] {
      inputs := [];
    } else {
      var front, e := es[..|es| - 1], es[|es| - 1];
      forall n | 0 <= n < |front| ensures Applies(Run(s, front[..n]), front[n]) {
        assert front[..n] == es[..n];
      }
      var before := EveryRunIsServed(s, front);
      InputBringsEvent(Run(s, front), e);
      inputs := before + [InputFor(e)];
      assert inputs[..|inputs| - 1] == before;
    }
  }

  // One input.
  method Take(server: Server, input: Input)
    requires server.Valid() && Inv(server.st) && Possible(server.st, input)
    requires RoomThroughout(server.st, EventsOf(input))
    modifies server, server.Objects()
    ensures server.Valid() && Inv(server.st) && server.st == Run(old(server.st), EventsOf(input))
    ensures forall o :: o in server.Objects() ==> o in old(server.Objects()) || fresh(o)
  {
    hide Server.Valid, Server.Objects, Inv, Step, RoomThroughout, RoomFor;
    ghost var s := server.st;
    match input
    case Arrive =>
      RunOne(s, Connect);
      server.SafeAccept();
    case Read(i, text, env) =>
      RunOne(s, Recv(i, PacketOf(text).value, env));
      RoomFirst(s, EventsOf(input));
      server.SafeRead(i, text, PacketOf(text).value, env);
    case Look(i, env) =>
      RunOne(s, Dequeue(i, env));
      server.SafeLook(i, env);
    case Finish(i) =>
      RunOne(s, Cleanup(i));
      RoomFirst(s, EventsOf(input));
      server.SafeFinish(i);
    case Loop(i, received, env, env') =>
      LoopRun(s, i, received, env, env');
      LoopHasRoom(s, i, received, env, env');
      server.Turn(i, received, if received.Some? then PacketOf(received.value).value else AnyPacket(), env, env');
  }

  ghost function AnyPacket(): Packet { Packet(0, 0, 0, 0, "0") }

  // The k-th input of a possible run.
  lemma {:induction false} NextInput(s: State, inputs: seq<Input>, k: nat)
    requires PossibleRun(s, inputs) && k < |inputs| && RoomThroughout(s, History(inputs))
    ensures var t, e := Run(s, History(inputs[..k])), EventsOf(inputs[k]);
            && Possible(t, inputs[k]) && LegalRun(t, e) && RoomThroughout(t, e)
            && Run(s, History(inputs[..k + 1])) == Run(t, e)
            && (LegalRun(s, History(inputs[..k])) ==> LegalRun(s, History(inputs[..k + 1])))
    decreases |inputs|
  {
    hide Possible, EventsOf, Step, RoomThroughout;
    RoomAppend(s, History(inputs[..|inputs| - 1]), EventsOf(inputs[|inputs| - 1]));
    if k < |inputs| - 1 {
      NextInput(s, inputs[..|inputs| - 1], k);
      assert inputs[..|inputs| - 1][..k] == inputs[..k] && inputs[..|inputs| - 1][..k + 1] == inputs[..k + 1];
    } else {
      PossibleIsLegal(Run(s, History(inputs[..k])), inputs[k]);
      assert inputs[..k + 1][..k] == inputs[..k];
      RunAppend(s, History(inputs[..k]), EventsOf(inputs[k]));
    }
  }

  // Possible inputs make a legal run, so in a small server the room is there.
  lemma SmallServersCanServe(maxConn: nat, inputs: seq<Input>)
    requires maxConn <= 97 && PossibleRun(Init(maxConn), inputs)
    ensures RoomThroughout(Init(maxConn), History(inputs))
  {
    HistoryIsLegal(Init(maxConn), inputs);
    SmallServersHaveRoom(maxConn, History(inputs));
  }

  lemma {:induction false} HistoryIsLegal(s: State, inputs: seq<Input>)
    requires PossibleRun(s, inputs)
    ensures LegalRun(s, History(inputs))
    decreases |inputs|
  {
    if inputs != [] {
      var front := inputs[..|inputs| - 1];
      HistoryIsLegal(s, front);
      PossibleIsLegal(Run(s, History(front)), inputs[|inputs| - 1]);
      RunAppend(s, History(front), EventsOf(inputs[|inputs| - 1]));
    }
  }

  /** The server from its start, over any sequence of possible inputs for which the table has
      room. */
  method Serve(maxConn: nat, inputs: seq<Input>) returns (server: Server)
    requires PossibleRun(Init(maxConn), inputs) && RoomThroughout(Init(maxConn), History(inputs))
    ensures fresh(server) && server.Valid()
    ensures LegalRun(Init(maxConn), History(inputs)) && server.st == Run(Init(maxConn), History(inputs))
  {
    hide Server.Valid, Server.Objects, Inv, Possible, EventsOf, RoomThroughout;
    server := new Server(maxConn);
    ReachableIsSound(maxConn, []);
    var k := 0;
    while k < |inputs|
      invariant 0 <= k <= |inputs| && fresh(server) && server.maxConn == maxConn
      invariant server.Valid() && Inv(server.st) && forall o :: o in server.Objects() ==> fresh(o)
      invariant LegalRun(Init(maxConn), History(inputs[..k])) && server.st == Run(Init(maxConn), History(inputs[..k]))
    {
      NextInput(Init(maxConn), inputs, k);
      Take(server, inputs[k]);
      k := k + 1;
    }
    assert inputs[..k] == inputs;
  }
}
