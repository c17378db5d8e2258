/** The packet switch of `interpret_packets`, case by case and effect after effect, on values,
    and the proof that it comes to what module Protocol says effect by effect. */
module PacketSwitch {
  import opened Wire
  import opened Protocol

  function WithSession(s: State, i: nat, x: Session): State
    requires i < |s.sessions|
  {
    s.(sessions := s.sessions[i := x])
  }

  function Sent(s: State, i: nat, ws: seq<Write>): State
    requires i < |s.sessions|
  {
    WithSession(s, i, s.sessions[i].(out := s.sessions[i].out + ws))
  }

  function Exited(s: State, i: nat): State
    requires i < |s.sessions|
  {
    WithSession(s, i, s.sessions[i].(auth := ToExit, cancelled := true))
  }

  function Destroyed(s: State, addr: nat): State { s.(freed := s.freed + [addr]) }

  function Enqueued(s: State, j: nat, o: Obj): State
    requires j < |s.sessions|
  {
    WithSession(s, j, s.sessions[j].(queue := s.sessions[j].queue + [o]))
  }

  // Each packet's handling as a sequence of such effects.

  function Registered(s: State, i: nat, pk: Packet): State
    requires i < |s.sessions|
  {
    if Registers(s, pk) then Sent(s.(users := s.users + [Credentials(pk.msg).value]), i, [Ack(-1)])
    else Sent(s, i, [Fin])
  }

  function Authenticated(s: State, i: nat, pk: Packet): State
    requires i < |s.sessions|
  {
    match ClaimedId(s, pk)
    case None => Exited(Sent(s, i, [Fin]), i)
    case Some(id) =>
      var n := WithSession(s, i, s.sessions[i].(userid := id));
      if id in s.table then Exited(Sent(n, i, [Fin]), i)
      else Sent(WithSession(n.(table := n.table[id := i]), i, n.sessions[i].(auth := Authed)), i, [Ack(id)])
  }

  function Listed(s: State, i: nat, pk: Packet): State
    requires i < |s.sessions| && 0 <= Atoi(pk.msg)
  {
    var n, id := WithSession(s, i, s.sessions[i].(revision := |s.users|)), s.sessions[i].userid;
    var count := Atoi(pk.msg);
    Sent(n, i, [if |s.users| > count then UserRow(id, count + 1, s.users[count].name) else UsersDone(id)])
  }

  function Messaged(s: State, i: nat, o: Obj, now: int): State
    requires i < |s.sessions|
  {
    if o.pk.receiver == s.sessions[i].userid then Sent(s, i, [Msg(o)])
    else
      match Lookup(s, o.pk.receiver)
      case Some(j) => Enqueued(s, j, o)
      case None => s.(messages := s.messages + [Row(o, now, true)])
  }

  function Fetched(s: State, i: nat, pk: Packet): State
    requires i < |s.sessions|
  {
    var id := s.sessions[i].userid;
    if pk.sender != id then s
    else Sent(s, i, StoredWrites(ByTime(Select(s.messages, id)))).(messages := MarkReceived(s.messages, id))
  }

  function Located(s: State, i: nat, o: Obj): State
    requires i < |s.sessions|
  {
    var me, pk := s.sessions[i], o.pk;
    if pk.sender == pk.receiver then Sent(s, i, [OwnGeo(pk.sender, pk.receiver, me.loc)])
    else if Asked(me, pk) then
      match Lookup(s, pk.sender)
      case Some(j) => Enqueued(s.(next := s.next + 1), j, GeoReply(s, i, pk))
      case None => Sent(s, i, [Ack(-1)])
    else if Asking(me, pk) then
      match Lookup(s, pk.receiver)
      case Some(j) => Enqueued(s, j, o)
      case None => Sent(Destroyed(s, o.addr), i, [Ack(-1)])
    else s
  }

  function Moved(s: State, i: nat, pk: Packet, env: Env): State
    requires i < |s.sessions| && |Tokens(pk.msg, ':')| >= 2
  {
    WithSession(s, i, s.sessions[i].(
      loc := Loc(env.render(Tokens(pk.msg, ':')[0]), env.render(Tokens(pk.msg, ':')[1]))))
  }

  // The packet switch.
  function Switched(s: State, i: nat, o: Obj, env: Env): State
    requires i < |s.sessions| && Defined(s, i, o.pk)
  {
    var t := o.pk.ptype;
    if t == REG_PACKET then Registered(Destroyed(s, o.addr), i, o.pk)
    else if t == AUTH_PACKET then Authenticated(Destroyed(s, o.addr), i, o.pk)
    else if s.sessions[i].auth == NotAuth then
      WithSession(Destroyed(s, o.addr), i, s.sessions[i].(cancelled := true))
    else if t == LOGOUT_PACKET || t == CLOSE_PACKET then
      (if o.pk.sender == s.sessions[i].userid then Exited(s, i) else s)
    else if t == GET_ALL_USERS_PACKET then Listed(s, i, o.pk)
    else if t == MSG_PACKET then Messaged(s, i, o, env.now)
    else if t == GET_MSG_PACKET then Destroyed(Fetched(s, i, o.pk), o.addr)
    else if t == GET_GEO_PACKET then Located(s, i, o)
    else if t == SET_GEO_PACKET then Destroyed(Moved(s, i, o.pk, env), o.addr)
    else if t == GEO_PACKET then Sent(s, i, [Geo(o)])
    else s
  }

  lemma Unwritten(s: State, i: nat)
    requires i < |s.sessions|
    ensures WithSession(s, i, s.sessions[i].(out := s.sessions[i].out + [])) == s
  {
    assert s.sessions[i].out + [] == s.sessions[i].out;
    assert s.sessions[i := s.sessions[i]] == s.sessions;
  }

  lemma AuthCase(s: State, i: nat, o: Obj, env: Env)
    requires i < |s.sessions| && Defined(s, i, o.pk) && o.pk.ptype == AUTH_PACKET
    ensures Authenticated(Destroyed(s, o.addr), i, o.pk) == Interpret(s, i, o, env)
  {
  }

  lemma MsgCase(s: State, i: nat, o: Obj, env: Env)
    requires i < |s.sessions| && Defined(s, i, o.pk) && o.pk.ptype == MSG_PACKET && s.sessions[i].auth != NotAuth
    ensures Messaged(s, i, o, env.now) == Interpret(s, i, o, env)
  {
    Unwritten(s, i);
  }

  lemma GetMsgCase(s: State, i: nat, o: Obj, env: Env)
    requires i < |s.sessions| && Defined(s, i, o.pk) && o.pk.ptype == GET_MSG_PACKET && s.sessions[i].auth != NotAuth
    ensures Destroyed(Fetched(s, i, o.pk), o.addr) == Interpret(s, i, o, env)
  {
    Unwritten(s, i);
  }

  lemma GetGeoCase(s: State, i: nat, o: Obj, env: Env)
    requires i < |s.sessions| && Defined(s, i, o.pk) && o.pk.ptype == GET_GEO_PACKET && s.sessions[i].auth != NotAuth
    ensures Located(s, i, o) == Interpret(s, i, o, env)
  {
    Unwritten(s, i);
  }

  lemma OtherCases(s: State, i: nat, o: Obj, env: Env)
    requires i < |s.sessions| && Defined(s, i, o.pk)
    requires o.pk.ptype !in {AUTH_PACKET, MSG_PACKET, GET_MSG_PACKET, GET_GEO_PACKET} || TurnedAway(s, i, o.pk)
    ensures Switched(s, i, o, env) == Interpret(s, i, o, env)
  {
    Unwritten(s, i);
  }

  /** Working through the switch, effect after effect, comes to what module Protocol says. */
  lemma SwitchIsInterpret(s: State, i: nat, o: Obj, env: Env)
    requires i < |s.sessions| && Defined(s, i, o.pk)
    ensures Switched(s, i, o, env) == Interpret(s, i, o, env)
  {
    var t := o.pk.ptype;
    if t == AUTH_PACKET {
      AuthCase(s, i, o, env);
    } else if TurnedAway(s, i, o.pk) {
      OtherCases(s, i, o, env);
    } else if t == MSG_PACKET {
      MsgCase(s, i, o, env);
    } else if t == GET_MSG_PACKET {
      GetMsgCase(s, i, o, env);
    } else if t == GET_GEO_PACKET {
      GetGeoCase(s, i, o, env);
    } else {
      OtherCases(s, i, o, env);
    }
  }
}
