/** The routing engine of connect_handler.c as a state machine over values. A step is: a
    client connects, a session handles one packet read from its socket, a session dequeues
    and handles one packet, or a finished session is cleaned up; any session may step next.

    What handling a packet does is given effect by effect (what is written to the socket,
    what is put in whose queue, what is destroyed, what happens to each field), so that the
    handlers of module ConnectHandler, which work through the packet switch statement by
    statement, are checked against a description in another form. */
module Protocol {
  import opened Wire

  const REG_PACKET := 9
  const AUTH_PACKET := 10
  const USERS_PACKET := 11
  const GET_ALL_USERS_PACKET := 12
  const LOGOUT_PACKET := 13
  const GEO_PACKET := 20
  const GET_GEO_PACKET := 21
  const SET_GEO_PACKET := 22
  const MSG_PACKET := 30
  const GET_MSG_PACKET := 32
  const ACK_PACKET := 40
  const FIN_PACKET := 42
  const CLOSE_PACKET := 43

  const COORD_DATA := 10
  const NAME_BUF_SIZE := 100
  const PASSWD_BUF_SIZE := 120

  // ---------- data ----------

  // user_auth_level
  datatype Auth = NotAuth | Authed | ToExit

  // A coordinate as "%f" prints it: at most 47 characters for a float, none of them a delimiter.
  type Coord = c: string | 0 < |c| <= 47 && BAR !in c && ':' !in c witness "0"

  datatype Loc = Loc(lattitude: Coord, longitude: Coord)

  function LocText(l: Loc): string { l.lattitude + ":" + l.longitude }

  // A packet object on the heap: `addr` is its allocation number, `reader` the session whose
  // handler allocated it.
  datatype Obj = Obj(addr: nat, reader: nat, pk: Packet)

  // One `send`. Msg and Geo carry the packet object that is relayed.
  datatype Write =
    | Ack(userid: int)
    | Fin
    | UserRow(userid: int, id: int, name: string)
    | UsersDone(userid: int)
    | Msg(o: Obj)
    | Stored(o: Obj)
    | OwnGeo(sender: int, receiver: int, loc: Loc)
    | Geo(o: Obj)

  // A thread_block. `linked`: its node is in the list of threads. `cancelled`: cancellation
  // is pending; cancellation is deferred, so a packet already queued may still be handled.
  datatype Session = Session(
    live: bool, linked: bool, userid: int, auth: Auth, cancelled: bool,
    queue: seq<Obj>, loc: Loc, revision: nat, out: seq<Write>)

  // A row of `users`; AUTO_INCREMENT makes the id of the row at index k equal to k + 1.
  datatype User = User(name: string, passwd: string)

  // A row of `messages`; `pending` means time_received = -1.
  datatype Row = Row(o: Obj, timeSent: int, pending: bool)

  // `table` is the address table, `freed` the packet objects destroyed so far, in order, and
  // `next` the next allocation number. Sessions are never forgotten: a destroyed one is not
  // live.
  datatype State = State(
    maxConn: nat, sessions: seq<Session>, table: map<int, nat>,
    users: seq<User>, messages: seq<Row>, freed: seq<nat>, next: nat, listLen: int)

  // What one handling step takes from outside: the clock, and the text that printing a
  // parsed coordinate gives (floating point is left out).
  datatype Env = Env(now: int, render: string -> Coord)

  datatype Event =
    | Connect
    | Recv(sid: nat, pk: Packet, env: Env)
    | Dequeue(sid: nat, env: Env)
    | Cleanup(sid: nat)

  const NOWHERE: Loc := Loc("-1.000000", "-1.000000")

  function Init(maxConn: nat): State { State(maxConn, [], map[], [], [], [], 0, 0) }

  // ---------- what is written to a client ----------

  // The packet a write prints.
  function Printed(w: Write): Packet {
    match w
    case Ack(u) => Packet(ACK_PACKET, u, -1, -1, "ACK")
    case Fin => Packet(FIN_PACKET, -1, -1, -1, "FIN")
    case UserRow(u, id, name) => Packet(USERS_PACKET, u, u, COORD_DATA, Decimal(id) + ":" + name)
    case UsersDone(u) => Packet(FIN_PACKET, u, u, 0, "0")
    case Msg(o) => o.pk.(ptype := MSG_PACKET)
    case Stored(o) => o.pk.(ptype := MSG_PACKET)
    case OwnGeo(a, b, loc) => Packet(GEO_PACKET, a, b, COORD_DATA, LocText(loc))
    case Geo(o) => o.pk.(ptype := GEO_PACKET, tmsg := COORD_DATA)
  }

  // The text that goes to the socket.
  function Text(w: Write): string { PrintToBuffer(Printed(w)) }

  // ---------- lookups ----------

  // getAddrFromaddrTable. Entries always name a session; the bound only makes the function
  // total.
  function Lookup(s: State, id: int): (r: Option<nat>)
    ensures r.Some? ==> id in s.table && s.table[id] == r.value < |s.sessions|
  {
    if id in s.table && s.table[id] < |s.sessions| then Some(s.table[id]) else None
  }

  // The first two words of a ':'-separated message, when there are two.
  function Credentials(m: string): Option<User> {
    var ws := Tokens(m, ':');
    if |ws| < 2 then None else Some(User(ws[0], ws[1]))
  }

  // The id of the first row with these credentials.
  function FindUser(users: seq<User>, u: User): (r: Option<int>)
    ensures r.Some? ==> 1 <= r.value <= |users| && users[r.value - 1] == u
    ensures r.None? ==> u !in users
  {
    if users == [] then None
    else if users[0] == u then Some(1)
    else match FindUser(users[1..], u) { case Some(id) => Some(id + 1) case None => None }
  }

  // Name and password fit the buffers they are copied to.
  predicate BuffersFit(m: string) {
    Credentials(m).Some? ==>
      |Credentials(m).value.name| < NAME_BUF_SIZE && |Credentials(m).value.passwd| < PASSWD_BUF_SIZE
  }

  // The id an AUTH packet names, if any.
  function ClaimedId(s: State, pk: Packet): Option<int> {
    match Credentials(pk.msg)
    case None => None
    case Some(u) => FindUser(s.users, u)
  }

  // An AUTH packet is accepted when its user exists and is not online.
  predicate LogsIn(s: State, pk: Packet) {
    var id := ClaimedId(s, pk);
    id.Some? && id.value !in s.table
  }

  predicate Registers(s: State, pk: Packet) {
    var u := Credentials(pk.msg);
    u.Some? && u.value !in s.users
  }

  // NOT_YET_AUTHENTICATED_EXIT fires.
  predicate TurnedAway(s: State, i: nat, pk: Packet)
    requires i < |s.sessions|
  {
    s.sessions[i].auth == NotAuth && pk.ptype != REG_PACKET && pk.ptype != AUTH_PACKET
  }

  // Someone asks this session for its location.
  predicate Asked(me: Session, pk: Packet) { me.userid == pk.receiver && pk.sender != pk.receiver }

  // This session asks for someone's location.
  predicate Asking(me: Session, pk: Packet) { me.userid == pk.sender && pk.sender != pk.receiver }

  // ---------- stored messages ----------

  predicate Waits(r: Row, id: int) { r.pending && r.o.pk.receiver == id }

  // SELECT ... WHERE receiver_id = id AND time_received = '-1'
  function Select(ms: seq<Row>, id: int): seq<Row> {
    if ms == [] then []
    else (if Waits(ms[0], id) then [ms[0]] else []) + Select(ms[1..], id)
  }

  function InsertByTime(r: Row, rs: seq<Row>): seq<Row> {
    if rs == [] || r.timeSent <= rs[0].timeSent then [r] + rs
    else [rs[0]] + InsertByTime(r, rs[1..])
  }

  // ORDER BY time_sent ASC; rows sent at the same time keep their order.
  function ByTime(rs: seq<Row>): seq<Row> {
    if rs == [] then [] else InsertByTime(rs[0], ByTime(rs[1..]))
  }

  // UPDATE ... SET time_received, for the same rows.
  function MarkReceived(ms: seq<Row>, id: int): (r: seq<Row>)
    ensures |r| == |ms|
  {
    seq(|ms|, k requires 0 <= k < |ms| => if Waits(ms[k], id) then ms[k].(pending := false) else ms[k])
  }

  function StoredWrites(rs: seq<Row>): (r: seq<Write>)
    ensures |r| == |rs|
  {
    seq(|rs|, k requires 0 <= k < |rs| => Stored(rs[k].o))
  }

  // ---------- the effects of handling packet `o` at session `i` ----------

  // GET_ALL_USERS needs a count that is not negative: row `count + 1` is fetched and used
  // without looking whether there is one. SET_GEO needs its two words, and credentials must
  // fit the name and password buffers. Outside these the C program has no defined behaviour.
  predicate Defined(s: State, i: nat, pk: Packet)
    requires i < |s.sessions|
  {
    && (pk.ptype == GET_ALL_USERS_PACKET && !TurnedAway(s, i, pk) ==> 0 <= Atoi(pk.msg) <= INT_MAX)
    && (pk.ptype == SET_GEO_PACKET && !TurnedAway(s, i, pk) ==> |Tokens(pk.msg, ':')| >= 2)
    && (pk.ptype in {REG_PACKET, AUTH_PACKET} ==> BuffersFit(pk.msg))
  }

  function Writes(s: State, i: nat, o: Obj): seq<Write>
    requires i < |s.sessions| && Defined(s, i, o.pk)
  {
    var me, pk := s.sessions[i], o.pk;
    if pk.ptype == REG_PACKET then [if Registers(s, pk) then Ack(-1) else Fin]
    else if pk.ptype == AUTH_PACKET then [if LogsIn(s, pk) then Ack(ClaimedId(s, pk).value) else Fin]
    else if TurnedAway(s, i, pk) then []
    else if pk.ptype == GET_ALL_USERS_PACKET then
      var count := Atoi(pk.msg);
      [if |s.users| > count then UserRow(me.userid, count + 1, s.users[count].name) else UsersDone(me.userid)]
    else if pk.ptype == MSG_PACKET then (if pk.receiver == me.userid then [Msg(o)] else [])
    else if pk.ptype == GET_MSG_PACKET then
      (if pk.sender == me.userid then StoredWrites(ByTime(Select(s.messages, me.userid))) else [])
    else if pk.ptype == GET_GEO_PACKET then
      if pk.sender == pk.receiver then [OwnGeo(pk.sender, pk.receiver, me.loc)]
      else if Asked(me, pk) && Lookup(s, pk.sender).None? then [Ack(-1)]
      else if Asking(me, pk) && Lookup(s, pk.receiver).None? then [Ack(-1)]
      else []
    else if pk.ptype == GEO_PACKET then [Geo(o)]
    else []
  }

  // The reply of the session asked for its location.
  function GeoReply(s: State, i: nat, pk: Packet): Obj
    requires i < |s.sessions|
  {
    Obj(s.next, i, Packet(GEO_PACKET, pk.receiver, pk.sender, COORD_DATA, LocText(s.sessions[i].loc)))
  }

  datatype Delivery = Delivery(target: nat, what: Obj)

  // What is put in whose queue.
  function Routed(s: State, i: nat, o: Obj): (d: Option<Delivery>)
    requires i < |s.sessions|
    ensures d.Some? ==> d.value.target < |s.sessions|
  {
    var me, pk := s.sessions[i], o.pk;
    if TurnedAway(s, i, pk) then None
    else if pk.ptype == MSG_PACKET && pk.receiver != me.userid then
      match Lookup(s, pk.receiver) { case Some(j) => Some(Delivery(j, o)) case None => None }
    else if pk.ptype == GET_GEO_PACKET && Asked(me, pk) then
      match Lookup(s, pk.sender) { case Some(j) => Some(Delivery(j, GeoReply(s, i, pk))) case None => None }
    else if pk.ptype == GET_GEO_PACKET && Asking(me, pk) then
      match Lookup(s, pk.receiver) { case Some(j) => Some(Delivery(j, o)) case None => None }
    else None
  }

  // Whether the handler allocates a reply.
  predicate Replies(s: State, i: nat, pk: Packet)
    requires i < |s.sessions|
  {
    !TurnedAway(s, i, pk) && pk.ptype == GET_GEO_PACKET && Asked(s.sessions[i], pk) && Lookup(s, pk.sender).Some?
  }

  // Whether the handler destroys the packet it was given.
  predicate Destroys(s: State, i: nat, pk: Packet)
    requires i < |s.sessions|
  {
    || pk.ptype in {REG_PACKET, AUTH_PACKET, GET_MSG_PACKET, SET_GEO_PACKET}
    || TurnedAway(s, i, pk)
    || (pk.ptype == GET_GEO_PACKET && Asking(s.sessions[i], pk) && Lookup(s, pk.receiver).None?)
  }

  // Whether the handler ends its own session.
  predicate Ends(s: State, i: nat, pk: Packet)
    requires i < |s.sessions|
  {
    || (pk.ptype == AUTH_PACKET && !LogsIn(s, pk))
    || (pk.ptype in {LOGOUT_PACKET, CLOSE_PACKET} && !TurnedAway(s, i, pk) && pk.sender == s.sessions[i].userid)
  }

  // The session's own fields afterwards; its queue is not touched here.
  function Updated(s: State, i: nat, o: Obj, env: Env): Session
    requires i < |s.sessions| && Defined(s, i, o.pk)
  {
    var me, pk := s.sessions[i], o.pk;
    me.(out := me.out + Writes(s, i, o),
        cancelled := me.cancelled || TurnedAway(s, i, pk) || Ends(s, i, pk),
        auth := if Ends(s, i, pk) then ToExit else if pk.ptype == AUTH_PACKET then Authed else me.auth,
        userid := if pk.ptype == AUTH_PACKET && ClaimedId(s, pk).Some? then ClaimedId(s, pk).value else me.userid,
        revision := if pk.ptype == GET_ALL_USERS_PACKET && !TurnedAway(s, i, pk) then |s.users| else me.revision,
        loc := if pk.ptype == SET_GEO_PACKET && !TurnedAway(s, i, pk) then
                 Loc(env.render(Tokens(pk.msg, ':')[0]), env.render(Tokens(pk.msg, ':')[1]))
               else me.loc)
  }

  function PutInQueue(ss: seq<Session>, d: Option<Delivery>): (r: seq<Session>)
    requires d.Some? ==> d.value.target < |ss|
    ensures |r| == |ss|
  {
    match d
    case None => ss
    case Some(Delivery(j, o)) => ss[j := ss[j].(queue := ss[j].queue + [o])]
  }

  function Messages(s: State, i: nat, o: Obj, env: Env): seq<Row>
    requires i < |s.sessions|
  {
    var me, pk := s.sessions[i], o.pk;
    if TurnedAway(s, i, pk) then s.messages
    else if pk.ptype == MSG_PACKET && pk.receiver != me.userid && Lookup(s, pk.receiver).None? then
      s.messages + [Row(o, env.now, true)]
    else if pk.ptype == GET_MSG_PACKET && pk.sender == me.userid then MarkReceived(s.messages, me.userid)
    else s.messages
  }

  // interpret_packets
  function Interpret(s: State, i: nat, o: Obj, env: Env): (r: State)
    requires i < |s.sessions| && Defined(s, i, o.pk)
    ensures |r.sessions| == |s.sessions|
  {
    State(
      s.maxConn,
      PutInQueue(s.sessions[i := Updated(s, i, o, env)], Routed(s, i, o)),
      if o.pk.ptype == AUTH_PACKET && LogsIn(s, o.pk) then s.table[ClaimedId(s, o.pk).value := i] else s.table,
      if o.pk.ptype == REG_PACKET && Registers(s, o.pk) then s.users + [Credentials(o.pk.msg).value] else s.users,
      Messages(s, i, o, env),
      if Destroys(s, i, o.pk) then s.freed + [o.addr] else s.freed,
      if Replies(s, i, o.pk) then s.next + 1 else s.next,
      s.listLen)
  }

  // ---------- steps ----------

  function Addrs(q: seq<Obj>): (r: seq<nat>)
    ensures |r| == |q| && forall k :: 0 <= k < |q| ==> r[k] == q[k].addr
  {
    seq(|q|, k requires 0 <= k < |q| => q[k].addr)
  }

  predicate Alive(s: State, i: nat) { i < |s.sessions| && s.sessions[i].live }

  predicate Enabled(s: State, e: Event) {
    match e
    case Connect => true
    case Recv(i, pk, env) =>
      && Alive(s, i) && !s.sessions[i].cancelled && s.sessions[i].auth != ToExit
      && WellFormed(pk) && Defined(s, i, pk)
    case Dequeue(i, env) =>
      Alive(s, i) && s.sessions[i].queue != [] && Defined(s, i, s.sessions[i].queue[0].pk)
    case Cleanup(i) =>
      Alive(s, i) && (s.sessions[i].cancelled || s.sessions[i].auth == ToExit)
  }

  // create_thread_node and init_connection_handler: one connection too many is refused.
  function Connected(s: State): State {
    if s.listLen > s.maxConn then
      s.(sessions := s.sessions + [Session(true, false, -1, ToExit, true, [], NOWHERE, 0, [])])
    else
      s.(sessions := s.sessions + [Session(true, true, -1, NotAuth, false, [], NOWHERE, 0, [])],
         listLen := s.listLen + 1)
  }

  // The packet a Recv event brings, as an object.
  function Fresh(s: State, e: Event): Obj
    requires e.Recv?
  {
    Obj(s.next, e.sid, e.pk)
  }

  function Popped(s: State, i: nat): State
    requires i < |s.sessions| && s.sessions[i].queue != []
  {
    s.(sessions := s.sessions[i := s.sessions[i].(queue := s.sessions[i].queue[1..])])
  }

  // destroy_handlers_block: whatever entry the table has under this session's id goes, and
  // the packets still queued are destroyed.
  function CleanedUp(s: State, i: nat): State
    requires i < |s.sessions|
  {
    var me := s.sessions[i];
    s.(sessions := s.sessions[i := me.(live := false, linked := false, auth := ToExit, queue := [])],
       table := s.table - {me.userid},
       freed := s.freed + Addrs(me.queue),
       listLen := if me.linked then s.listLen - 1 else s.listLen)
  }

  // An event that is not enabled changes nothing.
  function Step(s: State, e: Event): State {
    if !Enabled(s, e) then s
    else
      match e
      case Connect => Connected(s)
      case Recv(i, pk, env) => Interpret(s.(next := s.next + 1), i, Fresh(s, e), env)
      case Dequeue(i, env) =>
        var o := s.sessions[i].queue[0];
        var r := Interpret(Popped(s, i), i, o, env);
        r.(freed := r.freed + [o.addr])
      case Cleanup(i) => CleanedUp(s, i)
  }

  function Run(s: State, es: seq<Event>): State
    decreases |es|
  {
    if es == [] then s else Step(Run(s, es[..|es| - 1]), es[|es| - 1])
  }

  // AUTH is handled only on sessions that have not authenticated.
  predicate Legal(s: State, e: Event) {
    e.Recv? && Enabled(s, e) && e.pk.ptype == AUTH_PACKET ==> s.sessions[e.sid].auth == NotAuth
  }

  predicate LegalRun(s: State, es: seq<Event>)
    decreases |es|
  {
    es == [] ||
    (LegalRun(s, es[..|es| - 1]) && Legal(Run(s, es[..|es| - 1]), es[|es| - 1]))
  }
}
