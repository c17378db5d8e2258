/** What every request a client can send comes to: from the text that is read to the texts that
    are written and the one change made to the server, with the numbers that are on the wire. */
module Requests {
  import opened Wire
  import opened Protocol
  import opened RoutingSafety
  import opened Directory
  import opened Texts

  // Session i reads a text, which is this packet.
  ghost predicate Gets(s: State, i: nat, text: string, pk: Packet) {
    && Alive(s, i) && !s.sessions[i].cancelled && s.sessions[i].auth != ToExit
    && StringToPacket(text) == Complete(pk) && IntHeader(pk)
  }

  // The same for a session that has authenticated.
  ghost predicate Asks(s: State, i: nat, text: string, pk: Packet) {
    Gets(s, i, text, pk) && s.sessions[i].auth == Authed
  }

  lemma TextIsWellFormed(text: string, pk: Packet)
    requires StringToPacket(text) == Complete(pk) && IntHeader(pk)
    ensures WellFormed(pk)
  {
    assert |Tokens(text, BAR)| >= 5;
    ParsedIsPlain(text);
  }

  // The server after the packet is read and destroyed.
  function Spent(s: State): State { s.(next := s.next + 1, freed := s.freed + [s.next]) }

  // Session i has become x.
  function Become(s: State, i: nat, x: Session): State
    requires i < |s.sessions|
  {
    s.(sessions := s.sessions[i := x])
  }

  lemma Unchanged(s: State, i: nat)
    requires i < |s.sessions|
    ensures s.sessions[i].(out := s.sessions[i].out + []) == s.sessions[i]
    ensures s.sessions[i := s.sessions[i]] == s.sessions
  {
    assert s.sessions[i].out + [] == s.sessions[i].out;
  }

  // The message is two words and perhaps more.
  predicate TwoWordsFirst(m: string, a: string, b: string) {
    && a != [] && b != [] && ':' !in a && ':' !in b
    && (m == a + ":" + b || (|m| > |a| + |b| + 1 && m[..|a| + |b| + 2] == a + ":" + b + ":"))
  }

  lemma SkipOne(s: string)
    ensures Tokens(":" + s, ':') == Tokens(s, ':')
  {
    assert (":" + s)[1..] == s;
  }

  lemma WordsAre(m: string, a: string, b: string)
    requires TwoWordsFirst(m, a, b)
    ensures |Tokens(m, ':')| >= 2 && Tokens(m, ':')[0] == a && Tokens(m, ':')[1] == b
    ensures Credentials(m) == Some(User(a, b))
  {
    hide Tokens;
    var rest := m[|a| + |b| + 1..];
    assert m == a + (":" + (b + rest)) by {
      assert m[..|a| + |b| + 1] == a + ":" + b;
      assert m == m[..|a| + |b| + 1] + rest;
    }
    FirstToken(a, ':', ":" + (b + rest));
    assert (":" + (b + rest))[1..] == b + rest;
    SkipOne(b + rest);
    if rest != [] { assert m[..|a| + |b| + 2][|a| + |b| + 1] == ':'; }
    FirstToken(b, ':', rest);
  }

  // ---------- connecting ----------

  // A session nobody has used, at -1 and -1.
  function NewSession(linked: bool, auth: Auth, cancelled: bool): Session {
    Session(true, linked, -1, auth, cancelled, [], Loc("-1.000000", "-1.000000"), 0, [])
  }

  /** A connection too many is over at once, and its cleanup leaves nothing behind; any other one
      counts, and is not over. Nothing else changes. */
  lemma Arrive(s: State)
    requires TableSound(s)
    ensures var i, r := |s.sessions|, Step(s, Connect);
            && (s.listLen > s.maxConn ==>
                  var x := NewSession(false, ToExit, true);
                  && r == s.(sessions := s.sessions + [x]) && Enabled(r, Cleanup(i))
                  && Step(r, Cleanup(i)) == s.(sessions := s.sessions + [x.(live := false)]))
            && (s.listLen <= s.maxConn ==>
                  && r == s.(sessions := s.sessions + [NewSession(true, NotAuth, false)], listLen := s.listLen + 1)
                  && !Enabled(r, Cleanup(i)))
  {
    assert s.table - {-1} == s.table;
    assert s.freed + [] == s.freed;
    if s.listLen > s.maxConn {
      var x := NewSession(false, ToExit, true);
      assert (s.sessions + [x])[|s.sessions| := x.(live := false)] == s.sessions + [x.(live := false)];
    }
  }

  /** A session that is over and cleaned up does nothing any more. Its id leaves the table, what
      was in its queue is destroyed from the front, its node leaves the thread list if it was in
      it, and nothing else changes. */
  lemma CleanUp(s: State, i: nat)
    requires Enabled(s, Cleanup(i))
    ensures var x, r := s.sessions[i], Step(s, Cleanup(i));
            && r == s.(table := r.table, freed := r.freed, listLen := s.listLen - if x.linked then 1 else 0,
                       sessions := s.sessions[i := x.(live := false, linked := false, auth := ToExit, queue := [])])
            && (forall id :: id in r.table <==> id in s.table && id != x.userid)
            && (forall id :: id in r.table ==> r.table[id] == s.table[id])
            && |r.freed| == |s.freed| + |x.queue| && s.freed <= r.freed
            && (forall k :: 0 <= k < |x.queue| ==> r.freed[|s.freed| + k] == x.queue[k].addr)
            && forall e: Event :: !e.Connect? && e.sid == i ==> !Enabled(r, e)
  {
    hide Interpret, Connected, Defined, PutInQueue;
    var r := Step(s, Cleanup(i));
    assert r == CleanedUp(s, i);
    hide Step;
    forall e: Event | !e.Connect? && e.sid == i ensures !Enabled(r, e) { DeadIsDisabled(r, e); }
  }

  lemma DeadIsDisabled(s: State, e: Event)
    requires !e.Connect? && !Alive(s, e.sid)
    ensures !Enabled(s, e)
  {
  }

  // ---------- the queue ----------

  /** What a session takes from its queue: messages and location replies are written to its
      client, a request for its location is answered, and the packet is destroyed. */
  lemma TakeFromQueue(s: State, i: nat, env: Env)
    requires Inv(s) && Alive(s, i) && s.sessions[i].queue != []
    ensures var x, o, r := s.sessions[i], s.sessions[i].queue[0], Step(s, Dequeue(i, env));
            var t := Become(s, i, x.(queue := x.queue[1..]));
            var kind := if o.pk.ptype == 30 then "30" else "20";
            var tmsg := if o.pk.ptype == 30 then Decimal(o.pk.tmsg) else "10";
            && o.pk.ptype in {20, 21, 30}
            && (o.pk.ptype != 21 ==>
                  exists w ::
                    && Text(w) == FirstChars(Line(kind, o.pk.sender, o.pk.receiver, tmsg, o.pk.msg), 199)
                    && r == Become(t, i, t.sessions[i].(out := x.out + [w])).(freed := s.freed + [o.addr]))
            && (o.pk.ptype == 21 ==>
                  r == Interpret(t, i, o, env).(freed := s.freed + [o.addr])
                  && o.pk.sender != o.pk.receiver && o.pk.receiver == x.userid)
  {
    hide Text;
    var x, o := s.sessions[i], s.sessions[i].queue[0];
    QueuedIsDefined(s, i, env);
    PoppedIsSound(s, i);
    DequeueStep(s, Dequeue(i, env));
    RelayedTexts(o);
    var w := if o.pk.ptype == 30 then Msg(o) else Geo(o);
    if o.pk.ptype != 21 {
      var t := Become(s, i, x.(queue := x.queue[1..]));
      assert Step(s, Dequeue(i, env)) == Become(t, i, t.sessions[i].(out := x.out + [w])).(freed := s.freed + [o.addr]);
    }
  }

  // ---------- registering and logging in ----------

  /** "|9|..|name:password|": new credentials become the last row and are acknowledged, known ones
      are refused. */
  lemma Register(s: State, i: nat, text: string, pk: Packet, env: Env, name: string, passwd: string)
    requires Gets(s, i, text, pk) && pk.ptype == 9 && TwoWordsFirst(pk.msg, name, passwd)
    requires |name| < 100 && |passwd| < 120
    ensures Enabled(s, Recv(i, pk, env))
    ensures var u, r := User(name, passwd), Step(s, Recv(i, pk, env));
            exists w ::
              && Text(w) == (if u in s.users then "|42|-1|-1|-1|FIN|" else "|40|-1|-1|-1|ACK|")
              && r == Become(Spent(s), i, s.sessions[i].(out := s.sessions[i].out + [w])).(
                        users := if u in s.users then s.users else s.users + [u])
  {
    hide StringToPacket, Text, Tokens;
    TextIsWellFormed(text, pk);
    WordsAre(pk.msg, name, passwd);
    var w := if User(name, passwd) in s.users then Fin else Ack(-1);
    AckText(-1);
    FinText();
    assert Decimal(-1) == "-1" by { SmallNumbers(); }
    assert "|40|" + "-1" + "|-1|-1|ACK|" == "|40|-1|-1|-1|ACK|";
    RecvStep(s, Recv(i, pk, env));
    assert Step(s, Recv(i, pk, env)) == Become(Spent(s), i, s.sessions[i].(out := s.sessions[i].out + [w])).(
      users := if w.Fin? then s.users else s.users + [User(name, passwd)]);
  }

  // A message without two words is refused.
  lemma RegisterNothing(s: State, i: nat, text: string, pk: Packet, env: Env)
    requires Gets(s, i, text, pk) && pk.ptype == 9 && |Tokens(pk.msg, ':')| < 2
    ensures Enabled(s, Recv(i, pk, env))
    ensures var r := Step(s, Recv(i, pk, env));
            exists w ::
              Text(w) == "|42|-1|-1|-1|FIN|" && r == Become(Spent(s), i, s.sessions[i].(out := s.sessions[i].out + [w]))
  {
    hide StringToPacket, Text, Tokens;
    TextIsWellFormed(text, pk);
    FinText();
    RecvStep(s, Recv(i, pk, env));
    assert Step(s, Recv(i, pk, env)) == Become(Spent(s), i, s.sessions[i].(out := s.sessions[i].out + [Fin]));
  }

  /** "|10|..|name:password|" from a session that has not authenticated, with the credentials of
      row k + 1: it becomes that user's session, or, when the user is online, is refused and over
      with the id set all the same. */
  lemma LogIn(s: State, i: nat, text: string, pk: Packet, env: Env, k: nat)
    requires Gets(s, i, text, pk) && pk.ptype == 10 && s.sessions[i].auth == NotAuth
    requires k < |s.users| <= INT_MAX && Distinct(s.users) && TwoWordsFirst(pk.msg, s.users[k].name, s.users[k].passwd)
    requires |s.users[k].name| < 100 && |s.users[k].passwd| < 120
    ensures Enabled(s, Recv(i, pk, env))
    ensures var x, r := s.sessions[i], Step(s, Recv(i, pk, env));
            exists w ::
              && (k + 1 !in s.table ==>
                    && Text(w) == "|40|" + Decimal(k + 1) + "|-1|-1|ACK|"
                    && r == Become(Spent(s), i, x.(out := x.out + [w], auth := Authed, userid := k + 1)).(
                              table := s.table[k + 1 := i]))
              && (k + 1 in s.table ==>
                    && Text(w) == "|42|-1|-1|-1|FIN|"
                    && r == Become(Spent(s), i,
                                   x.(out := x.out + [w], auth := ToExit, cancelled := true, userid := k + 1)))
  {
    hide StringToPacket, Text, Tokens;
    TextIsWellFormed(text, pk);
    WordsAre(pk.msg, s.users[k].name, s.users[k].passwd);
    assert ClaimedId(s, pk) == Some(k + 1);
    var w := if k + 1 in s.table then Fin else Ack(k + 1);
    AckText(k + 1);
    FinText();
    RecvStep(s, Recv(i, pk, env));
    var x, r := s.sessions[i], Step(s, Recv(i, pk, env));
    if k + 1 in s.table {
      assert r == Become(Spent(s), i, x.(out := x.out + [w], auth := ToExit, cancelled := true, userid := k + 1));
    } else {
      assert r == Become(Spent(s), i, x.(out := x.out + [w], auth := Authed, userid := k + 1)).(
                    table := s.table[k + 1 := i]);
    }
  }

  // The same text with credentials no row has, or none at all.
  lemma LogInNobody(s: State, i: nat, text: string, pk: Packet, env: Env)
    requires Gets(s, i, text, pk) && pk.ptype == 10 && BuffersFit(pk.msg)
    requires Credentials(pk.msg).None? || Credentials(pk.msg).value !in s.users
    ensures Enabled(s, Recv(i, pk, env))
    ensures var x, r := s.sessions[i], Step(s, Recv(i, pk, env));
            exists w ::
              && Text(w) == "|42|-1|-1|-1|FIN|"
              && r == Become(Spent(s), i, x.(out := x.out + [w], auth := ToExit, cancelled := true))
  {
    hide StringToPacket, Text, Tokens;
    TextIsWellFormed(text, pk);
    FinText();
    RecvStep(s, Recv(i, pk, env));
    var x, r := s.sessions[i], Step(s, Recv(i, pk, env));
    assert r == Become(Spent(s), i, x.(out := x.out + [Fin], auth := ToExit, cancelled := true));
  }

  /** Any other text from a session that has not authenticated is thrown away and ends it. */
  lemma StrangerIsEnded(s: State, i: nat, text: string, pk: Packet, env: Env)
    requires Gets(s, i, text, pk) && s.sessions[i].auth == NotAuth && pk.ptype != 9 && pk.ptype != 10
    ensures Enabled(s, Recv(i, pk, env))
    ensures Step(s, Recv(i, pk, env)) == Become(Spent(s), i, s.sessions[i].(cancelled := true))
    ensures Enabled(Step(s, Recv(i, pk, env)), Cleanup(i))
  {
    hide StringToPacket, Tokens;
    TextIsWellFormed(text, pk);
    RecvStep(s, Recv(i, pk, env));
    Unchanged(s, i);
  }

  // ---------- leaving ----------

  /** "|13|sender|..|" and "|43|sender|..|": the session is over exactly when the sender is its own
      user; otherwise nothing happens. */
  lemma Leave(s: State, i: nat, text: string, pk: Packet, env: Env)
    requires Asks(s, i, text, pk) && (pk.ptype == 13 || pk.ptype == 43)
    ensures Enabled(s, Recv(i, pk, env))
    ensures var r := Step(s, Recv(i, pk, env));
            && (pk.sender == s.sessions[i].userid ==>
                  && r == Become(Allocated(s), i, s.sessions[i].(auth := ToExit, cancelled := true))
                  && Enabled(r, Cleanup(i)))
            && (pk.sender != s.sessions[i].userid ==> r == Allocated(s) && !Enabled(r, Cleanup(i)))
  {
    hide StringToPacket, Tokens;
    TextIsWellFormed(text, pk);
    RecvStep(s, Recv(i, pk, env));
    Unchanged(s, i);
  }

  // ---------- users ----------

  /** "|12|..|count|": the row after the first `count`, or that there is none. */
  lemma AskForUsers(s: State, i: nat, text: string, pk: Packet, env: Env)
    requires Asks(s, i, text, pk) && pk.ptype == 12 && 0 <= Atoi(pk.msg) <= INT_MAX && |s.users| <= INT_MAX
    requires IsInt(s.sessions[i].userid) && forall u :: u in s.users ==> |u.name| < 100
    ensures Enabled(s, Recv(i, pk, env))
    ensures var count, x := Atoi(pk.msg), s.sessions[i];
            var id := Decimal(x.userid);
            exists w ::
              && Text(w) == (if count < |s.users|
                             then "|11|" + id + "|" + id + "|10|"
                                  + (Decimal(count + 1) + ":" + s.users[count].name) + "|"
                             else "|42|" + id + "|" + id + "|0|0|")
              && Step(s, Recv(i, pk, env)) == Become(Allocated(s), i, x.(out := x.out + [w], revision := |s.users|))
  {
    hide StringToPacket, Text, Tokens;
    TextIsWellFormed(text, pk);
    var count, x := Atoi(pk.msg), s.sessions[i];
    RecvStep(s, Recv(i, pk, env));
    if count < |s.users| {
      var w := UserRow(x.userid, count + 1, s.users[count].name);
      assert s.users[count] in s.users;
      UserRowText(x.userid, count + 1, s.users[count].name);
      assert Step(s, Recv(i, pk, env)) == Become(Allocated(s), i, x.(out := x.out + [w], revision := |s.users|));
    } else {
      var w := UsersDone(x.userid);
      UsersDoneText(x.userid);
      assert Step(s, Recv(i, pk, env)) == Become(Allocated(s), i, x.(out := x.out + [w], revision := |s.users|));
    }
  }

  // ---------- messages ----------

  /** "|30|sender|receiver|tmsg|message|": written at once to the session's own client, queued at
      the session the table names for the receiver, or stored with the time. */
  lemma SendMessage(s: State, i: nat, text: string, pk: Packet, env: Env)
    requires Asks(s, i, text, pk) && pk.ptype == 30 && TableSound(s)
    ensures Enabled(s, Recv(i, pk, env))
    ensures var x, o, r := s.sessions[i], Obj(s.next, i, pk), Step(s, Recv(i, pk, env));
            && (pk.receiver == x.userid ==>
                  exists w ::
                    && Text(w) == FirstChars(Line("30", pk.sender, pk.receiver, Decimal(pk.tmsg), pk.msg), 199)
                    && r == Become(Allocated(s), i, x.(out := x.out + [w])))
            && (pk.receiver != x.userid && pk.receiver in s.table ==>
                  var j := s.table[pk.receiver];
                  r == Become(Allocated(s), j, s.sessions[j].(queue := s.sessions[j].queue + [o])))
            && (pk.receiver != x.userid && pk.receiver !in s.table ==>
                  r == Allocated(s).(messages := s.messages + [Row(o, env.now, true)]))
  {
    hide StringToPacket, Text, Tokens;
    TextIsWellFormed(text, pk);
    RecvStep(s, Recv(i, pk, env));
    Unchanged(s, i);
    var x, o := s.sessions[i], Obj(s.next, i, pk);
    if pk.receiver == x.userid {
      RelayedTexts(o);
      assert Step(s, Recv(i, pk, env)) == Become(Allocated(s), i, x.(out := x.out + [Msg(o)]));
    }
  }

  /** "|32|sender|..|": nothing but the end of the packet unless the sender is the session's own
      user; then its pending rows are written, by time, and are pending no longer. */
  lemma FetchMessages(s: State, i: nat, text: string, pk: Packet, env: Env)
    requires Asks(s, i, text, pk) && pk.ptype == 32
    ensures Enabled(s, Recv(i, pk, env))
    ensures var x, r := s.sessions[i], Step(s, Recv(i, pk, env));
            && (pk.sender != x.userid ==> r == Spent(s))
            && (pk.sender == x.userid ==>
                  r == Become(Spent(s), i, x.(out := x.out + StoredWrites(ByTime(Select(s.messages, x.userid))))).(
                         messages := MarkReceived(s.messages, x.userid)))
  {
    hide StringToPacket, Tokens;
    TextIsWellFormed(text, pk);
    RecvStep(s, Recv(i, pk, env));
    Unchanged(s, i);
  }

  // ---------- locations ----------

  // A location as it is sent.
  function Shown(l: Loc): string { l.lattitude + ":" + l.longitude }

  /** "|22|..|lattitude:longitude|": the session is there now. */
  lemma SetLocation(s: State, i: nat, text: string, pk: Packet, env: Env, a: string, b: string)
    requires Asks(s, i, text, pk) && pk.ptype == 22 && TwoWordsFirst(pk.msg, a, b)
    ensures Enabled(s, Recv(i, pk, env))
    ensures Step(s, Recv(i, pk, env))
         == Become(Spent(s), i, s.sessions[i].(loc := Loc(lattitude := env.render(a), longitude := env.render(b))))
  {
    hide StringToPacket, Tokens;
    TextIsWellFormed(text, pk);
    WordsAre(pk.msg, a, b);
    RecvStep(s, Recv(i, pk, env));
    Unchanged(s, i);
  }

  /** "|21|id|id|..|": the session's own location. */
  lemma AskOwnLocation(s: State, i: nat, text: string, pk: Packet, env: Env)
    requires Asks(s, i, text, pk) && pk.ptype == 21 && pk.sender == pk.receiver
    ensures Enabled(s, Recv(i, pk, env))
    ensures var x := s.sessions[i];
            exists w ::
              && Text(w) == "|20|" + Decimal(pk.sender) + "|" + Decimal(pk.receiver) + "|10|" + Shown(x.loc) + "|"
              && Step(s, Recv(i, pk, env)) == Become(Allocated(s), i, x.(out := x.out + [w]))
  {
    hide StringToPacket, Text, Tokens;
    TextIsWellFormed(text, pk);
    var x := s.sessions[i];
    var w := OwnGeo(pk.sender, pk.receiver, x.loc);
    OwnGeoText(pk.sender, pk.receiver, x.loc.lattitude, x.loc.longitude);
    RecvStep(s, Recv(i, pk, env));
    assert Step(s, Recv(i, pk, env)) == Become(Allocated(s), i, x.(out := x.out + [w]));
  }

  /** "|21|sender|receiver|..|" from the sender's own session: the request goes to the receiver's
      session, or is thrown away and acknowledged when the receiver is not online. */
  lemma AskLocation(s: State, i: nat, text: string, pk: Packet, env: Env)
    requires Asks(s, i, text, pk) && pk.ptype == 21 && pk.sender != pk.receiver && TableSound(s)
    requires pk.sender == s.sessions[i].userid
    ensures Enabled(s, Recv(i, pk, env))
    ensures var x, r := s.sessions[i], Step(s, Recv(i, pk, env));
            && (pk.receiver in s.table ==>
                  var j := s.table[pk.receiver];
                  r == Become(Allocated(s), j, s.sessions[j].(queue := s.sessions[j].queue + [Obj(s.next, i, pk)])))
            && (pk.receiver !in s.table ==>
                  exists w ::
                    Text(w) == "|40|-1|-1|-1|ACK|" && r == Become(Spent(s), i, x.(out := x.out + [w])))
  {
    hide StringToPacket, Text, Tokens;
    TextIsWellFormed(text, pk);
    RecvStep(s, Recv(i, pk, env));
    Unchanged(s, i);
    MinusOneAck();
    if pk.receiver !in s.table {
      var x := s.sessions[i];
      assert Step(s, Recv(i, pk, env)) == Become(Spent(s), i, x.(out := x.out + [Ack(-1)]));
    }
  }

  lemma MinusOneAck()
    ensures Text(Ack(-1)) == "|40|-1|-1|-1|ACK|"
  {
    AckText(-1);
    SmallNumbers();
    assert "|40|" + "-1" + "|-1|-1|ACK|" == "|40|-1|-1|-1|ACK|";
  }

  // The reply session i makes to a request of user `asker`.
  function Reply(s: State, i: nat, addr: nat, asker: int): Obj
    requires i < |s.sessions|
  {
    Obj(addr, i, Packet(20, s.sessions[i].userid, asker, 10, Shown(s.sessions[i].loc)))
  }

  /** The same request at the session asked, from its queue or its own socket: the reply with its
      own location goes to the asker's session, or an acknowledgement to its own client when the
      asker has left. */
  lemma AnswerRequest(s: State, i: nat, o: Obj, env: Env)
    requires Alive(s, i) && s.sessions[i].auth != NotAuth && TableSound(s)
    requires o.pk.ptype == 21 && o.pk.sender != o.pk.receiver && o.pk.receiver == s.sessions[i].userid
    ensures var x, r := s.sessions[i], Interpret(s, i, o, env);
            && (o.pk.sender in s.table ==>
                  var j := s.table[o.pk.sender];
                  var reply := Reply(s, i, s.next, o.pk.sender);
                  r == Become(Allocated(s), j, s.sessions[j].(queue := s.sessions[j].queue + [reply])))
            && (o.pk.sender !in s.table ==>
                  exists w ::
                    Text(w) == "|40|-1|-1|-1|ACK|" && r == Become(s, i, x.(out := x.out + [w])))
  {
    hide Text, Tokens;
    Unchanged(s, i);
    MinusOneAck();
    if o.pk.sender !in s.table {
      var x := s.sessions[i];
      assert Interpret(s, i, o, env) == Become(s, i, x.(out := x.out + [Ack(-1)]));
    }
  }

  // A request between two others does nothing.
  lemma AskForOthers(s: State, i: nat, text: string, pk: Packet, env: Env)
    requires Asks(s, i, text, pk) && pk.ptype == 21 && pk.sender != pk.receiver
    requires s.sessions[i].userid != pk.sender && s.sessions[i].userid != pk.receiver
    ensures Enabled(s, Recv(i, pk, env)) && Step(s, Recv(i, pk, env)) == Allocated(s)
  {
    hide StringToPacket, Tokens;
    TextIsWellFormed(text, pk);
    RecvStep(s, Recv(i, pk, env));
    Unchanged(s, i);
  }

  /** "|20|..|": written to the session's own client. */
  lemma EchoLocation(s: State, i: nat, text: string, pk: Packet, env: Env)
    requires Asks(s, i, text, pk) && pk.ptype == 20
    ensures Enabled(s, Recv(i, pk, env))
    ensures var x := s.sessions[i];
            exists w ::
              && Text(w) == FirstChars(Line("20", pk.sender, pk.receiver, "10", pk.msg), 199)
              && Step(s, Recv(i, pk, env)) == Become(Allocated(s), i, x.(out := x.out + [w]))
  {
    hide StringToPacket, Text, Tokens;
    TextIsWellFormed(text, pk);
    var x, o := s.sessions[i], Obj(s.next, i, pk);
    RelayedTexts(o);
    RecvStep(s, Recv(i, pk, env));
    assert Step(s, Recv(i, pk, env)) == Become(Allocated(s), i, x.(out := x.out + [Geo(o)]));
  }

  /** Texts of any other type do nothing. */
  lemma OtherTexts(s: State, i: nat, text: string, pk: Packet, env: Env)
    requires Asks(s, i, text, pk) && pk.ptype !in {9, 10, 12, 13, 20, 21, 22, 30, 32, 43}
    ensures Enabled(s, Recv(i, pk, env)) && Step(s, Recv(i, pk, env)) == Allocated(s)
  {
    hide StringToPacket, Tokens;
    TextIsWellFormed(text, pk);
    RecvStep(s, Recv(i, pk, env));
    Unchanged(s, i);
  }
}
