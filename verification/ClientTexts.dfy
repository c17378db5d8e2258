/** What a client can make of the texts it is sent: each parses back to the packet the server
    meant, and messages reach only the user they are addressed to. */
module ClientTexts {
  import opened Wire
  import opened Protocol
  import opened RoutingSafety
  import opened MessageFlow
  import opened Mailbox

  // A name as registration leaves it.
  predicate CleanName(name: string) { name != [] && ':' !in name && BAR !in name && |name| < NAME_BUF_SIZE }

  predicate PlainUser(u: User) { CleanName(u.name) }

  // A write at a session of user `id`: it prints a well-formed packet, and a message is
  // addressed to that user.
  ghost predicate WriteSound(w: Write, id: int) {
    && WellFormed(Printed(w))
    && (w.Msg? || w.Stored? ==> w.o.pk.receiver == id && 1 <= id)
    && (w.UserRow? ==> IsInt(w.userid) && IsInt(w.id) && CleanName(w.name))
    && (w.UserRow? || w.OwnGeo? ==> |Printed(w).msg| <= 150)
  }

  ghost predicate TextsSound(s: State) {
    && (forall u :: u in s.users ==> PlainUser(u))
    && (forall r :: r in s.messages ==> WellFormed(r.o.pk))
    && (forall i, w :: 0 <= i < |s.sessions| && w in s.sessions[i].out ==> WriteSound(w, s.sessions[i].userid))
  }

  lemma {:induction false} TokenLetters(s: string, d: char)
    ensures forall t, c :: t in Tokens(s, d) && c in t ==> c in s
    ensures forall t :: t in Tokens(s, d) ==> |t| <= |s|
    decreases |s|
  {
    if s != [] {
      if s[0] == d {
        TokenLetters(s[1..], d);
      } else {
        TokenLetters(s[Span(s, d)..], d);
      }
    }
  }

  lemma NewUserIsPlain(s: State, i: nat, pk: Packet)
    requires i < |s.sessions| && Defined(s, i, pk) && WellFormed(pk)
    requires pk.ptype == REG_PACKET && Credentials(pk.msg).Some?
    ensures PlainUser(Credentials(pk.msg).value)
  {
    TokenLetters(pk.msg, ':');
    TokensAreClean(pk.msg, ':');
    var ts := Tokens(pk.msg, ':');
    assert ts[0] in ts;
  }

  lemma UserRowPrints(id: int, row: int, u: User)
    requires IsInt(id) && IsInt(row) && PlainUser(u)
    ensures var w := UserRow(id, row, u.name); WellFormed(Printed(w)) && |Printed(w).msg| <= 150
  {
    DecimalLength(row);
  }

  lemma WritesAreSound(s: State, i: nat, o: Obj, env: Env)
    requires TableSound(s) && SessionsSound(s) && TextsSound(s) && Handleable(s, i, o)
    requires |s.users| <= INT_MAX && (s.sessions[i].auth == ToExit ==> 1 <= s.sessions[i].userid)
    ensures forall w :: w in Writes(s, i, o) ==> WriteSound(w, Updated(s, i, o, env).userid)
  {
    hide Select, ByTime, Tokens, FindUser;
    var me, pk := s.sessions[i], o.pk;
    assert SessionSound(me, |s.users|);
    forall w | w in Writes(s, i, o) ensures WriteSound(w, Updated(s, i, o, env).userid) {
      if w.UserRow? {
        assert s.users[Atoi(pk.msg)] in s.users;
        UserRowPrints(me.userid, w.id, s.users[Atoi(pk.msg)]);
      } else if w.Stored? {
        StoredIsAddressed(s, i, w);
      }
    }
  }

  lemma StoredIsAddressed(s: State, i: nat, w: Write)
    requires i < |s.sessions| && TextsSound(s) && w.Stored?
    requires w in StoredWrites(ByTime(Select(s.messages, s.sessions[i].userid)))
    ensures w.o.pk.receiver == s.sessions[i].userid && WellFormed(w.o.pk)
  {
    hide Select, ByTime;
    var rs := Select(s.messages, s.sessions[i].userid);
    ByTimePermutes(rs);
    SelectIsExact(s.messages, s.sessions[i].userid);
    var k :| 0 <= k < |ByTime(rs)| && StoredWrites(ByTime(rs))[k] == w;
    assert ByTime(rs)[k] in multiset(rs) && w == Stored(ByTime(rs)[k].o);
  }

  // A session that has not authenticated was sent no message.
  lemma NotAuthHasNoMessages(s: State, i: nat, w: Write)
    requires SessionsSound(s) && TextsSound(s) && i < |s.sessions| && s.sessions[i].auth == NotAuth
    requires w in s.sessions[i].out
    ensures !w.Msg? && !w.Stored?
  {
    assert SessionSound(s.sessions[i], |s.users|);
    assert WriteSound(w, s.sessions[i].userid);
  }

  lemma InterpretKeepsTexts(s: State, i: nat, o: Obj, env: Env)
    requires TableSound(s) && SessionsSound(s) && TextsSound(s) && Handleable(s, i, o)
    requires |s.users| <= INT_MAX && (s.sessions[i].auth == ToExit ==> 1 <= s.sessions[i].userid)
    ensures TextsSound(Interpret(s, i, o, env))
  {
    var r := Interpret(s, i, o, env);
    WritesAreSound(s, i, o, env);
    forall u | u in r.users ensures PlainUser(u) {
      if u !in s.users { NewUserIsPlain(s, i, o.pk); }
    }
    forall m | m in r.messages ensures WellFormed(m.o.pk) {
      MessageOrigin(s, i, o, env, m);
    }
    forall k, w | 0 <= k < |r.sessions| && w in r.sessions[k].out
      ensures WriteSound(w, r.sessions[k].userid)
    {
      if k == i && w in s.sessions[i].out {
        if o.pk.ptype == AUTH_PACKET { NotAuthHasNoMessages(s, i, w); }
        assert WriteSound(w, s.sessions[i].userid);
      }
    }
  }

  // A row of the table holds the object of an earlier row or of the packet just handled.
  lemma MessageOrigin(s: State, i: nat, o: Obj, env: Env, m: Row)
    requires i < |s.sessions| && m in Messages(s, i, o, env)
    ensures m.o == o || exists r :: r in s.messages && r.o == m.o
  {
    if m !in s.messages && m.o != o {
      var ms := s.messages;
      var k :| 0 <= k < |ms| && MarkReceived(ms, s.sessions[i].userid)[k] == m;
      assert ms[k] in ms && ms[k].o == m.o;
    }
  }

  lemma StepKeepsTexts(s: State, e: Event)
    requires Inv(s) && TextsSound(s) && Legal(s, e) && |s.users| <= INT_MAX
    ensures TextsSound(Step(s, e))
  {
    if !Enabled(s, e) {
    } else if e.Recv? {
      RecvIsHandleable(s, e);
      HeapIsIrrelevant(s, s.freed, s.next + 1);
      assert TextsSound(Allocated(s));
      InterpretKeepsTexts(Allocated(s), e.sid, Fresh(s, e), e.env);
    } else if e.Dequeue? {
      DequeueKeepsTexts(s, e);
    }
  }

  lemma DequeueKeepsTexts(s: State, e: Event)
    requires Inv(s) && TextsSound(s) && e.Dequeue? && Enabled(s, e) && |s.users| <= INT_MAX
    ensures TextsSound(Step(s, e))
  {
    var t, o := Popped(s, e.sid), s.sessions[e.sid].queue[0];
    PoppedIsSound(s, e.sid);
    assert SessionSound(s.sessions[e.sid], |s.users|);
    assert TextsSound(t);
    InterpretKeepsTexts(t, e.sid, o, e.env);
    var r := Interpret(t, e.sid, o, e.env);
    assert Step(s, e).sessions == r.sessions && Step(s, e).messages == r.messages && Step(s, e).users == r.users;
  }

  lemma {:induction false} TextsAreSound(maxConn: nat, es: seq<Event>)
    requires LegalRun(Init(maxConn), es) && |Run(Init(maxConn), es).users| <= INT_MAX
    ensures TextsSound(Run(Init(maxConn), es))
    decreases |es|
  {
    if es != [] {
      var t := Run(Init(maxConn), es[..|es| - 1]);
      assert |t.users| <= |Step(t, es[|es| - 1]).users|;
      TextsAreSound(maxConn, es[..|es| - 1]);
      ReachableIsSound(maxConn, es[..|es| - 1]);
      StepKeepsTexts(t, es[|es| - 1]);
    }
  }

  /** Every text a client is ever sent parses, with the server's own parser, to the packet that
      was meant: in full if it was made by the server, and with the message cut to the length
      that fits if it was relayed. */
  lemma ClientsCanParse(maxConn: nat, es: seq<Event>, k: nat, w: Write)
    requires LegalRun(Init(maxConn), es) && |Run(Init(maxConn), es).users| <= INT_MAX
    requires w in OutOf(Run(Init(maxConn), es), k)
    ensures var p := Printed(w);
            && 0 < Surviving(p) <= |p.msg|
            && StringToPacket(Text(w)) == Complete(p.(msg := p.msg[..Surviving(p)]))
            && (!w.Msg? && !w.Stored? && !w.Geo? ==> StringToPacket(Text(w)) == Complete(p))
  {
    var r := Run(Init(maxConn), es);
    TextsAreSound(maxConn, es);
    assert WriteSound(w, r.sessions[k].userid);
    RelayKeepsHeader(Printed(w));
    FieldCharsBound(Printed(w));
  }

  /** Messages, relayed or stored, are written only to a session of the user they are addressed
      to. */
  lemma MessagesReachTheirReceiver(maxConn: nat, es: seq<Event>, k: nat, w: Write)
    requires LegalRun(Init(maxConn), es) && |Run(Init(maxConn), es).users| <= INT_MAX
    requires w in OutOf(Run(Init(maxConn), es), k) && (w.Msg? || w.Stored?)
    ensures w.o.pk.receiver == Run(Init(maxConn), es).sessions[k].userid
  {
    TextsAreSound(maxConn, es);
  }
}
