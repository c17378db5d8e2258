/** Runs taken apart and put together, and the runs in which n clients connect, register and
    log in one after the other. */
module Runs {
  import opened Wire
  import opened Protocol

  lemma {:induction false} RunAppend(s: State, es: seq<Event>, fs: seq<Event>)
    ensures Run(s, es + fs) == Run(Run(s, es), fs)
    ensures LegalRun(s, es + fs) <==> LegalRun(s, es) && LegalRun(Run(s, es), fs)
    decreases |fs|
  {
    if fs == [] {
      assert es + fs == es;
    } else {
      var n := |fs| - 1;
      RunAppend(s, es, fs[..n]);
      assert (es + fs)[..|es| + n] == es + fs[..n];
    }
  }

  lemma RunOne(s: State, e: Event)
    ensures Run(s, [e]) == Step(s, e)
    ensures LegalRun(s, [e]) <==> Legal(s, e)
  {
    assert [e][..0] == [];
  }

  // A run, first step first.
  lemma RunFirst(s: State, es: seq<Event>)
    requires es != []
    ensures Run(s, es) == Run(Step(s, es[0]), es[1..])
    ensures LegalRun(s, es) <==> Legal(s, es[0]) && LegalRun(Step(s, es[0]), es[1..])
  {
    RunOne(s, es[0]);
    assert es == [es[0]] + es[1..];
    RunAppend(s, [es[0]], es[1..]);
  }

  // ---------- n clients online ----------

  // The j-th client's credentials, and the packet it sends with them.
  function Member(j: nat): User { User(Decimal(j), "p") }

  function MemberPacket(ptype: int, j: nat): Packet { Packet(ptype, -1, -1, 0, Decimal(j) + ":p") }

  // Client j connects, registers and logs in.
  function Joining(j: nat, env: Env): seq<Event> {
    [Connect, Recv(j, MemberPacket(REG_PACKET, j), env), Recv(j, MemberPacket(AUTH_PACKET, j), env)]
  }

  function Crowd(n: nat, env: Env): seq<Event> {
    if n == 0 then [] else Crowd(n - 1, env) + Joining(n - 1, env)
  }

  // Users 1 to n at sessions 0 to n - 1.
  function OnlineTable(n: nat): (m: map<int, nat>)
    ensures |m| == n && (forall id :: id in m <==> 1 <= id <= n) && (forall id :: id in m ==> m[id] == id - 1)
  {
    if n == 0 then map[] else OnlineTable(n - 1)[n := n - 1]
  }

  // Session j is online as user j + 1, for all j below n, and nothing is queued.
  ghost predicate Crowded(s: State, n: nat) {
    && |s.sessions| == |s.users| == s.listLen == n
    && s.table == OnlineTable(n)
    && (forall j :: 0 <= j < n ==> s.users[j] == Member(j) && IsOnline(s.sessions[j], j + 1))
  }

  predicate IsOnline(x: Session, id: int) {
    x.live && x.linked && x.auth == Authed && !x.cancelled && x.userid == id && x.queue == []
  }

  lemma MembersDiffer(j: nat, k: nat)
    requires Member(j) == Member(k)
    ensures j == k
  {
    AtoiDecimal(j);
    AtoiDecimal(k);
  }

  lemma MemberCredentials(ptype: int, j: nat)
    requires IsInt(j) && IsInt(ptype)
    ensures var pk := MemberPacket(ptype, j);
            Credentials(pk.msg) == Some(Member(j)) && BuffersFit(pk.msg) && WellFormed(pk)
  {
    DecimalLength(j);
    FirstToken(Decimal(j), ':', ":p");
    assert ":p"[1..] == "p" == "p" + "";
    FirstToken("p", ':', "");
  }

  // A REG packet with credentials no row has.
  lemma Registering(s: State, e: Event, j: nat)
    requires e.Recv? && e.pk == MemberPacket(REG_PACKET, j) && IsInt(j)
    requires Alive(s, e.sid) && !s.sessions[e.sid].cancelled && s.sessions[e.sid].auth != ToExit
    requires Member(j) !in s.users
    ensures Enabled(s, e)
    ensures var i, r := e.sid, Step(s, e);
            r == s.(users := s.users + [Member(j)], freed := r.freed, next := r.next,
                    sessions := s.sessions[i := s.sessions[i].(out := r.sessions[i].out)])
  {
    MemberCredentials(REG_PACKET, j);
  }

  // An AUTH packet of a registered user who is not online.
  lemma LoggingIn(s: State, e: Event, j: nat, id: int)
    requires e.Recv? && e.pk == MemberPacket(AUTH_PACKET, j) && IsInt(j)
    requires Alive(s, e.sid) && !s.sessions[e.sid].cancelled && s.sessions[e.sid].auth != ToExit
    requires FindUser(s.users, Member(j)) == Some(id) && id !in s.table
    ensures Enabled(s, e)
    ensures var i, r := e.sid, Step(s, e);
            r == s.(table := s.table[id := i], freed := r.freed, next := r.next,
                    sessions := s.sessions[i := s.sessions[i].(out := r.sessions[i].out, auth := Authed, userid := id)])
  {
    MemberCredentials(AUTH_PACKET, j);
  }

  lemma OnlyAuthIsRestricted(s: State, e: Event)
    requires e.Recv? && e.pk.ptype == AUTH_PACKET ==> e.sid < |s.sessions| && s.sessions[e.sid].auth == NotAuth
    ensures Legal(s, e)
  {
  }

  lemma NewMember(users: seq<User>, n: nat)
    requires |users| == n && forall j :: 0 <= j < n ==> users[j] == Member(j)
    ensures Member(n) !in users && FindUser(users + [Member(n)], Member(n)) == Some(n + 1)
  {
    forall j | 0 <= j < n ensures Member(j) != Member(n) {
      if Member(j) == Member(n) { MembersDiffer(j, n); }
    }
  }

  // The same with client n connected but not logged in, and m clients registered.
  ghost predicate Arriving(s: State, n: nat, m: nat) {
    && |s.sessions| == s.listLen == n + 1 && |s.users| == m && s.table == OnlineTable(n)
    && (forall j :: 0 <= j < m ==> s.users[j] == Member(j))
    && (forall j :: 0 <= j < n ==> IsOnline(s.sessions[j], j + 1))
    && s.sessions[n] == Session(true, true, -1, NotAuth, false, [], NOWHERE, 0, s.sessions[n].out)
  }

  lemma ClientConnects(s: State, n: nat)
    requires Crowded(s, n) && n <= s.maxConn
    ensures Arriving(Step(s, Connect), n, n) && Step(s, Connect).maxConn == s.maxConn
  {
  }

  lemma ClientRegisters(s: State, e: Event, n: nat)
    requires Arriving(s, n, n) && IsInt(n) && e.Recv? && e.sid == n && e.pk == MemberPacket(REG_PACKET, n)
    ensures Arriving(Step(s, e), n, n + 1) && Step(s, e).maxConn == s.maxConn
  {
    hide Step, Enabled, Member, MemberPacket, FindUser;
    NewMember(s.users, n);
    Registering(s, e, n);
  }

  lemma ClientLogsIn(s: State, e: Event, n: nat)
    requires Arriving(s, n, n + 1) && IsInt(n) && e.Recv? && e.sid == n && e.pk == MemberPacket(AUTH_PACKET, n)
    ensures Crowded(Step(s, e), n + 1) && Step(s, e).maxConn == s.maxConn
  {
    hide Step, Enabled, Member, MemberPacket, FindUser;
    NewMember(s.users[..n], n);
    assert s.users == s.users[..n] + [Member(n)];
    LoggingIn(s, e, n, n + 1);
  }

  // One client more.
  lemma OneMore(s: State, n: nat, env: Env)
    requires Crowded(s, n) && n <= s.maxConn && IsInt(n)
    ensures var r := Run(s, Joining(n, env));
            Crowded(r, n + 1) && r.maxConn == s.maxConn && LegalRun(s, Joining(n, env))
  {
    hide Step, Crowded;
    var es := Joining(n, env);
    var s1 := Step(s, es[0]);
    var s2 := Step(s1, es[1]);
    ClientConnects(s, n);
    ClientRegisters(s1, es[1], n);
    ClientLogsIn(s2, es[2], n);
    OnlyAuthIsRestricted(s, es[0]);
    OnlyAuthIsRestricted(s1, es[1]);
    OnlyAuthIsRestricted(s2, es[2]);
    RunOfThree(s, es);
  }

  lemma RunOfThree(s: State, es: seq<Event>)
    requires |es| == 3
    ensures Run(s, es) == Step(Step(Step(s, es[0]), es[1]), es[2])
    ensures LegalRun(s, es) <==>
            Legal(s, es[0]) && Legal(Step(s, es[0]), es[1]) && Legal(Step(Step(s, es[0]), es[1]), es[2])
  {
    RunFirst(s, es);
    RunFirst(Step(s, es[0]), es[1..]);
    RunFirst(Step(Step(s, es[0]), es[1]), es[2..]);
  }

  // n clients can be online when the server takes so many connections.
  lemma {:induction false} CrowdIsOnline(maxConn: nat, n: nat, env: Env)
    requires n <= maxConn + 1 && IsInt(n)
    ensures var r := Run(Init(maxConn), Crowd(n, env));
            Crowded(r, n) && r.maxConn == maxConn && LegalRun(Init(maxConn), Crowd(n, env))
  {
    if n > 0 {
      CrowdIsOnline(maxConn, n - 1, env);
      OneMore(Run(Init(maxConn), Crowd(n - 1, env)), n - 1, env);
      RunAppend(Init(maxConn), Crowd(n - 1, env), Joining(n - 1, env));
    }
  }
}
