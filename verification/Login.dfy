/** What registering and logging in come to, and what a session can do to the others. */
module Login {
  import opened Wire
  import opened Protocol
  import opened RoutingSafety
  import opened MessageFlow
  import opened Directory

  // An AUTH packet read by a session that has not authenticated.
  predicate LoginAttempt(s: State, e: Event) {
    e.Recv? && Enabled(s, e) && e.pk.ptype == AUTH_PACKET && s.sessions[e.sid].auth == NotAuth
  }

  // The packet carries the credentials of a registered user who is not online.
  ghost predicate MayLogIn(s: State, pk: Packet, id: int) {
    1 <= id <= |s.users| && Credentials(pk.msg) == Some(s.users[id - 1]) && id !in s.table
  }

  /** A login is answered with ACK and the user's id exactly when the credentials are those of a
      registered user who is not online; then, and only then, the session is entered in the
      table under that id. Otherwise the answer is FIN, the table stays as it is, and the session
      is over. */
  lemma LoginOutcome(s: State, e: Event)
    requires TableSound(s) && Distinct(s.users) && LoginAttempt(s, e)
    ensures var i, r := e.sid, Step(s, e);
            && |WritesTo(s, e, i)| == 1
            && (forall id :: MayLogIn(s, e.pk, id) ==>
                  && WritesTo(s, e, i)[0] == Ack(id) && r.table == s.table[id := i]
                  && r.sessions[i].userid == id && r.sessions[i].auth == Authed && !r.sessions[i].cancelled)
            && ((forall id :: !MayLogIn(s, e.pk, id)) ==>
                  && WritesTo(s, e, i)[0] == Fin && r.table == s.table
                  && r.sessions[i].auth == ToExit && r.sessions[i].cancelled)
  {
    var claimed := ClaimedId(s, e.pk);
    if claimed.Some? && claimed.value !in s.table { assert MayLogIn(s, e.pk, claimed.value); }
  }

  // Registering leaves the credentials in the table, whether they were new or not.
  lemma RegistrationOutcome(s: State, e: Event, u: User)
    requires e.Recv? && Enabled(s, e) && e.pk.ptype == REG_PACKET && Credentials(e.pk.msg) == Some(u)
    ensures Step(s, e).users == if u in s.users then s.users else s.users + [u]
    ensures WritesTo(s, e, e.sid) == [if u in s.users then Fin else Ack(-1)]
  {
  }

  lemma HolderCanLogIn(r: State, f: Event, k: nat)
    requires TableSound(r) && Distinct(r.users) && LoginAttempt(r, f)
    requires k < |r.users| && Credentials(f.pk.msg) == Some(r.users[k])
    ensures WritesTo(r, f, f.sid) == [Ack(k + 1)] <==> k + 1 !in r.table
    ensures WritesTo(r, f, f.sid) == [Fin] <==> k + 1 in r.table
  {
    LoginOutcome(r, f);
    assert MayLogIn(r, f.pk, k + 1) <==> k + 1 !in r.table;
  }

  // The n-th event of the run reads a REG packet with these credentials.
  predicate RegistersAt(s: State, es: seq<Event>, n: nat, u: User)
    requires n < |es|
  {
    && es[n].Recv? && Enabled(Run(s, es[..n]), es[n])
    && es[n].pk.ptype == REG_PACKET && Credentials(es[n].pk.msg) == Some(u)
  }

  // Rows once entered stay, whatever happens.
  lemma RegisteredStays(s: State, es: seq<Event>, n: nat, u: User)
    requires n < |es| && RegistersAt(s, es, n, u)
    ensures u in Run(s, es).users
  {
    RegistrationOutcome(Run(s, es[..n]), es[n], u);
    assert es[..n + 1][..n] == es[..n];
    RunUsersOnlyGrow(s, es, n + 1);
  }

  /** Registering and then logging in: in any run, once credentials have been sent to be
      registered at any earlier point, accepted or not, they log their user in, from any
      session, exactly as long as that user is not online; the id is that of the one row that
      holds them. */
  lemma RegisteredCanLogIn(maxConn: nat, es: seq<Event>, n: nat, u: User, f: Event) returns (k: nat)
    requires LegalRun(Init(maxConn), es) && n < |es| && RegistersAt(Init(maxConn), es, n, u)
    requires LoginAttempt(Run(Init(maxConn), es), f) && Credentials(f.pk.msg) == Some(u)
    ensures var r := Run(Init(maxConn), es);
            && k < |r.users| && r.users[k] == u
            && (forall j :: 0 <= j < |r.users| && r.users[j] == u ==> j == k)
            && (WritesTo(r, f, f.sid) == [Ack(k + 1)] <==> k + 1 !in r.table)
            && (WritesTo(r, f, f.sid) == [Fin] <==> k + 1 in r.table)
  {
    var r := Run(Init(maxConn), es);
    RegisteredStays(Init(maxConn), es, n, u);
    UsersAreDistinct(maxConn, es);
    ReachableIsSound(maxConn, es);
    k :| 0 <= k < |r.users| && r.users[k] == u;
    HolderCanLogIn(r, f, k);
  }

  /** A session that has not authenticated can do nothing but register and log in: any other
      packet ends it, and nothing else in the server changes. */
  lemma StrangersChangeNothing(s: State, e: Event)
    requires e.Recv? && Enabled(s, e) && s.sessions[e.sid].auth == NotAuth
    requires e.pk.ptype != REG_PACKET && e.pk.ptype != AUTH_PACKET
    ensures var r := Step(s, e);
            && r.table == s.table && r.users == s.users && r.messages == s.messages && r.listLen == s.listLen
            && r.sessions == s.sessions[e.sid := s.sessions[e.sid].(cancelled := true)]
            && Enabled(r, Cleanup(e.sid)) && r.freed == s.freed + [Fresh(s, e).addr]
  {
    assert s.sessions[e.sid].out + [] == s.sessions[e.sid].out;
  }

  /** One session touches another only by appending one packet to its queue. */
  lemma OthersAreUntouched(s: State, e: Event, k: nat)
    requires k < |s.sessions| && (e.Connect? || e.sid != k)
    ensures k < |Step(s, e).sessions|
    ensures Step(s, e).sessions[k] == s.sessions[k].(queue := s.sessions[k].queue + Arrivals(s, e, k))
    ensures |Arrivals(s, e, k)| <= 1
  {
    assert s.sessions[k].queue + [] == s.sessions[k].queue;
    if e.Dequeue? && Enabled(s, e) {
      assert Popped(s, e.sid).sessions[k] == s.sessions[k];
    }
  }
}
