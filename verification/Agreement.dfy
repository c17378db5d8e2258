/** When the address table and the sessions agree. What breaks the agreement is a duplicate
    login, which sets the refused session's id before it is refused, so that its cleanup takes
    away the entry of the session that is really online. */
module Agreement {
  import opened Wire
  import opened Protocol
  import opened RoutingSafety
  import opened Runs

  // Every authenticated session is found under its own id.
  ghost predicate Reachable(s: State) {
    forall i :: 0 <= i < |s.sessions| && s.sessions[i].live && s.sessions[i].auth == Authed ==>
      s.sessions[i].userid in s.table && s.table[s.sessions[i].userid] == i
  }

  // Cleaning up this session takes away the entry of another, authenticated one.
  predicate Evicts(s: State, e: Event) {
    && e.Cleanup? && Enabled(s, e)
    && var id := s.sessions[e.sid].userid;
       Lookup(s, id).Some? && s.table[id] != e.sid && s.sessions[s.table[id]].auth == Authed
  }

  lemma InterpretKeepsReachable(s: State, i: nat, o: Obj, env: Env)
    requires TableSound(s) && SessionsSound(s) && Reachable(s) && Handleable(s, i, o)
    ensures Reachable(Interpret(s, i, o, env))
  {
    var r := Interpret(s, i, o, env);
    assert SessionSound(s.sessions[i], |s.users|);
    forall k | 0 <= k < |r.sessions| && r.sessions[k].live && r.sessions[k].auth == Authed
      ensures r.sessions[k].userid in r.table && r.table[r.sessions[k].userid] == k
    {
      if k != i { assert s.sessions[k].auth == Authed; }
    }
  }

  lemma CleanupAgreement(s: State, e: Event)
    requires TableSound(s) && Reachable(s) && e.Cleanup? && Enabled(s, e)
    ensures Reachable(Step(s, e)) <==> !Evicts(s, e)
  {
    var i, r := e.sid, CleanedUp(s, e.sid);
    var id := s.sessions[i].userid;
    if Evicts(s, e) {
      var k := s.table[id];
      assert r.sessions[k] == s.sessions[k] && r.sessions[k].userid == id && id !in r.table;
    } else {
      forall k | 0 <= k < |r.sessions| && r.sessions[k].live && r.sessions[k].auth == Authed
        ensures r.sessions[k].userid in r.table && r.table[r.sessions[k].userid] == k
      {
        assert k != i && s.sessions[k].auth == Authed;
      }
    }
  }

  lemma PoppedIsReachable(s: State, i: nat)
    requires Reachable(s) && i < |s.sessions| && s.sessions[i].queue != []
    ensures Reachable(Popped(s, i))
  {
  }

  lemma HeapKeepsReachable(s: State, freed: seq<nat>, next: nat)
    requires Reachable(s)
    ensures Reachable(s.(freed := freed, next := next))
  {
  }

  lemma ConnectedIsReachable(s: State)
    requires Reachable(s)
    ensures Reachable(Connected(s))
  {
  }

  /** In a legal run, every authenticated session stays reachable at every step, except exactly
      at a cleanup that evicts somebody. */
  lemma ReachableUnlessEvicted(s: State, e: Event)
    requires TableSound(s) && SessionsSound(s) && Reachable(s) && Legal(s, e)
    ensures Reachable(Step(s, e)) <==> !Evicts(s, e)
  {
    if !Enabled(s, e) {
    } else if e.Connect? {
      ConnectedIsReachable(s);
    } else if e.Recv? {
      RecvIsHandleable(s, e);
      HeapIsIrrelevant(s, s.freed, s.next + 1);
      HeapKeepsReachable(s, s.freed, s.next + 1);
      InterpretKeepsReachable(Allocated(s), e.sid, Fresh(s, e), e.env);
    } else if e.Dequeue? {
      var i, o := e.sid, s.sessions[e.sid].queue[0];
      PoppedIsSound(s, i);
      PoppedIsReachable(s, i);
      InterpretKeepsReachable(Popped(s, i), i, o, e.env);
      var r := Interpret(Popped(s, i), i, o, e.env);
      HeapKeepsReachable(r, r.freed + [o.addr], r.next);
    } else {
      CleanupAgreement(s, e);
    }
  }

  // Someone logs in as a user who is online.
  predicate DuplicateLogin(s: State, e: Event) {
    e.Recv? && Enabled(s, e) && e.pk.ptype == AUTH_PACKET && ClaimedId(s, e.pk).Some? && !LogsIn(s, e.pk)
  }

  // Every live session that carries an id, whether exiting or not, is found under it.
  ghost predicate InFullAgreement(s: State) {
    forall i :: 0 <= i < |s.sessions| && s.sessions[i].live && s.sessions[i].userid != -1 ==>
      s.sessions[i].userid in s.table && s.table[s.sessions[i].userid] == i
  }

  // Handling a packet keeps the agreement exactly when it is not a login that is refused for a
  // user who exists.
  lemma InterpretKeepsAgreement(s: State, i: nat, o: Obj, env: Env)
    requires TableSound(s) && SessionsSound(s) && InFullAgreement(s) && Handleable(s, i, o)
    ensures InFullAgreement(Interpret(s, i, o, env))
       <==> (o.pk.ptype == AUTH_PACKET && ClaimedId(s, o.pk).Some? ==> LogsIn(s, o.pk))
  {
    var r := Interpret(s, i, o, env);
    assert SessionSound(s.sessions[i], |s.users|);
    if o.pk.ptype == AUTH_PACKET && ClaimedId(s, o.pk).Some? && !LogsIn(s, o.pk) {
      RefusedIsUnlisted(s, i, o, env);
    } else {
      forall k | 0 <= k < |r.sessions| && r.sessions[k].live && r.sessions[k].userid != -1
        ensures r.sessions[k].userid in r.table && r.table[r.sessions[k].userid] == k
      {
        if k != i { assert s.sessions[k].userid == r.sessions[k].userid; }
      }
    }
  }

  // The entry of the id belongs to the session that is online.
  lemma RefusedIsUnlisted(s: State, i: nat, o: Obj, env: Env)
    requires TableSound(s) && Handleable(s, i, o)
    requires o.pk.ptype == AUTH_PACKET && ClaimedId(s, o.pk).Some? && !LogsIn(s, o.pk)
    ensures var r := Interpret(s, i, o, env);
            && r.sessions[i].live && r.sessions[i].userid == ClaimedId(s, o.pk).value
            && r.table == s.table && r.table[r.sessions[i].userid] != i
  {
    assert s.sessions[i].auth == NotAuth;
  }

  /** A legal step keeps the full agreement exactly when it is not a duplicate login. */
  lemma StepKeepsAgreement(s: State, e: Event)
    requires TableSound(s) && SessionsSound(s) && InFullAgreement(s) && Legal(s, e)
    ensures InFullAgreement(Step(s, e)) <==> !DuplicateLogin(s, e)
  {
    if !Enabled(s, e) {
    } else if e.Recv? {
      RecvIsHandleable(s, e);
      HeapIsIrrelevant(s, s.freed, s.next + 1);
      assert InFullAgreement(Allocated(s));
      InterpretKeepsAgreement(Allocated(s), e.sid, Fresh(s, e), e.env);
    } else if e.Dequeue? {
      var i, o := e.sid, s.sessions[e.sid].queue[0];
      PoppedIsSound(s, i);
      assert InFullAgreement(Popped(s, i));
      InterpretKeepsAgreement(Popped(s, i), i, o, e.env);
      HeapKeepsAgreement(Interpret(Popped(s, i), i, o, e.env), Step(s, e).freed);
    }
  }

  lemma HeapKeepsAgreement(s: State, freed: seq<nat>)
    ensures InFullAgreement(s.(freed := freed)) <==> InFullAgreement(s)
  {
  }

  predicate NoDuplicates(s: State, es: seq<Event>)
    decreases |es|
  {
    es == [] || (NoDuplicates(s, es[..|es| - 1]) && !DuplicateLogin(Run(s, es[..|es| - 1]), es[|es| - 1]))
  }

  /** When nobody logs in as a user who is online, table and sessions agree in both directions
      at every point of every run. */
  lemma {:induction false} TableAgrees(maxConn: nat, es: seq<Event>)
    requires LegalRun(Init(maxConn), es) && NoDuplicates(Init(maxConn), es)
    ensures var r := Run(Init(maxConn), es);
            && InFullAgreement(r)
            && forall id: int, i: nat :: 1 <= id && i < |r.sessions| ==>
                 (id in r.table && r.table[id] == i <==> r.sessions[i].live && r.sessions[i].userid == id)
    decreases |es|
  {
    if es != [] {
      TableAgrees(maxConn, es[..|es| - 1]);
      ReachableIsSound(maxConn, es[..|es| - 1]);
      StepKeepsAgreement(Run(Init(maxConn), es[..|es| - 1]), es[|es| - 1]);
    }
    ReachableIsSound(maxConn, es);
  }

  lemma AgreesAtFirst(maxConn: nat)
    ensures InFullAgreement(Run(Init(maxConn), []))
  {
  }

  /** They agree at every point of a run exactly when it has no duplicate login. */
  lemma {:induction false} AgreesThroughout(maxConn: nat, es: seq<Event>)
    requires LegalRun(Init(maxConn), es)
    ensures (forall n :: 0 <= n <= |es| ==> InFullAgreement(Run(Init(maxConn), es[..n])))
       <==> NoDuplicates(Init(maxConn), es)
    decreases |es|
  {
    hide Step, InFullAgreement, Inv;
    if es == [] {
      assert es[..0] == [];
      AgreesAtFirst(maxConn);
    } else {
      var front := es[..|es| - 1];
      AgreesThroughout(maxConn, front);
      ReachableIsSound(maxConn, front);
      assert forall n :: 0 <= n <= |front| ==> front[..n] == es[..n];
      assert front[..|front|] == front && es[..|es|] == es;
      if InFullAgreement(Run(Init(maxConn), front)) {
        StepKeepsAgreement(Run(Init(maxConn), front), es[|es| - 1]);
      }
    }
  }

  /** The duplicate login: user `id` is online at session a, and session b presents the same
      credentials. It is refused, and when it is cleaned up, a is still authenticated but no
      longer in the table. */
  lemma DuplicateLoginEvicts(s: State, a: nat, b: nat, pk: Packet, env: Env)
    requires TableSound(s) && Alive(s, a) && s.sessions[a].auth == Authed
    requires Lookup(s, s.sessions[a].userid) == Some(a)
    requires Enabled(s, Recv(b, pk, env)) && s.sessions[b].auth == NotAuth
    requires pk.ptype == AUTH_PACKET && ClaimedId(s, pk) == Some(s.sessions[a].userid)
    ensures var t := Step(s, Recv(b, pk, env));
            var r := Step(t, Cleanup(b));
            && t.sessions[b].auth == ToExit && t.table == s.table && Evicts(t, Cleanup(b))
            && r.sessions[a] == s.sessions[a] && s.sessions[a].userid !in r.table
  {
    var t := Step(s, Recv(b, pk, env));
    assert t == Interpret(Allocated(s), b, Fresh(s, Recv(b, pk, env)), env);
    assert Enabled(t, Cleanup(b));
  }

  // ---------- a run in which it happens ----------

  // A client registers and logs in; another logs in as the same user, and is cleaned up.
  function TwoLogins(env: Env): seq<Event> {
    Crowd(1, env) + [Connect, Recv(1, MemberPacket(AUTH_PACKET, 0), env), Cleanup(1)]
  }

  /** It does happen: after this run user 1 is logged in and cannot be reached. */
  lemma LoggedInButUnreachable(maxConn: nat, env: Env)
    requires maxConn >= 1
    ensures var s, es := Init(maxConn), TwoLogins(env);
            var r := Run(s, es);
            && LegalRun(s, es)
            && Alive(r, 0) && r.sessions[0].auth == Authed && r.sessions[0].userid == 1 && 1 !in r.table
  {
    hide Run, LegalRun, SessionsSound, Member, FindUser;
    var more := [Connect, Recv(1, MemberPacket(AUTH_PACKET, 0), env), Cleanup(1)];
    var s := Run(Init(maxConn), Crowd(1, env));
    var t := Step(s, Connect);
    CrowdIsOnline(maxConn, 1, env);
    ReachableIsSound(maxConn, Crowd(1, env));
    StepKeepsTableAndSessions(s, Connect);
    MemberCredentials(AUTH_PACKET, 0);
    NewMember([], 0);
    assert t.users == [] + [Member(0)];
    DuplicateLoginEvicts(t, 0, 1, MemberPacket(AUTH_PACKET, 0), env);
    RunOfThree(s, more);
    RunAppend(Init(maxConn), Crowd(1, env), more);
  }
}
