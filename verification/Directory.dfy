/** Keeping a client's list of users in step with the `users` table, one row per exchange. */
module Directory {
  import opened Wire
  import opened Protocol
  import opened Tallies
  import opened RoutingSafety
  import opened MessageFlow

  datatype Entry = Entry(id: int, name: string)

  // The whole table, as a client is to see it.
  function Rows(users: seq<User>): (r: seq<Entry>)
    ensures |r| == |users|
  {
    seq(|users|, k requires 0 <= k < |users| => Entry(k + 1, users[k].name))
  }

  function RowOf(w: Write): seq<Entry> { if w.UserRow? then [Entry(w.id, w.name)] else [] }

  // The list the client of session k has put together from the rows it was sent.
  function ClientList(s: State, k: nat): seq<Entry> { Collect(OutOf(s, k), RowOf) }

  // Session k answers a request for users.
  predicate Exchange(s: State, e: Event, k: nat) {
    && e.Recv? && Enabled(s, e) && e.sid == k && e.pk.ptype == GET_ALL_USERS_PACKET
    && !TurnedAway(s, k, e.pk)
  }

  // The client of session k asks with the length of its list.
  predicate AsksInStep(s: State, e: Event, k: nat) {
    Exchange(s, e, k) ==> Atoi(e.pk.msg) == |ClientList(s, k)|
  }

  predicate InStepRun(s: State, es: seq<Event>, k: nat)
    decreases |es|
  {
    es == [] || (InStepRun(s, es[..|es| - 1], k) && AsksInStep(Run(s, es[..|es| - 1]), es[|es| - 1], k))
  }

  lemma UsersOnlyGrow(s: State, e: Event)
    ensures s.users <= Step(s, e).users && |Step(s, e).users| <= |s.users| + 1
  {
  }

  lemma OnlyExchangesListUsers(s: State, e: Event, k: nat)
    requires !Exchange(s, e, k)
    requires TableSound(s) && SessionsSound(s)
    ensures Collect(WritesTo(s, e, k), RowOf) == []
  {
    var ws := WritesTo(s, e, k);
    if e.Dequeue? && Enabled(s, e) { PoppedIsSound(s, e.sid); }
    if Collect(ws, RowOf) != [] {
      var j := CollectSource(ws, RowOf, Collect(ws, RowOf)[0]);
    }
  }

  lemma ClientListEvolves(s: State, e: Event, k: nat)
    ensures ClientList(Step(s, e), k) == ClientList(s, k) + Collect(WritesTo(s, e, k), RowOf)
  {
    OutEvolves(s, e, k);
    CollectConcat(OutOf(s, k), WritesTo(s, e, k), RowOf);
  }

  /** One exchange in step: when the client's list is a proper prefix of the table, the answer
      is the next row; when it is the whole table, the answer is FIN and nothing else. */
  lemma ExchangeExtendsByOne(s: State, e: Event, k: nat)
    requires Exchange(s, e, k) && AsksInStep(s, e, k) && ClientList(s, k) <= Rows(s.users)
    ensures var n, r := |ClientList(s, k)|, Step(s, e);
            && r.users == s.users && |WritesTo(s, e, k)| == 1
            && (n < |s.users| ==> ClientList(r, k) == Rows(s.users)[..n + 1])
            && (n == |s.users| ==> ClientList(r, k) == Rows(s.users))
            && (WritesTo(s, e, k)[0] == UsersDone(s.sessions[k].userid) <==> ClientList(s, k) == Rows(s.users))
  {
    var n, ws := |ClientList(s, k)|, WritesTo(s, e, k);
    ClientListEvolves(s, e, k);
    assert ws[..0] == [];
    assert Collect(ws, RowOf) == [] + RowOf(ws[0]);
    assert n <= |s.users|;
    assert ClientList(s, k) == Rows(s.users)[..n];
  }

  lemma RowsGrow(us: seq<User>, vs: seq<User>, l: seq<Entry>)
    requires us <= vs && l <= Rows(us)
    ensures l <= Rows(vs)
  {
    assert Rows(us) == Rows(vs)[..|us|];
  }

  /** Whatever else happens in between, and even if users register meanwhile: a client that
      always asks with the length of its list has a prefix of the table. */
  lemma {:induction false} ListIsPrefix(maxConn: nat, es: seq<Event>, k: nat)
    requires LegalRun(Init(maxConn), es) && InStepRun(Init(maxConn), es, k)
    ensures var r := Run(Init(maxConn), es); ClientList(r, k) <= Rows(r.users)
    decreases |es|
  {
    if es != [] {
      var t, e := Run(Init(maxConn), es[..|es| - 1]), es[|es| - 1];
      ListIsPrefix(maxConn, es[..|es| - 1], k);
      ReachableIsSound(maxConn, es[..|es| - 1]);
      if Exchange(t, e, k) {
        ExchangeExtendsByOne(t, e, k);
      } else {
        OnlyExchangesListUsers(t, e, k);
        ClientListEvolves(t, e, k);
        UsersOnlyGrow(t, e);
        RowsGrow(t.users, Step(t, e).users, ClientList(t, k));
      }
    }
  }

  lemma {:induction false} RunUsersOnlyGrow(s: State, es: seq<Event>, n: nat)
    requires n <= |es|
    ensures Run(s, es[..n]).users <= Run(s, es).users
    decreases |es|
  {
    if n == |es| {
      assert es[..n] == es;
    } else {
      RunUsersOnlyGrow(s, es[..|es| - 1], n);
      assert es[..|es| - 1][..n] == es[..n];
      UsersOnlyGrow(Run(s, es[..|es| - 1]), es[|es| - 1]);
    }
  }

  // How many requests for users session k answers.
  function Exchanges(s: State, es: seq<Event>, k: nat): nat
    decreases |es|
  {
    if es == [] then 0 else
      Exchanges(s, es[..|es| - 1], k) + if Exchange(Run(s, es[..|es| - 1]), es[|es| - 1], k) then 1 else 0
  }

  function Min(a: nat, b: nat): nat { if a < b then a else b }

  /** While nobody registers, each exchange of a client in step brings one row more until it
      has them all: after as many exchanges as rows are missing, the list is the table. */
  lemma {:induction false} ListCatchesUp(s: State, es: seq<Event>, k: nat)
    requires Inv(s) && ClientList(s, k) <= Rows(s.users)
    requires LegalRun(s, es) && InStepRun(s, es, k) && Run(s, es).users == s.users
    ensures ClientList(Run(s, es), k) <= Rows(s.users)
    ensures |ClientList(Run(s, es), k)| == Min(|s.users|, |ClientList(s, k)| + Exchanges(s, es, k))
    decreases |es|
  {
    hide Step, Exchange, ClientList, Rows, Inv, Legal;
    if es != [] {
      var t, e := Run(s, es[..|es| - 1]), es[|es| - 1];
      RunUsersOnlyGrow(s, es, |es| - 1);
      RunUsersOnlyGrow(s, es[..|es| - 1], 0);
      ListCatchesUp(s, es[..|es| - 1], k);
      RunKeepsInv(s, es[..|es| - 1]);
      ListGrows(t, e, k);
    }
  }

  lemma ListGrows(s: State, e: Event, k: nat)
    requires Inv(s) && ClientList(s, k) <= Rows(s.users) && AsksInStep(s, e, k) && Step(s, e).users == s.users
    ensures ClientList(Step(s, e), k) <= Rows(s.users)
    ensures |ClientList(Step(s, e), k)| == Min(|s.users|, |ClientList(s, k)| + if Exchange(s, e, k) then 1 else 0)
  {
    hide Step, Exchange, ClientList, WritesTo, TableSound, SessionsSound, OwnershipSound, ListSound, LinksSound;
    if Exchange(s, e, k) {
      ExchangeExtendsByOne(s, e, k);
    } else {
      OnlyExchangesListUsers(s, e, k);
      ClientListEvolves(s, e, k);
    }
  }

  /** So a client has the whole table, and its next request is answered with FIN, exactly when
      it has made at least as many exchanges as rows were missing. */
  lemma WholeListThenFin(s: State, es: seq<Event>, k: nat, e: Event)
    requires Inv(s) && ClientList(s, k) <= Rows(s.users)
    requires LegalRun(s, es) && InStepRun(s, es, k) && Run(s, es).users == s.users
    requires Exchange(Run(s, es), e, k) && AsksInStep(Run(s, es), e, k)
    ensures var r := Run(s, es);
            && (ClientList(r, k) == Rows(s.users) <==> Exchanges(s, es, k) >= |s.users| - |ClientList(s, k)|)
            && (WritesTo(r, e, k) == [UsersDone(r.sessions[k].userid)]
                <==> Exchanges(s, es, k) >= |s.users| - |ClientList(s, k)|)
  {
    hide Step, Exchange, ClientList, Inv, LegalRun, InStepRun, Run;
    ListCatchesUp(s, es, k);
    ExchangeExtendsByOne(Run(s, es), e, k);
  }

  /** A request for users is defined exactly when the row it needs, if it needs one, is in the
      table; that row is then the answer. So a count that is not negative is enough. */
  lemma RowIsFound(s: State, i: nat, o: Obj)
    requires i < |s.sessions| && o.pk.ptype == GET_ALL_USERS_PACKET && !TurnedAway(s, i, o.pk)
    requires Atoi(o.pk.msg) <= INT_MAX
    ensures var count := Atoi(o.pk.msg);
            && (Defined(s, i, o.pk) <==>
                  (|s.users| > count ==> exists r :: r in Rows(s.users) && r.id == count + 1))
            && (Defined(s, i, o.pk) && |s.users| > count ==>
                  exists r :: r in Rows(s.users) && r.id == count + 1
                              && Writes(s, i, o) == [UserRow(s.sessions[i].userid, r.id, r.name)])
  {
    var count := Atoi(o.pk.msg);
    if 0 <= count < |s.users| {
      assert Rows(s.users)[count] in Rows(s.users);
    }
  }

  // ---------- the table itself ----------

  ghost predicate Distinct(users: seq<User>) { forall i, j :: 0 <= i < j < |users| ==> users[i] != users[j] }

  /** No two rows ever have the same credentials, so an AUTH packet names at most one user, and
      registering twice is refused. */
  lemma {:induction false} UsersAreDistinct(maxConn: nat, es: seq<Event>)
    ensures Distinct(Run(Init(maxConn), es).users)
    ensures forall id: int :: 1 <= id <= |Run(Init(maxConn), es).users| ==>
              FindUser(Run(Init(maxConn), es).users, Run(Init(maxConn), es).users[id - 1]) == Some(id)
    decreases |es|
  {
    hide Step, FindUser;
    if es != [] {
      UsersAreDistinct(maxConn, es[..|es| - 1]);
      var t, e := Run(Init(maxConn), es[..|es| - 1]), es[|es| - 1];
      StepKeepsDistinct(t, e);
    }
  }

  lemma StepKeepsDistinct(s: State, e: Event)
    requires Distinct(s.users)
    ensures Distinct(Step(s, e).users)
  {
  }
}
