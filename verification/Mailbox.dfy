/** Delivery of messages stored for users who were offline. */
module Mailbox {
  import opened Protocol
  import opened Tallies
  import opened RoutingSafety
  import opened MessageFlow
  import opened Conservation

  function PendingObj(r: Row): seq<Obj> { if r.pending then [r.o] else [] }
  function StoredWrite(w: Write): seq<Obj> { if w.Stored? then [w.o] else [] }

  function Pending(ms: seq<Row>): multiset<Obj> { multiset(Collect(ms, PendingObj)) }
  function SentOf(x: Session): multiset<Obj> { multiset(Collect(x.out, StoredWrite)) }

  // Every time a stored message was sent by GET_MSG, at any session.
  function Sent(s: State): multiset<Obj> { Tally(s.sessions, SentOf) }

  // ---------- one batch ----------

  lemma {:induction false} InsertPermutes(r: Row, rs: seq<Row>)
    ensures multiset(InsertByTime(r, rs)) == multiset(rs) + multiset{r}
  {
    if rs != [] && r.timeSent > rs[0].timeSent {
      InsertPermutes(r, rs[1..]);
      assert rs == [rs[0]] + rs[1..];
    }
  }

  lemma {:induction false} ByTimePermutes(rs: seq<Row>)
    ensures multiset(ByTime(rs)) == multiset(rs)
  {
    if rs != [] {
      ByTimePermutes(rs[1..]);
      InsertPermutes(rs[0], ByTime(rs[1..]));
      assert rs == [rs[0]] + rs[1..];
    }
  }

  ghost predicate InTimeOrder(rs: seq<Row>) {
    forall i, j :: 0 <= i < j < |rs| ==> rs[i].timeSent <= rs[j].timeSent
  }

  lemma {:induction false} InsertKeepsOrder(r: Row, rs: seq<Row>)
    requires InTimeOrder(rs)
    ensures InTimeOrder(InsertByTime(r, rs))
  {
    if rs != [] && r.timeSent > rs[0].timeSent {
      InsertKeepsOrder(r, rs[1..]);
      var t := InsertByTime(r, rs[1..]);
      InsertPermutes(r, rs[1..]);
      forall j | 0 <= j < |t| ensures rs[0].timeSent <= t[j].timeSent {
        assert t[j] in multiset(rs[1..]) + multiset{r};
      }
    }
  }

  lemma {:induction false} ByTimeIsOrdered(rs: seq<Row>)
    ensures InTimeOrder(ByTime(rs))
  {
    if rs != [] {
      ByTimeIsOrdered(rs[1..]);
      InsertKeepsOrder(rs[0], ByTime(rs[1..]));
    }
  }

  // Rows sent at the same time keep the order in which they were stored.
  lemma {:induction false} ByTimeOfOrdered(rs: seq<Row>)
    requires InTimeOrder(rs)
    ensures ByTime(rs) == rs
  {
    if rs != [] {
      ByTimeOfOrdered(rs[1..]);
    }
  }

  lemma {:induction false} SelectIsExact(ms: seq<Row>, id: int)
    ensures forall r :: r in Select(ms, id) <==> r in ms && Waits(r, id)
  {
    if ms != [] {
      SelectIsExact(ms[1..], id);
      assert ms == [ms[0]] + ms[1..];
    }
  }

  lemma {:induction false} WrittenObjects(rs: seq<Row>)
    ensures Collect(StoredWrites(rs), StoredWrite) == Collect(rs, RowObj)
  {
    if rs != [] {
      var n := |rs| - 1;
      WrittenObjects(rs[..n]);
      assert StoredWrites(rs)[..n] == StoredWrites(rs[..n]);
    }
  }

  lemma {:induction false} SameObjects(rs: seq<Row>, ts: seq<Row>)
    requires multiset(rs) == multiset(ts)
    ensures multiset(Collect(rs, RowObj)) == multiset(Collect(ts, RowObj))
    decreases |rs|
  {
    hide Collect;
    if rs == [] {
      assert |multiset(ts)| == 0;
      assert ts == [];
    } else {
      var r := rs[0];
      assert r in multiset(ts);
      var k :| 0 <= k < |ts| && ts[k] == r;
      var ts' := ts[..k] + ts[k + 1..];
      assert rs == [r] + rs[1..];
      assert ts == ts[..k] + ([r] + ts[k + 1..]);
      assert multiset(rs[1..]) == multiset(rs) - multiset{r};
      assert multiset(ts') == multiset(ts) - multiset{r};
      SameObjects(rs[1..], ts');
      CollectConcat([r], rs[1..], RowObj);
      CollectConcat(ts[..k], [r] + ts[k + 1..], RowObj);
      CollectConcat([r], ts[k + 1..], RowObj);
      CollectConcat(ts[..k], ts[k + 1..], RowObj);
    }
  }

  lemma PendingHead(ms: seq<Row>)
    requires ms != []
    ensures Pending(ms) == multiset(PendingObj(ms[0])) + Pending(ms[1..])
  {
    CollectHead(ms, PendingObj);
  }

  function Objects(rs: seq<Row>): multiset<Obj> { multiset(Collect(rs, RowObj)) }

  lemma SelectHead(ms: seq<Row>, id: int)
    requires ms != []
    ensures Objects(Select(ms, id))
         == (if Waits(ms[0], id) then multiset{ms[0].o} else multiset{}) + Objects(Select(ms[1..], id))
  {
    if Waits(ms[0], id) {
      CollectHead(Select(ms, id), RowObj);
      assert Select(ms, id)[1..] == Select(ms[1..], id);
    } else {
      assert Select(ms, id) == Select(ms[1..], id);
    }
  }

  // The rows marked received are those selected.
  lemma {:induction false} MarkingTakesSelected(ms: seq<Row>, id: int)
    ensures Pending(ms) == Pending(MarkReceived(ms, id)) + Objects(Select(ms, id))
  {
    if ms != [] {
      var marked, rest := MarkReceived(ms, id), ms[1..];
      MarkingTakesSelected(rest, id);
      assert marked[1..] == MarkReceived(rest, id);
      PendingHead(ms);
      PendingHead(marked);
      SelectHead(ms, id);
      FourSums(multiset(PendingObj(marked[0])), Pending(marked[1..]),
               if Waits(ms[0], id) then multiset{ms[0].o} else multiset{}, Objects(Select(rest, id)));
      assert multiset(PendingObj(ms[0]))
          == multiset(PendingObj(marked[0])) + if Waits(ms[0], id) then multiset{ms[0].o} else multiset{};
    }
  }

  lemma {:induction false} NothingLeft(ms: seq<Row>, id: int)
    ensures Select(MarkReceived(ms, id), id) == []
  {
    if ms != [] {
      NothingLeft(ms[1..], id);
      assert MarkReceived(ms, id)[1..] == MarkReceived(ms[1..], id);
    }
  }

  // A session fetches the messages stored for its user.
  predicate Fetches(s: State, e: Event) {
    && e.Recv? && Enabled(s, e) && e.pk.ptype == GET_MSG_PACKET && !TurnedAway(s, e.sid, e.pk)
    && e.pk.sender == s.sessions[e.sid].userid
  }

  /** A fetch sends exactly the rows pending for the user, each once, in the order in which they
      were sent, and leaves nothing pending for that user. */
  lemma FetchSendsBatch(s: State, e: Event)
    requires Fetches(s, e)
    ensures var id := s.sessions[e.sid].userid;
            exists batch: seq<Row> ::
              && WritesTo(s, e, e.sid) == StoredWrites(batch) && InTimeOrder(batch)
              && multiset(batch) == multiset(Select(s.messages, id))
              && (InTimeOrder(s.messages) ==> batch == Select(s.messages, id))
    ensures Select(Step(s, e).messages, s.sessions[e.sid].userid) == []
  {
    var rs := Select(s.messages, s.sessions[e.sid].userid);
    ByTimePermutes(rs);
    ByTimeIsOrdered(rs);
    NothingLeft(s.messages, s.sessions[e.sid].userid);
    if InTimeOrder(s.messages) {
      SelectKeepsOrder(s.messages, s.sessions[e.sid].userid);
      ByTimeOfOrdered(rs);
    }
    assert WritesTo(s, e, e.sid) == StoredWrites(ByTime(rs));
  }

  lemma {:induction false} SelectKeepsOrder(ms: seq<Row>, id: int)
    requires InTimeOrder(ms)
    ensures InTimeOrder(Select(ms, id))
  {
    if ms != [] {
      SelectKeepsOrder(ms[1..], id);
      SelectIsExact(ms[1..], id);
      var rest := Select(ms[1..], id);
      forall j | 0 <= j < |rest| ensures ms[0].timeSent <= rest[j].timeSent {
        assert rest[j] in rest;
      }
    }
  }

  // ---------- over runs ----------

  function SentNow(s: State, i: nat, o: Obj): multiset<Obj>
    requires i < |s.sessions| && Defined(s, i, o.pk)
  {
    multiset(Collect(Writes(s, i, o), StoredWrite))
  }

  lemma InterpretSends(s: State, i: nat, o: Obj, env: Env)
    requires i < |s.sessions| && Defined(s, i, o.pk)
    ensures Sent(Interpret(s, i, o, env)) == Sent(s) + SentNow(s, i, o)
  {
    CollectConcat(s.sessions[i].out, Writes(s, i, o), StoredWrite);
    InterpretTally(s, i, o, env, SentOf, SentNow(s, i, o), multiset{});
  }

  lemma OnlyFetchesSend(s: State, i: nat, o: Obj)
    requires i < |s.sessions| && Defined(s, i, o.pk)
    requires o.pk.ptype != GET_MSG_PACKET || TurnedAway(s, i, o.pk) || o.pk.sender != s.sessions[i].userid
    ensures Collect(Writes(s, i, o), StoredWrite) == []
  {
    var ws := Writes(s, i, o);
    if Collect(ws, StoredWrite) != [] {
      var k := CollectSource(ws, StoredWrite, Collect(ws, StoredWrite)[0]);
    }
  }

  lemma FetchPending(s: State, i: nat, o: Obj, env: Env)
    requires i < |s.sessions| && Defined(s, i, o.pk)
    requires o.pk.ptype == GET_MSG_PACKET && !TurnedAway(s, i, o.pk) && o.pk.sender == s.sessions[i].userid
    ensures Pending(Messages(s, i, o, env)) + SentNow(s, i, o) == Pending(s.messages)
  {
    var rs := Select(s.messages, s.sessions[i].userid);
    MarkingTakesSelected(s.messages, s.sessions[i].userid);
    ByTimePermutes(rs);
    SameObjects(ByTime(rs), rs);
    WrittenObjects(ByTime(rs));
  }

  lemma StorePending(ms: seq<Row>, row: Row)
    requires row.pending
    ensures Pending(ms + [row]) == Pending(ms) + multiset{row.o}
  {
    CollectAppend(ms, row, PendingObj);
  }

  // What is sent stops being pending; what is stored starts to be.
  lemma InterpretPending(s: State, i: nat, o: Obj, env: Env)
    requires i < |s.sessions| && Defined(s, i, o.pk)
    ensures Pending(Messages(s, i, o, env)) + SentNow(s, i, o) == Pending(s.messages) + StoredNow(s, i, o)
  {
    if o.pk.ptype == GET_MSG_PACKET && !TurnedAway(s, i, o.pk) && o.pk.sender == s.sessions[i].userid {
      FetchPending(s, i, o, env);
    } else {
      OnlyFetchesSend(s, i, o);
      StorePending(s.messages, Row(o, env.now, true));
    }
  }

  // Sent and pending together are what was stored.
  ghost predicate MailSound(s: State) { Sent(s) + Pending(s.messages) == StoredMsgs(s.messages) }

  lemma InterpretKeepsMail(s: State, i: nat, o: Obj, env: Env)
    requires i < |s.sessions| && Defined(s, i, o.pk) && MailSound(s)
    ensures MailSound(Interpret(s, i, o, env))
  {
    InterpretSends(s, i, o, env);
    InterpretPending(s, i, o, env);
    InterpretStores(s, i, o, env);
    Shift(Sent(s), Pending(s.messages), StoredMsgs(s.messages), SentNow(s, i, o),
          Pending(Messages(s, i, o, env)), StoredNow(s, i, o));
  }

  lemma Shift<T>(a: multiset<T>, b: multiset<T>, c: multiset<T>, x: multiset<T>, b': multiset<T>, y: multiset<T>)
    requires a + b == c && b' + x == b + y
    ensures (a + x) + b' == c + y
  {
    assert (a + x) + b' == a + (b' + x);
    assert a + (b + y) == (a + b) + y;
  }

  lemma ConnectKeepsMail(s: State)
    requires MailSound(s)
    ensures MailSound(Connected(s))
  {
    var x := Connected(s).sessions[|s.sessions|];
    TallyAppendNone(s.sessions, x, SentOf);
  }

  lemma DequeueKeepsMail(s: State, e: Event)
    requires MailSound(s) && e.Dequeue? && Enabled(s, e)
    ensures MailSound(Step(s, e))
  {
    var t, o := Popped(s, e.sid), s.sessions[e.sid].queue[0];
    TallyKeep(s.sessions, e.sid, t.sessions[e.sid], SentOf);
    InterpretKeepsMail(t, e.sid, o, e.env);
    var r := Interpret(t, e.sid, o, e.env);
    assert Step(s, e).sessions == r.sessions && Step(s, e).messages == r.messages;
  }

  lemma CleanupKeepsMail(s: State, i: nat)
    requires MailSound(s) && i < |s.sessions|
    ensures MailSound(CleanedUp(s, i))
  {
    TallyKeep(s.sessions, i, CleanedUp(s, i).sessions[i], SentOf);
  }

  lemma StepKeepsMail(s: State, e: Event)
    requires MailSound(s)
    ensures MailSound(Step(s, e))
  {
    if !Enabled(s, e) {
    } else if e.Connect? {
      ConnectKeepsMail(s);
    } else if e.Recv? {
      assert MailSound(Allocated(s));
      InterpretKeepsMail(Allocated(s), e.sid, Fresh(s, e), e.env);
    } else if e.Dequeue? {
      DequeueKeepsMail(s, e);
    } else {
      CleanupKeepsMail(s, e.sid);
    }
  }

  lemma {:induction false} MailIsSound(maxConn: nat, es: seq<Event>)
    ensures MailSound(Run(Init(maxConn), es))
    decreases |es|
  {
    if es != [] {
      MailIsSound(maxConn, es[..|es| - 1]);
      StepKeepsMail(Run(Init(maxConn), es[..|es| - 1]), es[|es| - 1]);
    }
  }

  lemma {:induction false} RowIsStored(ms: seq<Row>, r: Row)
    requires r in ms
    ensures StoredMsgs(ms)[r.o] >= 1 && (r.pending ==> Pending(ms)[r.o] >= 1)
  {
    var n := |ms| - 1;
    if ms[n] != r {
      RowIsStored(ms[..n], r);
    }
  }

  lemma {:induction false} PendingHasRow(ms: seq<Row>, o: Obj)
    requires Pending(ms)[o] >= 1
    ensures exists r :: r in ms && r.pending && r.o == o
  {
    var k := CollectSource(ms, PendingObj, o);
    assert ms[k] in ms && ms[k].pending && ms[k].o == o;
  }

  /** At every point of every run: a message in the database has been sent by GET_MSG once if it
      has been received and not at all if it is pending; nothing else was ever sent that way. */
  lemma StoredMessagesAreSentOnce(maxConn: nat, es: seq<Event>)
    requires LegalRun(Init(maxConn), es)
    ensures var r := Run(Init(maxConn), es);
            && (forall row :: row in r.messages ==> Sent(r)[row.o] == if row.pending then 0 else 1)
            && (forall o :: o in Sent(r) ==> StoredMsgs(r.messages)[o] == 1)
  {
    var r := Run(Init(maxConn), es);
    MailIsSound(maxConn, es);
    MessagesAreConserved(maxConn, es);
    StoredAtMostOnce(r, Total(Init(maxConn), es, DiscardedMsgs), Total(Init(maxConn), es, Accepted));
    forall row | row in r.messages ensures Sent(r)[row.o] == if row.pending then 0 else 1 {
      SentUnlessPending(r, row);
    }
  }

  lemma StoredAtMostOnce(s: State, discarded: multiset<Obj>, accepted: multiset<Obj>)
    requires Tally(s.sessions, WrittenMsgs) + Tally(s.sessions, QueuedMsgs) + StoredMsgs(s.messages) + discarded
          == accepted
    requires forall o :: accepted[o] <= 1
    requires MailSound(s)
    ensures forall o :: StoredMsgs(s.messages)[o] <= 1
    ensures forall o :: o in Sent(s) ==> StoredMsgs(s.messages)[o] == 1
  {
    forall o ensures StoredMsgs(s.messages)[o] <= 1 && (o in Sent(s) ==> StoredMsgs(s.messages)[o] == 1) {
      assert StoredMsgs(s.messages)[o] <= accepted[o];
      assert (Sent(s) + Pending(s.messages))[o] == StoredMsgs(s.messages)[o];
    }
  }

  lemma SentUnlessPending(s: State, row: Row)
    requires MailSound(s) && row in s.messages && StoredMsgs(s.messages)[row.o] <= 1
    ensures Sent(s)[row.o] == if row.pending then 0 else 1
  {
    assert (Sent(s) + Pending(s.messages))[row.o] == StoredMsgs(s.messages)[row.o];
    RowIsStored(s.messages, row);
    if !row.pending && Pending(s.messages)[row.o] >= 1 {
      PendingHasRow(s.messages, row.o);
      RowsAreDistinct(s.messages, row);
    }
  }

  // Two different rows cannot hold the same object when it is stored once.
  lemma {:induction false} RowsAreDistinct(ms: seq<Row>, row: Row)
    requires row in ms && StoredMsgs(ms)[row.o] <= 1
    ensures forall r :: r in ms && r.o == row.o ==> r == row
  {
    var n := |ms| - 1;
    forall r | r in ms && r.o == row.o ensures r == row {
      if ms[n] == row {
        if r in ms[..n] { RowIsStored(ms[..n], r); }
      } else if ms[n] == r {
        RowIsStored(ms[..n], row);
      } else {
        assert row in ms[..n];
        RowsAreDistinct(ms[..n], row);
      }
    }
  }

  /** When a user fetches, every message stored for that user so far has been sent exactly
      once. */
  lemma FetchedExactlyOnce(maxConn: nat, es: seq<Event>, e: Event)
    requires LegalRun(Init(maxConn), es + [e]) && Fetches(Run(Init(maxConn), es), e)
    ensures var s, r := Run(Init(maxConn), es), Run(Init(maxConn), es + [e]);
            forall row :: row in r.messages && row.o.pk.receiver == s.sessions[e.sid].userid ==> Sent(r)[row.o] == 1
  {
    assert (es + [e])[..|es|] == es;
    var s, r := Run(Init(maxConn), es), Run(Init(maxConn), es + [e]);
    FetchSendsBatch(s, e);
    StoredMessagesAreSentOnce(maxConn, es + [e]);
    SelectIsExact(r.messages, s.sessions[e.sid].userid);
  }
}
