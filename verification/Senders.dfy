/** Every message a client is sent, or that is stored for it, was sent by a client: the text that
    is written is the text that was read, as far as the buffer reaches. */
module Senders {
  import opened Wire
  import opened Protocol
  import opened Tallies
  import opened RoutingSafety
  import opened MessageFlow
  import opened Conservation
  import opened Mailbox
  import opened Texts
  import opened Locations

  // The event reads a message from a client that is logged in, as object o.
  predicate SendsMessage(s: State, e: Event, o: Obj) {
    && e.Recv? && Enabled(s, e) && s.sessions[e.sid].auth != NotAuth && e.pk.ptype == 30
    && o == Obj(s.next, e.sid, e.pk)
  }

  lemma AcceptedIsSent(s: State, e: Event, o: Obj)
    requires o in Accepted(s, e)
    ensures SendsMessage(s, e, o)
  {
  }

  lemma {:induction false} AcceptedSource(s: State, es: seq<Event>, o: Obj) returns (n: nat)
    requires o in Total(s, es, Accepted)
    ensures n < |es| && SendsMessage(Run(s, es[..n]), es[n], o)
    decreases |es|
  {
    hide Step, Accepted;
    var front := es[..|es| - 1];
    if o in Total(s, front, Accepted) {
      n := AcceptedSource(s, front, o);
      assert front[..n] == es[..n];
    } else {
      n := |es| - 1;
      AcceptedIsSent(Run(s, front), es[n], o);
    }
  }

  lemma WrittenIsAccepted(maxConn: nat, es: seq<Event>, k: nat, w: Write)
    requires LegalRun(Init(maxConn), es) && w in OutOf(Run(Init(maxConn), es), k) && (w.Msg? || w.Stored?)
    ensures w.o in Total(Init(maxConn), es, Accepted)
  {
    hide Step, LegalRun, Run, Collect;
    var r := Run(Init(maxConn), es);
    MessagesAreConserved(maxConn, es);
    if w.Msg? {
      CollectMember(OutOf(r, k), MsgWrite, w, w.o);
      TallyPart(r.sessions, k, WrittenMsgs);
    } else {
      CollectMember(OutOf(r, k), StoredWrite, w, w.o);
      TallyPart(r.sessions, k, SentOf);
      StoredMessagesAreSentOnce(maxConn, es);
    }
  }

  // Characters the header's four numbers take.
  function HeaderDigits(p: Packet): nat {
    |Decimal(p.ptype)| + |Decimal(p.sender)| + |Decimal(p.receiver)| + |Decimal(p.tmsg)|
  }

  lemma HeaderDigitsAre(p: Packet)
    ensures HeaderDigits(p) == FieldChars(p)
  {
    hide Decimal;
    var ws := HeaderWords(p);
    assert Chars(ws) == |ws[0]| + Chars(ws[1..]);
    assert Chars(ws[1..]) == |ws[1]| + Chars(ws[2..]);
    assert Chars(ws[2..]) == |ws[2]| + Chars(ws[3..]);
    assert Chars(ws[3..]) == |ws[3]| + Chars(ws[4..]);
  }

  // q is p with the message cut to the characters that fit into 199.
  predicate IsCutTo199(q: Parsed, p: Packet) {
    var room := 194 - HeaderDigits(p);
    q == Complete(p.(msg := if |p.msg| <= room then p.msg else p.msg[..if room >= 0 then room else 0]))
  }

  lemma MessageTextParses(w: Write)
    requires (w.Msg? || w.Stored?) && WellFormed(w.o.pk) && w.o.pk.ptype == 30
    ensures IsCutTo199(StringToPacket(Text(w)), w.o.pk)
  {
    var p := w.o.pk;
    assert Printed(w) == p;
    HeaderDigitsAre(p);
    FieldCharsBound(p);
    RelayKeepsHeader(p);
    if |p.msg| <= 194 - HeaderDigits(p) { assert p.msg[..|p.msg|] == p.msg; }
  }

  /** Every message a client is sent, relayed or from the database, was read from a client at some
      earlier step, and what it parses to is what that client's text parsed to: the same type,
      sender, receiver and kind, and the message up to the end of the buffer. */
  lemma ClientsGetWhatWasSent(maxConn: nat, es: seq<Event>, k: nat, w: Write) returns (n: nat)
    requires LegalRun(Init(maxConn), es) && w in OutOf(Run(Init(maxConn), es), k) && (w.Msg? || w.Stored?)
    ensures n < |es| && SendsMessage(Run(Init(maxConn), es[..n]), es[n], w.o)
    ensures forall text :: StringToPacket(text) == Complete(es[n].pk) ==>
              && StringToPacket(text).ptype == Some(30)
              && IsCutTo199(StringToPacket(Text(w)), es[n].pk)
              && StringToPacket(Text(w)).sender == StringToPacket(text).sender
              && StringToPacket(Text(w)).receiver == StringToPacket(text).receiver
  {
    hide Run, LegalRun, StringToPacket, Text, IsCutTo199;
    WrittenIsAccepted(maxConn, es, k, w);
    n := AcceptedSource(Init(maxConn), es, w.o);
    MessageTextParses(w);
    HeaderSurvives(StringToPacket(Text(w)), w.o.pk);
  }

  lemma HeaderSurvives(q: Parsed, p: Packet)
    requires IsCutTo199(q, p)
    ensures q.ptype == Some(p.ptype) && q.sender == Some(p.sender) && q.receiver == Some(p.receiver)
    ensures q.tmsg == Some(p.tmsg)
  {
  }

  // ---------- what is stored ----------

  lemma RowAfter(s: State, e: Event, row: Row)
    requires TableSound(s) && SessionsSound(s) && Legal(s, e) && row in Step(s, e).messages
    ensures (exists r0 :: r0 in s.messages && r0.o == row.o && r0.timeSent == row.timeSent)
         || (SendsMessage(s, e, row.o) && row.timeSent == e.env.now && row.o.pk.receiver !in s.table)
  {
    OnlyTextsAreStored(s, e);
    if row !in s.messages {
      RecvStep(s, e);
      if e.pk.ptype == 30 {
        assert row == Row(Fresh(s, e), e.env.now, true);
      } else {
        var ms := s.messages;
        var m :| 0 <= m < |ms| && MarkReceived(ms, s.sessions[e.sid].userid)[m] == row;
        assert ms[m] in ms;
      }
    }
  }

  lemma OnlyTextsAreStored(s: State, e: Event)
    requires TableSound(s) && SessionsSound(s)
    ensures (e.Recv? && Enabled(s, e)) || Step(s, e).messages == s.messages
  {
    if Enabled(s, e) && e.Dequeue? {
      PoppedIsSound(s, e.sid);
      QueuedIsNotPlaced(Popped(s, e.sid), e.sid, s.sessions[e.sid].queue[0], e.env);
      DequeueStep(s, e);
    }
  }

  /** Every stored message was read from a client while its receiver was not online, and carries
      the time at which it was. */
  lemma {:induction false} RowsCarryTheirTime(maxConn: nat, es: seq<Event>, row: Row) returns (n: nat)
    requires LegalRun(Init(maxConn), es) && row in Run(Init(maxConn), es).messages
    ensures n < |es| && SendsMessage(Run(Init(maxConn), es[..n]), es[n], row.o)
    ensures row.timeSent == es[n].env.now && row.o.pk.receiver !in Run(Init(maxConn), es[..n]).table
    decreases |es|
  {
    hide Step, Legal, Enabled;
    var front := es[..|es| - 1];
    var t, e := Run(Init(maxConn), front), es[|es| - 1];
    ReachableIsSound(maxConn, front);
    RowAfter(t, e, row);
    if e.Recv? && SendsMessage(t, e, row.o) && row.timeSent == e.env.now && row.o.pk.receiver !in t.table {
      n := |es| - 1;
    } else {
      var r0 :| r0 in t.messages && r0.o == row.o && r0.timeSent == row.timeSent;
      n := RowsCarryTheirTime(maxConn, front, r0);
      assert front[..n] == es[..n];
    }
  }
}
