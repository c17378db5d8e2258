/** Where a session says it is, and where others are told it is. */
module Locations {
  import opened Wire
  import opened Protocol
  import opened Tallies
  import opened RoutingSafety
  import opened MessageFlow
  import opened Texts
  import opened Requests

  // The session handles a SET_GEO packet.
  predicate SetsLocation(s: State, e: Event, j: nat) {
    e.Recv? && e.sid == j && Enabled(s, e) && s.sessions[j].auth != NotAuth && e.pk.ptype == 22
  }

  // The location the session of the j-th connection set last in a run; before it sets any, -1
  // and -1.
  function LastSet(s: State, es: seq<Event>, j: nat): Loc
    decreases |es|
  {
    if es == [] then Loc(lattitude := "-1.000000", longitude := "-1.000000") else
      var e := es[|es| - 1];
      if SetsLocation(Run(s, es[..|es| - 1]), e, j) then
        var ws := Tokens(e.pk.msg, ':');
        Loc(lattitude := e.env.render(ws[0]), longitude := e.env.render(ws[1]))
      else LastSet(s, es[..|es| - 1], j)
  }

  // No other event moves a session.
  lemma LocationAfter(s: State, e: Event, j: nat)
    requires TableSound(s) && SessionsSound(s) && j < |s.sessions|
    ensures j < |Step(s, e).sessions|
    ensures !SetsLocation(s, e, j) ==> Step(s, e).sessions[j].loc == s.sessions[j].loc
    ensures SetsLocation(s, e, j) ==>
              var ws := Tokens(e.pk.msg, ':');
              && |ws| >= 2
              && Step(s, e).sessions[j].loc
                 == Loc(lattitude := e.env.render(ws[0]), longitude := e.env.render(ws[1]))
  {
    hide Tokens, FindUser, Writes, Messages;
    if Enabled(s, e) && e.Dequeue? {
      PoppedIsSound(s, e.sid);
      DequeueStep(s, e);
    } else if Enabled(s, e) && e.Recv? {
      RecvStep(s, e);
    }
  }

  lemma NewcomersAreNowhere(s: State, e: Event, j: nat)
    requires |s.sessions| <= j < |Step(s, e).sessions|
    ensures Step(s, e).sessions[j].loc == Loc(lattitude := "-1.000000", longitude := "-1.000000")
  {
    hide Tokens, FindUser, Writes, Messages;
  }

  /** At every point of every legal run a session's location is the one it set last. */
  lemma {:induction false} LocationIsLastSet(maxConn: nat, es: seq<Event>, j: nat)
    requires LegalRun(Init(maxConn), es)
    ensures var r := Run(Init(maxConn), es);
            && (j < |r.sessions| ==> r.sessions[j].loc == LastSet(Init(maxConn), es, j))
            && (j >= |r.sessions| ==> LastSet(Init(maxConn), es, j)
                                      == Loc(lattitude := "-1.000000", longitude := "-1.000000"))
    decreases |es|
  {
    hide Step, Tokens;
    if es != [] {
      var front, e := es[..|es| - 1], es[|es| - 1];
      var t := Run(Init(maxConn), front);
      LocationIsLastSet(maxConn, front, j);
      ReachableIsSound(maxConn, front);
      if j < |t.sessions| {
        LocationAfter(t, e, j);
      } else {
        SessionsStay(t, e);
        if j < |Step(t, e).sessions| { NewcomersAreNowhere(t, e, j); }
      }
    }
  }

  lemma SessionsStay(s: State, e: Event)
    ensures |s.sessions| <= |Step(s, e).sessions|
  {
    hide Tokens, FindUser, Writes, Messages;
  }

  // ---------- telling one's own client ----------

  lemma {:induction false} LastSetStays(s: State, es: seq<Event>, n: nat, j: nat)
    requires n < |es| && SetsLocation(Run(s, es[..n]), es[n], j)
    requires forall m :: n < m < |es| ==> !SetsLocation(Run(s, es[..m]), es[m], j)
    ensures LastSet(s, es, j) == LastSet(s, es[..n + 1], j)
    decreases |es|
  {
    hide Step, SetsLocation;
    if n + 1 == |es| {
      assert es[..n + 1] == es;
    } else {
      var front := es[..|es| - 1];
      assert front[..n] == es[..n] && front[n] == es[n] && front[..n + 1] == es[..n + 1];
      forall m | n < m < |front| ensures !SetsLocation(Run(s, front[..m]), front[m], j) {
        assert front[..m] == es[..m];
      }
      LastSetStays(s, front, n, j);
    }
  }

  lemma {:induction false} StaysKnown(s: State, es: seq<Event>, n: nat, j: nat)
    requires n <= |es| && j < |Run(s, es[..n]).sessions| && Run(s, es[..n]).sessions[j].auth != NotAuth
    ensures j < |Run(s, es).sessions| && Run(s, es).sessions[j].auth != NotAuth
    decreases |es|
  {
    hide Step;
    if n == |es| {
      assert es[..n] == es;
    } else {
      var front := es[..|es| - 1];
      assert front[..n] == es[..n];
      StaysKnown(s, front, n, j);
      KnownAfter(Run(s, front), es[|es| - 1], j);
    }
  }

  lemma KnownAfter(s: State, e: Event, j: nat)
    requires j < |s.sessions| && s.sessions[j].auth != NotAuth
    ensures j < |Step(s, e).sessions| && Step(s, e).sessions[j].auth != NotAuth
  {
    hide Tokens, FindUser, Writes, Messages;
  }

  /** The round trip: a session sets its location to `a:b`, and whatever anybody does afterwards,
      as long as it sets no other, its client asks for its own location and is sent
      "|20|id|id|10|a:b|", each coordinate as it is printed, lattitude first. */
  lemma SetThenAsked(maxConn: nat, es: seq<Event>, n: nat, j: nat, a: string, b: string,
                     text: string, pk: Packet, env: Env)
    requires LegalRun(Init(maxConn), es) && n < |es|
    requires SetsLocation(Run(Init(maxConn), es[..n]), es[n], j) && TwoWordsFirst(es[n].pk.msg, a, b)
    requires forall m :: n < m < |es| ==> !SetsLocation(Run(Init(maxConn), es[..m]), es[m], j)
    requires Gets(Run(Init(maxConn), es), j, text, pk) && pk.ptype == 21 && pk.sender == pk.receiver
    ensures var ws := WritesTo(Run(Init(maxConn), es), Recv(j, pk, env), j);
            var there := es[n].env.render(a) + ":" + es[n].env.render(b);
            && |ws| == 1
            && Text(ws[0]) == "|20|" + Decimal(pk.sender) + "|" + Decimal(pk.receiver) + "|10|" + there + "|"
            && StringToPacket(Text(ws[0])) == Complete(Packet(20, pk.sender, pk.receiver, 10, there))
  {
    hide Step, Tokens, Text, StringToPacket, LegalRun;
    var s, r := Init(maxConn), Run(Init(maxConn), es);
    LastSetStays(s, es, n, j);
    assert es[..n + 1][..n] == es[..n];
    WordsAre(es[n].pk.msg, a, b);
    LocationIsLastSet(maxConn, es, j);
    assert es[..n + 0] == es[..n];
    KnownFrom(s, es, n, j);
    TextIsWellFormed(text, pk);
    var l := r.sessions[j].loc;
    OwnGeoText(pk.sender, pk.receiver, l.lattitude, l.longitude);
    OwnGeoParses(pk.sender, pk.receiver, l);
  }

  lemma KnownFrom(s: State, es: seq<Event>, n: nat, j: nat)
    requires n < |es| && SetsLocation(Run(s, es[..n]), es[n], j)
    ensures j < |Run(s, es).sessions| && Run(s, es).sessions[j].auth != NotAuth
  {
    hide Step;
    StaysKnown(s, es, n, j);
  }

  lemma OwnGeoParses(a: int, b: int, l: Loc)
    requires IsInt(a) && IsInt(b)
    ensures StringToPacket(Text(OwnGeo(a, b, l))) == Complete(Packet(20, a, b, 10, l.lattitude + ":" + l.longitude))
  {
    var p := Packet(20, a, b, 10, l.lattitude + ":" + l.longitude);
    assert Printed(OwnGeo(a, b, l)) == p;
    ShortSurvives(p);
  }

  // ---------- telling another client ----------

  /** Every reply an event puts in a queue carries the two coordinates of the session that makes
      it, at that moment, from its user to the one who asks. */
  lemma ReplyCarriesLocation(s: State, e: Event)
    requires TableSound(s) && SessionsSound(s) && Legal(s, e)
    requires DeliveryOf(s, e).Some? && DeliveryOf(s, e).value.what.pk.ptype == 20
    ensures e.sid < |s.sessions|
    ensures var x, pk := s.sessions[e.sid], DeliveryOf(s, e).value.what.pk;
            && Tokens(pk.msg, ':') == [x.loc.lattitude, x.loc.longitude]
            && pk == Packet(20, x.userid, pk.receiver, 10, x.loc.lattitude + ":" + x.loc.longitude)
            && DeliveryOf(s, e).value.what.reader == e.sid
            && pk.receiver in s.table && s.table[pk.receiver] == DeliveryOf(s, e).value.target
  {
    if e.Dequeue? { PoppedIsSound(s, e.sid); }
    var x := s.sessions[e.sid];
    TwoCoordinates(x.loc.lattitude, x.loc.longitude);
  }

  lemma TwoCoordinates(a: Coord, b: Coord)
    ensures Tokens(a + ":" + b, ':') == [a, b]
  {
    assert a + ":" + b == a + (":" + b);
    FirstToken(a, ':', ":" + b);
    SkipOne(b);
    assert b == b + "";
    FirstToken(b, ':', "");
  }

  lemma {:induction false} EnqueuedSource(s: State, es: seq<Event>, k: nat, o: Obj) returns (n: nat)
    requires o in Enqueued(s, es, k)
    ensures n < |es| && DeliveryOf(Run(s, es[..n]), es[n]) == Some(Delivery(k, o))
    decreases |es|
  {
    hide Step;
    var front := es[..|es| - 1];
    if o in Enqueued(s, front, k) {
      n := EnqueuedSource(s, front, k, o);
      assert front[..n] == es[..n];
    } else {
      n := |es| - 1;
    }
  }

  lemma {:induction false} CollectMember<A, B>(xs: seq<A>, f: A -> seq<B>, x: A, y: B)
    requires x in xs && y in f(x)
    ensures y in Collect(xs, f)
  {
    var n := |xs| - 1;
    if x != xs[n] {
      CollectMember(xs[..n], f, x, y);
    }
  }

  lemma WritesMatch(s: State, e: Event, k: nat, w: Write)
    requires w in WritesTo(s, e, k)
    ensures w.Msg? ==> w.o.pk.ptype == 30
    ensures w.Geo? ==> w.o.pk.ptype == 20
  {
    hide Tokens, FindUser, Select, ByTime;
  }

  lemma {:induction false} KindsMatch(s: State, es: seq<Event>, k: nat, w: Write)
    requires s.sessions == [] && w in OutOf(Run(s, es), k)
    ensures w.Msg? ==> w.o.pk.ptype == 30
    ensures w.Geo? ==> w.o.pk.ptype == 20
    decreases |es|
  {
    hide Step, WritesTo;
    if es != [] {
      var t, e := Run(s, es[..|es| - 1]), es[|es| - 1];
      OutEvolves(t, e, k);
      if w in OutOf(t, k) {
        KindsMatch(s, es[..|es| - 1], k, w);
      } else {
        WritesMatch(t, e, k, w);
      }
    }
  }

  // What a client is sent on behalf of another was once put in its queue.
  lemma RelayedWasDelivered(maxConn: nat, es: seq<Event>, k: nat, w: Write) returns (n: nat)
    requires LegalRun(Init(maxConn), es) && w in OutOf(Run(Init(maxConn), es), k)
    requires (w.Msg? || w.Geo?) && w.o.reader != k
    ensures n < |es| && DeliveryOf(Run(Init(maxConn), es[..n]), es[n]) == Some(Delivery(k, w.o))
    ensures WellFormed(w.o.pk) && (w.o.pk.ptype == MSG_PACKET || w.o.pk.ptype == GEO_PACKET)
  {
    hide Step, LegalRun, Enqueued, Collect;
    var s, out := Init(maxConn), OutOf(Run(Init(maxConn), es), k);
    CollectMember(out, RelayedTo(k), w, w.o);
    RelayedInOrder(maxConn, es, k);
    EnqueuedAscends(maxConn, es, k);
    var j := CollectSource(Enqueued(s, es, k), PassedOn, w.o);
    n := EnqueuedSource(s, es, k, w.o);
  }

  lemma {:induction false} PrefixIsLegal(s: State, es: seq<Event>, n: nat)
    requires LegalRun(s, es) && n < |es|
    ensures LegalRun(s, es[..n]) && Legal(Run(s, es[..n]), es[n])
    decreases |es|
  {
    hide Step, Legal;
    if n < |es| - 1 {
      PrefixIsLegal(s, es[..|es| - 1], n);
      assert es[..|es| - 1][..n] == es[..n];
    }
  }

  /** Every location a client is sent from another session parses to the location that session
      had set last when it was asked, from the user it then was. */
  lemma AnsweredWithLocation(maxConn: nat, es: seq<Event>, k: nat, w: Write) returns (n: nat)
    requires LegalRun(Init(maxConn), es) && w in OutOf(Run(Init(maxConn), es), k) && w.Geo? && w.o.reader != k
    ensures n < |es| && !es[n].Connect? && w.o.reader == es[n].sid < |Run(Init(maxConn), es[..n]).sessions|
    ensures var t, l := Run(Init(maxConn), es[..n]), LastSet(Init(maxConn), es[..n], w.o.reader);
            && StringToPacket(Text(w)) == Complete(Packet(20, t.sessions[w.o.reader].userid, w.o.pk.receiver, 10,
                                                          l.lattitude + ":" + l.longitude))
            && w.o.pk.receiver in t.table && t.table[w.o.pk.receiver] == k
  {
    hide Step, LegalRun, StringToPacket, Text;
    n := RelayedWasDelivered(maxConn, es, k, w);
    KindsMatch(Init(maxConn), es, k, w);
    PrefixIsLegal(Init(maxConn), es, n);
    ReachableIsSound(maxConn, es[..n]);
    ReplyCarriesLocation(Run(Init(maxConn), es[..n]), es[n]);
    LocationIsLastSet(maxConn, es[..n], es[n].sid);
    GeoParses(w.o);
  }

  lemma GeoParses(o: Obj)
    requires WellFormed(o.pk) && o.pk.ptype == 20 && o.pk.tmsg == 10 && |o.pk.msg| <= 95
    ensures StringToPacket(Text(Geo(o))) == Complete(o.pk)
  {
    assert Printed(Geo(o)) == o.pk;
    ShortSurvives(o.pk);
  }
}
