/** The list of users as a client reads it off the texts it is sent. */
module Listing {
  import opened Wire
  import opened Protocol
  import opened Tallies
  import opened RoutingSafety
  import opened MessageFlow
  import opened Directory
  import opened ClientTexts
  import opened Texts
  import opened Requests

  // The row in a text: of a packet of type 11, the first two ':'-separated words of the message.
  function RowInText(text: string): seq<Entry> {
    var q := StringToPacket(text);
    if q.ptype != Some(11) || q.msg.None? then []
    else
      var ws := Tokens(q.msg.value, ':');
      if |ws| < 2 then [] else [Entry(Atoi(ws[0]), ws[1])]
  }

  function RowRead(w: Write): seq<Entry> { RowInText(Text(w)) }

  // The list the client of session k reads off everything it has been sent.
  function ListRead(s: State, k: nat): seq<Entry> { Collect(OutOf(s, k), RowRead) }

  // What a write must be for its text to be read as it was meant.
  predicate Readable(w: Write) {
    match w
    case UserRow(u, row, name) => IsInt(u) && IsInt(row) && CleanName(name)
    case _ => WellFormed(Printed(w)) && Printed(w).ptype != 11
  }

  lemma {:induction false} ReadableRow(u: int, row: int, name: string)
    requires IsInt(u) && IsInt(row) && CleanName(name)
    ensures RowRead(UserRow(u, row, name)) == [Entry(row, name)]
  {
    hide Tokens, Atoi;
    var p := Packet(11, u, u, 10, Decimal(row) + ":" + name);
    assert Printed(UserRow(u, row, name)) == p;
    DecimalLength(row);
    FieldCharsBound(p);
    RelayKeepsHeader(p);
    assert p.msg == Decimal(row) + (":" + name);
    FirstToken(Decimal(row), ':', ":" + name);
    SkipOne(name);
    assert name + [] == name;
    FirstToken(name, ':', []);
    NoTokens();
    AtoiDecimal(row);
  }

  lemma NoTokens()
    ensures Tokens([], ':') == []
  {
  }

  lemma ReadableOther(w: Write)
    requires Readable(w) && !w.UserRow?
    ensures RowRead(w) == []
  {
    RelayKeepsHeader(Printed(w));
  }

  lemma {:induction false} ReadsRows(ws: seq<Write>)
    requires forall w :: w in ws ==> Readable(w)
    ensures Collect(ws, RowRead) == Collect(ws, RowOf)
  {
    if ws != [] {
      var n := |ws| - 1;
      ReadsRows(ws[..n]);
      var w := ws[n];
      assert w in ws;
      if w.UserRow? { ReadableRow(w.userid, w.id, w.name); } else { ReadableOther(w); }
    }
  }

  lemma SoundIsReadable(w: Write, id: int)
    requires WriteSound(w, id)
    ensures Readable(w)
  {
  }

  /** What a client reads off its texts is what the server means to tell it, row by row. */
  lemma ListIsRead(maxConn: nat, es: seq<Event>, k: nat)
    requires LegalRun(Init(maxConn), es) && |Run(Init(maxConn), es).users| <= INT_MAX
    ensures ListRead(Run(Init(maxConn), es), k) == ClientList(Run(Init(maxConn), es), k)
  {
    hide Run, LegalRun, Collect, WriteSound, Readable;
    var r := Run(Init(maxConn), es);
    TextsAreSound(maxConn, es);
    forall w | w in OutOf(r, k) ensures Readable(w) {
      SoundIsReadable(w, r.sessions[k].userid);
    }
    ReadsRows(OutOf(r, k));
  }

  // The client of session k asks with the length of the list it has read.
  predicate AsksAsRead(s: State, e: Event, k: nat) {
    Directory.Exchange(s, e, k) ==> Atoi(e.pk.msg) == |ListRead(s, k)|
  }

  predicate ReadInStepRun(s: State, es: seq<Event>, k: nat)
    decreases |es|
  {
    es == [] || (ReadInStepRun(s, es[..|es| - 1], k) && AsksAsRead(Run(s, es[..|es| - 1]), es[|es| - 1], k))
  }

  lemma {:induction false} ReadInStepIsInStep(maxConn: nat, es: seq<Event>, k: nat)
    requires LegalRun(Init(maxConn), es) && |Run(Init(maxConn), es).users| <= INT_MAX
    requires ReadInStepRun(Init(maxConn), es, k)
    ensures InStepRun(Init(maxConn), es, k)
    decreases |es|
  {
    hide Step, Directory.Exchange, ListRead, ClientList, Atoi, Legal;
    if es != [] {
      var front := es[..|es| - 1];
      UsersOnlyGrow(Run(Init(maxConn), front), es[|es| - 1]);
      ReadInStepIsInStep(maxConn, front, k);
      ListIsRead(maxConn, front, k);
    }
  }

  /** A client that asks with the length of the list it has read off its texts has read a prefix of
      the table, row numbers and names, at every point of every run. */
  lemma ListReadIsPrefix(maxConn: nat, es: seq<Event>, k: nat)
    requires LegalRun(Init(maxConn), es) && |Run(Init(maxConn), es).users| <= INT_MAX
    requires ReadInStepRun(Init(maxConn), es, k)
    ensures ListRead(Run(Init(maxConn), es), k) <= Rows(Run(Init(maxConn), es).users)
  {
    hide Run, LegalRun, InStepRun, ListRead, ClientList;
    ReadInStepIsInStep(maxConn, es, k);
    ListIsRead(maxConn, es, k);
    ListIsPrefix(maxConn, es, k);
  }
}
