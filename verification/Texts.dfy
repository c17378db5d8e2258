/** The texts that go to a client, written out: every number is the one on the wire. */
module Texts {
  import opened Wire
  import opened Protocol

  // The first n characters, or all of them.
  function FirstChars(s: string, n: nat): (r: string)
    ensures |s| <= n ==> r == s
    ensures |s| > n ==> r == s[..n]
  {
    if |s| <= n then s else s[..n]
  }

  // "|kind|a|b|t|msg|"
  function Line(kind: string, a: int, b: int, t: string, msg: string): string {
    "|" + kind + "|" + Decimal(a) + "|" + Decimal(b) + "|" + t + "|" + msg + "|"
  }

  lemma TwoDigits(n: nat)
    requires 10 <= n < 100
    ensures Decimal(n) == [Digit(n / 10), Digit(n % 10)]
  {
    assert DecNat(n / 10) == [Digit(n / 10)];
  }

  lemma SmallNumbers()
    ensures Decimal(0) == "0" && Decimal(-1) == "-1" && Decimal(10) == "10" && Decimal(11) == "11"
    ensures Decimal(20) == "20" && Decimal(30) == "30" && Decimal(40) == "40" && Decimal(42) == "42"
  {
    TwoDigits(10);
    TwoDigits(11);
    TwoDigits(20);
    TwoDigits(30);
    TwoDigits(40);
    TwoDigits(42);
    assert DecNat(1) == "1";
  }

  // The printer, with all its bars.
  lemma PrintsLine(p: Packet)
    ensures PacketToString(p) == Line(Decimal(p.ptype), p.sender, p.receiver, Decimal(p.tmsg), p.msg)
    ensures |PacketToString(p)| == 6 + FieldChars(p) + |p.msg|
  {
    var ws := HeaderWords(p);
    var t, a, b, m := Decimal(p.ptype), Decimal(p.sender), Decimal(p.receiver), Decimal(p.tmsg);
    hide Decimal;
    assert Barred(ws[4..]) == "";
    assert Barred(ws[3..]) == "|" + m by { assert ws[3..][1..] == ws[4..]; }
    assert Barred(ws[2..]) == "|" + b + ("|" + m) by { assert ws[2..][1..] == ws[3..]; }
    assert Barred(ws[1..]) == "|" + a + ("|" + b + ("|" + m)) by { assert ws[1..][1..] == ws[2..]; }
    assert Barred(ws) == "|" + t + ("|" + a + ("|" + b + ("|" + m)));
    BarredLength(ws);
  }

  lemma ShortText(w: Write)
    requires IntHeader(Printed(w)) && |Printed(w).msg| <= 149
    ensures Text(w) == Line(Decimal(Printed(w).ptype), Printed(w).sender, Printed(w).receiver, Decimal(Printed(w).tmsg),
                            Printed(w).msg)
  {
    hide PacketToString, Line, FieldChars;
    PrintsLine(Printed(w));
    FieldCharsBound(Printed(w));
  }

  // Concatenation, regrouped.
  lemma Head(kind: string, a: int, b: int, t: string, msg: string)
    ensures Line(kind, a, b, t, msg)
         == ("|" + kind + "|") + Decimal(a) + ("|" + Decimal(b) + "|" + t + "|" + msg + "|")
  {
    var x, d := "|" + kind + "|" + Decimal(a), Decimal(b);
    Regrouped(x, d, t, msg);
  }

  lemma Regrouped(x: string, d: string, t: string, msg: string)
    ensures x + "|" + d + "|" + t + "|" + msg + "|" == x + ("|" + d + "|" + t + "|" + msg + "|")
  {
    assert x + "|" + d == x + ("|" + d);
    assert x + ("|" + d) + "|" + t == x + ("|" + d + "|" + t);
    assert x + ("|" + d + "|" + t) + "|" + msg == x + ("|" + d + "|" + t + "|" + msg);
  }

  lemma Written(w: Write, kind: string, a: int, b: int, t: string, msg: string)
    requires var p := Printed(w);
             && IntHeader(p) && |msg| <= 149 && p.sender == a && p.receiver == b && p.msg == msg
             && Decimal(p.ptype) == kind && Decimal(p.tmsg) == t
    ensures Text(w) == ("|" + kind + "|") + Decimal(a) + ("|" + Decimal(b) + "|" + t + "|" + msg + "|")
  {
    hide Text, Line;
    ShortText(w);
    Head(kind, a, b, t, msg);
  }

  /** What the server says of itself. */
  lemma AckText(u: int)
    requires IsInt(u)
    ensures Text(Ack(u)) == "|40|" + Decimal(u) + "|-1|-1|ACK|"
  {
    hide Text, Decimal;
    SmallNumbers();
    Written(Ack(u), "40", u, -1, "-1", "ACK");
    assert "|" + "40" + "|" == "|40|";
    assert "|" + "-1" + "|" + "-1" + "|" + "ACK" + "|" == "|-1|-1|ACK|";
  }

  lemma FinText()
    ensures Text(Fin) == "|42|-1|-1|-1|FIN|"
  {
    hide Text, Decimal;
    SmallNumbers();
    Written(Fin, "42", -1, -1, "-1", "FIN");
    assert "|" + "42" + "|" == "|42|";
    assert "|" + "-1" + "|" + "-1" + "|" + "FIN" + "|" == "|-1|-1|FIN|";
    assert "|42|" + "-1" + "|-1|-1|FIN|" == "|42|-1|-1|-1|FIN|";
  }

  lemma UsersDoneText(u: int)
    requires IsInt(u)
    ensures Text(UsersDone(u)) == "|42|" + Decimal(u) + "|" + Decimal(u) + "|0|0|"
  {
    hide Text, Decimal;
    SmallNumbers();
    Written(UsersDone(u), "42", u, u, "0", "0");
    assert "|" + "42" + "|" == "|42|";
    var d := Decimal(u);
    assert "|" + d + "|" + "0" + "|" + "0" + "|" == "|" + d + "|0|0|";
    assert ("|42|" + d) + ("|" + d + "|0|0|") == "|42|" + d + "|" + d + "|0|0|";
  }

  /** A row of the users table. */
  lemma UserRowText(u: int, row: int, name: string)
    requires IsInt(u) && IsInt(row) && |name| < 100
    ensures Text(UserRow(u, row, name))
         == "|11|" + Decimal(u) + "|" + Decimal(u) + "|10|" + (Decimal(row) + ":" + name) + "|"
  {
    hide Text, Decimal;
    SmallNumbers();
    DecimalLength(row);
    var m := Decimal(row) + ":" + name;
    Written(UserRow(u, row, name), "11", u, u, "10", m);
    DataLine("11", "|11|", Decimal(u), Decimal(u), m);
  }

  lemma DataLine(kind: string, lead: string, a: string, b: string, m: string)
    requires lead == "|" + kind + "|"
    ensures ("|" + kind + "|") + a + ("|" + b + "|" + "10" + "|" + m + "|") == lead + a + "|" + b + "|10|" + m + "|"
  {
    assert "|" + b + "|" + "10" + "|" == "|" + b + "|10|";
    assert lead + a + "|" + b + "|10|" == lead + a + ("|" + b + "|10|");
    assert lead + a + ("|" + b + "|10|") + m + "|" == lead + a + ("|" + b + "|10|" + m + "|");
  }

  /** A client's own location, lattitude first. */
  lemma OwnGeoText(a: int, b: int, lattitude: Coord, longitude: Coord)
    requires IsInt(a) && IsInt(b)
    ensures Text(OwnGeo(a, b, Loc(lattitude, longitude)))
         == "|20|" + Decimal(a) + "|" + Decimal(b) + "|10|" + (lattitude + ":" + longitude) + "|"
  {
    hide Text, Decimal;
    SmallNumbers();
    var m := lattitude + ":" + longitude;
    Written(OwnGeo(a, b, Loc(lattitude, longitude)), "20", a, b, "10", m);
    DataLine("20", "|20|", Decimal(a), Decimal(b), m);
  }

  /** A relayed or stored message is its own line again, and a location reply too, as far as 199
      characters reach. */
  lemma RelayedTexts(o: Obj)
    ensures Text(Msg(o)) == FirstChars(Line("30", o.pk.sender, o.pk.receiver, Decimal(o.pk.tmsg), o.pk.msg), 199)
    ensures Text(Stored(o)) == FirstChars(Line("30", o.pk.sender, o.pk.receiver, Decimal(o.pk.tmsg), o.pk.msg), 199)
    ensures Text(Geo(o)) == FirstChars(Line("20", o.pk.sender, o.pk.receiver, "10", o.pk.msg), 199)
  {
    SmallNumbers();
    PrintsLine(Printed(Msg(o)));
    PrintsLine(Printed(Geo(o)));
  }
}
