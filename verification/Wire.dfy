/** The wire format of data_structs/packets.c: the printer, the `strtok_r`/`atoi` parser,
    and the 200-byte buffer a relayed packet is printed into. Strings are C strings: the
    terminating NUL is not part of the value and does not occur inside it. */
module Wire {

  datatype Option<+T> = None | Some(value: T)

  const MAX_PACKET_SIZE := 200
  const MAX_DATA_SIZE := MAX_PACKET_SIZE - 21
  const INT_MIN := -0x8000_0000
  const INT_MAX := 0x7fff_ffff

  const BAR := '|'

  // `ptype` is unsigned in the source and printed with %d; only its bit pattern matters,
  // so it is held as the signed number the printer shows.
  datatype Packet = Packet(ptype: int, sender: int, receiver: int, tmsg: int, msg: string)

  // What `string_to_packet` leaves in the structure: a field whose token is missing stays
  // uninitialised, which is None here.
  datatype Parsed = Parsed(ptype: Option<int>, sender: Option<int>, receiver: Option<int>,
                           tmsg: Option<int>, msg: Option<string>)

  predicate IsInt(n: int) { INT_MIN <= n <= INT_MAX }

  predicate IntHeader(p: Packet) {
    IsInt(p.ptype) && IsInt(p.sender) && IsInt(p.receiver) && IsInt(p.tmsg)
  }

  predicate PlainMessage(m: string) { 0 < |m| <= MAX_DATA_SIZE && BAR !in m }

  // The packets a complete text parses to.
  predicate WellFormed(p: Packet) { IntHeader(p) && PlainMessage(p.msg) }

  function Complete(p: Packet): Parsed {
    Parsed(Some(p.ptype), Some(p.sender), Some(p.receiver), Some(p.tmsg), Some(p.msg))
  }

  // ---------- tokens (strtok_r) ----------

  // Length of the longest prefix without the delimiter.
  function Span(s: string, d: char): (n: nat)
    ensures n <= |s| && d !in s[..n]
    ensures n < |s| ==> s[n] == d
  {
    if s == [] || s[0] == d then 0 else 1 + Span(s[1..], d)
  }

  // All the tokens that repeated calls of `strtok_r` return.
  function Tokens(s: string, d: char): (ts: seq<string>)
    decreases |s|
  {
    if s == [] then []
    else if s[0] == d then Tokens(s[1..], d)
    else var n := Span(s, d); [s[..n]] + Tokens(s[n..], d)
  }

  lemma {:induction false} SpanOfField(w: string, d: char, rest: string)
    requires d !in w
    requires rest == [] || rest[0] == d
    ensures Span(w + rest, d) == |w|
  {
    if w == [] {
      assert w + rest == rest;
    } else {
      assert (w + rest)[1..] == w[1..] + rest;
      SpanOfField(w[1..], d, rest);
    }
  }

  lemma FirstToken(w: string, d: char, rest: string)
    requires w != [] && d !in w
    requires rest == [] || rest[0] == d
    ensures Tokens(w + rest, d) == [w] + Tokens(rest, d)
  {
    SpanOfField(w, d, rest);
    assert (w + rest)[..|w|] == w && (w + rest)[|w|..] == rest;
    assert (w + rest)[0] == w[0];
  }

  // A token is never empty and never holds the delimiter.
  lemma {:induction false} TokensAreClean(s: string, d: char)
    ensures forall t :: t in Tokens(s, d) ==> t != [] && d !in t
    decreases |s|
  {
    if s != [] {
      if s[0] == d {
        TokensAreClean(s[1..], d);
      } else {
        var n := Span(s, d);
        TokensAreClean(s[n..], d);
      }
    }
  }

  // The run of delimiters before a token.
  method SkipDelimiters(s: string, start: nat, d: char) returns (low: nat)
    requires start <= |s|
    ensures start <= low <= |s| && (low < |s| ==> s[low] != d)
    ensures Tokens(s[start..], d) == Tokens(s[low..], d)
  {
    low := start;
    while low < |s| && s[low] == d
      invariant start <= low <= |s|
      invariant Tokens(s[start..], d) == Tokens(s[low..], d)
    {
      assert s[low..][1..] == s[low + 1..];
      low := low + 1;
    }
  }

  // The token that starts at `low`.
  method EndOfToken(s: string, low: nat, d: char) returns (next: nat)
    requires low < |s| && s[low] != d
    ensures low < next <= |s| && d !in s[low..next] && (next < |s| ==> s[next] == d)
  {
    next := low;
    while next < |s| && s[next] != d
      invariant low <= next <= |s|
      invariant d !in s[low..next]
    {
      next := next + 1;
    }
  }

  lemma TokenAt(s: string, low: nat, next: nat, d: char)
    requires low < next <= |s| && d !in s[low..next] && (next < |s| ==> s[next] == d)
    ensures Tokens(s[low..], d) == [s[low..next]] + Tokens(s[next..], d)
  {
    assert s[low..] == s[low..next] + s[next..];
    FirstToken(s[low..next], d, s[next..]);
  }

  // `strtok_r` with its saved cursor.
  method StrtokR(s: string, start: nat, d: char) returns (word: Option<string>, next: nat)
    requires start <= |s|
    ensures start <= next <= |s|
    ensures Tokens(s[start..], d) == match word { case None => [] case Some(w) => [w] + Tokens(s[next..], d) }
    ensures word.None? ==> next == |s|
  {
    var low := SkipDelimiters(s, start, d);
    if low == |s| {
      return None, low;
    }
    next := EndOfToken(s, low, d);
    TokenAt(s, low, next, d);
    word := Some(s[low..next]);
  }

  // ---------- numbers (%d and atoi) ----------

  function Digit(n: nat): char
    requires n < 10
  {
    '0' + n as char
  }

  predicate IsDigit(c: char) { '0' <= c <= '9' }

  predicate IsSpace(c: char) { c == ' ' || '\t' <= c <= '\r' }

  function DecNat(n: nat): (s: string)
    ensures s != [] && forall c :: c in s ==> IsDigit(c)
  {
    if n < 10 then [Digit(n)] else DecNat(n / 10) + [Digit(n % 10)]
  }

  function Decimal(n: int): (s: string)
    ensures s != [] && BAR !in s && ':' !in s
  {
    if n < 0 then "-" + DecNat(-n) else DecNat(n)
  }

  // Value of the leading digits of s, continuing from acc.
  function ReadDigits(s: string, acc: nat): nat {
    if s == [] || !IsDigit(s[0]) then acc
    else ReadDigits(s[1..], 10 * acc + (s[0] as int - '0' as int))
  }

  // `atoi`, before any overflow: callers keep the value in the range of int.
  function Atoi(s: string): int {
    if s == [] then 0
    else if IsSpace(s[0]) then Atoi(s[1..])
    else if s[0] == '-' then 0 - ReadDigits(s[1..], 0)
    else if s[0] == '+' then ReadDigits(s[1..], 0)
    else ReadDigits(s, 0)
  }

  lemma {:induction false} ReadDigitsAppend(s: string, c: char, acc: nat)
    requires forall x :: x in s ==> IsDigit(x)
    requires IsDigit(c)
    ensures ReadDigits(s + [c], acc) == 10 * ReadDigits(s, acc) + (c as int - '0' as int)
  {
    if s == [] {
      assert s + [c] == [c];
      assert [c][1..] == [];
    } else {
      assert (s + [c])[1..] == s[1..] + [c];
      assert s[0] in s;
      ReadDigitsAppend(s[1..], c, 10 * acc + (s[0] as int - '0' as int));
    }
  }

  lemma {:induction false} ReadDecNat(n: nat)
    ensures ReadDigits(DecNat(n), 0) == n
  {
    if n < 10 {
      assert DecNat(n)[1..] == [];
    } else {
      ReadDecNat(n / 10);
      ReadDigitsAppend(DecNat(n / 10), Digit(n % 10), 0);
    }
  }

  lemma AtoiDecimal(n: int)
    ensures Atoi(Decimal(n)) == n
  {
    if n < 0 {
      assert Decimal(n)[1..] == DecNat(-n);
      ReadDecNat(-n);
    } else {
      var s := DecNat(n);
      assert IsDigit(s[0]);
      ReadDecNat(n);
    }
  }

  function Pow10(k: nat): nat { if k == 0 then 1 else 10 * Pow10(k - 1) }

  lemma {:induction false} DecNatLength(n: nat, k: nat)
    requires 0 < k && n < Pow10(k)
    ensures |DecNat(n)| <= k
  {
    if n >= 10 {
      assert Pow10(1) == 10 * Pow10(0) == 10;
      assert Pow10(k) == 10 * Pow10(k - 1);
      DecNatLength(n / 10, k - 1);
    }
  }

  // "-2147483648" is the longest header field.
  lemma DecimalLength(n: int)
    requires IsInt(n)
    ensures |Decimal(n)| <= 11
  {
    assert Pow10(10) == 10_000_000_000 by {
      assert Pow10(5) == 100_000;
    }
    DecNatLength(if n < 0 then -n else n, 10);
  }

  // ---------- printing and parsing ----------

  // The words, each behind a bar.
  function Barred(ws: seq<string>): string {
    if ws == [] then "" else "|" + ws[0] + Barred(ws[1..])
  }

  function Chars(ws: seq<string>): nat {
    if ws == [] then 0 else |ws[0]| + Chars(ws[1..])
  }

  function HeaderWords(p: Packet): seq<string> {
    [Decimal(p.ptype), Decimal(p.sender), Decimal(p.receiver), Decimal(p.tmsg)]
  }

  function Header(p: Packet): string { Barred(HeaderWords(p)) }

  // Characters the four printed numbers take, the bars not counted.
  function FieldChars(p: Packet): nat { Chars(HeaderWords(p)) }

  // `packet_to_string`
  function PacketToString(p: Packet): string { Header(p) + "|" + p.msg + "|" }

  // `snprintf(str, MAX_PACKET_SIZE, "|%d|%d|%d|%d|%s|", ...)`: one byte goes to the NUL.
  function PrintToBuffer(p: Packet): string { Take(PacketToString(p), MAX_PACKET_SIZE - 1) }

  function Take(s: string, n: nat): string { if |s| <= n then s else s[..n] }

  function Nth(ts: seq<string>, k: nat): Option<string> { if k < |ts| then Some(ts[k]) else None }

  function NthInt(ts: seq<string>, k: nat): Option<int> { if k < |ts| then Some(Atoi(ts[k])) else None }

  // `string_to_packet`, over the tokens of the text.
  function StringToPacket(text: string): Parsed {
    var ts := Tokens(text, BAR);
    Parsed(NthInt(ts, 0), NthInt(ts, 1), NthInt(ts, 2), NthInt(ts, 3),
           if 4 < |ts| then Some(Take(ts[4], MAX_DATA_SIZE)) else None)
  }

  // The tokens from the k-th on.
  function From(ts: seq<string>, k: nat): seq<string> { if k <= |ts| then ts[k..] else [] }

  // One more call of `strtok_r` on the same text yields the next of all its tokens.
  method NextWord(text: string, mem: nat, d: char, ghost k: nat) returns (word: Option<string>, next: nat)
    requires mem <= |text| && Tokens(text[mem..], d) == From(Tokens(text, d), k)
    ensures next <= |text| && Tokens(text[next..], d) == From(Tokens(text, d), k + 1)
    ensures word == Nth(Tokens(text, d), k)
  {
    word, next := StrtokR(text, mem, d);
    ghost var ts := Tokens(text, d);
    if word.Some? {
      assert From(ts, k)[0] == ts[k] && From(ts, k)[1..] == From(ts, k + 1);
    } else {
      assert text[next..] == [];
    }
  }

  method ParsePacket(text: string) returns (np: Parsed)
    ensures np == StringToPacket(text)
  {
    np := Parsed(None, None, None, None, None);
    assert text[0..] == text;
    var word, mem := NextWord(text, 0, BAR, 0);
    if word.Some? { np := np.(ptype := Some(Atoi(word.value))); }
    word, mem := NextWord(text, mem, BAR, 1);
    if word.Some? { np := np.(sender := Some(Atoi(word.value))); }
    word, mem := NextWord(text, mem, BAR, 2);
    if word.Some? { np := np.(receiver := Some(Atoi(word.value))); }
    word, mem := NextWord(text, mem, BAR, 3);
    if word.Some? { np := np.(tmsg := Some(Atoi(word.value))); }
    word, mem := NextWord(text, mem, BAR, 4);
    if word.Some? { np := np.(msg := Some(Take(word.value, MAX_DATA_SIZE))); }
  }

  lemma BarredWord(w: string, rest: string)
    requires w != [] && BAR !in w && rest != [] && rest[0] == BAR
    ensures Tokens("|" + w + rest, BAR) == [w] + Tokens(rest, BAR)
  {
    assert ("|" + w + rest)[1..] == w + rest;
    FirstToken(w, BAR, rest);
  }

  predicate CleanWord(w: string) { w != [] && BAR !in w }

  lemma BarredStep(ws: seq<string>, rest: string)
    requires ws != [] && rest != [] && rest[0] == BAR
    ensures Barred(ws) + rest == "|" + ws[0] + (Barred(ws[1..]) + rest)
    ensures (Barred(ws[1..]) + rest)[0] == BAR
  {
    var x, y := "|" + ws[0], Barred(ws[1..]);
    assert (x + y) + rest == x + (y + rest);
  }

  // The tokens of printed fields followed by anything that starts at a bar.
  lemma {:induction false} BarredTokens(ws: seq<string>, rest: string)
    requires forall k :: 0 <= k < |ws| ==> CleanWord(ws[k])
    requires rest != [] && rest[0] == BAR
    ensures Tokens(Barred(ws) + rest, BAR) == ws + Tokens(rest, BAR)
  {
    if ws == [] {
      assert Barred(ws) + rest == rest;
    } else {
      var back := Barred(ws[1..]) + rest;
      BarredStep(ws, rest);
      BarredWord(ws[0], back);
      BarredTokens(ws[1..], rest);
      PrependToken(ws, Tokens(rest, BAR));
    }
  }

  lemma PrependToken(ws: seq<string>, ts: seq<string>)
    requires ws != []
    ensures [ws[0]] + (ws[1..] + ts) == ws + ts
  {
  }

  lemma {:induction false} BarredLength(ws: seq<string>)
    ensures |Barred(ws)| == |ws| + Chars(ws)
  {
    if ws != [] {
      BarredLength(ws[1..]);
    }
  }

  lemma FieldCharsBound(p: Packet)
    requires IntHeader(p)
    ensures FieldChars(p) <= 44
  {
    DecimalLength(p.ptype);
    DecimalLength(p.sender);
    DecimalLength(p.receiver);
    DecimalLength(p.tmsg);
    var ws := HeaderWords(p);
    assert Chars(ws) == |ws[0]| + Chars(ws[1..]);
    assert Chars(ws[1..]) == |ws[1]| + Chars(ws[2..]);
    assert Chars(ws[2..]) == |ws[2]| + Chars(ws[3..]);
    assert Chars(ws[3..]) == |ws[3]| + Chars(ws[4..]);
  }

  // What any header followed by a (possibly cut) message and a (possibly cut) bar parses to.
  lemma ParseHeaderAndMessage(p: Packet, m: string, tail: string)
    requires m != [] && BAR !in m && |m| <= MAX_DATA_SIZE
    requires tail == [] || tail == "|"
    ensures StringToPacket(Header(p) + ("|" + m + tail)) == Complete(p.(msg := m))
  {
    var rest := "|" + m + tail;
    BarredTokens(HeaderWords(p), rest);
    assert rest[1..] == m + tail;
    FirstToken(m, BAR, tail);
    assert Tokens(tail, BAR) == [] by {
      if tail == "|" { assert tail[1..] == []; }
    }
    AtoiDecimal(p.ptype);
    AtoiDecimal(p.sender);
    AtoiDecimal(p.receiver);
    AtoiDecimal(p.tmsg);
  }

  // A parsed packet whose five fields are all there is well formed when its numbers fit in int.
  lemma ParsedIsPlain(text: string)
    requires |Tokens(text, BAR)| >= 5
    ensures var q := StringToPacket(text);
            q.ptype.Some? && q.sender.Some? && q.receiver.Some? && q.tmsg.Some? && q.msg.Some?
            && PlainMessage(q.msg.value)
  {
    TokensAreClean(text, BAR);
    assert Tokens(text, BAR)[4] in Tokens(text, BAR);
  }

  /** Printing and parsing give the packet back exactly when the message is plain. */
  lemma RoundTrip(p: Packet)
    ensures StringToPacket(PacketToString(p)) == Complete(p) <==> PlainMessage(p.msg)
  {
    var text := PacketToString(p);
    if PlainMessage(p.msg) {
      assert text == Header(p) + ("|" + p.msg + "|");
      ParseHeaderAndMessage(p, p.msg, "|");
      assert p.(msg := p.msg) == p;
    } else if StringToPacket(text) == Complete(p) {
      assert StringToPacket(text).msg == Some(p.msg);
      ParsedIsPlain(text);
    }
  }

  /** Normalisation: printing what a text parsed to, and parsing it again, changes nothing. */
  lemma ReparseIsStable(text: string, p: Packet)
    requires StringToPacket(text) == Complete(p)
    ensures StringToPacket(PacketToString(p)) == Complete(p)
  {
    assert |Tokens(text, BAR)| >= 5;
    ParsedIsPlain(text);
    RoundTrip(p);
  }

  // Message characters that survive the 200-byte buffer.
  function Surviving(p: Packet): int {
    if FieldChars(p) + |p.msg| <= MAX_PACKET_SIZE - 6 then |p.msg| else MAX_PACKET_SIZE - 6 - FieldChars(p)
  }

  /** A relayed packet keeps its whole header; its message keeps exactly the first
      194 - FieldChars characters. */
  lemma RelayKeepsHeader(p: Packet)
    requires WellFormed(p)
    ensures 0 < Surviving(p) <= |p.msg|
    ensures StringToPacket(PrintToBuffer(p)) == Complete(p.(msg := p.msg[..Surviving(p)]))
    ensures StringToPacket(PrintToBuffer(p)) == Complete(p) <==> FieldChars(p) + |p.msg| <= 194
  {
    FieldCharsBound(p);
    BarredLength(HeaderWords(p));
    var h := Header(p);
    var text := PacketToString(p);
    assert text == h + ("|" + p.msg + "|");
    var n := Surviving(p);
    var m := p.msg[..n];
    var tail := if FieldChars(p) + |p.msg| <= 193 then "|" else "";
    assert PrintToBuffer(p) == h + ("|" + m + tail) by {
      if FieldChars(p) + |p.msg| <= 194 {
        assert m == p.msg;
      }
    }
    ParseHeaderAndMessage(p, m, tail);
    assert m == p.msg <==> n == |p.msg|;
  }

  // A short packet fits the buffer whatever its numbers, so it comes back whole.
  lemma ShortSurvives(p: Packet)
    requires IntHeader(p) && BAR !in p.msg && 0 < |p.msg| <= 95
    ensures StringToPacket(PrintToBuffer(p)) == Complete(p)
  {
    RelayKeepsHeader(p);
    FieldCharsBound(p);
  }

  // ---------- texts that are not whole ----------

  // The field of the k-th word: the word's number, or unset when there is no such word.
  function FieldOf(ws: seq<string>, k: nat): Option<int> { if k < |ws| then Some(Atoi(ws[k])) else None }

  /** A text of any number of words: each of the first four gives its field, the fifth gives the
      message, cut at 179 characters, further ones are ignored, and a field whose word is
      missing stays unset. */
  lemma FieldsOfWords(ws: seq<string>)
    requires forall k :: 0 <= k < |ws| ==> CleanWord(ws[k])
    ensures var q := StringToPacket(Barred(ws) + "|");
            && q.ptype == FieldOf(ws, 0) && q.sender == FieldOf(ws, 1)
            && q.receiver == FieldOf(ws, 2) && q.tmsg == FieldOf(ws, 3)
            && (q.msg.Some? <==> |ws| >= 5)
            && (|ws| >= 5 && |ws[4]| <= 179 ==> q.msg == Some(ws[4]))
            && (|ws| >= 5 && |ws[4]| > 179 ==> q.msg == Some(ws[4][..179]))
  {
    BarredTokens(ws, "|");
    assert Tokens("|", BAR) == [] by { assert "|"[1..] == []; }
    assert ws + [] == ws;
  }

  predicate OnlyBars(s: string) { forall k :: 0 <= k < |s| ==> s[k] == BAR }

  lemma {:induction false} SkipBars(lead: string, rest: string)
    requires OnlyBars(lead)
    ensures Tokens(lead + rest, BAR) == Tokens(rest, BAR)
  {
    if lead == [] {
      assert lead + rest == rest;
    } else {
      assert (lead + rest)[1..] == lead[1..] + rest;
      SkipBars(lead[1..], rest);
    }
  }

  /** Whatever a message holds, its printed text parses to the packet with the message's first
      word without a bar, cut at 179 characters; `lead` and `rest` are what is dropped. A message
      of any length without a bar is such a word itself. */
  lemma MessageIsFirstWord(p: Packet, lead: string, w: string, rest: string)
    requires p.msg == lead + w + rest && OnlyBars(lead) && CleanWord(w)
    requires rest == [] || rest[0] == BAR
    ensures StringToPacket(PacketToString(p)) == Complete(p.(msg := if |w| <= 179 then w else w[..179]))
  {
    var tail := rest + "|";
    assert PacketToString(p) == Barred(HeaderWords(p)) + (("|" + lead) + (w + tail));
    BarredTokens(HeaderWords(p), ("|" + lead) + (w + tail));
    SkipBars("|" + lead, w + tail);
    FirstToken(w, BAR, tail);
    AtoiDecimal(p.ptype);
    AtoiDecimal(p.sender);
    AtoiDecimal(p.receiver);
    AtoiDecimal(p.tmsg);
  }

  lemma LongMessagesAreCut(p: Packet)
    requires p.msg != [] && BAR !in p.msg
    ensures StringToPacket(PacketToString(p)) == Complete(p.(msg := if |p.msg| <= 179 then p.msg else p.msg[..179]))
  {
    assert p.msg == [] + p.msg + [];
    MessageIsFirstWord(p, [], p.msg, []);
  }

  // ---------- what atoi makes of any word ----------

  predicate OnlySpaces(s: string) { forall k :: 0 <= k < |s| ==> IsSpace(s[k]) }

  predicate NoDigitFirst(s: string) { s == [] || !IsDigit(s[0]) }

  lemma {:induction false} AtoiSkipsSpaces(sp: string, s: string)
    requires OnlySpaces(sp)
    ensures Atoi(sp + s) == Atoi(s)
  {
    if sp == [] {
      assert sp + s == s;
    } else {
      assert (sp + s)[1..] == sp[1..] + s;
      AtoiSkipsSpaces(sp[1..], s);
    }
  }

  lemma {:induction false} ReadDigitsStops(ds: string, junk: string, acc: nat)
    requires (forall k :: 0 <= k < |ds| ==> IsDigit(ds[k])) && NoDigitFirst(junk)
    ensures ReadDigits(ds + junk, acc) == ReadDigits(ds, acc)
  {
    if ds == [] {
      assert ds + junk == junk;
    } else {
      assert (ds + junk)[1..] == ds[1..] + junk && (ds + junk)[0] == ds[0];
      ReadDigitsStops(ds[1..], junk, 10 * acc + (ds[0] as int - '0' as int));
    }
  }

  /** `atoi` skips leading space, takes one sign, and reads the number up to the first character
      that is no digit; where no digit follows the value is 0. */
  lemma AtoiReads(sp: string, sign: string, n: nat, junk: string)
    requires OnlySpaces(sp) && sign in {"", "+", "-"} && NoDigitFirst(junk)
    ensures Atoi(sp + (sign + (DecNat(n) + junk))) == if sign == "-" then 0 - n else n
    ensures sign == "" && junk != [] ==> !IsSpace(junk[0]) && junk[0] !in "+-" ==> Atoi(sp + junk) == 0
    ensures sign != "" ==> Atoi(sp + (sign + junk)) == 0
  {
    ReadDecNat(n);
    ReadDigitsStops(DecNat(n), junk, 0);
    AtoiSkipsSpaces(sp, sign + (DecNat(n) + junk));
    AtoiSkipsSpaces(sp, junk);
    AtoiSkipsSpaces(sp, sign + junk);
    var num := DecNat(n) + junk;
    assert num[0] == DecNat(n)[0] && DecNat(n)[0] in DecNat(n);
    if sign == "" {
      assert sign + num == num;
    } else {
      assert (sign + num)[1..] == num && (sign + junk)[1..] == junk;
    }
  }

  /** Decimal notation has no leading zero, so it is the shortest one. */
  lemma {:induction false} NoLeadingZero(n: nat)
    ensures n > 0 ==> DecNat(n)[0] != '0'
    ensures n == 0 ==> DecNat(n) == "0"
  {
    if n >= 10 {
      NoLeadingZero(n / 10);
    }
  }
}
