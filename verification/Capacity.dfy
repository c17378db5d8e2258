/** How full the address table gets. The program writes to its 100 slots without looking whether
    there is room; whether there is depends on how many connections the server takes. */
module Capacity {
  import opened Protocol
  import opened Wire
  import opened Tallies
  import opened RoutingSafety
  import opened Runs
  import AddressTable

  // Removal reads one slot past the zero slot that ends the entries.
  const USABLE_SLOTS := AddressTable.MAX_ADDR_TABLE_SIZE - 2

  // The step uses the table within its slots: an accepted login leaves a zero slot behind the
  // entries, and a removal finds two.
  predicate RoomFor(s: State, e: Event) {
    match e
    case Recv(_, pk, _) => Enabled(s, e) && pk.ptype == AUTH_PACKET && LogsIn(s, pk) ==> |s.table| <= USABLE_SLOTS
    case Cleanup(i) => Enabled(s, e) && s.sessions[i].userid in s.table ==> |s.table| <= USABLE_SLOTS
    case _ => true
  }

  ghost predicate RoomThroughout(s: State, es: seq<Event>) {
    forall n :: 0 <= n < |es| ==> RoomFor(Run(s, es[..n]), es[n])
  }

  // The ids whose entry names one of the first n sessions.
  ghost function EntriesBelow(s: State, n: nat): set<int> { set id | id in s.table && s.table[id] < n }

  // One session more can have one entry more, and only if it is in the list of threads.
  lemma EntriesOfNext(s: State, n: nat)
    requires TableSound(s) && LinksSound(s) && n < |s.sessions|
    ensures |EntriesBelow(s, n + 1)| <= |EntriesBelow(s, n)| + |Link(s.sessions[n])|
  {
    var more := EntriesBelow(s, n + 1) - EntriesBelow(s, n);
    assert EntriesBelow(s, n + 1) == EntriesBelow(s, n) + more;
    var id := s.sessions[n].userid;
    forall x ensures x in more ==> x == id && s.sessions[n].linked {
      if x in more { assert s.table[x] == n; }
    }
    assert more == if id in more then {id} else {};
  }

  lemma {:induction false} EntriesAreLinked(s: State, n: nat)
    requires TableSound(s) && LinksSound(s) && n <= |s.sessions|
    ensures |EntriesBelow(s, n)| <= |Tally(s.sessions[..n], Link)|
  {
    if n == 0 {
      assert EntriesBelow(s, n) == {};
    } else {
      EntriesAreLinked(s, n - 1);
      EntriesOfNext(s, n - 1);
      assert s.sessions[..n][..n - 1] == s.sessions[..n - 1];
    }
  }

  /** The table has no more entries than the list of threads has nodes. */
  lemma TableFitsList(s: State)
    requires Inv(s)
    ensures |s.table| <= s.listLen <= s.maxConn + 1
  {
    EntriesAreLinked(s, |s.sessions|);
    assert s.sessions[..|s.sessions|] == s.sessions;
    assert EntriesBelow(s, |s.sessions|) == s.table.Keys by {
      forall id ensures id in EntriesBelow(s, |s.sessions|) <==> id in s.table.Keys {}
    }
    assert |s.table.Keys| == |s.table|;
  }

  lemma {:induction false} MaxConnIsConstant(s: State, es: seq<Event>)
    ensures Run(s, es).maxConn == s.maxConn
    decreases |es|
  {
    if es != [] {
      MaxConnIsConstant(s, es[..|es| - 1]);
    }
  }

  lemma TableIsBounded(maxConn: nat, es: seq<Event>)
    requires LegalRun(Init(maxConn), es)
    ensures |Run(Init(maxConn), es).table| <= maxConn + 1
  {
    ReachableIsSound(maxConn, es);
    MaxConnIsConstant(Init(maxConn), es);
    TableFitsList(Run(Init(maxConn), es));
  }

  /** A table with room for `slots` entries is large enough for every run exactly when the
      server takes at most `slots` connections at a time. It takes maxConn + 1, and so many
      clients can be logged in at once. */
  lemma TableFits(maxConn: nat, slots: nat, env: Env)
    requires IsInt(slots + 1)
    ensures (forall es :: LegalRun(Init(maxConn), es) ==> |Run(Init(maxConn), es).table| <= slots)
       <==> maxConn + 1 <= slots
  {
    if maxConn + 1 <= slots {
      forall es | LegalRun(Init(maxConn), es) ensures |Run(Init(maxConn), es).table| <= slots {
        TableIsBounded(maxConn, es);
      }
    } else {
      CrowdIsOnline(maxConn, slots + 1, env);
      assert |Run(Init(maxConn), Crowd(slots + 1, env)).table| == slots + 1;
    }
  }

  /** The slots of the program suffice for every run exactly when MAX_CONN is at most 97. */
  lemma SlotsSuffice(maxConn: nat, env: Env)
    ensures (forall es :: LegalRun(Init(maxConn), es) ==> |Run(Init(maxConn), es).table| <= USABLE_SLOTS)
       <==> maxConn <= 97
  {
    TableFits(maxConn, USABLE_SLOTS, env);
  }

  // ---------- room for every step of a run ----------

  lemma RoomAppend(s: State, es: seq<Event>, fs: seq<Event>)
    requires RoomThroughout(s, es + fs)
    ensures RoomThroughout(s, es) && RoomThroughout(Run(s, es), fs)
  {
    hide RoomFor, Run;
    forall n | 0 <= n < |es| ensures RoomFor(Run(s, es[..n]), es[n]) {
      assert (es + fs)[..n] == es[..n] && (es + fs)[n] == es[n];
    }
    forall n | 0 <= n < |fs| ensures RoomFor(Run(Run(s, es), fs[..n]), fs[n]) {
      assert (es + fs)[..|es| + n] == es + fs[..n] && (es + fs)[|es| + n] == fs[n];
      RunAppend(s, es, fs[..n]);
    }
  }

  lemma RoomFirst(s: State, es: seq<Event>)
    requires es != [] && RoomThroughout(s, es)
    ensures RoomFor(s, es[0]) && RoomThroughout(Step(s, es[0]), es[1..])
  {
    assert es[..0] == [] && Run(s, []) == s;
    assert [es[0]] + es[1..] == es;
    RoomAppend(s, [es[0]], es[1..]);
    RunOne(s, es[0]);
  }

  lemma SmallServersHaveRoom(maxConn: nat, es: seq<Event>)
    requires maxConn <= 97 && LegalRun(Init(maxConn), es)
    ensures RoomThroughout(Init(maxConn), es)
  {
    forall n | 0 <= n < |es| ensures RoomFor(Run(Init(maxConn), es[..n]), es[n]) {
      assert es == es[..n] + es[n..];
      RunAppend(Init(maxConn), es[..n], es[n..]);
      TableIsBounded(maxConn, es[..n]);
    }
  }

  const BYE := Packet(LOGOUT_PACKET, 1, -1, 0, "0")

  // 99 clients are logged in, and the first one leaves.
  function FullHouse(env: Env): seq<Event> { Crowd(99, env) + [Recv(0, BYE, env), Cleanup(0)] }

  lemma Leaving(s: State, n: nat, env: Env)
    requires Crowded(s, n) && n >= 1
    ensures var t := Step(s, Recv(0, BYE, env));
            Enabled(t, Cleanup(0)) && t.table == s.table && t.sessions[0].userid == 1
    ensures LegalRun(s, [Recv(0, BYE, env), Cleanup(0)])
  {
    TwoLegal(s, Recv(0, BYE, env), Cleanup(0));
  }

  lemma TwoLegal(s: State, e: Event, f: Event)
    requires Legal(s, e) && Legal(Step(s, e), f)
    ensures LegalRun(s, [e, f])
  {
    RunFirst(s, [e, f]);
    assert [e, f][1..] == [f];
    RunOne(Step(s, e), f);
  }

  lemma BigServersLackRoom(maxConn: nat, env: Env)
    requires maxConn >= 98
    ensures LegalRun(Init(maxConn), FullHouse(env)) && !RoomThroughout(Init(maxConn), FullHouse(env))
  {
    hide Run, Crowded, Step;
    var s, more := Run(Init(maxConn), Crowd(99, env)), [Recv(0, BYE, env), Cleanup(0)];
    CrowdIsOnline(maxConn, 99, env);
    CrowdedTable(s, 99);
    RunAppend(Init(maxConn), Crowd(99, env), more);
    Leaving(s, 99, env);
    if RoomThroughout(Init(maxConn), FullHouse(env)) {
      RoomAppend(Init(maxConn), Crowd(99, env), more);
      RoomFirst(s, more);
      assert more[1..] == [Cleanup(0)];
      RoomFirst(Step(s, more[0]), [Cleanup(0)]);
    }
  }

  lemma CrowdedTable(s: State, n: nat)
    requires Crowded(s, n)
    ensures |s.table| == n && (n >= 1 ==> 1 in s.table)
  {
  }

  /** There is room for every step of every run exactly when MAX_CONN is at most 97. */
  lemma EveryStepHasRoom(maxConn: nat, env: Env)
    ensures (forall es :: LegalRun(Init(maxConn), es) ==> RoomThroughout(Init(maxConn), es)) <==> maxConn <= 97
  {
    hide LegalRun, RoomThroughout;
    if maxConn <= 97 {
      forall es | LegalRun(Init(maxConn), es) ensures RoomThroughout(Init(maxConn), es) {
        SmallServersHaveRoom(maxConn, es);
      }
    } else {
      BigServersLackRoom(maxConn, env);
    }
  }
}
