/** The connection handlers of connect_handler.c, with the session blocks of
    data_structs/thread_info_block.c, on the real address table, queues and thread list. Every
    method is proved to do what one step of module Protocol does. */
module ConnectHandler {
  import opened Wire
  import opened Protocol
  import opened PacketSwitch
  import opened RoutingSafety
  import opened Capacity
  import AddressTable
  import PacketQueue
  import GenericList

  // A thread_block.
  class ThreadBlock {
    var userid: int
    var auth: Auth
    var cancelled: bool
    var loc: Loc
    var revision: nat
    var out: seq<Write>
    const inQueue: PacketQueue.Queue<Obj>
    const tid: GenericList.ListNode<nat>
    ghost var live: bool
    ghost var linked: bool

    // create_thread_node
    constructor (tid: GenericList.ListNode<nat>)
      ensures this.tid == tid && fresh(inQueue) && inQueue.Valid() && inQueue.Nodes == {}
      ensures View() == Session(true, false, -1, NotAuth, false, [], NOWHERE, 0, [])
    {
      this.tid := tid;
      userid, auth, cancelled, loc, revision, out := -1, NotAuth, false, NOWHERE, 0, [];
      inQueue := new PacketQueue.Queue<Obj>();
      live, linked := true, false;
    }

    ghost function View(): Session
      reads this, inQueue
    {
      Session(live, linked, userid, auth, cancelled, inQueue.Contents, loc, revision, out)
    }
  }

  class Server {
    const maxConn: nat
    const table: AddressTable.AddrTable<nat>
    const threads: GenericList.List<nat>
    var blocks: seq<ThreadBlock>
    var users: seq<User>
    var messages: seq<Row>
    var freed: seq<nat>
    var next: nat
    ghost var st: State   // what the objects stand for
    ghost var Queues: set<PacketQueue.Queue<Obj>>
    ghost var Nodes: set<PacketQueue.QueueNode<Obj>>
    ghost var Tids: set<GenericList.ListNode<nat>>

    // Which objects there are, and that no two of them are one.
    ghost predicate Apart()
      reads this`blocks, this`Queues, this`Tids, threads`Spine
    {
      && (forall n :: n in threads.Spine ==> n in Tids)
      && (forall i :: 0 <= i < |blocks| ==> blocks[i].tid in Tids && blocks[i].inQueue in Queues)
      && (forall i, j :: 0 <= i < j < |blocks| ==>
            blocks[i] != blocks[j] && blocks[i].tid != blocks[j].tid && blocks[i].inQueue != blocks[j].inQueue)
    }

    // The queues are in order and share no node. The blocks' own fields are not looked at, so
    // writing to them cannot break this.
    ghost predicate QueuesApart()
      reads this`blocks, this`Queues, this`Nodes, Queues, Nodes
    {
      && (forall i :: 0 <= i < |blocks| ==>
            && blocks[i].inQueue in Queues && blocks[i].inQueue.Nodes <= Nodes
            && blocks[i].inQueue.Valid())
      && (forall i, j :: 0 <= i < |blocks| && 0 <= j < |blocks| && i != j ==>
            blocks[i].inQueue.Nodes !! blocks[j].inQueue.Nodes)
    }

    ghost predicate TableStandsFor(m: map<int, nat>)
      reads table, table.addrs
    {
      table.Valid() && table.len < AddressTable.MAX_ADDR_TABLE_SIZE && table.Contents() == m
    }

    ghost predicate ThreadsCount(n: int)
      reads threads, threads.Spine
    {
      threads.Valid() && threads.listLen == n
    }

    // Block b stands for session x. Its node is in the thread list exactly when it is linked; a
    // block that was refused has a node that was never linked.
    ghost predicate StandsFor(b: ThreadBlock, x: Session)
      reads b, b.inQueue, b.tid, threads
    {
      && b.View() == x && x.userid != 0
      && (x.linked <==> b.tid in threads.Spine)
      && (x.live && !x.linked ==> b.tid.next == null && b.tid.prev == null)
    }

    ghost predicate BlocksStand(xs: seq<Session>)
      requires Apart() && |xs| == |blocks|
      reads this`blocks, this`Queues, this`Tids, blocks, Queues, threads, Tids
    {
      forall i :: 0 <= i < |blocks| ==> StandsFor(blocks[i], xs[i])
    }

    ghost predicate Valid()
      reads this, blocks, Queues, Nodes, table, table.addrs, threads, Tids
    {
      && Apart() && QueuesApart() && TableStandsFor(st.table) && ThreadsCount(st.listLen)
      && |st.sessions| == |blocks| && BlocksStand(st.sessions)
      && st.maxConn == maxConn && st.users == users && st.messages == messages && st.freed == freed && st.next == next
      && (forall id :: id in st.table ==> 1 <= id && st.table[id] < |blocks|)
    }

    constructor (maxConn: nat)
      ensures Valid() && st == Init(maxConn) && this.maxConn == maxConn
      ensures forall o :: o in Objects() ==> fresh(o)
    {
      hide GenericList.List.Valid, AddressTable.AddrTable.Valid, AddressTable.AddrTable.Contents;
      this.maxConn := maxConn;
      table := new AddressTable.AddrTable<nat>();
      threads := new GenericList.List<nat>();
      blocks, users, messages, freed, next := [], [], [], [], 0;
      st := Init(maxConn);
      Queues, Nodes, Tids := {}, {}, {};
    }

    // ---------- single effects ----------

    // A block's own fields.
    method UserId(i: nat) returns (id: int)
      requires Valid() && i < |blocks|
      ensures id == st.sessions[i].userid && id != 0
    {
      hide QueuesApart, TableStandsFor, ThreadsCount;
      id := blocks[i].userid;
    }

    // send_msg_dontwait
    method Send(i: nat, w: Write)
      requires Valid() && i < |blocks|
      modifies this`st, blocks[i]
      ensures Valid() && st == Sent(old(st), i, [w])
    {
      hide QueuesApart, TableStandsFor, ThreadsCount;
      var blk := blocks[i];
      blk.out := blk.out + [w];
      st := Sent(st, i, [w]);
    }

    // user_auth = USER_TO_EXIT and pthread_cancel(pthread_self())
    method Exit(i: nat)
      requires Valid() && i < |blocks|
      modifies this`st, blocks[i]
      ensures Valid() && st == Exited(old(st), i)
    {
      hide QueuesApart, TableStandsFor, ThreadsCount;
      var blk := blocks[i];
      blk.auth := ToExit;
      blk.cancelled := true;
      st := Exited(st, i);
    }

    // pthread_cancel(pthread_self())
    method Cancel(i: nat)
      requires Valid() && i < |blocks|
      modifies this`st, blocks[i]
      ensures Valid() && st == WithSession(old(st), i, old(st).sessions[i].(cancelled := true))
    {
      hide QueuesApart, TableStandsFor, ThreadsCount;
      var blk := blocks[i];
      blk.cancelled := true;
      st := WithSession(st, i, st.sessions[i].(cancelled := true));
    }

    method SetUserid(i: nat, id: int)
      requires Valid() && i < |blocks| && id != 0
      modifies this`st, blocks[i]
      ensures Valid() && st == WithSession(old(st), i, old(st).sessions[i].(userid := id))
    {
      hide QueuesApart, TableStandsFor, ThreadsCount;
      var blk := blocks[i];
      blk.userid := id;
      st := WithSession(st, i, st.sessions[i].(userid := id));
    }

    method SetAuthenticated(i: nat)
      requires Valid() && i < |blocks|
      modifies this`st, blocks[i]
      ensures Valid() && st == WithSession(old(st), i, old(st).sessions[i].(auth := Authed))
    {
      hide QueuesApart, TableStandsFor, ThreadsCount;
      var blk := blocks[i];
      blk.auth := Authed;
      st := WithSession(st, i, st.sessions[i].(auth := Authed));
    }

    // set_revision_num
    method SetRevisionNum(i: nat)
      requires Valid() && i < |blocks|
      modifies this`st, blocks[i]
      ensures Valid() && st == WithSession(old(st), i, old(st).sessions[i].(revision := |old(st).users|))
    {
      hide QueuesApart, TableStandsFor, ThreadsCount;
      var blk := blocks[i];
      blk.revision := |users|;
      st := WithSession(st, i, st.sessions[i].(revision := |st.users|));
    }

    // set_geolocation_info
    method SetGeolocationInfo(i: nat, longitude: Coord, lattitude: Coord)
      requires Valid() && i < |blocks|
      modifies this`st, blocks[i]
      ensures Valid() && st == WithSession(old(st), i, old(st).sessions[i].(loc := Loc(lattitude, longitude)))
    {
      hide QueuesApart, TableStandsFor, ThreadsCount;
      var blk := blocks[i];
      blk.loc := Loc(lattitude, longitude);
      st := WithSession(st, i, st.sessions[i].(loc := Loc(lattitude, longitude)));
    }

    // destroy_packet
    method DestroyPacket(addr: nat)
      requires Valid()
      modifies this`freed, this`st
      ensures Valid() && st == Destroyed(old(st), addr)
    {
      hide QueuesApart, TableStandsFor, ThreadsCount, StandsFor;
      freed := freed + [addr];
      st := Destroyed(st, addr);
    }

    // malloc of a packet
    method AllocatePacket() returns (addr: nat)
      requires Valid()
      modifies this`next, this`st
      ensures Valid() && addr == old(st).next && st == old(st).(next := old(st).next + 1)
    {
      hide QueuesApart, TableStandsFor, ThreadsCount, StandsFor;
      addr := next;
      next := next + 1;
      st := st.(next := next);
    }

    // INSERT INTO users
    method AddUser(u: User)
      requires Valid()
      modifies this`users, this`st
      ensures Valid() && st == old(st).(users := old(st).users + [u])
    {
      hide QueuesApart, TableStandsFor, ThreadsCount, StandsFor;
      users := users + [u];
      st := st.(users := users);
    }

    // INSERT INTO messages, and UPDATE messages
    method SetMessages(ms: seq<Row>)
      requires Valid()
      modifies this`messages, this`st
      ensures Valid() && st == old(st).(messages := ms)
    {
      hide QueuesApart, TableStandsFor, ThreadsCount, StandsFor;
      messages := ms;
      st := st.(messages := ms);
    }

    // getAddrFromaddrTable
    method Find(id: int) returns (node: Option<nat>)
      requires Valid()
      ensures node == Lookup(st, id)
    {
      hide QueuesApart, ThreadsCount, StandsFor;
      node := table.Get(id);
    }

    // If the login is accepted, its entry fits.
    ghost predicate HasRoomFor(pk: Packet)
      reads this`st
    {
      LogsIn(st, pk) ==> |st.table| <= USABLE_SLOTS
    }

    method AddEntry(id: int, i: nat)
      requires TableStandsFor(st.table) && 1 <= id && id !in st.table && |st.table| <= USABLE_SLOTS
      modifies table, table.addrs
      ensures TableStandsFor(st.table[id := i])
    {
      table.Size();
      ghost var at := table.Insert(id, i);
    }

    // insertInAddrTable
    method EnterInTable(id: int, i: nat)
      requires Valid() && i < |blocks| && 1 <= id && id !in st.table && |st.table| <= USABLE_SLOTS
      modifies this`st, table, table.addrs
      ensures Valid() && st == old(st).(table := old(st).table[id := i])
    {
      hide QueuesApart, TableStandsFor, ThreadsCount, StandsFor, BlocksStand, Apart;
      AddEntry(id, i);
      st := st.(table := st.table[id := i]);
    }

    method DropEntry(id: int)
      requires TableStandsFor(st.table) && id != 0 && (id in st.table ==> |st.table| <= USABLE_SLOTS)
      modifies table, table.addrs
      ensures TableStandsFor(st.table - {id})
    {
      table.Size();
      var hold := table.Remove(id);
    }

    // removeFromAddrTable
    method RemoveFromTable(id: int)
      requires Valid() && id != 0 && (id in st.table ==> |st.table| <= USABLE_SLOTS)
      modifies this`st, table, table.addrs
      ensures Valid() && st == old(st).(table := old(st).table - {id})
    {
      hide QueuesApart, TableStandsFor, ThreadsCount, StandsFor, BlocksStand, Apart;
      DropEntry(id);
      st := st.(table := st.table - {id});
    }

    method PushTo(j: nat, o: Obj)
      requires Apart() && QueuesApart() && j < |blocks|
      modifies this`Nodes, Queues, Nodes
      ensures Apart() && QueuesApart() && fresh(Nodes - old(Nodes))
      ensures forall k :: 0 <= k < |blocks| ==>
        blocks[k].inQueue.Contents == old(blocks[k].inQueue.Contents) + if k == j then [o] else []
    {
      hide PacketQueue.Queue.Valid;
      var q := blocks[j].inQueue;
      q.Enqueue(o);
      Nodes := Nodes + q.Nodes;
    }

    method PutInQueueOf(j: nat, o: Obj)
      requires Apart() && QueuesApart() && j < |blocks|
      requires |st.sessions| == |blocks| && BlocksStand(st.sessions)
      modifies this`Nodes, Queues, Nodes
      ensures Apart() && QueuesApart() && fresh(Nodes - old(Nodes))
      ensures BlocksStand(st.sessions[j := st.sessions[j].(queue := st.sessions[j].queue + [o])])
    {
      hide QueuesApart;
      assert StandsFor(blocks[j], st.sessions[j]);
      PushTo(j, o);
    }

    method EnqueueAt(j: nat, o: Obj)
      requires Valid() && j < |blocks|
      modifies this`Nodes, this`st, Queues, Nodes
      ensures Valid() && fresh(Nodes - old(Nodes))
      ensures st == Enqueued(old(st), j, o)
    {
      hide QueuesApart, TableStandsFor, ThreadsCount, StandsFor, BlocksStand, Apart;
      PutInQueueOf(j, o);
      st := Enqueued(st, j, o);
    }

    method PopFrom(i: nat) returns (o: Obj)
      requires Apart() && QueuesApart() && i < |blocks| && blocks[i].inQueue.Contents != []
      modifies Queues
      ensures Apart() && QueuesApart() && o == old(blocks[i].inQueue.Contents)[0]
      ensures forall k :: 0 <= k < |blocks| ==>
        blocks[k].inQueue.Contents == old(blocks[k].inQueue.Contents)[if k == i then 1 else 0..]
    {
      hide PacketQueue.Queue.Valid;
      var hold := blocks[i].inQueue.Dequeue();
      o := hold.value;
    }

    method TakeFromQueueOf(i: nat) returns (o: Obj)
      requires Apart() && QueuesApart() && i < |blocks|
      requires |st.sessions| == |blocks| && BlocksStand(st.sessions) && st.sessions[i].queue != []
      modifies Queues
      ensures Apart() && QueuesApart() && o == st.sessions[i].queue[0]
      ensures BlocksStand(Popped(st, i).sessions)
    {
      hide QueuesApart;
      assert StandsFor(blocks[i], st.sessions[i]);
      o := PopFrom(i);
    }

    method DequeueAt(i: nat) returns (o: Obj)
      requires Valid() && i < |blocks| && st.sessions[i].queue != []
      modifies this`st, Queues
      ensures Valid() && o == old(st).sessions[i].queue[0] && st == Popped(old(st), i)
    {
      hide QueuesApart, TableStandsFor, ThreadsCount, StandsFor, BlocksStand, Apart;
      o := TakeFromQueueOf(i);
      st := Popped(st, i);
    }

    method HasPacket(i: nat) returns (r: bool)
      requires Valid() && i < |blocks|
      ensures r <==> st.sessions[i].queue != []
    {
      hide TableStandsFor, ThreadsCount;
      r := !blocks[i].inQueue.Empty();
    }

    // ---------- the cases of the packet switch ----------

    method TwoWords(msg: string) returns (words: Option<User>)
      ensures words == Credentials(msg)
      ensures words.Some? ==> Tokens(msg, ':')[..2] == [words.value.name, words.value.passwd]
    {
      assert msg[0..] == msg;
      var first, mem := NextWord(msg, 0, ':', 0);
      var second, mem' := NextWord(msg, mem, ':', 1);
      words := if first.Some? && second.Some? then Some(User(first.value, second.value)) else None;
    }

    method RegisterNewUser(i: nat, o: Obj)
      requires Valid() && i < |blocks| && BuffersFit(o.pk.msg)
      modifies this`users, this`freed, this`st, blocks[i]
      ensures Valid() && st == Registered(Destroyed(old(st), o.addr), i, o.pk)
    {
      hide QueuesApart, TableStandsFor, ThreadsCount, StandsFor, Credentials;
      DestroyPacket(o.addr);
      var u := TwoWords(o.pk.msg);
      if u.Some? && u.value !in users {
        AddUser(u.value);
        Send(i, Ack(-1));
      } else {
        Send(i, Fin);
      }
    }

    // Whether the table has room is not checked by the source.
    method Authenticator(i: nat, u: User) returns (ok: bool)
      requires Valid() && i < |blocks|
      requires var id := FindUser(st.users, u);
               id.Some? && id.value !in st.table ==> |st.table| <= USABLE_SLOTS
      modifies this`st, blocks[i], table, table.addrs
      ensures Valid()
      ensures var id := FindUser(old(st).users, u);
        && ok == (id.Some? && id.value !in old(st).table)
        && match id
           case None => st == old(st)
           case Some(k) =>
             var n := WithSession(old(st), i, old(st).sessions[i].(userid := k));
             st == if ok then WithSession(n.(table := n.table[k := i]), i, n.sessions[i].(auth := Authed)) else n
    {
      hide QueuesApart, TableStandsFor, ThreadsCount, StandsFor;
      var id := FindUser(users, u);
      if id.None? { return false; }
      SetUserid(i, id.value);
      var node := Find(id.value);
      if node.Some? { return false; }
      EnterInTable(id.value, i);
      SetAuthenticated(i);
      ok := true;
    }

    method AuthenticateUser(i: nat, o: Obj)
      requires Valid() && i < |blocks| && BuffersFit(o.pk.msg) && HasRoomFor(o.pk)
      modifies this`freed, this`st, blocks[i], table, table.addrs
      ensures Valid()
      ensures st == Authenticated(Destroyed(old(st), o.addr), i, o.pk)
    {
      hide QueuesApart, TableStandsFor, ThreadsCount, StandsFor, BlocksStand, Apart, Credentials, FindUser;
      DestroyPacket(o.addr);
      var u := TwoWords(o.pk.msg);
      if u.Some? {
        var ok := Authenticator(i, u.value);
        if ok {
          var id := UserId(i);
          Send(i, Ack(id));
        } else {
          Send(i, Fin);
          Exit(i);
        }
      } else {
        Send(i, Fin);
        Exit(i);
      }
    }

    method GetAllUsers(i: nat, o: Obj)
      requires Valid() && i < |blocks| && 0 <= Atoi(o.pk.msg)
      modifies this`st, blocks[i]
      ensures Valid() && st == Listed(old(st), i, o.pk)
    {
      hide QueuesApart, TableStandsFor, ThreadsCount, StandsFor, Atoi;
      SetRevisionNum(i);
      var count := Atoi(o.pk.msg);
      var id := UserId(i);
      if |users| > count {
        Send(i, UserRow(id, count + 1, users[count].name));
      } else {
        Send(i, UsersDone(id));
      }
    }

    method HandleMsg(i: nat, o: Obj, now: int)
      requires Valid() && i < |blocks|
      modifies this`messages, this`Nodes, this`st, blocks[i], Queues, Nodes
      ensures Valid() && fresh(Nodes - old(Nodes))
      ensures st == Messaged(old(st), i, o, now)
    {
      hide QueuesApart, TableStandsFor, ThreadsCount, StandsFor, BlocksStand, Apart;
      var id := UserId(i);
      if o.pk.receiver == id {
        Send(i, Msg(o));
      } else {
        var node := Find(o.pk.receiver);
        if node.Some? {
          EnqueueAt(node.value, o);
        } else {
          SetMessages(messages + [Row(o, now, true)]);
        }
      }
    }

    method SendRows(i: nat, rows: seq<Row>)
      requires Valid() && i < |blocks|
      modifies this`st, blocks[i]
      ensures Valid() && st == Sent(old(st), i, StoredWrites(rows))
    {
      hide QueuesApart, TableStandsFor, ThreadsCount, StandsFor;
      ghost var s := st;
      Unwritten(s, i);
      assert StoredWrites(rows[..0]) == [];
      var k := 0;
      while k < |rows|
        invariant k <= |rows| && Valid() && i < |st.sessions| == |s.sessions|
        invariant st == Sent(s, i, StoredWrites(rows[..k]))
      {
        Send(i, Stored(rows[k].o));
        assert StoredWrites(rows[..k + 1]) == StoredWrites(rows[..k]) + [Stored(rows[k].o)];
        AppendWrite(s.sessions[i].out, StoredWrites(rows[..k]), [Stored(rows[k].o)]);
        k := k + 1;
      }
      assert rows[..|rows|] == rows;
    }

    method GetMsg(i: nat, o: Obj)
      requires Valid() && i < |blocks|
      modifies this`messages, this`freed, this`st, blocks[i]
      ensures Valid() && st == Destroyed(Fetched(old(st), i, o.pk), o.addr)
    {
      hide QueuesApart, TableStandsFor, ThreadsCount, StandsFor;
      var id := UserId(i);
      if o.pk.sender == id {
        SendRows(i, ByTime(Select(messages, id)));
        SetMessages(MarkReceived(messages, id));
      }
      DestroyPacket(o.addr);
    }

    method OwnLocation(i: nat) returns (loc: Loc)
      requires Valid() && i < |blocks|
      ensures loc == st.sessions[i].loc
    {
      hide QueuesApart, TableStandsFor, ThreadsCount;
      loc := blocks[i].loc;
    }

    // The reply is printed into the buffer and parsed again, as the source does.
    method MakeReply(i: nat, pk: Packet) returns (reply: Obj)
      requires Valid() && i < |blocks| && WellFormed(pk)
      modifies this`next, this`st
      ensures Valid() && reply == GeoReply(old(st), i, pk) && st == old(st).(next := old(st).next + 1)
    {
      hide QueuesApart, TableStandsFor, ThreadsCount, StandsFor, StringToPacket, PrintToBuffer;
      var loc := OwnLocation(i);
      var p := Packet(GEO_PACKET, pk.receiver, pk.sender, COORD_DATA, LocText(loc));
      var np := ParsePacket(PrintToBuffer(p));
      ShortSurvives(p);
      var addr := AllocatePacket();
      reply := Obj(addr, i, Packet(np.ptype.value, np.sender.value, np.receiver.value, np.tmsg.value, np.msg.value));
    }

    method GetGeo(i: nat, o: Obj)
      requires Valid() && i < |blocks| && WellFormed(o.pk)
      modifies this`freed, this`next, this`Nodes, this`st, blocks[i], Queues, Nodes
      ensures Valid() && fresh(Nodes - old(Nodes))
      ensures st == Located(old(st), i, o)
    {
      hide QueuesApart, TableStandsFor, ThreadsCount, StandsFor, BlocksStand, Apart, GeoReply;
      var pk := o.pk;
      var id := UserId(i);
      if pk.receiver == pk.sender {
        var loc := OwnLocation(i);
        Send(i, OwnGeo(pk.sender, pk.receiver, loc));
      }
      if id == pk.receiver && pk.sender != pk.receiver {
        var node := Find(pk.sender);
        if node.Some? {
          var reply := MakeReply(i, pk);
          EnqueueAt(node.value, reply);
        } else {
          Send(i, Ack(-1));
        }
      }
      if id == pk.sender && pk.sender != pk.receiver {
        var node := Find(pk.receiver);
        if node.Some? {
          EnqueueAt(node.value, o);
        } else {
          DestroyPacket(o.addr);
          Send(i, Ack(-1));
        }
      }
    }

    method SetGeo(i: nat, o: Obj, env: Env)
      requires Valid() && i < |blocks| && |Tokens(o.pk.msg, ':')| >= 2
      modifies this`freed, this`st, blocks[i]
      ensures Valid() && st == Destroyed(Moved(old(st), i, o.pk, env), o.addr)
    {
      hide QueuesApart, TableStandsFor, ThreadsCount, StandsFor;
      var words := TwoWords(o.pk.msg);
      SetGeolocationInfo(i, env.render(words.value.passwd), env.render(words.value.name));
      DestroyPacket(o.addr);
    }

    method IsUnauthenticated(i: nat) returns (r: bool)
      requires Valid() && i < |blocks|
      ensures r <==> st.sessions[i].auth == NotAuth
    {
      hide QueuesApart, TableStandsFor, ThreadsCount;
      r := blocks[i].auth == NotAuth;
    }

    /** interpret_packets: every case comes to the step of module Protocol. */
    method InterpretPackets(i: nat, o: Obj, env: Env)
      requires Valid() && i < |blocks| && WellFormed(o.pk) && Defined(st, i, o.pk)
      requires o.pk.ptype == AUTH_PACKET ==> HasRoomFor(o.pk)
      modifies this`users, this`messages, this`freed, this`next, this`Nodes, this`st
      modifies blocks[i], Queues, Nodes, table, table.addrs
      ensures Valid() && fresh(Nodes - old(Nodes))
      ensures st == Interpret(old(st), i, o, env)
    {
      hide QueuesApart, TableStandsFor, ThreadsCount, StandsFor, Interpret;
      SwitchIsInterpret(st, i, o, env);
      var t := o.pk.ptype;
      if t == REG_PACKET {
        RegisterNewUser(i, o);
      } else if t == AUTH_PACKET {
        AuthenticateUser(i, o);
      } else {
        var stranger := IsUnauthenticated(i);
        if stranger {
          DestroyPacket(o.addr);
          Cancel(i);
        } else {
          SwitchAuthenticated(i, o, env);
        }
      }
    }

    // The cases behind NOT_YET_AUTHENTICATED_EXIT.
    method SwitchAuthenticated(i: nat, o: Obj, env: Env)
      requires Valid() && i < |blocks| && WellFormed(o.pk) && Defined(st, i, o.pk)
      requires st.sessions[i].auth != NotAuth && o.pk.ptype !in {REG_PACKET, AUTH_PACKET}
      modifies this`messages, this`freed, this`next, this`Nodes, this`st
      modifies blocks[i], Queues, Nodes
      ensures Valid() && fresh(Nodes - old(Nodes))
      ensures st == Switched(old(st), i, o, env)
    {
      hide QueuesApart, TableStandsFor, ThreadsCount, StandsFor, Valid;
      var t := o.pk.ptype;
      if t == LOGOUT_PACKET || t == CLOSE_PACKET {
        var id := UserId(i);
        if id == o.pk.sender { Exit(i); }
      } else if t == GET_ALL_USERS_PACKET {
        GetAllUsers(i, o);
      } else if t == MSG_PACKET {
        HandleMsg(i, o, env.now);
      } else if t == GET_MSG_PACKET {
        GetMsg(i, o);
      } else if t == GET_GEO_PACKET {
        GetGeo(i, o);
      } else if t == SET_GEO_PACKET {
        SetGeo(i, o, env);
      } else if t == GEO_PACKET {
        Send(i, Geo(o));
      }
    }

    // ---------- connecting, the handler loop, and cleaning up ----------

    method Append(blk: ThreadBlock)
      requires Apart() && QueuesApart() && blk !in blocks && blk.tid !in Tids && blk.inQueue !in Queues
      requires blk.inQueue.Valid() && blk.inQueue.Nodes == {}
      modifies this`blocks, this`Queues, this`Tids
      ensures Apart() && QueuesApart() && blocks == old(blocks) + [blk]
      ensures Queues == old(Queues) + {blk.inQueue} && Tids == old(Tids) + {blk.tid}
    {
      hide PacketQueue.Queue.Valid;
      blocks, Queues, Tids := blocks + [blk], Queues + {blk.inQueue}, Tids + {blk.tid};
    }

    method EnterBlock(blk: ThreadBlock)
      requires Valid() && blk !in blocks && blk.tid !in Tids && blk.inQueue !in Queues && blk.tid !in threads.Spine
      requires blk.inQueue.Valid() && blk.inQueue.Nodes == {} && blk.tid.next == null && blk.tid.prev == null
      requires blk.View() == Session(true, false, -1, NotAuth, false, [], NOWHERE, 0, [])
      modifies this`blocks, this`Queues, this`Tids, this`st
      ensures Valid() && blocks == old(blocks) + [blk]
      ensures Queues == old(Queues) + {blk.inQueue} && Tids == old(Tids) + {blk.tid}
      ensures st == old(st).(sessions := old(st).sessions + [blk.View()])
    {
      hide QueuesApart, TableStandsFor, ThreadsCount, PacketQueue.Queue.Valid;
      Append(blk);
      st := st.(sessions := st.sessions + [blk.View()]);
    }

    // create_thread_node
    method AddBlock() returns (i: nat)
      requires Valid()
      modifies this`blocks, this`Queues, this`Tids, this`st
      ensures Valid() && i + 1 == |blocks| && blocks[..i] == old(blocks) && fresh(blocks[i]) && fresh(blocks[i].tid)
      ensures fresh(Queues - old(Queues)) && fresh(Tids - old(Tids))
      ensures st == old(st).(
        sessions := old(st).sessions + [Session(true, false, -1, NotAuth, false, [], NOWHERE, 0, [])])
    {
      hide QueuesApart, TableStandsFor, ThreadsCount, BlocksStand, PacketQueue.Queue.Valid;
      i := |blocks|;
      var tid := new GenericList.ListNode<nat>(Some(i));
      var blk := new ThreadBlock(tid);
      EnterBlock(blk);
    }

    method ThreadsFull() returns (full: bool)
      requires Valid()
      ensures full <==> st.listLen > st.maxConn
    {
      hide QueuesApart, TableStandsFor, StandsFor;
      full := threads.listLen > maxConn;
    }

    method AddTid(i: nat)
      requires Apart() && ThreadsCount(st.listLen) && i < |blocks|
      requires blocks[i].tid !in threads.Spine && blocks[i].tid.next == null
      modifies threads, threads.Spine, {blocks[i].tid}
      ensures Apart() && ThreadsCount(st.listLen + 1)
      ensures forall n :: n in threads.Spine <==> n in old(threads.Spine) || n == blocks[i].tid
    {
      hide GenericList.List.Valid;
      var status := threads.Append(blocks[i].tid);
    }

    method LinkTid(i: nat)
      requires Apart() && ThreadsCount(st.listLen) && i < |blocks|
      requires |st.sessions| == |blocks| && BlocksStand(st.sessions)
      requires st.sessions[i].live && !st.sessions[i].linked
      modifies threads, threads.Spine, {blocks[i].tid}, blocks[i]
      ensures Apart() && ThreadsCount(st.listLen + 1)
      ensures BlocksStand(st.sessions[i := st.sessions[i].(linked := true)])
    {
      hide ThreadsCount;
      assert StandsFor(blocks[i], st.sessions[i]);
      AddTid(i);
      blocks[i].linked := true;
    }

    // append_list_node for the session's own node
    method LinkThread(i: nat)
      requires Valid() && i < |blocks| && st.sessions[i].live && !st.sessions[i].linked
      modifies this`st, threads, threads.Spine, {blocks[i].tid}, blocks[i]
      ensures Valid()
      ensures st == WithSession(old(st), i, old(st).sessions[i].(linked := true)).(listLen := old(st).listLen + 1)
    {
      hide QueuesApart, TableStandsFor, ThreadsCount, StandsFor, BlocksStand, Apart;
      LinkTid(i);
      st := WithSession(st, i, st.sessions[i].(linked := true)).(listLen := st.listLen + 1);
    }

    /** init_connection_handler: one connection too many is refused, and its node is not
        linked. */
    method InitConnectionHandler(i: nat)
      requires Valid() && i < |blocks| && st.sessions[i].live && !st.sessions[i].linked
      modifies this`st, threads, threads.Spine, {blocks[i].tid}, blocks[i]
      ensures Valid()
      ensures st == if old(st).listLen > old(st).maxConn then Exited(old(st), i)
                    else WithSession(old(st), i, old(st).sessions[i].(linked := true)).(listLen := old(st).listLen + 1)
    {
      hide QueuesApart, TableStandsFor, ThreadsCount, StandsFor;
      var full := ThreadsFull();
      if full {
        Exit(i);
      } else {
        LinkThread(i);
      }
    }

    /** Accepting a connection is the Connect step. */
    method Accept()
      requires Valid()
      modifies this`blocks, this`Queues, this`Tids, this`st, threads, threads.Spine
      ensures Valid() && st == Step(old(st), Connect)
      ensures |blocks| == old(|blocks|) + 1 && blocks[..old(|blocks|)] == old(blocks) && fresh(blocks[old(|blocks|)])
      ensures fresh(Queues - old(Queues)) && fresh(Tids - old(Tids))
    {
      hide QueuesApart, TableStandsFor, ThreadsCount, StandsFor, BlocksStand;
      var i := AddBlock();
      InitConnectionHandler(i);
    }

    // destroy_list_node for the session's own node
    method DropTid(i: nat) returns (disposed: seq<nat>)
      requires Apart() && ThreadsCount(st.listLen) && i < |blocks|
      requires |st.sessions| == |blocks| && BlocksStand(st.sessions) && st.sessions[i].live
      modifies threads, threads.Spine
      ensures Apart() && blocks[i].tid !in threads.Spine && blocks[i].View() == old(blocks[i].View())
      ensures forall k :: 0 <= k < |blocks| && k != i ==> StandsFor(blocks[k], st.sessions[k])
      ensures ThreadsCount(if blocks[i].tid in old(threads.Spine) then st.listLen - 1 else st.listLen)
    {
      hide GenericList.List.Valid;
      ghost var at;
      disposed, at := threads.DestroyListNode(blocks[i].tid);
      forall k | 0 <= k < |blocks| && k != i ensures StandsFor(blocks[k], st.sessions[k]) {
        assert old(StandsFor(blocks[k], st.sessions[k]));
      }
    }

    method MarkFreed(i: nat, ghost x: Session)
      requires i < |blocks| && blocks[i].View() == x && x.userid != 0 && blocks[i].tid !in threads.Spine
      modifies blocks[i]
      ensures StandsFor(blocks[i], x.(live := false, linked := false))
    {
      blocks[i].live, blocks[i].linked := false, false;
    }

    method FreeTid(i: nat)
      requires Apart() && ThreadsCount(st.listLen) && i < |blocks|
      requires |st.sessions| == |blocks| && BlocksStand(st.sessions) && st.sessions[i].live
      modifies threads, threads.Spine, blocks[i]
      ensures Apart() && BlocksStand(st.sessions[i := st.sessions[i].(live := false, linked := false)])
      ensures ThreadsCount(if st.sessions[i].linked then st.listLen - 1 else st.listLen)
    {
      hide ThreadsCount;
      assert StandsFor(blocks[i], st.sessions[i]);
      var disposed := DropTid(i);
      MarkFreed(i, st.sessions[i]);
    }

    // The thread list without a block's node, as the block is freed.
    method UnlinkThread(i: nat)
      requires Valid() && i < |blocks| && st.sessions[i].live
      modifies this`st, threads, threads.Spine, blocks[i]
      ensures Valid()
      ensures st == WithSession(old(st), i, old(st).sessions[i].(live := false, linked := false)).(
        listLen := if old(st).sessions[i].linked then old(st).listLen - 1 else old(st).listLen)
    {
      hide QueuesApart, TableStandsFor, ThreadsCount, StandsFor, BlocksStand, Apart;
      FreeTid(i);
      st := WithSession(st, i, st.sessions[i].(live := false, linked := false)).(
        listLen := if st.sessions[i].linked then st.listLen - 1 else st.listLen);
    }

    // user_auth = USER_TO_EXIT
    method SetExiting(i: nat)
      requires Valid() && i < |blocks|
      modifies this`st, blocks[i]
      ensures Valid() && st == WithSession(old(st), i, old(st).sessions[i].(auth := ToExit))
    {
      hide QueuesApart, TableStandsFor, ThreadsCount;
      blocks[i].auth := ToExit;
      st := WithSession(st, i, st.sessions[i].(auth := ToExit));
    }

    method EmptyOut(i: nat) returns (destroyed: seq<Obj>)
      requires Apart() && QueuesApart() && i < |blocks|
      modifies Queues
      ensures Apart() && QueuesApart() && destroyed == old(blocks[i].inQueue.Contents)
      ensures forall k :: 0 <= k < |blocks| ==>
        blocks[k].inQueue.Contents == if k == i then [] else old(blocks[k].inQueue.Contents)
    {
      hide PacketQueue.Queue.Valid;
      destroyed := blocks[i].inQueue.Destroy();
    }

    method FreeQueue(i: nat) returns (destroyed: seq<Obj>)
      requires Apart() && QueuesApart() && i < |blocks|
      requires |st.sessions| == |blocks| && BlocksStand(st.sessions)
      modifies Queues
      ensures Apart() && QueuesApart() && destroyed == st.sessions[i].queue
      ensures BlocksStand(st.sessions[i := st.sessions[i].(queue := [])])
    {
      hide QueuesApart;
      assert StandsFor(blocks[i], st.sessions[i]);
      destroyed := EmptyOut(i);
    }

    // destroy_queue
    method DestroyQueue(i: nat)
      requires Valid() && i < |blocks|
      modifies this`st, this`freed, Queues
      ensures Valid()
      ensures st == WithSession(old(st), i, old(st).sessions[i].(queue := [])).(
        freed := old(st).freed + Addrs(old(st).sessions[i].queue))
    {
      hide QueuesApart, TableStandsFor, ThreadsCount, StandsFor, BlocksStand, Apart, Addrs;
      var destroyed := FreeQueue(i);
      freed := freed + Addrs(destroyed);
      st := WithSession(st, i, st.sessions[i].(queue := [])).(freed := freed);
    }

    /** destroy_handlers_block is the Cleanup step. */
    method DestroyHandlersBlock(i: nat)
      requires Valid() && Enabled(st, Cleanup(i))
      requires st.sessions[i].userid in st.table ==> |st.table| <= USABLE_SLOTS
      modifies this`st, this`freed, Queues, table, table.addrs, threads, threads.Spine, blocks[i]
      ensures Valid() && st == Step(old(st), Cleanup(i))
    {
      hide QueuesApart, TableStandsFor, ThreadsCount, StandsFor, BlocksStand, Apart, Step, Addrs;
      CleanupInStages(st, i);
      var id := UserId(i);
      RemoveFromTable(id);
      SetExiting(i);
      UnlinkThread(i);
      DestroyQueue(i);
    }

    /** Reading one text from the socket is the Recv step of the packet it parses to. */
    method ReadSocket(i: nat, text: string, ghost pk: Packet, env: Env)
      requires Valid() && StringToPacket(text) == Complete(pk) && Enabled(st, Recv(i, pk, env))
      requires RoomFor(st, Recv(i, pk, env))
      modifies this`users, this`messages, this`freed, this`next, this`Nodes, this`st
      modifies blocks[i], Queues, Nodes, table, table.addrs
      ensures Valid() && fresh(Nodes - old(Nodes))
      ensures st == Step(old(st), Recv(i, pk, env))
    {
      hide QueuesApart, TableStandsFor, ThreadsCount, StandsFor, BlocksStand, StringToPacket, Interpret;
      var np := ParsePacket(text);
      var addr := AllocatePacket();
      var o := Obj(addr, i, Packet(np.ptype.value, np.sender.value, np.receiver.value, np.tmsg.value, np.msg.value));
      InterpretPackets(i, o, env);
    }

    /** Looking at the queue is the Dequeue step; on an empty queue nothing happens. */
    method ReadQueue(i: nat, env: Env)
      requires Valid() && Inv(st) && Alive(st, i)
      modifies this`users, this`messages, this`freed, this`next, this`Nodes, this`st
      modifies blocks[i], Queues, Nodes, table, table.addrs
      ensures Valid() && fresh(Nodes - old(Nodes))
      ensures st == Step(old(st), Dequeue(i, env))
    {
      hide QueuesApart, TableStandsFor, ThreadsCount, StandsFor, BlocksStand, Apart, Interpret, Step;
      QueuedIsDefined(st, i, env);
      DequeueStep(st, Dequeue(i, env));
      var some := HasPacket(i);
      if some {
        PoppedIsSound(st, i);
        var o := DequeueAt(i);
        InterpretPackets(i, o, env);
        DestroyPacket(o.addr);
      }
    }

    method Finished(i: nat) returns (r: bool)
      requires Valid() && i < |blocks|
      ensures r <==> st.sessions[i].cancelled || st.sessions[i].auth == ToExit
    {
      hide QueuesApart, TableStandsFor, ThreadsCount;
      r := blocks[i].cancelled || blocks[i].auth == ToExit;
    }

    // The queue and node sets and the objects a server is made of.
    ghost function Objects(): set<object>
      reads this`blocks, this`Queues, this`Nodes, this`Tids, table
    {
      {table, table.addrs, threads} + (set b | b in blocks) + Queues + Nodes + Tids
    }

    // The four steps in a sound state; only new objects are added.

    method SafeAccept()
      requires Valid() && Inv(st)
      modifies this, Objects()
      ensures Valid() && Inv(st) && st == Step(old(st), Connect)
      ensures forall o :: o in Objects() ==> o in old(Objects()) || fresh(o)
    {
      hide QueuesApart, TableStandsFor, ThreadsCount, StandsFor, BlocksStand, Inv, Step;
      StepKeepsInv(st, Connect);
      Accept();
    }

    method SafeRead(i: nat, text: string, ghost pk: Packet, env: Env)
      requires Valid() && Inv(st) && StringToPacket(text) == Complete(pk)
      requires Enabled(st, Recv(i, pk, env)) && Legal(st, Recv(i, pk, env)) && RoomFor(st, Recv(i, pk, env))
      modifies this, Objects()
      ensures Valid() && Inv(st) && st == Step(old(st), Recv(i, pk, env))
      ensures forall o :: o in Objects() ==> o in old(Objects()) || fresh(o)
    {
      hide QueuesApart, TableStandsFor, ThreadsCount, StandsFor, BlocksStand, Apart, Inv, Step, Defined, StringToPacket;
      StepKeepsInv(st, Recv(i, pk, env));
      ReadSocket(i, text, pk, env);
    }

    method SafeLook(i: nat, env: Env)
      requires Valid() && Inv(st) && Alive(st, i)
      modifies this, Objects()
      ensures Valid() && Inv(st) && st == Step(old(st), Dequeue(i, env))
      ensures forall o :: o in Objects() ==> o in old(Objects()) || fresh(o)
    {
      hide QueuesApart, TableStandsFor, ThreadsCount, StandsFor, BlocksStand, Apart, Inv, Step;
      StepKeepsInv(st, Dequeue(i, env));
      ReadQueue(i, env);
    }

    method SafeFinish(i: nat)
      requires Valid() && Inv(st) && Alive(st, i) && RoomFor(st, Cleanup(i))
      modifies this, Objects()
      ensures Valid() && Inv(st) && st == Step(old(st), Cleanup(i))
      ensures forall o :: o in Objects() ==> o in old(Objects()) || fresh(o)
    {
      hide QueuesApart, TableStandsFor, ThreadsCount, StandsFor, BlocksStand, Inv, Step;
      UnfinishedStays(st, i);
      StepKeepsInv(st, Cleanup(i));
      var over := Finished(i);
      if over {
        DestroyHandlersBlock(i);
      }
    }

    /** One turn of a handler's loop: what arrived on the socket, if anything; then one packet
        from the queue, if there is one; then, if the session is over, its cleanup. In a legal
        state the turn is exactly these steps of module Protocol, and it keeps what every
        reachable state satisfies. */
    method Turn(i: nat, received: Option<string>, ghost pk: Packet, env: Env, env': Env)
      requires Valid() && Inv(st) && Alive(st, i)
      requires !st.sessions[i].cancelled && st.sessions[i].auth != ToExit
      requires received.Some? ==>
        && StringToPacket(received.value) == Complete(pk)
        && Enabled(st, Recv(i, pk, env)) && Legal(st, Recv(i, pk, env)) && RoomFor(st, Recv(i, pk, env))
      requires var read := if received.Some? then Step(st, Recv(i, pk, env)) else st;
               RoomFor(Step(read, Dequeue(i, env')), Cleanup(i))
      modifies this, Objects()
      ensures Valid() && Inv(st)
      ensures forall o :: o in Objects() ==> o in old(Objects()) || fresh(o)
      ensures var read := if received.Some? then Step(old(st), Recv(i, pk, env)) else old(st);
              st == Step(Step(read, Dequeue(i, env')), Cleanup(i))
    {
      hide Valid, Inv, Step, Objects, RoomFor;
      if received.Some? {
        RecvKeepsAlive(st, i, pk, env);
        SafeRead(i, received.value, pk, env);
      }
      DequeueKeepsAlive(st, i, env');
      SafeLook(i, env');
      SafeFinish(i);
    }
  }

  lemma CleanupInStages(s: State, i: nat)
    requires Enabled(s, Cleanup(i))
    ensures var a := s.(table := s.table - {s.sessions[i].userid});
            var b := WithSession(a, i, a.sessions[i].(auth := ToExit));
            var c := WithSession(b, i, b.sessions[i].(live := false, linked := false)).(
                       listLen := if b.sessions[i].linked then b.listLen - 1 else b.listLen);
            Step(s, Cleanup(i))
            == WithSession(c, i, c.sessions[i].(queue := [])).(freed := c.freed + Addrs(c.sessions[i].queue))
  {
  }

  lemma UnfinishedStays(s: State, i: nat)
    ensures !Enabled(s, Cleanup(i)) ==> Step(s, Cleanup(i)) == s
  {
  }

  lemma RecvKeepsAlive(s: State, i: nat, pk: Packet, env: Env)
    requires Alive(s, i)
    ensures Alive(Step(s, Recv(i, pk, env)), i)
  {
  }

  lemma DequeueKeepsAlive(s: State, i: nat, env: Env)
    requires Alive(s, i)
    ensures Alive(Step(s, Dequeue(i, env)), i)
  {
  }

  lemma AppendWrite(out: seq<Write>, ws: seq<Write>, more: seq<Write>)
    ensures (out + ws) + more == out + (ws + more)
  {
  }
}
