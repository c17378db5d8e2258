# Verified model of the iCOM chat server

The server keeps one handler thread per client. A handler reads packets from its socket,
routes messages and location requests to the queues of other handlers through a shared
address table, and hands the packets in its own queue to its client. Messages for users who are
offline go to a database. This project models that engine down to its heap structures and proves
what it promises over every interleaving of its handlers.

| file | what it models |
|---|---|
| `Wire.dfy` | the packet texts: printer, `strtok_r`/`atoi` parser, the 200-byte buffer |
| `AddrTable.dfy`, `PacketQueue.dfy`, `GenericList.dfy`, `IteratorRing.dfy` | the array and linked structures, as classes |
| `Protocol.dfy` | the engine as a state machine; what a packet does is given effect by effect |
| `PacketSwitch.dfy` | the packet switch case by case, and that it comes to the same |
| `ConnectHandler.dfy` | the handlers as a class on the real table, queues and thread list, proved to take exactly the steps of `Protocol.dfy` |
| `Texts.dfy`, `Requests.dfy` | every text that is sent, written out; what each request comes to, from the text read to the texts written |
| `RoutingSafety.dfy` | the invariant of every run: queues, table, ownership, thread list |
| `MessageFlow.dfy`, `Conservation.dfy`, `Draining.dfy` | order, conservation and draining of traffic |
| `Runs.dfy` | runs taken apart, and the runs in which n clients log in |
| `Capacity.dfy` | how full the address table gets |
| `Service.dfy` | the real structures from the constructor on, over any sequence of inputs |
| `Agreement.dfy`, `Reauthentication.dfy`, `Login.dfy` | when table and sessions agree, and exactly when they stop; logging in |
| `Leaving.dfy`, `Locations.dfy` | how sessions end; where sessions are and what others are told |
| `Directory.dfy`, `Listing.dfy` | keeping a client's list of users in step, on rows and on the texts |
| `Mailbox.dfy`, `Senders.dfy`, `ClientTexts.dfy` | offline delivery, whose text it is that a client is sent, what clients can parse |
| `Tallies.dfy` | filters over sequences and sums over sessions |

A state holds the sessions, the address table, the `users` and `messages` tables and the packet
objects destroyed so far. A run is any sequence of events: a client connects, a session handles a
packet from its socket, a session handles a packet from its queue, a finished session is cleaned
up. Any session may step next; an event that is not enabled changes nothing. `LegalRun` restricts
runs in one way: AUTH is handled only on sessions that have not authenticated.
Module `Reauthentication` shows why: it gives the exact conditions under which a second AUTH breaks
the table and the addressing of queues, and runs in which a client does it.

Assumptions of the model:

- Handling one packet is one atomic step. connect_handler.c:162 unlocks where a lock is plainly
  meant, and connect_handler.c:365-370 uses a session after releasing the table's lock.
- `pthread_cancel(pthread_self())` ends the handling of that packet at once. Cancellation is
  deferred in the code (connect_handler.c:629), so the model lets a session with cancellation
  pending still handle queued packets, but not read its socket, until it is cleaned up.
- Allocation and queries succeed, one `recv` yields one packet text, and AUTO_INCREMENT hands out
  1, 2, 3, ... Strings hold no NUL and compare exactly.
- The clock and the text that printing a parsed coordinate gives are inputs of a step (`Env`).
- Where the C program has no defined behaviour an event is not enabled (`Defined`): a negative
  count in GET_ALL_USERS (connect_handler.c:321-328 uses a row that was not found), SET_GEO without
  two words, credentials longer than their buffers, a text with fewer than five tokens.
- A block's `tid` is set before its handler starts. server.c:282-298 sets it only after `pthread_create`, so
  a handler that runs first would append NULL, stay out of the thread list and could still log in;
  `LinksSound` and the bound on the table do not hold of such a handler.
- The id that connect_handler.c:145-150 copies from the database for `atoi` is read as if it were
  terminated; the code does not terminate it, and the buffer is not initialised.
- The number of threads allowed is a parameter, since `MAX_CONN` depends on the platform:
  server.h:46-50 makes it `SOMAXCONN` where that is defined (128 or 4096 on common systems) and 100
  otherwise.

The address table has 100 slots and the code never looks whether there is room. Whether there is
depends on `MAX_CONN` alone. An entry belongs to a session in the thread list, so there are at most
`MAX_CONN + 1` entries, and there can be so many. Removal reads `addrs[len + 1]`, so 98 entries are
the most the code can handle. `SlotsSuffice` proves that every run stays within them, and
`EveryStepHasRoom` that every step of every run finds the room it needs, if and only if
`MAX_CONN <= 97`. The program as configured does not meet that: neither 100 nor the usual values of
`SOMAXCONN` do. The methods that touch the table ask for room only where they use it (`RoomFor`);
`Serve` works for any `MAX_CONN` over every sequence of inputs whose steps have room.

Where code and intention differ, the code is followed. A request for the location of a session
whose requester has left is logged with a destructor, but the logger calls destructors only when it
exits the thread (error_logs/errno_logs.c:155-162), so that branch does not destroy the packet.
`generic_list_insert_next_to` calls the destructor on the data it has just inserted. A refused
duplicate login takes the other session's table entry away. `list_popback` corrupts the list when
the only node's `prev` is stale.

## Model

| member | source | states |
|---|---|---|
| Wire.RoundTrip | data_structs/packets.c:107-156 | parsing the printed text gives the packet back exactly when its message is nonempty, has no bar and has at most 179 characters |
| Wire.ReparseIsStable | data_structs/packets.c:107-156 | whatever complete text a packet was parsed from, printing and parsing it again changes nothing |
| Wire.RelayKeepsHeader | connect_handler.c:350-359 | a relayed packet keeps all header fields and exactly the first 194 minus header-digits characters of its message; it survives whole if and only if fields and message total at most 194 |
| Wire.ParsePacket | data_structs/packets.c:117-156 | the five `strtok_r` calls yield the five fields of the token sequence, each left unset when its token is missing |
| Wire.StrtokR | data_structs/packets.c:126-153 | one tokenizer call yields the next token and a cursor from which the remaining tokens are the rest |
| Wire.AtoiDecimal | data_structs/packets.c:126-148 | `atoi` inverts `%d` on every int |
| Wire.ParsedIsPlain | data_structs/packets.c:150-153 | a text with five tokens always parses to a message that is nonempty, without a bar and at most 179 long |
| Wire.FieldsOfWords | data_structs/packets.c:117-156 | a text of any number of words sets exactly the fields it has words for, each from its own word, the message cut at 179 |
| Wire.MessageIsFirstWord | data_structs/packets.c:150-153 | a printed packet with any message parses to its header and the first bar-free word of the message, its first 179 characters |
| Wire.LongMessagesAreCut | data_structs/packets.c:150-153 | a message without a bar comes back whole up to 179 characters and as its first 179 beyond |
| Wire.AtoiReads | data_structs/packets.c:126-148 | `atoi` skips leading space, takes one sign and reads the digits up to whatever follows; without digits it gives 0 |
| Texts.AckText | connect_handler.c:190-191 | an acknowledgement is the line `40, id, -1, -1, ACK` |
| Texts.FinText | connect_handler.c:193-201 | a refusal is the line `42, -1, -1, -1, FIN` |
| Texts.UsersDoneText | connect_handler.c:331-341 | the end of the user list is the line `42, id, id, 0, 0` |
| Texts.UserRowText | connect_handler.c:322-330 | a user row is the line `11, id, id, 10, row:name` |
| Texts.OwnGeoText | connect_handler.c:470-478 | the own location is the line `20, id, id, 10, lattitude:longitude` |
| Texts.RelayedTexts | connect_handler.c:350-359 | messages and relayed locations are the first 199 characters of the packet's own line, with type 30, or type 20 and kind 10 |
| Requests.Arrive | connect_handler.c:28-47 | a connection too many is over at once and its cleanup leaves nothing behind; any other is counted and open |
| Requests.CleanUp | connect_handler.c:600-612 | a cleaned-up session does nothing any more; its id leaves the table, its queue is destroyed from the front, its node leaves the list, nothing else changes |
| Requests.Register | connect_handler.c:212-247 | a text of type 9 with name and password enters new credentials as the last row and is acknowledged, known ones get the refusal |
| Requests.LogIn | connect_handler.c:172-208 | a text of type 10 with the credentials of row k + 1 makes the session that user's, or is refused and over when the user is online |
| Requests.LogInNobody | connect_handler.c:192-207 | a text of type 10 with unknown or no credentials is refused and the session over, its id unchanged |
| Requests.StrangerIsEnded | connect_handler.c:249-256 | any text but types 9 and 10 from a session not logged in destroys the packet and cancels the session, nothing else |
| Requests.Leave | connect_handler.c:272-282 | texts of types 13 and 43 end the session exactly when they name its own user; otherwise nothing happens |
| Requests.AskForUsers | connect_handler.c:283-345 | a text of type 12 is answered with the row after the first `count`, or with the end of the list |
| Requests.SendMessage | connect_handler.c:346-399 | a text of type 30 is written back, queued at the session the table names, or stored with the time |
| Requests.FetchMessages | connect_handler.c:400-466 | a text of type 32 that names the own user sends the pending rows by time and marks them; any other only destroys the packet |
| Requests.SetLocation | connect_handler.c:568-581 | a text of type 22 makes the first word the lattitude and the second the longitude |
| Requests.AskOwnLocation | connect_handler.c:470-478 | a text of type 21 from and to one id is answered with the session's own location |
| Requests.AskLocation | connect_handler.c:546-565 | a text of type 21 by the sender's session is queued at the receiver's, or destroyed and acknowledged when the receiver is offline |
| Requests.AnswerRequest | connect_handler.c:481-545 | the session asked queues its own location at the asker's session, or acknowledges to its own client when the asker has left |
| Requests.EchoLocation | connect_handler.c:582-592 | a text of type 20 is written to the session's own client |
| Requests.OtherTexts | connect_handler.c:593-597 | texts of any other type do nothing |
| Requests.TakeFromQueue | connect_handler.c:660-674 | a session takes only types 20, 21 and 30 from its queue, writes 20 and 30 to its client, answers 21, and destroys the packet |
| AddressTable.AddrTable.BinarySearch | data_structs/addr_table.c:32-45 | terminates in bounds and finds the slot holding the key exactly when the map has it, though it may probe the zero slot past the end; key 0 is answered by that slot only when the table is empty |
| AddressTable.AddrTable.Insert | data_structs/addr_table.c:47-60 | the entry goes behind all ids that are not larger, whatever the id; the table stays in order and the map gains the pair exactly when the id is at least 1 and new |
| AddressTable.AddrTable.Get | data_structs/addr_table.c:62-66 | for every int, the map's value or NULL |
| AddressTable.AddrTable.Remove | data_structs/addr_table.c:68-82 | for every int the id leaves the map and its value is returned, NULL if there is none; the one call that breaks the table is id 0 on the empty table, whose length becomes -1 |
| AddressTable.InsertedMap | data_structs/addr_table.c:50-57 | putting an entry into a gap adds one pair to the map the entries stand for |
| AddressTable.RemovedMap | data_structs/addr_table.c:76-80 | closing the gap takes exactly one pair away |
| AddressTable.ToMapSize | data_structs/addr_table.c:30 | the table's length is the number of ids in the map |
| PacketQueue.Queue.Enqueue | libs/queue.c:43-58 | the contents grow by the packet at the end |
| PacketQueue.Queue.Dequeue | libs/queue.c:60-76 | the oldest packet leaves, or NULL from an empty queue |
| PacketQueue.Queue.Destroy | libs/queue.c:78-90 | every queued packet is destroyed exactly once, in order |
| GenericList.List.Append | libs/generic_linked_list.c:73-89 | the node becomes the last, `list_len` counts it; -1 and no change for NULL |
| GenericList.List.PushBack | libs/generic_linked_list.c:132-162 | a new node with the data becomes the last |
| GenericList.List.PushFront | libs/generic_linked_list.c:165-196 | a new node with the data becomes the first |
| GenericList.List.PopFront | libs/generic_linked_list.c:198-217 | the first node leaves, its data is returned |
| GenericList.List.PopBack | libs/generic_linked_list.c:219-237 | the last node leaves unless the only node has a stale `prev`; in that case the length is 0 while `head` still names the freed node |
| GenericList.StaleHeadArises | libs/generic_linked_list.c:250-253 | destroying the head of two nodes leaves such a stale `prev` |
| GenericList.List.InsertNextTo | libs/generic_linked_list.c:96-126 | the data goes right behind the given node, or in front, and the destructor is called on it |
| GenericList.List.DestroyListNode | libs/generic_linked_list.c:242-270 | a linked node is taken out at its place; a node never linked is told apart and leaves list and length unchanged |
| GenericList.List.Destroy | libs/generic_linked_list.c:38-52 | the destructor meets all data once, in list order |
| IteratorRing.Ring.Link | libs/iterator.c:49-63 | the node joins the cycle behind the last; the first one linked becomes the cursor's |
| IteratorRing.Ring.Predecessor | libs/iterator.c:79-80 | the walk to the predecessor ends within one lap, at the predecessor |
| IteratorRing.Ring.Remove | libs/iterator.c:65-90 | NULL for NULL; otherwise the node leaves the cycle; the cursor stays on it exactly when it was elsewhere |
| IteratorRing.Ring.MoveForward | libs/iterator.c:92-99 | the cursor moves to the next node of the cycle |
| IteratorRing.Ring.Lap | libs/iterator.c:92-99 | `list_len` forward moves from anywhere visit the rotated cycle and come back |
| IteratorRing.LapMeetsEachOnce | libs/iterator.c:92-99 | such a lap meets every node exactly once |
| PacketSwitch.SwitchIsInterpret | connect_handler.c:258-597 | working through the packet switch statement by statement has exactly the effects the state machine states |
| ConnectHandler.Server.InterpretPackets | connect_handler.c:258-597 | handling a packet on the real structures is the state machine's handling, for every packet |
| ConnectHandler.Server.RegisterNewUser | connect_handler.c:212-247 | the packet is destroyed, new credentials become a row and are acknowledged, anything else gets FIN |
| ConnectHandler.Server.Authenticator | connect_handler.c:95-169 | true exactly for a registered user who is not online; the id is set even when the login is refused |
| ConnectHandler.Server.AuthenticateUser | connect_handler.c:172-208 | the outcome of an AUTH packet on block, table and socket |
| ConnectHandler.Server.HandleMsg | connect_handler.c:346-399 | the message is written to its receiver, put in the receiver's queue, or stored |
| ConnectHandler.Server.GetMsg | connect_handler.c:400-466 | pending rows are sent in time order and marked |
| ConnectHandler.Server.GetGeo | connect_handler.c:467-567 | own location, reply to the requester's queue, or request to the responder's queue |
| ConnectHandler.Server.MakeReply | connect_handler.c:489-500 | the reply printed into the buffer and parsed again is the reply meant |
| ConnectHandler.Server.GetAllUsers | connect_handler.c:283-345 | the next row, or FIN |
| ConnectHandler.Server.SetGeo | connect_handler.c:568-581 | first word is the lattitude, second the longitude |
| ConnectHandler.Server.InitConnectionHandler | connect_handler.c:28-47 | a session too many is refused and not linked, any other is linked |
| ConnectHandler.Server.Accept | data_structs/thread_info_block.c:29-125 | a new connection is the Connect step |
| ConnectHandler.Server.DestroyHandlersBlock | connect_handler.c:600-612 | cleaning up is the Cleanup step: table entry, thread node and queue go |
| ConnectHandler.Server.UnlinkThread | data_structs/thread_info_block.c:127-136 | the block's node leaves the thread list if it was linked, and only then the length falls |
| ConnectHandler.Server.ReadSocket | connect_handler.c:639-658 | a text read is the Recv step of the packet it parses to |
| ConnectHandler.Server.ReadQueue | connect_handler.c:660-674 | looking at the queue is the Dequeue step, and in a sound state it is always defined |
| ConnectHandler.Server.Turn | connect_handler.c:635-682 | one turn of the loop takes exactly these steps, and keeps the invariant of all runs |
| Service.Serve | connect_handler.c:614-682 | from the constructor on, any sequence of connections, reads, looks at queues, cleanups and whole turns takes the real structures through a legal run of the state machine, whatever `MAX_CONN` is, as long as each step finds room in the table |
| Service.SmallServersCanServe | server.h:46-50 | with `MAX_CONN` at most 97 no sequence of inputs ever lacks room |
| Service.EveryRunIsServed | connect_handler.c:614-682 | every legal run in which nothing is asked of sessions that are gone is what some sequence of texts, looks and cleanups does to the real server |
| Service.NextInput | connect_handler.c:635-682 | each further input of a possible sequence continues the run legally by exactly the steps the input stands for |
| Capacity.TableFitsList | data_structs/addr_table.c:47-60 | in every sound state the table has no more entries than the thread list has nodes |
| Capacity.TableFits | data_structs/addr_table.c:47-60 | a table with room for a given number of entries is never overfilled by any run if and only if it has room for `MAX_CONN + 1` |
| Capacity.SlotsSuffice | server.h:46-50 | the 98 entries the code can handle are never exceeded if and only if `MAX_CONN` is at most 97 |
| Capacity.EveryStepHasRoom | data_structs/addr_table.c:47-82 | every login and every cleanup of every run finds the slots it uses if and only if `MAX_CONN` is at most 97 |
| Runs.CrowdIsOnline | connect_handler.c:28-47 | `MAX_CONN + 1` clients, and any number below, can connect, register and log in one after the other |
| RoutingSafety.ReachableIsSound | connect_handler.c:258-612 | in every run: queued packets are addressed to the queue's user and are MSG, GEO, or GET_GEO from someone else; table entries name live sessions with that id; objects have one place; the thread list has at most MAX_CONN + 1 nodes and holds every session that has an entry or may get one |
| RoutingSafety.StepKeepsInv | connect_handler.c:258-674 | each event keeps that invariant |
| RoutingSafety.StepOwned | connect_handler.c:361-370 | a step adds to the held objects only those it has just allocated; dequeuing and cleaning up only move them |
| RoutingSafety.OwnershipMeans | libs/queue.c:78-90 | no object at two positions of the queues, none destroyed while queued, none destroyed twice |
| RoutingSafety.QueuedIsNotPlaced | connect_handler.c:670-674 | the handler of a dequeued packet neither forwards, stores nor destroys it, and never ends the session |
| RoutingSafety.DequeuedIsGone | connect_handler.c:660-674 | a dequeued packet is destroyed and in no queue afterwards |
| RoutingSafety.QueuedIsDefined | connect_handler.c:660-674 | a live session can handle its next packet exactly when its queue is not empty |
| MessageFlow.QueueEvolves | connect_handler.c:346-396 | the queue of any session changes at its ends only, by arrivals, departures and discards |
| MessageFlow.FirstInFirstOut | libs/queue.c:43-76 | over every run, what was enqueued is what was handled, then what was discarded, then what waits; nothing is discarded while the session lives |
| MessageFlow.RelayedInOrder | connect_handler.c:660-674 | what a client gets from others is a prefix of what was enqueued for it, in the order the server read it |
| MessageFlow.OutEvolves | connect_handler.c:23-26 | a socket is written only by its own session's handler |
| Conservation.MessagesAreConserved | connect_handler.c:361-395 | each accepted message is in exactly one place: written, queued, stored, or discarded with a queue; nothing else is in any of them |
| Conservation.OnePlace | connect_handler.c:349-396 | handling a message puts it in exactly one of the three places |
| Conservation.RequestsAreAccounted | connect_handler.c:481-565 | the accounts of location requests balance at a step if and only if no client makes its session answer a request nobody sent |
| Conservation.RepliesToNobody | connect_handler.c:481-508 | a legal run after which a client makes its session answer a request nobody sent |
| Conservation.BalancedThroughout | connect_handler.c:481-565 | the accounts of location requests balance at every point of a run if and only if every request in it is honest about its sender |
| Conservation.RequestsAreSettled | connect_handler.c:481-565 | for each ordered pair: requests accepted = replies enqueued + requests dropped + requests waiting |
| Draining.DequeueWeight | connect_handler.c:481-508 | each dequeue takes one unit of queued weight away, two if the requester has left |
| Draining.QuietRunsAreBounded | connect_handler.c:660-674 | without new input no interleaving handles more packets than the queues weigh |
| Draining.QueuesDrain | connect_handler.c:660-674 | from every sound state dequeuing alone empties all queues in at most as many steps as they weigh; then each client has been written exactly the messages that waited for it, in order, and nothing was stored; queues are empty exactly when nobody can dequeue |
| Draining.MessagesAreDelivered | connect_handler.c:349-370 | after such a run the messages written are those written before and those that were queued |
| Agreement.ReachableUnlessEvicted | connect_handler.c:600-612 | authenticated sessions stay reachable under their id, except exactly at a cleanup that evicts one |
| Agreement.DuplicateLoginEvicts | connect_handler.c:150-156 | a refused duplicate login, when cleaned up, removes the entry of the session that is online |
| Agreement.LoggedInButUnreachable | connect_handler.c:150-156 | a legal run of six events after which user 1 is logged in and not in the table |
| Agreement.StepKeepsAgreement | connect_handler.c:145-168 | a legal step keeps every live session with an id listed under it if and only if the step is not a duplicate login |
| Agreement.TableAgrees | connect_handler.c:145-168 | if nobody logs in as an online user, an entry points to a session if and only if the session is live and has that id |
| Agreement.AgreesThroughout | connect_handler.c:145-168 | the sessions are listed at every point of a run if and only if the run has no duplicate login |
| Reauthentication.ReauthenticationBreaksTable | connect_handler.c:150-164 | an AUTH packet keeps the table sound if and only if it does not rebind a session that has an entry |
| Reauthentication.ReauthenticationMisroutes | connect_handler.c:150-164 | an AUTH packet keeps the queued packets addressed to their session if and only if the session keeps its id or its queue is empty |
| Reauthentication.DequeueKeepsOwnership | connect_handler.c:660-674 | a dequeue keeps packet objects in one place if and only if the handler neither forwards nor destroys the packet, since the loop destroys it in any case |
| Reauthentication.ForwardedIsFreed | connect_handler.c:361-370 | a packet that is forwarded when dequeued waits in a queue after it was destroyed |
| Reauthentication.RebindingFreesWhatWaits | connect_handler.c:150-164 | the message a session has waiting when it authenticates as someone else is put back in its queue and destroyed |
| Reauthentication.TableBreaks | connect_handler.c:150-164 | a legal run, and an AUTH packet the server accepts after it, that break the table |
| Reauthentication.WaitingMessageIsFreed | connect_handler.c:660-674 | a legal run, and an AUTH packet after it, after which a waiting message is queued again and destroyed |
| Leaving.StaysUntilItLeaves | connect_handler.c:272-282 | at every point of every run a logged-in session stays logged in under its id, and cannot be cleaned up, except exactly at a step in which it reads LOGOUT or CLOSE in its own name |
| Locations.LocationIsLastSet | data_structs/thread_info_block.c:152-155 | over every run a session's location is the one it set last, -1 and -1 before; no other event moves it |
| Locations.SetThenAsked | connect_handler.c:467-581 | a session sets `a:b`, anything happens but its setting another, and its client asks and is sent `a:b` as printed, lattitude first |
| Locations.ReplyCarriesLocation | connect_handler.c:484-508 | every location an event queues splits at ':' into the two coordinates of the session asked, at that moment |
| Locations.AnsweredWithLocation | connect_handler.c:484-508 | over every run, each location a client is sent from another session parses to what that session had set last when it was asked |
| Senders.ClientsGetWhatWasSent | connect_handler.c:346-450 | over every run, each message a client is sent, at once, relayed or from the database, parses to what an earlier text of a client parsed to, cut only at the end of the buffer |
| Senders.RowsCarryTheirTime | connect_handler.c:371-391 | every stored message was read while its receiver was not online and carries the time of that |
| Login.LoginOutcome | connect_handler.c:172-208 | ACK with the id and a table entry for a registered user who is not online; FIN, no entry and the end of the session otherwise |
| Login.RegisteredCanLogIn | connect_handler.c:50-92 | credentials sent to be registered at any earlier point of a run log in their one user exactly while that user is offline, and get FIN exactly while the user is online |
| Login.RegistrationOutcome | connect_handler.c:225-236 | ACK and a new row exactly for credentials no row has |
| Login.StrangersChangeNothing | connect_handler.c:249-256 | any other packet from an unauthenticated session ends it and changes nothing else |
| Login.OthersAreUntouched | connect_handler.c:366-370 | one session touches another only by appending at most one packet to its queue |
| Directory.ExchangeExtendsByOne | connect_handler.c:283-345 | one exchange extends the client's prefix by the next row, and answers FIN exactly when the list is complete |
| Directory.ListIsPrefix | data_structs/thread_info_block.c:172-195 | over any run the list of a client that asks with its own count is a prefix of the table, even if users register meanwhile |
| Directory.ListCatchesUp | data_structs/thread_info_block.c:172-195 | while nobody registers, the list is the table's first rows, one more for each exchange until it has them all |
| Directory.WholeListThenFin | connect_handler.c:283-345 | the list is whole, and the next answer FIN, if and only if there were at least as many exchanges as rows were missing |
| Directory.RowIsFound | connect_handler.c:290-328 | a GET_ALL_USERS packet is defined if and only if the row it needs, when it needs one, is in the table, and that row is the answer |
| Listing.ListIsRead | connect_handler.c:322-330 | the rows a client reads off its texts are the rows it was meant to get |
| Listing.ListReadIsPrefix | data_structs/thread_info_block.c:172-195 | a client that asks with the length of the list it has read off its texts has read a prefix of the table, numbers and names |
| Directory.UsersAreDistinct | connect_handler.c:70-89 | no two rows have the same credentials, so a lookup finds the one that has them |
| Mailbox.FetchSendsBatch | connect_handler.c:404-450 | a fetch sends exactly the pending rows of the user, ordered by time, and leaves none pending |
| Mailbox.StoredMessagesAreSentOnce | connect_handler.c:434-450 | over any run a stored message has been sent by GET_MSG once if received, never if pending, and nothing else was sent that way |
| Mailbox.FetchedExactlyOnce | connect_handler.c:400-466 | after a fetch every message stored for that user has been sent exactly once |
| Mailbox.ByTimeIsOrdered | connect_handler.c:404-407 | a batch is in nondecreasing time_sent |
| ClientTexts.ClientsCanParse | connect_handler.c:324-329 | every text a client is sent parses to the packet meant, whole if the server made it, with the message cut to fit if it was relayed |
| ClientTexts.MessagesReachTheirReceiver | connect_handler.c:349-359 | messages, relayed or stored, are written only to a session of the user they are addressed to |

## Left out

- AddressTable.AddrTable.Insert: does not cover a full array or a negative id, where the code writes outside the array or an id no row has.
- AddressTable.AddrTable.BinarySearch: does not cover a full array, where the code may read the slot behind it.
- AddressTable.AddrTable.Get: the same.
- AddressTable.AddrTable.Remove: does not cover a present id in a table of 99 entries, where the code reads `addrs[100]`.
- ConnectHandler.Server.Authenticator: asks that the table has at most 98 entries when the login is accepted, because a 99th may be entered but a 100th leaves no zero slot for the next search.
- ConnectHandler.Server.AuthenticateUser: the same, and that name and password fit their buffers, beyond which the code leaves them unterminated.
- ConnectHandler.Server.RegisterNewUser: asks that name and password fit their buffers, for the same reason.
- ConnectHandler.Server.InterpretPackets: asks for what its cases ask, and nothing else.
- ConnectHandler.Server.GetAllUsers: does not cover a negative count, for which the code uses a row it did not find (connect_handler.c:321-328).
- ConnectHandler.Server.SetGeo: does not cover a message with fewer than two words, for which the code parses NULL.
- ConnectHandler.Server.ReadSocket: does not cover a text with fewer than five tokens, whose missing fields the code leaves uninitialised.
- ConnectHandler.Server.Turn: the same, and it asks for room in the table where its login or its cleanup uses it.
- Service.Serve: asks for room in the table at each step and for complete texts, because without them the code has no defined behaviour; that the room is there in every run exactly up to `MAX_CONN = 97` is proved.
- ConnectHandler.Server.DestroyHandlersBlock: asks for at most 98 entries when the session has one, as removal does.
- GenericList.List.InsertNextTo: does not cover insertion behind the last node, where the code follows a NULL pointer.
- Absence of leaks: several socket branches never destroy their packet, so only destruction at most once is stated.
- MySQL connections, SQL text, quoting, collation and query failures; the tables are sequences.
- Sockets, TCP framing, the accept loop's error paths, signals and the shutdown in server.c, which frees thread nodes that handlers still reference.
- Data races: each packet is handled atomically, mutexes are not modelled.
- Floating point: how a coordinate is parsed and printed is a parameter; a printed one has at most 47 characters, none of them a bar or a colon.
- `atoi` outside the range of int; user ids too long for the 10-byte buffer of connect_handler.c:145, and what `atoi` reads behind an id in that buffer, which is not terminated.
- `username`, `number_of_users` and `start_time`, which are only written; `move_backward`, since `prev` is never linked in the iterator.
- The order MySQL gives rows with equal time_sent: the model keeps the order in which they were stored.
- Logging, the GUI, and `data_structs/recyclable_fields_array.c`, which is not built.
