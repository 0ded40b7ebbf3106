# Verified model of the AsyncTCP/TLS transport

A callback-driven TCP and TLS transport for ESP8266 and ESP32 keeps several small stateful
protocols under its lwIP and TLS plumbing.  This project models them in Dafny and proves
what they are for, over every input, every run or every interleaving.

| file | what it models |
|---|---|
| `IntrusiveList.dfy` | the intrusive list as a heap structure; its tail is a pointer to a pointer |
| `EventQueue.dfy` | the global event queue: poll coalescing and discarding, purge, the xorshift generator |
| `Dispatcher.dfy` | whole runs of the queue: lwIP, the application and the async task in any interleaving, on both scheduling back ends |
| `Lifecycle.dfy` | one connection, accepted or outbound, from adoption to teardown, with the async task's call stack explicit |
| `ReceiveWindow.dfy` | receive-window credit with re-entrant callbacks |
| `DnsDial.dfy` | connecting by name: token identity against stale answers, with address reuse |
| `CipherBuffer.dfy` | the mbedTLS ciphertext buffer, the held pbuf chain and the receive hook |
| `RecordRing.dfy` | the BearSSL outbound record ring and its cumulative ACKs |
| `InboundStream.dfy` | the BearSSL inbound pbuf queue |
| `PbufChain.dfy` | reference counts of chained pbufs |
| `EnginePump.dfy` | `process_ssl_engine`, its scheduling, and sessions freed under it |
| `ParkDesk.dfy`, `ParkQueue.dfy` | the parked-connection queue: specification and ledger, and the slot pool that implements it |
| `Der.dfy`, `Pbkdf2.dfy`, `Pbes2.dfy` | the encrypted private key decoder |
| `Common.dfy` | byte strings and list folds |

Two forms are used.  Code that one thread runs to its end is a class or a method over heap
state or arrays, proved against a function of its inputs or of the old state, and the
properties are lemmas about that function or invariants every method keeps.  Where lwIP, the
application and the async task interleave, the same code is cut into its atomic steps: a
`Step` datatype, a function giving the next state, and theorems about every sequence of
enabled steps.

Environments are left open.  lwIP's behaviour, the TLS libraries' answers, allocation
outcomes, clocks and what a callback does are parameters, choices or steps.  HMAC and
AES-CBC are arbitrary functions; the only hypotheses are that HMAC-SHA-256 yields 32 octets,
that CBC keeps lengths and that CBC decryption inverts encryption.  Of lwIP's pbufs only the
documented contract is used: `pbuf_chain` takes a reference on the chain it appends, which
the caller still has to give up, and `pbuf_free` gives pbufs back from the head of a chain up
to the first one that is still referred to.  The ring's slot count, the pending depth, the
event queue's size, the pool's size, the parked-bytes cap, the live limit and the idle time
are parameters, as far as the widths of the code's own fields allow.

## Findings

Where the code and its comments disagree, or the code does not meet a property, the model
follows the code; a lemma gives a failing run and another the exact condition.

- onDisconnect can fire twice for an outbound connection.  If lwIP fails the connection after
  CONNECTED was queued and before it is dispatched, `tcp_error` finds no `_pcb` to clear; the
  dispatch of CONNECTED then stores the freed pcb, the ERROR behind it fires onDisconnect, and
  a later close() fires it again (`Lifecycle.LateErrorFiresTwice`).  `Lifecycle.DisconnectOnceExactly`:
  it fires at most once in every run if and only if no ERROR waits behind CONNECTED, or a FIN
  comes before the ERROR, whose close then purges it.
- A promotion whose client cannot be allocated aborts the pcb with the parked callbacks still
  on it, so lwIP's error callback drains the queue and orphans every other parked connection
  (`ParkDesk.PromoteFates`, and the run `ParkDesk.MissingClientOrphans`).  Shedding avoids this
  by clearing the callbacks first.
- A promotion whose ACCEPT packet cannot be allocated stages the buffered pbufs and then frees
  them (`ParkDesk.MissingEventDoubles`).
- A second delivery to a parked connection is appended with `pbuf_chain` and its own reference
  is never given up, so a later `pbuf_free` of the chain gives back the first delivery only
  (`ParkDesk.ChainedShedStrands`).  `ParkDesk.PlacedOnceExactly`: every buffer is freed, staged
  or still buffered, once, in exactly the runs in which no shed, drain or failed promotion
  freed two or more chained deliveries, and no promotion with buffered bytes failed at its
  ACCEPT packet.
- `feedRx` appends with `pbuf_chain` too: a chain that arrives while others are held has its
  first pbuf let go of but not given back (`CipherBuffer.SecondPbufStrands`).  The session's
  invariant: a pbuf is stranded, or will be, exactly if that ever happened, or a chain came in
  with such a reference, as one staged from two or more parked deliveries does.
- Deferred receive credit outlives a connection that fails or is aborted.  On a client that is
  dialled again, `ack` or `close` then credits bytes the new connection never received
  (`ReceiveWindow.RedialOvercredits`); conservation holds on the new connection if and only if
  nothing was deferred when it was adopted (`ReceiveWindow.AsyncClient.Reconnect`).
- The round trip of an encrypted key does not hold for every plaintext and iteration count:
  an empty plaintext decodes to "bad padding", because the padding stripper uses 0 for
  "invalid", and an iteration count of 2^31 or more needs five INTEGER octets and is
  refused.  `Pbes2.KeyRoundTrip` gives the exact result in every case.
- The DER reader rejects the tag octet 0x1f only.  Other high-tag-number octets (0x3f, 0xbf
  and so on) pass, although the comment says the form is unsupported.
- The DER reader accepts length octets that are not minimal.  `Der.EncodeInvertsTake` says
  that what it reads is the DER encoding exactly when they are minimal.
- A server session's handshake callback comes before any plaintext; a client session's need
  not (`EnginePump.ClientPlaintextMayComeFirst`).  `EnginePump.PlaintextBeforeHandshake`:
  plaintext comes first exactly when no turn so far has seen SENDAPP.
- `_serveTls` has a branch for a client built on a pcb that then has none; the constructor
  always keeps the pcb, so the branch cannot be taken and the model has no such outcome.
- `src/AsyncSecureClient.cpp:198` says the pump skips engines that are already queued; it
  does not.  The model runs it.
- The comment at `src/AsyncTCP.cpp:823` describes an abort that finds the pcb gone and a
  queued error; with lwIP in its own thread this is reachable only through the race left by
  the unlocked test at line 840.  The model contains that race.
- `connect` by name keeps its token when it fails on the spot, so the token alone does not
  say that a lookup is in flight.

## Model

| member | source | states |
|---|---|---|
| IntrusiveList.ListSize | src/AsyncTCPSimpleIntrusiveList.h:13-19 | the length of any null-terminated chain |
| IntrusiveList.DeleteList | src/AsyncTCPSimpleIntrusiveList.h:21-27 | every node of the chain is deleted, once, in order |
| IntrusiveList.SimpleIntrusiveList.PushBack | src/AsyncTCPSimpleIntrusiveList.h:43-49 | through the tail link, a node with a null next becomes the last; head, tail and size stay valid |
| IntrusiveList.SimpleIntrusiveList.PushFront | src/AsyncTCPSimpleIntrusiveList.h:51-60 | a node becomes the first; the tail link moves only if the list was empty |
| IntrusiveList.SimpleIntrusiveList.PopFront | src/AsyncTCPSimpleIntrusiveList.h:62-72 | the first node comes off, null if there is none; the tail falls back to the head field with the last node |
| IntrusiveList.SimpleIntrusiveList.Clear | src/AsyncTCPSimpleIntrusiveList.h:74-80 | deletes every node of the list, and the list is empty and valid again |
| IntrusiveList.SimpleIntrusiveList.Unlink | src/AsyncTCPSimpleIntrusiveList.h:92-101 | removing the visited node keeps the half-done pass consistent: kept nodes lead to the unvisited ones, the tail is right, the node heads the removed chain |
| IntrusiveList.SimpleIntrusiveList.Visit | src/AsyncTCPSimpleIntrusiveList.h:89-107 | one turn sorts one node into kept or removed, in order |
| IntrusiveList.SimpleIntrusiveList.RemoveIf | src/AsyncTCPSimpleIntrusiveList.h:86-111 | leaves the order-preserving filter, valid, and returns the removed nodes as an exactly reversed chain |
| IntrusiveList.SimpleIntrusiveList.ValidateTail | src/AsyncTCPSimpleIntrusiveList.h:117-126 | answers true exactly when the tail addresses the last node's next field, or the head field of an empty list |
| IntrusiveList.KeepItems | src/AsyncTCPSimpleIntrusiveList.h:86-111 | filtering nodes filters their contents in the same order |
| EventQueue.XorShiftNonZero | src/AsyncTCP.cpp:174-182 | the 32-bit generator never goes from nonzero to zero |
| EventQueue.StandardDice | src/AsyncTCP.cpp:174-182 | the code's generator and limit: never from nonzero to zero, and never below 3/4 of the queue size; the dequeue results hold for any such pair |
| EventQueue.KnownDraws | src/AsyncTCP.cpp:176-182 | the generator against known values: after 1 comes 270369, then 67634689, and the first draw from its seed 31 is 8381406 |
| EventQueue.DiscardRange | src/AsyncTCP.cpp:317-319 | the discard limit lies between 3Q/4 and 3Q/4 + (Q-1)/4 |
| EventQueue.DiscardAttained | src/AsyncTCP.cpp:317-319 | every limit of that range is given by some draw |
| EventQueue.ThrottleRange | src/AsyncTCP.cpp:535-544 | the throttle limit lies between Q/4 and Q/4 + (Q-1)/2 |
| EventQueue.ThrottleAttained | src/AsyncTCP.cpp:535-544 | every limit of that range is given by some draw |
| EventQueue.DequeueKeepsOrder | src/AsyncTCP.cpp:284-325 | what a dequeue hands out followed by what it leaves is, as far as non-POLLs go, the queue it found; empty-handed means the queue is exhausted |
| EventQueue.DequeueConserves | src/AsyncTCP.cpp:284-325 | every packet taken out is handed out or dropped, exactly once |
| EventQueue.DequeueDropsLegitimate | src/AsyncTCP.cpp:301-321 | only POLLs are dropped: merged into a POLL of the same client, or discarded with more than 3/4 of the queue size behind them |
| EventQueue.DequeueDropsAdjacent | src/AsyncTCP.cpp:301-321 | what is coalesced is the unbroken run of POLLs right behind the packet merged into, up to the first packet that is not a POLL of that client; the behind count is what follows that run |
| EventQueue.DequeueLeavesSuffix | src/AsyncTCP.cpp:284-325 | what stays is a suffix of the queue |
| EventQueue.DequeueTakesBefore | src/AsyncTCP.cpp:284-325 | what is handed out stood in the queue before everything that stays |
| EventQueue.DequeueWeighs | src/AsyncTCP.cpp:314-321 | draw by draw: every POLL discarded was above the limit of its own draw, and a POLL handed out was at or below the limit of the next |
| EventQueue.DequeueKeepsGenerator | src/AsyncTCP.cpp:174-182 | however many POLLs a dequeue weighs, the generator stays nonzero |
| EventQueue.LightLoadKeepsPolls | src/AsyncTCP.cpp:317-321 | with at most 3Q/4 packets behind it a POLL at the head is handed out, never discarded |
| EventQueue.PurgeExact | src/AsyncTCP.cpp:328-345 | after a purge nothing refers to the client, and every other packet stays, once |
| EventQueue.AsyncQueue.XorShiftNext | src/AsyncTCP.cpp:176-182 | returns and stores the next state of the generator |
| EventQueue.AsyncQueue.SendAsyncEvent | src/AsyncTCP.cpp:263-267 | appends the packet |
| EventQueue.AsyncQueue.PrependAsyncEvent | src/AsyncTCP.cpp:273-277 | inserts the packet before all others |
| EventQueue.AsyncQueue.Coalesce | src/AsyncTCP.cpp:301-306 | pops exactly the run of POLLs of the same client at the head |
| EventQueue.AsyncQueue.WeighPoll | src/AsyncTCP.cpp:301-321 | after coalescing, discards exactly above the randomised load threshold |
| EventQueue.AsyncQueue.GetAsyncEvent | src/AsyncTCP.cpp:284-325 | terminates, and computes the dequeue the lemmas speak of: packet, remaining queue, generator and drops |
| EventQueue.AsyncQueue.RemoveEventsForClient | src/AsyncTCP.cpp:328-345 | leaves exactly the other clients' packets in order and counts the ones freed |
| EventQueue.AsyncQueue.PollAdmitted | src/AsyncTCP.cpp:535-544 | admits a poll exactly up to the randomised throttle threshold, and leaves the queue alone |
| Dispatcher.InitialIsGood | src/AsyncTCP.cpp:174-186 | the initial state satisfies every invariant, so the run theorems apply from start-up |
| Dispatcher.StepKeepsLog | src/AsyncTCP.cpp:239-345 | every step accounts for every packet once and drops only what may be dropped |
| Dispatcher.ExactlyOnePlace | src/AsyncTCP.cpp:239-345 | in every run each packet ever built is in exactly one place, once: queued, dispatched, purged or dropped; non-POLLs are never dropped |
| Dispatcher.DeliveryFollowsQueueOrder | src/AsyncTCP.cpp:239-345 | over any continuation of any run, the unpurged non-POLLs queued at a moment are the ones delivered since, in queue order, followed by the ones still waiting, in queue order |
| Dispatcher.DeliveredInArrivalOrder | src/AsyncTCP.cpp:239-281 | in every run packets other than ACCEPTs are delivered, and wait, in the order they were built; the queue is its ACCEPTs, newest first, and then the others, oldest first, so an ACCEPT goes before everything that was waiting when it was built |
| Dispatcher.ShapeAt | src/AsyncTCP.cpp:263-281 | the queue shape position by position: of any two waiting packets the one ahead is a newer ACCEPT, an ACCEPT before a non-ACCEPT, or the older of two non-ACCEPTs |
| Dispatcher.StepKeepsTold | src/AsyncTCP.cpp:535-601 | every step leaves the history as the steps taken so far say: packets built, session counts, epochs and outcomes |
| Dispatcher.StepsTellAll | src/AsyncTCP.cpp:1938-2058 | in every run the packets built are exactly those its steps call for, in order, with kind, client, listener and epoch; and a judged ACCEPT was accepted if and only if no begin or end of its listener came between the step that queued it and the one that judged it |
| Dispatcher.PurgedNeverDelivered | src/AsyncTCP.cpp:328-345 | after a purge no packet of that client built before it is ever delivered |
| Dispatcher.OnlyAskedPurged | src/AsyncTCP.cpp:328-345 | in every run a packet is purged only if the run purges its client |
| Dispatcher.StepKeepsWake | src/AsyncTCP.cpp:239-281 | every step, purges and re-entrant pushes included, keeps a wake-up pending over a nonempty queue at rest |
| Dispatcher.NoLostWakeup | src/AsyncTCP.cpp:406-427 | at every rest point of every run, on both back ends, a nonempty queue can wake its consumer |
| Dispatcher.ConsumerEmpties | src/AsyncTCP.cpp:406-433 | from every rest point of every run, on both back ends, the consumer left to itself empties the queue and hands over every waiting non-POLL packet, in queue order |
| Dispatcher.PollsBounded | src/AsyncTCP.cpp:535-558 | at most Q/4 + (Q-1)/2 + 1 POLLs are queued at once, 48 for Q = 64, whatever arrives between the throttle test and the push |
| Dispatcher.ThrottleAnswers | src/AsyncTCP.cpp:535-544 | a poll is admitted whenever at most Q/4 packets wait, and never above Q/4 + (Q-1)/2 |
| Dispatcher.GeneratorNeverZero | src/AsyncTCP.cpp:174-182 | the generator is nonzero throughout every run |
| Dispatcher.StepKeepsAccepts | src/AsyncTCP.cpp:1938-2058 | every step keeps each queued ACCEPT's epoch equal to its listener's session exactly while no begin or end came after it |
| Dispatcher.NoStaleAccept | src/AsyncTCP.cpp:383-394 | in every run each dispatched ACCEPT has one outcome, in order, settled before its handler runs: accepted exactly when its listener's session had not changed since it was queued, otherwise refused; later changes, the handler's own included, do not alter it |
| Lifecycle.TeardownKeepsObligation | src/AsyncTCP.cpp:779-851 | the interlocked close and abort take over whatever obligation to fire onDisconnect the pcb or a queued ERROR carried |
| Lifecycle.OtherFramesKeepObligation | src/AsyncTCP.cpp:1348-1426 | outside teardown each call only passes its own obligation on, or discharges it |
| Lifecycle.StepKeepsObligation | src/AsyncTCP.cpp:603-625 | every step of lwIP, the application or the async task keeps exactly one obligation per connection |
| Lifecycle.StepKeepsRefs | src/AsyncTCP.cpp:1047-1068 | every step keeps the reference discipline: a handle's reference goes only after its close disposed of the pcb |
| Lifecycle.StepKeepsPbufs | src/AsyncTCP.cpp:1428-1474 | every step keeps each receive buffer queued, in a loop, freed or handed over exactly as often as it entered |
| Lifecycle.CloseLeads | src/AsyncTCP.cpp:1237-1252 | a close in progress takes the connection down, purges its packets and calls onDisconnect once; with only packets left it purges and calls; with nothing it does nothing |
| Lifecycle.AbortLeads | src/AsyncTCP.cpp:1254-1270 | an abort in progress takes the connection down, purges and calls onError and onDisconnect once; without a pcb the result depends on the build and on a queued ERROR |
| Lifecycle.DispatchLeads | src/AsyncTCP.cpp:348-403 | what the dispatch of each packet does to a live connection whose callbacks do nothing: RECV gives and frees its buffers in order, FIN and a timed-out poll close, ERROR is reported, nothing else changes |
| Lifecycle.PacketsLead | src/AsyncTCP.cpp:1443-1448 | with onPacket registered a receive loop hands every buffer over in order and frees none |
| Lifecycle.ErrorTakesOver | src/AsyncTCP.cpp:603-625 | a failure in lwIP clears the pcb, purges what was queued and leaves its ERROR alone in the queue |
| Lifecycle.AdoptedIsSound | src/AsyncTCP.cpp:1378-1392 | every adoption, accepted or by a dispatched CONNECTED with any packets behind it, meets the invariants of the run theorems |
| Lifecycle.StepKeepsObliged | src/AsyncTCP.cpp:779-851 | every step keeps exactly one obligation, or a stale pcb whose ERROR a FIN or a close in progress will purge |
| Lifecycle.DisconnectOnce | src/AsyncTCP.cpp:1348-1426 | from every adoption but the doomed one, in every interleaving onDisconnect fires at most once, and exactly once when teardown is finished, unless the client was destroyed inside its own onError |
| Lifecycle.DisconnectOnceExactly | src/AsyncTCP.cpp:1378-1426 | for any packets queued behind a dispatched CONNECTED: onDisconnect fires at most once in every run if and only if no ERROR is among them with no FIN before it |
| Lifecycle.DoomedFiresTwice | src/AsyncTCP.cpp:603-625 | with such an ERROR queued, a run whose callbacks do nothing and whose application closes the connection fires onDisconnect twice |
| Lifecycle.LateErrorFiresTwice | src/AsyncTCP.cpp:603-625 | the concrete case: one ERROR behind CONNECTED |
| Lifecycle.FinShieldsError | src/AsyncTCP.cpp:1480-1487 | a FIN before the ERROR makes it harmless, since the close it causes purges the ERROR |
| Lifecycle.NeverSeenDead | src/AsyncTCP.cpp:348-403 | from every adoption: a client reached through a queued or dispatched packet is never dead, and a dead client has no pcb |
| Lifecycle.PbufsOnce | src/AsyncTCP.cpp:204-209 | from every adoption: every receive buffer is freed once or handed to onPacket once, through dispatch, mid-chain close, destruction and purge; none leaks |
| Lifecycle.GivenInOrder | src/AsyncTCP.cpp:1428-1474 | in every run, while the connection lasts, the buffers given to the application are the first that entered, in order without a gap; the rest is in the loops and the queue, in order |
| Lifecycle.AbortWorksAnywhere | src/AsyncTCP.cpp:1254-1270 | in every reachable state with a connection, abort() takes two steps to leave no pcb, no binding and no queued packet, and four more, with callbacks that do nothing, to call onError and onDisconnect once each |
| Lifecycle.CloseWorksAnywhere | src/AsyncTCP.cpp:1237-1252 | in every reachable state with a connection, close() leaves no pcb, no binding and no queued packet in one step, and two more call onDisconnect once |
| Lifecycle.DeletionCloses | src/AsyncTCP.cpp:1063-1068 | in every such state deleting the handle closes the connection, calls onDisconnect once, and lets the reference go, which destroys the client unless a packet still refers to it |
| ReceiveWindow.AsyncClient.AckLaterAll | src/AsyncTCP.cpp:1336-1342 | every active callback context will ack later; no credit moves |
| ReceiveWindow.AsyncClient.AckDeferred | src/AsyncTCP.cpp:1317-1326 | returns and issues the smaller of the request and the deferred credit |
| ReceiveWindow.AsyncClient.PendingCredit | src/AsyncTCP.cpp:1242-1246 | the deferred credit plus that of every callback in progress |
| ReceiveWindow.AsyncClient.SettleAndDrop | src/AsyncTCP.cpp:1237-1252 | a close credits exactly the bytes delivered and what was carried in, none twice, unless lwIP took the pcb away first |
| ReceiveWindow.AsyncClient.CloseConnection | src/AsyncTCP.cpp:1237-1252 | the same, with an onDisconnect that may call anything |
| ReceiveWindow.AsyncClient.AbortConnection | src/AsyncTCP.cpp:1254-1270 | an abort issues no credit, and its nested callbacks leave the outer contexts' credit alone |
| ReceiveWindow.AsyncClient.Perform | src/AsyncTCP.cpp:1237-1342 | what each call from inside a callback does: close and abort end the connection, a close credits everything delivered, ackLater marks every context, ack issues the smaller of request and deferral, data and failure from lwIP are booked; conservation holds throughout |
| ReceiveWindow.AsyncClient.RunScript | src/AsyncTCP.cpp:1237-1342 | any sequence of calls, nested to any depth: the connection survives exactly if none of them ends it, and the credit issued is what they say, the settlement of a close included |
| ReceiveWindow.AsyncClient.SettleBuffer | src/AsyncTCP.cpp:1459-1464 | a delivered buffer's length is credited now, or deferred if asked, once |
| ReceiveWindow.AsyncClient.DataBuffer | src/AsyncTCP.cpp:1449-1464 | one buffer through onData: delivered, freed, credited or deferred as its script says, and the loop stops exactly when the connection went |
| ReceiveWindow.AsyncClient.PacketBuffer | src/AsyncTCP.cpp:1443-1448 | one buffer through onPacket: handed over, not freed, not credited here |
| ReceiveWindow.AsyncClient.HandOut | src/AsyncTCP.cpp:1435-1466 | the loop gives buffers out in order, all of them while the connection stays open, and stops with it |
| ReceiveWindow.AsyncClient.OneBuffer | src/AsyncTCP.cpp:1440-1466 | one turn of either kind does what the script of its callback says, credit and connection included |
| ReceiveWindow.FirstEndStops | src/AsyncTCP.cpp:1456-1458 | the first callback whose script ends the connection is the last to be given a buffer |
| ReceiveWindow.EndsIfAny | src/AsyncTCP.cpp:1237-1270 | a script ends the connection if and only if it contains a close, an abort or a failure, wherever it stands |
| ReceiveWindow.AsyncClient.Receive | src/AsyncTCP.cpp:1428-1474 | on any connection of the client: the buffers given, the credit issued and whether the connection stays are what the scripts of the callbacks say; while open, credited + deferred + active contexts + undelivered = received + carried in; each buffer is freed or handed once, in order; a close from inside onData leaves credited = delivered + carried in |
| ReceiveWindow.SameLensSameSum | src/AsyncTCP.cpp:1336-1342 | marking contexts moves no credit |
| ReceiveWindow.AsyncClient.Reconnect | src/AsyncTCP.cpp:1378-1392 | adoption of a client used before leaves its deferred credit; conservation holds from there if and only if there was none |
| ReceiveWindow.AsyncClient.ConservedIffNothingCarried | src/AsyncTCP.cpp:1317-1342 | in any state of an open or closed connection conservation is off by exactly what was carried into it |
| ReceiveWindow.RedialOvercredits | src/AsyncTCP.cpp:1254-1270 | the concrete case: ackLater, failure, redial, ack; ten bytes credited and none received |
| DnsDial.DnsClient.ConnectByName | src/AsyncTCP.cpp:1192-1235 | a dial supersedes every earlier one, even at a reused token address, and starts a connection attempt at once exactly if the name was cached |
| DnsDial.DnsClient.ConnectDirect | src/AsyncTCP.cpp:1126-1127 | a direct dial cancels any lookup and starts one connection attempt |
| DnsDial.DnsClient.Cancel | src/AsyncTCP.cpp:1237-1255 | close and abort cancel the latest dial, with or without a purge of its answers |
| DnsDial.DnsClient.Purge | src/AsyncTCP.cpp:603-612 | a purge takes the queued answers, and their references, with it |
| DnsDial.DnsClient.Answered | src/AsyncTCP.cpp:627-654 | an answer is queued exactly when its dial is still the current one |
| DnsDial.DnsClient.Take | src/AsyncTCP.cpp:284-291 | the reference moves with the packet into dispatch |
| DnsDial.DnsClient.Dispatch | src/AsyncTCP.cpp:395-401 | an answer leads to a connection attempt exactly when it resolved and its dial is the latest not since closed, aborted or superseded; at most once per dial, in spite of reused token addresses |
| CipherBuffer.AsyncSecureSession.constructor | src/AsyncSecureSession.cpp:2059-2063 | starts empty, with a buffer or, if malloc fails, without |
| CipherBuffer.AsyncSecureSession.Compact | src/AsyncSecureSession.cpp:2115-2123 | moves the unread bytes to the front and loses none |
| CipherBuffer.AsyncSecureSession.Grow | src/AsyncSecureSession.cpp:2131-2137 | a larger block with the same unread bytes |
| CipherBuffer.AsyncSecureSession.Append | src/AsyncSecureSession.cpp:2138-2139 | the chunk lands behind the unread bytes |
| CipherBuffer.AsyncSecureSession.FeedRxData | src/AsyncSecureSession.cpp:2110-2141 | capacity stays within the cap; an accepted chunk is appended, a refused one changes nothing a reader sees; if realloc succeeds, refused exactly when unread + len exceeds the cap |
| CipherBuffer.AsyncSecureSession.MoveHead | src/AsyncSecureSession.cpp:2163-2172 | a held pbuf moves into the buffer whole and is let go of, or stays |
| CipherBuffer.AsyncSecureSession.DetachHead | src/AsyncSecureSession.cpp:2167-2171 | the detached pbuf is given back exactly if nothing else refers to it |
| CipherBuffer.AsyncSecureSession.Enqueue | src/AsyncSecureSession.cpp:2156-2162 | fresh pbufs go behind the held ones, the first of them with one more reference |
| CipherBuffer.AsyncSecureSession.DrainHeld | src/AsyncSecureSession.cpp:2163-2173 | the loop moves a prefix of the held chain and frees those of its pbufs that nothing else refers to |
| CipherBuffer.AsyncSecureSession.FeedRx | src/AsyncSecureSession.cpp:2154-2174 | bytes read + unread + held = bytes received, in wire order; the result is the bytes moved; what stays held is a suffix that begins with a pbuf that would burst the cap; every pbuf is freed, stranded or held, once, and one is or will be stranded exactly if a chain ever arrived behind held pbufs or came in shared |
| CipherBuffer.AsyncSecureSession.FreeHeld | src/AsyncSecureSession.cpp:2068-2070 | teardown gives back the held pbufs up to the first shared one; in all, some pbuf was stranded exactly if a chain was ever shared |
| CipherBuffer.SecondPbufStrands | src/AsyncSecureSession.cpp:2156-2171 | the concrete case: a pbuf held and a second behind it; the second is not given back, drained or torn down |
| CipherBuffer.SharedChain | src/AsyncSecureSession.cpp:2156-2162 | appending shares a pbuf exactly if there was something to append to and something to append |
| CipherBuffer.AsyncSecureSession.Read | src/AsyncSecureSession.cpp:2543-2554 | a prefix of the unread bytes, as many as fit, and the rest stays unread |
| CipherBuffer.AsyncSecureSession.PullAll | src/AsyncSecureSession.cpp:2543-2554 | the reads of one TLS call together take a prefix of what is left of the stream, as long as they ask for or there is |
| CipherBuffer.LaterReads | src/AsyncSecureSession.cpp:2543-2554 | a series of TLS calls together reads as much as its reads ask for in all, as far as it is there |
| CipherBuffer.LaterShows | src/AsyncSecureClient.cpp:257-262 | and shows the application every plaintext, in order |
| CipherBuffer.SecureClientHooks.RunTls | src/AsyncSecureClient.cpp:249-259 | however the TLS library reads, it gets the next bytes of the stream, as many as it asks for or there are; the byte queue and the credit stay exact |
| CipherBuffer.SecureClientHooks.FeedAndCredit | src/AsyncSecureClient.cpp:245-248 | while the pcb lives, the credit issued is the bytes moved into the buffer |
| CipherBuffer.SecureClientHooks.Drain | src/AsyncSecureClient.cpp:257-264 | makes exactly the calls up to the first that gives no plaintext or whose plaintext makes the application close; each reads what it asks for and shows its plaintext; the result is that of the last call |
| CipherBuffer.SecureClientHooks.DrainFrom | src/AsyncSecureClient.cpp:257-262 | the loop from any turn on: the calls made, their reads and plaintexts, and why it ended |
| CipherBuffer.SecureClientHooks.FirstPass | src/AsyncSecureClient.cpp:257-268 | a negative result on a live connection is reported and closes it; the application having closed ends the hook too |
| CipherBuffer.SecureClientHooks.RunHandshake | src/AsyncSecureClient.cpp:249-256 | one handshake call: done on 0, reported and closed on a fatal result, otherwise to be retried; its callback may close the connection; its reads are the next bytes of the stream |
| CipherBuffer.SecureClientHooks.SecondPass | src/AsyncSecureClient.cpp:270-280 | what is held after it would burst the cap given what is unread; if it moved anything, the calls of another drain are made on it, and only then |
| CipherBuffer.SecureClientHooks.DeliverPlaintext | src/AsyncSecureClient.cpp:257-281 | a second pass comes exactly if the first drain ended neither in a fatal result on a live connection nor in a close by the application |
| CipherBuffer.SecureClientHooks.Handshake | src/AsyncSecureClient.cpp:245-256 | before the handshake is done: feed, credit and one handshake call, no plaintext shown |
| CipherBuffer.SecureClientHooks.Deliver | src/AsyncSecureClient.cpp:245-281 | after it: feed, credit, drain and second pass |
| CipherBuffer.SecureClientHooks.OnRecv | src/AsyncSecureClient.cpp:240-282 | without a pbuf nothing happens; before the handshake is done exactly one handshake call is made, with the stated outcome; after it the drains make exactly the stated calls, a fatal result on a live connection is reported and closes, and otherwise what is still held would burst the cap; every byte stays in order and the credit is the bytes moved |
| RecordRing.ReleaseSettles | src/AsyncSecureSession.cpp:703-714 | after a release the accumulator is below the oldest pinned length, and zero when the ring is empty |
| RecordRing.ReleaseExact | src/AsyncSecureSession.cpp:703-713 | exactly the records the accumulated bytes cover go, oldest first |
| RecordRing.SentConserves | src/AsyncSecureSession.cpp:702-714 | an ACK lowers pinned lengths minus accumulator by its length, down to zero |
| RecordRing.PinnedConserves | src/AsyncSecureSession.cpp:563-607 | a pinned record adds its length |
| RecordRing.SplitAck | src/AsyncSecureSession.cpp:690-714 | sent(a) then sent(b) gives the ring of sent(a + b) |
| RecordRing.ZeroAck | src/AsyncSecureClient.cpp:193-195 | the poll's zero-length ACK changes nothing |
| RecordRing.RunConserves | src/AsyncSecureSession.cpp:563-607 | over any run of writes and ACKs, un-ACKed ring bytes are bytes written minus bytes ACKed |
| RecordRing.RunIsFifo | src/AsyncSecureSession.cpp:703-713 | over any run the ring holds a suffix of the records written, in order |
| RecordRing.ReleasedExactlyWhenCovered | src/AsyncSecureSession.cpp:690-714 | record i of any run is released exactly when the cumulative ACKed bytes cover records 0 to i |
| RecordRing.PinLens | src/AsyncSecureSession.cpp:563-607 | filling the slot at the cursor modulo K appends one record and disturbs none |
| RecordRing.UnpinLens | src/AsyncSecureSession.cpp:704-709 | the index formula names the oldest slot; clearing it drops the first record and disturbs none |
| RecordRing.SlotRing.Pin | src/AsyncSecureSession.cpp:563-607 | the K-slot ring refines the FIFO when a record is pinned |
| RecordRing.SlotRing.ReleaseOldest | src/AsyncSecureSession.cpp:703-713 | one turn releases the oldest slot exactly when covered |
| RecordRing.SlotRing.AckBytes | src/AsyncSecureSession.cpp:702-714 | the slots refine the FIFO on any ACK; the 32-bit accumulator never wraps |
| InboundStream.RxQueue.Queue | src/AsyncSecureSession.cpp:799-806 | depth never exceeds the bound; a pbuf is queued, or that pbuf is freed when full |
| InboundStream.RxQueue.FeedPiece | src/AsyncSecureSession.cpp:464-469 | the piece fed is the next one of the stream |
| InboundStream.RxQueue.ShiftDown | src/AsyncSecureSession.cpp:474-478 | the pbufs behind the head move down one place in order |
| InboundStream.RxQueue.RetireHead | src/AsyncSecureSession.cpp:471-480 | a fully fed head is credited, that pbuf is freed, and the others shift down |
| InboundStream.RxQueue.FeedHead | src/AsyncSecureSession.cpp:460-480 | one turn feeds as much of the head as there is room for and retires it exactly when it is used up |
| InboundStream.RxQueue.Turn | src/AsyncSecureSession.cpp:460-480 | one turn takes the first of the answers the engine has yet to give and leaves the rest of the pass to come |
| InboundStream.RxQueue.Stream | src/AsyncSecureSession.cpp:437-481 | for any answers the engine gives when asked for room: the bytes fed, the pbufs used up and whether the pass stalls are what those answers allow; fed + waiting = queued in order, credited = fed minus head offset, exactly the used-up pbufs are freed, oldest first; it stops early exactly at an answer of no room |
| InboundStream.RxQueue.FreePending | src/AsyncSecureSession.cpp:416-422 | teardown frees every queued pbuf, once |
| InboundStream.FeedLaws | src/AsyncSecureSession.cpp:437-481 | what a pass feeds never exceeds the room given, it empties the queue or stalls, and it stalls only on an answer of no room or on too few answers |
| InboundStream.RoomyEngine | src/AsyncSecureSession.cpp:437-481 | with room for a whole pbuf each time, one pbuf goes a turn |
| InboundStream.PieceMoves | src/AsyncSecureSession.cpp:464-469 | cutting a piece off the head payload leaves the concatenation unchanged |
| EnginePump.StepKeepsSafe | src/AsyncSecureSession.cpp:401-411 | only the innermost run is at work, and on a live session, across every yield and callback |
| EnginePump.NeverTouchesFreed | src/AsyncSecureSession.cpp:483-676 | in every run, whatever yields and callbacks free, the pump never touches a freed session |
| EnginePump.StepKeepsLog | src/AsyncSecureSession.cpp:522-548 | every step keeps the handshake callback single, and made exactly when a turn first sees the handshake complete |
| EnginePump.HandshakeOnceAndFirst | src/AsyncSecureSession.cpp:522-548 | in every run the handshake callback fires at most once per session and, for a server, before any plaintext |
| EnginePump.PlaintextBeforeHandshake | src/AsyncSecureSession.cpp:527-548 | in every run plaintext comes after a turn that saw RECVAPP, and before the handshake callback exactly when the session is a client's and no turn so far has seen SENDAPP |
| EnginePump.ClientPlaintextMayComeFirst | src/AsyncSecureSession.cpp:527-548 | a concrete run in which a client session gets plaintext with no handshake callback before it |
| EnginePump.StepKeepsArmed | src/AsyncSecureSession.cpp:377-399 | every step keeps one scheduled run per QUEUED session and none otherwise |
| EnginePump.OneRunIffQueued | src/AsyncSecureSession.cpp:377-399 | in every run a live session has exactly one scheduled run if and only if its pump state is QUEUED |
| EnginePump.KickRemembers | src/AsyncSecureSession.cpp:377-399 | in every run a live session asked for is QUEUED with one scheduled run, or DROPPED if scheduling failed, never IDLE; other sessions are untouched |
| EnginePump.PumpRuns | src/AsyncSecureSession.cpp:424-676 | a run of the pump left alone does what the loop written out does, whatever the engine and lwIP report: the calls of each turn, an end at the first turn with nothing to do, at a closed engine or after the tenth, and then the tail |
| EnginePump.QueuedIsPumped | src/AsyncSecureSession.cpp:377-399 | in every run the scheduled run of a QUEUED session can start, and, left alone, does what the loop written out does |
| EnginePump.WaitingIsRemembered | src/AsyncSecureSession.cpp:650-663 | records still waiting past the loop leave the session QUEUED, or DROPPED if scheduling failed |
| EnginePump.BusyTurns | src/AsyncSecureSession.cpp:486-607 | while plaintext keeps coming every turn hands some over, and while only records do every turn sends one |
| EnginePump.RunsAreBounded | src/AsyncSecureSession.cpp:486-676 | every step of a run brings it nearer to its end, within 54 steps of its own, whatever happened while it was suspended |
| EnginePump.FreedRunEnds | src/AsyncSecureSession.cpp:486-488 | a run whose session was freed under it calls and changes nothing more, and is gone in two steps |
| ParkDesk.ParkKeepsBooks | src/AsyncSecureServer.cpp:475-499 | parking a new connection keeps order, fates and distinct pcbs |
| ParkDesk.TakenOut | src/AsyncSecureServer.cpp:557-580 | removing one entry with a final fate keeps every other connection's fate |
| ParkDesk.OpKeepsBooks | src/AsyncSecureServer.cpp:471-655 | every operation keeps order, one fate per connection, and distinct pcbs |
| ParkDesk.OpPlaces | src/AsyncSecureServer.cpp:557-655 | every operation frees, strands, stages or keeps each delivered pbuf exactly once, except that a promotion without an ACCEPT packet places the head's buffers twice |
| ParkDesk.OpStrands | src/AsyncSecureServer.cpp:557-655 | an operation strands buffers exactly when it frees two or more chained deliveries |
| ParkDesk.OpFates | src/AsyncSecureServer.cpp:471-655 | what every operation makes of every connection ever parked: the one it is about is handed over or gone, an error or a failed client allocation orphans the others parked, and nobody else changes |
| ParkDesk.OpAborts | src/AsyncSecureServer.cpp:509-582 | which pcb every operation resets: that of the connection it settles, unless that was handed over or lwIP has freed it |
| ParkDesk.GoneIsAborted | src/AsyncSecureServer.cpp:509-631 | a connection that goes down is reset by that operation, it alone and once, except the one lwIP had freed itself; and nothing else is reset |
| ParkDesk.PromotedInOrder | src/AsyncSecureServer.cpp:634-655 | over any run, failed serves included: promotion in parking order, and exactly one fate per connection, Parked exactly while queued |
| ParkDesk.StagedInOrder | src/AsyncSecureServer.cpp:509-523 | in every run a promotion stages what the connection had buffered, in the order it arrived, and nothing if its client could not be allocated |
| ParkDesk.PlacedOnceExactly | src/AsyncSecureServer.cpp:509-655 | over any run each pbuf is freed or staged or still buffered, once, and none stranded, if and only if no shed, drain or failed promotion freed two or more chained deliveries and no promotion with buffered bytes failed at its ACCEPT packet |
| ParkDesk.MissingEventDoubles | src/AsyncSecureServer.cpp:512-523 | the concrete case: park, receive, promote without an ACCEPT packet; the pbuf is staged and freed |
| ParkDesk.ChainedShedStrands | src/AsyncSecureServer.cpp:608-615 | the concrete case: park, receive twice, shed; the second delivery is stranded |
| ParkDesk.PromoteFates | src/AsyncSecureServer.cpp:509-533 | a promotion settles the head and nobody else, except that a failed client allocation empties the queue and orphans every other parked connection |
| ParkDesk.MissingClientOrphans | src/AsyncSecureServer.cpp:531-533 | the concrete case: park two, promote without a client; the second is an orphan and the queue empty |
| ParkDesk.FateFinal | src/AsyncSecureServer.cpp:557-655 | over any run a connection once handed over or gone never changes its fate |
| ParkDesk.CallbacksAllowed | src/AsyncSecureServer.cpp:557-622 | whatever a poll or delivery for a connection lwIP holds leads to is one of the modelled operations |
| ParkDesk.ElapsedIsTime | src/AsyncSecureServer.cpp:566-567 | on the 32-bit millisecond clock the time since an instant is what it is, across a wrap |
| ParkDesk.PolledAfter | src/AsyncSecureServer.cpp:557-582 | a connection parked and polled some time later is shed exactly if it waited longer than the idle limit, and otherwise promoted exactly if nobody waits ahead and there is budget |
| ParkDesk.CapIsKept | src/AsyncSecureServer.cpp:600-620 | a delivery joins the end of the connection's buffers exactly if they then hold no more than the cap, no other connection changes, and no buffers ever exceed the cap |
| ParkDesk.PeerCloses | src/AsyncSecureServer.cpp:584-598 | a close by the peer takes a parked connection down and resets it |
| ParkDesk.UnqueuedIsOrphan | src/AsyncSecureServer.cpp:558-565 | a pcb bound to the server but not in the queue is an orphan of an error drain |
| ParkDesk.DrainFates | src/AsyncTCPParkQueue.h:79-89 | a drain orphans every parked connection but the errored one and touches no other fate |
| ParkDesk.ErrorSettlesOne | src/AsyncSecureServer.cpp:624-631 | an error settles the connection it struck, parked or orphaned, and exactly the others still parked become orphans |
| PbufChain.Walk | src/AsyncSecureServer.cpp:571-573 | pbuf_free's walk gives back everything before the first pbuf still referred to |
| PbufChain.AppendedReleases | src/AsyncSecureServer.cpp:608-615 | freeing deliveries appended one by one gives back the first only |
| PbufChain.AppendedGrows | src/AsyncSecureServer.cpp:611-615 | appending a delivery keeps the first with one reference and every other with two |
| ParkQueue.SomeSlotFree | src/AsyncTCPParkQueue.h:27-30 | with fewer queued than pooled slots, some slot is not queued |
| ParkQueue.CursorReaches | src/AsyncTCPParkQueue.h:33-40 | N consecutive cursor positions visit every slot |
| ParkQueue.Network.PbufFree | src/AsyncSecureServer.cpp:571-573 | the pbufs given back and the ones left behind are those of the walk |
| ParkQueue.SecureServer.ParkAlloc | src/AsyncTCPParkQueue.h:31-42 | for any pool of up to 255 slots one round-robin sweep finds a free slot whenever the queue is not full |
| ParkQueue.SecureServer.Lookup | src/AsyncSecureServer.cpp:558-559 | finds the queued slot of a pcb, if any |
| ParkQueue.SecureServer.UnlinkPending | src/AsyncTCPParkQueue.h:46-59 | head, middle and tail cases all leave the list without exactly that slot |
| ParkQueue.SecureServer.UnlinkEntry | src/AsyncTCPParkQueue.h:46-59 | unlinking takes one entry out of the queue and changes no other slot's contents |
| ParkQueue.SecureServer.Release | src/AsyncSecureServer.cpp:568-570 | a queued slot goes back to the pool and reports the pcb and buffers it held |
| ParkQueue.SecureServer.ShedParked | src/AsyncSecureServer.cpp:567-576 | shedding removes one connection, frees its buffered chain as pbuf_free does, and aborts its pcb |
| ParkQueue.SecureServer.LinkTail | src/AsyncSecureServer.cpp:490-492 | a filled slot goes behind the last one |
| ParkQueue.SecureServer.FillSlot | src/AsyncSecureServer.cpp:477-493 | the pool, list and count implement parking under the next ticket |
| ParkQueue.SecureServer.AcceptTls | src/AsyncSecureServer.cpp:471-504 | serve below the live limit, park while a slot is free, else refuse and abort; the pool invariant holds |
| ParkQueue.SecureServer.PopHead | src/AsyncSecureServer.cpp:643-649 | the head leaves the queue with its pcb and buffers; nothing is decided about it yet |
| ParkQueue.SecureServer.ServePromoted | src/AsyncSecureServer.cpp:509-534 | serving stages and hands over; without a client the abort re-enters the error callback and drains the queue; without an ACCEPT packet the buffers stay staged and the pcb is aborted |
| ParkQueue.SecureServer.PromoteSlot | src/AsyncSecureServer.cpp:634-655 | promotes the oldest, with the effects of each serve outcome, or does nothing without budget or queue |
| ParkQueue.SecureServer.SPoll | src/AsyncSecureServer.cpp:557-582 | the poll reaps an orphan, sheds past the idle time (32-bit clock wrap included), promotes the head with any serve outcome, or does nothing |
| ParkQueue.SecureServer.BufferParked | src/AsyncSecureServer.cpp:608-620 | bytes are appended exactly up to the cap and dropped above it; pb_len stays the chain length within 16 bits, and every delivery but the first has a second reference |
| ParkQueue.SecureServer.SRecv | src/AsyncSecureServer.cpp:584-622 | stray, peer close and buffering each carry out their operation |
| ParkQueue.SecureServer.DropHead | src/AsyncTCPParkQueue.h:80-87 | the head slot goes back to the pool with its pcb untouched |
| ParkQueue.SecureServer.FreeHead | src/AsyncTCPParkQueue.h:79-89 | one turn of the drain frees the head's chain as pbuf_free does and leaves its pcb to lwIP |
| ParkQueue.SecureServer.SError | src/AsyncSecureServer.cpp:624-631 | an error empties the queue and settles the ledger as ErrorSettlesOne describes |
| Der.TakeInvertsEncode | src/AsyncSecureSession.cpp:1152-1177 | reading a written element returns it and leaves what followed, for short and long lengths |
| Der.EncodeInvertsTake | src/AsyncSecureSession.cpp:1152-1177 | what is read makes up the input, and is its DER encoding exactly when the length octets are minimal |
| Der.KnownLengths | src/AsyncSecureSession.cpp:1160-1166 | length octets against known ones: 127, 128 and 300, and 2048 as an INTEGER's octets |
| Der.BrsslDer.ReadLength | src/AsyncSecureSession.cpp:1160-1166 | long-form octets are big-endian and fit 32 bits |
| Der.BrsslDer.ReadHeader | src/AsyncSecureSession.cpp:1153-1167 | the tag and length octets are readable exactly as specified |
| Der.BrsslDer.TakeElement | src/AsyncSecureSession.cpp:1152-1177 | succeeds exactly on a readable element, advances past it, and stays put on failure |
| Der.BrsslDer.PeekNextTag | src/AsyncSecureSession.cpp:1179-1183 | the next tag, 0 at the end |
| Pbkdf2.BlocksPrefix | src/AsyncSecureSession.cpp:1206-1224 | a longer key extends a shorter one |
| Pbkdf2.DerivedKeyAt | src/AsyncSecureSession.cpp:1206-1224 | octet k of the key is octet k mod 32 of T of k / 32 + 1 |
| Pbkdf2.IntIsBigEndian | src/AsyncSecureSession.cpp:1207 | the block number is four octets, most significant first |
| Pbkdf2.XorByteBits | src/AsyncSecureSession.cpp:1218 | each bit of an exclusive or is the sum modulo 2 of the bits |
| Pbkdf2.BlockBits | src/AsyncSecureSession.cpp:1211-1219 | each bit of a block is the parity of that bit over U_1 to U_c |
| Pbkdf2.FirstBlock | src/AsyncSecureSession.cpp:1206-1219 | the first block after one and two iterations, written out, with block number 00 00 00 01 |
| Pbkdf2.XorInto | src/AsyncSecureSession.cpp:1218 | the in-place loop is the octet-wise exclusive or |
| Pbkdf2.Block | src/AsyncSecureSession.cpp:1206-1220 | the inner loops compute F of section 5.2 of RFC 8018 |
| Pbkdf2.Derive | src/AsyncSecureSession.cpp:1197-1226 | for every password, salt, iteration count and length: fails exactly on zero iterations, else fills the output with the first octets of T_1, T_2, ... |
| Pbes2.StripInvertsPad | src/AsyncSecureSession.cpp:1242-1250 | stripping inverts section 6.3 of RFC 5652 padding |
| Pbes2.PadInvertsStrip | src/AsyncSecureSession.cpp:1242-1250 | a nonzero answer is given exactly to the padding of a nonempty text |
| Pbes2.StripPkcs7 | src/AsyncSecureSession.cpp:1242-1250 | the loop decides whether the last octets all name their count |
| Pbes2.ExpectElement | src/AsyncSecureSession.cpp:1356-1359 | one expected element, or the stated error |
| Pbes2.TakePrf | src/AsyncSecureSession.cpp:1412-1433 | the optional key length is skipped, the PRF must be hmacWithSHA256 |
| Pbes2.TakeKdfParams | src/AsyncSecureSession.cpp:1399-1433 | salt, unsigned count of one to four octets, key length, PRF |
| Pbes2.TakeKdf | src/AsyncSecureSession.cpp:1385-1438 | PBKDF2 with its parameters present |
| Pbes2.TakeCipher | src/AsyncSecureSession.cpp:1445-1468 | aes-256-cbc with a 16-octet IV |
| Pbes2.TakeEnvelope | src/AsyncSecureSession.cpp:1352-1475 | the walk over cursors computes the decoder's envelope, with the same error on every branch |
| Pbes2.DecryptKey | src/AsyncSecureSession.cpp:1337-1502 | the whole imperative decoder computes Decode, errors included |
| Pbes2.KnownOids | src/AsyncSecureSession.cpp:1190-1193 | the four identifiers denote id-PBES2, id-PBKDF2, id-hmacWithSHA256 and id-aes256-CBC by their registered arcs |
| Pbes2.KnownEnvelope | src/AsyncSecureSession.cpp:1352-1475 | one whole EncryptedPrivateKeyInfo as it goes over the wire, tags and lengths written out |
| Pbes2.OtherPrfRefused | src/AsyncSecureSession.cpp:1412-1433 | any PRF but hmacWithSHA256 is refused, and so is one left out |
| Pbes2.OtherSchemesRefused | src/AsyncSecureSession.cpp:1366-1452 | any other scheme, derivation function or cipher is refused as such |
| Pbes2.IntegerRoundTrip | src/AsyncSecureSession.cpp:1406-1411 | a DER INTEGER reads back, and takes at most four octets exactly below 2^31 |
| Pbes2.EnvelopeRoundTrip | src/AsyncSecureSession.cpp:1352-1475 | a written EncryptedPrivateKeyInfo reads back, except that counts of 2^31 or more are refused |
| Pbes2.OpenWrittenOut | src/AsyncSecureSession.cpp:1477-1501 | opening after one iteration, written out: one PRF output under the password over salt and block number, decryption under it and the IV, and the padding stripped |
| Pbes2.OpenInvertsSeal | src/AsyncSecureSession.cpp:1477-1501 | derive, decrypt and strip invert pad, derive and encrypt, except for the empty text |
| Pbes2.KeyRoundTrip | src/AsyncSecureSession.cpp:1337-1502 | decoding an encoded key returns the plaintext if and only if it is not empty and the count is below 2^31, and reports the exact error otherwise |

## Left out

Parts of the repository outside the model:

- lwIP, FreeRTOS, BearSSL, mbedTLS, HMAC and AES themselves: environments or arbitrary functions.
- The bytes inside pinned ring slots: slot 0 overlays the engine's output buffer, so only slot accounting is proved.
- The largest-record measurement, stall and idle clocks, close_notify and the final flush of a TLS close.
- Certificates, credentials, PEM decoding, heap floors, logging, address getters and the facade's forwarding.
- The bound on live TLS serves: admission reads the session count before the queued accept builds its session, so the code does not keep it.
- Several secure servers at once: the slot pool is shared by all of them, the model has one.
- `abort_queued_items` in the park queue header, which nothing calls; the ESP8266 server's own parking.
- Admission when TLS is not configured, which serves every connection at once.

What the models assume or do not say:

- Lifecycle.DisconnectOnce: starts at adoption (what happens to a client closed or deleted while its dial is in progress is outside), with an onDisconnect registered, no redial and no name lookup afterwards; the ERROR packet's allocation is assumed to succeed, and application calls run on the async task, as the callback-context chain is not safe across threads.
- Lifecycle.NeverSeenDead: is about the client object's own reference count; reads of a client's fields after a handler deleted the last handle outside any dispatch (the tail of `_close` after onDisconnect) are not modelled.
- Lifecycle.PbufsOnce: covers buffers whose packet was allocated and which take the plain path.
- Dispatcher.NoStaleAccept: session epochs are unbounded numbers, so they do not wrap; the client object a refused packet carries is not modelled further than its refusal.
- Dispatcher.NoLostWakeup: schedule_function and task notification are assumed to accept; the notification timeout is not needed. Scheduled runs do not nest.
- ReceiveWindow.AsyncClient.Receive: a client is adopted again with no callback in progress; credit for buffers given to onPacket belongs to their owner (ackPacket) and is not tracked; destruction inside a callback is the subject of Lifecycle.
- DnsDial.DnsClient.Dispatch: what the connection attempt itself does is not modelled.
- CipherBuffer.AsyncSecureSession.FeedRx: without a buffer (its malloc failed) the code accepts and drops all ciphertext, and the contract says so; the byte-queue property is for a session with a buffer.
- CipherBuffer.SecureClientHooks.OnRecv: the TLS library is a list of BIO reads and results: zero for done, negative for fatal, positive for plaintext or retry.
- Lifecycle.AbortWorksAnywhere: the callbacks it counts do nothing themselves, as in CloseWorksAnywhere, DeletionCloses and DispatchLeads; for callbacks that do anything, DisconnectOnce and the other run theorems speak.
- EnginePump.PumpRuns: is about a run during which no yield or callback frees or kicks the session; for the others there are RunsAreBounded, FreedRunEnds and the run theorems. Whether a record was deferred and how full the ring is are answers of the environment here (RecordRing has the ring).
- EnginePump.NeverTouchesFreed: session identities are not reused, and callbacks reach the pump only through the modelled entry points.
- ParkQueue.SecureServer.AcceptTls: a serve whose ACCEPT packet cannot be allocated also leaves its client object behind and queues an ERROR for it, which is not modelled; a served client is its own connection from then on.
- Pbes2.DecryptKey: null arguments are not modelled, and a password is its octets up to the terminating zero.
- The interleaved machines (Dispatcher, Lifecycle, EnginePump) are values rather than objects, because several threads of control change them in turn; aliasing inside a single call is covered where the same code is modelled as a class (EventQueue, ReceiveWindow, InboundStream, RecordRing).
