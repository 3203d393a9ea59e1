# A verified model of the RDMA router

The router lets the processes of a host share RDMA queue pairs. A client library
(`libscale`) forwards Verbs calls over a socket; the router keeps one physical queue
pair per pair of hosts, counts the virtual queue pairs that use it, translates client
addresses into its own mappings of shared memory, and tells the routers of other hosts
which physical queue pair to connect to. This project states what that machinery
promises and proves it.

`dafny verify dfyconfig.toml` checks everything.

## How the model is built

| file | module | content |
|---|---|---|
| `types.dfy` | `Types` | gids, host keys, integer casts |
| `sections.dfy` | `Sections` | what each critical section does to the router's data |
| `scale_router.dfy` | `Router` | the router as an object: one method a critical section, proved against `Sections`, and the handlers composed of them, with the contract of a whole request |
| `machine.dfy` | `Machine` | one router as a transition system: any number of handler threads, explicit mutexes, one step a critical section |
| `references.dfy`, `leaks.dfy`, `lost.dfy` | `References`, `Leaks`, `Lost` | reference counts, no connection leaks, references that are lost |
| `safety.dfy`, `locks.dfy` | `Safety`, `Locks` | use after release, lock discipline and deadlock |
| `completions.dfy`, `receives.dfy`, `transparency.dfy` | `Completions`, `Receives`, `Transparency` | conservation of completions, whose receives they answer, the private queue pair a client sees |
| `registration.dfy`, `posting.dfy` | `Registration`, `Posting` | lkeys and offsets, the addresses posted requests reach the device with |
| `scenarios.dfy`, `premise.dfy`, `stuck.dfy`, `stale.dfy`, `misnamed.dfy` | `Scenarios`, `Premise`, `Stuck`, `Stale`, `Misnamed` | inputs, action by action: overlapping requests on one handle, a post that overlaps a deregistration, a destruction that names another host |
| `requests.dfy`, `alone.dfy`, `answers.dfy`, `life.dfy` | `Requests`, `Alone`, `Answers`, `Life` | whole requests: what one does when it is served alone, what its answer means in every interleaving, a whole session |
| `frames.dfy`, `guards.dfy` | `Frames`, `Guards` | which data a request can touch, and that its sections touch only what their mutexes protect |
| `world.dfy` | `World` | any number of routers and the messages between them |
| `setup.dfy` | `Setup` | the states a queue pair goes through |
| `deliveries.dfy`, `announce.dfy`, `handshake.dfy`, `agreement.dfy`, `teardown.dfy` | `Deliveries`, `Announce`, `Handshake`, `Agreement`, `Teardown` | what a router holds for its peers, where peer numbers come from and when both ends agree |
| `measure.dfy`, `liveness.dfy`, `buildup.dfy` | `Measure`, `Liveness`, `BuildUp` | a decreasing measure, no mutual waiting, and that building up connections completes |
| `handles.dfy` | `HandleTable` | handles made by libscale and its table from completion queues to queue pairs |
| `memory.dfy` | `Memory` | what registration does to the address spaces |
| `names.dfy`, `wire.dfy`, `hashing.dfy` | `Names`, `Wire`, `Hashing` | segment names, the text form of gids, hashed lookup |

The handlers of a router run concurrently, each request as several critical sections
with gaps between them. `Machine` takes one step per critical section and lets any
thread take the next one, so every interleaving is a run; `Guards` shows that a section
reads and writes only what its mutex protects. A step that would follow a
pointer to freed memory ends in the state `Fault`; a branch that leaves a section
without unlocking ends with the mutex still owned. Both are shown not to happen as long as no two
requests overlap on one handle.
Numbers have the widths of the program: `ref_cnt` wraps at 2^32, addresses at 2^64,
the counters of libscale at 2^16, lengths are cast to a 32-bit int.

## Premises

They are stated in the lemmas that need them.

- Creating and destroying device resources succeeds, and so does closing and unmapping a segment.
  Posting, polling, changing the state of a queue pair, mapping memory and sending a message may
  each fail.
- A client has at most one request outstanding per queue pair handle (`Safety.Polite`)
  and passes back unchanged what it was given. Reference counting does not need this.
- Fewer than 2^32 references to one host pair exist at a time (`References.Fits`).
- `phy_qp_num = old_conn->qp->qp_num` (scalerouter/scalerouter.cpp:1676) is read without
  a lock; the step is possible once the creator has set `qp`.
- The number sent with a DELETE (scalerouter/scalerouter.cpp:2229) is the one the
  destroyed queue pair had. Receivers ignore it.
- A virtual queue pair number is the address of the router whose gid the request names.
- `Machine` keeps host_map as a finite map. `Hashing.LookupRefinesMap` shows that the hash table is
  one as long as the destination gid of every host key has a zero byte.
- `HandleTable.ShortcutAgrees` asks that a process does not list the devices after it has made the
  queue pair; libscale clears its table at every such call.
- `Teardown.TeardownAgreement` asks that the IBV_MODIFY_QP and IBV_DESTROY_QP requests of one router
  toward one host do not overlap, that an IBV_DESTROY_QP names this host exactly if its handle is
  connected to it, that their messages are sent, and that these arrive in order.
- `BuildUp.BuildUpCompletes` asks that the device has refused no transition of the connections of
  the handlers it speaks of and that the counts of their routers have room.
- The device does not issue an lkey or a queue pair number that is in use, and the kernel
  does not map a segment where the router has something mapped.

## What the proofs found

- A handle that is modified again while it is mapped loses the reference of the earlier mapping,
  and its connection is never released: `Lost.NeverReleased`, `Lost.LeftOverIff`, `Lost.LeftOver`.
- A post that overlaps the deregistration of its region and a registration that is given the same
  lkey reaches the device with an address of the old region: `Posting.PostsTranslated`, `Stale.StaleSend`.
- The router tells the host an IBV_DESTROY_QP names that the connection is gone, not the host the
  connection was to (scalerouter/scalerouter.cpp:2229); `libscale` overwrites the name before the
  request it belongs to has succeeded (libscale/verbs.c:375). The peer then keeps a number that
  belongs to nothing: `Misnamed.PeerNotTold`.
- A queue pair whose transition to RTS is refused once stays in RTR for good, since the next attempt
  begins with INIT: no later IBV_MODIFY_QP makes it ready (`Setup.RefusedForGood`).
- After a second `ibv_get_device_list` polls go to the process's first queue pair:
  `HandleTable.ShortcutAgreesIff`, `HandleTable.ListedTwice`.
- A queue pair number of 2^24 or more does not fit the `%06x` field of the address
  message, and virtual queue pair numbers are IPv4 addresses: `Wire.VirtualQpnFits`.
- A host key whose destination gid has no zero byte is hashed together with the memory
  behind it: `Hashing.HashOfKeyIff`, `Hashing.LookupMisses`, `Hashing.MissesIff`.
- Registration clears the rest of the last page of the buffer: `Memory.MemoryPreserved`.
- A length of 2^31 or more is refused (`Memory.Host.RegMr`) or shared only in part:
  `Memory.WholeSharedIff`, `Memory.PartlyShared`.
- A second queue pair on one completion queue leaves the client's table wrong although
  the router refuses the request: `HandleTable.SecondQpDisagrees`.
- Requests that overlap on one handle can use a freed connection (`Premise.OverlapFaults`), and an
  IBV_DESTROY_QP that overlaps an IBV_MODIFY_QP can leave host_map locked for good
  (`Stuck.OverlapLocks`, `Stuck.StuckForGood`).

## Model

| member | source | states |
|---|---|---|
| References.ReferenceCounting | scalerouter/scalerouter.cpp:1625-1691 | In every interleaving of any requests: a key is in host_map exactly while something refers to it, its value is a live connection allocated for that key and never NULL, and ref_cnt is the number of handles mapped to the key plus handlers between the two sections of IBV_MODIFY_QP and of IBV_DESTROY_QP plus references lost by modifying a handle again |
| References.CountExactIffFits | scalerouter/scalerouter.h:97-97 | Joining a connection leaves the 32-bit count exact if and only if the new number of references is below 2^32 |
| References.StepKeeps | scalerouter/scalerouter.cpp:2189-2216 | Every step of every handler, of the device and of the message handlers keeps the counting invariant and the pointers handlers rely on |
| Leaks.NoConnectionLeaks | scalerouter/scalerouter.cpp:1625-1677 | In every run a live connection is in host_map under its own key or exactly one handler has it to itself and will publish or free it, and never both |
| Lost.NeverReleased | scalerouter/scalerouter.cpp:1678-1691 | Once an IBV_MODIFY_QP has mapped a handle that was mapped to a key, the key stays in host_map and its connection alive for good |
| Lost.LeftOverIff | scalerouter/scalerouter.cpp:2195-2202 | When no handle is mapped to a key and no handler is between its sections, the key is still in host_map if and only if some IBV_MODIFY_QP mapped a handle that was mapped to it |
| Lost.LeftOver | scalerouter/scalerouter.cpp:1681-1690 | A run: one handle, two IBV_MODIFY_QP and one IBV_DESTROY_QP, one after the other and all successful, leave the key in host_map with a reference nobody has |
| Safety.NoUseAfterRelease | scalerouter/scalerouter.cpp:1733-1777 | With one outstanding request per handle: every pointer a handler holds is to a live connection; second lookups of IBV_MODIFY_QP and lookups of posts and polls find their key; the connection they lock is still the one of their handle; a connection about to be freed is out of host_map and no other handler points to it |
| Safety.RunIsSafe | scalerouter/scalerouter.cpp:2045-2092 | In every such run no handler follows a dangling pointer or leaves a section locked, and every mutex belongs to a handler inside its section or to the one that allocated the connection |
| Safety.AllMoveSafely | scalerouter/scalerouter.cpp:1736-1757 | The branches that leave the host_map section without unlocking are never taken |
| Guards.WritesGuarded | scalerouter/scalerouter.h:112-155 | In every run a handler writes a map only while it holds the map's mutex, a connection's queue pair and status only while it holds the connection's, and counts references only under the mutex of host_map |
| Guards.ReadsGuarded | scalerouter/scalerouter.h:112-155 | What a handler does depends on a map only if it holds the map's mutex |
| Premise.OverlapFaults | scalerouter/scalerouter.cpp:2217-2234 | The premise is needed: wherever no mutex is held and a handle is the only reference to its key, a poll and an IBV_DESTROY_QP started together on it can bring the poll to lock a freed connection |
| Stuck.LeavesLocked | scalerouter/scalerouter.cpp:1733-1757 | The second lookup of an IBV_MODIFY_QP ends the handler with the mutex of host_map held if and only if it does not find its connection |
| Stuck.StuckForGood | scalerouter/scalerouter.cpp:1733-1757 | Once that has happened no handler ever gets into a section of host_map again, in every later run |
| Stuck.OverlapLocks | scalerouter/scalerouter.cpp:1750-1755 | A run from a new router that ends so: an IBV_MODIFY_QP waits for its peer, its handle is destroyed with success, the peer's number arrives |
| Locks.LockDiscipline | scalerouter/scalerouter.cpp:1625-1677 | A thread waiting for a map mutex holds nothing but the mutex of a connection it has not published, a thread waiting for a connection holds nothing, and a finished handler holds nothing |
| Locks.NoWaitingCycle | scalerouter/scalerouter.cpp:2189-2234 | Whoever holds a mutex another thread waits for waits for nothing itself, so the wait-for graph has no cycle |
| Locks.NoDeadlock | scalerouter/scalerouter.cpp:1608-1801 | While a handler is unfinished some handler can take its mutex or run |
| Completions.CompletionConservation | scalerouter/scalerouter.cpp:2086-2125 | For every live physical queue pair in every run: accepted requests are, as multisets, those outstanding, waiting in the completion queue, delivered and discarded; a delivered completion has status SUCCESS, carries the poller's pid as wr_id and answers an accepted request |
| Completions.PollAnswers | scalerouter/scalerouter.cpp:2086-2125 | What a client learns from a poll: a count of 1 comes with the completion that was the oldest of the queue at the step that gave the answer, was taken out and recorded as delivered, has status SUCCESS and answers an accepted request that carries the client's pid; any other answer took none, and a count of 0 was given on an empty queue |
| Answers.PostAnswers | scalerouter/scalerouter.cpp:1811-1910 | In every run a post is answered with its pid exactly if the device took its request, which was then the last accepted on the handler's connection; one that is not answered had an unknown lkey or handle, was a receive under another pid, or was refused by the device, and changed nothing |
| Answers.PollUnanswered | scalerouter/scalerouter.cpp:2045-2118 | A poll that is not answered had an unknown handle, or its completion had failed or carried another wr_id and was discarded |
| Answers.ModifyAnswers | scalerouter/scalerouter.cpp:1694-1800 | In every run the answer of an IBV_MODIFY_QP says whether its connection is ready at that step; it is not answered only if the peer could not be told or the connection was gone |
| Answers.DestroyAnswers | scalerouter/scalerouter.cpp:2160-2240 | In every run an IBV_DESTROY_QP is answered with success if and only if its handle was mapped when it looked |
| Answers.RegUnanswered | scalerouter/scalerouter.cpp:1490-1512 | A registration is not answered if and only if its length as an int is not positive or the segment or region could not be made; then nothing has changed |
| Answers.DeregAnswers | scalerouter/scalerouter.cpp:2252-2290 | In every run an IBV_DEREG_MR is answered with success if and only if its lkey had an offset when it looked |
| Alone.PostAlone | scalerouter/scalerouter.cpp:1811-2013 | From every state in which no mutex is held a send or receive goes through its sections to its end: taken exactly if lkey and handle are known, a receive carries the pid and the device takes it, and then the last of its queue at the address moved by the lkey's offset; otherwise nothing changes |
| Alone.PollAlone | scalerouter/scalerouter.cpp:2015-2128 | A poll served alone takes out the oldest completion and delivers it, or discards it and gives no answer |
| Alone.ModifyAlone | scalerouter/scalerouter.cpp:1608-1801 | An IBV_MODIFY_QP served alone maps its handle, adds one reference, and gives the connection exactly the state its accepted transitions lead to; it waits exactly if the peer's number is not known |
| Alone.DestroyAlone | scalerouter/scalerouter.cpp:2160-2240 | An IBV_DESTROY_QP served alone unmaps its handle and gives its reference back, freeing the connection with the last one; refused exactly if the handle is not mapped |
| Alone.RegAlone | scalerouter/scalerouter.cpp:1490-1530 | An IBV_REG_MR served alone stores the region and the 64-bit difference of its addresses, or nothing |
| Alone.DeregAlone | scalerouter/scalerouter.cpp:2250-2290 | An IBV_DEREG_MR served alone removes the lkey's offset and region, or is refused |
| Life.WholeSession | scalerouter/scalerouter.cpp:1811-2128 | A run from a new router: connect, register, post a receive and a send, both completed, polled and delivered in order at the router's address, deregister, destroy, all answered with success; nothing is left connected or registered |
| Receives.AcceptedPosted | scalerouter/scalerouter.cpp:1948-1955 | In every run each request the device has accepted on a connection was handed to it by a handler of a post on that connection, with the client's wr_id; a receive carries the pid of the process that posted it (that receives under their own pid are accepted: `Answers.PostAnswers`, `Alone.PostAlone`) |
| Receives.DeliveredToPoster | scalerouter/scalerouter.cpp:2086-2125 | In every run the completion of a receive is delivered to the process that posted the receive |
| Transparency.TransparentSession | scalerouter/scalerouter.cpp:1811-1910 | While a handle is alone on its host pair, posts its pid as wr_id and completions succeed, what its owner posts and polls through the router is a trace of a private FIFO queue pair, every posted address translated by the offset of the region its handler found registered under the lkey |
| Transparency.OnlyAddressChanges | scalerouter/scalerouter.cpp:1840-1852 | The device's request is the client's with the address translated and nothing else changed, exactly when the length has 32 bits and fields the kind of request does not use are zero |
| Transparency.RemoteKept | scalerouter/scalerouter.cpp:1845-1851 | Requests of every opcode but the plain send keep their remote address and key, a plain send has none |
| Registration.TranslateExact | scalerouter/scalerouter.cpp:1823-1831 | The wrapped 64-bit sum of client address, offset within the region and stored difference is the router's address of the same byte |
| Registration.LkeyTable | scalerouter/scalerouter.cpp:1513-1524 | In every interleaving of registrations and deregistrations a stored lkey is live in the device and has its own region's offset, and the branch for an lkey that exists already is never taken |
| Registration.RegistrationStored | scalerouter/scalerouter.cpp:1500-1524 | From its last section on an answered registration is stored: the lkey and the address of the answer are those of a live region with the range the client asked for and its offset, until and only until a deregistration of the lkey is served |
| Registration.SameEntryIff | scalerouter/scalerouter.cpp:2253-2266 | An entry of lkey_offset_map is still the one of an earlier state if and only if no deregistration of its lkey has been served in between, also when the lkey is in use again |
| Posting.OffsetLookedUp | scalerouter/scalerouter.cpp:1823-1839 | The offset the handler of a post carries was the one stored for its lkey at the step at which it looked |
| Posting.PostsTranslated | scalerouter/scalerouter.cpp:1823-1907 | The request of every post the device takes (exactly those answered with success: `Answers.PostAnswers`) has, for every byte of the region registered under its lkey when the handler looked, the router's address of that byte; that region is the one registered now if and only if no deregistration of the lkey has been served since |
| Stale.StalePost | scalerouter/scalerouter.cpp:2253-2275 | The other case: from every state with a ready connection and a registered region, a send that overlaps the deregistration of its region and a registration that is given the lkey can reach the device with an address of the old region outside the new one |
| Stale.StaleSend | scalerouter/scalerouter.cpp:1823-1907 | A run of a new router that ends so: the accepted send has the address of the region that is gone, and is answered with success |
| Registration.RegionsNeverMeet | scalerouter/scalerouter.cpp:2253-2278 | Bytes of different live regions never translate to the same address, equal client addresses of different processes included |
| World.HistoryOk | scalerouter/scalerouter.cpp:566-602 | Reference counting and safety hold at every router in every run of all routers |
| Deliveries.MessageLands | scalerouter/scalerouter.cpp:581-602 | In any state an INSERT leaves its number for the sender, replacing one that is there, a DELETE leaves none, and other peers are untouched |
| Deliveries.HoldsLastDelivered | scalerouter/scalerouter.cpp:566-602 | In every run, with teardown and with messages lost and reordered: a router holds a number for a peer if and only if the last message delivered from it was an INSERT, and it is that message's number |
| Announce.MessageIff | scalerouter/scalerouter.cpp:1694-1700 | A step sends an INSERT exactly if an IBV_MODIFY_QP goes on to wait for the peer, which gives up otherwise, and a DELETE exactly if an IBV_DESTROY_QP frees its connection and sending works; it carries the number of the queue pair that is gone |
| Announce.AnnouncedLive | scalerouter/scalerouter.cpp:1658-1700 | In every run with one request per handle, teardown and reconnection included, the number an INSERT announces is that of the queue pair its host pair has at that moment |
| Setup.AttemptReaches | scalerouter/scalerouter.cpp:367-395 | An attempt takes a queue pair that is not past INIT as far as the device accepts and never back: a refused INIT leaves RESET, a refused RTR leaves INIT without a peer's number, a refused RTS leaves RTR with it |
| Setup.SetUpInOrder | scalerouter/scalerouter.cpp:1758-1777 | In every run a queue pair is in RTS if and only if its status is 4, and has a peer's number if and only if it has come to RTR |
| Setup.AcceptedConnected | scalerouter/scalerouter.cpp:1893-1907 | Every send the device accepts is on a ready queue pair that has a peer's number, every receive on one that has left RESET |
| Setup.RefusedForGood | scalerouter/scalerouter.cpp:367-395 | A queue pair whose RTS was refused stays in RTR while its connection lives, and every IBV_MODIFY_QP that comes to its section answers not ready |
| Handshake.Provenance | scalerouter/scalerouter.cpp:1694-1726 | In every run, with teardown and messages in any order: a peer number programmed into a queue pair is that of a queue pair the peer's router created toward this host and announced in an INSERT |
| Agreement.PeerNumbersAgree | scalerouter/scalerouter.cpp:580-588 | Without teardown and for any order of delivery: the number a router holds for a peer is that of the peer's live queue pair toward it |
| Agreement.ReadyPairsAgree | scalerouter/scalerouter.cpp:1758-1777 | When both ends of a host pair are ready, both queue pairs are in RTS and each is programmed with the other's own number |
| Agreement.ReadyAnswers | scalerouter/scalerouter.cpp:1759-1777 | Without teardown: an IBV_MODIFY_QP that has answered that its queue pair is ready has told the truth and it stays true, the queue pair is in RTS and connected to the peer's live queue pair toward this host |
| Teardown.TeardownAgreement | scalerouter/scalerouter.cpp:583-602 | With one router's requests toward one host served one at a time, naming it exactly if they are about it, their messages sent and arriving in order: once none of them is under way, the host's router holds a number for it exactly if it has a connection to that host |
| Misnamed.PeerNotTold | scalerouter/scalerouter.cpp:2229-2229 | A run: a handle is connected to a host and destroyed by a request that names another one, both with success; the router has no connection left, and the host was sent an INSERT and no DELETE |
| Measure.MeasureDecreases | scalerouter/scalerouter.cpp:1704-1720 | The steps left to all handlers plus the messages in flight never grow unless a handler starts, and shrink with every event but fruitless looks at dst_qp_map and completions of the device |
| Measure.WorkBounded | scalerouter/scalerouter.cpp:1694-1720 | While no handler starts, the number of such events is bounded by the measure |
| Liveness.NoMutualWaiting | scalerouter/scalerouter.cpp:1694-1720 | When handlers of both directions of a pair wait and none of its messages is in flight, both find the number they wait for and it is that of the other's queue pair |
| Liveness.HistoryCalm | scalerouter/scalerouter.cpp:604-655 | A handler that waits or is past waiting has announced its number: the INSERT is in flight or the peer has it |
| BuildUp.Progress | scalerouter/scalerouter.cpp:1704-1720 | While one of the handlers is unfinished the routers can take events that shrink the measure |
| BuildUp.BuildUpCompletes | scalerouter/scalerouter.cpp:1608-1801 | For any set of handlers, if for each unfinished IBV_MODIFY_QP among them one of them asks for the other direction, the device has refused no transition of their connections and the counts of their routers have room: the run can go on until all of them have ended, whatever other handlers wait for, every such IBV_MODIFY_QP has answered that its queue pair is ready, and it is in RTS and connected to the peer's; where both directions were asked for, both are, to each other |
| BuildUp.PairCompletes | scalerouter/scalerouter.cpp:1694-1777 | For one host pair alone: if both directions were asked for, its connections are healthy and the two routers' counts have room, the run can go on until both handlers have answered ready and the two queue pairs are in RTS and connected to each other |
| Router.ScaleRouter.constructor | scalerouter/scalerouter.h:174-202 | A new router has empty maps and no connections, and its counts are right |
| Router.ScaleRouter.BindCq | scalerouter/scalerouter.cpp:1572-1587 | The first queue pair of a completion queue is stored, a second one refused without a change |
| Router.ScaleRouter.UnbindCq | scalerouter/scalerouter.cpp:2138-2153 | The entry of the completion queue is removed, the others stay; reports whether there was one |
| Router.ScaleRouter.PreAllocate | scalerouter/scalerouter.cpp:1625-1628 | A new connection starts with one reference |
| Router.ScaleRouter.JoinOrPublish | scalerouter/scalerouter.cpp:1630-1656 | Under the host_map mutex the handler joins the shared connection of the key or publishes its own |
| Router.ScaleRouter.CreateOrDiscard | scalerouter/scalerouter.cpp:1658-1677 | The publisher creates the queue pair, any other handler frees its connection and reads the shared one's number |
| Router.ScaleRouter.MapQp | scalerouter/scalerouter.cpp:1678-1691 | The handle is mapped to the key; a mapping that is overwritten loses its reference |
| Router.ScaleRouter.ModifyQpToReady | scalerouter/scalerouter.cpp:367-395 | INIT, RTR and RTS in turn, stopping at the first transition the device refuses and leaving the queue pair where `Setup.AttemptReaches` says; ready exactly if the status is 4 |
| Router.ScaleRouter.PostToQp | scalerouter/scalerouter.cpp:1893-1907 | A request is queued exactly if the device accepts it in the state the queue pair is in |
| Router.ScaleRouter.PollQp | scalerouter/scalerouter.cpp:2086-2125 | Takes at most the oldest completion and answers with it unless its status or wr_id is wrong |
| Router.ScaleRouter.UnmapQp | scalerouter/scalerouter.cpp:2172-2185 | The handle's mapping is removed and returned |
| Router.ScaleRouter.ReleaseConn | scalerouter/scalerouter.cpp:2189-2216 | One reference is given back; the key is erased exactly when the 32-bit count reaches zero |
| Router.ScaleRouter.DestroyConn | scalerouter/scalerouter.cpp:2217-2234 | The connection is freed and a DELETE goes to the peer |
| Router.ScaleRouter.HandleRemoteRouter | scalerouter/scalerouter.cpp:580-602 | INSERT stores the sender's number in place of any other, DELETE removes its entry if there is one |
| Router.ScaleRouter.StoreOffset | scalerouter/scalerouter.cpp:1513-1524 | The offset of a new lkey is the 64-bit difference of router and client address; an existing one stays |
| Router.ScaleRouter.DropOffset | scalerouter/scalerouter.cpp:2252-2266 | The lkey's entry is removed; reports whether there was one |
| Router.ScaleRouter.AwaitPeer | scalerouter/scalerouter.cpp:1703-1720 | The loop goes through the messages that arrive until one of them makes the peer's number known, and ends with it or with all messages handled |
| Router.ScaleRouter.ModifyQp | scalerouter/scalerouter.cpp:1608-1801 | A whole IBV_MODIFY_QP: the handle is mapped to the host pair, the pair's connection has exactly one reference more, the peer is told its number; the answer is ready exactly if the queue pair is in RTS with the peer's number or was made ready before; all counts stay right and other connections are untouched |
| Router.ScaleRouter.DestroyQp | scalerouter/scalerouter.cpp:2160-2240 | A whole IBV_DESTROY_QP: the handle is unmapped and its reference given back; with the last one, and only then, the key goes, the connection is freed and the peer told; all counts stay right |
| Router.ScaleRouter.PostRequest | scalerouter/scalerouter.cpp:1803-2014 | A whole post: the request is accepted exactly if its lkey and handle are known, a receive carries the pid, and the device takes it, and is then the last of its queue at the translated address; otherwise nothing changes |
| Router.ScaleRouter.PollRequest | scalerouter/scalerouter.cpp:2015-2128 | A whole poll: the oldest completion of the handle's connection is taken out and, if it succeeded and carries the pid, delivered |
| HandleTable.PackInjective | libscale/verbs.c:296-303 | Two handles are equal if and only if their numbers are and their pids agree modulo 2^16 |
| HandleTable.LibScale.constructor | libscale/verbs.c:20-30 | A process starts with both counters and the table at zero |
| HandleTable.LibScale.GetDeviceList | libscale/verbs.c:112-140 | Every call clears the table and leaves the counters |
| HandleTable.LibScale.CreateCq | libscale/verbs.c:297-303 | The handle packs the pid and the counter, which then goes up modulo 2^16 |
| HandleTable.LibScale.CreateQp | libscale/verbs.c:328-335 | The handle packs the pid and the counter, and the table entry of the completion queue is set to the counter's old value |
| HandleTable.LibScale.PollCq | libscale/verbs.c:88-97 | A poll for one entry is sent with the handle rebuilt from the pid and the client's table; any other is refused |
| HandleTable.ShortcutAgrees | libscale/verbs.c:96-96 | For pids below 2^16 that are not used again, at most 1024 completion queues and fewer than 2^16 queue pairs a process, one queue pair a completion queue and no listing of the devices after the queue pair was made: the rebuilt handle equals the router's cq_qp_map entry, which the router never refused |
| HandleTable.ShortcutAgreesIff | libscale/verbs.c:137-139 | In every run the two agree if and only if the process has not listed the devices since it made the queue pair, or the queue pair is its first |
| HandleTable.ListedTwice | libscale/verbs.c:137-139 | A run: a process with two queue pairs lists the devices again and polls its second completion queue with the handle of its first queue pair |
| HandleTable.HandlesUnique | libscale/verbs.c:296-303 | Any two completion queues that exist have different handles, and so have any two queue pairs, in one process and across processes |
| HandleTable.TableInjective | scalerouter/scalerouter.cpp:1573-1587 | cq_qp_map never maps two completion queues to one queue pair |
| HandleTable.WriteOnce | scalerouter/scalerouter.cpp:1574-1587 | An entry of cq_qp_map never changes |
| HandleTable.SecondQpDisagrees | libscale/verbs.c:334-350 | A second queue pair on a completion queue makes the rebuilt handle differ from the router's entry |
| Memory.Host.Truncate | scalerouter/shared_memory.cpp:25-26 | The segment gets the size: bytes below both sizes stay, the rest of its pages is zero, other memory is unchanged |
| Memory.Host.Map | libscale/verbs.c:203-203 | The pages from the address on become those of the segment, in place of what was mapped there |
| Memory.Host.ServeRegMr | scalerouter/shared_memory.cpp:20-37 | The router creates the segment with the int size and maps it; refused exactly for sizes that are not positive or when mapping fails; no byte of any process changes |
| Memory.Host.CopyOut | libscale/verbs.c:198-199 | The buffer holds what the range held |
| Memory.Host.CopyIn | libscale/verbs.c:210-210 | The segment starts with the bytes of the buffer and nothing else changes |
| Memory.Host.Remap | libscale/verbs.c:197-210 | The client's range is remapped onto the segment and its bytes are copied back |
| Memory.Host.RegMr | libscale/verbs.c:176-228 | Succeeds exactly for page-aligned addresses, sizes the router accepts and mappings that work; then client and router map the new segment, which holds the client's bytes followed by zeros; on failure every readable byte is kept |
| Memory.MemoryPreserved | libscale/verbs.c:198-210 | After a registration every byte of the buffer is unchanged, the rest of its last page is zero, and every other byte of every process is unchanged |
| Memory.RegisteredShares | libscale/verbs.c:200-204 | Client and router addresses at equal offsets are the same byte of the segment, in all pages the router maps |
| Memory.SharingEndsIff | libscale/verbs.c:203-203 | A later registration, unmapping or store ends the sharing if and only if it maps over or unmaps one of its pages |
| Memory.SharedIff | scalerouter/scalerouter.cpp:467-479 | After a registration the byte at an offset is shared if and only if it lies in the pages of the length cast to an int |
| Memory.WholeSharedIff | scalerouter/scalerouter.cpp:1493-1500 | Client and router share the whole buffer if and only if its length is below 2^31 |
| Memory.PartlyShared | scalerouter/scalerouter.cpp:467-467 | An input: the registration of 2^32 + 4096 bytes succeeds and shares the first 4096 alone |
| Memory.ReadsAgree | libscale/verbs.c:176-228 | From the registration on and until such a step, the byte at an offset of the buffer is shared exactly if it lies in the router's pages; there client and router read the same byte, elsewhere a store at the router's address does not reach the byte the segment gives the client |
| Memory.TransferArrives | scalerouter/scalerouter.cpp:1823-1831 | A store of the device at the translated address of a client address is read at that client address and at no other offset |
| Memory.StaysSound | scalerouter/shared_memory.cpp:20-37 | Every mapped address keeps having a byte, whatever is registered, unmapped or stored |
| Memory.TruncatedAt | scalerouter/shared_memory.cpp:25-26 | For every byte of every segment and process: what `ftruncate` keeps, zeroes and leaves alone |
| Memory.UnmappedAt | scalerouter/scalerouter.cpp:2285-2300 | Unmapping a region takes its pages out of the router's address space and changes no other address of any process and no byte |
| Names.SegmentNameInjective | scalerouter/scalerouter.cpp:476-479 | Two printed names are equal if and only if pid, size and index are, negative sizes included |
| Names.SegmentNameFits | scalerouter/common.h:287-287 | For 32-bit ints a name has at most 56 characters and fits its 100-byte field |
| Names.NameReadsBack | scalerouter/scalerouter.cpp:476-479 | Scanning a name with client-%d-memsize-%d-index-%d gives pid, size and index, in this order, for all ints |
| Names.ExtendedBy | scalerouter/scalerouter.cpp:467-482 | A registration adds one name to its process, which reads back as the pid, the size and the number of names the process had; other processes are untouched |
| Names.IndexGrows | scalerouter/scalerouter.cpp:476-482 | The index of a process strictly grows, also past segments that could not be opened |
| Names.NamesDistinct | scalerouter/scalerouter.cpp:467-490 | In a run of at most 2^32 registrations no two get the same name |
| Names.SegmentTable.AddShmPiece | scalerouter/scalerouter.cpp:467-490 | The next name of the process (`Names.ExtendedBy`) is appended to its list whether or not the segment opens; the piece is returned only if it does |
| Names.ShmPiece.constructor | scalerouter/shared_memory.cpp:6-13 | A new piece has its name and size, no descriptor and no mapping |
| Names.ShmPiece.Open | scalerouter/shared_memory.cpp:20-37 | The descriptor and the mapping are stored; succeeds unless the mapping failed |
| Wire.GidToWire | verbs_api_test.c:53-61 | Writes 32 digits, two for each byte in memory order, and a zero; the rest of the buffer is unchanged |
| Wire.WireToGid | verbs_api_test.c:38-51 | Writes the bytes the four chunks of eight characters decode to, a chunk without a number repeating the previous word |
| Wire.NoNumber | verbs_api_test.c:45-47 | A chunk that starts with nothing `%x` takes leaves the variable as it was |
| Wire.WordText | verbs_api_test.c:59-60 | "%08x" of the byte-swapped word is the text of its bytes in memory order |
| Wire.GidTextAt | verbs_api_test.c:59-60 | Every byte is two digits of 0123456789abcdef, the high one first, at twice its position |
| Wire.GidRoundTrip | verbs_api_test.c:38-61 | Decoding the text of a gid gives the gid back, for all 128-bit gids |
| Wire.TextRoundTrip | verbs_api_test.c:38-61 | Printing what 32 lowercase hex digits decode to gives them back |
| Wire.MessageRoundTrip | verbs_api_test.c:206-225 | Scanning the printed message recovers lid, qpn, psn and gid, for all 32-bit values |
| Wire.SignedScans | verbs_api_test.c:224-225 | `%x` takes a sign before the digits and gives the number modulo 2^32, negated for a minus |
| Wire.ConvertedLow | verbs_api_test.c:224-225 | Numbers up to 64 bits are cut to their low 32 bits, longer ones become 0xffffffff |
| Wire.MessageFits | verbs_api_test.c:206-210 | The message fits its 52-byte buffer if and only if lid is below 2^16 and qpn and psn are below 2^24 |
| Wire.MessageLayout | verbs_api_test.c:206-210 | A message that fits has four, six, six and thirty-two digits with colons between them, that read back as lid, qpn, psn and gid in this order |
| Wire.OctetsReadBack | scalerouter/scalerouter.cpp:617-619 | The octets of a virtual queue pair number, low byte first, are those of the address it stands for |
| Wire.VirtualQpnFits | verbs_api_test.c:210-210 | With a virtual queue pair number it fits if and only if the last octet of the router's address is zero |
| Wire.SendDest | verbs_api_test.c:209-210 | The buffer holds the printed message as a C string |
| Wire.ReceiveDest | verbs_api_test.c:224-225 | A buffer that holds a printed message gives back the destination it was printed from |
| Hashing.WalksStayInside | scalerouter/common.h:37-38 | Both string walks of the hash end inside the key's 32 bytes if and only if dst_gid has a zero byte |
| Hashing.HashOfKeyIff | scalerouter/common.h:30-40 | The hash depends on the key alone, whatever the string hash and the memory behind the key, if and only if dst_gid has a zero byte |
| Hashing.HashParts | scalerouter/common.h:38-40 | The hash of either gid's string can be taken out of the hash of the key, the other one shifted by one bit |
| Hashing.ArrayHash | scalerouter/scalerouter.h:136-144 | The hash of a gid folds its sixteen bytes in order, modulo 2^64 |
| Hashing.GidHashValues | scalerouter/scalerouter.h:136-144 | Known values of the hash; the order of the bytes matters |
| Hashing.Table.Find | scalerouter/scalerouter.cpp:1632-1633 | The walk of a bucket finds the value of the first entry with the code and the key |
| Hashing.Table.Insert | scalerouter/scalerouter.cpp:1653-1653 | Replaces the key's value or adds an entry to its bucket |
| Hashing.Table.Remove | scalerouter/scalerouter.cpp:2200-2200 | Removes the key's entry from its bucket |
| Hashing.RehashRepresents | scalerouter/scalerouter.h:120-124 | Growing the table changes no lookup |
| Hashing.LookupRefinesMap | scalerouter/common.h:14-43 | After any sequence of finds, insertions, removals and growths a lookup answers as a plain finite map does, for keys with a zero byte in dst_gid and wherever they lie in memory |
| Hashing.LookupMisses | scalerouter/common.h:30-40 | In any table and for any string hash, the lookup after the insertion of a new key misses it if and only if what follows the two key arguments in memory changes the code |
| Hashing.MissesIff | scalerouter/common.h:30-40 | Some string hash and memory make that happen to a key if and only if its dst_gid has no zero byte |

## Left out

- The request codes from INIT_RES to DESTROY_RES (scalerouter/scalerouter.cpp:790-1458), which libscale does not send: they use the same counts under another convention.
- Sockets, accept loops, creation of threads and ioctl: a request starts a handler and messages are values in flight. A client whose request is killed gets no answer.
- The RDMA device and the kernel beyond what `Machine.Admits` and `Memory.CanRegister` say of them. A completion queue does not overflow.
- Queries for devices, ports, protection domains and gids, and the construction of client objects: copies of fields.
- Configuration, logging, shutdown and `freeShmPiece`; segments left over from an earlier run of the router.
- Completions of polls for more than one entry in the router: the client library refuses such polls.
- IBV_DESTROY_CQ in the runs of `HandleTable`: libscale does not send it. Its section is the method `UnbindCq`.
- Objects for connections: `conn_resources` are records in a map from pointers, so that freeing one and following a pointer to it afterwards can be said. Interleavings are proved on values; the methods of `Router.ScaleRouter` are the sections in place, and its handlers run one at a time.
- Wire.ReceiveDest: gives no destination when the message does not scan, where the program goes on with what its variables hold.
- Hashing.LookupRefinesMap: takes the hash of strings as any function, and the order in which a library table walks its buckets is not modelled.
- Errors of `ftruncate`: the program does not act on them.
