# Verified model of the conferencing backend

The backend lets users meet in rooms: a database says who takes part, a socket layer keeps who is
connected, an SFU (mediasoup) carries their media, and Redis mirrors or caches some of it. This
project models the parts whose state must stay consistent over any run, and proves that it does.

Each service or handler that updates things in place is a class whose methods are proved against a
function on values (`View() == Step(old(View()), ...)`); what the system promises is proved about
those functions, over every run.

| files | source | what they are |
|---|---|---|
| `SfuModel`, `SfuProofs`, `SfuResults`, `SfuEffects`, `SfuService` | `src/services/sfuService.js` | the call graph over a small model of mediasoup, its invariant, what it means, what each operation does to the tables, and the service with its call and peer objects |
| `PeerMap`, `LastEntered` | `src/services/webrtcService.js` | which socket is in which room, the Redis mirror, the live roster, and which of a user's sockets it names |
| `RateLimiter` | `src/sockets/roomEvents.js` | the fixed-window limiter |
| `World`, `SocketServer` | `src/sockets/*.js` | the socket handlers as one machine, and as methods over the service objects |
| `SfuCalls`, `Lifecycle`, `Convergence`, `Announcements`, `Runs`, `Residue`, `Traces`, `Workers` | the same | what holds in every run of that machine |
| `RoomMembership`, `RoomProofs`, `RoomRequests`, `RoomAnswers`, `RoomService`, `Roster` | `src/services/roomService.js` | membership in the database with requests that interleave at every `await`: what every interleaving keeps, what a request does alone, and what its answer says under interference |
| `Backend` | `src/sockets/roomEvents.js`, `src/services/roomService.js` | the two machines together, each handler's database request running to its end |
| `Pagination`, `RoomListCache` | `src/services/roomService.js` | pages of rooms and messages, and the cached room list |

## Reading the models

**mediasoup** is the record of what is open. Closing a transport closes what lives on it at once; a
consumer elsewhere whose producer was closed stays open, in `closing`, until its `producerclose` is
delivered, in any order and at any time. `Inv` is what every SFU operation keeps: open routers are
those of the calls, no call is without a peer, every open transport, producer and consumer is in its
owner's list, a consumer's producer is still held in the same call or its `producerclose` is pending,
and each consumer is on its peer's earliest recv transport.

**The socket machine** (`World`) has one step per handler. Besides the server's tables it holds what
was emitted to each client and not yet received (`inbox`, first in first out) and what each client
makes of it (`views`): the snapshot in the ack of `sfu:get-rtp-capabilities`, then `sfu:new-producer`
and `sfu:producer-closed`. A run is *disciplined* when a socket joins only from no room or its own
room, and leaves only its own. What the database answers to a join, leave or kick is an arbitrary
boolean there.

**The database machine** (`RoomMembership`) has one step per database access; any number of requests
interleave, and any of them may be aborted. Room rows can be locked until commit or rollback, an
uncommitted insert is seen by its own transaction only, the partial unique index rejects a second
active row, and a save writes only the fields that were changed. The database starts empty.

Findings, stated as theorems:

- A kick takes one socket of its user out of the room and does not tell the SFU
  (`src/sockets/roomEvents.js:242-287`). The user is out of the room exactly if it had at most one
  socket there, `KickEmptiesIff`; `KickLeavesASocket` is a run in which it had two. An evicted socket's SFU peer stays, without its socket's room until the
  socket joins it again, `StrandedAreEvicted`; once the socket is gone its call and router stay open
  for good, `StrandedForGood`. So something can be left when everybody has gone, `KickLeavesResidue`, and
  `ResidueExactly` says when and what.
- A socket that joins a second room, or leaves a room that is not its own, makes the membership
  tables disagree: `JoinAgreesIff` and `LeaveAgreesIff` say exactly when, `SecondRoomDisagrees` and
  `ForeignLeaveDisagrees` give runs. Over runs, the tables agree throughout exactly if the run is
  disciplined, `DisciplinedIffAgreeing`.
- The comment at `src/services/roomService.js:56-61` says that the room list's cache is invalidated on
  create, join and leave. Only `createRoom` invalidates, and the key it deletes is no page's key:
  `InvalidationChangesNoAnswer`. Staleness is bounded by the TTL alone, `BoundedStaleness`; the bound is
  met, `StalenessBoundIsMet`, and `StaleAfterCreate` is an answer without a room created long before.
- The comment at `src/services/webrtcService.js:62-68` says that the most recently connected socket of
  a user wins. The last one to enter the room does, `LastEntrantWins`; a socket that joins again keeps
  its place, `RejoinDoesNotWin`, and `JoinerWinsIff` says exactly when the most recent joiner wins.
- A user has one active row in a room however many sockets it joins with. After one of them leaves, the
  other's `room:leave` is refused and cleans nothing up (`src/services/roomService.js:156-163`):
  `LeavesIffActiveInRun` says exactly when a leave works, `SecondSocketCannotLeave` is the run. In the same
  way a disconnect of one socket ends the participation that the other still shows, `DisconnectEnds`.
- `room:join` passes no password to `joinRoom` (`src/sockets/roomEvents.js:70`), so no socket ever gets
  into a room that needs one, `NoSocketBehindPassword`.
- The limiter's budget of `max` per window is `2 * max - 1` over a sliding window, and that is met:
  `SlidingWindowBound`, `SlidingWindowBoundIsMet`.

## Model

| member | source | states |
|---|---|---|
| SfuService.SfuService.Init | src/services/sfuService.js:100-123 | no worker without mediasoup, otherwise `max(1, numWorkers)` distinct ones; nothing else changes |
| SfuService.SfuService.NextWorker | src/services/sfuService.js:125-129 | the worker whose turn it is, and the turn moves on modulo the number of workers |
| SfuService.SfuService.GetOrCreateCall | src/services/sfuService.js:131-143 | fails without workers; returns the call's object, entering one with its router only if there was none; the new state is that of the specification |
| SfuService.SfuService.GetRtpCapabilities | src/services/sfuService.js:159-165 | the router of the call is returned; the call and this socket's peer exist afterwards, an existing peer is untouched; the new state is that of the specification |
| SfuService.SfuService.CreateTransport | src/services/sfuService.js:173-196 | fails without a peer; otherwise one more open transport, last in the peer's map |
| SfuService.SfuService.Produce | src/services/sfuService.js:210-220 | fails without a peer or with a transport that is not the peer's; otherwise one more producer on it |
| SfuService.SfuService.FindRecvTransport | src/services/sfuService.js:236 | the loop finds the first transport, in insertion order, whose direction is `recv` |
| SfuService.SfuService.Consume | src/services/sfuService.js:229-254 | fails in the source's three ways; otherwise one more paused consumer on the transport found |
| SfuService.SfuService.ResumeConsumer | src/services/sfuService.js:256-261 | fails for a consumer that is not the peer's; otherwise that consumer and no other is no longer paused |
| SfuService.SfuService.DeliverProducerClose | src/services/sfuService.js:246 | the consumer is closed and gone from its peer's map |
| SfuService.SfuService.ListOwnProducerIds | src/services/sfuService.js:264-269 | the peer's producer ids in insertion order, none without a peer |
| SfuService.SfuService.ListOtherProducers | src/services/sfuService.js:272-283 | the nested loops build the specified list: peers in insertion order but for the asking one, their producers in insertion order |
| SfuService.SfuService.RemovePeer | src/services/sfuService.js:291-305 | closing the transports one by one and dropping the peer, with the router if it was the last, amounts to the specified state |
| SfuService.SfuService.CloseAll | src/services/sfuService.js:297 | closing transports one at a time closes exactly what closing them together does, pending `producerclose` included, and the peer's own maps keep what is still open, in order |
| SfuProofs.GetRtpCapabilitiesKeeps | src/services/sfuService.js:131-165 | keeps the SFU invariant |
| SfuProofs.CreateTransportKeeps | src/services/sfuService.js:173-196 | keeps the SFU invariant; in particular a newer recv transport changes no consumer's path |
| SfuProofs.ProduceKeeps | src/services/sfuService.js:210-220 | keeps the SFU invariant |
| SfuProofs.ConsumeKeeps | src/services/sfuService.js:229-254 | keeps the SFU invariant: the consumer's producer is one of the same call, and its transport the peer's earliest recv one |
| SfuProofs.ResumeConsumerKeeps | src/services/sfuService.js:256-261 | keeps the SFU invariant |
| SfuProofs.RemovePeerKeeps | src/services/sfuService.js:291-305 | keeps the SFU invariant through the cascade: what is left open is still listed by its owner, and consumers of the closed producers are pending |
| SfuProofs.DeliverProducerCloseKeeps | src/services/sfuService.js:246 | keeps the SFU invariant |
| SfuProofs.FindRecvIsEarliest | src/services/sfuService.js:236 | in ids handed out in increasing order, the transport found is the earliest-created recv one |
| SfuResults.OpenIsHeldOnce | src/services/sfuService.js:131-220 | conservation: the open routers are those of `calls`, one each; every open transport, producer and consumer is in exactly one peer's map, and nothing else is |
| SfuResults.LastPeerLeavesNothing | src/services/sfuService.js:291-305 | after `removePeer` nothing of the call is open if and only if that peer was its last |
| SfuResults.RemovePeerClosesItsOwn | src/services/sfuService.js:291-298 | `removePeer` closes exactly the transports, producers and consumers the peer owns, and leaves exactly the others' consumers of its producers pending |
| SfuResults.DrainedConsumersHaveSources | src/services/sfuService.js:229-246 | once every `producerclose` is delivered, each consumer's producer is held by some peer of the same call |
| SfuResults.ConsumeSucceedsExactly | src/services/sfuService.js:229-254 | `consume` succeeds if and only if the peer has a recv transport, the capabilities fit and the producer is open in the peer's own call |
| SfuResults.ListedCanBeConsumed | src/services/sfuService.js:229-283 | whatever `listOtherProducers` lists, `consume` accepts |
| SfuResults.ListedAreOthers | src/services/sfuService.js:272-283 | the list built by the loops is the set of open producers of the call owned by other sockets, each with its owner's user |
| SfuResults.OthersAfterProduce | src/services/sfuService.js:210-220 | a new producer adds its one entry to what the others of that call see, and nothing anywhere else |
| SfuResults.OthersAfterRemove | src/sockets/sfuEvents.js:164-165 | the ids listed before `removePeer` are exactly those that the others of that call no longer see |
| SfuEffects.AskExactly | src/services/sfuService.js:131-165 | asking for capabilities fails only without workers; afterwards the call is there and the socket is in it, a new socket last, under its user and with nothing open, a new call on a new router of the worker whose turn it is; whoever was there is untouched |
| SfuEffects.CreateTransportExactly | src/services/sfuService.js:173-196 | a transport is made if and only if the peer exists; it is new, open, the peer's, of exactly the direction asked for and last in its list; every other transport, producer and consumer is unchanged |
| SfuEffects.CreateTransportGivesRecv | src/services/sfuService.js:173-236 | afterwards a peer can receive if and only if it could before, or it is the one that asked and it asked for `recv` |
| SfuEffects.ProduceExactly | src/services/sfuService.js:210-220 | a producer is made if and only if the transport is open and the peer's own; it is new, on that transport, of that kind and last in the peer's list; nothing else changes |
| SfuEffects.ConsumeExactly | src/services/sfuService.js:229-254 | the new consumer is paused, of the producer asked for, on the peer's earliest recv transport and last in its list; nothing else changes |
| SfuEffects.ResumeExactly | src/services/sfuService.js:256-261 | a consumer is resumed if and only if it is open and the peer's own; then it is not paused, and nothing else changes |
| SfuEffects.DeliverExactly | src/services/sfuService.js:246 | a pending `producerclose` closes its consumer and takes it out of its owner's map; nothing else changes |
| SfuEffects.Drains | src/services/sfuService.js:246 | whatever is pending can be delivered one by one until nothing is, without touching a producer or a peer |
| SfuEffects.RemovePeerKeepsOthers | src/services/sfuService.js:291-305 | everybody else stays, with all that is theirs and in the same order; a router goes only with its call |
| SfuEffects.ListingIsInOrder | src/services/sfuService.js:272-283 | of two listed producers the first is of the socket that entered the call first, or the earlier one of the same socket |
| RateLimiter.Limiter.IsRateLimited | src/sockets/roomEvents.js:30-39 | the new window and the verdict, as functions of the stored window of that key; no other key changes |
| RateLimiter.Limiter.ClearRateLimitState | src/sockets/roomEvents.js:290-293 | exactly the socket's two keys go |
| RateLimiter.StateIsHistory | src/sockets/roomEvents.js:28-39 | after any requests and clears of all sockets, what is stored for a key, and so the next verdict, is computed from that key's own requests since its last clear |
| RateLimiter.WindowIsOpeners | src/sockets/roomEvents.js:30-39 | the stored window is that of the last opener: the first request, then each first one at least a window after the opener before; its count is the number of requests from it on |
| RateLimiter.IntervalBudget | src/sockets/roomEvents.js:30-39 | how much of an interval's budget is spent, by where the current window starts |
| RateLimiter.SlidingWindowBound | src/sockets/roomEvents.js:24-39 | for any nondecreasing clock at most `2 * max - 1` requests pass in any half-open interval of one window |
| RateLimiter.SlidingWindowBoundIsMet | src/sockets/roomEvents.js:24-39 | requests that reach the bound |
| RateLimiter.PostsPerFiveSeconds | src/sockets/roomEvents.js:24-39 | at most 15 chat messages and 29 reactions of one socket in any five seconds between clears |
| PeerMap.AddPeerEffect | src/services/webrtcService.js:31-35 | exactly that socket becomes a peer of that room, under that user |
| PeerMap.RemovePeerEffect | src/services/webrtcService.js:44-49 | exactly that socket stops being a peer of that room, and no room is left empty |
| PeerMap.MirrorCatchesUp | src/services/webrtcService.js:31-56 | whenever Redis executes its first-in-first-out commands, replaying the pending ones on its hashes gives the in-memory table |
| PeerMap.DrainedMirrorIsExact | src/services/webrtcService.js:31-56 | with nothing pending the two are equal and neither keeps an empty room |
| Traces.MirrorFollowsRun | src/services/webrtcService.js:31-56 | in every run of the socket machine, however Redis's executions fall between its steps, replaying what is pending on the hashes gives that moment's peer map |
| LastEntered.MapIsInEntryOrder | src/services/webrtcService.js:31-49 | in every run the peers of a room are exactly the sockets that have entered it and not been removed, and the map iterates over them in the order of their entries |
| LastEntered.LastEntrantWins | src/services/webrtcService.js:69-77 | in every run the socket found for a user is `s` if and only if `s` is a current socket of the user there whose entry, its first join since its last removal, is the latest |
| LastEntered.JoinerWinsIff | src/services/webrtcService.js:62-77 | the socket that joins is the one found afterwards if and only if it was new to the room or no other socket of the user there had entered after it |
| LastEntered.RejoinDoesNotWin | src/services/webrtcService.js:62-77 | two sockets of a user join, the first joins again, and the second is found |
| PeerMap.SocketOfUserIsPeer | src/services/webrtcService.js:69-77 | it is a current peer of the room recorded for that very user |
| PeerMap.WebrtcService.AddPeerToRoom | src/services/webrtcService.js:31-42 | the new table and the command sent |
| PeerMap.WebrtcService.RemovePeerFromRoom | src/services/webrtcService.js:44-56 | the new table, without the room if it is empty, and the command sent |
| PeerMap.WebrtcService.RedisExecutesNext | src/services/webrtcService.js:38-52 | the oldest command sent reaches Redis, and the in-memory table is untouched |
| PeerMap.WebrtcService.GetSocketIdsByUserId | src/services/webrtcService.js:69-77 | the loop maps each user to its last socket and no other user to any |
| PeerMap.WebrtcService.RosterPayload | src/sockets/roomEvents.js:41-57 | one entry per participant in order; a socket id is a current peer of that user, the one the lookup gives, and null only if the user has no peer |
| Roster.ParticipantsAreActiveRows | src/services/roomService.js:195-203 | the participants are the room's active rows, each once, oldest row first, as many as are counted |
| Roster.RosterHasNoSocketTwice | src/sockets/roomEvents.js:41-57 | whatever ran against the database, no two entries share a user or a live socket, and there are no more than the room's capacity |
| SocketServer.SocketServer.OnGetCapabilities | src/sockets/sfuEvents.js:36-51 | one step of the machine: the peer exists and the snapshot of the other producers is on its way to the caller alone |
| SocketServer.SocketServer.OnCreateTransport | src/sockets/sfuEvents.js:53-68 | one step of the machine |
| SocketServer.SocketServer.OnProduce | src/sockets/sfuEvents.js:86-118 | one step of the machine: the others in the room are sent the new producer, if it was made |
| SocketServer.SocketServer.OnConsume | src/sockets/sfuEvents.js:120-134 | one step of the machine |
| SocketServer.SocketServer.OnResumeConsumer | src/sockets/sfuEvents.js:136-150 | one step of the machine |
| SocketServer.SocketServer.CleanupSfuPeer | src/sockets/sfuEvents.js:160-173 | the peer is removed and the loop sends every other socket of the room one `sfu:producer-closed` for each id listed before |
| SocketServer.SocketServer.OnJoin | src/sockets/roomEvents.js:66-95 | one step of the machine: socket.io room, `socket.data.roomId` and peer map, or nothing if the database refuses |
| SocketServer.SocketServer.OnLeave | src/sockets/roomEvents.js:97-126 | one step of the machine, over peer map, SFU, socket.io room and `socket.data.roomId` |
| SocketServer.SocketServer.OnKick | src/sockets/roomEvents.js:242-287 | one step of the machine: only the target user's last socket is evicted, and the SFU is not told |
| SocketServer.SocketServer.OnPost | src/sockets/roomEvents.js:128-196 | one step of the machine, and relayed exactly when `ChatRelayedIff` and `ReactionRelayedIff` say so |
| SocketServer.SocketServer.OnDisconnect | src/sockets/presenceEvents.js:82-98 | one step of the machine, over all tables |
| SocketServer.SocketServer.OnRelay | src/sockets/signalingEvents.js:26-90 | one step of the machine: the recipient is sent the signal if both are peers of the room |
| SocketServer.SocketServer.Handle | src/sockets/sfuEvents.js:35-151 | whatever arrives, the objects afterwards are in the state of the machine's step, and the SFU invariant holds again |
| SocketServer.SocketServer.Serve | src/sockets/roomEvents.js:65-288 | from a fresh start, after any actions the objects are in the last state of the run of those actions, which is what the theorems on runs are about |
| Lifecycle.JoinAgreesIff | src/sockets/roomEvents.js:66-74 | a join keeps `socket.data.roomId`, socket.io room and peer map in agreement if and only if it is disciplined |
| Lifecycle.LeaveAgreesIff | src/sockets/roomEvents.js:97-120 | the same for a leave |
| Lifecycle.DisconnectKeepsAgree | src/sockets/presenceEvents.js:82-98 | a disconnect keeps them in agreement, and the limiter keeps no window of a socket that has gone |
| Lifecycle.KickKeepsAgree | src/sockets/roomEvents.js:242-287 | a kick keeps those three tables in agreement |
| Lifecycle.KickEmptiesIff | src/sockets/roomEvents.js:242-287 | after a kick the database allows, the user has no socket left in the room if and only if it had at most one |
| Lifecycle.StepKeepsAgree | src/sockets/roomEvents.js:66-287 | every disciplined step does: a connected socket is in a room's peer map, under its own user, if and only if its `roomId` is that room, if and only if it is in that socket.io room |
| Convergence.StepKeepsInv | src/sockets/sfuEvents.js:35-173 | every step of the socket machine, disciplined or not, keeps the SFU invariant |
| Convergence.SnapshotConverges | src/sockets/sfuEvents.js:42-45 | once the caller has received the snapshot, whatever was before it in its queue, it believes exactly the others' producers |
| Convergence.ProduceConverges | src/sockets/sfuEvents.js:94-112 | a new producer leaves every converged client converged, in that room and elsewhere |
| Convergence.CleanupConverges | src/sockets/sfuEvents.js:160-173 | a cleanup leaves every other converged client converged: the ids were listed before the peer was removed |
| Convergence.StepKeepsConverged | src/sockets/sfuEvents.js:35-173 | every step keeps every synced client converged |
| Announcements.ProducersAreAnnounced | src/sockets/sfuEvents.js:94-112 | at every moment of a disciplined run, a produce on the socket's own transport sends every other socket of its room, and nobody else, exactly the new producer with its socket, user and kind; any other sends nothing |
| Announcements.DeparturesAreAnnounced | src/sockets/sfuEvents.js:160-173 | when a socket leaves or disconnects, every other socket of its room, and nobody else, is sent exactly one closed message for each of its producers, in order, with its socket id |
| Announcements.KicksAreNotAnnounced | src/sockets/roomEvents.js:242-287 | a kick sends nothing about producers and leaves the SFU as it is |
| Runs.SfuInEveryRun | src/services/sfuService.js:87-306 | in every run the SFU invariant holds and each SFU peer is recorded under its socket's user |
| Runs.DisciplinedRunsAgree | src/sockets/presenceEvents.js:82-98 | at every moment of every disciplined run the tables agree and the synced clients have converged |
| Runs.DisciplinedIffAgreeing | src/sockets/roomEvents.js:66-126 | the membership tables agree at every moment of a run if and only if the run is disciplined |
| Runs.SyncedByHistory | src/sockets/sfuEvents.js:36-51 | whoever has asked for capabilities since it entered its room is synced |
| Runs.ViewsConverge | src/sockets/sfuEvents.js:36-173 | producer-view convergence: in a disciplined run, whoever has asked since it entered its room will, having received its queue, believe exactly what `listOtherProducers` returns now |
| Runs.RoomAfter | src/sockets/roomEvents.js:66-287 | what every step makes of every socket's `roomId` |
| Runs.StrandedExactly | src/sockets/roomEvents.js:242-287 | an SFU peer comes to be without its socket's room exactly by a kick of that socket, and stops to be so exactly when the socket joins that room again |
| Residue.StrandedAreEvicted | src/sockets/roomEvents.js:242-287 | at every moment of a disciplined run the SFU peers without their socket's room are exactly those that had a peer when a kick evicted them and have not joined that room again since |
| Residue.NobodyStrandedWithoutKicks | src/sockets/sfuEvents.js:160-165 | in a disciplined run without kicks every SFU peer of a call is a socket of that room |
| Runs.StrandedForGood | src/sockets/roomEvents.js:265-280 | a stranded peer whose socket has gone is never removed, and its router stays open |
| Residue.KickLeavesResidue | src/sockets/roomEvents.js:242-287 | a disciplined run, with any workers, that ends with nobody connected and a call and router open |
| Residue.ResidueExactly | src/sockets/presenceEvents.js:82-98 | when everybody has gone from a disciplined run the peer map, the socket.io rooms and the limiter are empty; the calls still open are exactly those of peers that a kick evicted and that did not come back, so nothing is open if and only if there was no such kick |
| Residue.NoResidue | src/sockets/presenceEvents.js:82-98 | in a disciplined run without kicks nothing at all is left when everybody has gone |
| Residue.SecondRoomDisagrees | src/sockets/roomEvents.js:66-74 | a reachable join that is not disciplined, after which the tables disagree |
| Residue.ForeignLeaveDisagrees | src/sockets/roomEvents.js:97-120 | a reachable leave that is not disciplined, after which the tables disagree |
| Residue.KickLeavesASocket | src/sockets/roomEvents.js:242-287 | a disciplined run, with any workers, in which the database allows a kick and the kicked user is still a peer of the room |
| Traces.UserIsWhoConnected | src/sockets/index.js:45 | in every run a socket id is known, for good, under the user it first connected as |
| Traces.PeerAfter | src/services/webrtcService.js:31-56 | what every step makes of a socket's membership in a room's peer map, and that a recorded user stays the socket's |
| Traces.PeersAreMembers | src/services/webrtcService.js:31-60 | in every run the peer map holds exactly the sockets whose join of that room was not followed by a removal |
| Traces.VictimEnteredLast | src/sockets/roomEvents.js:253-269 | in every run the socket that a kick evicts is, of its user's sockets in that room, the one that entered last |
| Traces.SignalsComeFromMembers | src/sockets/signalingEvents.js:26-90 | every signal on its way to a client was relayed while both ends were members of that room, and its `fromUserId` is the user the peer map had for the sender |
| Traces.RelayReachesMembers | src/sockets/signalingEvents.js:26-90 | a relay asked for by a connected socket is delivered if and only if both ends are members and the recipient is connected; otherwise nobody is sent anything |
| Traces.PausedUntilResumed | src/services/sfuService.js:229-261 | in every run a consumer is paused if and only if its peer's socket has not asked for it to be resumed while in that call |
| Traces.OneReceivePath | src/services/sfuService.js:173-246 | in every run each consumer is on the earliest-created recv transport of its peer |
| Traces.RecvByHistory | src/services/sfuService.js:173-236 | in every run a peer has a recv transport if and only if its socket has made one, with direction `recv`, since the peer came to be |
| Traces.RatesAreWhatWasAsked | src/sockets/roomEvents.js:128-196 | the limiter's table is what the posts and disconnects of the run make of it |
| Traces.CountedNext | src/sockets/roomEvents.js:128-196 | what the limiter counts for a socket: every valid post of that kind to the socket's own room, blank or not, and nothing from before its last disconnect |
| Traces.ChatRelayedIff | src/sockets/roomEvents.js:24-150 | at every moment of every run a chat message is relayed if and only if it is valid, not blank, meant for the socket's own room, and the current window has no opener less than 5000 ms back or fewer than 8 messages counted from it on |
| Traces.ReactionRelayedIff | src/sockets/roomEvents.js:26-196 | the same for reactions, with 15 and 5000 ms |
| Traces.ChatStaysInBudget | src/sockets/roomEvents.js:142-150 | in every run with a nondecreasing clock at most 15 chat messages of a socket pass in any five seconds, and its stored window is computed from its own history |
| Workers.RoundRobin | src/services/sfuService.js:105-129 | the `m`-th router opened in a run, from 0, is on worker `m mod k`, and the turn is their number modulo `k` |
| Workers.Balanced | src/services/sfuService.js:125-129 | after any run each of the `k` workers was given the floor or the ceiling of its share of the routers opened |
| RoomService.RoomDatabase.CreateRoom | src/services/roomService.js:28-49 | one access of the request is one step of the database machine |
| RoomService.RoomDatabase.JoinRoom | src/services/roomService.js:107-154 | one access of the request is one step of the database machine |
| RoomService.RoomDatabase.LeaveRoom | src/services/roomService.js:156-171 | one access of the request is one step of the database machine |
| RoomService.RoomDatabase.UpdateParticipantPresence | src/services/roomService.js:180-193 | one access of the request, find or save, is one step of the database machine |
| RoomService.RoomDatabase.HostSetParticipantMuted | src/services/roomService.js:226-249 | one access of the request, either read or the save, is one step of the database machine |
| RoomService.RoomDatabase.HostKickParticipant | src/services/roomService.js:256-276 | one access of the request is one step of the database machine |
| RoomService.RoomDatabase.Serve | src/services/roomService.js:28-276 | a whole request, with the others running as they please before each of its accesses, is a run of the machine with one access of the request per turn until it is answered; the answer is true of the tables at its last access, for every kind of request, in the words of the `RoomAnswers` rows |
| RoomProofs.StepKeepsInv | src/services/roomService.js:28-276 | every step of any request keeps the database invariant |
| RoomProofs.LockHolderRelies | src/services/roomService.js:138-149 | while a join holds its room's lock no step of another request raises the room's active count |
| RoomProofs.KnowsSurvivesSaves | src/services/roomService.js:138-149 | what a request has read stays true enough across others' saves: the lock holder's count stays an upper bound, its user absent |
| RoomProofs.KnowsSurvivesCommit | src/services/roomService.js:131-149 | the same across others' commits, for whoever does not hold the lock of the committed row's room |
| RoomProofs.CapacityInEveryRun | src/services/roomService.js:107-154 | capacity: in every interleaving a room's active rows and the lock holder's uncommitted one never exceed `maxParticipants`, and one join at most holds the room's lock |
| RoomProofs.LockIsReleased | src/services/roomService.js:138-149 | whatever the other requests do in between, a room's lock has been free at some moment once its holder has had the accesses it has left, at most three, so no join waits for a holder that waits |
| RoomProofs.MembershipHistory | src/services/roomService.js:37-49 | at any moment one active row per room and user, host role if and only if the room's host, the host has taken part; later no row is moved, re-roled or made active again, and who has ever participated still has |
| RoomProofs.RowAfter | src/services/roomService.js:165-249 | what a step makes of an existing row: only the saves change one, only the row they found and only the fields they set |
| RoomProofs.WhoEndsParticipation | src/services/roomService.js:165-271 | a participation ends exactly by the save of a leave or a kick that found it, and a kick's row is never the host's |
| RoomProofs.KickersAreHosts | src/services/roomService.js:256-268 | in every run, whatever stands behind the checks of a kick was started by that room's host against somebody else, and the row it has found is that user's |
| RoomAnswers.CreateAnswers | src/services/roomService.js:28-49 | under interference a creation is answered with the room, as asked for, and its host's row committed together, or fails because the id is taken, and changes nothing |
| RoomAnswers.JoinAnswers | src/services/roomService.js:107-154 | under interference each answer of a join is true of the tables: refused for the password exactly if the room is there, active, needs one and the one given is wrong; `Full` means exactly full; a row answered is the user's active one, or the one added with the right role while there was a free place; the index rejects only who is in |
| RoomAnswers.LeaveAnswers | src/services/roomService.js:156-171 | under interference a row that a leave answers is the user's in that room and is left afterwards, no other row changed; without a row nothing changes and the user does not take part |
| RoomAnswers.KickAnswers | src/services/roomService.js:256-276 | under interference a row that a kick answers is the target's in that room and is left afterwards, no other row changed, and the room's host asked, meaning somebody else; a refusal says which of the conditions failed and changes nothing |
| RoomAnswers.PresenceAnswers | src/services/roomService.js:180-193 | under interference the row is the user's in that room, only flags that were given are written, with the values given, and nothing else changes |
| RoomAnswers.MuteAnswers | src/services/roomService.js:226-249 | under interference the row is the target's in that room, its flag is as it was or as asked for, nothing else changes, and the room's host asked |
| RoomAnswers.MutersAreHosts | src/services/roomService.js:226-230 | of those the source lets mute, hosts and moderators, only hosts occur |
| RoomRequests.CreateCompletes | src/services/roomService.js:28-49 | a creation that runs alone commits the room, open, with the host, size and password need asked for, and its host's row |
| RoomRequests.JoinCompletes | src/services/roomService.js:107-154 | a join that runs alone, whatever the password, is accepted if and only if the room is there, active and takes it, and the user takes part already or there is a free place; each refusal says what was wrong, and only a new participation adds a row |
| RoomRequests.LeaveCompletes | src/services/roomService.js:156-171 | a leave that runs alone ends with the user's active row marked as left and answered, if and only if there is one; otherwise it is refused and changes nothing |
| RoomRequests.KickCompletes | src/services/roomService.js:256-276 | a kick that runs alone ends with the target's active row marked as left and answered, if and only if the room's host asks, means somebody else, and that user takes part; otherwise no row changes and the refusal says why |
| RoomRequests.PresenceCompletes | src/services/roomService.js:180-193 | a presence update that runs alone sets on the user's active row exactly the flags it gives |
| RoomRequests.MuteCompletes | src/services/roomService.js:226-249 | a host's mute that runs alone sets the target's flag to the value asked for, if and only if whoever asks is an active host or moderator and the target takes part; otherwise no row changes |
| Backend.RunsAreQuiescent | src/services/roomService.js:28-276 | when handlers run one after another, every database request has run to its end within six accesses, no lock is left, and the database invariant holds |
| Backend.DisciplinedRunsAgree | src/sockets/roomEvents.js:66-287 | with the database's real answers, too, the membership tables agree at every moment of a disciplined run |
| Backend.JoinsIffLetIn | src/sockets/roomEvents.js:66-74 | a socket in no room gets into one if and only if the room is there, active and without password, and its user takes part already or there is a free place; only a new participation adds a row, with the right role |
| Backend.RestJoins | src/services/roomService.js:107-154 | a join over HTTP, with a password or without, does to the rows what it does alone and moves no socket |
| Backend.RestLeaves | src/services/roomService.js:156-171 | a leave over HTTP ends the participation and moves no socket |
| Backend.NoSocketBehindPassword | src/sockets/roomEvents.js:70 | in no run is a socket in a room that needs a password |
| Backend.LeavesIffActiveInRun | src/sockets/roomEvents.js:97-126 | at any moment of a disciplined run a socket's leave, with or without a room named, takes it out and ends its user's participation there if and only if the user has an active row; otherwise the socket layer does not change; no other row ever does |
| Backend.DisconnectEnds | src/sockets/presenceEvents.js:82-98 | after a disconnect a row is left if and only if it was before or is its user's in the socket's room; rooms and all other rows are unchanged |
| Backend.DisconnectLeavesRoster | src/sockets/presenceEvents.js:82-112 | in every disciplined run, when a socket disconnects its user is no longer in its room's roster |
| Backend.KickEnds | src/sockets/roomEvents.js:242-252 | a kick ends the user's participation, and no other, if and only if the room's host asks and means somebody else; otherwise no row changes |
| Backend.KickEvicts | src/sockets/roomEvents.js:242-287 | it takes a socket out of its room if and only if, besides, the user takes part and the socket is the one found for the user |
| Backend.SecondSocketCannotLeave | src/sockets/roomEvents.js:97-126 | a disciplined run in which a user with two sockets leaves with both: the second stays in the room and a peer of it, with nobody in the roster |
| RoomListCache.PageKeysDiffer | src/services/roomService.js:63 | different pages have different keys, and the invalidated key is no page's |
| RoomListCache.BoundedStaleness | src/services/roomService.js:62-95 | every answer holds the requested page as the database had it at one moment and the total as it had it at one moment, each less than 15 s before plus the delay between that read and its `setEx`, whatever is created, invalidated or lost; its `totalPages` is the least number of pages that holds the total |
| RoomListCache.InvalidationChangesNoAnswer | src/services/roomService.js:12-18 | an invalidation changes what no page's key finds |
| RoomListCache.StalenessBoundIsMet | src/services/roomService.js:62-95 | for any database and page, a run with a creation in between whose second answer is the first one's, one millisecond short of the TTL after it was stored |
| RoomListCache.StaleAfterCreate | src/services/roomService.js:12-18 | a reachable answer without a room that was created, and the cache invalidated for, 14998 ms before |
| RoomListCache.RoomList.ListRooms | src/services/roomService.js:62-95 | one access of a request is one step of the cache machine |
| RoomListCache.RoomList.InvalidateRoomListCache | src/services/roomService.js:12-18 | one step of the cache machine, also when Redis fails |
| Pagination.PageSize | src/services/roomService.js:74-86 | a page is nonempty if and only if it is at most `totalPages`, and all but the last are full |
| Pagination.ListRoundTrip | src/services/roomService.js:74-86 | the pages from first to last, put together, are the whole list |
| Pagination.QueryIsHistoryBackwards | src/services/roomService.js:283-297 | for distinct creation times, newest-first determines the order: it is the history reversed |
| Pagination.MessagesRoundTrip | src/services/roomService.js:283-297 | the message pages from `totalPages` down to 1, put together, are the whole history oldest first, without loss or duplicate |

## Left out

- Handlers of sockets and the SFU's operations are atomic and mediasoup's calls succeed: two overlapping first calls of `_getOrCreateCall` (`src/services/sfuService.js:131-143`) would create two routers, and a handler suspended at an `await` would see later changes.
- In `World` the peers of all calls are one map by call and socket; the nested maps are in `SfuService`.
- `connectTransport`, RTP and ICE parameters, DTLS states and the codec lists: opaque to everything modelled. Whether capabilities fit is a parameter of `consume`.
- A client that sends no ack callback gets no snapshot (`src/sockets/sfuEvents.js:45`); here every client does.
- `room:participant-presence`, `room:update-participants`, force-mute and reconnect messages are not in the inboxes; the roster's content is in `PeerMap` and `Roster`. Chat and reaction bodies are not carried on.
- In `World` the database's answer is an arbitrary boolean, so that its theorems hold for every answer. `Backend` has the real answers, for handlers that run one after another; socket handlers that interleave with other requests at their `await`s are not modelled.
- Redis commands that fail leave the mirror behind for good, which the source accepts (`src/services/webrtcService.js:39-41`); the mirror's theorems are about commands that succeed.
- PostgreSQL, Sequelize, Redis and socket.io are assumed to behave as described above. Deadlock detection, foreign keys and isolation anomalies of single statements are not modelled. The password check is an arbitrary boolean; `leftAt` and `joinedAt` are a boolean and the order of rows.
- SlidingWindowBoundIsMet: for windows of at least two ticks, since a shorter one has no room for the second burst; the source's are 5000.
- `getMessages` by offset over a history that changes between two pages; the round trip is for a fixed history.
- The room detail cache: it is deleted but never read.
- Worker death and process restart: the process exits, or everything starts empty.
- Controllers, routes, authentication, recordings, analytics, metrics and logging.
