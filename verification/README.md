# War3 battle tool: a Dafny model of its hard parts

The battle tool lets Warcraft III players find each other in a lobby, join a room and play
over a tunnel: first relayed by the server, then, when a direct QUIC connection comes up,
moved onto it in the middle of the game. This project models the parts whose behaviour is
decided by shared state, loops or byte arithmetic, and proves what they promise.

| file | what it models |
|---|---|
| `Basics.dfy` | bytes, options, flattening of frames, the subsequence relation |
| `Bridge.dfy` | one client bridge: relay, drain with two side buffers, flush, direct |
| `BridgePhases.dfy` | where a bridge stands and what it wrote, told from what it observed alone |
| `Swap.dfy` | two bridges, the relay and the QUIC stream between them, the swap handshake |
| `SwapProgress.dfy` | what can always still happen: a handshake succeeds, frames arrive, a swap completes |
| `Limiter.dfy` | the fixed-window limiter behind the message and the byte limit |
| `RelayHop.dfy` | one direction of the server's relay, refining the steps used in `Swap` |
| `LobbyState.dfy`, `Lobby.dfy` | the two shared maps; one step per lock region of every handler and of the cleanup task |
| `LobbySeats.dfy`, `LobbyHosting.dfy`, `LobbyRuns.dfy` | the invariants of the lobby and its guarantees over all runs |
| `LobbyPlayers.dfy` | versions never mix in a room, web viewers never play |
| `LobbyOrphans.dfy`, `LobbyCases.dfy` | which rooms outlive their hosts; runs that lose a seat and that overrun the caps |
| `LobbyServer.dfy` | the lobby's message arms as methods on the shared maps and the tunnel tables |
| `Pairing.dfy`, `TunnelServer.dfy` | token check, waiting map and one-shot notification of tunnel connections |
| `PairingRace.dfy` | when the two ends of a token meet and when they miss each other |
| `Upnp.dfy` | the one-shot UPnP table |
| `IpPacket.dfy` | Internet checksum (RFC 1071) and the IPv4/UDP packet builder (RFC 791 section 3.1, RFC 768) |
| `StatString.dfy`, `Gameinfo.dfy` | the W3GS stat-string decoder, an encoder for its documented format, and the GAMEINFO parser |
| `ConnectionTask.dfy`, `ClientSession.dfy`, `ClientApp.dfy` | the events of the network task and the client state machine that consumes them |
| `ClientFacts.dfy` | every datum, banner, effect and offer of the client, told from its events and clicks alone |
| `LogPanel.dfy` | the bounded log and its incrementally kept filter index |

How the components are stated: a pure `Step` or `Apply` function says what one atomic step
does (one `select!` arm, one lock region, one channel operation, one event); a run is a
sequence of steps each of which is enabled where it happens (`Legal`, with its state in
`After` or `Run`), in any interleaving. The theorems are about all runs. The classes hold the
program's own fields, and their methods are the program's code, one lock region or arm each.
The lobby server, the tunnel server and the UPnP table record their run in a ghost field:
`Valid()` says that the fields are exactly the outcome of that run, and each method is proved
to add its one step to it, so every theorem about runs is a theorem about those objects. The
methods of the other classes are proved to change the abstract state (`View()`) exactly as their
step says, and where a class keeps an invariant between calls, `Valid()` states it.

What must not happen is paired with what must: a bridge and the client are also described from
the events they observed alone, without their step functions (`BridgePhases.PhaseFromEvents`,
`ClientFacts.AlwaysUpToDate`, `ClientFacts.EffectsFromEvents`), a limiter refuses nothing that
stays within its rate (`Limiter.GentleAccepted`), and a swap can always be completed
(`SwapProgress.SwapCanComplete`).

Where a claim one would like to make is false of the program, the project holds a concrete run
that shows it next to the exact condition under which the claim holds: a lossless swap
(`Swap.PrefixCanFail`, `Swap.LosslessIffNoneStranded`), the two ends of a token meeting
(`PairingRace.SimultaneousArrivalsMiss`, `PairingRace.PairedIffNoOverlap`), rooms going with
their hosts (`LobbyOrphans.OrphanArises`, `LobbyOrphans.OrphanedIffCut`), a plain count of
seats (`LobbyCases.SeatCanBeLost`, `LobbyRuns.QuiescentCount`). Two bounds are shown to be met:
twenty messages within a second (`Limiter.DoubleBurst`) and the overrun of the soft caps
(`LobbyCases.SoftCapsMet`).

Time is a non-decreasing natural number; a deadline that the program waits for is a step that
may happen at any moment. UUIDs are numbers that were not used before. Strings of the byte
formats are byte sequences.

## Model

| member | source | states |
|---|---|---|
| Bridge.StepInv | crates/client/src/net/tunnel.rs:554-757 | every completed arm of every phase keeps the bridge's conservation law and what each phase keeps apart (no QUIC byte before the drain ended, buffers empty outside it) |
| Bridge.RunConserves | crates/client/src/net/tunnel.rs:643-757 | over any run, TCP output is a prefix of WebSocket input followed by QUIC input, and WebSocket output followed by QUIC output is a prefix of TCP input |
| Bridge.TcpBridge.constructor | crates/client/src/net/tunnel.rs:525-551 | a new bridge is relaying and has moved nothing |
| Bridge.TcpBridge.RelayArm | crates/client/src/net/tunnel.rs:555-622 | one arm of the relay loop: whole TCP reads become frames and whole frames go to TCP and the relay goes on; control frames, pings and an abandoned swap change nothing; ends and errors close; a ready swap starts the drain |
| Bridge.TcpBridge.DrainArm | crates/client/src/net/tunnel.rs:652-688 | one arm of the drain loop: WebSocket bytes go to TCP, QUIC and TCP bytes are set aside, anything else ends the drain |
| Bridge.TcpBridge.DirectArm | crates/client/src/net/tunnel.rs:716-756 | one arm of the direct loop is exactly one step |
| Bridge.TcpBridge.RelayPhase | crates/client/src/net/tunnel.rs:554-639 | the first loop runs the bridge until it ends or a swap arrives |
| Bridge.TcpBridge.DrainPhase | crates/client/src/net/tunnel.rs:645-689 | the drain loop runs it until the drain ends |
| Bridge.TcpBridge.FlushQuicBuffer | crates/client/src/net/tunnel.rs:691-698 | buffered QUIC bytes go to TCP before anything later does |
| Bridge.TcpBridge.FlushTcpBuffer | crates/client/src/net/tunnel.rs:700-704 | bytes read from TCP during the drain are the first game bytes on QUIC |
| Bridge.TcpBridge.FlushPhase | crates/client/src/net/tunnel.rs:691-707 | both flushes in their order |
| Bridge.TcpBridge.DirectPhase | crates/client/src/net/tunnel.rs:715-757 | the last loop runs the bridge to its end |
| Bridge.TcpBridge.BridgeTcpWsWithSwap | crates/client/src/net/tunnel.rs:525-767 | the three loops together execute the whole run and end in a state that conserves every stream |
| BridgePhases.PhaseFromEvents | crates/client/src/net/tunnel.rs:554-757 | over every run, each phase is entered and left exactly as a language over the observed events says, and all six streams hold exactly what those events make of them (frames sent, bytes set aside, bytes written before a break) |
| BridgePhases.NextEvents | crates/client/src/net/tunnel.rs:554-757 | after every run, exactly which arms are polled: TCP except between drain and direct copying, the WebSocket until the drain ends, QUIC from the swap on |
| BridgePhases.NeverClosesUnprompted | crates/client/src/net/tunnel.rs:554-757 | a bridge that observed no end of stream, no error and no broken write is not closed |
| BridgePhases.StillRelaying | crates/client/src/net/tunnel.rs:554-622 | a bridge is still relaying if and only if all it observed were whole TCP reads, whole frames, control frames, an abandoned swap and pings |
| Swap.StepInv | crates/client/src/net/tunnel.rs:192-300 | every step of either bridge, of the relay and of either handshake keeps the two-bridge invariant (frames on their way, FIFO QUIC stream, handshake state) |
| Swap.RunInv | crates/client/src/net/tunnel.rs:554-757 | the invariant holds after any interleaving |
| Swap.QuicPrefix | crates/client/src/net/tunnel.rs:198-201 | handshake bytes never mix with game bytes: game bytes read from QUIC are a prefix of those written |
| Swap.SwapAgreement | crates/client/src/net/tunnel.rs:192-214 | the joiner's handshake succeeds only if the host read the byte 0x01, wrote the byte 0x02 and succeeded too; a bridge past the relay had its own handshake succeed |
| Swap.SwapLeavesRelay | crates/client/src/net/tunnel.rs:609-614 | a swap is received in the relay phase only and leaves it; no bridge returns to the relay phase |
| Swap.SwapsAtMostOnce | crates/client/src/net/tunnel.rs:609-639 | a bridge swaps at most once per run |
| Swap.NoReorder | crates/client/src/net/tunnel.rs:643-691 | in every interleaving, both ways, with relay drops and unsynchronised swaps, what one game receives is a subsequence of what the other wrote |
| Swap.OutputIsPrefix | crates/client/src/net/tunnel.rs:643-691 | if the relay dropped nothing and no step stranded a frame (drain left with frames on their way, or a frame sent to a receiver past its drain), the output is a prefix of the input at every moment |
| Swap.FullDrainStrandsNothing | crates/client/src/net/tunnel.rs:643-691 | a receiver that leaves its drain only when the sender had stopped writing WebSocket frames and none was on its way strands nothing |
| Swap.LosslessIff | crates/client/src/net/tunnel.rs:649-704 | once QUIC and the buffers are empty, the missing bytes are exactly those the relay dropped plus those still on the WebSocket path |
| Swap.LosslessIffNoneStranded | crates/client/src/net/tunnel.rs:651-689 | for a settled receiver past its drain, output equals input if and only if the relay dropped nothing and no step of the run stranded a frame |
| Swap.PrefixCanFail | crates/client/src/net/tunnel.rs:684-687 | a run in which the drain deadline passes with a frame on its way: a later byte is delivered without the earlier one |
| SwapProgress.HandshakeOutcome | crates/client/src/net/tunnel.rs:192-300 | over every run a handshake succeeds exactly when its last signal was exchanged and fails exactly when it timed out: a wrong signal is never read |
| SwapProgress.FramesCanArrive | crates/client/src/net/tunnel.rs:591-599 | while a receiver relays or drains, all frames on their way to it can be delivered, in order, whole and without a drop |
| SwapProgress.SwapCanComplete | crates/client/src/net/tunnel.rs:192-300 | from every reachable moment before a swap the run can be continued until both sides copy directly, with every byte not already dropped delivered both ways and nothing left behind |
| SwapProgress.DirectDelivers | crates/client/src/net/tunnel.rs:715-757 | from there whatever one game writes reaches the other whole, over QUIC |
| Limiter.IntervalBound | crates/server/src/ws.rs:45-57 | for any call trace, the weight accepted in any closed interval is at most the cap times two more than its whole seconds |
| Limiter.MessageBound | crates/server/src/ws.rs:16-58 | at most 10*(seconds+2) messages in any interval, at most 20 in any interval shorter than a second |
| Limiter.RelayBound | crates/server/src/tunnel.rs:321-329 | at most 51200*(seconds+2) accepted bytes in any interval |
| Limiter.DoubleBurst | crates/server/src/ws.rs:24-31 | the documented double burst: a trace with 20 accepted messages within 60 ms, so 20 cannot be lowered |
| Limiter.RefusedOnlyIfHeavy | crates/server/src/ws.rs:45-57 | a call is refused only if the calls of some interval shorter than a second weigh more than the cap together with it |
| Limiter.GentleAccepted | crates/server/src/ws.rs:45-57 | if the calls in every interval shorter than a second weigh at most the cap together, every call is accepted, however long the pauses |
| Limiter.GentleClients | crates/server/src/ws.rs:16-58 | both instances: ten messages, 51200 bytes |
| Limiter.RateLimiter.constructor | crates/server/src/ws.rs:38-43 | a new limiter has a full window |
| Limiter.RateLimiter.Allow | crates/server/src/ws.rs:45-57 | accepts exactly when a second has passed since the last refill or a token is left; a refill leaves nine tokens, an accepted call takes one; and this is the window model |
| RelayHop.RunInv | crates/server/src/tunnel.rs:298-337 | frames delivered are a subsequence of the Binary frames received, the queue never exceeds 64 |
| RelayHop.WindowPrefix | crates/server/src/tunnel.rs:321-329 | within one window a frame passes exactly when it and all earlier frames of the window total at most 51200 bytes |
| RelayHop.ByteBudget | crates/server/src/tunnel.rs:321-329 | all bytes that ever passed fit full limits for the seconds gone by plus the current window |
| RelayHop.PassedBound | crates/server/src/tunnel.rs:321-329 | of the frames of any relay run, those that pass within any closed interval total at most 51200*(seconds+2) bytes |
| RelayHop.HopLossless | crates/server/src/tunnel.rs:298-337 | a relay that never gets more than 51200 bytes within a second and never finds its channel full or closed loses nothing |
| RelayHop.HopSimulated | crates/server/src/tunnel.rs:298-337 | every relay run on frames a bridge sends is part of a run of the two-bridge system, with the same queue, the same frames delivered and the missing bytes counted as dropped |
| RelayHop.RelayChannel.TrySend | crates/server/src/tunnel.rs:334-336 | a full or closed channel refuses the frame, otherwise it is queued last |
| RelayHop.RelayChannel.OnBinary | crates/server/src/tunnel.rs:318-337 | the window restarts exactly when a second has passed, the frame is charged, and it is queued exactly when the window's total fits 51200 bytes and the channel has room |
| RelayHop.RelayChannel.OnRecv | crates/server/src/tunnel.rs:300-308 | the receive arm sends the oldest queued frame |
| RelayHop.RelayChannel.Close | crates/server/src/tunnel.rs:334-336 | from then on the channel refuses frames, and those queued stay |
| LobbyState.AppState.TouchHeartbeat | crates/server/src/ws.rs:194-198 | only the heartbeat of an existing player changes; a disconnection mark stays |
| LobbyState.AppState.TakeHosting | crates/server/src/ws.rs:264-271 | unlinks and returns the hosted room in one region |
| LobbyState.AppState.ReserveSeat | crates/server/src/ws.rs:408-421 | check and increment in one region: a seat is taken exactly when one was free |
| LobbyState.AppState.ReplaceJoined | crates/server/src/ws.rs:457-465 | records the joined room and returns the one it replaced |
| LobbyState.AppState.ReleaseSeat | crates/server/src/ws.rs:466-470 | frees a seat of a room that still exists |
| LobbyState.AppState.MarkDisconnected | crates/server/src/state.rs:137-142 | marks an existing player and nothing else |
| LobbyState.AppState.TakePlayer | crates/server/src/state.rs:145-152 | first region of a removal: the entry leaves the player map |
| LobbyState.AppState.ClearRooms | crates/server/src/state.rs:154-162 | second region of a removal: hosted room dropped, joined seat freed |
| LobbyState.AppState.FindExpired | crates/server/src/state.rs:165-183 | lists, once each, exactly the players past their heartbeat or grace limit |
| LobbyState.AppState.RoomSnapshot | crates/server/src/state.rs:90-109 | the filter loop lists, once each, exactly the rooms whose host is present and not marked disconnected |
| LobbyState.AppState.PlayerSnapshot | crates/server/src/state.rs:78-89 | the filter loop lists, once each, exactly the players that are neither marked disconnected nor web viewers |
| LobbySeats.StepInv | crates/server/src/ws.rs:408-470 | every lock region, cancellation and cleanup step keeps the seat ledger of every room |
| LobbyHosting.StepInv | crates/server/src/ws.rs:210-277 | every such step keeps the hosting relation and what each handler position says about it |
| LobbyRuns.SeatLedger | crates/server/src/ws.rs:408-470 | in every reachable state, current_players = host + recorded joiners + reservations and departures in flight + one for each join of the room that the run cut off, and 1 <= it <= max_players <= 12 |
| LobbyRuns.StepLoses | crates/server/src/ws.rs:457-492 | a seat of a room is lost by exactly two steps: cancelling a handler that holds or owes a seat of it, and recording a join of it for a player already removed |
| LobbyRuns.NeverSaturates | crates/server/src/state.rs:158-162 | no saturating_add or saturating_sub ever saturates |
| LobbyRuns.QuiescentCount | crates/server/src/ws.rs:457-492 | a room with nothing in flight counts its host, its joiners and the joins of it that were cut off in the run; so it counts exactly host and joiners if and only if no step of the run cut off a join of that room |
| LobbyRuns.ExactCount | crates/server/src/ws.rs:408-470 | in a run without any mid-join removal or cancellation every quiescent room counts 1 + its joiners |
| LobbyCases.SeatCanBeLost | crates/server/src/ws.rs:480-492 | a run in which a joiner is cancelled with a seat in hand: the room is quiescent and full with nobody in it but its host |
| LobbyRuns.HostingRelation | crates/server/src/ws.rs:210-277 | hosting_room names an existing room of that host; no two rooms share a host, orphans included |
| LobbyRuns.DepartedHostsStayGone | crates/server/src/state.rs:90-109 | once a player was disconnected or removed, its rooms are in no later snapshot and no later player check of a join of one of them passes |
| LobbyPlayers.VersionsNeverMix | crates/server/src/ws.rs:383-470 | in every reachable state whoever joined a room, or is past its check or holds a seat of it, plays the room's version, and so does its host, whose nickname the room carries |
| LobbyPlayers.ViewersNeverPlay | crates/server/src/ws.rs:152-161 | in every reachable state no web viewer hosts or has joined a room |
| LobbyOrphans.OrphanedIffCut | crates/server/src/ws.rs:250-275 | in every reachable state a room has nobody left to remove it if and only if its creation or closing was cut off: its handler was cancelled between inserting and linking or between unlinking and removing, or came to link it after its player was removed |
| LobbyOrphans.OrphansStay | crates/server/src/state.rs:145-157 | a room so cut off is never removed, whatever happens later |
| LobbyOrphans.OrphanArises | crates/server/src/ws.rs:250-254 | a run that leaves such a room behind |
| LobbyRuns.SoftCaps | crates/server/src/ws.rs:145-179 | with at most n live handlers, at most 199 + n rooms and 499 + n players |
| LobbyCases.SoftCapsMet | crates/server/src/ws.rs:145-250 | for every n > 0 a run with at most n live handlers that reaches 199 + n rooms and 499 + n players at once, so neither bound can be lowered |
| LobbyServer.SocketServer.OnConnect | crates/server/src/ws.rs:61-96 | an accepted connection has a handler that is not registered and waits for a message |
| LobbyServer.SocketServer.Elapse | crates/server/src/state.rs:173-179 | time passes for the heartbeat, grace and cooldown ages |
| LobbyServer.SocketServer.OnRegister | crates/server/src/ws.rs:133-152 | refuses repeated registration and a full server, otherwise goes on to the insertion |
| LobbyServer.SocketServer.OnHeartbeat | crates/server/src/ws.rs:194-198 | one step on the shared map |
| LobbyServer.SocketServer.OnCreateRoom | crates/server/src/ws.rs:206-227 | only a registered player without a room goes on |
| LobbyServer.SocketServer.OnCloseRoom | crates/server/src/ws.rs:259-273 | unlinks first and goes on to the removal of that very room |
| LobbyServer.SocketServer.OnJoinRoom | crates/server/src/ws.rs:353-381 | cooldown and room lookup (step 1) |
| LobbyServer.SocketServer.RegisterPlayer | crates/server/src/ws.rs:163-180 | the insertion region of Register |
| LobbyServer.SocketServer.ResumeCreate | crates/server/src/ws.rs:229-254 | cap check, insertion and link of CreateRoom, one region each |
| LobbyServer.SocketServer.ResumeClose | crates/server/src/ws.rs:273-275 | removes the room that was unlinked |
| LobbyServer.SocketServer.Broadcast | crates/server/src/state.rs:74-109 | changes nothing and lists exactly the rooms with a present, unmarked host and exactly the present, unmarked players that are no web viewers; nobody who was ever disconnected or removed is listed, nor any room of theirs |
| LobbyServer.SocketServer.JoinCheck | crates/server/src/ws.rs:383-406 | step 2: goes on to the seat exactly when the joiner is present with the version read from the room and the host is present and not marked, and hands on the host's address |
| LobbyServer.SocketServer.JoinSeat | crates/server/src/ws.rs:408-425 | step 3: goes on exactly when a seat was free |
| LobbyServer.SocketServer.JoinRegisterUpnp | crates/server/src/ws.rs:427-432 | step 4: the fresh token is registered in the UPnP table with the host's address and the joiner |
| LobbyServer.SocketServer.JoinBindToken | crates/server/src/tunnel.rs:85-88 | then the same token is bound to the host's address it is registered with and to the joiner's |
| LobbyServer.SocketServer.JoinCommitEntry | crates/server/src/ws.rs:457-465 | step 5: the player entry names the room, or the seat is lost when the entry is gone |
| LobbyServer.SocketServer.JoinReleaseSeat | crates/server/src/ws.rs:466-472 | then the seat of the replaced room is freed |
| LobbyServer.SocketServer.OnCancel | crates/server/src/ws.rs:480-492 | the receive loop is dropped wherever it is suspended |
| LobbyServer.SocketServer.OnLeave | crates/server/src/ws.rs:494-503 | grace period for players, two-region removal for web viewers |
| LobbyServer.SocketServer.CleanupScan | crates/server/src/main.rs:319-323 | the cleanup task takes the list of expired players |
| LobbyServer.SocketServer.CleanupSweep | crates/server/src/main.rs:325-328 | and removes them one by one, players first |
| LobbyServer.SocketServer.CleanupClear | crates/server/src/state.rs:154-162 | then their rooms and seats |
| Pairing.StepInv | crates/server/src/tunnel.rs:168-278 | every lock region and channel operation keeps who holds whose notify sender and who is whose peer |
| Pairing.CheckedAddress | crates/server/src/tunnel.rs:107-186 | in every run a connection past its check claims host or join, a host connects from the address its token was issued to as host and a joiner from the joiner's |
| Pairing.PairingSafe | crates/server/src/tunnel.rs:168-278 | both ends of a pair carry the same issued token and each claimed host from the token's host IP or join from its joiner IP; the end that arrived first is its peer's peer |
| Pairing.OnePartnerEach | crates/server/src/tunnel.rs:193-239 | no connection is the peer of two others |
| Pairing.PeerForGood | crates/server/src/tunnel.rs:198-278 | a connection never changes its peer |
| Pairing.PairsIff | crates/server/src/tunnel.rs:199-211 | a second arriver pairs exactly when the waiter it took has not given up by then; otherwise both are sent away |
| Pairing.SpentTokenRefused | crates/server/src/tunnel.rs:168-186 | a connection whose check runs after the binding was removed is refused |
| Pairing.PairSpendsToken | crates/server/src/tunnel.rs:199-204 | once a pair exists its token is bound no more |
| Pairing.HostToJoin | crates/server/src/tunnel.rs:108-114 | with at most one verified connection per role and token, a pair is one host and one joiner and the token's only pair |
| PairingRace.StepTrack | crates/server/src/tunnel.rs:168-278 | every step keeps two connections of a token either on their way to a pair or apart for good, and only standing both between take and insert leads from the one to the other |
| PairingRace.PairedIffNoOverlap | crates/server/src/tunnel.rs:192-239 | over every run in which these two are the only ones past the check of their token and neither gives up: once both are through they are a pair if and only if they never stood between take and insert at the same time |
| PairingRace.SimultaneousArrivalsMiss | crates/server/src/tunnel.rs:193-239 | a run in which host and joiner of one token miss each other |
| TunnelServer.SocketTunnels.RegisterToken | crates/server/src/tunnel.rs:85-88 | binds a fresh token to the two IPs |
| TunnelServer.SocketTunnels.Accept | crates/server/src/tunnel.rs:159-166 | a connection arrives with the token and role it claims and is not verified yet |
| TunnelServer.SocketTunnels.CheckBinding | crates/server/src/tunnel.rs:168-186 | verified exactly when the token is bound and the connection is a host from its host IP or a joiner from its joiner IP, refused otherwise |
| TunnelServer.SocketTunnels.RemoveWaiter | crates/server/src/tunnel.rs:193-196 | the entry and its notify sender leave the map together |
| TunnelServer.SocketTunnels.TakeWaiter | crates/server/src/tunnel.rs:192-198 | takes the waiter or finds none |
| TunnelServer.SocketTunnels.RemoveBinding | crates/server/src/tunnel.rs:203-204 | the token can pass no further check |
| TunnelServer.SocketTunnels.NotifyPeer | crates/server/src/tunnel.rs:206-222 | the waiter is told its peer if it still waits, otherwise the taker ends |
| TunnelServer.SocketTunnels.InsertWaiter | crates/server/src/tunnel.rs:226-239 | becomes the waiter; a waiter replaced on the way loses its sender |
| TunnelServer.SocketTunnels.PairingTimeout | crates/server/src/tunnel.rs:254-255 | the wait may end without a peer |
| TunnelServer.SocketTunnels.Withdraw | crates/server/src/tunnel.rs:256-258 | removes the token's entry, whoever put it there |
| TunnelServer.SocketTunnels.OnNotified | crates/server/src/tunnel.rs:244-253 | relays to the peer it was told of, or ends when its sender is gone |
| TunnelServer.SocketTunnels.EndRelay | crates/server/src/tunnel.rs:268-279 | a relay that ends ends its connection |
| TunnelServer.SocketTunnels.CleanWaiters | crates/server/src/tunnel.rs:127-142 | in one region the loop drops exactly the waiters listed for more than 30 seconds, and their tokens are remembered |
| TunnelServer.SocketTunnels.CleanExpiredBindings | crates/server/src/tunnel.rs:144-150 | the loop removes the bindings of the remembered tokens and no others |
| Upnp.OneShot | crates/server/src/ws.rs:313-337 | over any run at most one PeerUPnPAddr per token, asked for by that token's host IP and sent to that token's joiner |
| Upnp.AtMostOneHit | crates/server/src/tunnel.rs:91-105 | a token's lookup succeeds at most once, and not again after it succeeded |
| Upnp.LookupExact | crates/server/src/tunnel.rs:91-105 | a lookup succeeds only for the registered host IP and names the registered joiner; a failed one changes nothing |
| Upnp.KeptWhileYoung | crates/server/src/tunnel.rs:91-154 | over any run an entry younger than ten seconds that was not found yet is still there, and a cleanup leaves no older one |
| Upnp.UpnpTable.Insert | crates/server/src/tunnel.rs:77-84 | one Register step: from now on a lookup of the token finds the joiner from the host's address and from no other, and no other token's lookup changes |
| Upnp.UpnpTable.LookupPending | crates/server/src/tunnel.rs:91-105 | the early returns and the removal are the lookup, and what was found can be found by nobody again |
| Upnp.UpnpTable.OnMapped | crates/server/src/ws.rs:284-351 | one Mapped step: a player is sent the address exactly when the request was accepted, matched and the joiner is online, it is the token's registered joiner, and the token had no message before |
| Upnp.UpnpTable.CleanupExpired | crates/server/src/tunnel.rs:152-154 | the loop is one Cleanup step: it keeps exactly the entries younger than ten seconds |
| IpPacket.FoldQuotient | crates/spike-packet/src/main.rs:157-159 | folding keeps the sum modulo 65535, and gives zero only for zero |
| IpPacket.FoldIsResidue | crates/spike-packet/src/main.rs:157-159 | closed form of the folded sum |
| IpPacket.SumFits | crates/spike-packet/src/main.rs:147-156 | the 32-bit sum cannot overflow up to 65537 words |
| IpPacket.OddPadding | crates/spike-packet/src/main.rs:153-156 | an odd last byte counts as if a zero followed it |
| IpPacket.AllOnesSum | crates/spike-packet/src/main.rs:147-156 | with one word more it can, so that bound is exact |
| IpPacket.StoredChecksumVerifies | crates/spike-packet/src/main.rs:132-134 | storing the checksum in its zeroed aligned field makes the checksum of the whole zero, and no other stored value below 65535 does |
| IpPacket.IpChecksum | crates/spike-packet/src/main.rs:147-161 | the two loops compute the ones' complement of the folded word sum, and beyond 65537 words that of the sum modulo 2^32 |
| IpPacket.LengthsExact | crates/spike-packet/src/main.rs:112-113 | the wrapped 16-bit lengths are the true ones exactly for payloads of at most 65507 bytes |
| IpPacket.HeaderBytes | crates/spike-packet/src/main.rs:114-131 | the header byte by byte: family 2, 0x45, total length wrapped to 16 bits, do not fragment, time to live 128, protocol 17, both addresses |
| IpPacket.UdpBytes | crates/spike-packet/src/main.rs:136-144 | the UDP header byte by byte, with its wrapped length and no checksum, and the payload behind it |
| IpPacket.ParseBuilt | crates/spike-packet/src/main.rs:105-145 | a receiver that checks version, header length, checksum, total length, protocol and UDP length reads back addresses, ports and payload exactly when the payload has at most 65507 bytes |
| IpPacket.BuildPacket | crates/spike-packet/src/main.rs:105-145 | pushing and patching gives that packet: layout, valid header checksum, and readable by that receiver |
| StatString.SlotInBounds | crates/protocol/src/war3.rs:104-119 | n encoded bytes hold n - ceil(n/8) plain bytes, each at its in-bounds slot |
| StatString.DecodedByte | crates/protocol/src/war3.rs:103-119 | plain byte j is the encoded byte at 8*(j/7) + 1 + j%7, or one less when bit j%7+1 of its group's mask at 8*(j/7) is clear |
| StatString.EncodedHasNoZero | crates/protocol/src/war3.rs:82-85 | whatever legal masks are chosen, the encoding contains no zero byte |
| StatString.RoundTrip | crates/protocol/src/war3.rs:99-119 | for every byte string and every legal choice of masks, decoding the encoding gives the string |
| StatString.EveryStringIsAnEncoding | crates/protocol/src/war3.rs:99-119 | a zero-free string re-encodes to itself from its decoding and its own masks, unless it ends in a lone mask byte |
| StatString.GameMasksFit | crates/protocol/src/war3.rs:99-102 | every byte string has legal masks: odd bytes direct, even bytes raised |
| StatString.DecodeLoop | crates/protocol/src/war3.rs:103-119 | the nested loops stay in bounds, never subtract from zero, and decode every position |
| Gameinfo.FirstZero | crates/protocol/src/war3.rs:91-93 | finds the first zero byte, or none exactly when there is none |
| Gameinfo.TitleIsUnique | crates/protocol/src/war3.rs:139-146 | if a path reads as directory, backslash, title, .w3m runs, .w3x runs, its title is what the parser returns |
| Gameinfo.TitleExists | crates/protocol/src/war3.rs:139-146 | and every path has such a reading |
| Gameinfo.DecodeStatString | crates/protocol/src/war3.rs:86-149 | the early returns and the decoding loop give the title the format defines |
| Gameinfo.MapTitleFound | crates/protocol/src/war3.rs:87-127 | a title is found exactly when a terminated string of at least 16 bytes starts there |
| Gameinfo.Refused | crates/protocol/src/war3.rs:56-64 | a packet is refused exactly when it is short, opens wrongly or has an unterminated name |
| Gameinfo.GameinfoRoundTrip | crates/protocol/src/war3.rs:56-149 | for any name and path without zero bytes, any settings, separator, trailing bytes and legal masks, parsing the built packet gives the name's text and the title of the path's text, whatever the text conversion does |
| Gameinfo.GameinfoRoundTripGame | crates/protocol/src/war3.rs:56-149 | the same with the masks that always exist |
| Gameinfo.GameinfoRoundTripAscii | crates/protocol/src/war3.rs:56-149 | for ASCII names and paths the parser returns the name itself and the path's title |
| ConnectionTask.StepInv | crates/client/src/net/discovery.rs:43-72 | every turn of the reconnect loop keeps the event stream in its language and its attempt numbers right |
| ConnectionTask.NetworkTask.Connect | crates/client/src/net/discovery.rs:44-68 | one connection attempt: announce the session, or the failure with its number |
| ConnectionTask.NetworkTask.ForwardMessage | crates/client/src/net/discovery.rs:104-119 | a server message is forwarded in order |
| ConnectionTask.NetworkTask.EndSession | crates/client/src/net/discovery.rs:55-68 | a lost session is announced, then the retry unless the UI is gone |
| ClientSession.StreamInLanguage | crates/client/src/net/discovery.rs:43-72 | every stream the network task sends is in the language; each Reconnecting carries the number of failures in a row |
| ClientSession.SessionIsolation | crates/client/src/app.rs:350-400 | over every event stream and every click: outside a session no player id, players or rooms; while retrying or before the first session nothing in flight; a pending join only inside a session |
| ClientSession.CaughtUp | crates/client/src/app.rs:367-397 | once all events are processed the client agrees with the network task, and shows no spinner while the network task is retrying |
| ClientSession.JoinerTunnelsPaid | crates/client/src/app.rs:532-563 | joiner tunnels never outnumber sent joins, injections and passed UPnP addresses never outnumber joiner tunnels |
| ClientSession.TunnelAnswersThisSession | crates/client/src/app.rs:538-547 | a joiner tunnel starts only for a join sent earlier in the very same session and awaited without a break since |
| ClientSession.RegistersOnConnect | crates/client/src/app.rs:353-366 | each session starts unregistered, so a configured client registers at once |
| ClientFacts.BannerLatest | crates/client/src/app.rs:350-642 | over every run the banner is exactly what events, messages, clicks and captures call for, by a reading of the history alone |
| ClientFacts.AlwaysUpToDate | crates/client/src/app.rs:350-642 | over every run each field of the client is the latest of its kind in the history: lists, id and connection of this session, addresses, kept game data, tunnel, name, tab, dialog, transport, diagnostics |
| ClientFacts.EffectsFromEvents | crates/client/src/app.rs:250-642 | over every run the client sent and started exactly what its history calls for, in that order, each with the latest data |
| ClientFacts.JoinResultTaken | crates/client/src/app.rs:532-563 | a result is ignored unless a join is pending; refused it shows failure and starts nothing; accepted it shows success and starts a joiner tunnel exactly when token and game data came with it |
| ClientFacts.SuccessExplained | crates/client/src/app.rs:532-563 | success is shown only if an accepted result was taken while a join was pending |
| ClientFacts.HostTunnelStarts | crates/client/src/app.rs:282-307 | a host tunnel carries its token, the last peer address received since a tunnel was started and the last address the client was observed at, in that order |
| ClientFacts.JoinOffered | crates/client/src/app.rs:805-964 | after every run a room can be joined exactly when the lobby is in view and the latest list has it, of someone else and not full |
| ClientFacts.ClicksOffered | crates/client/src/app.rs:805-964 | after every run closing is offered exactly to hosts, opening the dialog to everyone else, creating while the dialog is open, dismissing once nothing is in flight |
| ClientApp.War3App.StartJoinerTunnel | crates/client/src/app.rs:250-279 | takes the peer address, replaces the tunnel and the UPnP sender, keeps the GAMEINFO for the proxy |
| ClientApp.War3App.StartHostTunnel | crates/client/src/app.rs:282-307 | takes the peer address and replaces the tunnel |
| ClientApp.War3App.StartGameinfoInjection | crates/client/src/app.rs:310-348 | consumes the kept GAMEINFO; injects only if there was one |
| ClientApp.War3App.ProcessNetworkEvents | crates/client/src/app.rs:350-400 | the loop consumes the events in order, and events in the order the network task sends them keep the invariant of the client |
| ClientApp.War3App.ProcessNetworkEvent | crates/client/src/app.rs:352-399 | each arm is one step |
| ClientApp.War3App.HandleServerMessage | crates/client/src/app.rs:506-642 | each message arm is one step |
| ClientApp.War3App.HandleJoinResult | crates/client/src/app.rs:532-563 | ignored unless a join is pending; then success or failure is shown as the result says, and a joiner tunnel starts exactly for an accepted result with token and game data |
| ClientApp.War3App.HandleError | crates/client/src/app.rs:622-639 | an error is surfaced without overwriting a finished action |
| ClientApp.War3App.ProcessTunnelEvent | crates/client/src/app.rs:418-503 | each tunnel event is one step and keeps the invariant |
| ClientApp.War3App.ShowConnectionOverlay | crates/client/src/app.rs:644-683 | covers the lobby exactly while retrying or before the first connection |
| ClientApp.War3App.CheckHosting | crates/client/src/app.rs:218-227 | one hosts exactly when the player list says so of the own id |
| ClientApp.War3App.Update | crates/client/src/app.rs:805-964 | a click acts exactly when tab, overlay, banner, dialog and lobby offer it, and keeps the invariant |
| LogView.ContainsExact | crates/client/src/ui/log_panel.rs:61-64 | the search matches exactly when the text occurs at some position |
| LogView.PassesExact | crates/client/src/ui/log_panel.rs:54-67 | an entry passes exactly when its level is selected and the search text occurs in it at some position |
| LogView.IndexUnique | crates/client/src/ui/log_panel.rs:69-76 | there is only one increasing index of exactly the passing entries |
| LogView.RowsAreFiltered | crates/client/src/ui/log_panel.rs:175-198 | the rows read through the index are the plain filter of the entries |
| LogView.PanelSound | crates/client/src/ui/log_panel.rs:29-112 | after any operations the entries are the newest pushed since the last clear up to the clamped bound, the index is that index, and the rows are the filtered entries |
| LogView.SettingsLatest | crates/client/src/ui/log_panel.rs:82-109 | after any operations the panel filters by the level last selected and the text of the search box, empty when closed |
| LogView.LogPanel.constructor | crates/client/src/ui/log_panel.rs:17-26 | an empty panel with its bound clamped to 1000..5000 |
| LogView.LogPanel.EntryPassesFilter | crates/client/src/ui/log_panel.rs:54-67 | verbosity first, then the search text |
| LogView.LogPanel.RebuildFilteredIndices | crates/client/src/ui/log_panel.rs:69-76 | the rebuild loop gives the index of the current entries |
| LogView.LogPanel.Push | crates/client/src/ui/log_panel.rs:29-47 | the eviction loop with one rebuild, or the incremental append |
| LogView.LogPanel.Clear | crates/client/src/ui/log_panel.rs:49-52 | entries and index are emptied together |
| LogView.LogPanel.ClickVerbosity | crates/client/src/ui/log_panel.rs:82-90 | a new verbosity rebuilds the index |
| LogView.LogPanel.TypeQuery | crates/client/src/ui/log_panel.rs:95-104 | an edited search text rebuilds the index |
| LogView.LogPanel.ClickCloseSearch | crates/client/src/ui/log_panel.rs:105-109 | closing the search clears its text and rebuilds the index |

## Left out

- I/O and libraries: sockets, TLS and QUIC set-up, WebSocket framing, JSON, URL and address parsing, logging back ends, configuration files and the rendering of the user interface.
- Timers: deadlines that a handler waits for (drain, handshake, pairing, the web viewer's time-out, the cleanup period) may fire at any moment in the model; heartbeat, grace, waiting and UPnP ages are compared with the clock as in the code.
- Latency measurement and byte totals, which are only displayed or logged.
- Per-IP connection counters, the length limits of messages other than the 2..12 player bound, and the delays between reconnection attempts.
- The address safety test and `String::from_utf8_lossy`: their results are inputs of the model.
- Order of delivery of lobby messages to clients and full client channels: the lobby theorems speak about the server's maps and the snapshots taken from them.
- The relay's idle time-out and close propagation: a bridge or relay direction may stop at any moment, and no claim is made about when the other side notices.
- That the joiner swapped whenever the host did is not claimed: the joiner's handshake may time out after the host's succeeded.
- Bytes written before a failing write are any prefix of the data; partial WebSocket frames do not reach the peer.
- Limiter.RateLimiter.Allow: elapsed time is compared as whole nanoseconds, while the code compares its floating-point image with 1.0.
- IpPacket.BuildPacket: 16-bit additions wrap as in a release build; a debug build stops on payloads beyond 65507 bytes.
- RelayHop.HopSimulated: the frames are of 1 to 8192 bytes, the sizes a bridge sends; `RelayHop.RunInv` and the byte bounds hold for frames of any size.
- RelayHop.PassedBound: the calls come at non-decreasing times; a call that opens no window may take its second clock reading equal to its first.
- PairingRace.PairedIffNoOverlap: runs in which a connection gives up waiting or is cleaned up are outside it; `Pairing.PairsIff` covers them.
- ConnectionTask.StepInv: the attempt counter is unbounded, while the code's has 32 bits.
- LogView.LogPanel.TypeQuery: text is compared code unit by code unit, and the three verbosity levels are numbers.
