# Verified model of the VPN client's hard logic

This project models, in Dafny 4.11, six parts of a Qt VPN client and its privileged helper, and
proves what they keep over every run and every input.

| part | source | files |
|---|---|---|
| connection lifecycle | `client/vpnconnection.cpp`, `client/protocols/vpnprotocol.cpp` | `FailureLedger`, `Lifecycle`, `LifecycleRuns`, `LifecycleTheorems`, `RequestTheorems`, `DisconnectTheorems`, `SpentAttempts`, `LifecycleLaws`, `LifecycleWitnesses`, `VpnConnection` |
| daemon tunnel bookkeeping | `client/daemon/daemon.cpp` | `Tunnel`, `TunnelProofs`, `TunnelLaws`, `DaemonService` |
| client/daemon socket | `client/mozilla/localsocketcontroller.cpp`, `client/daemon/daemonlocalserverconnection.cpp` | `Framing`, `SocketLink`, `SocketLinkProofs`, `SocketLinkLaws`, `LocalSocketController` |
| XRay configuration rewriting | `client/protocols/xrayprotocol.cpp` | `XrayConfig`, `XrayProofs`, `XrayMeaning`, `XrayLaws`, `XrayRewrites` |
| checksum, ping ring, addresses | `client/mozilla/pingsender.cpp`, `client/mozilla/pinghelper.cpp`, `client/configurators/wireguard_configurator.cpp` | `InternetChecksum`, `PingHelper`, `AddressAllocator` |
| settings cache | `client/secure_qsettings.cpp` | `SecureSettings` |
| shared types | | `Basics` |

The two event-driven objects are modelled twice. A pure `Step` function over a record gives one
case per event; the theorems about all runs are proved about it. A class with the object's members
and one method per slot is proved to do exactly what `Step` says, so the theorems hold of the
object. The `Laws` modules write out, in literal states, times, ports and answers, what each
operation does in every case. `dafny verify dfyconfig.toml` checks everything.

## Assumptions about the environment

- The clock is monotone and past the first second of the epoch (the code uses 0 as "no window").
- Single-shot timers fire in the order of their deadlines, at or after them.
- A posted deferred start is the next event processed.
- A protocol told to stop for a handover reports only Disconnecting and terminal states from then
  on, possibly already inside `stop()`.
- `start()` may run a nested event loop: any other event may be delivered before it returns. A
  signal queued before its sender was detached is still delivered.
- Only this code writes the safe-mode deadline.
- Exclusions are plain host addresses, so that the two parsers used for adding and releasing agree;
  backend deletions take effect.
- A socket error empties both channels; a retry timer runs only while there is no connection. Half a
  message in front of a whole one is not a JSON object.

## What turned out not to hold

Where the failure depends on a condition, the lemmas named state it exactly; those whose name ends in
`Witness`, and those of `LifecycleWitnesses`, give a concrete input.

- The 6 s grace window after a disconnect holds back only the first connect request: a second one
  right behind it starts at once (`RequestTheorems.GraceWindowIsSpentByOneRequest`,
  `LifecycleWitnesses.GraceWindowSpent`).
- A user disconnect outside a start can be followed by a start without a new request. With recovery
  attempts left after it, and a last request that has a protocol and can be retried, this is possible if and
  only if a posted connect is outstanding; or a grace timer, an unreturned restart, or a connecting
  state or error in the signal queue finds the user-disconnect flag clear. It is clear when the
  disconnect had a protocol to stop or one was being stopped, and after a queued Connected or
  Disconnecting (`DisconnectTheorems.DisconnectIsFinalExactlyWhen`,
  `LifecycleWitnesses.DisconnectRevived`, `LifecycleWitnesses.WaitingDisconnectRevived`).
- With both attempts still used up after it, a start call that is still outstanding has the same effect, and
  failures only if the counter is reset first: by a Connected before one of them, or, together with
  those the failure window has counted, by four failures, three of which lead through safe mode
  (`SpentAttempts.SpentDisconnectIsFinalExactlyWhen`, `LifecycleWitnesses.SpentDisconnectRevived`). The
  two cases cover every disconnect outside a start; one that is itself the third failure of the window
  resets the attempts and belongs to the first.
- A user disconnect made while a protocol is starting is lost if the protocol's Connected signal is
  delivered before the start returns (`RequestTheorems.ConnectedSignalLosesDisconnect`,
  `RequestTheorems.DisconnectForgottenExactlyBy`, `LifecycleWitnesses.DisconnectLost`).
- The state can be Connected with no protocol running: a Connected signal overtaken by a disconnect, or
  a handover that ends after one (`LifecycleTheorems.ConnectedLosesProtocolExactlyBy`,
  `LifecycleWitnesses.ConnectedWithoutProtocol`).
- The guard for a user disconnect in `handleSwitchWatchdogTimeout` is unreachable
  (`LifecycleTheorems.SwitchWatchdogAlwaysRestarts`).
- Reference counts of exclusion routes are wrong after a refused exclusion or a failed peer
  deletion (`TunnelProofs.RefusedExclusionBreaksCounts`, `TunnelProofs.RefusedExclusionWitness`,
  `TunnelProofs.RefusedPeerDeletionBreaksCounts`, `TunnelProofs.RefusedPeerDeletionWitness`).
- A comment in `localsocketcontroller.cpp` says a controller that lost its socket can make a new
  connection; nothing in the code does, so it never sends an activation again
  (`SocketLinkProofs.LostSocketIsFinal`, `SocketLinkProofs.LostSocketWitness`). The model follows the code.
- The client keeps its read buffer when the socket is lost. If that happens inside a message, the first
  message on the next socket is lost; if that is the status answer, the client never becomes ready
  until the status is polled again (`Framing.CutStreamGarblesOneMessage`,
  `SocketLinkProofs.PartialLineLosesStatus`, `SocketLinkProofs.StalledWitness`).
- Rewriting an XRay configuration can change the relative order of outbounds other than the
  transport (`XrayProofs.OrderOfOthers`, `XrayProofs.OrderOfOthersWitness`).
- QUIC is not always blocked: a UDP/443 rule that leads elsewhere, or an outbound that has the block tag
  and is no blackhole, lets it through (`XrayProofs.QuicBlockedExactlyWhen`,
  `XrayProofs.QuicNotBlockedWitness`).
- A reply with sequence number 0 before the first ping is accepted (`PingHelper.Pinger.PingReceived`).
- An unencrypted setting that begins with the magic prefix reads differently after a restart, unless
  it decrypts to itself (`SecureSettings.Settings.PutRestartGet`); under every cipher there is such a
  value (`SecureSettings.MagicPrefixIsNotTransparent`, `SecureSettings.LosesSealedBytes`).

## Model

| member | source | states |
|---|---|---|
| LifecycleRuns.StepKeepsInv | client/vpnconnection.cpp:245-983 | every event keeps the joint invariant of watchdogs, fence, start flags, recovery and failure bookkeeping |
| LifecycleRuns.RunKeepsInv | client/vpnconnection.cpp:245-983 | the invariant holds after every finite run of events |
| LifecycleRuns.SetStateStep | client/vpnconnection.cpp:815-863 | a state change restores the whole invariant and re-arms the watchdog for the new state |
| LifecycleRuns.ConnectStep | client/vpnconnection.cpp:245-380 | a connect request, by any of its five ways out, keeps the invariant |
| LifecycleTheorems.NoUnwatchedTransientState | client/vpnconnection.cpp:865-924 | in every reachable state the state watchdog is armed exactly in Preparing, Connecting, Reconnecting and Disconnecting, for at most 15 s; a firing outside protocol start ends in Disconnected or Error and drops the protocol, one during start re-arms for 5 s |
| LifecycleTheorems.HandoverFence | client/vpnconnection.cpp:283-349 | the switch watchdog runs exactly while the fence is set, within 4 s and before the state watchdog, which cannot fire meanwhile; reconnect is a no-op; nothing is built; the handover ends exactly by a terminal report, that watchdog or a disconnect |
| LifecycleTheorems.ConnectedLosesProtocolExactlyBy | client/vpnconnection.cpp:725-863 | Connected means a running protocol until, exactly, a Connected signal is delivered after its protocol is gone, or a handover ends in that state |
| LifecycleTheorems.DisconnectClears | client/vpnconnection.cpp:725-804 | whatever was going on, a disconnect leaves no fence, queued request or recovery, and outside a start no protocol |
| LifecycleTheorems.SwitchWatchdogAlwaysRestarts | client/vpnconnection.cpp:461-494 | when the switch watchdog fires no user disconnect is pending, and it starts a protocol from the last request |
| LifecycleTheorems.HistoryIsExact | client/vpnconnection.cpp:835-862 | the recorded history grows by exactly the observable effects: Connected, failed transition, safe-mode deadline written, recovery timer started with its delay |
| RequestTheorems.LatestRequestWins | client/vpnconnection.cpp:253-262 | in every run, whatever starts a protocol, it is built from the most recent connect request |
| RequestTheorems.RequestDuringStartIsReposted | client/vpnconnection.cpp:426-446 | a request made during a start is posted again when the start returns, failed or not, unless a disconnect intervenes, and carries the latest request |
| RequestTheorems.DisconnectForgottenExactlyBy | client/vpnconnection.cpp:815-863 | during a start a requested disconnect stays requested unless, exactly, a connect request comes or Connected is delivered, or Disconnected while disconnecting |
| RequestTheorems.DisconnectDuringStartIsHonoured | client/vpnconnection.cpp:430-434 | without such a step the disconnect is posted when the start returns |
| RequestTheorems.ConnectedSignalLosesDisconnect | client/vpnconnection.cpp:835-842 | a Connected delivered during the start makes the disconnect vanish and the connection stay up |
| RequestTheorems.ScheduledReconnectIsBacked | client/vpnconnection.cpp:932-954 | a scheduled reconnect has a running timer, no pending disconnect, a usable request and an expired safe mode |
| RequestTheorems.RecoveryBudget | client/vpnconnection.cpp:926-983 | between resets at most two reconnects, after 1200 then 2400 ms; none within 1800 s of entering safe mode |
| RequestTheorems.SafeModeWitness | client/vpnconnection.cpp:956-983 | each safe-mode entry is preceded by three failed transitions within 180 s, with no Connected from the first of them on |
| RequestTheorems.BurstCounterIsExact | client/vpnconnection.cpp:956-967 | the burst counter is the number of failures since the window opened and stays below 3 |
| DisconnectTheorems.DrainedDisconnectIsFinal | client/vpnconnection.cpp:725-804 | with no timer, posted call or unreturned start outstanding and no connecting state or error in the queue, no run after a disconnect builds a protocol or schedules a reconnect before the next request |
| DisconnectTheorems.DisconnectIsFinalExactlyWhen | client/vpnconnection.cpp:725-863 | after a disconnect outside a start that leaves recovery attempts, some run without a new request schedules a reconnect, or starts a protocol, if and only if the last request allows it and there is a posted connect, or a grace timer, unreturned restart, or connecting state or error in the queue that finds the user-disconnect flag clear |
| DisconnectTheorems.DisconnectShape | client/vpnconnection.cpp:725-804 | what a disconnect outside a start leaves: the flag stays set without a protocol to stop, and interrupting a connecting state is itself a failure |
| DisconnectTheorems.ReviveOutcome | client/vpnconnection.cpp:351-380 | from an idle connection under the flag there is a run to a start or a scheduled reconnect whenever the condition holds |
| SpentAttempts.SpentDisconnectIsFinalExactlyWhen | client/vpnconnection.cpp:725-983 | the same for a disconnect that leaves both attempts used up: a start if and only if a start call that finds the flag clear is outstanding, or the counter can be reset with a failure left, by Connected or by four failures including those counted in the window |
| SpentAttempts.ExhaustedStep | client/vpnconnection.cpp:844-983 | with too few failures left every event but a request leaves too few |
| SpentAttempts.ResetOutcome | client/vpnconnection.cpp:891-983 | with enough failures there is a run through safe mode to a scheduled reconnect |
| DisconnectTheorems.QuietStep | client/vpnconnection.cpp:245-983 | every event but a request keeps a drained connection from building or scheduling anything |
| DisconnectTheorems.SignalsRevive | client/vpnconnection.cpp:844-924 | from an idle connection with a connecting state or error anywhere in the queue there is a run to a scheduled reconnect |
| LifecycleWitnesses.DisconnectLost | client/vpnconnection.cpp:428-459 | a run of five events in which a disconnect made during a start is lost and the tunnel stays up |
| LifecycleWitnesses.DisconnectRevived | client/vpnconnection.cpp:725-954 | a run of nine events in which a new protocol is built after the disconnect without a request |
| LifecycleWitnesses.WaitingDisconnectRevived | client/vpnconnection.cpp:351-380 | a run in which a request waiting out the grace window is disconnected and starts all the same |
| LifecycleWitnesses.SpentDisconnectRevived | client/vpnconnection.cpp:725-983 | a run in which both attempts are used up when the user disconnects, and Connected and Error left in the queue bring the connection back |
| LifecycleWitnesses.GraceWindowSpent | client/vpnconnection.cpp:356-374 | a disconnect and two requests at the same instant: the second one starts |
| LifecycleWitnesses.ConnectedWithoutProtocol | client/vpnconnection.cpp:725-842 | a run that ends in Connected with no protocol |
| RequestTheorems.GraceWindow | client/vpnconnection.cpp:351-379 | with no protocol in the way a request starts at once unless the last disconnect is under 6 s old; then it waits for the rest, at least 50 ms |
| RequestTheorems.GraceWindowIsSpentByOneRequest | client/vpnconnection.cpp:356-374 | a second request inside the window starts at once |
| LifecycleLaws.RequestLaw | client/vpnconnection.cpp:245-380 | a request outside a start begins a handover exactly when the running protocol is connecting, connected, reconnecting or disconnecting: fenced, detached, given 4000 ms, nothing built; any other protocol is dropped without a fence |
| LifecycleLaws.HandoverBegins | client/vpnconnection.cpp:283-349 | the whole effect of such a request, for every report inside stop() |
| LifecycleLaws.StartsWithoutHandover | client/vpnconnection.cpp:349-427 | otherwise, outside the 6 s window, a protocol is built from the request if and only if its container has one and no rules are missing; if not, Error |
| LifecycleLaws.RequestWaitsForStart | client/vpnconnection.cpp:258-262 | during a start a request is only remembered |
| LifecycleLaws.NetworkChangeLaw | client/vpnconnection.cpp:676-719 | a network change restarts an established, unfenced connection: Reconnecting, 15 s, one restart more, the reports the filter lets through queued; in every other case nothing happens |
| LifecycleLaws.ReportLaw | client/protocols/vpnprotocol.cpp:76-96 | a report is filtered, ends a handover, or is queued exactly while the protocol is listened to |
| LifecycleLaws.FailureLaw | client/vpnconnection.cpp:844-983 | the third failure within 180 s enters safe mode for 1800 s; any other is retried after 1200 or 2400 ms exactly when nothing forbids it |
| LifecycleLaws.QuietChangeLaw | client/vpnconnection.cpp:815-863 | every other state change, member by member |
| LifecycleLaws.PostponedStartLaw | client/vpnconnection.cpp:310-373 | the end of a handover starts the last request; a grace timer only with no disconnect pending and no protocol there |
| LifecycleLaws.StartReturnsLaw | client/vpnconnection.cpp:428-459 | a returning start: posted disconnect, else posted request, else the failure, else 15 s more for a connecting state |
| LifecycleLaws.RestartReturnsLaw | client/vpnconnection.cpp:707-719 | a successful restart changes nothing more, a failed one is an error |
| LifecycleLaws.RecoveryLaw | client/vpnconnection.cpp:84-92 | the recovery timer asks for the last request again exactly while the reconnect is scheduled |
| FailureLedger.FailureKeepsFaith | client/vpnconnection.cpp:956-983 | counting a failure keeps the counters equal to what the history says, including the entry into safe mode |
| FailureLedger.RetryKeepsFaith | client/vpnconnection.cpp:932-954 | planning a reconnect keeps the attempt counter and the delays justified by the history |
| FailureLedger.WindowWitness | client/vpnconnection.cpp:958-967 | three counted failures in a window are three distinct entries of the history within 180 s |
| VpnConnectionObject.VpnConnection.constructor | client/vpnconnection.cpp:73-95 | a new object is the initial state and satisfies the invariant |
| VpnConnectionObject.VpnConnection.SetConnectionState | client/vpnconnection.cpp:815-863 | refines the state change on which all run theorems rest: watchdog, budget reset, failure branch and flag clearing, with the Reconnecting exception |
| VpnConnectionObject.VpnConnection.ArmStateWatchdog | client/vpnconnection.cpp:865-889 | the deadlines the watchdog invariant is about: 15 s in connecting states, 12 s in Disconnecting, stopped otherwise |
| VpnConnectionObject.VpnConnection.RegisterFailure | client/vpnconnection.cpp:956-983 | refines the failure step that keeps window and burst equal to the history and writes the safe-mode deadline at the third failure |
| VpnConnectionObject.VpnConnection.ScheduleRecoveryReconnect | client/vpnconnection.cpp:932-954 | refines the retry step whose budget and delays are justified by the history |
| VpnConnectionObject.VpnConnection.ProtocolReport | client/protocols/vpnprotocol.cpp:76-96 | a report passes the protocol's own filter, then ends the handover if the fence is set, or is queued while attached |
| VpnConnectionObject.VpnConnection.ConnectToVpn | client/vpnconnection.cpp:245-380 | refines the request step of the run theorems: queue during a start, fence a live protocol, drop a dead one, wait out the grace window, or start |
| VpnConnectionObject.VpnConnection.StartNewConnection | client/vpnconnection.cpp:382-427 | refines the only step that builds a protocol: blocked by missing rules, Error without a factory result, otherwise built from the given request |
| VpnConnectionObject.VpnConnection.FinishStart | client/vpnconnection.cpp:428-459 | a disconnect requested meanwhile is posted first, then a connect request, then the error is reported or the watchdog re-armed |
| VpnConnectionObject.VpnConnection.HandleSwitchWatchdogTimeout | client/vpnconnection.cpp:461-494 | clears the fence, drops the old protocol and starts from the last request |
| VpnConnectionObject.VpnConnection.ReconnectToVpn | client/vpnconnection.cpp:676-719 | ignored without a protocol, during a handover and outside Connected/Reconnecting |
| VpnConnectionObject.VpnConnection.DisconnectFromVpn | client/vpnconnection.cpp:725-804 | cancels recovery, queued request and handover in every case; defers the stop during a start; otherwise no protocol remains |
| VpnConnectionObject.VpnConnection.HandleStateWatchdogTimeout | client/vpnconnection.cpp:891-924 | refines the firing of which NoUnwatchedTransientState says where it ends |
| VpnConnectionObject.VpnConnection.HandleRecoveryTimeout | client/vpnconnection.cpp:84-92 | reconnects with the last request unless the schedule was cancelled in the meantime |
| VpnConnectionObject.VpnConnection.HandleGraceTimeout | client/vpnconnection.cpp:363-373 | starts unless disconnected or already running |
| VpnConnectionObject.VpnConnection.Deliver | client/vpnconnection.cpp:73-983 | whatever the event loop delivers, the object takes the modelled step and keeps the invariant |
| TunnelProofs.ReferenceCountsAreSafe | client/daemon/daemon.cpp:252-278 | in every run of activations, switches and deactivations, failed ones included, counted addresses are exactly the installed exclusions, each counted at least once and at least as often as live connections list it |
| TunnelProofs.PerformCovered | client/daemon/daemon.cpp:56-201 | one call, on any path and with any failure, keeps the reference counts |
| TunnelProofs.ReleaseAssertionHolds | client/daemon/daemon.cpp:267-278 | the assertion in delExclusionRoute holds at every release of a switch, whatever the backend refuses during it |
| TunnelProofs.DeleteCounts | client/daemon/daemon.cpp:588-590 | releasing a list takes one reference per mention and always finds the address |
| TunnelProofs.AddCounts | client/daemon/daemon.cpp:159-161 | adding a list counts every mention in it |
| TunnelProofs.KnownAddsCount | client/daemon/daemon.cpp:252-259 | an address that is counted already gains every mention, whatever is refused |
| TunnelProofs.RefusedExclusionBreaksCounts | client/daemon/daemon.cpp:56-201 | after an activation that records its configuration, by any of the three paths, or a switch that fails later on, the counts are right if and only if no backend add was refused; a failed bring-up and a switch that fails at the new peer keep them |
| TunnelProofs.RefusedExclusionWitness | client/daemon/daemon.cpp:252-278 | a refused exclusion: the activation succeeds, the counts are wrong and the release of the next switch violates the assertion |
| TunnelProofs.RefusedPeerDeletionWitness | client/daemon/daemon.cpp:587-605 | a switch that cannot delete the old peer leaves a live connection without its exclusion |
| TunnelProofs.RefusedPeerDeletionBreaksCounts | client/daemon/daemon.cpp:587-605 | after a failed peer deletion the counts are right if and only if no address loses more references than it had to spare, with or without refused adds |
| TunnelProofs.InstalledIsConfigured | client/daemon/daemon.cpp:56-201 | single hop, succeeding backend: after any activation path peers, routes and exclusions are exactly those of the new configuration, and deactivation leaves nothing |
| TunnelProofs.DeactivateExact | client/daemon/daemon.cpp:493-536 | deactivation returns to the initial state |
| TunnelProofs.CommonExclusionStays | client/daemon/daemon.cpp:570-590 | an exclusion common to old and new configuration is installed at every point of a switch, whatever the backend refuses |
| TunnelLaws.BringUpAnswer | client/daemon/daemon.cpp:129-200 | a first activation succeeds if and only if interface, configuration, peer, resolvers where the hop needs them, every range and the hook are accepted; then it is recorded with all ranges routed, otherwise nothing is |
| TunnelLaws.BringUpRoutes | client/daemon/daemon.cpp:183-188 | the routes left: the old ones and the new ones up to the first refusal |
| TunnelLaws.SwitchAnswer | client/daemon/daemon.cpp:80-114 | the same for a switch, whose routes may be refused and which records the configuration as soon as the peers are changed |
| TunnelLaws.SwitchRoutesAnswer | client/daemon/daemon.cpp:575-596 | the routes a switch leaves |
| TunnelLaws.DeactivateAnswer | client/daemon/daemon.cpp:493-536 | a refused hook changes nothing; otherwise exactly what the connections and counts held is taken down |
| TunnelLaws.ReplaceAnswer | client/daemon/daemon.cpp:112-127 | a change of identity succeeds if and only if both halves do |
| DaemonService.Service.AddExclusionRoute | client/daemon/daemon.cpp:252-265 | only the first reference reaches the backend |
| DaemonService.Service.DelExclusionRoute | client/daemon/daemon.cpp:267-278 | only the last reference reaches the backend; a release whose assertion fails is counted, and does what the code does without assertions |
| DaemonService.Service.SwitchServer | client/daemon/daemon.cpp:558-606 | the switch as specified; from safe counts no assertion fails and at no intermediate step is a range or exclusion common to both configurations uninstalled |
| DaemonService.Service.Deactivate | client/daemon/daemon.cpp:493-536 | the cleanup loops remove the routes, peers and exclusions of all connections |
| DaemonService.Service.BringUp | client/daemon/daemon.cpp:129-200 | each failing backend call leaves exactly what was done before it |
| DaemonService.Service.Activate | client/daemon/daemon.cpp:56-201 | the self-recursive activation as specified; from safe reference counts no assertion fails, and they stay safe unless a first exclusion or the deletion of a peer is refused |
| Framing.LineReader.ReadClient | client/mozilla/localsocketcontroller.cpp:401-427 | hands out the commands of buffer plus input and keeps the unterminated rest |
| Framing.LineReader.ReadDaemon | client/daemon/daemonlocalserverconnection.cpp:48-76 | the same for a loop that reads on demand until an empty read |
| Framing.TrimMeans | client/mozilla/localsocketcontroller.cpp:417-424 | trimming cuts exactly the blanks at both ends |
| Framing.ChunkingIsInvisible | client/mozilla/localsocketcontroller.cpp:401-427 | for every cut of a stream into chunks, commands and rest are those of splitting, trimming and dropping blanks on the whole |
| Framing.WrittenMessagesComeBack | client/daemon/daemonlocalserverconnection.cpp:179-182 | newline-free messages that were written come back if and only if none is blank or padded; braced ones always do |
| Framing.StreamIsFifo | client/mozilla/localsocketcontroller.cpp:401-427 | however many bytes have arrived, the messages handed out are a prefix of those written and the bytes to come hand out the others: the channel of the link theorems |
| Framing.CutStreamGarblesOneMessage | client/mozilla/localsocketcontroller.cpp:401-427 | after a stream cut inside a message the first message of the next stream comes out glued to the leftover, every later one intact; nothing is lost exactly when the cut fell between messages |
| SocketLinkProofs.OneSwallowPerPayload | client/mozilla/localsocketcontroller.cpp:512-530 | every ignored disconnected is within 1500 ms of a payload, and at most one per payload |
| SocketLinkProofs.FailureSwallowedOnlyAfterResend | client/mozilla/localsocketcontroller.cpp:552-554 | the disconnected of a failed activation is ignored only after a new payload was sent since its backendFailure, and never dropped as unexpected |
| SocketLinkProofs.FailedActivationIsSurfaced | client/daemon/daemonlocalserverconnection.cpp:106-129 | the client has read the backendFailure before that disconnected and passes it on unless it sent again in between |
| SocketLinkProofs.ActivationSentOnceInOrder | client/mozilla/localsocketcontroller.cpp:610-637 | payloads go out in request order, each at most once, never after a deactivate that followed the request |
| SocketLinkProofs.PendingIsLatestDeferred | client/mozilla/localsocketcontroller.cpp:319-336 | the pending slot is the latest deferred request neither sent nor cancelled |
| SocketLinkProofs.RetriesAreBounded | client/mozilla/localsocketcontroller.cpp:62-86 | at most ten retries between resets of the counter |
| SocketLinkProofs.LostSocketIsFinal | client/mozilla/localsocketcontroller.cpp:79-86 | a ready client without a socket never sends an activation again |
| SocketLinkProofs.SocketErrorIsFinal | client/mozilla/localsocketcontroller.cpp:62-77 | a socket error puts a ready client into that state |
| SocketLinkProofs.LostSocketWitness | client/mozilla/localsocketcontroller.cpp:62-86 | a run into that state |
| SocketLinkProofs.PartialLineLosesStatus | client/mozilla/localsocketcontroller.cpp:401-470 | a status answer makes an initializing client ready if and only if no half line is left in its buffer; otherwise it is stalled |
| SocketLinkProofs.StalledRun | client/mozilla/localsocketcontroller.cpp:401-637 | a stalled client sends nothing until the status is polled or the socket is lost again |
| SocketLinkProofs.StalledWitness | client/mozilla/localsocketcontroller.cpp:62-86 | a run in which a retry during initialization ends stalled with an activation pending |
| SocketLinkProofs.StepKeepsInv | client/mozilla/localsocketcontroller.cpp:401-637 | every step of either end keeps the invariant over members, channels and history |
| SocketLinkLaws.SentIsOnTheWire | client/mozilla/localsocketcontroller.cpp:610-622 | over every run the activations read, lost and still in the channel are, in order, exactly the payloads the history calls sent |
| SocketLinkLaws.ActivateLaw | client/mozilla/localsocketcontroller.cpp:319-329 | a request goes onto the wire if and only if the client is ready and the socket open; otherwise it becomes the pending one |
| SocketLinkLaws.FirstStatusLaw | client/mozilla/localsocketcontroller.cpp:446-473 | a well-formed first status puts the pending request onto the wire |
| SocketLinkLaws.DeactivateLaw | client/mozilla/localsocketcontroller.cpp:331-348 | a deactivation cancels the pending request and reaches the wire exactly from a ready client with an open socket |
| SocketLinkLaws.DisconnectedLaw | client/mozilla/localsocketcontroller.cpp:512-530 | a disconnected within 1500 ms of a payload is ignored once, any other is passed on |
| SocketLinkLaws.MessageLaw | client/mozilla/localsocketcontroller.cpp:475-592 | what connected, backendFailure and other messages do |
| SocketLinkLaws.DaemonLaw | client/daemon/daemonlocalserverconnection.cpp:106-141 | the daemon's answers: backendFailure and then disconnected to a failed activation |
| SocketLinkLaws.SocketErrorLaw | client/mozilla/localsocketcontroller.cpp:62-86 | ten timed retries while initializing, then ready without a socket |
| LocalSocketControllerObject.LocalSocketController.OnError | client/mozilla/localsocketcontroller.cpp:62-77 | retry while initializing and below the limit, otherwise disconnect |
| LocalSocketControllerObject.LocalSocketController.Activate | client/mozilla/localsocketcontroller.cpp:319-329 | an activation is written only when ready and connected, otherwise it replaces the pending one |
| LocalSocketControllerObject.LocalSocketController.Deactivate | client/mozilla/localsocketcontroller.cpp:331-348 | clears the pending and in-flight state and writes only when ready |
| LocalSocketControllerObject.LocalSocketController.OnDisconnected | client/mozilla/localsocketcontroller.cpp:512-530 | ignores one early message per payload, passes on the others |
| LocalSocketControllerObject.LocalSocketController.ParseCommand | client/mozilla/localsocketcontroller.cpp:429-608 | refines the receive step of the channel theorems: first status makes ready and sends the pending activation, other messages count only when ready |
| LocalSocketControllerObject.LocalSocketController.SendActivationPayload | client/mozilla/localsocketcontroller.cpp:610-615 | every payload opens one early-disconnect window |
| LocalSocketControllerObject.LocalSocketController.TrySendPendingActivation | client/mozilla/localsocketcontroller.cpp:624-637 | sends and empties the pending slot |
| LocalSocketControllerObject.LocalSocketController.Deliver | client/mozilla/localsocketcontroller.cpp:62-637 | every event takes the modelled step and keeps the invariant |
| XrayProofs.ReorderKeepsLookups | client/protocols/xrayprotocol.cpp:66-93 | reordering is a permutation that changes no lookup by tag; the requested tag becomes the default |
| XrayProofs.AlignMovesOnlyUnmatched | client/protocols/xrayprotocol.cpp:95-133 | matched packets keep their route; unmatched ones go direct or to the proxy according to which domain rules exist and the route mode, if such an outbound exists |
| XrayProofs.QuicBlockingPreservesMeaning | client/protocols/xrayprotocol.cpp:287-325 | with outbounds, no UDP/443 rule and an unused block tag, exactly the UDP/443 packets change route, into the blackhole |
| XrayProofs.QuicIsBlocked | client/protocols/xrayprotocol.cpp:297-320 | UDP/443 goes to the first outbound with the block tag, the blackhole unless the configuration brought one |
| XrayProofs.OtherTrafficKeepsItsRoute | client/protocols/xrayprotocol.cpp:297-320 | any other packet keeps its route if and only if the added outbound fills no gap for it |
| XrayProofs.QuicBlockingIsIdempotent | client/protocols/xrayprotocol.cpp:287-295 | applying the rewrite twice is applying it once, for every configuration |
| XrayProofs.QuicBlockedExactlyWhen | client/protocols/xrayprotocol.cpp:274-325 | a QUIC packet ends in a blackhole if and only if a UDP/443 rule of the configuration's own already sent it there, or there is none and an outbound with the block tag, if any, is one |
| XrayProofs.QuicNotBlockedWitness | client/protocols/xrayprotocol.cpp:274-310 | two configurations whose QUIC goes to the proxy after the rewrite |
| XrayMeaning.PrepareMeaning | client/protocols/xrayprotocol.cpp:537-546 | all four rewrites together: QUIC into the block outbound, every other packet where it was aimed, through the same outbound up to first hop and socket options, the blackhole only where that was nowhere |
| XrayMeaning.DirectTrafficIsMarked | client/protocols/xrayprotocol.cpp:376-384 | on Linux whatever leaves outside the tunnel after all rewrites carries the bypass mark, and nothing else does that was not marked before |
| XrayProofs.TransportPinning | client/protocols/xrayprotocol.cpp:537-546 | after all four rewrites the transport is the same outbound with the resolved address up to case and its port or 443; every other outbound keeps tag and settings at its new position; only the blackhole is added |
| XrayProofs.OrderOfOthers | client/protocols/xrayprotocol.cpp:85-92 | the other outbounds keep their relative order if and only if the moved one is the transport or has no other before it |
| XrayProofs.OrderOfOthersWitness | client/protocols/xrayprotocol.cpp:85-92 | three outbounds of which two that are not the transport swap places |
| XrayLaws.PortAfterPrepare | client/protocols/xrayprotocol.cpp:222-272 | after all rewrites the transport's port is 443 if and only if it was, or 443 answers and the configured port, cut to 16 bits, does not; otherwise unchanged |
| XrayLaws.FallbackLaw | client/protocols/xrayprotocol.cpp:222-272 | the fallback changes that port of the first outbound with a vnext and nothing else |
| XrayLaws.AddressLaw | client/protocols/xrayprotocol.cpp:153-183 | the resolved address replaces the first hop's unless it is the same text |
| XrayLaws.SameTextMeans | client/protocols/xrayprotocol.cpp:170-172 | the comparison ignores the case of letters and nothing else |
| XrayLaws.PreparedShape | client/protocols/xrayprotocol.cpp:287-360 | rules, domain strategy, log level and inbounds of the rewritten configuration |
| XrayLaws.PreparedOptions | client/protocols/xrayprotocol.cpp:362-393 | every outbound is the blackhole or one of the configuration's with exactly these socket options |
| XrayRewrites.TransportOutboundIndex | client/protocols/xrayprotocol.cpp:41-53 | the first outbound with a vnext, else 0, else -1 |
| XrayRewrites.ReorderOutboundsToDefaultTag | client/protocols/xrayprotocol.cpp:66-93 | moves the first outbound with the tag to the front |
| XrayRewrites.AlignManagedRoutingDefaultOutbound | client/protocols/xrayprotocol.cpp:95-133 | the loop over domain rules computes the preferred tag |
| XrayRewrites.ForceResolvedOutboundAddress | client/protocols/xrayprotocol.cpp:153-183 | pins the first hop of the first outbound with a vnext, unless it is the same text |
| XrayRewrites.FallbackOutboundPortTo443 | client/protocols/xrayprotocol.cpp:222-272 | switches to 443 exactly when the configured port fails and 443 answers |
| XrayRewrites.BlockQuic | client/protocols/xrayprotocol.cpp:287-325 | the search loops find an existing rule or outbound; otherwise computes the rewrite of the QUIC theorems |
| XrayRewrites.SanitizeDesktopXrayConfig | client/protocols/xrayprotocol.cpp:345-396 | the in-place loop tunes every outbound and nothing else of it, then blocks QUIC |
| XrayRewrites.PrepareConfig | client/protocols/xrayprotocol.cpp:539-544 | computes the composition TransportPinning is about |
| InternetChecksum.InetChecksum | client/mozilla/pingsender.cpp:13-48 | for up to 65536 bytes the 32-bit sum does not overflow and the result is the reference checksum |
| InternetChecksum.TwoFoldsSuffice | client/mozilla/pingsender.cpp:43-46 | two folds of any 31-bit sum equal folding until it fits |
| InternetChecksum.SumCanOverflowBeyond | client/mozilla/pingsender.cpp:31-34 | 65538 bytes of ones exceed the 32-bit sum |
| InternetChecksum.StoredChecksumVerifies | client/mozilla/pingsender.cpp:26-47 | storing the checksum in a zero word makes the checksum of the whole zero |
| InternetChecksum.ByteOrderIndependence | client/mozilla/pingsender.cpp:24-41 | the checksum in the other byte order is the byte-swapped checksum |
| PingHelper.Pinger.Start | client/mozilla/pinghelper.cpp:62-68 | clears the ring |
| PingHelper.Pinger.NextPing | client/mozilla/pinghelper.cpp:84-99 | after n sends, across 16-bit wraparound, the slots hold exactly the last min(n, 32) |
| PingHelper.Pinger.PingReceived | client/mozilla/pinghelper.cpp:101-114 | a reply is matched if and only if it names one of the last 32 sends, or is 0 before the first |
| PingHelper.Pinger.Latency | client/mozilla/pinghelper.cpp:116-135 | the integer nearest to the mean latency of the answered pings, cut to 32 bits; 0 if there are none |
| PingHelper.Pinger.Loss | client/mozilla/pinghelper.cpp:172-192 | the lost pings over 32, in [0, 1] |
| PingHelper.TotalBounds | client/mozilla/pinghelper.cpp:120-126 | the total lies between all answered pings being the fastest and all being the slowest |
| PingHelper.LostMeans | client/mozilla/pinghelper.cpp:172-192 | the lost pings are the slots sent more than a second ago and not answered |
| PingHelper.NearestMean | client/mozilla/pinghelper.cpp:132-134 | adding half the divisor rounds to nearest |
| AddressAllocator.GetIpsFromConf | client/configurators/wireguard_configurator.cpp:71-90 | the valid addresses in order |
| AddressAllocator.AddressesMean | client/configurators/wireguard_configurator.cpp:71-90 | reading is line by line, and a number above 255 gives no address |
| AddressAllocator.AddClient | client/configurators/wireguard_configurator.cpp:121-169 | picks the next address and appends the peer |
| AddressAllocator.NextIsUsable | client/configurators/wireguard_configurator.cpp:134-139 | for every configuration the new address ends neither in .0 nor in .255 |
| AddressAllocator.AllocatedByFormula | client/configurators/wireguard_configurator.cpp:121-142 | the n-th client of a run gets the closed formula, read back from the configuration it grew |
| AddressAllocator.AddressesAreDistinct | client/configurators/wireguard_configurator.cpp:121-142 | addresses of a run are strictly increasing, hence distinct |
| SecureSettings.Settings.constructor | client/secure_qsettings.cpp:24-40 | the one-time migration preserves the meaning of every value and encrypts the listed keys |
| SecureSettings.Settings.Value | client/secure_qsettings.cpp:42-84 | returns what the file stands for, from the cache or through it, including the paths without a key |
| SecureSettings.Settings.SetValue | client/secure_qsettings.cpp:86-111 | cache and file agree afterwards if and only if the stored form reads back as the value |
| SecureSettings.Settings.RemoveKey | client/secure_qsettings.cpp:113-121 | removes one key |
| SecureSettings.Settings.ClearSettings | client/secure_qsettings.cpp:298-304 | empties file and cache |
| SecureSettings.Settings.Run | client/secure_qsettings.cpp:42-121 | every run of reads, writes, removals, clears and restarts answers what a plain map would; a restart runs the constructor again, which sets the flag if it is missing |
| SecureSettings.ReadsBack | client/secure_qsettings.cpp:57-76 | a stored value reads back as itself if and only if it is encrypted, has no magic prefix, or decrypts to itself |
| SecureSettings.Settings.PutRestartGet | client/secure_qsettings.cpp:24-111 | written, restarted and read, a value comes back as a plain map would give it if and only if its stored form reads back as the value |
| SecureSettings.MagicPrefixIsNotTransparent | client/secure_qsettings.cpp:57-76 | under every cipher the bytes of an encrypted value, stored unencrypted, do not read back |
| SecureSettings.LosesSealedBytes | client/secure_qsettings.cpp:57-111 | the run: written, restarted and read, they answer something else than a plain map |

## Left out

- Qt itself: JSON text, signals across threads, settings files, sockets and processes are records, queues and parameters here.
- iOS, macOS network extension and Android branches of VpnConnection, and the IPC calls made on state changes.
- Decoration of a configuration with kill-switch and split-tunnel settings before a protocol is built; only whether managed routing rules are missing is an input.
- `checkHandshake`, `getStatus`, `parseConfig` and logging of the daemon, and the log commands of the socket.
- wgutils being null in the daemon, and backend deletions that fail without being noticed.
- What status and log messages of the daemon contain, beyond whether the first status answer and `connected` are well formed.
- JSON values of unexpected type inside an XRay configuration, and rules that name a balancer instead of an outbound.
- AES, the keychain, SSH, OpenSSL and platform network code: parameters or absent.
- Standard deviation and maximum of the ping statistics, byte counters of VpnProtocol.
- SecureSettings.Settings.Run: requires that the encryption flag in the file reads the same before and after decryption; texts that count as false are not case-folded.
- AddressAllocator.GetIpsFromConf: takes the captured number groups; the regular expression itself is not modelled.
- XrayRewrites.ForceResolvedOutboundAddress: folds the case of ASCII letters only.
- SpentAttempts.SpentDisconnectIsFinalExactlyWhen: with a failure window that closes before the missing failures can happen, at 15 s for each connecting state among them, the condition with the counted failures is only necessary, the one without them only sufficient; for a request without a protocol and start calls outstanding, scheduling a reconnect has only the necessary half.
