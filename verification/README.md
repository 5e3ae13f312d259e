# puressh: a verified model of the connection layer

puressh is an SSH library. This project models the state machines that sit between its packet driver
and the threads that use it, and proves what they keep over every run:

- the flow-control pipeline of a channel, in both directions and on both sides (`channel`, `ingress`,
  `pipeline`, `pipeline_progress`, `egress`, `egress_runs`, `egress_meter`, `end_to_end`, `shell`), with the
  runtimes that carry it as classes (`runtimes`);
- the server's dispatcher, its maps and its outbound opens (`opens`, `dispatch`, `dispatch_runs`,
  `dispatch_books`, `dispatcher`), the client's serve loop (`serve`), and remote-forward listeners shared by
  many connections (`bindings`);
- the host-key decision across key exchanges and what it holds back during authentication (`known_hosts`,
  `trust`, `userauth`);
- the event-driven client and its output buffer (`mio`), the two stashing readers (`readers`) and the two
  keepalive timers (`keepalive`);
- the glob matcher, terminal-mode codec, token expansion and environment budget (`glob`, `terminal_modes`,
  `tokens`, `env_budget`).

Each machine is a datatype of states, a function for each step and a `Run` over any sequence of steps. What
the environment decides (peer packets, handler and process behaviour, configuration answers, socket results,
clock readings) is in the steps, so a statement about `Run` covers every interleaving. The objects the source
updates in place are classes whose methods are proved to do what the step functions say; the theorems are
about those functions. Fields described as histories record what happened and influence nothing.

Where the code does less than a reader might expect, the project states both halves: a concrete run that
shows it, and the exact condition under which it does not happen. These are a peer CLOSE behind parked data
(`PipelineProgress.CloseDeliversAll`), writes after an explicit EOF, which the documentation at
`src/stream.rs:106` says succeed (`EgressRuns.WritesAfterEofEndConnection`), output unread when a shell's exit
is announced (`Shells.ExitLosesUnread`), a channel closed idle or by the peer over output or an exit still to
come (`EgressRuns.CloseIsComplete`, `Shells.OnlyDataBefore`), window an EOF leaves uncredited
(`Pipeline.NeverWedged`), a revoked host key that a pre-check lets in (`Trust.RevokedNeverPasses`), a host key
refused after the store was touched (`Trust.RefusalExact`, `Trust.UnsignedExact`), another host's answer changed
by a key rotation (`KnownHosts.RotationIsLocal`), and an end of file met outside a fill
(`SplitReader.EndStaysExact`).

One cause runs through several of them. While the server sends the output of a buffered command and waits for
window, it reads packets itself and drops all but the ones it waits for (`src/server.rs:5406-5442`). Those are
called swallowed here: the connection layer has seen them and nobody else. A swallowed packet costs a channel its
bytes and its window (`Pipeline.InOrder`, `Pipeline.NeverWedged`, `EndToEnd.BytesEndToEnd`), a swallowed CLOSE
turns later output into the end of the connection (`EgressRuns.WritesAfterEofEndConnection`, `Shells.StaysUp`) and
puts maps and channel table out of step (`DispatchBooks.SwallowExact`), and a peer heard only that way may be
given up too early (`Keepalive.ServerTooEarly`).

`dafny verify dfyconfig.toml` checks the whole project.

## Model

| member | source | states |
|---|---|---|
| `Channels.NothingTaken` | src/hazmat/channel/state.rs:619-683 | a send that takes nothing means an empty window, nothing to send, or a peer maximum packet with no room for payload (the documentation names only the first) |
| `Channels.ReplenishConserves` | src/hazmat/channel/state.rs:754-778 | crediting moves bytes between the saved-up counter and the window; the adjustment sent is exactly what the window grew by |
| `Ingress.FlushHands` | src/server.rs:495-510 | flushing a backlog loses, repeats and reorders nothing while the handler lives, stops only at a full queue, and reports exactly the bytes that may be credited |
| `Ingress.OfferHands` | src/client.rs:1094-1111 | the same when a chunk has just arrived: it queues behind everything parked before it |
| `Ingress.ReadTakesFront` | src/stream.rs:178-204 | a read takes a prefix of what is buffered and queued, and reports end of file only for a marker or a vanished sender |
| `Pipeline.NextKeeps` | src/client.rs:4663-4694 | every step (peer data, extended data, EOF, CLOSE, tick, own or idle close, handler read or drop, and on the server each of the peer's packets swallowed) keeps order, accounts, window and bounds together |
| `Pipeline.InOrder` | src/client.rs:5019-5045 | in every interleaving, bytes read, then stream buffer, queue and backlog, are the bytes dispatched, in order, and the bytes the peer sent if and only if none was swallowed; end of file is seen only behind them |
| `Pipeline.BytesConserved` | src/server.rs:4292-4316 | in every run each byte the peer sent is handed over, parked, discarded, lost to a CLOSE or swallowed, exactly once; what was handed over was granted back or is saved up, save the uncredited part, which is empty before our CLOSE and, on the server, the peer's EOF; with a runtime every byte is credited or parked if and only if none was swallowed and none is uncredited |
| `Pipeline.MemoryBound` | src/server.rs:75-81 | in every run the backlog is at most one receive window, and everything held for a handler at most a window, the queue and one chunk |
| `Pipeline.NeverWedged` | src/client.rs:4659-4673 | with nothing parked the window is whole, counting credit saved up, if and only if no byte of it is missing: swallowed, or pushed on uncredited by the peer's EOF, of which there are none before that EOF; then at least half of it is open, and otherwise at least half less what is missing |
| `Pipeline.ShrinksForGood` | src/server.rs:5406-5442 | a byte swallowed while another channel's buffered command waits, or left uncredited, takes its byte of window with it in every later state |
| `Pipeline.EofIsLast` | src/hazmat/channel/state.rs:944-953 | no run takes in data behind the peer's EOF, so what that EOF leaves uncredited is never missed |
| `PipelineProgress.NothingStuck` | src/client.rs:4677-4694 | whatever was dispatched can be read by reads and ticks alone, with no help from the peer |
| `PipelineProgress.CloseDeliversAll` | src/client.rs:5046-5056 | after a peer CLOSE the handler gets everything sent if and only if no byte was parked when the CLOSE was dispatched and none had been swallowed |
| `PipelineProgress.CloseLosesData` | src/server.rs:4318-4330 | a concrete run, on either side, in which data, EOF and CLOSE in order end in end of file without all the data |
| `PipelineProgress.SwallowedIsLost` | src/server.rs:5429-5440 | a run, at any window and packet size, in which the reader sees end of file without a byte the server swallowed |
| `PipelineProgress.SwallowedWedges` | src/server.rs:5429-5440 | a window's worth swallowed leaves a window of zero for ever, with nothing parked |
| `PipelineProgress.EofTakesWindow` | src/server.rs:4306-4316 | at any window, a run on the server with nothing swallowed and nothing parked that ends with a window of zero: the EOF pushed the parked data on uncredited |
| `Egress.EmitChannel` | src/server.rs:3785-3827 | emission fails exactly on a channel that takes no data, spends window byte for byte, and leaves a remainder only when there is no room |
| `Egress.EmitSplits` | src/client.rs:4778-4795 | packets followed by the remainder are the bytes given, in order |
| `EgressRuns.TickKeeps` | src/server.rs:3671-3781 | a tick keeps the wire faithful to the messages pulled and the flags true to the wire, and fails exactly for output or an exit status the channel no longer takes |
| `EgressRuns.OutputInOrder` | src/server.rs:3700-3755 | in every run the payload sent, then what is parked or went with the runtime, is the output of the messages pulled, stdout and stderr interleaved as written; at most one of the two is parked |
| `EgressRuns.WireWellOrdered` | src/server.rs:3757-3778 | in every run, whoever closes, EOF and CLOSE go out at most once, no payload follows the EOF and CLOSE is last; it is behind an EOF if and only if it does not answer a CLOSE of the peer's that was dispatched before our EOF |
| `EgressRuns.PeerCloseWitness` | src/server.rs:4318-4330 | the shortest run whose CLOSE has no EOF before it |
| `EgressRuns.CloseIsComplete` | src/server.rs:3758-3778 | once EOF is out all pulled output is out if and only if none is parked, and some is only where the server closed an idle channel; the last exit status is out or was pending, and behind a CLOSE it is pending only if the runtime was dropped |
| `EgressRuns.IdleCloseWitness` | src/server.rs:3318-3340 | a run in which an idle close sends EOF and CLOSE over parked output, which is never sent |
| `EgressRuns.NothingAfterClose` | src/server.rs:3683-3685 | no run adds a packet behind a CLOSE, whatever it was sent for |
| `EgressRuns.ExitWaitsForOutput` | src/server.rs:3758-3762 | an exit status leaves in the first tick that parks nothing, if the runtime is still held, and never overtakes parked output |
| `EgressRuns.TickMail` | src/client.rs:4696-4774 | ticks neither lose nor reorder the messages the handler sent |
| `EgressRuns.WritesAfterEofEndConnection` | src/stream.rs:106-116 | writes after an explicit EOF are documented to succeed; a tick ends the connection if and only if the CLOSE is not out and either output is parked or reached behind our EOF or a swallowed CLOSE of the peer's, or an exit status is, behind such a CLOSE |
| `EgressRuns.WriteAfterEofWitness` | src/stream.rs:106-116 | the shortest such run, at any window and packet size |
| `EgressRuns.SwallowedCloseWitness` | src/hazmat/channel/state.rs:463-468 | after a swallowed CLOSE any output, and any exit status, ends the server's connection in the next tick |
| `EgressMeter.TickMetered` | src/hazmat/channel/state.rs:619-683 | a tick spends exactly the window it fills and never exceeds the peer's packet size |
| `EgressMeter.ClosesMetered` | src/server.rs:3318-3340 | nor does closing, idle or in answer, touch the window |
| `EndToEnd.NextKeeps` | src/hazmat/channel/state.rs:944-994 | two ends joined by two ordered wires, either closing first, on its own account, idle or in answer, a server swallowing what it likes: no step of either end or delivery breaks their agreement about window, phase and bytes |
| `EndToEnd.NoViolation` | src/hazmat/channel/state.rs:944-967 | neither end of the library ever trips the other's window, packet or state check, at any sizes, with CLOSEs crossing data in flight: every packet finds its channel known and open, and no adjustment follows a CLOSE |
| `EndToEnd.CloseCompletes` | src/client.rs:5046-5056 | once both ends have closed and all the sender sent has arrived, the receiver has forgotten the channel; a sender that dropped its runtime has closed |
| `EndToEnd.BytesEndToEnd` | src/stream.rs:178-219 | read, held, lost to a CLOSE, in flight and parked at the sender (or dropped there) are together the bytes pulled from the writer, in order, if and only if the receiver swallowed none; as many are missing as were swallowed |
| `EndToEnd.EofMeansAll` | src/stream.rs:226-236 | a reader that sees end of file on a live channel has every byte the writer had written out, if and only if none was swallowed and none was parked when the sender closed the channel idle |
| `Runtimes.Mailbox.TrySend` | src/client.rs:1094-1132 | the bounded queue between dispatcher and handler: room, full, or no receiver |
| `Runtimes.ChannelStream.Read` | src/stream.rs:178-204 | the in-place read refines the read of the model |
| `Runtimes.ChannelStream.Write` | src/stream.rs:206-219 | takes min(len, 32 KiB) as one message at the back of the queue, waits exactly when it is full, breaks exactly when the dispatcher is gone |
| `Runtimes.ChannelStream.Drop` | src/stream.rs:226-236 | dropping a stream queues EOF then CLOSE behind everything written, waiting for room, and only then takes both queue ends away |
| `Runtimes.Link.Send` | src/server.rs:3785-3803 | the emitting loop sends exactly the packets of the model and returns the remainder |
| `Runtimes.ServeRuntime.OfferIngress` | src/client.rs:1094-1111 | refines the client's offer |
| `Runtimes.ServeRuntime.FlushIngress` | src/client.rs:1115-1132 | refines the client's flush |
| `Runtimes.SubsystemRuntime.PushIngress` | src/server.rs:486-489 | refines the server's push |
| `Runtimes.SubsystemRuntime.FlushIngress` | src/server.rs:495-510 | refines the server's flush |
| `Runtimes.SubsystemRuntime.Emit` | src/server.rs:3785-3827 | refines emission into the parking buffers |
| `Runtimes.SubsystemRuntime.Retry` | src/server.rs:3700-3715 | refines the retry of parked output |
| `Runtimes.SubsystemRuntime.HandleNext` | src/server.rs:3723-3746 | refines the handling of one message |
| `Runtimes.SubsystemRuntime.Pull` | src/server.rs:3717-3755 | the pulling loop refines the recursive model |
| `Runtimes.SubsystemRuntime.Finish` | src/server.rs:3757-3778 | refines exit status, EOF and CLOSE |
| `Runtimes.SubsystemRuntime.Drain` | src/server.rs:3671-3781 | the whole egress tick refines the model |
| `Shells.NextKeeps` | src/server.rs:3534-3660 | process output, exit, window growth, a peer CLOSE dispatched or swallowed, an idle close, drain and finalize keep order, bounds and lifecycle; the connection ends exactly with a failing read, or with output or an exit to send behind a swallowed CLOSE |
| `Shells.OutputInOrder` | src/server.rs:3534-3609 | in every run bytes sent, then held over, are the bytes read, although fresh bytes are emitted while older ones wait, unless the connection ended over a swallowed CLOSE, and a prefix even then; less than 4 MiB + 8 KiB is ever held |
| `Shells.ExitIsLast` | src/server.rs:3614-3660 | exit status, EOF and CLOSE go out once, together, with the process's own status, behind every byte read; then nothing more |
| `Shells.OnlyDataBefore` | src/server.rs:3614-3660 | before that the wire holds only data packets if and only if nothing else closed the channel; otherwise they are followed by EOF and CLOSE of an idle channel or the CLOSE that answers the peer's |
| `Shells.NeverAnnounced` | src/server.rs:4318-4330 | once the channel was closed so, no run announces the exit or sends or reads another byte |
| `Shells.ClosedBeforeExit` | src/server.rs:3318-3340 | a run for each of the two: a process that wrote and ended, and neither output nor exit goes out |
| `Shells.StaysUp` | src/server.rs:3556-3574 | a run leaves the connection up if and only if none of its steps is one of those that end it |
| `Shells.HarmlessRun` | src/server.rs:3556-3574 | so it does when no read fails and no CLOSE is swallowed, whoever closes |
| `Shells.OutputAfterSwallowed` | src/hazmat/channel/state.rs:463-468 | a run in which the first output after a swallowed CLOSE ends the connection |
| `Shells.ExitAfterSwallowed` | src/server.rs:3614-3660 | a run in which the exit of the process does |
| `Shells.ExitLosesUnread` | src/server.rs:3561-3582 | however the reads come out, the tick that announces the exit delivers all the process wrote if and only if its reads took all that was unread: always up to 64 KiB if they keep returning something, never from 72 KiB, and for full reads exactly up to 64 KiB |
| `Shells.ExitLosesUnreadWitness` | src/server.rs:3561-3582 | a run in which the exit is announced and the last byte is not sent |
| `Shells.ExitGoesOut` | src/server.rs:3614-3660 | once the process has ended, a tick with window for its output announces the exit, if and only if no CLOSE was swallowed |
| `Shells.Session.Read` | src/server.rs:429-435 | a non-blocking read of at most 8 KiB takes a prefix of what is unread |
| `Shells.ShellRuntime.EmitChannelData` | src/server.rs:3589-3609 | refines emission with hold-over |
| `Shells.ShellRuntime.Pull` | src/server.rs:3561-3574 | the reading loop with its two limits refines the model |
| `Shells.ShellRuntime.DrainShell` | src/server.rs:3534-3585 | refines the drain of one shell |
| `Shells.ShellRuntime.FinalizeExited` | src/server.rs:3614-3660 | refines the announcement of an exit |
| `Opens.FindFinds` | src/server.rs:3857-3976 | asking the four maps in order finds an id exactly when one of them has it |
| `Opens.BeginKeeps` | src/server.rs:2864-2887 | putting an open on the wire keeps every request in exactly one place, whatever waits under the id: a displaced request loses its slot |
| `Opens.ResolveKeeps` | src/server.rs:3857-3977 | answering one keeps it so |
| `Opens.AnsweredOnce` | src/server.rs:3850-3977 | a request is answered at most once, and an answered one is in no queue and no map |
| `Opens.Ledger.Reply` | src/server.rs:3857-3977 | removes the slot and answers it |
| `Opens.Ledger.TearDown` | src/server.rs:3134-3163 | the draining loops leave exactly the cleaned-up book: every open in flight failed, the queued ones discarded, no other touched, nobody waiting |
| `DispatchRuns.NextKeeps` | src/server.rs:3830-4363 | every packet, tick and timeout, for any configuration and any packets swallowed meanwhile, keeps one program per channel, shells on open channels and the session cap |
| `DispatchRuns.OneProgram` | src/server.rs:4736-4757 | in every run a channel has at most one program started in its whole life, even when its id is used again |
| `DispatchRuns.NeverBoth` | src/server.rs:4859-4933 | in every run a running shell has no stream beside it and sits on an open channel |
| `DispatchRuns.SessionsCapped` | src/server.rs:4001-4026 | in every run live sessions stay within MaxSessions |
| `DispatchRuns.NoLateSessions` | src/server.rs:3989-4000 | once the dispatcher has acted on no-more-sessions no later run adds a session |
| `DispatchBooks.SwallowExact` | src/server.rs:5406-5442 | packets read while a buffered command waits for window reach only the channel table; the maps stay in step if and only if each of them was harmless |
| `DispatchBooks.BufferedExact` | src/server.rs:5282-5349 | so a buffered command leaves the books right if and only if what it swallowed was harmless |
| `DispatchBooks.SwallowedClose` | src/server.rs:5429-5440 | a run in which a swallowed CLOSE leaves a session counted that the peer has closed |
| `DispatchBooks.NextKept` | src/server.rs:3830-4363 | while nothing harmful is swallowed every step keeps maps and channel table in step |
| `DispatchBooks.EntriesAreOpen` | src/server.rs:4318-4340 | in such runs shell, agent and display entries are for sessions, sessions for the peer's channels, and every entry for a channel the peer has not closed |
| `DispatchBooks.OpensInFlight` | src/server.rs:3850-3977 | in such runs an open is in flight exactly while the peer owes its answer, and its id is in one map only |
| `DispatchBooks.OpensSettle` | src/server.rs:3134-3163 | in every run, quiet or not, each open is answered at most once, is in no queue or map once answered, and the book is fit for teardown |
| `DispatchBooks.NoneForgotten` | src/server.rs:2864-2887 | no step, whatever it displaces or swallows, loses track of a request |
| `DispatchBooks.NoMoreIsHeard` | src/server.rs:4567-4573 | in such runs a no-more-sessions that arrived has taken effect |
| `Dispatcher.Connection.DrainSend` | src/server.rs:5406-5442 | the waiting loop swallows exactly the packets of the model, ends on the channel's own CLOSE, and fails at its limit |
| `Dispatcher.Connection.RunExecCommand` | src/server.rs:5282-5349 | refines the start of a command, streamed or buffered |
| `Dispatcher.Connection.Dispatch` | src/server.rs:3830-4363 | the dispatcher on maps updated in place refines the model packet by packet and keeps one program per channel, shells on open channels, the session cap and every open in its place |
| `Dispatcher.Connection.Perform` | src/server.rs:3415-3530 | so does anything else the loop does: queued opens, exits, stream ends, idle closes |
| `Dispatcher.Connection.ConnectionPhase` | src/server.rs:3055-3164 | the whole loop and its teardown, for any steps: nobody is left waiting for an open, no request is forgotten, no channel ran two programs |
| `Dispatcher.Connection.EndConnection` | src/server.rs:3121-3164 | from any state the loop can reach, teardown leaves no listener handle and nobody waiting for an open |
| `Serve.NextKeeps` | src/client.rs:4587-4657 | every event of the client's serve loop keeps its opens and runtimes in step with the channel table |
| `Serve.OkMeansQuiet` | src/client.rs:3003-3011 | serve returns Ok only when asked to stop with no runtime and no open pending, and then every open is answered or was never begun; none was dropped |
| `Serve.CleanUpSettles` | src/client.rs:3035-3044 | however serve ends, the clean-up leaves nobody waiting and every open answered at most once, and changes no answer already given |
| `Serve.NoForwardOverMismatch` | src/client.rs:4843-4990 | over a changed host key no forward is ever put on the wire or opened, by either side, and no channel is served |
| `Bindings.NextKeeps` | src/server.rs:4397-4554 | any step of any connection keeps every owned list exact, within the cap, and every listener held by a live connection |
| `Bindings.OwnedAreBound` | src/server.rs:4369-4378 | in every interleaving of connections the owned lists are exactly the listeners made and not yet unbound, without repeats, TCP and stream-local together within the cap |
| `Bindings.CancelIsOwn` | src/server.rs:4453-4496 | a cancel reaches the handler only for a listener of the connection's own, and then releases exactly it |
| `Bindings.OthersUntouched` | src/server.rs:4461-4471 | no request and no disconnect of one connection changes another's listener |
| `Bindings.CancelUndoes` | src/server.rs:4409-4436 | cancelling a forward by the port asked for, or by the one the reply gave, undoes it under every GatewayPorts rewriting |
| `Bindings.TearDownReleases` | src/server.rs:3127-3158 | teardown releases all the connection owns and nothing else |
| `Bindings.Handler.Unbind` | src/forwarding/reverse.rs:483-505 | only the user who bound a listener may unbind it |
| `Bindings.ForwardConn.TcpipForward` | src/server.rs:4397-4452 | refines the forward request, port 0 included |
| `Bindings.ForwardConn.CancelTcpipForward` | src/server.rs:4453-4496 | refines the cancel request |
| `Bindings.ForwardConn.Release` | src/server.rs:3127-3133 | the teardown loop leaves exactly the listeners of other connections |
| `KnownHosts.FoldIsVerdict` | src/client.rs:4283-4288 | folding any number of stores gives Revoked if any does, else Match if any does, else Mismatch with every expected key in file order, else Unknown |
| `KnownHosts.CombineAssociative` | src/client.rs:4567-4578 | the combination is associative |
| `KnownHosts.UnknownIsIdentity` | src/client.rs:4567-4578 | Unknown is its identity on both sides |
| `KnownHosts.CombineAll` | src/client.rs:4283-4288 | the loop over the files returns the declarative answer |
| `KnownHosts.RotationTrusts` | src/known_hosts/store.rs:468-488 | rotating a host's key makes its next lookup a match unless it is revoked |
| `KnownHosts.RotationIsLocal` | src/known_hosts/store.rs:468-488 | rotation changes nothing listed for another host, patterns and markers included, and changes the answer to its lookup if and only if it falls back to the rotated host and the key asked about came or went there |
| `Trust.OneKey` | src/client.rs:4073-4085 | over any sequence of key exchanges every accepted host key equals the first |
| `Trust.SettledByFirst` | src/client.rs:4073-4085 | after the first exchange the store and the mismatch flag never change, whatever is offered |
| `Trust.WarningExact` | src/client.rs:4344-4446 | the flag is set exactly for a changed key let through with a warning, and the store is then untouched |
| `Trust.WarnedLeavesStore` | src/client.rs:4425-4446 | in every run a warned connection ends with the store it started with |
| `Trust.RevokedNeverPasses` | src/client.rs:4108-4342 | on the first exchange what a store revokes, a plain key or a certificate by its key or its authority's, is refused under every setting and the store left alone; it passes if and only if a pre-check says yes and RevokedHostKeys does not bar it (given a usable reply and target) |
| `Trust.PreCheckOverridesRevocation` | src/client.rs:4108-4132 | a key marked revoked in the store, accepted on the pre-check's word |
| `Trust.AcceptedIsKnown` | src/client.rs:4425-4506 | a key the known_hosts policy accepted on the first exchange is found as a match next time if and only if there was no warning; one accepted by pre-check or trusted certificate, if and only if it already was |
| `Trust.RefusalExact` | src/client.rs:4448-4529 | a refusal leaves the store alone, except exactly when an unknown host was agreed to and written, then refused for its address or because that cannot be written beside a hashed name, or a changed one was agreed to, had lines of its own and cannot be written down |
| `Trust.RefusedYetRecorded` | src/client.rs:4485-4529 | a concrete such host: refused, and found as a match next time |
| `Trust.UnsignedExact` | src/client.rs:4425-4506 | a first exchange refused for its signature alone has changed the store if and only if the known_hosts policy decided and its acceptance writes; the key is then a match next time |
| `Trust.UnsignedYetRecorded` | src/client.rs:4485-4506 | a concrete such exchange |
| `Trust.HostTrust.CheckKnownHosts` | src/client.rs:4252-4529 | the in-place decision refines the model |
| `Trust.HostTrust.CheckCertificate` | src/client.rs:4189-4243 | the loops over the stores refuse a certificate exactly if it is revoked anywhere or its listed authority does not stand behind it |
| `Trust.HostTrust.BuildVerifier` | src/client.rs:4050-4534 | refines the verifier: pin, pre-check with and without an opinion, certificate, policy |
| `Trust.HostTrust.KeyExchange` | src/hazmat/transport/runner.rs:1152-1157 | the pin is taken from the first exchange whose signature holds |
| `Userauth.BlockedExact` | src/client.rs:281-295 | a request of any user, service and fields is held back exactly for the methods password and keyboard-interactive |
| `Userauth.StringRoundTrip` | src/client.rs:286-292 | the string reader inverts the string writer |
| `Userauth.FilterCredentials` | src/client.rs:249-273 | keeps the usable credentials in order; refuses exactly when no public key is among them |
| `Userauth.NoSecretsOverMismatch` | src/client.rs:1500-1562 | with the flag set no password request and no keyboard-interactive request or answer leaves, whatever the auth driver produces and however many re-keys happen |
| `Userauth.NothingHeldBack` | src/client.rs:1538-1541 | over a verified key nothing is held back |
| `Userauth.Authenticate` | src/client.rs:1500-1562 | the loop of at most 64 steps refines the model |
| `Userauth.Rekey` | src/client.rs:1521-1524 | key exchanges met while waiting for a packet are run in order |
| `Mio.TraceInGrammar` | src/client_mio.rs:381-450 | every run's trace of events, accepted execs and EOF/CLOSE sent is in the grammar |
| `Mio.OnceInOrder` | src/client_mio.rs:381-394 | HandshakeComplete is the first event, the one outcome of authentication the second, and nothing but Disconnected follows Disconnected |
| `Mio.OutputInsideExec` | src/client_mio.rs:452-522 | output, exit status and ExecClosed come only behind an accepted exec, and again behind a new one after each ExecClosed |
| `Mio.OneEofOneClose` | src/client_mio.rs:506-518 | between two EOFs, or two CLOSEs, sent there is a newly accepted exec |
| `Mio.MioClient.HandleExecPacket` | src/client_mio.rs:452-522 | refines the exec packet handler, failures included |
| `Mio.MioClient.HandleAuthPacket` | src/client_mio.rs:399-424 | refines the authentication step with its gate |
| `Mio.MioClient.OnEvent` | src/client_mio.rs:381-450 | refines one driver event in any phase |
| `Mio.MioClient.ProcessDriverEvents` | src/client_mio.rs:381-394 | the loop over driver events refines the model |
| `Mio.MioClient.PumpReadable` | src/client_mio.rs:327-345 | the reading loop refines the model; end of file is reported before events from the same call |
| `Mio.OutBuffer.DrainTransmit` | src/client_mio.rs:351-355 | frames are appended whole and in order |
| `Mio.OutBuffer.Flush` | src/client_mio.rs:357-379 | bytes the socket took, then the unsent part of the buffer, are always the frames drained |
| `SplitReader.NothingLost` | src/client.rs:150-191 | any interleaving of filling, timed-out and partial reads delivers, then holds, exactly the source's bytes in order |
| `SplitReader.EndMeansAll` | src/client.rs:171-191 | a read with room reports the end only with everything delivered |
| `SplitReader.EndStaysExact` | src/client.rs:155-160 | a reported end stays reported, whatever the source does, if and only if it was met while filling |
| `SplitReader.Reader.FillStash` | src/client.rs:150-167 | refines the fill |
| `SplitReader.Reader.ReadInto` | src/client.rs:171-191 | refines the read into a caller's buffer and leaves the rest of it alone |
| `PipeReader.NothingLost` | src/proc_transport.rs:217-276 | any interleaving of the reading thread and the client delivers, then holds, exactly the helper's bytes in order |
| `PipeReader.EndIsFinal` | src/proc_transport.rs:245-266 | at the end every byte has been delivered and no later step changes anything |
| `PipeReader.EmptyMeansEnd` | src/proc_transport.rs:245-276 | a read with room that returns nothing is that end |
| `PipeReader.ReadAheadBounded` | src/proc_transport.rs:214-242 | never more than ten chunks lie between helper and client |
| `PipeReader.Reader.ReadWithin` | src/proc_transport.rs:245-276 | refines the timed read |
| `Keepalive.NotTooEarly` | src/client.rs:2957-2976 | a keepalive teardown comes after exactly count_max unanswered probes and at least (count_max + 1) intervals since the last packet dispatched, so of silence if no packet was dropped meanwhile |
| `Keepalive.NotTooLate` | src/client.rs:3024-3027 | without a key exchange a live connection has been silent for at most (count_max + 1) times interval plus tick gap |
| `Keepalive.SameTimer` | src/server.rs:3464-3481 | the server's two clocks probe and give up at the same moments as the client's one |
| `Keepalive.ServerBounds` | src/server.rs:3464-3507 | so the server keeps both bounds; with packets dropped while a buffered command waits, silence before a teardown is at least count_max intervals |
| `Keepalive.ServerTooEarly` | src/server.rs:3506-3508 | for every time at which a packet was so dropped there is a run that gives up on the peer before (count_max + 1) intervals of silence |
| `Keepalive.ClientKeepalive.OnTick` | src/client.rs:2957-2976 | refines the client's timer |
| `Keepalive.ClientKeepalive.OnPacket` | src/client.rs:3024-3027 | refines the reset on any packet |
| `Keepalive.ServerKeepalive.OnTick` | src/server.rs:3464-3481 | refines the server's timer |
| `Keepalive.ServerKeepalive.OnPacket` | src/server.rs:3506-3507 | refines the reset when a packet is dispatched, whatever is dropped meanwhile |
| `Glob.Match` | src/server.rs:1732-1775 | true for exactly the names that split into runs, one for each pattern byte: any for `*`, one byte for `?`, itself otherwise |
| `Glob.StarsCollapse` | src/server.rs:1741-1744 | a run of stars means one star |
| `Glob.Accepted` | src/server.rs:1712-1786 | a name is accepted exactly when it is not blocked and some pattern's language has it |
| `TerminalModes.RoundTrip` | src/server.rs:328-342 | decoding any encoded list of defined opcodes, whatever follows the end marker, gives back the list (section 8 of RFC 4254) |
| `TerminalModes.DecodedIsPrefix` | src/server.rs:328-342 | re-encoding what was decoded is a prefix of the input, and decoding stopped only where it had to |
| `TerminalModes.EncodeModes` | src/client.rs:3533-3619 | the pushing loop encodes so that decoding gives the modes back |
| `TerminalModes.DecodeModes` | src/server.rs:328-342 | the decoding loop refines the model |
| `Tokens.ValuesMatterExactly` | src/proc_transport.rs:85-135 | for host, port and user alike: the expansion depends on the value if and only if the scan finds its token |
| `Tokens.Unused` | src/proc_transport.rs:85-135 | values whose tokens the scan does not find, any number of them, do not matter |
| `Tokens.DoublingEscapes` | src/proc_transport.rs:111-135 | doubling every `%` makes expansion the identity and hides every token |
| `Tokens.CheckedIsSafe` | src/proc_transport.rs:31-82 | when the checked form succeeds every character spliced in for host or user satisfies its validator |
| `Tokens.UsesToken` | src/proc_transport.rs:85-93 | the scan refines the model |
| `Tokens.ExpandTokens` | src/proc_transport.rs:111-135 | the expansion loop refines the model |
| `EnvBudget.TotalAfter` | src/server.rs:4969-4984 | the projected count and byte total are the true ones after insertion, new name or replaced |
| `EnvBudget.RequestsStayWithin` | src/server.rs:4957-4996 | runs of client requests alone never take the bag over 64 names or 16 KiB |
| `EnvBudget.InjectionExact` | src/server.rs:5118-5120 | a variable the server sets itself is unchecked: the limits survive it exactly when they have room |
| `EnvBudget.SessionEnv.CurrentBytes` | src/server.rs:4975 | the sum over the map, in any order |
| `EnvBudget.SessionEnv.OnEnvRequest` | src/server.rs:4948-5001 | a request is taken exactly when the resulting bag is within both limits; a refusal changes nothing |

## Left out

- Sockets, polling, thread and process spawning, files, time-outs and prompts: only their order and results appear, as steps.
- Packet encoding, key exchange, encryption, signatures and a certificate's own checks: a reply carries its key blob, and whether its signature holds, what the certificate's dates, options, principals and signature amount to, and whether RevokedHostKeys lists its serial or id, are given.
- The auth driver: what it produces for each packet is given, so the gate is proved against every driver.
- Global replies, request success and failure packets, banners and notices: they change no modelled state.
- Shell stdin: the server may drop it after repeated zero-length writes (`src/server.rs:4271-4283`); no claim is made.
- EndToEnd.NextKeeps: one direction of data at a time; what the receiver sends back is its window adjustments and its CLOSE.
- Pipeline.MemoryBound: counts payload bytes, not the fixed cost of each queued chunk.
- Pipeline.InOrder: speaks of a channel whose runtime is in place; what a CLOSE changes is stated by PipelineProgress.CloseDeliversAll.
- Runtimes.SubsystemRuntime.Drain: the client's egress drain is the same function with its side set to the client and has no class of its own.
- Serve.NextKeeps: the client's loop is modelled on values; its maps are not updated in place here.
- Dispatcher.Connection.DrainSend: whether the limit of a million waiting steps is met is given, not counted.
- Dispatcher.Connection.Dispatch: data for a channel is the pipeline's business.
- Bindings.ForwardConn.TcpipForward: stream-local requests are modelled on values; which addresses are IPv6 literals is given.
- Trust.HostTrust.CheckKnownHosts: other users of the same store file do not change it between lookup and update, and saving to disk is not modelled.
- Mio.MioClient.PumpReadable: events the driver still held when end of file came are not handed out, as in the source.
- Glob.Accepted: a name is taken one char to a byte.
- Tokens.CheckedIsSafe: white space and control characters are the Unicode ones, listed.
- ChannelTimeout's idle clock: closing an expired channel is a step; when it expires is not modelled.
- `src/client_async.rs`, scp and sftp wrappers, tunnel, agent and X11 handlers, the C interface and builders: they repeat these machines or are foreign to them.
