# Verified core of the NulConnect helper

NulConnect routes an application's packets through an enterprise gateway. This project models, in
Dafny, the four parts of it whose correctness depends on several functions or threads agreeing over a
whole run, and proves what they promise:

- the Windows runtime (`src/platform/windows_ipc.rs`): start workers, monitors, stops and cleanups that
  share a state record, an operation lock, a generation counter, an undo file and the route table;
- the user-space transport stack (`src/tun_stack.rs`): the socket, listener and flow tables, the two byte
  movers of a TCP flow with their threads and queues, and the UDP flows;
- the fake-IP DNS server (`src/fake_dns.rs`): the ring of addresses, the wire parser and printer, the
  decision, and the way from an answer to a connection;
- the engine's failure latch (`src/vpn_engine.rs`): two workers, cancels and takes around one result slot
  and one close flag.

## How it is built

| file | holds |
|---|---|
| `Options.dfy`, `Bytes.dfy`, `Ring.dfy`, `Sorting.dfy`, `Runs.dfy` | optional values, chunked bytes, ring slots, sort and dedup, runs of a step function |
| `Network.dfy` | route table, NRPT rule and undo file as a class; install and undo as loops |
| `Runtime.dfy` | the runtime as a transition system, one shared access per step, with process death |
| `RuntimeCode.dfy` | the steps of an install, an undo or a cleanup add up to what the loops of `Network.dfy` do |
| `RuntimeInvariant.dfy`, `RuntimeTheorems.dfy` | the invariant of every step; what holds over every run |
| `RuntimeLeak.dfy`, `RuntimeSharing.dfy` | leaked routes, shared generations: exact conditions and runs |
| `RuntimeOverlap.dfy`, `RuntimeStatus.dfy`, `RuntimeMonitors.dfy` | exact conditions under which a published engine keeps its routes, shows as running, and is taken by its own monitor |
| `RuntimeThreads.dfy`, `RuntimeStarts.dfy` | one thread through its life; what becomes of a start, and what a monitor reports |
| `RuntimeRuns.dfy` | runs in which a tunnel loses its routes, hides behind a failure, or is taken by another's monitor |
| `NetworkPlan.dfy`, `InstalledPlan.dfy` | planning from prefixes and node addresses; where traffic goes once a plan is installed |
| `TcpDownload.dfy`, `TcpUpload.dfy` | the byte movers of a TCP flow and their threads, as protocol and as code |
| `TcpFlows.dfy`, `UdpFlows.dfy` | a flow as the tables hold it |
| `UdpTables.dfy`, `SocketTables.dfy`, `StackLoop.dfy` | the UDP flows; all tables on values with their invariant; the loop as classes |
| `FakePool.dfy` | the ring allocator against a plain list of fresh allocations |
| `DnsCodec.dfy`, `DnsMessage.dfy`, `FakeDns.dfy` | parser, printer, a reference decoder, the server |
| `FakeConnections.dfy` | from a DNS answer to the TCP connection made with it |
| `EngineLatch.dfy` | the latch |

Code that updates state is a class with methods proved against functions of the old state. Where threads
interleave, a transition system (`Apply` and `Enabled`, or `Next`) is the specification, and the theorems are about
all its runs. The methods of `TcpDownload.dfy` and `TcpUpload.dfy` are proved equal to a function `Call` of the
flow and of what the other thread and the socket do meanwhile, and every `Call` to be a run of the protocol; those
of `EngineLatch.dfy` are runs of theirs; for the runtime, `RuntimeCode.dfy` proves that the steps of a thread
through an install, an undo or a cleanup leave what the loops leave.
Sections 4.1.1 to 4.1.4 of RFC 1035 are the reference for DNS messages.

## What the code does that one might not expect

- A process that dies between its first added route and the write of the undo file leaves those routes
  behind (`src/platform/windows_ipc.rs:359-363`; the comment there speaks of a crash mid-way).
  `RuntimeTheorems.TeardownRestores` proves that this is the only way:
  a teardown restores the table exactly if no crash fell into that window. `RuntimeLeak.LeakRun` gives
  the run for every background table.
- Two start workers can carry one generation, because the generation is read after the state lock is
  released. `RuntimeSharing.SameGeneration` proves when: within a process exactly if nobody called stop
  between the two reads. `RuntimeSharing.SharedGenerationRun` gives such a run.
- A second worker that passes its check, or a cleanup, deletes the routes of a running tunnel and leaves its
  engine in the state record. `RuntimeOverlap.TunnelKeepsRoutes` proves that this is the only way a running
  tunnel loses its routes. `RuntimeRuns.CleanupTearsTunnel` is a run with the cleanup command, whose stop ends
  before the tunnel comes up. In `RuntimeRuns.NewerWorkerTearsTunnel` the worker carries the new generation of
  a stop that waits for the lock, so it need not have the engine's own.
- The status of a running tunnel can be Failed, because a start worker that failed reports it without the
  operation lock (`src/platform/windows_ipc.rs:272-273`). `RuntimeStatus.EngineShows` proves when an engine in
  the record shows as running, `RuntimeRuns.FailureHidesTunnel` gives the run. The other direction always
  holds with the lock free (`RuntimeStatus.RunningHasEngine`).
- A monitor takes whatever engine is in the record, which may be one that another worker of its generation has
  published meanwhile. `RuntimeMonitors.MonitorTakesOwnEngine` proves when it is its own,
  `RuntimeRuns.MonitorTakesAnother` gives a run where it is not.
- A start whose thread cannot be spawned leaves the status at Starting, and no start is accepted until somebody
  calls stop or the process dies (`RuntimeStarts.StuckRun`, `RuntimeStarts.StuckStays`). Otherwise Starting means
  that a worker is on its way or a stop about to mark it (`RuntimeStarts.StartingHasWorker`).
- A refused bypass route is only a warning (`src/platform/windows_ipc.rs:605`), so after a successful install a
  gateway node can be inside the tunnel. `InstalledPlan.NodeAfterInstall` proves when.
- Asking again for a fake address does not renew its place in the ring. An answer lasts for exactly
  j + N - count further fresh allocations, where j is the number of the name's own allocation
  (`FakePool.RepeatDoesNotRenew`); that is N - 1 exactly for the newest name, so for every answer that was
  fresh, and else only for a repeat of the name allocated last.
- The answer count of a DNS response has sixteen bits, so a reader recovers all addresses exactly when
  there are fewer than 65536 (`DnsMessage.AllAnswersRead`).
- The parsed name gives back the lower-cased labels exactly when no label has a dot
  (`DnsCodec.NameDeterminesLabels`). Wherever two ASCII labels fit into one, there are two accepted queries
  with the same name and different labels (`DnsCodec.DotAmbiguous`).
- The branch in which an engine worker reports that it stopped unexpectedly cannot be reached
  (`EngineLatch.LeavingIsClosed`).
- A sweep forgets a time of last use exactly together with its target's listener
  (`SocketTables.EntryLeaves`). A destination on which listening failed has none, so its entry stays for as
  long as no packet comes for it (`StackLoop.OrphanForever`).

## Model

| member | source | states |
|---|---|---|
| Network.Os.AddRoute | src/platform/windows_net.rs:178-198 | a route counts as added exactly when it was absent; a refused one changes nothing |
| Network.AddFromRecords | src/platform/windows_ipc.rs:601-618 | over any routes and refusals the record grows by exactly the routes the table gains, each absent before and recorded once |
| Network.AddFromReaches | src/platform/windows_ipc.rs:601-618 | success puts in every route not refused; a strict failure comes from a refusal and adds nothing behind it |
| Network.PlanAddsExactly | src/platform/windows_ipc.rs:601-618 | after a successful install the table holds exactly the old routes, all tunnel routes, and the bypass routes not refused |
| Network.AddAll | src/platform/windows_ipc.rs:601-618 | for any refusals the record grows by exactly the routes that were absent, each once; a strict failure comes from a refusal and adds nothing behind it |
| Network.InstallNetworkPlan | src/platform/windows_ipc.rs:596-632 | whether it succeeds, fails part-way, meets repeats or routes already there: table = old table plus the recorded routes, disjoint; success means all tunnel routes are in; the NRPT rule is touched only if recorded |
| Network.UndoNetworkState | src/platform/windows_ipc.rs:634-642 | removes exactly the recorded routes and, if recorded, the rule |
| Network.CleanupPersistedNetworkState | src/platform/windows_ipc.rs:659-673 | undoes exactly what the undo file names, and leaves neither rule nor file |
| Network.InstallThenUndo | src/platform/windows_ipc.rs:596-642 | install then undo gives back the original route set for every plan, table and failure point, and leaves no rule that was not there |
| Network.CleanInstallUndo | src/platform/windows_ipc.rs:286-377 | with the leading cleanup no rule is left whatever was there before, and the table loses exactly the recorded leftovers |
| Network.UndoTwice | src/platform/windows_ipc.rs:634-642 | undo is idempotent, on the table and on the rule |
| RuntimeCode.InstallIsTheSteps | src/platform/windows_ipc.rs:596-632 | a start worker's steps from its first route to the save leave the table, rule, record and success that `install_network_plan` leaves, for the same refusals |
| RuntimeCode.UndoIsTheSteps | src/platform/windows_ipc.rs:634-642 | the undo steps leave the table and rule that `undo_network_state` leaves; behind them a failed start reports, a cancelled one ends, and the others go on to clear rule or file |
| RuntimeCode.CleanupIsTheSteps | src/platform/windows_ipc.rs:659-673 | the cleanup steps leave the table, rule and file that `cleanup_persisted_network_state` leaves |
| RuntimeInvariant.InstallStep | src/platform/windows_ipc.rs:601-630 | each added or skipped route keeps table = background + routes in hand, and none of these is on the background |
| RuntimeInvariant.UndoStep | src/platform/windows_ipc.rs:634-642 | each deleted route keeps the background whole and leaves at most the routes still to undo |
| RuntimeInvariant.HoldingStep | src/platform/windows_ipc.rs:281-454 | every step of a thread inside a critical section keeps what its place promises about table, rule, file and memory |
| RuntimeInvariant.NetCrash | src/platform/windows_service_host.rs:152-163 | after process death at any point the undo file recovers the background plus what was on no record |
| RuntimeInvariant.NetStep | src/platform/windows_ipc.rs:243-454 | every event of any thread keeps the lock discipline and the network invariant |
| RuntimeInvariant.GenStep | src/platform/windows_ipc.rs:255-454 | every event keeps the bounds between counter, carried generations and published generations |
| RuntimeInvariant.InvAlways | src/platform/windows_ipc.rs:243-454 | the invariant holds in every state of every run, crashes included |
| RuntimeTheorems.LostIsCrashLosses | src/platform/windows_ipc.rs:359-363 | what is lost for good is exactly the unsaved routes of the crashes that happened |
| RuntimeTheorems.NothingLost | src/platform/windows_ipc.rs:359-363 | nothing is lost if and only if no crash hit between a first added route and the save |
| RuntimeTheorems.RoutesOnRecord | src/platform/windows_ipc.rs:281-454 | whenever the operation lock is free, routes beyond the background are recorded both in the state and in the undo file, and are none or all of the record |
| RuntimeTheorems.TeardownRestores | src/platform/windows_ipc.rs:412-453 | after every completed stop, monitor teardown or cleanup the table is the background if and only if no crash fell into the unsaved window; no rule, no file, lock free |
| RuntimeTheorems.StopEmptiesState | src/platform/windows_ipc.rs:433-454 | a completed stop leaves no engine and no network record, and status Stopped |
| RuntimeTheorems.BackgroundKept | src/platform/windows_ipc.rs:596-673 | in no state of any run is a foreign route missing |
| RuntimeTheorems.HistoryGrows | src/platform/windows_ipc.rs:433-441 | within one process publications and executed stops only accumulate |
| RuntimeTheorems.StopCancels | src/platform/windows_ipc.rs:282-285 | once a stop that raised the generation to k is in its critical section, no worker with a smaller generation publishes |
| RuntimeTheorems.PublicationsInOrder | src/platform/windows_ipc.rs:373-391 | published generations never decrease along a process's run |
| RuntimeTheorems.MonitorTakesItsOwn | src/platform/windows_ipc.rs:401-420 | a monitor tears down only an engine of its own generation; every route its undo really removes is one of the helper's and named by the undo file |
| RuntimeLeak.LeakRun | src/platform/windows_ipc.rs:359-363 | for every background and every other route there is a run in which a cleanup after a crash leaves that route behind |
| RuntimeSharing.GenerationCounts | src/platform/windows_ipc.rs:433-434 | within a process the counter never falls and rises exactly when someone calls stop |
| RuntimeSharing.SameGeneration | src/platform/windows_ipc.rs:255-285 | two start workers of a process carry the same generation if and only if nobody called stop between their reads |
| RuntimeSharing.SharedGenerationRun | src/platform/windows_ipc.rs:243-255 | on every background a run in which two workers, begun before and after a completed stop, read the same generation |
| RuntimeOverlap.TunnelKeepsRoutes | src/platform/windows_ipc.rs:281-391 | with the lock free and an engine in the record, its routes are in the table if and only if no worker has passed its check and no cleanup has taken the lock since its publication (or it has no routes); otherwise exactly the background is left |
| RuntimeRuns.CleanupTearsTunnel | src/platform/windows_ipc.rs:799-803 | on every background and for every other route a run in which the cleanup command, its stop long done, leaves a running tunnel without that route, with engine, record and status in place |
| RuntimeRuns.NewerWorkerTearsTunnel | src/platform/windows_ipc.rs:281-286 | such a run in which a worker with a waiting stop's new generation passes its check and takes the routes of an engine of the old one |
| RuntimeStatus.RunningHasEngine | src/platform/windows_ipc.rs:380-453 | whenever the lock is free a running status means that an engine is in the record |
| RuntimeStatus.EngineShows | src/platform/windows_ipc.rs:272-273 | an engine that stayed in the record since its publication shows as running if and only if no stop has marked the status and no worker has reported a failure since |
| RuntimeRuns.FailureHidesTunnel | src/platform/windows_ipc.rs:270-274 | on every background a run that ends with an engine in the record, its route in the table, the lock free, and the status Failed |
| RuntimeMonitors.MonitorTakesOwnEngine | src/platform/windows_ipc.rs:394-419 | all engines published since a monitor's own have its generation; the engine it takes is its own, with the record it was published with, if and only if there are none |
| RuntimeRuns.MonitorTakesAnother | src/platform/windows_ipc.rs:407-419 | on every background a run in which a monitor takes the engine that another worker of the same generation published after its own |
| RuntimeStarts.FailureReported | src/platform/windows_ipc.rs:269-276 | a start worker whose engine, tunnel route or rule failed writes Failed before it ends if nobody has called stop since it read its generation; it ends without writing only if somebody has |
| RuntimeStarts.StartingHasWorker | src/platform/windows_ipc.rs:243-279 | if every start thread was spawned, status Starting means that an uncancelled start worker is on its way or a stop is about to mark the status |
| RuntimeStarts.StuckStays | src/platform/windows_ipc.rs:266-277 | with status Starting and no threads but cleanups, the status stays and no start is accepted until a stop is called or the process dies |
| RuntimeStarts.StuckRun | src/platform/windows_ipc.rs:266-277 | on every background a run that ends so, after a start whose thread was not spawned |
| RuntimeStarts.StopKeepsOut | src/platform/windows_ipc.rs:282-285 | a start worker passes its check if and only if nobody has called stop since it read its generation; if not, it ends there and leaves network and record alone |
| RuntimeStarts.NoStartOverTunnel | src/platform/windows_ipc.rs:243-254 | while a published engine stays in the record no start is accepted unless a stop has marked the status or a failure was reported since |
| RuntimeStarts.MonitorStandsDown | src/platform/windows_ipc.rs:401-410 | before and after it takes the lock a monitor ends if and only if somebody has called stop since its start worker read the generation, and then leaves network, record and status alone |
| RuntimeStarts.MonitorReports | src/platform/windows_ipc.rs:411-427 | a monitor that finds its generation current tears down, and leaves status Failed if its engine had stopped with an error and Stopped otherwise |
| NetworkPlan.ParseCidr | src/platform/windows_ipc.rs:466-489 | an accepted prefix has length 1 to 32 and a masked network address, so no shift is out of range |
| NetworkPlan.ParseCidrReads | src/platform/windows_ipc.rs:466-489 | "host/rest" is read as the block of that length around the address, and refused unless both parse and the length is 1 to 32; text without a slash is the block of one address |
| NetworkPlan.LoopbackIsBlock | src/platform/windows_ipc.rs:565-567 | loopback addresses are exactly those of 127.0.0.0/8 |
| NetworkPlan.CoversBlock | src/platform/windows_ipc.rs:568-571 | the mask comparison covers exactly the block of 2^(32 - length) addresses |
| NetworkPlan.TunnelRoutes | src/platform/windows_ipc.rs:527-551 | the tunnel carries exactly the parseable configured prefixes and the DNS server unless it is the gateway, sorted and without repeats |
| NetworkPlan.BypassRoutes | src/platform/windows_ipc.rs:555-586 | exactly the non-loopback, specified, covered node addresses with a best route get a /32 bypass, and it survives sort and dedup |
| NetworkPlan.NodeTunnelled | src/platform/windows_ipc.rs:555-586 | longest-prefix matching may send a node into the tunnel if and only if it is covered and has no best route or a /32 tunnel route names it |
| NetworkPlan.BuildNetworkPlan | src/platform/windows_ipc.rs:518-594 | the whole plan has these contents, and a covered node with a best route stays outside unless a /32 tunnel route names it |
| InstalledPlan.NodeAfterInstall | src/platform/windows_ipc.rs:601-618 | after a successful install a covered node with a best route may go into the tunnel if and only if a tunnel prefix covers it that no earlier route beats and, where its bypass route is in the table, a /32; the bypass route is there exactly if it was before or was not refused |
| InstalledPlan.PlanAndInstall | src/platform/windows_ipc.rs:518-632 | planning and installing on any table, with any refusals, leaves a table for which this holds of every node of the configuration |
| Sorting.SortSorts | src/platform/windows_ipc.rs:550-585 | the sort orders by the given preorder |
| Sorting.DedupDistinct | src/platform/windows_ipc.rs:551-586 | removing adjacent repeats after sorting leaves no two equal prefixes or routes |
| SocketTables.FreeHandleNamesNothing | src/tun_stack.rs:541-543 | a handle the socket set may hand out names no listener, no TCP flow and no UDP flow, so a reused handle aliases nothing |
| SocketTables.AddTcpKeeps | src/tun_stack.rs:526-562 | a new TCP listener on a free handle keeps single ownership, kinds, inverse tables and flow bounds |
| SocketTables.AddUdpKeeps | src/tun_stack.rs:564-595 | the same for a UDP listener |
| SocketTables.PromoteKeeps | src/tun_stack.rs:617-664 | a listener that becomes a flow changes owner without a moment of two or none; it replaces no earlier flow |
| SocketTables.DropTcpFlowKeeps | src/tun_stack.rs:721-731 | a retired flow's socket is live and of the right kind, and leaves with it |
| SocketTables.DropTcpKeeps | src/tun_stack.rs:494-507 | a swept TCP listener's socket is live and leaves with it; the invariant stays |
| SocketTables.DropUdpKeeps | src/tun_stack.rs:509-523 | removing a UDP listener keeps the invariant provided no flow hangs on it |
| SocketTables.AcceptedStep | src/tun_stack.rs:612-665 | accepting one more connection keeps the account of all accepted ones |
| UdpTables.ReceivedAllKeeps | src/tun_stack.rs:852-901 | an inbox of any size keeps at most 512 flows, evicts none, and touches no other listener's flows |
| UdpTables.NoLateAdmission | src/tun_stack.rs:852-893 | flows are opened only for senders of the inbox, and a sender refused because the table was full is not admitted later in the same batch |
| UdpTables.ReceivedGot | src/tun_stack.rs:852-901 | over any inbox a connecting flow keeps exactly the first 32 datagrams of its sender in order, and a connected one sends those of them that did not meet a queue of 32 behind what its writer had taken, in order |
| UdpTables.AdmittedInOrder | src/tun_stack.rs:889-896 | what a connected flow takes are its sender's datagrams in order, and all of them if the queue has room for all |
| UdpTables.ListenerTurns | src/tun_stack.rs:845-957 | after a listener's turn each of its flows has, from its state before and its sender's datagrams: kept or sent them as said, connected or closed exactly by the outcome, delivered what came back; every sender has a flow unless the table is full |
| SocketTables.UdpProcessedStep | src/tun_stack.rs:845-957 | one more listener worked off extends this account over all listeners, in any order |
| SocketTables.TcpTurns | src/tun_stack.rs:611-731 | accepting, serving and retiring together: exactly the flows of before and those of the waiting connections have been served, and exactly the ended ones have left |
| SocketTables.TcpSweepIsComplete | src/tun_stack.rs:486-507 | after the TCP sweep no listener is left that could go, and nothing used within five minutes is forgotten |
| SocketTables.UdpSweepIsComplete | src/tun_stack.rs:509-523 | the same for UDP listeners without flows |
| SocketTables.EntryLeaves | src/tun_stack.rs:494-523 | a sweep forgets a time of last use if and only if its target has a listener that the sweep takes |
| SocketTables.FailedListenOrphans | src/tun_stack.rs:388-397 | a packet whose target cannot be listened for leaves an entry without a listener |
| SocketTables.FailedReplacementOrphans | src/tun_stack.rs:617-664 | so does a connection whose listener cannot be replaced |
| StackLoop.Listeners.Insert | src/tun_stack.rs:311-314 | both maps gain the pair |
| StackLoop.Listeners.RemoveHandle | src/tun_stack.rs:316-320 | both maps lose the pair; an unknown handle changes nothing |
| StackLoop.Stack.EnsureTcpListener | src/tun_stack.rs:526-562 | keeps an existing listener, else creates one on a free handle; a failed listen leaves everything as it was |
| StackLoop.Stack.EnsureUdpListener | src/tun_stack.rs:564-595 | the same for UDP |
| StackLoop.Stack.HandlePacket | src/tun_stack.rs:383-402 | the tables stay valid, the packet's destination has a listener (if listening works) and a fresh time of last use, and nothing else changes |
| StackLoop.Stack.AcceptAll | src/tun_stack.rs:611-665 | exactly the active listeners become flows to the names that their addresses stand for, each replaced on a free handle unless listening fails; all else is unchanged |
| StackLoop.Stack.ServeTcp | src/tun_stack.rs:667-719 | every flow's socket is found and keeps its kind, UDP sockets stay; every connected flow makes one whole call of each byte mover, and ends exactly when it is refused, its upload gave up or its socket is finished |
| StackLoop.Stack.MoveTcp | src/tun_stack.rs:611-731 | the TCP part of a turn does what `SocketTables.TcpTurns` says and leaves UDP inboxes and flows alone |
| StackLoop.Stack.ReapTcp | src/tun_stack.rs:721-731 | exactly the ended flows leave, with exactly their sockets |
| StackLoop.Stack.ReceiveAll | src/tun_stack.rs:845-901 | empties one inbox into the flows, datagram by datagram, for which `UdpTables.ReceivedGot` holds |
| StackLoop.Stack.ServeUdp | src/tun_stack.rs:903-957 | exactly the flows of one listener have had their pass |
| StackLoop.Stack.ReapUdp | src/tun_stack.rs:959-973 | exactly the closed and idle flows leave |
| StackLoop.Stack.ProcessUdp | src/tun_stack.rs:835-974 | every inbox is emptied and every flow has its turn, whatever order the listeners are visited in; then exactly the closed and idle flows leave |
| StackLoop.Stack.SweepTcp | src/tun_stack.rs:494-507 | exactly the idle listening TCP sockets leave, with their targets and times |
| StackLoop.Stack.SweepUdp | src/tun_stack.rs:509-523 | exactly the idle UDP listeners without flows leave |
| StackLoop.Stack.OneTurn | src/tun_stack.rs:374-440 | a whole turn gives each destination of a packet its listener; no connection is left waiting: each has a served flow, unless it ended at once, and a replaced listener; every flow has been served or has left; every waiting datagram is in its flow's account; no ended, expired or, after a sweep, unused entry is left; nothing is forgotten unless a sweep is due |
| StackLoop.Stack.RunStack | src/tun_stack.rs:374-451 | after any number of turns of any kind the tables agree, so no lookup or removal ever misses, and every flow in them has lost no byte in either direction |
| StackLoop.OrphanForever | src/tun_stack.rs:388-397 | from a new stack: an entry whose target could not be listened for survives any turns without packets for it, with its old time |
| TcpFlows.ServedCarries | src/tun_stack.rs:667-719 | a flow's turn keeps the invariants of both byte movers |
| TcpFlows.ServedMoves | src/tun_stack.rs:667-719 | a flow connects exactly when its attempt succeeds and then for good; before that no byte moves, after that each turn is a run of each protocol that ends with a whole call coming to rest; it ends exactly by refusal, a dead upload or a useless socket |
| TcpFlows.FlowConserves | src/tun_stack.rs:684-716 | what those invariants mean for a flow in the table: no byte lost, duplicated or reordered, one FIN at most, behind the last byte |
| UdpFlows.ArriveKeeps | src/tun_stack.rs:889-900 | arrival keeps the bounds and the order; below the bound nothing is dropped |
| UdpFlows.ArriveConnected | src/tun_stack.rs:889-896 | a datagram for a connected flow joins the end of the queue and of what was sent, unless the queue is full behind what the writer took |
| UdpFlows.Flush | src/tun_stack.rs:921-928 | the fresh queue takes every pending datagram, in order, none dropped |
| UdpFlows.Deliver | src/tun_stack.rs:929-957 | the application's socket gets exactly the returned datagrams it takes, in order |
| UdpFlows.TakenInOrder | src/tun_stack.rs:929-950 | what the socket has got is what came back, in order, less what it refused; all of it exactly if it refused nothing |
| UdpFlows.Service | src/tun_stack.rs:903-957 | a flow that connects sends exactly what was pending and asks for no connection again; a connected flow holds nothing back and passes on what returns; it closes exactly on refusal or end |
| TcpDownload.InvAlways | src/tun_stack.rs:746-833 | the byte equation and the bounds hold in every state of every interleaving |
| TcpDownload.DownloadConserved | src/tun_stack.rs:752-827 | accepted, then pending tail, then channel, then the reader's chunk equals all bytes read; the counter equals the accepted length |
| TcpDownload.CloseComesLast | src/tun_stack.rs:805-832 | the socket is closed at most once per flow, and only when it has accepted every byte ever read |
| TcpDownload.RankFalls | src/tun_stack.rs:800-827 | every step of the loop lowers a rank that the reader cannot raise |
| TcpDownload.DeliverEnds | src/tun_stack.rs:800-827 | one call ends after at most 2 * free + 3 steps however fast the reader refills |
| TcpDownload.LeavesAtRest | src/tun_stack.rs:801-827 | a step of the loop leaves it if and only if it finds the channel empty, the socket closed or full, or has been taken less than it offered |
| TcpDownload.CallRests | src/tun_stack.rs:799-833 | every call, for any reader and any partial writes, is a run of the protocol that ends by coming to rest, and sends the FIN if and only if it found the channel empty and the reader gone |
| TcpDownload.CallDelivers | src/tun_stack.rs:799-833 | with a quiet reader and an open socket that takes what fits, a call delivers the pending tail and the channel, in order, up to the free space, and sends the FIN exactly if the reader has ended and all of it fitted |
| TcpDownload.ReadIsChunks | src/tun_stack.rs:752-765 | the bytes counted as read are the chunks the reader got from the tunnel, in order |
| TcpDownload.CanFinish | src/tun_stack.rs:746-833 | from every state between two calls there is a continuation in which every byte ever read is delivered and the FIN sent |
| TcpDownload.TcpFlow.NextChunk | src/tun_stack.rs:801-813 | the head of the loop is one step of the protocol, with end of stream only on an empty channel without sender |
| TcpDownload.TcpFlow.PushChunk | src/tun_stack.rs:814-826 | offering the tail is one step of the protocol, for any partial write |
| TcpDownload.TcpFlow.SendFin | src/tun_stack.rs:829-832 | the end of a call is one step of the protocol |
| TcpDownload.TcpFlow.DeliverDownload | src/tun_stack.rs:799-833 | the loop computes `Call` for any reader steps in between and any partial writes, so it has the properties above |
| TcpUpload.InvAlways | src/tun_stack.rs:684-792 | the upload invariant holds in every state of every interleaving |
| TcpUpload.UploadConserved | src/tun_stack.rs:684-790 | until the writer stops: written, then in the write, then queued equals drained; the pending count equals queued plus in-flight chunks |
| TcpUpload.UploadBounded | src/tun_stack.rs:684-790 | in all states the pending count is between 0 and 8 and what was written is a prefix of what was drained |
| TcpUpload.LeavesAtRest | src/tun_stack.rs:684-704 | a step ends the call if and only if there is no room or no sender, nothing waits in the socket, or the writer turned out to be gone |
| TcpUpload.CallRests | src/tun_stack.rs:684-704 | every call, for any writer and any reads, is a run of the protocol that ends so; a flow whose writer is gone is closed and has no sender |
| TcpUpload.CallDrains | src/tun_stack.rs:684-704 | with a quiet living writer and full reads a call queues all that waits in the socket, up to 64 KiB for each of the 8 chunks not yet pending |
| TcpUpload.DrainedIsArrived | src/tun_stack.rs:684-690 | what was drained and what waits in the socket are together what has arrived, in order |
| TcpUpload.CanWriteAll | src/tun_stack.rs:684-790 | from every state between two calls with a living writer there is a continuation in which everything that has arrived is written to the tunnel |
| TcpUpload.TcpUpload.WriterActs | src/tun_stack.rs:775-790 | the writer thread's code takes exactly the steps of the protocol that can happen |
| TcpUpload.TcpUpload.DrainUpload | src/tun_stack.rs:684-704 | the loop computes `Call` for any writer steps in between, so it has the properties above, and ends |
| FakePool.NormalizeTwice | src/fake_dns.rs:122-124 | normalising is idempotent |
| FakePool.LowerMeans | src/fake_dns.rs:122-124 | a lower-cased text has no ASCII capital and differs from the text in case alone; two texts are lower-cased to one if and only if they agree up to ASCII case |
| FakePool.TrimmedEnd | src/fake_dns.rs:122-124 | trimming takes all dots at the end and nothing else |
| FakePool.NormalizeMeans | src/fake_dns.rs:122-124 | two names normalise to one if and only if they agree up to ASCII case and trailing dots |
| FakePool.TablesInverse | src/fake_dns.rs:62-66 | slots and reverse index are inverse to each other, so no two names share an address |
| FakePool.InsertAgrees | src/fake_dns.rs:92-100 | overwriting the next slot keeps the ring equal to the last N fresh allocations, each in the slot of its number |
| FakePool.AddressHolds | src/fake_dns.rs:92-115 | at all times an address stands for the latest fresh allocation of its slot, and connections go there |
| FakePool.AddressFree | src/fake_dns.rs:103-115 | an address is written out exactly when it is outside the range or its slot was never given out |
| FakePool.AddressWindow | src/fake_dns.rs:86-115 | an address has its name until the N-th later allocation and another one for the N after; in general it is the name's exactly when the latest allocation of the slot was |
| FakePool.RequestsSpaced | src/fake_dns.rs:86-101 | a name is never allocated afresh within N numbers |
| FakePool.AnswerWindow | src/fake_dns.rs:86-115 | for every history of requests an answered address connects to the latest allocation of its slot: the normalised name for that window, another for the N after |
| FakePool.RepeatDoesNotRenew | src/fake_dns.rs:89-91 | for every list, pool size and name: a repeat changes nothing, and the answer lasts exactly j + N - count further fresh allocations, N - 1 if and only if the name is the newest |
| FakePool.ServerRange | src/fake_dns.rs:29-31 | the server's pool is 198.19.0.2 to 198.19.255.254, and the class accepts it |
| FakePool.FakeIpPool.Allocate | src/fake_dns.rs:86-101 | follows the simple list account; the address maps back to the normalised name; a known name changes nothing |
| FakePool.FakeIpPool.AllocateTwo | src/fake_dns.rs:86-101 | two spellings of one name get one address and one slot; two names have different addresses for as long as the first one's is its own |
| FakePool.FakeIpPool.LookUp | src/fake_dns.rs:103-115 | finds exactly the name in the address's slot, nothing outside the range |
| FakePool.FakeIpPool.AllocateAll | src/fake_dns.rs:86-101 | any sequence of requests leaves the ring in agreement with the list account |
| DnsCodec.ReadQuery | src/fake_dns.rs:157-191 | the loop over labels computes the parse on every packet, terminating on what is left of it |
| DnsCodec.QueryRoundTrip | src/fake_dns.rs:399-409 | parsing an encoded query recovers name, type, class and exact end for any labels, header and trailing bytes |
| DnsCodec.AcceptedIsEncoded | src/fake_dns.rs:157-191 | what is accepted is, byte for byte, the encoding of its labels, type and class, and 17 <= end <= length |
| DnsCodec.AcceptsExactlyQueries | src/fake_dns.rs:157-191 | a packet is accepted if and only if it is an encoded query |
| DnsCodec.SplitUndoesJoin | src/fake_dns.rs:186 | splitting at dots undoes the join if and only if no part has a dot |
| DnsCodec.NameDeterminesLabels | src/fake_dns.rs:168-186 | the name of an accepted packet gives back its lower-cased labels if and only if no label reads as text with a dot |
| DnsCodec.NameIsLowered | src/fake_dns.rs:180-186 | the name of an accepted query has no ASCII capital and is the labels' text up to case |
| DnsCodec.DotAmbiguous | src/fake_dns.rs:168-186 | any two neighbouring ASCII labels that fit into one make two accepted packets with equal names and different labels |
| DnsCodec.WriteResponse | src/fake_dns.rs:195-214 | the appending loop writes header, question and one record per address, in order |
| DnsMessage.ResponseReads | src/fake_dns.rs:195-214 | a reference decoder recovers id, flags, question and the addresses in order, owner names through the pointer; the length is end + 16 per answer |
| DnsMessage.OwnerPointer | src/fake_dns.rs:205-211 | the owner pointer of an answer resolves to the question name |
| DnsMessage.OctetsRoundTrip | src/fake_dns.rs:205-211 | the four octets of a record stand for the address |
| DnsMessage.AllAnswersRead | src/fake_dns.rs:195-214 | all addresses are recovered if and only if there are fewer than 65536 |
| DnsMessage.ResponseIsNoQuery | src/fake_dns.rs:161-167 | the query parser rejects every response |
| DnsMessage.QueryByHeader | src/fake_dns.rs:157-167 | by the reference reading of the header, exactly standard queries with one question are taken for queries |
| FakeDns.Decide | src/fake_dns.rs:224-238 | forwards exactly unmanaged names; only managed A queries without a routed address use the pool, and their answer maps back |
| FakeDns.Serve | src/fake_dns.rs:297-345 | ignores what does not parse; every reply, read by the reference decoder, has the query's id and question, the right code and the right address |
| FakeConnections.ServeAll | src/fake_dns.rs:297-345 | whatever is sent to the server, each query is ignored, relayed or well answered as it should be, and the pool follows the list of names asked of it |
| FakeConnections.AnsweredNameConnects | src/tun_stack.rs:617-633 | the flow of a connection to an answered address goes to the latest allocation of its slot: the answered name within the window of N, another for the N after |
| FakeConnections.AnswerThenConnect | src/tun_stack.rs:617-633 | end to end: the server answers a query and serves any others, also between two accepts; every flow to the answered address goes where the allocations at its own moment say: to the normalised query name for that window |
| EngineLatch.InvAlways | src/vpn_engine.rs:166-204 | the latch invariant holds in every state of every interleaving of workers, cancels and takes |
| EngineLatch.SlotIsFirstFailure | src/vpn_engine.rs:770-789 | the slot holds exactly the first failure published since the last take |
| EngineLatch.ClosedHasFailure | src/vpn_engine.rs:777-789 | with no cancel or take so far, close implies the first published failure is in the slot, and no worker ends without one |
| EngineLatch.LeavingIsClosed | src/vpn_engine.rs:536-547 | a worker leaves its loop only after close is set, so it never reports that it stopped unexpectedly |
| EngineLatch.FailureStays | src/vpn_engine.rs:770-775 | a failure in the slot does not change until taken |
| EngineLatch.CloseStays | src/vpn_engine.rs:166-178 | close is never cleared |
| EngineLatch.CancelCloses | src/vpn_engine.rs:166-178 | after a cancel close is set for good |
| EngineLatch.FatalIsPublished | src/vpn_engine.rs:493-535 | a worker that meets a fatal error ends only after it has published that error and set close |
| EngineLatch.PublishedWasMet | src/vpn_engine.rs:770-789 | nothing but fatal errors that a worker has met is ever published |
| EngineLatch.WorkersEnd | src/vpn_engine.rs:536-547 | once close is set each worker takes at most three more steps and ends |
| EngineLatch.Latch.SetResult | src/vpn_engine.rs:770-775 | publishes only into an empty slot, as one step of the protocol |
| EngineLatch.Latch.FailEngine | src/vpn_engine.rs:777-789 | publishing and closing with anything in between leaves close set and, unless a result was taken, a failure in the slot |

## Left out

Assumptions:

- The undo file is written in one step and can be read and removed; nothing outside edits routes while
  the helper runs, and deleting a listed route succeeds.
- The operating system may refuse to add any route and may fail while it applies the NRPT rule; what the
  registry calls leave behind in that case is arbitrary, and clearing the rule succeeds.
- The generation counter does not wrap at 64 bits; byte counters do not wrap.
- The thread that publishes an engine goes on as its monitor; the source spawns a new thread, which no
  other thread can tell apart.
- A cleanup may be called at any time; the source calls it at boot and, for the cleanup command, after a stop.
- Nobody else routes through the helper's own adapter, which `InstalledPlan.NodeAfterInstall` needs.
- `TcpTunnel::write` returning Ok means the whole chunk was written; a read never returns an empty chunk.
- A smoltcp socket accepts some prefix of what is offered, polls may change socket states at will but
  neither add, remove nor convert sockets, and a new socket gets any handle not in use.
- Lossy UTF-8 reading, trimming, and the parsing of addresses and numbers belong to the standard library
  and are parameters; letter case is folded for ASCII as the source does.
- The best route to an address is a function while one plan is made.

Not modelled:

- NetworkPlan.BuildNetworkPlan: takes the node addresses as resolved; reading the resource file, cutting the host
  out of an endpoint and resolving it are not part of the model.
- TcpDownload.CloseComesLast: speaks of bytes the socket accepted, not of bytes the application received,
  because a flow in LastAck may be retired with data still buffered.
- StackLoop.Stack.ServeTcp: takes from outside what a flow's threads, the application and the stack do around and
  during its two calls; which state a socket is in after them, aborts included, is the stack's affair.
- UdpFlows.Service: leaves out the byte counters.
- Wake-ups, the armed flag, poll delays and all other timing and scheduling. That threads make progress is not proved, only that they always can.
- Which packets a stack accepts, packet parsing, checksums, smoltcp itself, and the closing of tunnels.
- Routing decisions, the connection attempts and the gateway protocol of the reatrust library.
- Sockets, sending and upstream forwarding of the DNS server; the limit on requests in flight is a parameter.
- Windows and Wintun calls, the registry, the service host, named pipes, JSON messages and logs.
- The macOS helper, whose route undo is not exact by design, and the Linux device setup.
- One-branch helpers such as `is_ipv6_packet` and `strip_packet_information`.
