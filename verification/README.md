# wslcsession: a verified model

wslcsession gives a Go program a dedicated wslc virtual machine.  This project
models, in Dafny 4.11, the parts of it where things can go wrong and proves what
they promise:

* **The session protocol** (`SessionMachine.dfy`).  Any number of client threads
  hand closures to one COM thread over an unbuffered channel, under a read lock
  that `Close` excludes with the write lock.  The machine's state is the lock, the
  channel, the once-guards, the program counter and captured variables of every
  thread, the COM thread's place, and the trace of COM calls.  Every scheduling
  choice and every outcome of a foreign call is part of an action, so a run is a
  sequence of actions.  `dial`, `DisplayName`, `Session.Close`, `guestConn.Close`
  and `CloseWrite` are all tasks of the same threads.  The invariants are proved
  one concern at a time (`SessionLocks`, `SessionConns`, `SessionProcesses`,
  `SessionTrace`, `SessionHistory`, `SessionClosures`), progress in `SessionProgress`,
  `SessionTheorems` states what holds of every reachable state, and `SessionCalls`
  what each call has done by the time it returns.  The COM trace is
  judged by a monitor of its own (`ComTrace.dfy`).
* **Initialisation** (`SessionBoot.dfy`): the COM thread before its request loop,
  as imperative code over a service whose every call may fail.
* **The relay.**  `Bridge.dfy` is the loop of `bridge.c` over a real buffer,
  `GuestConn.dfy` the connection, `Proxy.dfy` the proxy's copy loop; their
  environment chooses every chunk size, readiness and failure.  The order of their
  system calls is proved to be one that two small machines accept (`BridgeSpec`,
  `CopierSpec`), and `Relay.dfy` composes exactly those machines into the whole
  path client - copier - guest stdin - bridge - target and back.
  `RelayTheorems.dfy` states the end-to-end results, and `RelayMishaps.dfy` exactly
  what comes of each failure; `RelayRuns.dfy` shows two runs.
* **The codecs** that cross files: dial targets (`Target.dfy`), volume options
  (`Volumes.dfy`), GUID text (`Guid.dfy`).

## Assumptions about the environment

* The COM trace records calls of the interfaces in comapi.go; a volume refused before
  the service is asked is recorded as that (`RefuseVolume`).
* COM requests return, and a closure handed to `do` never calls `do` itself (true
  of every closure in session.go).  Each closure is one step of the COM thread.
* `poll` reports only open descriptors, at least one of them, and is interrupted
  finitely often.
* A blocked write of the relay makes progress or fails; so a pipe has no bound.  That
  both connections are closed in the end also takes both peers to half-close.
* A char in a string stands for one byte.

## Where the code does less than one might expect

Each of these has a run or an input that shows it, and the exact condition.

* A `dial` that reports no error can return a connection whose process is nil or
  whose handles are zero, and closing one with a nil process panics
  (`PanicHappens`).  The process is there exactly when the dial's creation call was
  settled before the session was stopped, the handles exactly when its lookup call
  was (`DialIsWholeExactly`); the panic comes exactly in the first case
  (`ClosePanicsExactly`).  A connection made while the session is live is whole and
  stays so, and closing it never panics, also after the session's end
  (`LiveDialsAreWhole`).
* When only the stdout handle cannot be looked up, `dial` leaves the stdin handle open
  (`StdinLeftOpen`); those are exactly the handles nobody has (`HandlesAccountedFor`).
* After `Session.Close` a process reference is dropped, not released (`DropHappens`):
  exactly when the one call made to release it was settled after the stop
  (`ReleasedExactly`).
* The bridge and the copiers take a read error for an end of file
  (`ReadErrorTruncates`): the receiver is then given everything exactly when no read
  failed with something still to come (`EofIsWholeExactly`, `Bridge.Relay`).
* A zero-length `Read` reports end of file (`Conn.Read`).
* A unix path over 107 bytes is cut silently (`UnixRoundTrip`), and a volume of 2^44
  megabytes or more is handed over with a wrapped size (`SizeBytesExactly`).

## Model

| member | source | states |
|---|---|---|
| SessionTheorems.OnlyNilRelease | session.go:139-163 | no run sends on the closed request channel, closes a channel twice or asks a nil process for a handle; the only panic is Close of a nil-process connection |
| SessionTheorems.ClosedChannelIsQuiet | session.go:35-47 | once the channel is closed the session is stopped and no thread is between its stopped check and its unlock with a closure still to send or await |
| SessionTheorems.PanicsExactly | session.go:241-243 | a step panics if and only if it evaluates Release for a connection whose process is nil |
| SessionTheorems.LiveDialsAreWhole | session.go:196-243 | a connection made while the session is live has a process and both the handles the service handed out for it, keeps them over every later run, and no step of closing it ever panics |
| SessionTheorems.DialIsWholeExactly | session.go:196-237 | a dial without error yields a process if and only if its creation call was settled before the stop, and handles if and only if its lookup call was |
| SessionTheorems.ClosePanicsExactly | session.go:209-243 | whatever happens in between, closing the connection a dial returned panics if and only if that dial's creation call was settled after the stop |
| SessionTheorems.RanExactly | session.go:139-148 | a settled do call ran its closure if and only if it was settled before the stop, and was skipped if and only if after |
| SessionClosures.ClosuresKept | session.go:137-271 | every step keeps each dial's process and handles, and each process's end, in agreement with whether the call for it ran |
| SessionRuns.DialAndCloseWork | session.go:196-271 | a client alone on a fresh session dials and closes: mount, one process, both handles, the whole teardown, one release, and nothing else |
| SessionRuns.PanicHappens | session.go:209-243 | a client that closes its session, dials and closes the connection ends in that panic |
| SessionRuns.DropHappens | session.go:241-243 | a client that closes its session before its connection ends with the process reference dropped |
| SessionRuns.StdinLeftOpen | session.go:224-234 | a client whose dial cannot look up stdout ends with the process released and the stdin handle left open |
| SessionTheorems.DeadlockFree | session.go:127-163 | in every reachable state with an unfinished call some step other than starting a new call is enabled |
| SessionTheorems.Termination | session.go:127-163 | every run is finite, bounded by a rank of its first state |
| SessionTheorems.RunsAreLinear | session.go:127-163 | a session whose threads make n calls in all takes at most 25 n + 6 steps, however they interleave |
| SessionTheorems.MaximalRunsFinish | session.go:127-163 | a run without a panic that can go on only by new calls has returned every call made, and if anyone called Close the COM thread has torn everything down |
| SessionProgress.RankFalls | session.go:127-163 | every step of every thread under every outcome lowers the rank |
| SessionProgress.NoDeadlock | session.go:137-163 | whoever is blocked waits, through locks, once-guards and the channel, for a thread that can step |
| SessionProgress.StopperProceeds | session.go:152-163 | the thread inside Session.Close can step, or waits for readers or the COM thread, which can |
| SessionTheorems.RunOrSkipped | session.go:137-148 | each do call runs its closure once wholly between call and return on a live session, or never, and then only after the stop |
| SessionTheorems.ClosuresAreSerial | session.go:127-129 | no closure runs twice and no two overlap |
| SessionTheorems.RealTimeOrder | session.go:139-148 | if one call returned before another was made and both ran, they ran in that order |
| SessionHistory.LogKept | session.go:139-163 | every step keeps the history of do linear |
| SessionTheorems.TraceShape | session.go:104-135 | the COM trace of every run is boot calls, requests, then a prefix of Terminate, session Release, manager Release |
| SessionCalls.CloseReturnsAfterTeardown | session.go:150-163 | from any caller's Close to its return, also a second concurrent one, over every run: the session is closed and the COM trace complete |
| SessionCalls.ConnCloseReturns | conn.go:76-87 | from a connection's Close to its return, whoever else closed it or its write side: shut, both handles closed, release asked for, once each and in order |
| SessionCalls.CloseWriteReturns | conn.go:69-74 | from CloseWrite to its return: the write side has been shut |
| SessionCalls.NameReturns | session.go:166-173 | from DisplayName to its return: its closure asked the service, unless the session was stopped before |
| SessionCalls.DialReturns | session.go:196-237 | from dial to its return: an error if and only if one of its closures reported one; else a connection made in this call, its process created in this call for the dialled target, its handles those of that process, both there while the session is live |
| SessionCalls.DialServesItsTarget | session.go:207-217 | every process a dial asks for is for the dialled target, whatever other dials are in progress |
| SessionCalls.ErrorsAreReal | session.go:217-270 | an error a dial reports is the service's, told by the last COM call, or a failed extraction |
| SessionCalls.LateCallsNeverRun | session.go:139-157 | a do call made once a Close has asked for the write lock never runs its closure |
| ComTrace.AcceptedShape | session.go:123-135 | a trace the monitor accepts has that shape, with nothing after it |
| ComTrace.DependentCalls | session.go:196-271 | a process is created only from the mounted directory after a successful mount; a handle is asked only of the process the same dial created, the thread's last, unreleased, each handle once and stdout after stdin; nothing is released or mounted twice |
| ComTrace.LookedUpByOne | session.go:224-230 | no process's handles are looked up by two closures |
| ComTrace.MonitorAwaits | session.go:209-230 | the lookup the monitor awaits from a thread is of the process that thread created last, and was not made before |
| ComTrace.MonitorRemembers | session.go:245-271 | what the monitor remembers of mounts, creations and releases is what the trace contains |
| SessionTrace.TraceKept | session.go:127-135 | every step keeps the COM trace acceptable and the monitor in agreement with the session's own variables |
| SessionTheorems.ReferencesConserved | session.go:209-243 | each created process is held by one dial in progress or one connection, or released exactly once by the call made for it, or dropped because that call came after the stop |
| SessionTheorems.ReleasedExactly | session.go:241-243 | at most one call is ever made to release a process; it is released if and only if that call was settled before the stop, and dropped if and only if after |
| SessionTheorems.FatesOfAllProcesses | session.go:209-220 | the processes accounted for are exactly those the COM trace created |
| SessionProcesses.FatesKept | session.go:209-243 | every step moves a reference from exactly one holder to exactly one other |
| SessionProcesses.DialsKept | session.go:196-237 | what each closure of dial may rely on from the ones before it, as long as the session is live |
| SessionTheorems.ConnTeardownInOrder | conn.go:69-87 | however many threads call Close and CloseWrite, a connection's operations are a prefix of shut write, close stdin, close stdout, ask for release, and all four once Close is over |
| SessionTheorems.HandlesAccountedFor | session.go:222-236 | a socket handle handed out is left open, its dial's next call having failed to look up stdout, if and only if no dial and no connection has its process's handles |
| SessionConns.ConnsKept | conn.go:69-87 | every step keeps the once-guards and the operations of every connection in agreement |
| SessionLocks.LocksKept | session.go:139-163 | every step keeps the discipline of the read lock, write lock, channel and closeOnce |
| SessionBoot.Session.ComThreadStart | session.go:84-125 | all or nothing for every volume list and every pattern of failures, with the exact trace in each case |
| SessionBoot.FailureGivesBack | session.go:88-121 | after any failed start every reference taken was given back once, on live objects, a created session terminated first |
| SessionBoot.BootBalance | session.go:98-125 | after a successful start one manager and one session reference are held |
| SessionBoot.NewSession | session.go:58-78 | refused for want of a storage path if and only if there are volumes and no path; every other failure is one the service's log shows; a returned session starts as the protocol assumes |
| SessionBoot.Service.Volumes | session.go:111-121 | volumes are created in list order up to the first that is refused or fails |
| Volumes.Refusals | comapi.go:239-249 | exactly which volumes are refused before the service is asked |
| Bridge.WriteAll | bridgesrc/bridge.c:22-30 | all n bytes in order, or failure after a prefix |
| Bridge.Forward | bridgesrc/bridge.c:133-163 | one ready direction: a chunk written whole, an end of file forwarded, or an abort that loses nothing silently |
| Bridge.Relay | bridgesrc/bridge.c:109-166 | terminates; its calls are ones the bridge machine accepts; without abort both ends are half-closed and each direction has delivered all but what a failed read left, the whole if and only if nothing was left; outputs are always prefixes |
| BridgeSpec.ReplayConserves | bridgesrc/bridge.c:124-164 | in both directions bytes read are bytes written plus the buffer; a direction is disabled exactly when its output was shut |
| BridgeSpec.ShutIsLast | bridgesrc/bridge.c:133-163 | nothing is read, written or shut again in a direction after its shut |
| BridgeSpec.EndIsForwardedAtOnce | bridgesrc/bridge.c:145-159 | the call right after an end of file shuts that direction's output, whatever the other still has to do |
| BridgeSpec.BufferIsWrittenOut | bridgesrc/bridge.c:133-163 | the shared buffer is written out before either direction reads into it |
| BridgeSpec.PollsAreLive | bridgesrc/bridge.c:124-131 | poll is never entered with both directions disabled nor reports a shut one |
| GuestConn.Conn.Read | conn.go:36-45 | reads lose and reorder nothing; end of file exactly for an empty buffer or a finished stream |
| GuestConn.Conn.Write | conn.go:47-60 | hands over a prefix in order and succeeds exactly when that is everything, nothing after CloseWrite; its calls are the copier machine's |
| GuestConn.Conn.CloseWrite | conn.go:69-74 | shuts the write side once, in one call, and keeps the rest |
| GuestConn.Conn.Close | conn.go:76-87 | after any earlier calls, each of the four operations once and in order |
| Proxy.Pump | cmd/wslcdemo/proxy.go:91-104 | copies a prefix, and unless a write fails all but what a failed read left, and always half-closes the destination last |
| CopierSpec.ShutOnceAtTheEnd | cmd/wslcdemo/proxy.go:91-104 | a copier forwards the half-close once, as its very last call |
| RelayTheorems.Conservation | bridgesrc/bridge.c:124-164 | delivered bytes and the bytes in every hop are in order exactly what the sender sends, in each direction that lost no write, whatever fails in the other and whatever reads fail |
| RelayTheorems.OnlyPrefixes | conn.go:36-60 | whatever fails, a receiver's bytes are a prefix of the sender's |
| RelayTheorems.EofAfterData | bridgesrc/bridge.c:116-123 | in a clean direction, whatever fails in the other, a visible end of file means everything was delivered and the sender half-closed |
| RelayMishaps.EofIsWholeExactly | bridgesrc/bridge.c:133-163 | in a run that loses no write of a direction, a receiver at end of file has everything if and only if no read of the direction failed with something still to come |
| RelayMishaps.DeliveredExactly | bridgesrc/bridge.c:116-163 | and once, short of a failure, only the other direction's peers can go on, a half-closed direction is delivered completely if and only if that never happened |
| RelayMishaps.CleanExactly | bridgesrc/bridge.c:124-163 | a direction ends a run clean if and only if no step failed a read in it, failed its copier's write, or killed the bridge while it was open |
| RelayRuns.ReadErrorTruncates | bridgesrc/bridge.c:133-147 | a run in which one failed read makes the target see the end of an empty stream |
| RelayTheorems.HalfCloseIsIndependent | bridgesrc/bridge.c:116-163 | over any part of any run, whatever half-closes and failures happen in one direction, a clean other direction loses, gains and reorders no byte, shows its end of file only after its own sender's and all its data, and is delivered completely once, short of a failure, only the peers of the first, open or not, can go on |
| RelayTheorems.OneWayDelivery | bridgesrc/bridge.c:146-157 | a half-closed direction reaches its receiver's end of file, complete if clean, though the other direction stays open and silent for ever |
| RelayRuns.OpenClientIsServed | bridgesrc/bridge.c:146-157 | a run in which nothing fails, the client never half-closes, and it is given the whole response and its end of file while its own direction stays open |
| RelayTheorems.UnfinishedSteps | cmd/wslcdemo/proxy.go:79-109 | the relay never stands still: unless all is finished, a step other than a failure or an interrupted poll can be taken |
| RelayTheorems.CloseAfterBoth | cmd/wslcdemo/proxy.go:79-109 | neither connection is closed before both copiers are done and both half-closes forwarded |
| RelayTheorems.Termination | bridgesrc/bridge.c:124-164 | every run of the whole relay is finite: at most 24 steps a byte sent, one an interrupted poll, and 55 more |
| RelayTheorems.Completion | cmd/wslcdemo/proxy.go:79-109 | every run that, short of a failure, can go no further has closed both connections after both copiers, and delivered each clean direction completely, whatever failed in the other |
| Relay.InvKept | bridgesrc/bridge.c:109-164 | every step, also a failing one, keeps the account of every hop |
| Target.MakeStringArray | comapi.go:311-329 | fails exactly when an item has a NUL; each pointer reads back as its item |
| Target.DialArgv | session.go:182-216 | a NUL-free target reaches the bridge, through the shell and its script, as the argument it was dialled with |
| Target.UnixRoundTrip | bridgesrc/bridge.c:32-46 | the dialled path is connected to exactly when it has at most 107 bytes, else its first 107 |
| Target.TcpRoundTrip | bridgesrc/bridge.c:48-63 | the address is taken apart into a host of 1 to 255 bytes and a colon-free port, and no other pair |
| Target.TcpRefusals | bridgesrc/bridge.c:48-60 | exactly which addresses are refused, for each of the two reasons |
| Target.TargetsAreDialled | bridgesrc/bridge.c:94-103 | the bridge understands exactly the arguments a dial can produce |
| Volumes.VolumeFlag.Set | cmd/wslcdemo/main.go:55-73 | appends what the argument means, in order; a bad argument changes nothing |
| Volumes.ParsePrint | cmd/wslcdemo/main.go:55-73 | name:size:fixed parses back to the same options |
| Volumes.ParseExactly | cmd/wslcdemo/main.go:55-73 | exactly which arguments mean which options: a colon-free name, a decimal size below 2^64, an optional flag out of the twelve texts, and anything after a third colon ignored |
| Volumes.FlagExactly | cmd/wslcdemo/main.go:64-70 | the six flag texts that mean fixed, the six that mean not, and an error for every other |
| Volumes.PartRefusals | cmd/wslcdemo/main.go:56-63 | exactly which arguments are refused for want of a colon, and for which of the two reasons their size is |
| Volumes.DriverIsTold | comapi.go:251-261 | the driver gets the size in bytes modulo 2^64 in decimal, and true or false for fixed, and nothing else |
| Volumes.SizeBytesExactly | comapi.go:236-260 | the driver is told the exact byte count if and only if the size is below 2^44 megabytes |
| Volumes.SizeWrapsToZero | comapi.go:254-254 | 2^44 megabytes are handed over as 0 |
| Volumes.Pipeline | comapi.go:236-261 | printed, parsed and formatted, a size below 2^44 megabytes arrives as its exact number of bytes |
| Guid.ParseGUID | com.go:30-67 | the part-by-part parser computes Parse |
| Guid.ParseExactly | com.go:30-67 | a text is accepted as g if and only if, between any braces, it is the canonical text of g in either case |
| Guid.RoundTrip | com.go:30-67 | the canonical text of any GUID with any braces around it parses to that GUID |
| Text.SplitJoin | cmd/wslcdemo/main.go:56-56 | separator-free parts are what their join splits into |
| Text.DecimalValue | comapi.go:254-254 | decimal formatting denotes the number |

## Left out

- RelayTheorems.Completion: covers connections whose dial succeeded, and peers that keep reading and in the end half-close; of a peer that never does, only the other direction is promised (RelayTheorems.OneWayDelivery), since handleProxyConn waits for both copiers.
- Relay.InvKept: closing the two connections after the join is two steps without effect on bytes already handed to the operating system.
- GuestConn.Conn.Close: is the sequential form; calls from many threads, the nil process and the stopped session are in the session machine.
- Target.DialArgv: ends at argv; entrypoint.sh, which passes its argument on, and the name lookup and connect themselves are operating-system effects.
- The session protocol, the bridge's accepted calls and the relay are modelled on values as state machines, since they are statements about interleavings; the loops themselves are imperative code proved against those machines.
- Closures run as one step of the COM thread; panics inside a closure are not modelled, and no closure of session.go but the nil process lookup could raise one.
- The wording of errors, and which HRESULT a failed COM call returned; the one HRESULT the code looks at, already mounted, counts as a successful mount.
- Vtable dispatch, struct layouts, COM and Winsock start-up beyond success or failure, and the finalizer.
- Extracting and building the bridge binary beyond success or failure of the extraction.
- Reading or writing a guestConn after its Close; deadlines and addresses, which are constants.
- The listener loop, signal handling, flag declarations other than -volume, and demo.go.
- Option defaults, HRESULT helpers, and the stub for other platforms: one-branch facts.
