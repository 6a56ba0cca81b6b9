# Robomongo core: a verified model

Dafny models of the parts of Robomongo where state, interleaving or text formats make it hard
to see that the code is right, with proofs of what those parts are for.

**The SSH tunnel** (`Tunnel*.dfy`, `PointerArray.dfy`) is the centre. `ssh.c` multiplexes client
sockets over one SSH connection with a hand-written `select` loop, inside a reconnect loop,
driven by a worker thread. The operating system and libssh2 are a class, `TunnelWorld.World`,
whose answers are arbitrary within what each call promises. Every call leaves an event in a
log. `TunnelTrace` holds an automaton over events that knows descriptors, sessions, channels
and bytes but nothing of the engine; a call may be made only where its event is legal, so
verifying the engine (`TunnelSession`, `TunnelEngine`, `TunnelWorker`) shows that every log it
can produce, under every behaviour of the outside, is accepted. A result may be booked only
after the calls that a dispatch of that socket owes, and only the result they decide
(`TunnelEvents`). `TunnelTheorems` and `TunnelDispatch` then say what an accepted log means in
terms of the events alone: projections of the log to byte streams, counts of acquisitions and
releases, the sockets handed out between two selects, how each of them is served. An accepted
log has only accepted prefixes, so these statements hold at every moment of a run.

**The BSON printer** (`Decimal`, `BsonText`, `BsonPrinter`, `BsonReader`, `BsonRoundTrip`,
`BsonLayout`): the two mutually recursive `jsonString` overloads with their loops are proved to
print the text that `BsonText` describes. An independent recursive-descent reader is proved to
get the document back from it at every layout level, and an independent scan says where its
lines break and how far they are moved in.

**The event bus** (`EventBus`) and **the opening protocol** (`OpeningProtocol`, `OpeningRuns`):
classes with the source's lists, refined to functions on values, and theorems over all
histories of operations. The requests the App sends to a tunnel worker are tied to what that
worker needs in order to close its session (`WorkerTraffic`, `Serve`).

**Settings** (`Variants`, `ReplicaSetSettings`, `ConnectionSettings`, `SettingsImport`), **created
databases** (`CreatedDatabases`) and **UUID texts** (`UuidText`): saving and loading, importing
with duplicate matching, the overlay of still-empty databases, the legacy byte orders.

Two promises do not hold of the code for all inputs. Each is stated with the exact condition
under which it holds and with inputs for which it fails. A saved connection survives a load
exactly when its host has at most 300 characters and it has an identifier (`SavesAgain`;
failing: `NewDoesNotSaveAgain`, `LongHostDoesNotSaveAgain`). The text of a UUID turns back into
its digits exactly when there are 32 of them (`RoundTrip`; failing: `LongerIsLost`,
`ShorterThrows`). Three more limits are part of theorems: a worker whose first tunnel came up
and whose next request is for another loses the first session (`Serve`), a failed send is
overridden by any later end of stream in the same dispatch, even another client's (`ErrorIff`),
and a client accepted after the tunnel was found without channels is never listened to
(`LateClientUnheard`, `LateClientHappens`). The comments above `handle_new_client_connections`
and `handle_ssh_connections` name only 0 and -1 as results; the first also returns the channel
creation error and the second -2, and the model follows the code.

The bus, the App and the worker with the created databases each carry their history and are
proved equal to what that history makes of them, so the theorems over histories are theorems
about the objects.

## Model

| member | source | states |
|---|---|---|
| PointerArray.Add | src/robomongo/ssh/array.c:12-27 | appends to the sequence the array stands for, fails exactly on a missing array with a size or without memory, and then changes nothing |
| PointerArray.Remove | src/robomongo/ssh/array.c:29-57 | deletes the first occurrence and keeps the order of the rest; fails with everything unchanged when there is none or no memory; the array becomes NULL exactly when its last element goes |
| PointerArray.AddThenRemove | src/robomongo/ssh/array.c:12-57 | removing an element just appended gives back the old contents, or takes the older occurrence when it was there before |
| PointerArray.WithoutElements | src/robomongo/ssh/array.c:44-47 | where each remaining element of a deletion ends up, and that the multiset loses that one element |
| TunnelTrace.NextOk | src/robomongo/ssh/ssh.c:311-604 | no legal event breaks the bookkeeping: descriptors are not shared, channels belong to live sessions over open SSH sockets, what was written is a prefix of what was received, every byte read is sent, pending or lost, at most 25 EAGAIN results in a row |
| TunnelTrace.AcceptedPrefix | src/robomongo/ssh/ssh.c:311-391 | whatever holds of accepted logs holds at each moment of a run |
| TunnelState.RemoveChannelHolds | src/robomongo/ssh/ssh.c:215-242 | closing the socket of any one channel and then freeing its libssh2 channel is legal and leaves all other channels held |
| TunnelState.AddChannelHolds | src/robomongo/ssh/ssh.c:189-213 | a freshly accepted client may be tied to a new libssh2 channel, and the session then holds exactly one more |
| TunnelState.SelectOkHere | src/robomongo/ssh/ssh.c:333-342 | the loop's own invariant on master set and channel list implies what select demands: all members open and at most fdmax, and an open client is a member exactly when a live channel serves it |
| TunnelState.ServedIffHeld | src/robomongo/ssh/ssh.c:247-253 | a client socket has a live channel in the outside world exactly when the session's channel list has an entry for it |
| TunnelSession.TeardownOrder | src/robomongo/ssh/ssh.c:279-308 | a cleanup makes no call exactly when nothing is held, so a second one does nothing; otherwise each channel gives a socket close and a channel free, in list order, the session comes after all channels and the SSH socket last |
| TunnelSession.Session.constructor | src/robomongo/ssh/ssh.c:87-120 | a new session holds nothing |
| TunnelSession.Session.CreateChannel | src/robomongo/ssh/ssh.c:189-213 | the channel list grows by exactly that pair and the buffers are new |
| TunnelSession.Session.FindBySocket | src/robomongo/ssh/ssh.c:247-253 | finds an entry with that socket, or none of the session's sockets is it |
| TunnelSession.Session.CloseChannel | src/robomongo/ssh/ssh.c:215-242 | exactly that entry leaves the list, its socket is closed and then its libssh2 channel freed |
| TunnelSession.Session.Cleanup | src/robomongo/ssh/ssh.c:279-308 | makes exactly the calls of the teardown sequence, keeps the listener, ends with no channels, session or SSH socket; terminates |
| TunnelSession.Session.SshSetup | src/robomongo/ssh/ssh.c:256-277 | makes exactly the calls of a setup up to the first that fails; succeeds exactly when there is a libssh2 session afterwards; on failure what was opened is still held for the cleanup |
| TunnelSession.Session.SessionSetup | src/robomongo/ssh/ssh.c:164-180 | as above with the listener; succeeds exactly when both session and listener are there, and fails only because a call failed |
| TunnelSession.Session.SessionClose | src/robomongo/ssh/ssh.c:123-136 | closes the listener, then cleans up; everything is given back and the session counts as closed once |
| TunnelEngine.ForwardChunk | src/robomongo/ssh/ssh.c:516-526 | over any partial sends the whole chunk goes to that channel's own client in order, or a failed send loses the rest |
| TunnelEngine.DeliverChunk | src/robomongo/ssh/ssh.c:516-534 | the chunk is forwarded, then the channel is asked for its end: end of stream makes the result a success, otherwise a failed send an error |
| TunnelEngine.PumpChannel | src/robomongo/ssh/ssh.c:479-534 | reads the channel until the first EAGAIN, error or end of stream and no further; the result is the verdict of its events; "again" means exactly one read, answered EAGAIN |
| TunnelEngine.PumpRounds | src/robomongo/ssh/ssh.c:474-538 | goes through the channels in list order and stops early only after a failed read; AGAIN exactly when every channel was without data |
| TunnelEvents.VerdictConcat | src/robomongo/ssh/ssh.c:475-538 | the result of a dispatch composes over its parts: the last failure or end of stream decides |
| TunnelEvents.ErrorIff | src/robomongo/ssh/ssh.c:475-538 | a dispatch on the SSH socket ends as an error exactly when some send or read failed and no channel, of whatever client, came to the end of its stream after that |
| TunnelEngine.HandleSsh | src/robomongo/ssh/ssh.c:463-539 | AGAIN exactly when there are channels and all that happened is one EAGAIN read of each in list order, so that nothing changed; otherwise the verdict of the events; every channel is read to its stop, in list order, unless a read failed; without channels both listener and SSH socket leave the master set |
| TunnelEngine.WriteAll | src/robomongo/ssh/ssh.c:580-604 | success exactly when all received bytes were written; failure exactly on a hard error or the 101st EAGAIN; at most nbytes + 101 calls plus one per write that took no byte |
| TunnelEngine.ServeClient | src/robomongo/ssh/ssh.c:552-604 | one recv of at most the buffer size; what it brought is appended to the client's bytes and succeeds exactly when all of it was written |
| TunnelEngine.DropClient | src/robomongo/ssh/ssh.c:566-574 | closes the client's socket and then frees its channel, and nothing else; its list entry and master bit go; listener and SSH socket leave the master set exactly with the last channel |
| TunnelEngine.HandleClient | src/robomongo/ssh/ssh.c:541-604 | one recv on that socket; a client that gave nothing is closed and its channel freed, with error or success by the sign; otherwise all that follows are writes to its channel, list and master set stay, and the result is an error exactly when the writing gave up; a socket without a channel is closed, its master bit cleared, with an error |
| TunnelEngine.OpenChannel | src/robomongo/ssh/ssh.c:419-445 | asks again after each EAGAIN and after nothing else, at most 25 times in all, and makes no other call |
| TunnelEngine.JoinClient | src/robomongo/ssh/ssh.c:419-458 | the accepted client gets exactly one new channel and is paired with it, or none after the attempts; nothing else is called |
| TunnelEngine.HandleNewClient | src/robomongo/ssh/ssh.c:395-459 | one accept, then the attempts at a channel and the pairing; success adds exactly one channel for a socket that was not open, its master bit and fdmax; the three results are told apart by what was called last |
| TunnelEngine.ScanDispatch | src/robomongo/ssh/ssh.c:348-364 | a readiness bit that is still set may be dispatched, and a client's bit belongs to a channel, so the branch for unknown sockets is not reached from the loop |
| TunnelEngine.CallHandler | src/robomongo/ssh/ssh.c:354-364 | the socket goes to the handler of its kind, which does all that a dispatch of it owes and nothing more, and the result is the one those calls decide: for a client one recv with the writes or the drop that follow, for the listener one accept with the attempts at a channel, for the SSH socket a read of every channel in list order; the bits not yet looked at stay good although descriptors may have been closed and reused meanwhile |
| TunnelEngine.Scan | src/robomongo/ssh/ssh.c:348-382 | one pass hands out every reported socket, keeps master set and channels in step, and counts consecutive AGAIN results; terminates although fdmax grows |
| TunnelEngine.OpenTunnel | src/robomongo/ssh/ssh.c:311-392 | ERROR exactly when the last dispatch failed or 25 AGAIN results came in a row, channel creation error exactly when that was the last result, success only after select failed or a dispatch ended without a channel, with the session closed once and all given back |
| TunnelEngine.KeepTunnelOpen | src/robomongo/ssh/ssh.c:138-160 | reconnects with a usable session after each error; ends in success with all given back, or in an error only after a channel could not be created or a call of a reconnect failed |
| TunnelTheorems.Streams | src/robomongo/ssh/ssh.c:463-604 | the monitor's byte records are the projections of the log |
| TunnelTheorems.UpstreamPrefix | src/robomongo/ssh/ssh.c:552-604 | at every moment of every run, the bytes written to a channel are a prefix of those received from the client it was opened for |
| TunnelTheorems.CaughtUpAtSelect | src/robomongo/ssh/ssh.c:333-377 | at every call of select, successful or not, all bytes received from each client of the current tunnel have been written, and all bytes read for it have been sent exactly when no send to it failed |
| TunnelTheorems.DownstreamOrdered | src/robomongo/ssh/ssh.c:479-536 | while no send failed, what a client was sent is a prefix of what was read from its channel, and complete before each next read |
| TunnelTheorems.ChunkDelivered | src/robomongo/ssh/ssh.c:516-534 | whether sends fail or not, of each chunk read the client is sent a first part right after what it was sent before; by the next read or question for the end it is the whole chunk exactly when no send failed meanwhile |
| TunnelTheorems.NothingBeforeRead | src/robomongo/ssh/ssh.c:479-526 | a client is sent nothing before its channel gave a byte |
| TunnelTheorems.MasterIsExact | src/robomongo/ssh/ssh.c:311-459 | at every call of select a descriptor is in the master set exactly when it is open and, if it is a client's, served by a live channel; none is above fdmax |
| TunnelTheorems.BothSocketsSelected | src/robomongo/ssh/ssh.c:324-342 | at every call of select a listener and an SSH socket are in the master set together |
| TunnelTheorems.FreshDispatch | src/robomongo/ssh/ssh.c:348-364 | a dispatched socket was reported by the last select, has not been closed since, and if a client has a live channel |
| TunnelTheorems.EveryReadyDispatched | src/robomongo/ssh/ssh.c:348-383 | between two selects the loop hands out exactly the sockets the first reported, each once, in ascending order |
| TunnelTheorems.NoSelectAfterIdle | src/robomongo/ssh/ssh.c:335-338 | once a dispatch has ended without a live channel the tunnel never selects again |
| TunnelTheorems.LateClientUnheard | src/robomongo/ssh/ssh.c:335-364 | from a client paired after such a dispatch nothing is received in that tunnel |
| TunnelTheorems.LateClientHappens | src/robomongo/ssh/ssh.c:348-364 | a legal run in which such a client is paired: SSH socket and listener are reported together while there is no channel |
| TunnelTheorems.AskedBetweenReads | src/robomongo/ssh/ssh.c:481-534 | after a chunk was read a channel is read again only after it was asked for the end of its stream |
| TunnelTheorems.ErrorsAreTrailingAgains | src/robomongo/ssh/ssh.c:366-371 | the error counter is the length of the run of AGAIN results the dispatches of the current tunnel end with, and never passes 25 |
| TunnelTheorems.ResourceBalance | src/robomongo/ssh/ssh.c:123-308 | every connection, libssh2 session and channel is acquired at most once and released as often as acquired unless still held |
| TunnelTheorems.ReleasedExactlyOnce | src/robomongo/ssh/ssh.c:123-136 | once a session is closed, everything it acquired was released exactly once, except clients that never got a channel |
| TunnelTheorems.ChannelsBeforeSession | src/robomongo/ssh/ssh.c:283-300 | a libssh2 session is freed only after every channel opened on it was |
| TunnelTheorems.SessionBeforeSocket | src/robomongo/ssh/ssh.c:294-307 | the socket under a libssh2 session is closed only after the session was freed |
| TunnelDispatch.OrderIs | src/robomongo/ssh/ssh.c:189-242 | the channels in the order of the list are those that have a client and were not freed, in the order of pairing |
| TunnelDispatch.EveryDispatchEnds | src/robomongo/ssh/ssh.c:348-383 | a dispatch books a result before the next socket is handed out and before the next select |
| TunnelDispatch.DispatchServed | src/robomongo/ssh/ssh.c:354-371 | in every run, by the time its result is booked a dispatched socket has been served as its kind asks, and the result is the one the events in between decide |
| TunnelDispatch.ClientServed | src/robomongo/ssh/ssh.c:541-604 | a dispatched client is received from; without bytes it is closed and its channel freed, and the result is -1 exactly when the receive failed; with bytes all that follows are writes to its channel, and the result is -1 exactly when the last failed or 101 were put off, else 0 |
| TunnelDispatch.ListenerServed | src/robomongo/ssh/ssh.c:395-459 | a dispatched listener is accepted from: -1 when that fails; 0 when the new client is paired with a new channel after at most 24 refusals to try later; -10 after a final refusal or 25 of the other kind, without a channel |
| TunnelDispatch.SshServed | src/robomongo/ssh/ssh.c:463-539 | on a dispatched SSH socket every live channel with a client is read, in the order of pairing, to the answer it stops with, unless a read failed; -2 exactly when each was read once without data, -1 exactly when a send or read failed and no stream ended after it, else 0; without channels nothing is called |
| TunnelDispatch.StoppedHas | src/robomongo/ssh/ssh.c:479-534 | a channel counted as read to its stop has such an answer among the events |
| TunnelWorker.Worker.HandleEstablish | src/robomongo/core/mongodb/SshTunnelWorker.cpp:44-87 | makes a session exactly for the log levels 1, 2, 3 and 100; fails only for another level or because a call of the setup failed, and then leaves the new session closed once; a session held at that moment is lost, and this is the only way to lose one |
| TunnelWorker.Worker.HandleListen | src/robomongo/core/mongodb/SshTunnelWorker.cpp:89-148 | on every path the session has been closed exactly once and the worker quits; an error is reported only after a channel or a reconnect failed, otherwise the tunnel came to its end |
| TunnelWorker.Serve | src/robomongo/core/mongodb/SshTunnelWorker.cpp:39-148 | over any requests, a session is lost exactly when the first tunnel came up and the request after it is for another; otherwise a quitting worker has every session it made closed exactly once with all resources given back; once asked for a tunnel it has quit, or holds one and was just asked for it |
| Decimal.StrtolShown | src/robomongo/core/utils/BsonUtils.cpp:200-200 | reading a printed number gives that number, cut off at the limits of a 64-bit long |
| Decimal.ShowInjective | src/robomongo/core/settings/ReplicaSetSettings.cpp:34-34 | different numbers have different numerals |
| BsonPrinter.JsonObject | src/robomongo/core/utils/BsonUtils.cpp:64-114 | the member loop prints the text of the document, for objects and marked arrays, and the text keeps to the layout law of `BsonLayout.Laid` for the given level |
| BsonPrinter.JsonElement | src/robomongo/core/utils/BsonUtils.cpp:116-220 | prints the text of the element, with its name unless it is an array's, keeping to the layout law |
| BsonPrinter.JsonItems | src/robomongo/core/utils/BsonUtils.cpp:188-217 | the loop with the running index prints one slot per index and terminates for any field names; after the opening bracket the text keeps to the layout law |
| BsonLayout.DocumentLaid | src/robomongo/core/utils/BsonUtils.cpp:64-220 | scanning any printed document: inside d brackets, a member or item stands on a new line after exactly 4(pretty+d-1) blanks and a closing bracket after 4(pretty+d-2); at level 0 a member follows one blank and lines break only before a closing bracket; no line breaks elsewhere outside strings |
| BsonLayout.ValueLaid | src/robomongo/core/utils/BsonUtils.cpp:116-220 | the same for the text of a single value, however deeply nested |
| BsonRoundTrip.ReadEscaped | src/robomongo/core/utils/BsonUtils.cpp:130-133 | an escaped string reads back as itself, whatever follows the closing quote |
| BsonRoundTrip.ReadShown | src/robomongo/core/utils/BsonUtils.cpp:116-220 | from the text of any value at any layout level, followed by anything that does not start with a digit, the reader gets the value with filled array gaps and stops right there |
| BsonRoundTrip.DocumentRoundTrip | src/robomongo/core/utils/BsonUtils.cpp:64-114 | the same for whole documents, printed as objects or as arrays |
| BsonRoundTrip.DenseRoundTrip | src/robomongo/core/utils/BsonUtils.cpp:64-220 | a value whose arrays are named 0, 1, ... is recovered exactly |
| BsonRoundTrip.PrintingInjective | src/robomongo/core/utils/BsonUtils.cpp:64-220 | two such values with equal texts, in whatever layouts, are equal |
| BsonRoundTrip.LayoutOnly | src/robomongo/core/utils/BsonUtils.cpp:88-106 | two texts read alike exactly when the values agree after filling gaps, so the layout level never matters |
| BsonRoundTrip.SparseArray | src/robomongo/core/utils/BsonUtils.cpp:183-220 | with increasing indices the text has last index + 1 slots; slot j is the element named j, or undefined when there is none |
| EventBus.Bus.DispatcherFor | src/robomongo/core/EventBus.cpp:135-149 | the one dispatcher of a thread, made when there is none |
| EventBus.Bus.Subscribe | src/robomongo/core/EventBus.cpp:109-122 | the bus stays what its history makes of it, with this subscription from this thread added |
| EventBus.Bus.Unsubscribe | src/robomongo/core/EventBus.cpp:124-129 | the bus stays what its history makes of it, with this unsubscribe added |
| EventBus.Bus.Publish | src/robomongo/core/EventBus.cpp:59-81 | throws exactly when two subscriptions in force that want the event were made in different threads, and then nothing is sent |
| EventBus.Bus.SendOne | src/robomongo/core/EventBus.cpp:83-94 | as a send to one receiver in the history, or to none for a null receiver |
| EventBus.Bus.SendAll | src/robomongo/core/EventBus.cpp:96-107 | as a send to the list of receivers in the history |
| EventBus.SendReaches | src/robomongo/core/EventBus.cpp:83-107 | after any history a send reaches all its receivers in order through the only dispatcher of the last one's thread, at once exactly in that thread; to nobody it does nothing |
| EventBus.HoldsInForce | src/robomongo/core/EventBus.cpp:109-149 | after any history from any threads the bus holds exactly the subscriptions not revoked since, in order, each with the only dispatcher of its thread |
| EventBus.ThrowsIff | src/robomongo/core/EventBus.cpp:71-72 | after any history the matching subscriptions disagree on the dispatcher exactly when those in force that want the event come from different threads |
| EventBus.PublishReaches | src/robomongo/core/EventBus.cpp:59-81 | a publish throws exactly when the subscriptions in force that want the event come from different threads, with nothing sent; it sends nothing when there are none; otherwise it reaches exactly those, in subscription order, at once exactly in their own thread |
| EventBus.NotAfterUnsubscribe | src/robomongo/core/EventBus.cpp:124-129 | no wrapper published after an unsubscribe names that receiver unless it subscribed again |
| OpeningProtocol.App.OpenServerInternal | src/robomongo/core/domain/App.cpp:109-130 | takes the next handle; returns no server exactly when a tunnel has to be asked for first |
| OpeningProtocol.App.OpenServer | src/robomongo/core/domain/App.cpp:100-101 | the App stays the result of its run, with this opening added |
| OpeningProtocol.App.ContinueOpenServer | src/robomongo/core/domain/App.cpp:204-233 | appends exactly one server, of the kind, handle and parent given: with the very settings given, except that a primary or test connection through SSH gets 127.0.0.1 and the local port as its address |
| OpeningProtocol.App.HandleAnswer | src/robomongo/core/domain/App.cpp:235-247 | the App stays the result of its run, with this answer added: the request in flight becomes a server and a listen request, or a failure note |
| OpeningProtocol.App.OpenShellOn | src/robomongo/core/domain/App.cpp:151-161 | the App stays the result of its run, with this opening added: default database first, then the shell |
| OpeningProtocol.App.OpenShellWith | src/robomongo/core/domain/App.cpp:173-186 | a secondary server on those settings and a shell that owns it, in that order |
| OpeningProtocol.App.EraseServer | src/robomongo/core/domain/App.cpp:136-140 | removes that server and keeps the order of the others |
| OpeningProtocol.App.CloseServerById | src/robomongo/core/domain/App.cpp:136-140 | the App stays the result of its run, with this closing added |
| OpeningProtocol.App.CloseShellById | src/robomongo/core/domain/App.cpp:192-202 | the App stays the result of its run, with this closing added: a shell of this App goes with its server, any other changes nothing |
| OpeningProtocol.EveryRunOk | src/robomongo/core/domain/App.cpp:109-247 | in every run the handles of live servers and requests in flight are pairwise distinct and at most the last one; no two shells share a server; each worker is asked to establish once and then to listen at most once |
| OpeningProtocol.RootAddress | src/robomongo/core/domain/App.cpp:173-216 | through any chain of shells opened from shells, a server keeps the address of the server the chain started from |
| OpeningProtocol.TunnelAddress | src/robomongo/core/domain/App.cpp:204-247 | in every run, a server opened through SSH and every shell server descending from it points at 127.0.0.1 and the port that tunnel answered with |
| OpeningProtocol.CloseShellTakesOne | src/robomongo/core/domain/App.cpp:192-202 | closing a shell takes it and its own server, and no other shell loses its server |
| OpeningProtocol.OpenThenCloseShell | src/robomongo/core/domain/App.cpp:151-202 | closing a shell just opened restores shells, servers and requests, up to the used handle and the parent's default database |
| OpeningProtocol.WorkerTraffic | src/robomongo/core/domain/App.cpp:122-130 | in every run a worker's requests start with its only establish, which is what keeps the worker from losing a session |
| OpeningProtocol.ServeRun | src/robomongo/core/domain/App.cpp:126-129 | a worker fed the requests of any App run loses no session: told to listen, or unable to set up, it quits with every session closed exactly once and all given back; otherwise it holds its one open session |
| OpeningRuns.OpenDirect | src/robomongo/core/domain/App.cpp:109-118 | in every run, opening a connection that needs no tunnel adds exactly one server with those very settings and kind under the next handle, and nothing else but the note |
| OpeningRuns.OpenAsks | src/robomongo/core/domain/App.cpp:119-130 | opening one through SSH adds no server but a request in flight with those settings and kind, and asks a new worker for a tunnel |
| OpeningRuns.TunnelUp | src/robomongo/core/domain/App.cpp:204-247 | whatever happens before the answer, a tunnel that is up adds exactly one server, with the kind and settings of the request in everything but host and port, which are 127.0.0.1 and the answered port; the worker is told to listen |
| OpeningRuns.TunnelFailed | src/robomongo/core/domain/App.cpp:235-247 | a tunnel that failed adds no server and is reported with the handle and kind of its request |
| OpeningRuns.ShellServer | src/robomongo/core/domain/App.cpp:151-186 | a shell adds exactly one secondary server, with the settings of the server it is opened on and the default database asked for, and a shell that owns it |
| OpeningRuns.CloseTakesOne | src/robomongo/core/domain/App.cpp:136-140 | closing a server removes that one and nothing else |
| OpeningRuns.UnknownIgnored | src/robomongo/core/domain/App.cpp:136-247 | an answer nobody waits for and the number of a server that is not there change nothing |
| ReplicaSetSettings.RunFits | src/robomongo/core/settings/ReplicaSetSettings.cpp:46-55 | a map with numeral keys 0 to k-1 has at least k keys, so the load loop ends on every map |
| ReplicaSetSettings.Extend | src/robomongo/core/settings/ReplicaSetSettings.cpp:46-55 | the members loaded are the maximal run of numeral keys |
| ReplicaSetSettings.Settings.ToVariant | src/robomongo/core/settings/ReplicaSetSettings.cpp:27-39 | the loop builds the saved map |
| ReplicaSetSettings.Settings.FromVariant | src/robomongo/core/settings/ReplicaSetSettings.cpp:41-66 | on any map: the named values and the maximal run of members; terminates |
| ReplicaSetSettings.SaveThenLoad | src/robomongo/core/settings/ReplicaSetSettings.cpp:27-66 | for any number of members, what was saved is the one and only thing a load of it gives |
| ReplicaSetSettings.SavedEntries | src/robomongo/core/settings/ReplicaSetSettings.cpp:27-39 | the keys of a saved set: setNameUserEntered, cachedSetName, readPreference and the numerals of the members, each with its value, and no other |
| ConnectionSettings.AddedAllExact | src/robomongo/core/settings/ConnectionSettings.cpp:195-215 | adding credentials keeps their effective databases distinct; a list is taken over completely exactly when nothing in it clashes |
| ConnectionSettings.AddedAllFirst | src/robomongo/core/settings/ConnectionSettings.cpp:77-90 | of a list with clashes exactly the first credential for each database is kept |
| ConnectionSettings.SavesAgain | src/robomongo/core/settings/ConnectionSettings.cpp:77-193 | for every settings object, save after load after save equals the first save exactly for hosts of at most 300 characters and a non-empty uuid |
| ConnectionSettings.LoadsBack | src/robomongo/core/settings/ConnectionSettings.cpp:77-193 | loading saved settings brings back the name, port, database, host up to 300 characters, replica set, SSL, every credential with user, password, flag and the database and mechanism in effect, and all saved SSH values with the method in effect |
| ConnectionSettings.CredentialEntries | src/robomongo/core/settings/CredentialSettings.cpp:34-43 | the keys of a saved credential and what stands under them, admin and SCRAM-SHA-1 standing for an empty database and mechanism |
| ConnectionSettings.SshEntries | src/robomongo/core/settings/SshSettings.cpp:21-34 | the keys of saved SSH settings and what stands under them |
| ConnectionSettings.SslEntries | src/robomongo/core/settings/SslSettings.cpp:19-34 | the keys of saved SSL settings and what stands under them |
| ConnectionSettings.SavedAt | src/robomongo/core/settings/ConnectionSettings.cpp:164-193 | the keys of the plain values of a saved connection and what stands under them |
| ConnectionSettings.Settings.constructor | src/robomongo/core/settings/ConnectionSettings.cpp:29-39 | the values of new settings |
| ConnectionSettings.NewDoesNotSaveAgain | src/robomongo/core/settings/ConnectionSettings.cpp:29-39 | new settings have no uuid, and saving, loading and saving them changes the map |
| ConnectionSettings.LongHostDoesNotSaveAgain | src/robomongo/core/settings/ConnectionSettings.cpp:79-79 | a host of 301 characters is cut by a load, and the second save differs |
| ConnectionSettings.Settings.FindCredential | src/robomongo/core/settings/ConnectionSettings.cpp:195-206 | found exactly when some credential has that effective database |
| ConnectionSettings.Settings.AddCredential | src/robomongo/core/settings/ConnectionSettings.cpp:211-215 | appends unless the database is taken, so that the effective databases stay distinct |
| ConnectionSettings.Settings.PrimaryCredential | src/robomongo/core/settings/ConnectionSettings.cpp:232-239 | the first credential, after inserting an empty one when there is none |
| ConnectionSettings.Settings.FromVariant | src/robomongo/core/settings/ConnectionSettings.cpp:77-113 | loads over the present state; absent SSH or SSL keeps theirs, credentials are added to those there and stay distinct |
| ConnectionSettings.Settings.ToVariant | src/robomongo/core/settings/ConnectionSettings.cpp:164-193 | the loop builds the saved map, and a load of that map into new settings brings everything back that `LoadsBack` names |
| ConnectionSettings.Settings.Apply | src/robomongo/core/settings/ConnectionSettings.cpp:137-159 | makes the object equal to its source in everything but the uuid; applied to itself it loses the credentials |
| ConnectionSettings.Settings.Clone | src/robomongo/core/settings/ConnectionSettings.cpp:126-132 | a new object equal to the original in everything, which therefore saves to the same map |
| SettingsImport.ImportSound | src/robomongo/core/settings/SettingsManager.cpp:615-649 | on the list of what is compared: the existing part stays in front, every old value is represented, and nothing added equals anything before it |
| SettingsImport.ImportMeans | src/robomongo/core/settings/SettingsManager.cpp:615-649 | on connections: every old record has a similar one in the list afterwards, no added one is similar to one before it, and nothing is added exactly when every record had a similar one already |
| SettingsImport.ImportIdempotent | src/robomongo/core/settings/SettingsManager.cpp:615-649 | on the list of what is compared: an import adds nothing exactly when every old value is there |
| SettingsImport.ImportTwice | src/robomongo/core/settings/SettingsManager.cpp:565-650 | on what is compared, importing again adds nothing |
| SettingsImport.Manager.ImportAgain | src/robomongo/core/settings/SettingsManager.cpp:565-650 | importing records that were imported before leaves the list of connection objects as it is |
| SettingsImport.LookingShowsInSave | src/robomongo/core/settings/ConnectionSettings.cpp:232-239 | a connection compared during an import afterwards saves differently exactly when it had no credential |
| SettingsImport.ReadOldSsh | src/robomongo/core/settings/SettingsManager.cpp:577-591 | the key each SSH value comes from; SSH is enabled exactly when the record names method 1 or 2, and then with a key exactly for 2; settings the old version did not have keep their defaults, and all do when no method is named |
| SettingsImport.ReadOld | src/robomongo/core/settings/SettingsManager.cpp:568-613 | the object is what the lemmas below say of an old record, with distinct databases |
| SettingsImport.OldRecord | src/robomongo/core/settings/SettingsManager.cpp:568-599 | the key each plain value of an old record comes from, the host cut after 300 characters, SSL read from its unusual keys, and defaults for what the old version did not have |
| SettingsImport.OldRecordCredentials | src/robomongo/core/settings/SettingsManager.cpp:601-613 | exactly the first credential for each database is taken over, with its keys and the mechanism MONGODB-CR |
| SettingsImport.Manager.FindSimilar | src/robomongo/core/settings/SettingsManager.cpp:616-645 | matched exactly when some connection agrees in port, host and default database, in the first credential's database in effect, name, password and flag, and in SSH's flag, port, host, private key, password and user; looking changes connections at most by an empty credential |
| SettingsImport.Manager.Import | src/robomongo/core/settings/SettingsManager.cpp:565-650 | on objects: existing ones stay in front and in essence unchanged, all added ones stem from old records, every record is represented by a similar connection, no added one is similar to one before it, and the list stays as it is exactly when every record was represented already |
| CreatedDatabases.KeepsHidden | src/robomongo/core/mongodb/MongoWorker.cpp:315-333 | after any requests with any answers the worker's set is exactly the databases created, not dropped and not reported by the server since |
| CreatedDatabases.ListingShows | src/robomongo/core/mongodb/MongoWorker.cpp:293-344 | a listing after any history shows the server's names and exactly those databases, without duplicates if the server's list has none |
| CreatedDatabases.Worker.HandleList | src/robomongo/core/mongodb/MongoWorker.cpp:293-344 | replies first, in order, the names listed: only the authentication database for a user who is no administrator and has one, else the server's list, else the authentication database when listing failed; after them exactly the databases its history hides, without duplicates if the first part has none; an error exactly when there is nothing to show |
| CreatedDatabases.Worker.HandleCreate | src/robomongo/core/mongodb/MongoWorker.cpp:659-683 | the worker stays what its history makes of it, with this request and its outcome added |
| CreatedDatabases.Worker.HandleDrop | src/robomongo/core/mongodb/MongoWorker.cpp:685-709 | the worker stays what its history makes of it, with this request and its outcome added |
| UuidText.OrderBytes | src/robomongo/core/HexUtils.cpp:65-90 | every byte order moves whole bytes to given places |
| UuidText.OrderInvolution | src/robomongo/core/HexUtils.cpp:65-155 | every byte order is its own inverse |
| UuidText.RoundTrip | src/robomongo/core/HexUtils.cpp:48-155 | in all four encodings the text turns back into its digits exactly when there are 32 characters without braces and dashes |
| UuidText.LongerIsLost | src/robomongo/core/HexUtils.cpp:157-182 | more than 32 digits, as a binary of another length gives, print as a text that does not turn back into them |
| UuidText.ShorterThrows | src/robomongo/core/HexUtils.cpp:59-90 | fewer than 20 digits make the conversion throw |
| UuidText.TextLayout | src/robomongo/core/HexUtils.cpp:59-90 | 32 digits print as 36 characters with dashes exactly at the places of section 3 of RFC 4122 |
| UuidText.OnlyStrippedMatters | src/robomongo/core/HexUtils.cpp:103-155 | braces and the place of dashes do not matter when reading a UUID |

## Left out

- Allocations are taken to succeed in the session code; only `PointerArray` models their failure.
- A client that was accepted but got no channel keeps its descriptor open, as in the code: `Released` and `ReleasedExactlyOnce` except it.
- libssh2, sockets, name lookup, authentication, sleeping and logging are arbitrary answers of `World`; what `ssh_connect` and `socket_connect` leave behind when they fail inside is not modelled.
- FD_SETSIZE, `int` overflow of counters and the Windows socket variants.
- Runs that never end are covered through their prefixes: `World` has budgets for selects, reads and empty writes, of any size, after which it gives an answer the loops stop on.
- The session objects freed by `rbm_ssh_session_close` are marked closed instead of freed; every operation demands a session that is not closed.
- Log texts, the 20-second distinction in the error message and the time at which a worker object is deleted.
- In the printer: doubles, decimals, dates, symbols, regular expressions, code, DBRef, binary, object ids, timestamps and min/max keys, where the text is lossy or ambiguous; `buildJsonString`.
- Mongo's `escape` is not part of this model; string escaping follows section 7 of RFC 8259.
- An embedded object marked as an array by the shell: the mark is a parameter of whole documents only.
- BsonPrinter.JsonItems: the running index of an array is unbounded, where the code's `int` would overflow after 2147483647 slots.
- EventBus: what a dispatcher does with a wrapper once it has it.
- EventBus.NotAfterUnsubscribe: says nothing of wrappers already posted when the unsubscribe happens, which the code does not recall.
- OpeningProtocol: password dialogs before opening, replica sets, the MongoDB connection itself, and answers about a tunnel that was listened to, which change no state.
- Variants: conversion of text to a number only for plain numerals, lower-casing of ASCII letters only; lists and maps do not convert to text.
- Reading and writing the settings files, JSON and zip parsing, generating a UUID (a parameter), imports from versions after 0.8.5.
- `hasEnabledPrimaryCredential`, replica-set discovery, `fromHex`, `isHexString`, getters and setters, and the user interface: they would add only easy members.
