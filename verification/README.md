# Verified model of the network library

A Dafny model of a C++ networking library for game servers, and proofs about it. Four parts of the library hold its
hard reasoning, and a server joins the first two into one pipeline.

* **Completion port** (`CompletionPort`, `PortLoad`, `PortInvariant`, `PortBranches`, `PortMoves`, `PortOwners`,
  `PortAccept`, `PortSafety`, `PortBound`, `PortProgress`, `PortSends`, `PortCauses`, `PortRounds`, `PortRuns`,
  `PortEarly`, `PortRestart`, `PortHasty`, `PortLate`). Worker threads, application threads and the kernel share
  reference counts, flags, context pools and a free list of connections without a lock. The code is a transition system
  in which every interlocked operation, list operation, kernel call and upcall is a step of its own, a program counter
  says where each thread is, and the kernel completes operations in any order. One inductive invariant covers all
  interleavings; the theorems of `PortSafety` and `PortBound` follow from it. Three more invariants say that no
  connection is forgotten (`PortProgress`), that every call of AsyncSend comes to an end with the caller's bytes
  (`PortSends`) and that every disconnect has a reason (`PortCauses`). `PortRounds` says what a thread achieves that is
  not interrupted, from every reachable state. The last four modules show by complete runs what goes wrong when one of
  four calling rules is dropped.
* **Framing and wire format** (`Bytes`, `Framing`, `Session`, `Stream`, `EndToEnd`). Objects over arrays: the 1024-byte
  reassembly buffer, the output and input streams, and packets.
* **Server** (`Server`, `ServerFrames`, `ServerSafety`, `ServerCommands`, `Pipeline`, `ServerSends`, `BaseServer`). The
  command queue and the session pool on top of the completion port, again as a transition system over all
  interleavings, with the command thread's handlers as methods of a class. `Pipeline` composes it with framing and
  streams; `ServerSends` ties what AsyncSend is given, and who is disconnected, to the commands carried out.
* **Size-class allocator** (`SizeClasses`, `Allocator`). Explicit memory of 8-byte words that users write byte by byte,
  with the free lists threaded through it.
* **Dynamic array** (`DyArray`). Storage whose slots may never have been written.
* **Two-phase send on Linux** (`LinuxSend`). A transition system over any number of sending threads and the thread that
  handles EPOLLOUT.

## What is assumed

* Completion port: a call to AcceptEx succeeds or is pending; an accept completes successfully; contexts may fail to be
  allocated on the input side only. The application binds a connection after OnConnection, with any limit below 65536;
  it sends and disconnects between OnConnection and Close, on any thread; and it closes a connection only after
  OnDisconnect. Close is one step: its two reads cannot differ once OnDisconnect has been called and nobody sends.
  Completions may arrive in any order and carry any data of at most 1024 bytes; WSASend, WSARecv and DisconnectEx may
  fail.
* Four calling rules are flags of the transition system (`CompletionPort.Policy`). The theorems are about runs that
  keep the first three (`ORDERLY`); only the reasons of `PortCauses` need the fourth. For each rule a theorem says that
  a property holds in all reachable states if and only if the rule is kept: AsyncDisconnect does not win on a
  connection before the accept branch has taken its first receive reference or given the connection up
  (`PortEarly.InOrderIff`, by a run of 24 steps); Start is not entered while another Start is in progress
  (`PortRestart.OneAcceptIff`, 11 steps); Close is not called while a thread is inside AsyncSend on the connection
  (`PortHasty.FreeIsQuietIff`, 31 steps); Close is not called while a thread is about to make AsyncDisconnect's
  compare-and-swap on it (`PortLate.ExplainedIff`, 34 steps).
* Histories (`CompletionPort.History`, `Server.acts`, `LinuxSend.calls`) record calls as they are made. No step reads
  them.
* Server: no shutdown is under way, commands are always allocated, and OnConnection accepts. A push happens before its
  upcall returns, under the mutex, so an upcall is one step and cannot happen while the queue is drained. The
  application sends through its sessions, that is, from the command thread: by SendData commands, or from the handlers
  and the loop of that thread (`Server.Reply`), on a connection that a session has taken. That nobody is inside
  AsyncSend when a session closes its connection is then proved, not assumed (`ServerSafety.Quiet`,
  `Pipeline.CommandsServed`). Start and AsyncDisconnect keep to their two rules.
* Allocator: malloc succeeds and returns aligned memory that overlaps no block; the address is a parameter.
* Linux send: `send` returns between 1 and the bytes asked for, or -1 with EAGAIN; EPOLLOUT fires only while it is
  registered; a caller leaves its buffer alone until its message has left the semaphore.

## What the code does not do

Some properties one would expect are false, and each is replaced by its exact condition.

* The reassembly buffer overflows for long frames: when a chunk does not fit, the code copies the excess
  (`midware/src/easy_session.cpp:71`) and not the free room. `Session.BoundsIff`: it stays in bounds for all streams
  and all cuts if and only if `2 * (full - 1) + chunk <= 2048`, that is, frames of at most 513 bytes for chunks of
  1024.
* An array of 65536 bytes or more is silently truncated by the 16-bit product: `Stream.ArrayRoundTripIff`.
* `push_back(n)` leaves unwritten slots behind when it grows by more than one, and `append` counts its elements twice
  when it fills or grows the array: `DyArray.PushBackIff`, `DyArray.AppendIff`.
* A request for no bytes gets a block without room for its link, and one close to 2^32 wraps: `SizeClasses.RoomyIff`.
* A message whose EPOLLOUT drain meets EAGAIN again loses its tail: `LinuxSend.WholeIff`.
* The session pool is meant to hold `m_iMaxSession` sessions and holds one:
  `BaseServer.EasyBaseServer.InitializeSessionPool`.
* `SendData` copies a packet into its buffer whatever its length: the client's holds 1024 bytes, the session's 65500.
  `Session.BuildPacket` and `EndToEnd.Send` yield a packet exactly when it fits with its header.
* A SendData command is carried out even for a session without connection, and then uses a null pointer:
  `Pipeline.SendFaultsIff`, with a run in `Pipeline.SendFaultsReached`.
* The dispatcher indexes its function table by a type id from the wire without looking: `EndToEnd.OnPacketReceived`
  tells the packets apart for which there is no function.
* `Start` after `Stop` is meant to wait until no accept is outstanding, but two calls can pass its wait together; the
  acceptor then has two accepts outstanding and one context for both: `PortRestart.OneAcceptIff`.
* `Close` checks the counter and not whether a thread is about to raise it: `PortHasty.FreeIsQuietIff`.
* AsyncDisconnect can overtake the accept branch: `PortEarly.InOrderIff`.
* AsyncDisconnect can come too late: when the connection has been closed and recycled meanwhile, it disconnects the
  next peer, who has done nothing: `PortLate.ExplainedIff`.
* When DisconnectEx fails nothing will report the connection as disconnected; `PortProgress.NeverForgotten` excepts
  exactly these connections.
* Close with references left leaves the connection out of the free list: `PortRounds.Recycled`.

## Model

| member | source | states |
|---|---|---|
| PortSafety.KeepApply | network/src/easy_worker.cpp:42-182 | Every step of a worker, an application thread or the kernel, from any state of the invariant and under the first three calling rules, leads to a state of the invariant. |
| PortSafety.ReferenceCount | network/src/easy_connection.cpp:71-130 | In every reachable state `iorefs_` is the number of receives and sends pending, completed but not counted down, or counted but not resolved; zero means none is left anywhere. |
| PortSafety.UpcallOrder | network/src/easy_worker.cpp:64-166 | Per connection OnConnection, then OnData, then OnDisconnect once; OnData gets the arrived payloads in order, all but at most one; outside a conversation no receive is outstanding and none is being handled. |
| PortSafety.NoOverlap | network/src/easy_worker.cpp:148-166 | OnData is never in progress twice for one connection, nor beside an outstanding receive. |
| PortSafety.DutyAtMostOne | network/src/easy_connection.cpp:106-130 | At most one thread or operation carries a connection's receive loop. |
| PortSafety.ContextConservation | network/src/easy_contextpool.cpp:45-99 | Every context created is in one place and only one (input pool, output pool, application, thread or operation), and each counter is the number created. |
| PortSafety.OperationOwnsContext | network/src/easy_connection.cpp:71-150 | The context of an outstanding operation is in no pool, with no thread and of no other operation. |
| PortSafety.Recycling | network/src/easy_connection.cpp:245-266 | A connection is on the free list, with Accept, the target of AcceptEx, or in use, exactly one of these; outside use nothing is outstanding for it. Needs that Close is not called during an AsyncSend: see FreeIsQuietIff. |
| PortHasty.FreeIsQuietIff | network/src/easy_connection.cpp:245-266 | In all reachable states nothing is outstanding for a connection on the free list, if and only if Close is never called while a thread is inside AsyncSend on it. |
| PortSafety.OneAccept | network/src/easy_acceptor.cpp:127-193 | At most one AcceptEx is outstanding, nobody is about to post another beside it, and the acceptor's `iorefs_` covers it. Needs that no two Starts overlap: see OneAcceptIff. |
| PortRestart.OneAcceptIff | network/src/easy_acceptor.cpp:180-199 | In all reachable states at most one AcceptEx is outstanding, if and only if Start is never entered while another Start is in progress. |
| PortBound.ReferenceBound | network/src/easy_connection.cpp:71-84 | With T application threads and W workers `iorefs_` never exceeds the largest limit that let a send pass by more than T + W + 1, although check and increment are separate; no such limit exceeds 65536. |
| PortProgress.NeverForgotten | network/src/easy_worker.cpp:64-171 | In every reachable state somebody will take each connection on: a connected one has a receive outstanding, or a thread that reads it or is about to disconnect it (so an empty read, a refusal and a failed receive all lead to AsyncDisconnect); one being closed has its DisconnectEx to be posted, outstanding or being handled, unless DisconnectEx has failed. |
| PortProgress.NeverDeaf | network/src/easy_acceptor.cpp:127-193 | While the acceptor runs an accept is outstanding, or a thread is about to post one. |
| PortSends.SendsAnswered | network/src/easy_connection.cpp:71-103 | In every reachable state each thread's calls of AsyncSend have been answered in order, all but the one it is in: posted, stopped or failed; and a send was stopped only because the count was above the limit. |
| PortSends.BuffersLast | network/src/easy_connection.cpp:84-103 | Every send operation belongs to one call, is on the caller's connection and holds the caller's bytes until its completion is taken. |
| PortCauses.RefusedAboveLimit | network/src/easy_connection.cpp:76-82 | No connection is ever to be disconnected for its limit unless its count was above the limit. |
| PortLate.ExplainedIff | network/src/easy_connection.cpp:43-67 | In all reachable states every disconnected connection has a reason that arose since its OnConnection (a call, an empty read, a refusal, no context, a failed receive or send, or a count above the limit), if and only if Close is never called while a thread is about to make the compare-and-swap on it. |
| PortRounds.ReceiveRound | network/src/easy_worker.cpp:148-166 | From every reachable state, a worker that takes a receive with data and is not interrupted has after four steps given it to OnData and posted the same context again, and nothing else has changed. |
| PortRounds.EndRound | network/src/easy_worker.cpp:148-156 | A receive without data has in four steps disconnected its connection, posted DisconnectEx, and given back context and reference. |
| PortRounds.SentRound | network/src/easy_worker.cpp:168-171 | A completed send has in two steps given back its context and its reference, and nothing else. |
| PortRounds.DisconnectRound | network/src/easy_worker.cpp:134-144 | A disconnect completion that finds no references has in two steps called OnDisconnect, and nothing else. |
| PortRounds.RepostRound | network/src/easy_worker.cpp:134-140 | One that finds references leads back to exactly the state before. |
| PortRounds.DisconnectCall | network/src/easy_connection.cpp:43-67 | AsyncDisconnect on a connected connection has in two steps posted DisconnectEx and cleared the flag. |
| PortRounds.SendRound | network/src/easy_connection.cpp:71-103 | AsyncSend with at most as many references as the limit has in three steps posted the caller's bytes and taken a reference. |
| PortRounds.RefusedRound | network/src/easy_connection.cpp:76-82 | With more it has in four steps posted nothing, given the context back and disconnected the connection. |
| PortRounds.StartRound | network/src/easy_acceptor.cpp:180-193 | Start with no accept outstanding has in four steps posted one on a free connection, or on a new one if there is none. |
| PortRounds.AcceptRound | network/src/easy_worker.cpp:64-93 | An accept completion has in nine steps posted the next accept, set the connection connected, called OnConnection and posted its first receive; the acceptor's count is what it was. |
| PortRounds.Recycled | network/src/easy_connection.cpp:245-266 | Close puts the connection in front of the free list, if and only if it has no references. |
| PortRounds.Reused | network/src/easy_acceptor.cpp:129-150 | A connection so closed is the next that an accept waits for, and no other is created. |
| PortEarly.InOrderIff | network/src/easy_worker.cpp:76-93 | In all reachable states the upcalls are in order, if and only if AsyncDisconnect may not win before the first receive reference. |
| PortInvariant.InvInit | network/src/easy_acceptor.cpp:15-17 | The invariant holds before Start: no connection, no operation, all counters zero. |
| PortBranches.KeepAcUp | network/src/easy_worker.cpp:76-77 | Setting `connected_` keeps the invariant. |
| PortBranches.KeepAcCall | network/src/easy_worker.cpp:78-90 | The OnConnection upcall, accepted or refused, keeps the invariant and opens the conversation. |
| PortBranches.KeepAcTakeCtx | network/src/easy_contextpool.cpp:45-66 | Taking an input context from the pool or creating one keeps the invariant. |
| PortBranches.KeepRvGive | network/src/easy_worker.cpp:157-162 | The OnData upcall keeps the invariant. |
| PortBranches.KeepRvEnd | network/src/easy_worker.cpp:150-156 | Giving back the context of an empty read before AsyncDisconnect keeps the invariant; that AsyncDisconnect follows is NeverForgotten and EndRound. |
| PortBranches.KeepRvInc | network/src/easy_connection.cpp:108-110 | Taking a receive reference keeps the invariant; from then on the connection may be disconnected. |
| PortMoves.KeepRvPost | network/src/easy_connection.cpp:113-129 | A posted WSARecv takes over reference and context. |
| PortBranches.KeepRvFail | network/src/easy_connection.cpp:117-123 | A failed WSARecv gives the context back and keeps the reference until after AsyncDisconnect. |
| PortBranches.KeepDsCas | network/src/easy_connection.cpp:43-48 | The compare-and-swap is won once per period, which is what makes the disconnect unique. |
| PortBranches.KeepDsPost | network/src/easy_connection.cpp:50-67 | DisconnectEx posted or failed keeps the invariant. |
| PortBranches.KeepCnDec | network/src/easy_worker.cpp:164-171 | Giving back a reference keeps the invariant. |
| PortBranches.KeepDiTest | network/src/easy_worker.cpp:134-140 | Testing the count before OnDisconnect keeps the invariant: at zero nothing but sends can come. |
| PortBranches.KeepDiCall | network/src/easy_worker.cpp:141-144 | The OnDisconnect upcall keeps the invariant and closes the conversation. |
| PortBranches.KeepSnGot | network/src/easy_worker.cpp:168-171 | A completed send gives back its context. |
| PortBranches.KeepSdTest | network/src/easy_connection.cpp:71-82 | The limit check keeps the invariant, whichever way it goes; which way is SendRound and RefusedRound. |
| PortMoves.KeepSdPost | network/src/easy_connection.cpp:84-103 | A posted WSASend takes over reference and context. |
| PortBranches.KeepSdFail | network/src/easy_connection.cpp:91-97 | A failed WSASend gives its context back and keeps its reference until after AsyncDisconnect. |
| PortMoves.KeepTakeIo | network/src/easy_worker.cpp:57-63 | Any worker may take any completed receive or send. |
| PortAccept.KeepTakeAccept | network/src/easy_worker.cpp:64-71 | Taking the accept completion starts a period of the accept context's connection. |
| PortAccept.KeepPopFree | network/src/easy_acceptor.cpp:129-150 | Reusing a connection of the free list keeps the invariant. |
| PortAccept.KeepCreate | network/src/easy_connection.cpp:152-226 | Creating a connection keeps the invariant. |
| PortAccept.KeepPostAccept | network/src/easy_acceptor.cpp:152-178 | Posting AcceptEx keeps the invariant. |
| PortAccept.KeepAppStart | network/src/easy_acceptor.cpp:180-193 | Start, while no other Start is in progress, keeps the invariant; that the exclusion is needed is OneAcceptIff. |
| PortOwners.KeepAppClose | network/src/easy_connection.cpp:245-266 | Close, while nobody is inside AsyncSend on the connection, recycles it or, with references left, leaves it alone; both keep the invariant. That the exclusion is needed is FreeIsQuietIff. |
| PortOwners.KeepAppSend | network/src/easy_connection.cpp:132-150 | A send, on a connection bound or not, takes its context from the application. |
| Framing.ParseInParts | midware/src/easy_session.cpp:54-102 | Parsing can be interrupted anywhere: packets and leftover of a stream in two parts are those of the whole. |
| Framing.ParseEncoded | midware/src/easy_dispatcher.h:6-13 | Parsing undoes encoding for any packets and whatever follows them. |
| Framing.Reencode | midware/src/easy_dispatcher.h:6-13 | Encoding undoes parsing: any stream is its packets encoded again and its leftover. |
| EndToEnd.HeadDigits | midware/src/easy_dispatcher.h:6-13 | A packet's first two bytes are its type's digits to base 256, the next two its length's, smallest first; its body follows. |
| Framing.LeftoverIsShort | midware/src/easy_session.cpp:78-100 | With frames of bounded length less than one frame is left over. |
| Session.EasySession.CopyIn | midware/src/easy_session.cpp:62-76 | A copy of received bytes stays inside the 1024 bytes and appends to the buffer. |
| Session.EasySession.DropFront | midware/src/easy_session.cpp:90-94 | The memmove drops exactly the front packet. |
| Session.EasySession.TakePacket | midware/src/easy_session.cpp:80-94 | The packet handed over is the first of the buffer, which keeps the rest. |
| Session.EasySession.HandleWhole | midware/src/easy_session.cpp:78-100 | The inner loop hands over exactly the buffer's packets and keeps the leftover. |
| Session.EasySession.OnData | midware/src/easy_session.cpp:54-102 | Handles exactly the packets of buffer and chunk together and buffers exactly their leftover, terminating, with every copy inside the buffer; the client's loop is the same. |
| Session.EasySession.OnDataAll | midware/src/easy_session.cpp:54-102 | Over a connection's life the packets handled are the parse of the concatenated chunks, wherever they were cut. |
| Session.SmallAllFit | midware/src/easy_session.cpp:59-76 | Under the bound on frames and chunks no copy of a run leaves the buffer. |
| Session.BoundsIff | midware/src/easy_session.cpp:69-76 | Every cut of every stream of frames up to `full` bytes into chunks up to `chunk` bytes stays in bounds, if and only if 2 * (full - 1) + chunk <= 2048. |
| Session.BuildPacket | midware/src/easy_session.cpp:118-145 | For every 16-bit length: the buffer starts with the encoded packet, of the returned length, and is unchanged behind it, exactly when the packet fits; otherwise the copy leaves the buffer. |
| Stream.OutputStream.SerializeScalar | midware/src/easy_stream.h:120-132 | Accepted exactly if the length stays within 65500; then the value's bytes are appended, else nothing changes. |
| Stream.OutputStream.SerializeArray | midware/src/easy_stream.h:134-147 | The same for an array, of which only the 16-bit product of count and size is written. |
| Stream.InputStream.SerializeScalar | midware/src/easy_stream.h:172-184 | Succeeds exactly if enough is unread, yields the value and moves past it, else nothing changes. |
| Stream.InputStream.SerializeArray | midware/src/easy_stream.h:186-199 | The same for an array, into the caller's memory, of which only the bytes moved change. |
| Stream.DigitAt | midware/src/easy_stream.h:120-132 | The byte at k of a written number is its k-th digit to base 256. |
| Stream.ArrayRoundTripIff | midware/src/easy_stream.h:134-147 | A written array is read back, whatever the destination held, if and only if it takes less than 65536 bytes. |
| Stream.WrittenIsAccepted | midware/src/easy_stream.h:120-147 | The stream is the accepted fields one after the other and never exceeds its buffer. |
| Stream.StreamRoundTrip | midware/src/easy_stream.h:172-199 | For any fields below 65536 bytes, reading the accepted ones gives them back in order and ends at the exact length. |
| EndToEnd.PrefixArrives | midware/src/easy_session.cpp:54-102 | While short messages arrive in any chunks of at most 1024 bytes, exactly those arrived in full have been handed over. |
| EndToEnd.AllArrive | midware/src/easy_dispatcher.cpp:6-11 | Once the stream has arrived every message has been handed over, and the function that the table holds for its type reads its fields back to the last byte. |
| EndToEnd.WriteFields | midware/src/easy_stream.h:120-147 | Fields written one after the other to a running stream. |
| EndToEnd.Send | midware/src/easy_baseclient.cpp:118-129 | Writing the fields and SendData puts the encoded packet in the 1024-byte buffer, exactly when it fits. |
| EndToEnd.Handle | midware/src/easy_stream.h:172-199 | A function reads from a running stream what the specification reads from the packet's body. |
| EndToEnd.OnPacketReceived | midware/src/easy_dispatcher.cpp:6-11 | The packet goes to the function that the table holds for its type, if there is one. |
| EndToEnd.Receive | midware/src/easy_session.cpp:147-151 | A running session fed any chunks of the stream, and its handlers, yield every message's fields. |
| ServerFrames.StepSilent | network/src/easy_worker.cpp:42-182 | A step without an upcall changes nothing the server can see. |
| ServerFrames.GoSays | midware/src/easy_baseserver.cpp:35-85 | A step with an upcall makes exactly one, and OnConnection only on a connection no handler knows. |
| ServerSafety.KeepSays | midware/src/easy_baseserver.cpp:35-85 | An upcall that pushes its command keeps queue, sessions and connections consistent. |
| ServerSafety.KeepPush | midware/src/easy_baseserver.cpp:161-166 | Pushing a command of the application keeps them consistent. |
| ServerCommands.KeepConnect | midware/src/easy_baseserver.cpp:324-332 | Processing OnConnection keeps them consistent. |
| ServerCommands.KeepData | midware/src/easy_baseserver.cpp:355-366 | Processing OnData keeps them consistent. |
| ServerCommands.KeepDisconnect | midware/src/easy_baseserver.cpp:334-353 | Processing OnDisconnect keeps them consistent. |
| ServerCommands.KeepSendData | midware/src/easy_baseserver.cpp:381-397 | Processing SendData keeps them consistent, up to the call of AsyncSend that the thread then makes; which call that is, is PacketsSent. |
| ServerCommands.KeepReply | midware/src/easy_session.cpp:118-145 | A handler's own SendData keeps them consistent. |
| ServerCommands.KeepForceDisconnect | midware/src/easy_baseserver.cpp:368-379 | Processing Disconnect keeps them consistent; that the connection is disconnected is ServerSends.Disconnected. |
| ServerCommands.CommandFindsSession | midware/src/easy_baseserver.cpp:281-397 | From the invariant, the next command finds its connection and session as expected, and what it asks of the network layer is allowed. |
| Pipeline.PortReachable | midware/src/easy_baseserver.cpp:281-397 | Whatever the server does, the network layer below is in a state that its own orderly runs reach, so that all theorems about those hold. |
| Pipeline.ServerReferenceBound | midware/src/easy_session.cpp:25-37 | With the sessions' limit of 256, `iorefs_` never exceeds 256 by more than the number of threads and one. |
| Pipeline.QueueOrder | midware/src/easy_baseserver.cpp:409-432 | At every moment the processed commands, then the queued ones, are the commands pushed, in order, and the upcalls among them are those made. |
| Pipeline.CommandsServed | midware/src/easy_baseserver.cpp:324-397 | In every reachable state the next command may be carried out: OnData and OnDisconnect find the session bound to their connection, OnConnection a free one, and OnDisconnect nobody inside AsyncSend. |
| Pipeline.SendFaultsIff | midware/src/easy_session.cpp:118-145 | A SendData command keeps to its memory, if and only if its session is not in the pool and the packet fits an output buffer. |
| Pipeline.SendFaultsReached | midware/src/easy_baseserver.cpp:381-397 | A state in which it does not is reachable. |
| Pipeline.SessionOwnership | common/src/easy_pool.h:24-45 | A session is on the pool's list once and bound to nobody, or not on it and bound to exactly one connection. |
| Pipeline.ConnectionHasSession | midware/src/easy_session.cpp:25-37 | A bound connection has a session of its own. |
| Pipeline.FedInOrder | midware/src/easy_baseserver.cpp:67-85 | What a session was fed, then what waits for it, is what OnData was given; its bytes are a prefix of those received. |
| Pipeline.MessagesDelivered | midware/src/easy_session.cpp:54-102 | In every interleaving a bound session's reassembly stays in bounds and has handed over a prefix of exactly the messages sent; and once all has arrived and been processed, all of them, fields read back by the functions their types select. |
| ServerSends.PacketsSent | midware/src/easy_session.cpp:118-145 | In every reachable state AsyncSend has been called exactly for the packets of the SendData commands carried out whose session had a connection at that moment, in order, each with the encoded packet on that connection. |
| ServerSends.PacketsAnswered | midware/src/easy_session.cpp:118-145 | Once the command thread is between calls each of them has come to its end in the same order: posted, stopped above the limit, or failed. |
| ServerSends.Disconnected | midware/src/easy_session.cpp:105-116 | Once the command thread is between calls, the connection of every session that a Disconnect command named, since it was tied to it, is not connected. |
| ServerSends.BookTrue | midware/src/easy_baseserver.cpp:324-379 | Replaying the commands carried out tells the pool and each session's connection, in every reachable state. |
| BaseServer.EasyBaseServer.Allocate | common/src/easy_pool.h:24-39 | The session is in its initial state, from the pool if that is not empty and new otherwise, and no longer in the pool; no other session changes. |
| BaseServer.EasyBaseServer.InitializeSessionPool | midware/src/easy_baseserver.cpp:241-254 | However many sessions are asked for, the pool ends up with one; the server may start. |
| BaseServer.EasyBaseServer.OnCommandOnConnect | midware/src/easy_baseserver.cpp:324-332 | A session of the pool or a new one and the connection name each other, with the limit of 256; no other session or connection changes. |
| BaseServer.EasyBaseServer.OnCommandOnData | midware/src/easy_baseserver.cpp:355-366 | The connection's session, and no other, has the data behind what it had. |
| BaseServer.EasyBaseServer.OnCommandOnDisconnect | midware/src/easy_baseserver.cpp:334-353 | The session is in its initial state and last in the pool; the connection is nobody's, and on the free list if nothing is outstanding; no other session or connection changes. |
| BaseServer.EasyBaseServer.OnCommandSendData | midware/src/easy_baseserver.cpp:381-397 | The command thread is inside AsyncSend on the session's connection with a fresh context that holds the encoded packet, unless the session has no connection or the packet does not fit. |
| BaseServer.EasyBaseServer.OnCommandDisconnect | midware/src/easy_baseserver.cpp:368-379 | The command thread is inside AsyncDisconnect on the session's connection, and no session has changed; without a connection only the session is reset. |
| BaseServer.EasyBaseServer.HandleCommands | midware/src/easy_baseserver.cpp:409-432 | Whatever steps other threads and the kernel take during a round, it processes the commands in order, keeps the invariant and empties the list, unless a handler leaves its memory or the command thread is still inside a call. |
| SizeClasses.AndNotBits | common/src/util.h:10 | The arithmetic form of `x & ~y` has the bits it should. |
| SizeClasses.RoundUpBounds | common/src/util.h:10 | For every m, power of two or not, v <= ROUND_UP(v, m) <= v + m - 1. |
| SizeClasses.ClassOf | common/src/allocator.h:36-44 | Rounding a size of 1 to 512 bytes stays in its class, whose list exists, and the class size is a multiple of 8. |
| SizeClasses.ChunkHolds | common/src/allocator.cpp:87-97 | A chunk takes 40 objects' room and a sixteenth of the total, rounded up to less than one object more; it holds at least 40 objects, fits an int32, and totals grow geometrically. |
| SizeClasses.FirstChunk | common/src/allocator.cpp:87-97 | The first chunk of every class holds exactly 40 objects and not a byte more. |
| SizeClasses.RoomyIff | common/src/allocator.cpp:21-35 | A block has room for header, link and requested bytes, if and only if the request is of at least one byte and its sum with the header does not wrap. |
| Allocator.FTAllocator.Carve | common/src/allocator.cpp:63-82 | The loop gives every object its header and links the second to the last in address order, writing nothing outside the chunk. |
| Allocator.FTAllocator.ChunkAlloc | common/src/allocator.cpp:87-97 | At least 40 objects, and the class total grows by the chunk modulo 2^32. |
| Allocator.FTAllocator.Refill | common/src/allocator.cpp:58-85 | An empty class gets exactly the chunk's objects but the first, in address order; the set of blocks grows by the chunk's. |
| Allocator.FTAllocator.AllocateLarge | common/src/allocator.cpp:5-10 | A large request gets a block of its own. |
| Allocator.FTAllocator.Allocate | common/src/allocator.cpp:21-40 | The block is of the right size and was nobody's, other blocks stay, new ones lie in malloc's memory, and no user's bytes change. |
| Allocator.FTAllocator.Deallocate | common/src/allocator.cpp:42-56 | The block goes to the front of its class's list or back to malloc, and no other user's bytes change. |
| Allocator.FTAllocator.Store | common/src/allocator.cpp:39-40 | A user writing any byte of its request changes that byte and no other, and disturbs no header, list or other user. |
| Allocator.Partition | common/src/allocator.cpp:21-85 | Every block is in use or exactly once on exactly one list; users' bytes lie inside their own blocks and in no other. |
| Allocator.RefillKeeps | common/src/allocator.cpp:58-85 | A carved chunk keeps all lists null-terminated, acyclic and complete. |
| Allocator.PopKeeps | common/src/allocator.cpp:32-39 | Taking the head of a list keeps memory in order. |
| Allocator.PushKeeps | common/src/allocator.cpp:51-55 | Pushing a block keeps memory in order. |
| DyArray.PushBackIff | common/src/dy_array.h:98-117 | push_back(n) appends n copies, if and only if it does not grow the array, or grows a full one by one. |
| DyArray.AppendIff | common/src/dy_array.h:233-242 | append at the end appends, if and only if it does not fill or grow the array, or has nothing to append. |
| DyArray.DyArray.InsertN | common/src/dy_array.h:268-271 | Fills n slots from the count on and no other. |
| DyArray.DyArray.GrowN | common/src/dy_array.h:283-306 | Moves the elements from the inline array or the heap to new memory, of which only the slot at the count is written. |
| DyArray.DyArray.PushBackN | common/src/dy_array.h:98-117 | What push_back(n) makes of every slot. |
| DyArray.DyArray.PushBack | common/src/dy_array.h:119-122 | A single push_back appends the value, across the switch to the heap. |
| DyArray.DyArray.Erase | common/src/dy_array.h:124-143 | Removes exactly one element. |
| DyArray.DyArray.EraseRange | common/src/dy_array.h:145-173 | Removes exactly the range, or nothing if it is none. |
| DyArray.DyArray.Clear | common/src/dy_array.h:175-178 | Leaves no elements. |
| DyArray.DyArray.Resize | common/src/dy_array.h:255-265 | Drops the tail or grows as push_back does, with its unwritten slots. |
| DyArray.DyArray.Assign | common/src/dy_array.h:221-231 | The contents become the data, although growth left slots unwritten and memset counts bytes. |
| DyArray.DyArray.Copy | common/src/dy_array.h:244-253 | The data overwrites the front and never shortens the contents. |
| DyArray.DyArray.Append | common/src/dy_array.h:233-242 | What append makes of slots and count. |
| DyArray.DyArray.Run | common/src/dy_array.h:98-178 | Any interleaving of single push_back, erase, clear, assign and copy does to the contents what it does to a sequence. |
| LinuxSend.WireIntegrity | network/src/easy_connection.cpp:355-473 | The wire carries parts of the messages in semaphore order, not interleaved, each whole unless it is in progress or its drain met EAGAIN. |
| LinuxSend.WholeIff | network/src/easy_connection.cpp:355-420 | Whenever the semaphore is free every message is on the wire to its last byte, if and only if no drain meets EAGAIN. |
| LinuxSend.CallersMessages | network/src/easy_connection.cpp:422-433 | In every reachable state the messages of a thread on the wire, and then the one it waits with, are exactly those it called SendMessage with, in order. |
| LinuxSend.SendInPieces | network/src/easy_connection.cpp:431-472 | However the socket takes a message in pieces, the thread goes on until the last byte is on the wire, and no further. |
| LinuxSend.DrainInPieces | network/src/easy_connection.cpp:366-417 | So does the drain of a parked message. |
| LinuxSend.OneWriter | network/src/easy_connection.cpp:422-473 | At most one thread is past the semaphore, and none beside a parked or draining message. |
| LinuxSend.ParkedIsDrained | network/src/easy_connection.cpp:434-442 | A message parked by EAGAIN has EPOLLOUT registered and the context holds exactly what is left of it. |
| LinuxSend.KeepApply | network/src/easy_connection.cpp:355-473 | Every step keeps the invariant of semaphore, context and wire. |

## Left out

- The completion-port code and the Linux send are modelled on values, one step at a time, because threads interleave
  between steps; a class per connection would not show that.
- CompletionPort: no client side (OPERATION_CONNECT, AsyncConnect, Connect), no hard failure of AcceptEx, no failed
  accept and no failing setsockopt, no `total_connection_`, no destructors, no thread exit.
- CompletionPort: a weak memory model is not considered; each plain read and write takes effect at once.
- The verbatim copy of the network code in `tcpnetwork/` and the earlier versions in `easynet/` and `EasyNetwork/`.
- The client's reassembly loop (`midware/src/easy_baseclient.cpp:180-233`) is the session's with a 16-bit length, and
  is not modelled a second time; neither is its command queue.
- Session: `_HandlePacket` always returns 0, so the early return is not modelled; the handler is called by
  `EndToEnd` after reassembly instead of from within it.
- Stream: the older class `Stream` of the same header; byte order is little-endian on both sides.
- Server: the Shutdown command, session ids, `m_SessionArray` and `m_SessionMap` (a command names its session),
  the timed wait and lost notifications (only safety is claimed), time control and logging.
- BaseServer: what other threads and the kernel do during a round is a parameter, step by step; that commands are
  pushed between rounds is in Server.
- Allocator: `DefaultAllocator::allocate` called for itself, which writes its header into the bytes it returns room
  for; the 32-bit layout; failure of malloc.
- DyArray: class-type elements, the copy constructor (which leaves the count at 0), and an argument of push_back that
  refers into the array itself.
- LinuxSend: other errors of `send`, a closed peer, and the terminating zero written into the caller's buffer.
- Linux `RecvData` and its epoll loop, sockets, dumps, logging, strings, smart pointers and type traits.
