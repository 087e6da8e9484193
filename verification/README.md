# CWNet: a model of the uploader and its proofs

CWNet is an AmigaDOS handler that uploads files to a TFTP server: clients write files through DOS
packets, the handler queues their buffers and sends them, one file at a time, in TFTP over UDP over IP
over SLIP on a serial line. This project models the parts of it that have to be right together, and
proves what they promise.

* **The packet pipeline** (`netio.c`). `Slip`, `Checksum` and `Packets` say what a frame is and what a
  receiver makes of it; `NetIo` has the buffers, loops and error branches of the code, proved against
  them: byte stuffing with its capacity limit, the decoder that counts output bytes and reads past the
  frame, the one's-complement checksum on machines of either byte order.
* **Two reference clients of the same repository.** `SlipClient` (`slip.c`) stuffs the headers and the
  data one after the other; `MiniTftp` (`minitftp.c`) sends a file in lock step. The first builds the
  same frames as `netio.c`, the second sends the same DATA packets as the handler exactly for buffer
  lists of a certain shape (`Shape`).
* **The transfer engine** (`handler.c`, `dos.c`). `Engine` says what handling one message does to the
  state: the message port, the queue of transfers with block numbers, buffers and cursors, the busy and
  running flags, the type and argument of the I/O packet, the local variable `ftx` of the main loop and
  the two outstanding I/O requests. `Handler` is the code itself, an object with those fields whose
  methods are each proved to perform that step, over the buffers of `NetIo`. Whole-run results about it
  are in `Wakeup`, `Ownership` and `SharedLink`, `Completions`, `Overtaking`, `Sequential` and
  `SingleToken`, and `Termination`; `Untimely` is a run in which the link loses its owner; `Reuse` and
  `SelfStop` say exactly when the one internal packet is overwritten and when the handler stops by itself;
  `Intake` tells from the messages alone what clients have handed in, `Causes` which error a file ends with
  and why, `Release` that buffers are given back; `Conformance` shows that the code meets the assumptions of those runs.
* **The whole system.** `Server` is a small write-side TFTP server (RFC 1350, sections 2 and 6).
  `Delivery` joins it to the handler by a line that loses nothing but may keep replies nobody read.
  `CleanEnd` says exactly which files end well in runs without faults, and `Progress` that every closed
  file does end, after a number of events the clients' messages bound. `Stale` builds, for any last file,
  the run in which it is acknowledged by replies that timeouts have left on the line; with it, `Truncation`
  says for exactly which files the handler can report as finished what the server has cut short, and with
  which files the server can fall behind. `Remnants` and `Losses` are about frames that are lost because a
  timeout has cut off the one before, and `Astray` is a run in which that mixes up two files. `EndToEnd`
  goes from the messages clients send to what the server then holds, and `LockStep` does the same for the
  lock-step client.
* **Names and the queue listing** (`Paths`, `Listing`): locks, `EXAMINE_OBJECT` and `EXAMINE_NEXT`.

## How the runs are made

A run of the handler is a sequence of moves: one pass of the main loop (`Step`), a packet from a client,
the completion of a serial write or read, the expiry of the timer. Nothing is said about their order, so
every interleaving is a run. Outside conditions are parameters of a move: which allocations succeed, what
a read brings.

Some results hold for all of them (`NoLostWakeup`). Most are about *orderly* runs, whose assumptions are
predicates on single moves in `Ownership`; timeouts, read errors, bad packets and a server that answers
anything are all in:

* a client opens a file, writes to it and closes it once, and does not write to it afterwards (`Polite`);
* `AllocVec` succeeds in `do_write` (`WriteHasMemory`); everywhere else it may fail;
* serial writes complete with status 0 (`WriteSucceeds`); reads may fail.

One result needs a further assumption: that a timeout is handled while `ftx` still names the transfer that
has the link (`SharedLink.Timely`). `LinkOwnership` is about such runs, `TimeoutExact` shows that the
ownership of the link needs exactly that, and `LinkLost` is a short run in which a client closes a second
file during a transfer, the transfer times out, the second file fails in its place, and the link has no
owner any more.

`WaitIO` takes the reply of an aborted request off the port. A read that completes has brought at least
the 28 header bytes, and the memory behind the data is readable as far as the decoder may go
(`Readable`). A sequential run (`Sequential`) is an orderly one in which files are closed only while the
handler is idle and replies are read and extracted without an error. A run without faults (`CleanEnd`)
has no timeout, no read error, enough memory, extractable replies and no `ACTION_DIE`.

Internal messages are values. The code sends them all in one packet, `outpkt`, and so overwrites a message
that is still queued if it sends another one; `SingleToken` shows that this never happens in sequential
runs, so there the values are exact. For other runs the results are about a handler that sends a fresh
packet each time, and `ReusedExact` says exactly which of them the code can follow.

A transfer carries three history fields that the code does not have: the buffers it was given, the payloads
acknowledged, the payloads thrown away. The main results are about what clients have written, told from the
messages of the run (`Intake`), not about these. The state has five more: the order in which files were started,
whether an internal message was sent while one was queued (`reused`), whether a request was sent while in
use (`clashed`), whether a pointer that leads nowhere was followed or the data of an unfinished read were
looked at (`trapped`), and whether a timeout has failed another transfer than the active one (`stranded`).
`NoHarm` shows that `clashed` and `trapped` stay false in orderly runs.

Six things the code does that a reader of its comments may not expect, kept as they are: an
acknowledgement of the write request is accepted whatever its block number; a reply that cannot be
extracted fails the file, and what is then looked at is the previous packet, which can replace the error
by another one (`CauseExact`) or stop the handler (`StopsExact`); the block number is 32 bits wide in the
handler but 16 bits on the wire, so block 65536 can never be acknowledged; `ACTION_END` makes a file ready
whatever it was before (`ReadyExact`); an odd last byte is summed as the low byte of a word, which is wrong
on the Amiga (`OddExact`) but never comes up; and write requests ask for the mode netascii, but the bytes
are sent as they are.

Where the repository's documentation is silent the code is followed. The comment on the race between a
completion and its timeout in `do_write_return` and `do_read_return` describes something that cannot do
harm in orderly runs (`OneOutcome`).

## Model

| member | source | states |
|---|---|---|
| Slip.EncodeInto | netio.c:137-174 | the stuffing loop takes exactly the bytes before its output reaches the limit, writes exactly their stuffing, keeps what lies before it, and never writes past the limit plus one |
| Slip.TakenExact | netio.c:147-166 | the loop takes the whole input exactly if all bytes but the last leave room below the limit |
| Slip.EncodeLength | netio.c:137-174 | a stuffed packet is longer by the number of END and ESC bytes in it |
| Slip.EncodeConcat | slip.c:150-173 | stuffing a concatenation is concatenating the stuffings |
| Slip.EncodeHasNoEnd | netio.c:150-165 | a stuffed body contains no END |
| Slip.UnescapeEncode | netio.c:150-165 | a stuffed body has no broken escape and reads back as the original |
| Slip.EncodeInjective | netio.c:150-165 | different packets have different stuffings |
| Slip.CutStream | netio.c:376-386 | cutting a concatenation of frames at END gives exactly the stuffed bodies |
| Slip.StreamRoundTrip | netio.c:376-386 | any list of packets, framed and concatenated, is received as exactly that list |
| Slip.DecodeFrame | netio.c:180-211 | the decoder gives the packet, END, and then as many items of foreign memory as the packet has escapes; it fails exactly for a broken escape among those |
| Slip.DecodePlainFrame | netio.c:180-211 | without escapes the decoder always succeeds, with the packet and END |
| Slip.DecodeBroken | netio.c:190-200 | a broken escape stops the decoder where it is |
| Checksum.CalcChecksum | netio.c:217-234 | the 32-bit loop and folds compute the complement of the folded sum of the native words, wrap-around included |
| Checksum.SumFits | netio.c:225-226 | up to 65537 words the 32-bit sum does not overflow |
| Checksum.OverflowsAt65538 | netio.c:225-226 | with one word more it can |
| Checksum.FoldIsFolded | netio.c:231-233 | for every 32-bit sum two folds leave a 16-bit number congruent to it modulo 65535 that is 0 only for 0 |
| Checksum.FoldedUnique | netio.c:231-233 | there is only one such number |
| Checksum.ChecksumVerifies | netio.c:327-328 | storing the checksum in a zeroed word makes the sum over everything come out as 0 (RFC 791, section 3.1) |
| Checksum.ByteOrderExact | netio.c:217-234 | for every even length, big-endian and little-endian machines put the same two bytes into the header exactly if 256 times the overflows of the one is congruent to those of the other modulo 65535 and both accumulators end at zero or neither does |
| Checksum.ByteOrderIndependent | netio.c:217-234 | so up to 65537 words they always do (RFC 1071, section 2(B)) |
| Checksum.OrderMatters | netio.c:217-234 | for 65800 words FF 00 they do not |
| Checksum.OddExact | netio.c:217-234 | the checksum of an odd number of bytes is that of the padded bytes (RFC 1071, section 1) on a little-endian machine always, on a big-endian one exactly if the last byte is zero |
| Packets.HeaderVerifies | netio.c:312-328 | the IP header of every packet sums to 0 for its recipient |
| Packets.HeadersOrderIndependent | slip.c:123-148 | both headers are the same bytes on either kind of machine |
| Packets.DatagramOrderIndependent | slip.c:123-148 | and so is the whole datagram |
| Packets.FitsFrame | netio.c:358-387 | the capacity condition on length and special bytes says exactly that the frame is at most 1024 bytes |
| Packets.RequestFits | netio.c:502-536 | write requests for names of up to 255 characters always fit, even if every byte is escaped |
| Packets.FullBlockFits | netio.c:539-562 | a full DATA packet fits exactly if its IP packet has at most 479 special bytes |
| Packets.Delivered | netio.c:457-536 | a host that checks version, lengths, fragment field, time to live, protocol, header checksum, its address, UDP port 69 and the UDP checksum by the numbers of the RFCs takes every packet sent, reads back name, netascii mode, block number and bytes, and has to answer to port 4711 of 127.0.0.1 |
| Packets.DatagramBytes | netio.c:239-328 | both headers byte by byte, and the header checksum as a recipient adds it up |
| Packets.ReplyExtracted | netio.c:578-620 | despite the over-read, an extracted reply starts with exactly what the server sent; extraction fails exactly for a broken escape in the foreign bytes read, with error 115 |
| Packets.PlainReplyExtracted | netio.c:578-620 | a reply without escapes is always extracted, followed by its END only |
| Packets.AckFields | netio.c:623-632 | opcode and block number of an acknowledgement are read back as sent, whatever follows it |
| Packets.ErrorFields | netio.c:623-626 | so is the opcode of an error packet |
| NetIo.BuildIpHeader | netio.c:312-328 | the IP header with its checksum, on either kind of machine |
| NetIo.BuildUdpHeader | netio.c:256-261 | the UDP header |
| NetIo.SlipDecodeLoop | netio.c:187-204 | the loop gives exactly the decoding of the memory, counted in output bytes, or its part before a broken escape |
| NetIo.UploadFailure | netio.c:457-499 | for packets of an upload the overflow checks of the UDP and IP layers never fail: only missing memory or a frame that does not fit does |
| NetIo.NetIo.CreateUdpPacket | netio.c:240-270 | each error in its order, or a new buffer with the UDP packet of the data |
| NetIo.NetIo.CreateIpPacket | netio.c:293-335 | each error in its order, or a new buffer with the IP packet of the data |
| NetIo.NetIo.SlipEncodeBuffer | netio.c:137-174 | success exactly if all bytes but the last stay below 1023; otherwise the part encoded so far is left in the buffer |
| NetIo.NetIo.CreateSlipFrame | netio.c:358-387 | with memory, a frame is built exactly if length plus special bytes is at most 1023 |
| NetIo.NetIo.SendSlipFrame | netio.c:390-415 | both requests are outstanding with the contents of the frame; or, synchronously, the error of the device is returned |
| NetIo.NetIo.SendTftpPacket | netio.c:457-499 | the exact error, or the frame of the payload is on the line; nothing is sent on failure |
| NetIo.NetIo.SendTftpReqPacket | netio.c:502-536 | the same for a request, whose name is checked before anything is allocated |
| NetIo.NetIo.SendTftpDataPacket | netio.c:539-562 | the same for the at most 512 bytes at the cursor |
| NetIo.NetIo.RecvTftpPacket | netio.c:565-575 | a read is outstanding exactly if its buffer could be allocated |
| NetIo.NetIo.SlipDecodeBuffer | netio.c:180-211 | the decoded bytes, and each of the two errors in its case |
| NetIo.NetIo.GetDataFromPacket | netio.c:338-352 | a new buffer without the header, or the error |
| NetIo.NetIo.ExtractTftpPacket | netio.c:578-620 | the packet of the completed read at the start of the buffer, the old contents behind it; on failure the buffer is unchanged |
| NetIo.NetIo.GetStatus | netio.c:100-109 | -1 exactly while the request is outstanding |
| NetIo.NetIo.StopTimer | netio.c:115-120 | no timeout is left at the port, and every other message is |
| NetIo.NetIo.Abort | netio.c:126-131 | no serial reply is left at the port, and every other message is |
| NetIo.ReadOpcode | netio.c:623-626 | the opcode in network order |
| NetIo.ReadBlknum | netio.c:629-632 | the block number in network order |
| SlipClient.CopyAndEncodeData | slip.c:61-93 | the stuffing is appended to the buffer, or -1 exactly if all bytes but the last do not fit |
| SlipClient.StuffHeaders | slip.c:150-168 | both headers always fit, so neither failure branch is ever taken |
| SlipClient.SendPacket | slip.c:120-187 | what is sent is the three separate stuffings and END, exactly if they fit the buffer of 65535 bytes |
| SlipClient.SegmentsJoin | slip.c:150-187 | the stuffings of three segments one after the other, and END, are the frame of the three together |
| SlipClient.BuildersAgree | slip.c:120-187 | whenever netio.c can frame a payload, slip.c sends the same bytes for it, on either kind of machine |
| MiniTftp.SendFile | minitftp.c:153-207 | the packets sent are the first blocks of the file, each but the last acknowledged; the loop stops early only for a missing acknowledgement, a read or send that fails, or a failed request, after which it still sends one block; it ends without an error exactly if the request was sent, all blocks were, and the last is acknowledged |
| LockStep.AcknowledgedExact | minitftp.c:153-207 | a reply acknowledges a block exactly if its opcode is 4 and, but for the request, its number is that of the block |
| LockStep.LockStepArrives | minitftp.c:153-207 | against the server, with no fault at its own end, every outcome of the loop is the same: no error, all blocks sent, and the server has seen the end of exactly the file, however long |
| Engine.NextReady | dos.c:41-54 | the first ready transfer of the list, or none if none is ready |
| Files.FlattenPayloads | handler.c:256-302 | splitting each buffer on its own loses no byte and adds none |
| Files.InFlight | dos.c:436-446 | the chunk at the cursor lies inside its buffer and is the first payload not acknowledged |
| Files.AckOk | dos.c:436-446 | an acknowledgement moves exactly that chunk to the acknowledged ones and leaves the cursor where the next step expects it |
| Handler.Handler.constructor | handler.c:105-132 | the state before the main loop |
| Handler.Handler.SendInternalPacket | dos.c:15-20 | the message is the last one at the port |
| Handler.Handler.GetNextFileFromQueue | dos.c:41-54 | the walk finds the first ready transfer of the list |
| Handler.Handler.Fail | handler.c:271-278 | the four statements of every error branch |
| Handler.Handler.SendRequest | handler.c:239-251 | the write request is on the line, or the file fails with the error of the send |
| Handler.Handler.SendChunk | handler.c:259-279 | block number, packet and state of the next DATA packet, or the failure |
| Handler.Handler.DoSendNextFile | handler.c:231-253 | performs the step SEND_NEXT_FILE, dropped while busy |
| Handler.Handler.DoSendNextBuffer | handler.c:256-281 | performs the step SEND_NEXT_BUFFER: next packet or finished |
| Handler.Handler.DoContinueBuffer | handler.c:284-302 | performs the step CONTINUE_BUFFER: the cursor moves by 512 bytes before the send |
| Handler.Handler.FreeBuffers | handler.c:311-314 | every buffer is taken off the list exactly once |
| Handler.Handler.DoFileDone | handler.c:305-316 | performs the step FILE_FINISHED or FILE_FAILED |
| Handler.Handler.DoBufferFinished | handler.c:319-326 | performs the step BUFFER_FINISHED |
| Handler.Handler.TakeStatus | dos.c:356-370 | an I/O error fails the file, a request still out stops the handler, and the code goes on in either case |
| Handler.Handler.StartRead | dos.c:372-382 | a read is started, or the file fails |
| Handler.Handler.DoWriteReturn | dos.c:347-383 | performs the step WRITE_RETURN, falling through after an I/O error and after a status of -1 |
| Handler.Handler.TakePacket | dos.c:416-423 | the received packet replaces the start of the old one, or the file fails and the old one stays |
| Handler.Handler.ChunkAcked | dos.c:436-446 | the chunk is acknowledged and the buffer continued or finished |
| Handler.Handler.DoAck | dos.c:430-460 | an acknowledgement in each of the states, the wrong ones included |
| Handler.Handler.DoReply | dos.c:429-478 | the opcode switch |
| Handler.Handler.DoReadReturn | dos.c:389-479 | performs the step READ_RETURN, falling through after an I/O error and after a bad packet |
| Handler.Handler.DoTimerExpired | handler.c:341-352 | performs the step TIMER_EXPIRED on whatever transfer the local variable names |
| Handler.Handler.DoFindOutput | dos.c:79-117 | a new transfer with the name of the path, cut at 255 characters, is the last of the list, if there is memory |
| Paths.SkipPrefix | dos.c:86-90 | the loops skip what comes before the name |
| Paths.NameBehind | dos.c:86-90 | of device, colon, two characters, address, slash and name they leave the name, if no colon follows the first part and the address has no slash |
| Handler.Handler.DoWrite | dos.c:123-158 | a copy of the client's buffer is the last of the list, or the file fails |
| Handler.Handler.DoEnd | handler.c:161-174 | the file is ready, whatever it was before, and the handler reminded |
| Handler.Handler.HandleMessage | handler.c:133-359 | one pass of the main loop on the real fields and buffers performs exactly the abstract step for the first message, with the outcome of its allocations and the fit of its frame |
| Handler.Handler.MainLoop | handler.c:133-359 | the loop performs exactly the steps for the messages it finds, until the port is empty or it is told to stop |
| Handler.Handler.Arrive | handler.c:134-136 | a client's packet is the last message at the port |
| Handler.Handler.WriteCompletes | netio.c:394-404 | the reply of the serial request arrives with its status |
| Handler.Handler.ReadCompletes | netio.c:424-436 | the reply arrives with the memory the read has filled |
| Handler.Handler.Expire | netio.c:400-403 | the reply of the timer request arrives |
| Conformance.LoopIsRun | handler.c:133-359 | what the loop does is a run of the abstract handler, and it goes on until it is told to stop or nothing is queued |
| Conformance.MeetsDemands | handler.c:133-359 | in every state an orderly run reaches, the code can handle the next message without following a bad pointer, looking at unfinished data or sending bytes from outside a buffer, and the fit of its frame is as the system runs assume |
| Wakeup.NoLostWakeup | handler.c:231-253 | in every reachable state, while running and not busy with a file ready, the port holds SEND_NEXT_FILE, FILE_FINISHED or FILE_FAILED; no assumption on the run |
| Intake.HandedIn | dos.c:79-158 | in any run at all, the files in the list are those opened with memory for them, in order, under the names of their paths, and the buffers of each are exactly those written to it with memory for them, in order |
| EndToEnd.ClientOrder | handler.c:133-136 | in any run at all, the messages clients send are handled in the order they were sent, and what is not handled yet is still queued |
| Causes.CauseExact | dos.c:356-478 | in any pass at all at most one file fails, exactly if there is a cause, with exactly its error: 1000 for an ERROR packet, 1001 for an unknown opcode, 1002 for a wrong block number, 1004 for a timeout, the status of the device, 103 and 303 for memory and a frame that does not fit; the failure is announced and the link is free |
| Causes.InHandExact | handler.c:341-352 | which file the main loop has in hand after any pass, and so which file a timeout fails |
| Causes.ReadyExact | handler.c:161-174 | in any pass at all a file becomes ready exactly if its ACTION_END is handled, whatever it was before, and the handler is then reminded |
| Ownership.HandleInv | handler.c:133-359 | every pass keeps the invariant: one active transfer at most, one thing that carries it on, all records consistent, and no transfer in flight without the link unless a timeout has stranded it |
| SharedLink.LinkOwnership | handler.c:231-302 | in orderly runs with timely timeouts: while running, busy holds exactly if some transfer is in S_WRQ_SENT or S_DATA_SENT; it is the only one, and iopkt1 names it |
| Untimely.LinkLost | handler.c:341-352 | without timely timeouts this fails: an orderly run from the start that leaves a transfer in S_WRQ_SENT with the handler not busy |
| SharedLink.NoHarm | netio.c:390-451 | neither request is sent while in use, no empty list is dereferenced, no chunk lies outside its buffer |
| SharedLink.NextIsHarmless | netio.c:390-451 | the same told without history: before every pass the requests it may use are unused, the reply it fetches is there, and the chunk it sends is inside its buffer |
| Release.BuffersReleased | handler.c:305-316 | in every reachable state a file that is finished, or has failed and been announced, has no buffers left |
| Completions.OneOutcome | dos.c:356-358 | of the completion of a serial operation and its timeout at most one is handled, whichever file the timeout fails |
| SharedLink.TimeoutExact | handler.c:341-352 | as long as nothing is stranded, the link is properly owned after a timeout exactly if the local variable named the active transfer |
| SharedLink.BlockBound | dos.c:436-453 | against any server, at most 65535 acknowledged payloads, and the block number never exceeds 65536 |
| SharedLink.CursorInStep | dos.c:436-446 | from sending a chunk until its acknowledgement, cursor and bytes left add up to the buffer's length, and the chunk is inside it |
| SharedLink.Conservation | dos.c:436-446 | in every reachable state the bytes clients have written to a file are those acknowledged, then those still queued, then those discarded |
| Overtaking.BoundedOvertaking | dos.c:41-54 | from any reachable state on, a ready file at position k waits for at most as many other starts as files before it are not started yet, so at most k |
| Overtaking.BoundedOvertakingFromStart | dos.c:41-54 | the same counted from the moment it becomes ready in a run from the start |
| Intake.StartedAreTaken | dos.c:41-54 | the starts counted there are the files that stop being ready when SEND_NEXT_FILE is handled |
| Intake.FewTakenBefore | dos.c:41-54 | so a file that becomes ready at position k sees at most k others taken up, told from the states alone |
| SingleToken.SingleToken | dos.c:347-461 | in sequential runs a busy handler has exactly one queued internal message or serial request, and the one internal packet is never sent while queued |
| Reuse.ReusedExact | dos.c:15-20 | in any run at all, the one internal packet is sent while still queued exactly if some pass handles ACTION_END, a write without memory or a timeout while it is queued, or a completion that leads to two sends, or to one while it is queued; otherwise it is queued at most once |
| Reuse.PacketReused | handler.c:161-174 | there are orderly runs in which that happens: two files are closed before the first message this leads to is handled |
| SelfStop.StopsExact | dos.c:405-460 | in orderly runs a move stops the handler exactly if it handles ACTION_DIE, or the reply of a read that failed or could not be extracted while the packet the code then looks at is an acknowledgement |
| SelfStop.StopsByItself | dos.c:405-460 | there are orderly runs in which the second of these happens |
| SelfStop.WriteStops | dos.c:356-383 | in any state at all the completion of a write stops the handler exactly if the request is still out, and the answer is read, or the file fails, in either case |
| SelfStop.DieAborts | handler.c:213-225 | ACTION_DIE leaves no serial request and no reply of one behind, and every other message stays |
| Delivery.SysStep | handler.c:133-359 | every event keeps handler, line and server in step |
| Delivery.PrefixDelivery | dos.c:79-158 | in every reachable state each session of the server is for the name its file was opened by and holds a prefix of the bytes clients have written to it, whatever timeouts, read errors and stale replies there were |
| Remnants.MergedLength | netio.c:126-131 | behind a frame that an abort has cut after at least four bytes, the next frame is dropped unless the two are together as long as the first one's header says |
| Remnants.CutInEscape | netio.c:126-131 | behind a frame cut within an escape it is always dropped |
| Remnants.MergedExact | netio.c:126-131 | behind a frame cut after its headers it is dropped exactly if the lengths differ; otherwise the server takes it for the end of the cut packet |
| Losses.PrefixDespiteLosses | handler.c:256-352 | the same, name and prefix, if any frames are dropped and reads bring anything at all, unless a DATA packet arrives whose write request was dropped |
| Losses.StraysExact | handler.c:256-352 | up to then such a packet is exactly one the server has no session for |
| Losses.NothingLost | handler.c:256-352 | the runs of the system are those runs in which nothing is dropped |
| Astray.StrayStored | handler.c:341-352 | after a dropped write request the prefix can be lost: a run in which a file's bytes are stored for the file before it |
| Delivery.FinishedIsStored | handler.c:256-326 | the packets a finished file was sent in are those of the payloads of what clients have written, numbered from 1; the server holds the whole of it exactly if no payload but the last is short; a file picked with a quiet line never finishes otherwise |
| Truncation.WholeExact | handler.c:256-326 | among files of at most 65535 blocks that fit, the server has all of one whenever it is reported as finished, in all runs, exactly if no payload but the last is short; for any other there is a run in which it is finished and cut short |
| Delivery.BlocksInStep | handler.c:256-302 | in every reachable state the server's last block is the block number or one less exactly if no block before the last two sent was short; for a file picked with a quiet line always |
| Truncation.StepExact | handler.c:256-302 | among files of at most 65535 blocks that fit, the server is never further behind with one, in all runs, exactly if no payload but the last two is short; for any other there is a run in which it is |
| Shape.ShapeExact | handler.c:256-302 | the payloads of a list of buffers end normally exactly if it has a clean shape |
| Shape.WellEndedUnique | minitftp.c:170-207 | there is only one way to cut a file that ends normally |
| Shape.SameAsLockStep | minitftp.c:170-207 | the handler's payloads are those of the lock-step client for the whole file exactly for clean shapes |
| CleanEnd.CleanEnd | handler.c:256-326 | without faults, an ended file of at most 65535 blocks that fit is in S_FINISHED with normal termination at the server (RFC 1350, section 6) exactly if the buffers clients have written have a clean shape, and exactly if the DATA packets that arrived for it, finished or not, are those the lock-step client sends for the whole file; the handler keeps running |
| Progress.BoundedWork | handler.c:133-359 | in a run without faults the handler, the line and the server together do no more than the clients ask for: 11 events for a file opened, 6 a block and 3 a buffer, 2 for a close, 1 for anything else |
| Progress.GoesFurther | handler.c:133-359 | unless nothing is queued and every file is open or has ended, such a run can go on without a client |
| Progress.SettledStops | handler.c:133-359 | and otherwise it cannot |
| Progress.SettledEndsWell | handler.c:256-326 | where it stops, a closed file of at most 65535 blocks that fit has ended normally exactly if its buffers have a clean shape |
| Progress.EveryRunEnds | handler.c:133-359 | every run without faults can be completed within that bound, without a client; every closed file has then ended, in exactly that way |
| EndToEnd.EveryFileArrives | handler.c:133-359 | every run without faults can be completed within that bound so that, told from the clients' messages alone, there are as many files as were opened, and each of them that was closed and fits has arrived at the server under its name, with exactly the bytes written to it, if those were written in a clean shape, and has not ended normally otherwise |
| Termination.CostOfPayloads | handler.c:231-335 | the number of messages counted buffer by buffer is three for each payload and one for each buffer |
| Termination.StepAdvances | handler.c:231-335 | every message handled lowers the rank of the file by exactly one, or ends it |
| Termination.ExactTermination | handler.c:231-335 | with at most 65535 blocks the file is finished exactly when 4 + sum of (3 max(1, ceil(n/512)) + 1) messages are handled, and never fails |
| Termination.TooLong | dos.c:436-453 | with more blocks it never finishes; it fails with ERROR_TFTP_WRONG_BLOCK_NUM right after DATA packet 65536 |
| Termination.AlwaysGoesOn | handler.c:231-335 | until the file has ended something can always happen next |
| Termination.CloseStarts | handler.c:161-174 | ACTION_END for a file nothing competes with leads to the state those counts start from |
| Listing.ListingExact | dos.c:236-341 | however transfers are added between the calls, a listing that has ended has returned, once each and in order, exactly the transfers present when it returned the last one |
| Listing.ListingEnds | dos.c:296-341 | a listing without additions ends with exactly the call after the last transfer |
| Listing.Directory.FindLockInList | dos.c:60-73 | the lock's place in the list, or that it is not there |
| Listing.NameField | dos.c:283-285 | the file name in the FileInfoBlock: its length byte is one too small for names of 1 to 107 characters (and 255 for none), and it holds at most 106 of them, terminated |
| Listing.Directory.LocateObject | dos.c:164-230 | which lock is given for which name, with which access, each error in its case, and every key is 0 or a member of the list |
| Listing.Directory.FreeLock | handler.c:183-198 | exactly that lock leaves the list, or the error |
| Listing.Directory.ExamineObject | dos.c:236-290 | what is filled in for the queue and for a single file, each error in its case |
| Listing.Directory.ExamineNext | dos.c:296-341 | one step of a listing, including the end that stays the end when transfers are added later |

## Left out

- Handler.Handler.HandleMessage: demands that the step does not follow a bad pointer, take the head of an empty list or look at the data of a read that has not finished; what such memory holds is not modelled. In orderly runs it never comes to that.
- Handler.Handler.MainLoop: demands the same of every pass.
- Handler.Handler.DoReadReturn: demands the reply of a read; after a status of -1 the code goes on to decode memory the device is still filling.
- Handler.Handler.DoFindOutput: for a path without a colon, or without a slash behind it, the code goes on from a null pointer; the model then takes the empty name. The fields of the file handle are not modelled.
- NetIo.NetIo.GetDataFromPacket: demands a packet no shorter than the header; a shorter one would make the code copy four gigabytes.
- NetIo.NetIo.ExtractTftpPacket: demands a read of at least 28 bytes, for the same reason.
- Handler.Handler.ReadCompletes: demands the same of the read that ends.
- Listing.Directory.LocateObject: the task and the volume in a lock are not modelled.
- Listing.Directory.ExamineObject: the constants filled in for the root directory are one flag.
- Listing.Directory.ExamineNext: demands, like the code, that the FileInfoBlock holds a valid entry.
- Delivery.BlocksInStep: says nothing about the server's last block before the write request has arrived.
- Termination.ExactTermination: counts the messages of one file on its own; for several files and clients `Progress.BoundedWork` gives a bound.
- Reuse of `outpkt`: messages are values; what an overwritten queue holds is not modelled, only exactly when it happens.
- Runs after a serial write has reported an error are covered by `Engine`, `Handler` and `Wakeup`, not by the results about orderly runs.
- Runs after an allocation failure in `do_write`, whose file `ACTION_END` makes ready again, likewise.
- Synchronous reads, which nothing calls.
- Losses.PrefixDespiteLosses: takes a frame behind a cut one as dropped; if the two happen to have the length of the first, the server takes them for one packet (`Remnants.MergedExact`), and its bytes are then mixed.
- Memory: freeing a frame while it is being sent, and the buffers error branches leak. What a request sends is a value taken when it is sent, and `delete_buffer` does nothing.
- Exec, serial.device, timer.device and DOS: only their effects on the port and the requests.
- How long a timeout is: it can come at any time.
- `WaitPort`: the loop ends where the code would wait; the results clients get with their packets are not modelled.
- Startup, `netio_init`, `netio_exit`, logging, BCPL pointers and strings, dates in a FileInfoBlock.
- Sockets, files and arguments of slip.c and minitftp.c; in minitftp.c a read gives 512 bytes until the tail of the file, or fails.
- Packets.Delivered: the server keeps the bytes as they come; the conversion of line ends a netascii receiver may do is not modelled.
- listq.c, logtest.c, serecho.c, serecho.py and unmount.c.
