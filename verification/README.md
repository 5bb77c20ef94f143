# A verified model of the RTMP chunk layer and server session

This project models the chunk layer of go-rtmp, the chunk scheduler, the acknowledgement
window and the server session, and proves what each of them keeps over every history. The
standard they implement is Adobe's RTMP Specification 1.0; sections are cited by number.

A connection carries *messages* on many *chunk streams*. The writer of a chunk stream cuts each
message into chunks and leaves out of every header what it believes the reader remembers; the
reader rebuilds the fields from its memory of that chunk stream and reassembles the payload. Both
sides are state machines over 32-bit arithmetic that wraps around, their chunks interleave on one
wire in any order, and the chunk size changes on the way.

## How the project is laid out

The specification functions (plain values, no heap):

- `Bytes`, `Collections`, `ChunkHeader`, `ChunkStream`: byte orders, counting, the two chunk headers,
  one reader and one writer, `ReadChunk` and `WriteChunk`.
- `Lockstep`, `Formats`, `Fragments`: one chunk stream between a writer and a reader; the choice of
  header format; how many chunks and bytes a message takes.
- `Transport`, `PlainTraffic`, `WriteLoop`, `ChunkSize`: many chunk streams on one wire, conditions on
  the messages alone, the write loop, and the switch of the chunk size.
- `Demultiplex`, `StandardSender`: the reader on arbitrary input, and against a sender that follows
  section 5.3.1 to the letter.
- `AckWindow`, `AckRuns`, `Receiving`: byte counters and acknowledgements, what a connection really
  reads of them, and reading one message.
- `Scheduler`: producers, writers and the write loop as atomic channel steps.
- `Messages`, `WireFormat`: control messages, and the formats on the wire byte by byte.
- `ControlState`, `Registry`, `Session`, `SessionTurns`, `SessionSafety`, `SessionEnd`: connection limits,
  the stream registry, the server session, what every turn of it must do, what it keeps over whole runs,
  and what ends it.

The code as it works on its state, each method proved against those functions:

- `StreamIO`, `ChunkHeaderCodec`: the connection with its two counters, and the header codec filling
  buffers in place.
- `ChunkStreamer`: chunk stream readers and writers as objects, the maps that hold them, `readChunk`,
  `writeChunk`, `NewChunkReader`, `Write`, the queue and the loop that drains it.
- `MessageCodec`: the message encoder and decoder.
- `SessionConn`: the server's message loop with its handlers and its registry of stream objects.

## Main results

- **Which messages travel intact** (`Lockstep.IntactIffAdmissible`). From the sender's own record one
  can tell beforehand, exactly, whether a message is sure to reach the other end chunk by chunk and
  equal, whatever follows it: its length is 1 to 0xffffff, both ends cut it alike, the format chosen for
  it is not type 3 while the reader is in an extended mode or holds another delta, nor an extended header
  that a second chunk follows, and its chunk stream ID is below 320 unless the connection never hands
  over a byte too many. `Formats` has inputs for which it does not.
- **Transport** (`Transport.Transported`, `Transport.DeliveredInOrder`, `Transport.TurnTakenIff`,
  `WriteLoop.LoopDelivers`, `WriteLoop.RoundRobin`). Whatever the interleaving of admissible messages,
  turns and changes of the chunk size, the reader delivers exactly the finished messages with their
  chunk stream, timestamp, type, stream ID and payload, in order, and both ends stay in step. While a
  change is under way a busy writer may write exactly if the old and the new size cut what it has left
  alike.
- **Ordinary traffic** (`PlainTraffic.PlainTrafficDelivered`). The same from new ends on, with conditions
  on the messages alone: on each chunk stream non-empty messages of 24-bit length, which stay on one
  message stream unless their time does not move on, with times and steps below 0xffffff; and on a turn,
  only that the chunk be cut alike while a change of size is under way.
- **The reader alone** (`ChunkStream.ReaderSafety`, `Demultiplex.NonInterference`,
  `StandardSender.StandardSendersRecovered`). Safety on any bytes; chunk streams do not interfere; every
  run of standard senders is recovered for all 32-bit times.
- **Scheduling** (`Scheduler.RunsKeepInv`, `Scheduler.OwnershipLostIff`, `Scheduler.DeadlockIff`,
  `Scheduler.BoundedFairness`, `Scheduler.DrainsCompletely`). A writer has one owner over every
  interleaving in which no producer passes by a closed `closeCh`, and some run gives it two exactly when
  two chunk streams are allowed; some run blocks the loop on its own queue exactly when more than 64 are;
  there is a bound on waiting, and no chunk is lost or doubled in any interleaving
  (`Scheduler.ChunksConserved`).
- **Acknowledgements** (`AckWindow.AcksConserve`, `AckRuns.UnacknowledgedIsBounded`,
  `AckRuns.BooksKeptIff`). Over every input that reads without an error all bytes are accounted for,
  exactly if the window is not one from -2 down to above minus twice what a chunk may take; for those
  there is an input of 2^32 bytes that calls for no acknowledgement.
- **The session** (`SessionTurns.ConnectTurn` and the other turns, `SessionSafety.SessionIsSafe`,
  `SessionSafety.BudgetIsExact`, `SessionEnd.TurnEndsIff`). For every message in every state the
  callback it leads to, the replies in order, and the streams and sizes it leaves; over whole runs,
  which streams can be in which states, what must come before what, that no stream is granted both
  publish and play, the undo of a failed createStream, and exactly which turns of the message loop end
  the connection, the errors it drops included.

Where the code departs from the standard the model follows the code: a type 3 chunk that opens a new
message after a type 0 chunk moves the time by 0 (`StandardSender.Type3AfterType0`), and a writer sends
no extended timestamp on type 3 chunks although the reader expects one
(`ChunkHeader.MessageHeaderRoundTrip`).

## Modelling choices

- The wire is a sequence of bytes with a read position. `slack` is the number of bytes beyond a
  three-byte basic header that the read of its last two bytes takes along and loses; `more` is what the
  connection offers for that.
- A message body is a byte sequence at the chunk layer and an already decoded command in the session, where
  audio, video and data frames are told apart but carry no payload.
- The outcome of every callback and of every write is a free parameter (`Env`). A callback agrees, refuses
  with an error, or with one of the two for unknown bodies, which the message loop drops; a write that
  fails never does so with one of those. A turn of the message loop in which nothing can be read, or the
  write loop is over, is an input of its own (`NoMessage`).
- The local chunk size changes first and the message that says so is queued later; in between, and until
  it is written, other messages are queued and written. `Transport` has the three as events of their own.
- In `Scheduler` each channel operation, each `Wait` and each `writeChunk` is one atomic step, and a
  timeout is a step that does not happen.

## Model

| member | source | states |
|---|---|---|
| ChunkHeader.BasicHeaderRoundTrip | chunk_header.go:21-79 | Decoding an encoded basic header followed by any bytes gives the header for IDs 2 to 65599, and leaves exactly those bytes if and only if no more is read than the three-byte form needs (section 5.3.1.1). |
| ChunkHeader.ReencodedBasicHeaderNotLonger | chunk_header.go:53-79 | Re-encoding any decoded basic header is never longer than the bytes it came from, and decodes to the same header. |
| ChunkHeader.MessageHeaderRoundTrip | chunk_header.go:90-262 | With any bytes behind it a message header comes back exactly, over all 32-bit times and both sides of 0xffffff, for types 0 to 2; for type 3 if and only if the decoder is not in an extended mode. The encoded sizes are 11, 7, 3, 0 and 4 for the extension. |
| ChunkHeader.BasicHeaderIsLocal | chunk_header.go:21-51 | A one- or two-byte basic header is read the same way whatever follows it. |
| ChunkHeader.MessageHeaderIsLocal | chunk_header.go:90-183 | A message header is read the same way whatever follows it. |
| ChunkHeaderCodec.EncodeChunkBasicHeader | chunk_header.go:53-79 | The buffer-filling encoder writes exactly the specified bytes, or nothing for an ID out of range. |
| ChunkHeaderCodec.EncodeChunkMessageHeader | chunk_header.go:185-262 | The same for message headers of every type. |
| ChunkHeaderCodec.DecodeChunkBasicHeader | chunk_header.go:21-51 | The decoder on a connection and scratch buffer yields the specified header and remaining input, loses at most what fits the buffer behind a three-byte form, and counts every byte it takes. |
| ChunkHeaderCodec.DecodeChunkMessageHeader | chunk_header.go:90-183 | The same for message headers, in every extended mode, short input included. |
| StreamIO.Source.Read | chunk_streamer_reader.go:20-25 | A read takes a prefix of what the connection has, puts it where asked and nowhere else, and moves both counters by as much, modulo 2^32. |
| StreamIO.Source.ResetFragmentReadBytes | chunk_streamer_reader.go:35-37 | Only the fragment counter is reset. |
| ChunkStream.ReaderSafety | chunk_streamer.go:196-283 | On any bytes a chunk fails or keeps its stream within the announced length, 24 bits at most, complete exactly at equality; it changes no other stream and opens none beyond the limit. |
| ChunkStream.ReadChunkTakesPrefix | chunk_streamer.go:196-283 | A chunk takes a prefix of the input and leaves the rest untouched. |
| ChunkStream.ReadChunk | chunk_streamer.go:196-283 | Every chunk read makes the unread input strictly shorter. |
| ChunkStreamer.ChunkStreamReader.Absorb | chunk_streamer.go:214-253 | What the headers of each format do to a reader's memory, extended modes included. |
| ChunkStreamer.ChunkStreamReader.TakePayload | chunk_streamer.go:257-282 | The payload of a chunk is appended up to the chunk size or the end of input; the timestamp moves on once, when the message is whole; nothing is taken in the invalid state. |
| ChunkStreamer.ChunkStreamReader.CopyFrom | chunk_streamer.go:267-270 | The buffer, which makes room for itself, takes exactly the next bytes of the connection up to the limit; an early end of input is not an error. |
| ChunkStreamer.ChunkStreamer.PrepareChunkReader | chunk_streamer.go:384-402 | The stream's own reader, or a fresh one within the limit, or none; all others stay. |
| ChunkStreamer.ChunkStreamer.PrepareChunkWriter | chunk_streamer.go:404-435 | The stream's own writer, or a fresh idle one within the limit, or none; all others stay. |
| ChunkStreamer.ChunkStreamer.ReadChunk | chunk_streamer.go:196-283 | The method on reader objects does what the specification says to the map of readers, the input and the counters, errors included. |
| ChunkStreamer.ChunkStreamer.NewChunkReader | chunk_streamer.go:137-154 | The loop ends: it hands over the reader of the next completed message, or fails on a chunk or on an acknowledgement that cannot be written, with exactly the acknowledgements sent and the counters left that the specified loop gives. |
| Receiving.NextIsFirstDelivery | chunk_streamer.go:137-154 | What the loop hands over next is the first thing a whole run over the same input delivers. |
| Receiving.NextMessageSends | chunk_streamer.go:137-154 | The acknowledgements sent on the way are those the window calls for; if one cannot be written, those before it. |
| Receiving.SlackIs | chunk_streamer.go:87 | At most 65533 bytes can be lost behind a three-byte basic header. |
| ChunkStreamer.ChunkStreamWriter.UpdateWriterHeader | chunk_streamer.go:318-348 | The stepwise choice of the format and update of the last header is the specified one. |
| ChunkStreamer.ChunkStreamWriter.Wait | chunk_stream_writer.go:29-48 | A producer passes exactly if the writer has not failed and is idle or has its `closeCh` closed; it is then taken unless the producer passed by `closeCh`. |
| ChunkStreamer.ChunkStreamWriter.WaitIsAStep | chunk_stream_writer.go:29-48 | That is when the scheduler's machine has a step for the producer, by the one channel or the other. |
| ChunkStreamer.ChunkStreamWriter.Load | chunk_streamer.go:125-132 | Loading a message appends its payload and sets the fields the headers are made of. |
| ChunkStreamer.ChunkStreamer.WriteChunk | chunk_streamer.go:285-316 | One chunk: the bytes on the wire, the writer left behind, completion, and the failure for an ID out of range. |
| ChunkStreamer.ChunkStreamer.NewChunkWriter | chunk_streamer.go:156-169 | The writer of the stream, opened if there is room, is had exactly when it can be, never after it failed; no other writer changes. |
| ChunkStreamer.ChunkStreamer.Write | chunk_streamer.go:113-135 | A message is loaded onto its stream's writer exactly when the writer has not failed and is idle or closed by force, or can be opened; it is then queued if fewer than 64 are, or waits for room loaded; other writers are untouched and no writer is queued twice. |
| ChunkStreamer.ChunkStreamer.TakeTurn | chunk_streamer.go:468-484 | One turn of the loop: the head of the queue writes a chunk and is released, or goes to the end; a failed writer is released with its error. |
| ChunkStreamer.ChunkStreamer.Run | chunk_streamer.go:457-489 | Without new work the loop ends; its output is the round robin of all queued messages, and every writer is left idle with an empty buffer, unless one failed; a writer that failed stays so. |
| ChunkStreamer.ChunkStreamer.ForceCloseWriters | chunk_streamer.go:365-373 | Every writer there is has its `closeCh` closed, and nothing else of it changes. |
| ChunkStreamer.ChunkStreamer.SchedWriteLoop | chunk_streamer.go:375-382 | A loop that ends with an error leaves a writer failed, for good, and closes every writer by force; its output is as before. |
| ChunkStreamer.ChunkStreamer.SwitchChunkSize | stream.go:136-145 | The local size changes before the message is queued, and also when the size is then refused; the call fails exactly when the size differs and is refused or the control writer cannot be had, and then leaves writers and queue alone. |
| Lockstep.SentIsWriteChunk | chunk_streamer.go:285-316 | The record a sender keeps of its reader advances with what is written. |
| Lockstep.HeadersRead | chunk_streamer.go:196-229 | How both headers of a written chunk are read back, with what a reader in an extended mode makes of a type 3 chunk. |
| Lockstep.ChunkArrives | chunk_streamer.go:196-283 | A chunk the reader is ready for is read whole, and nothing behind it is touched. |
| Lockstep.FirstChunk | chunk_streamer.go:214-348 | The first chunk of a message: when it arrives, and the agreement it leaves at both ends. |
| Lockstep.ContinuationChunk | chunk_streamer.go:318-348 | Every further chunk is type 3, arrives exactly outside the extended modes, and keeps length, type, stream ID and delta in agreement, buffer and remainder adding up to the payload. |
| Lockstep.IntactIffAdmissible | chunk_streamer.go:196-348 | A submitted message is sure to arrive chunk by chunk, equal in every field, whatever follows, if and only if the sender's record admits it, both ends cut it alike, and its chunk stream ID is at most 319 or the connection hands over no byte too many; for every ID the writer accepts. |
| Lockstep.ExtendedModeBreaksType3 | chunk_header.go:158-176 | In an extended mode a type 3 chunk is never taken as it was written, whatever follows it. |
| Lockstep.EmptyMessageFails | chunk_streamer.go:257-260 | The chunk of an empty message is an error, whatever follows it. |
| Lockstep.TakenIff | chunk_streamer.go:257-282 | Outside the extended modes a chunk is taken as it was written if and only if its payload has the size the reader expects, or is shorter and nothing follows it. |
| Lockstep.LongFormBreaks | chunk_header.go:36-46 | A chunk with a three-byte basic header does not arrive from a connection that may hand over even one byte too many. |
| Formats.OmissionIsSound | chunk_streamer.go:318-348 | A header leaves out length, type and stream ID only if the receiver already holds their values, and the delta of type 3 is the receiver's exactly if both ends still held the same. |
| Formats.AdmissibleOmissionIsSound | chunk_streamer.go:318-348 | For an admissible message every omitted field, the delta included, is the receiver's. |
| Formats.SmallestFormat | chunk_streamer.go:318-348 | The chosen format tells the receiver everything, and no format that carries less would. |
| Formats.ReversedIsFull | chunk_streamer.go:327-334 | A timestamp that runs backwards forces type 0 and clears the delta at both ends. |
| Formats.DeltaAgreesIff | chunk_streamer.go:337-346 | By format, when both ends hold the same delta after a first chunk, whatever they held before: type 0 if it is 0, types 1 and 2 always, type 3 if they did before. |
| Formats.DeltaLostIff | chunk_streamer.go:343-346 | Deltas in agreement part exactly when the message stream ID changes at a later time. |
| Formats.PlainIsAdmissible | chunk_streamer.go:318-348 | A plain message on a lane with plain traffic is admissible at any chunk size. |
| Formats.StreamChangeBreaksType3 | chunk_streamer.go:337-346 | Three messages of which the last goes out as type 3 with a delta the reader no longer holds: the reader reports time 10 instead of 20. |
| Formats.ExtendedTwoChunksBreak | chunk_header.go:255-257 | No first message at or past the 24-bit escape that needs a second chunk travels intact, at any size and on any chunk stream the writer accepts. |
| Formats.LargestFirstTimestampBreaks | chunk_streamer.go:422-424 | No first message at the largest time on message stream 0 travels intact, on any chunk stream the writer accepts: it is not sent in full, and is reported at time 0. |
| Fragments.FragmentArithmetic | chunk_streamer.go:285-348 | A message of n bytes at chunk size c takes n/c rounded up chunks, all after the first are type 3, and the wire carries n bytes, that many basic headers and one message header. |
| Transport.FreshEndsAreSynced | chunk_streamer.go:58-95 | Two ends opened with the same settings are in step. |
| Transport.ChunkKeepsLink | chunk_streamer.go:196-348 | Every chunk is taken exactly and keeps writer and reader of its stream in agreement. |
| Transport.ResizeKeepsSync | stream.go:136-145 | The local size may change at any time, with writers busy and messages queued, if those not yet begun stay admissible at the new size; the reader needs to know only before a chunk is cut differently. |
| Transport.TurnTakenIff | stream.go:136-145 | While a change is under way a chunk that something follows is taken as it was written if and only if the size in use and the size last told cut what is left of its message alike. |
| Transport.SoundIsObeyed | conn_state.go:116-128 | A delivered message that says a valid chunk size sets the reader to it, clamped to 24 bits. |
| Transport.ReactLaw | conn_state.go:116-128 | Exactly which messages set the reader's chunk size, to what, and which end the connection. |
| Transport.SwitchIs | stream.go:308-319 | The switch message has time 0, type 1, message stream 0 and the size in four bytes. |
| Transport.Transported | chunk_streamer.go:196-348 | Whatever the legal interleaving of messages, turns and changes of size, the reader delivers exactly the finished messages, in order, and stays in step. |
| Transport.DeliveredInOrder | chunk_streamer.go:113-135 | On every chunk stream, what was pending and requested is what was delivered and is still pending, in order. |
| PlainTraffic.PlainRunIsLegal | chunk_streamer.go:318-348 | Any number of plain messages at any chunk sizes is admissible throughout, without the sender keeping a record of its reader. |
| PlainTraffic.SwitchIsPlain | stream.go:136-145 | The message that says a new chunk size is a plain one on every lane. |
| PlainTraffic.PlainTrafficDelivered | chunk_streamer.go:113-348 | From new ends on, every run of plain messages, turns and changes of size delivers exactly the finished messages, on every chunk stream in order up to the one still being sent. |
| WriteLoop.TurnsAreRun | chunk_streamer.go:457-489 | With no change of size under way the turns of the loop are a legal run, write what the loop writes, and leave nobody busy. |
| WriteLoop.LoopDelivers | chunk_streamer.go:457-489 | From the bytes of the loop the other end makes exactly one message for every queued chunk stream, the one queued there. |
| WriteLoop.RoundRobin | chunk_streamer.go:457-489 | The loop writes in rounds: one chunk of every queued writer in order, then the same with those that have more. |
| ControlState.NormalizeCopy | conn_state.go:45-93 | The stepwise completion of a configuration fills exactly the fields left at zero. |
| ControlState.NormalizeCompletes | conn_state.go:45-93 | Fields that are set are kept, and the others are 128 for the chunk size, 0xffffff for the largest chunk size and message, and the largest 32-bit values, signed or unsigned. |
| ControlState.StreamControlState.constructor | conn_state.go:97-110 | A new control state starts from the configured defaults. |
| ControlState.StreamControlState.SetChunkSize | conn_state.go:116-128 | A size is accepted if and only if, clamped to 24 bits, it is within the limit, and is then the clamped one; a refused one changes nothing. |
| ControlState.StreamControlState.SetAckWindowSize | conn_state.go:134-142 | A window is accepted if and only if it is within the limit, and is then that very one; a refused one changes nothing. |
| ControlState.AcceptedIff | conn_state.go:116-142 | Both laws for the specification. |
| ControlState.DefaultsRefuseNothing | conn_state.go:45-93 | With the default limits every chunk size and every window is accepted. |
| ChunkSize.ClampIsInvisible | conn_state.go:116-128 | A clamped size cuts every message as the size asked for does, exactly as long as lengths fit 24 bits. |
| ChunkSize.NormalizedEndsAreSynced | conn_state.go:45-93 | Completed settings stay as they are, and two ends that share them are in step. |
| ChunkSize.SwitchTravelsIff | stream.go:136-145 | The switch message arrives if and only if the size does not change or both sizes are at least 4 (section 5.4.1). |
| ChunkSize.SwitchCompletes | stream.go:136-145 | With other writers busy or not, a change to a size of at least 4 from a size of at least 4, its message and the turn that writes it are legal, and leave both ends at the new size. |
| ChunkSize.RefusedSwitchDesyncs | stream.go:308-319 | After a refused switch exactly the messages no longer than the peer's chunk size get through. |
| Demultiplex.ChunkIsLocal | chunk_streamer.go:196-283 | A chunk is read from its own bytes and its own stream's memory alone. |
| Demultiplex.NonInterference | chunk_streamer.go:196-283 | On any input that reads without error, a chunk stream gets from the mixture exactly what it gets from its own chunks alone. |
| Demultiplex.Interleaved | chunk_streamer.go:196-283 | Conversely, chunks of several streams in any order read without error, each stream as alone. |
| StandardSender.MessagePlays | chunk_streamer.go:222-280 | The reader recovers a message in any format section 5.3.1.2 permits, extended timestamps repeated on type 3 chunks (section 5.3.1.3). |
| StandardSender.StandardRunRecovered | chunk_header.go:158-176 | It recovers every message of every permitted run for all 32-bit times and deltas, keeping the extended mode right. |
| StandardSender.StandardSendersRecovered | chunk_streamer.go:222-280 | Any interleaving of such senders on a new connection delivers each one's messages, in order. |
| StandardSender.Type3AfterType0 | chunk_streamer.go:222-229 | A type 3 chunk that opens a message after type 0 repeats its time, at any chunk size and 32-bit time, which is what section 5.3.1.2.4 asks exactly when that time is 0. |
| AckWindow.AcksConserve | chunk_streamer.go:143-148 | For turns of at most so many bytes, acknowledged gaps and unacknowledged bytes sum to the bytes read, whatever windows follow each other whose threshold is so much below 2^32, and each sequence number is the total modulo 2^32 (section 5.4.3). |
| AckWindow.ConservedIff | chunk_streamer.go:143-148 | For one window and turns of at most `most` bytes the books are kept over every run if and only if the window is above -2, or at most minus twice `most`. |
| AckWindow.FixedWindowBounds | chunk_streamer.go:143-148 | For a fixed window W of at least 2, fewer than W/2 bytes are unacknowledged after every turn, and an acknowledgement covers less than W/2 and one chunk more. |
| AckRuns.ChunkIsBounded | chunk_streamer.go:196-283 | A chunk takes at most 17 bytes and its payload piece, and with a three-byte basic header 1 byte more and those that are lost behind it. |
| AckRuns.UnacknowledgedIsBounded | chunk_streamer.go:137-154 | Both bounds on any input that reads without error, three-byte basic headers included, with every byte accounted for. |
| AckRuns.LongInput | chunk_streamer.go:143-148 | There are readable inputs of any length from 42 bytes above it on that end with the largest chunk; of 2^32 bytes, they call for no acknowledgement at the other windows. |
| AckRuns.BooksKeptIff | chunk_streamer.go:137-154 | On a new connection, at one chunk size and window, every input that reads without error has every byte accounted for if and only if the window is above -2 or at most minus twice the largest chunk: 17 bytes and a payload piece for inputs without three-byte basic headers, and with them 1 byte more and as many as may be lost. |
| Scheduler.StepKeepsInv | chunk_streamer.go:457-489 | Every step, the forced close included, except a producer passing by `closeCh`, keeps each busy writer in exactly one place, its `doneCh` closed once for each time it was made, and idle error-free writers empty. |
| Scheduler.RunsKeepInv | chunk_streamer.go:365-489 | So does every run in which no producer passes by `closeCh`, before and after the loop has died. |
| Scheduler.RunsAreSafe | chunk_stream_writer.go:29-48 | Over every interleaving no `doneCh` is closed twice, and ownership holds until writers are closed by force. |
| Scheduler.ForcedCloseShares | chunk_stream_writer.go:42-43 | After that any two producers can acquire the same writer that did not itself fail. |
| Scheduler.OwnershipLostReachable | chunk_streamer.go:365-382 | One failed write is enough to come there. |
| Scheduler.OwnershipLostIff | chunk_streamer.go:365-435 | Some run from the start gives two producers the same writer if and only if at least two chunk streams are allowed. |
| Scheduler.FailedIsLost | chunk_stream_writer.go:29-48 | Over every interleaving nobody acquires a writer that failed, not even by a closed `closeCh`. |
| Scheduler.StoppedForGood | chunk_streamer.go:485-489 | A loop that waits can be stopped, and takes no writer any more. |
| Scheduler.NeverBlocks | chunk_streamer.go:482-483 | With at most 64 writers the loop never blocks on its own queue, nor does a producer. |
| Scheduler.DeadlockStays | chunk_streamer.go:482-483 | A loop blocked on its own full queue stays blocked. |
| Scheduler.DeadlockReachable | chunk_streamer.go:25-77 | With room for more than 64 writers that state is reachable. |
| Scheduler.DeadlockIff | chunk_streamer.go:25-77 | Some run from the start blocks the loop on its own queue if and only if more than 64 writers are allowed. |
| Scheduler.RankDrops | chunk_streamer.go:457-489 | Every chunk written brings every waiting writer nearer its end, whatever else arrives. |
| Scheduler.BoundedFairness | chunk_streamer.go:457-489 | With at most k writers and no error or stop, a queued message of m chunks is finished within k*m chunks written. |
| Scheduler.LoopDrains | chunk_streamer.go:468-484 | Without arrivals the backlog drops by one chunk with every chunk written. |
| Scheduler.DrainsCompletely | chunk_streamer.go:457-489 | When the loop can go no further everything is written and every writer that nobody holds is at rest and empty. |
| Scheduler.ChunksConserved | chunk_streamer.go:457-489 | Over every interleaving, shared writers included, the chunks loaded into a writer are those written from it and those left. |
| Messages.RoundTrip | message/encoder.go:31-127 | Every encodable control message comes back under its own type ID, signed sizes included, and exactly its bytes are consumed (section 5.4). |
| Messages.Canonical | message/decoder.go:34-172 | Whatever is accepted re-encodes to the very bytes read. |
| Messages.DecodesIffEncoded | message/decoder.go:34-172 | Exactly the encodings are accepted. |
| Messages.EventRoundTrip | message/user_control_event_encoder.go:27-117 | All seven user control events come back, with exactly their bytes consumed (section 7.1.7). |
| Messages.EventCanonical | message/user_control_event_decoder.go:27-159 | A decoded event re-encodes to the bytes read. |
| WireFormat.BasicHeaderFormat | chunk_header.go:53-79 | The bytes of a basic header: two bits of format, and the ID less 64 with its low byte first in the longer forms (section 5.3.1.1). |
| WireFormat.Type0Format | chunk_header.go:185-211 | The fields of a type 0 header at their places, most significant byte first but for the message stream ID (section 5.3.1.2.1). |
| WireFormat.ShorterFormats | chunk_header.go:212-262 | The same for types 1 to 3. |
| WireFormat.ControlFormat | message/encoder.go:62-127 | Every control message under its type ID as bytes, signed sizes in two's complement (sections 5.4 and 6.2). |
| WireFormat.EncodedIff | message/encoder.go:62-79 | Only a chunk size of zero or above 31 bits cannot be encoded. |
| WireFormat.EventFormat | message/user_control_event_encoder.go:27-117 | Every user control event as bytes (section 7.1.7). |
| WireFormat.RejectedIff | message/decoder.go:34-188 | Which inputs are rejected, by the reason. |
| MessageCodec.Encoder.Encode | message/encoder.go:31-143 | The buffer-filling encoder writes the specified bytes, or nothing for a chunk size out of range. |
| MessageCodec.Decoder.Decode | message/decoder.go:34-188 | The decoder takes from its reader what the specification takes, with the same message or error. |
| MessageCodec.UserControlEventEncoder.Encode | message/user_control_event_encoder.go:27-117 | The same for events. |
| MessageCodec.UserControlEventDecoder.Decode | message/user_control_event_decoder.go:27-159 | The same for events. |
| Registry.AllocatesIffRoom | streams.go:54-67 | A stream can be created exactly when fewer than the limit exist, and it gets the least free ID. |
| Registry.Streams.Create | streams.go:34-52 | A stream is added under its own ID exactly when the ID is free and there is room. |
| Registry.Streams.CreateIfAvailable | streams.go:54-67 | The loop over candidates finds what the allocator specifies and adds just that. |
| Registry.Streams.Delete | streams.go:69-83 | Exactly the named stream goes; every stream stays under its own ID. |
| Registry.Stream.ChangeState | stream_handler.go:100-130 | The state becomes the one asked for, except that the unset state cannot be asked for. |
| Session.StepKeepsInv | conn.go:178-207 | Every turn of the message loop keeps the registry equal to what the log says, the log within what is allowed, and every stream in a state of its kind, whether callbacks agree, refuse, or refuse with an error that is dropped. |
| SessionTurns.ConnectTurn | server_control_not_connected_handler.go:45-113 | connect asks the application first; the stream becomes connected if and only if it agrees and all four replies are written, and otherwise the streams are as before and the last written is the error reply. |
| SessionTurns.ConnectTold | server_control_not_connected_handler.go:62-108 | The log of an accepted connect, event by event. |
| SessionTurns.ConnectUntold | server_control_not_connected_handler.go:62-102 | The same when one of the replies cannot be written. |
| SessionTurns.PublishTurn | server_data_inactive_handler.go:55-81 | publish on an inactive stream asks about publish, tells the answer, and the stream publishes if and only if it was agreed and told. |
| SessionTurns.PlayTurn | server_data_inactive_handler.go:83-108 | The same for play. |
| SessionTurns.CreateTurn | server_control_connected_handler.go:55-94 | createStream event by event: the least free stream is opened and named, or taken out again; every refusal is answered with an error. |
| SessionTurns.DeleteTurn | server_control_connected_handler.go:96-111 | deleteStream removes the stream named if and only if the application agrees; one that is not there ends the connection. |
| SessionTurns.NoticeTurn | server_control_connected_handler.go:113-148 | Releases and announcements on a connected control stream are passed on as what they are. |
| SessionTurns.MediaTurn | server_data_publish_handler.go:25-55 | Audio, video and data frames on a publishing stream are passed on as what they are. |
| SessionTurns.UnknownTurn | stream_handler.go:73-207 | Every other command, message and data frame is passed on as unknown. |
| SessionTurns.SizeTurn | stream_handler.go:83-85 | A chunk size within the limit is taken, clamped; another ends the connection. |
| SessionTurns.WindowTurn | stream_handler.go:87-89 | A window within the limit is taken as it is; another ends the connection. |
| SessionTurns.SilentTurn | conn.go:196-204 | Responses and malformed bodies end the connection, unknown bodies do nothing. |
| SessionTurns.PublisherServed | server_conn.go:27-47 | From the start, a publisher whose every request is agreed to and told gets stream 1, publishes on it, and is heard. |
| SessionSafety.ConnectedWasAccepted | server_control_not_connected_handler.go:45-113 | A connected control stream was accepted, with all four replies written in order just before, and is untouched since. |
| SessionSafety.PublishingWasAccepted | server_data_inactive_handler.go:46-113 | A publishing stream was accepted and told so, and is untouched since. |
| SessionSafety.ControlNeverReturns | server_control_connected_handler.go:96-111 | Once deleted, the control stream never returns. |
| SessionSafety.OneRole | server_data_inactive_handler.go:46-113 | Between two changes of one stream ID into a role the stream was removed. |
| SessionSafety.OneGrant | server_data_inactive_handler.go:46-113 | Between two acceptances of publish or play for one stream ID, in either order, the stream was removed; a grant that cannot be told ends the connection. |
| SessionSafety.SessionIsSafe | stream_handler.go:73-207 | All of this for every run, every answer of the application and every outcome of the writes, with audio, video and data frames delivered only on streams whose publish was accepted, no stream granted a second role, and streams removed only on an accepted deletion or after a creation that could not be answered. |
| SessionSafety.CreateStreamOutcome | server_control_connected_handler.go:55-94 | A createStream adds the least free stream exactly when it is accepted, there is room and the reply is written; otherwise the streams are as before. The connection is kept exactly if the first reply is written and the callback did not refuse with an error that counts. |
| SessionSafety.BudgetIsExact | conn.go:178-194 | An open server has counted every message to a missing stream and is within its budget; one message more closes it. |
| SessionSafety.BudgetFromStart | conn.go:178-194 | From the start, exactly as many stray messages as the limit says are let pass. |
| SessionEnd.StepEndsIff | conn.go:178-207 | A turn of the loop only adds to the log, and ends the connection exactly when a callback of that turn was refused with an error other than the two that are dropped, a write failed, or the message is one that cannot be served: for a missing stream beyond the budget, malformed, an unexpected response, a refused size or window, or a deletion of nothing. |
| SessionEnd.TurnEndsIff | conn.go:158-207 | The same for a whole turn of the loop, which also ends the connection when no message can be read or the write loop is over. |
| SessionEnd.NothingWithoutConsent | stream_handler.go:73-98 | Streams change only where a callback agreed. |
| SessionEnd.DroppedIsForgotten | conn.go:196-203 | A callback error that is dropped, and whose reply is written if it has one, changes nothing but the log. |
| SessionEnd.CreateEnds | server_control_connected_handler.go:55-94 | createStream ends the connection exactly when it is refused with an error that is not dropped or a reply fails; a full registry alone does not. |
| SessionEnd.ConnectEnds | server_control_not_connected_handler.go:54-113 | connect ends the connection exactly when it is refused with an error that is not dropped or one of its writes fails. |
| SessionConn.Conn.Serve | server_conn.go:27-47 | Serving starts with the control stream alone, not connected, if the limit allows one stream. |
| SessionConn.Conn.Connect | server_control_not_connected_handler.go:45-113 | The steps of connect in order and, on the first error, the error reply. |
| SessionConn.Conn.CreateStream | server_control_connected_handler.go:55-94 | The deferred error reply, the kept connection on a full registry, and the undo. |
| SessionConn.Conn.DeleteStream | server_control_connected_handler.go:96-111 | The callback first, then the removal; either failing ends the connection, unless the error is dropped. |
| SessionConn.Conn.Publish | server_data_inactive_handler.go:55-81 | Notification before the change of state, and the rejection, after which a dropped error leaves the stream as it was. |
| SessionConn.Conn.Play | server_data_inactive_handler.go:83-108 | The same for play. |
| SessionConn.Conn.Handle | stream_handler.go:73-98 | Dispatch by message and by the state of the stream. |
| SessionConn.Conn.HandleMessage | conn.go:178-207 | One message changes registry, counters, sizes and log as the session specifies. |
| SessionConn.Conn.Run | conn.go:158-176 | So does the loop over a whole run, left as soon as the connection has ended. |

## Left out

- Sockets, TLS, dialing, `bufio` buffering and flushing: a write either goes through or fails.
- AMF0 bodies: command and data bodies count as already decoded, as unknown, or as malformed.
- MessageCodec.Decoder.Decode: type IDs 18 and 20, whose bodies are AMF0, are rejected with an error of their own, `NotModelled`.
- The handshake, loggers, response presets, error texts and the example programs.
- Client-side connections and transactions: a `_result` or `_error` on a server stream matches no transaction and ends the connection, which is the case of a server that opened none.
- AMF3, shared object and aggregate messages beyond their rejection: the code does not implement them.
- Go memory-model races and wall-clock timeouts: channel operations are atomic steps.
- A `Write` whose encoding fails and so keeps its writer: the scheduler model has no such step.
- ChunkStreamer.ChunkStreamer.Run: drains what is queued when it starts; work that arrives meanwhile, stopping and blocking are in `Scheduler`.
- Transport.React: a chunk size is obeyed on any message stream; in the code a message for a stream that does not exist is dropped or ends the connection (`Session.Step`).
- Demultiplex.NonInterference: for inputs without three-byte basic headers, since one may take bytes of what follows (`ChunkHeader.BasicHeaderRoundTrip`), and at one chunk size.
- StreamIO.Source.ReadAtLeast: one read of the connection, where the library may need several; only their sum shows.
- Bit masks and shifts are written as division and remainder.
- The three callbacks for unknown data, commands and other messages are one, told apart by its message.
- Bandwidth limits and `MaxMessageSize`: the code stores them and does nothing with them.
