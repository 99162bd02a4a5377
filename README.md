# javelin: segment cutting, peer lifecycle and bus connection handles

This project models three small pieces of sequential logic from the javelin
live-media server and proves properties of them in Dafny.

- **HLS segment writer** (`hls_writer.dfy`, with `decimal.dfy`). The writer
  takes a stream of media items. It cuts the transport-stream buffer into a
  `.ts` media segment at the first keyframe whose timestamp reaches the
  threshold `next_write`, which starts at 2000 ms. Each cut moves the
  threshold by one 2000 ms interval. The segment is named
  `./tmp/stream/test-{timestamp}-{keyframe_counter}.ts`, using the counter
  value from before that keyframe. Every built frame that is not a sequence
  header is then pushed into the buffer. `Step` and `Run` are the
  specification of one item and of a sequence of items. The class `Writer`
  keeps the source's cut-scheduling fields and its buffer, and its `Handle` and `Poll` methods are proved
  against `Step` and `Run`. The buffer is reduced to the ordered list of
  calls made on it (write a file, push a packet). The file name is written
  with `Decimal.Format`, which renders a number the way Rust's `{}` does.
  `ParseSegmentPath` reads a name back, and this proves that no two segments
  written in one run share a path.
- **Peer** (`peer.dfy`). Constructing a peer inserts its id into the
  server-wide set of live peer ids, and dropping it removes the id. A poll
  first passes every queued outbound chunk, oldest first, to the byte
  stream's write buffer. It then flushes, and then reads once unless the
  flush failed. The byte stream is reduced to the list of calls made on it.
  What the flush and the read report are inputs.
- **Bus connection handles** (`bus_connection.dfy`). `Connection` and
  `Addr` build `Message` and `Event` values from their arguments and their
  own name, and pass one request to the registry handle. `RequestFor`
  states which request each operation makes. `RequestForInverse` proves
  that the mapping can be read back. The registry handle records each
  request with its answer, and that answer is unconstrained. A name
  argument is given as the outcome of its conversion into a `BusName`.
  Delivery channels are FIFO queues.

`Addr::send` (javelin-core/src/bus/connection.rs:107-116) discards the
result of the channel send with `let _ =` under a `// TODO: handle errors`
comment, and always returns `Ok(())`. `BusConnection.Addr.Send` models the
code as written: a send to a dropped member reports success and delivers
nothing.

## Model

| member | source | states |
|---|---|---|
| `HlsWriter.Writer.constructor` | src/hls/writer.rs:20-31 | a new writer has `write_interval == 2000`, `next_write == 2000`, `keyframe_counter == 0` and an untouched buffer |
| `HlsWriter.StepRules` | src/hls/writer.rs:42-76 | one item: a segment is written iff it is a keyframe with timestamp `>= next_write`, at most once; `next_write` then grows by exactly one interval, even when the timestamp is several intervals ahead; the counter grows by one per keyframe, cut or not; the path is `./tmp/stream/test-{timestamp}-{counter before increment}.ts`; each built non-header frame is pushed once, after any write; build failures, sequence headers and AAC change nothing |
| `HlsWriter.Writer.Handle` | src/hls/writer.rs:42-76 | the in-place per-item body changes the fields and the buffer exactly as `Step` says |
| `HlsWriter.Writer.Poll` | src/hls/writer.rs:40-80 | the receive loop handles every received item in order, the fields and buffer end as `Run` says, and the result is Ready exactly when the stream has ended |
| `HlsWriter.RunCounters` | src/hls/writer.rs:59-69 | over any run, the interval is unchanged, `keyframe_counter` grows by the number of keyframes, and there are no more segments than keyframes |
| `HlsWriter.RunThreshold` | src/hls/writer.rs:60-65 | over any run, `next_write` grows by exactly `write_interval` times the number of segments written |
| `HlsWriter.WriterTotals` | src/hls/writer.rs:20-69 | from a new writer, `next_write == 2000 + 2000 * segments`, at least 2000, and `keyframe_counter` equals the number of keyframes seen |
| `HlsWriter.NextWriteMonotone` | src/hls/writer.rs:60-68 | `next_write` and `keyframe_counter` never decrease |
| `HlsWriter.RunPushes` | src/hls/writer.rs:71-73 | the packets pushed are exactly those of the built non-header frames, once each, in arrival order |
| `HlsWriter.SegmentPathRoundTrip` | src/hls/writer.rs:62-63 | a segment path parses back to the timestamp and counter it was made from |
| `HlsWriter.RunSegmentBounds` | src/hls/writer.rs:59-68 | every segment of a run carries a counter value that lies between the counter at the start and the counter at the end of the run |
| `HlsWriter.RunSegmentOrder` | src/hls/writer.rs:59-68 | the counters in a run's segment paths strictly increase |
| `HlsWriter.DistinctSegmentPaths` | src/hls/writer.rs:59-68 | no two segments written in one run share a file path, so no segment file is overwritten |
| `Decimal.Format` | src/hls/writer.rs:62 | a number's rendering is a non-empty digit string with no leading zero |
| `Decimal.Parse` | src/hls/writer.rs:62 | a string has a value exactly when it is a non-empty digit string |
| `Decimal.ParseFormat` | src/hls/writer.rs:62 | reading back a rendered number gives that number |
| `Decimal.FormatParse` | src/hls/writer.rs:62 | a digit string with no leading zero is the rendering of its value, so the rendering is canonical |
| `Peer.Peer.constructor` | src/peer/mod.rs:26-41 | a new peer's id is in the shared set, the other members are unchanged, and its queue and stream are empty |
| `Peer.Peer.Drop` | src/peer/mod.rs:44-48 | after the drop the peer's id is not in the shared set, and the other members are unchanged |
| `Peer.Joined` | src/peer/mod.rs:30-31 | inserting puts the id in the set and leaves every other id's membership as it was |
| `Peer.Left` | src/peer/mod.rs:46-47 | removing takes the id out of the set and leaves every other id's membership as it was |
| `Peer.JoinThenLeave` | src/peer/mod.rs:26-48 | join then leave restores the set when the id was absent; when the id was already live, it is removed for both holders |
| `Peer.JoinAndLeave` | src/peer/mod.rs:26-48 | constructing and dropping a peer with a new id leaves the shared set as it was |
| `Peer.SharedIdLeaves` | src/peer/mod.rs:26-48 | with two live peers sharing one id, dropping one removes the id from the set |
| `Peer.Peer.QueueOutbound` | src/peer/mod.rs:27 | a chunk sent on the peer's unbounded channel joins the back of its queue |
| `Peer.Fills` | src/peer/mod.rs:57-59 | draining passes the chunks to the write buffer one call each, in FIFO order |
| `Peer.PollCalls` | src/peer/mod.rs:57-63 | a poll makes one fill call per queued chunk in order, then the flush, then a read exactly when the flush did not fail |
| `Peer.PollVerdict` | src/peer/mod.rs:61-73 | a flush error is returned at once; otherwise end of stream gives Ready, data or no data gives NotReady, and a read error is returned as the poll's error |
| `Peer.Peer.Poll` | src/peer/mod.rs:55-74 | a poll empties the queue and makes the stream calls of `PollCalls` in that order, and its answer is `PollVerdict` |
| `BusConnection.RequestFor` | javelin-core/src/bus/connection.rs:28-70 | a failed name conversion is returned unchanged and no request is made; sends go to `Some(converted name)`, typed for `send` and raw for `send_raw`; `register_event` and `broadcast` publish under the connection's own name; a broadcast is typed with no destination; a subscription names the given publisher and the connection as subscriber |
| `BusConnection.RequestForInverse` | javelin-core/src/bus/connection.rs:28-70 | a request maps back to the operation that made it, in both directions: no two operations make the same request, and a connection never acts under another member's name |
| `BusConnection.Handle.Call` | javelin-core/src/bus/connection.rs:34 | the handle records each request with the answer it gives, and that answer is unconstrained |
| `BusConnection.Connection.constructor` | javelin-core/src/bus/connection.rs:24-26 | a new connection holds exactly the name, registry handle and receiver it is given, and makes no request |
| `BusConnection.Connection.Send` | javelin-core/src/bus/connection.rs:28-35 | either the conversion error is returned and nothing is logged, or exactly the typed send request is logged and its answer is returned unchanged |
| `BusConnection.Connection.SendRaw` | javelin-core/src/bus/connection.rs:37-44 | the same contract as `Send`, with a raw payload |
| `BusConnection.Connection.RegisterEvent` | javelin-core/src/bus/connection.rs:46-51 | exactly one request, declaring the connection's own name as publisher; its answer is returned unchanged |
| `BusConnection.Connection.Subscribe` | javelin-core/src/bus/connection.rs:53-61 | either the conversion error with no request, or one subscribe request naming this connection as subscriber; its answer is returned unchanged |
| `BusConnection.Connection.Broadcast` | javelin-core/src/bus/connection.rs:63-70 | exactly one broadcast request for this connection's event, carrying a typed message with no destination; its answer is returned unchanged |
| `BusConnection.Connection.NextMessage` | javelin-core/src/bus/connection.rs:72-74 | returns the oldest queued message and removes it; once the channel is closed and empty it returns None |
| `BusConnection.Channel.Recv` | javelin-core/src/bus/connection.rs:73 | the channel is FIFO: receiving takes the head of the queue |
| `BusConnection.Channel.Send` | javelin-core/src/bus/connection.rs:113 | a send appends to the queue unless the receiver is gone, in which case it fails |
| `BusConnection.Connection.Drop` | javelin-core/src/bus/connection.rs:77-82 | drop makes exactly one request, `unregister(own name)`, and ignores its answer; the receiver half goes with the connection |
| `BusConnection.Addr.constructor` | javelin-core/src/bus/connection.rs:103-105 | a new `Addr` holds exactly the name and sender it is given, and queues nothing |
| `BusConnection.Addr.Send` | javelin-core/src/bus/connection.rs:107-116 | a raw message addressed to the `Addr`'s own name is queued when the member is alive, and the result is always `Ok(())`, with any channel error discarded |
| `BusConnection.StaleAddr` | javelin-core/src/bus/connection.rs:107-116 | messages through an `Addr` arrive in order; after its connection is dropped, sending still reports success and delivers nothing |
| `BusConnection.DrainAfterClose` | javelin-core/src/bus/connection.rs:72-74 | after the senders are gone, `next_message` still yields the message queued before, then `None` |

## Left out

- Packet parsing (`avc::Packet::try_from_buf`, `SharedState`) is reduced to the packet's kind. The transport-stream buffer (`push_video`, `write_to_file`) is reduced to the record of calls made on it. The panic of `.unwrap()` when a file write fails is I/O and is not modelled. A failed `push_video` is only logged, and the model records the push either way.
- Integer widths: timestamps, `next_write` and `keyframe_counter` are unbounded integers. The source uses `u64` and `usize`. `next_write` would overflow only after more than 2^64 / 2000 segments.
- `HlsWriter.Writer.Poll` takes the items the receiver yields in one poll, plus whether it then reports the end of the stream. The asynchronous wake-ups between polls are not modelled.
- The receiver-error path is not modelled: `try_ready!` on `self.receiver.poll()` (src/hls/writer.rs:41) and `.unwrap()` on the outbound receiver (src/peer/mod.rs:57) would pass on or panic on a receiver error, but an unbounded futures channel receiver (src/peer/mod.rs:12) never reports one; the media receiver's type is not part of this model.
- The byte stream's socket I/O is reduced to the outcomes of the flush and the read. Nothing in src/peer/mod.rs sends on the peer's channel: `sender` (line 20) is created at line 27, stored at line 37 and never read, so as written the drain at line 57 always finds the channel empty. `Peer.Peer.QueueOutbound` stands for such a send, so that `Peer.Peer.Poll` has chunks to drain.
- The `RwLock` around the shared peer set is concurrency control; the model uses a plain set.
- The registry behind `Handle` is not part of this model: its directory, its subscription index, name uniqueness and broadcast fan-out. Its answers are unconstrained, and the model closes a member's channel only through `Channel.DropSenders`.
- Conversion of names into `BusName` is given as its outcome, and its validation rules are not modelled. Serde serialisation is reduced to the bytes of the typed payload.
- Channel capacity and the back-pressure of a bounded channel are not modelled; a send to a live receiver always succeeds. `async`/`await` is reduced to single calls, and a receive that would wait returns `Pending`.
- Logging and the `Debug` implementation (javelin-core/src/bus/connection.rs:85-91) are output only.
