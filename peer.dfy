/** An incoming connection (peer): it keeps the server-wide set of live peer
    ids up to date over its lifetime, and on every poll drains its outbound
    queue into the byte stream's write buffer, flushes, and reads once. The
    byte stream is reduced to the ordered list of calls made on it, and the
    outcomes of flushing and reading are inputs. */
module Peer {

  type Bytes = seq<bv8>

  /** The error type of the peer's byte stream. */
  datatype Error = Error(reason: string)

  /** A call the peer makes on its byte stream. */
  datatype StreamCall = FillWriteBuffer(chunk: Bytes) | PollFlush | PollRead

  /** What flushing the byte stream reports. */
  datatype FlushOutcome = Flushed | FlushPending | FlushFailed(error: Error)

  /** What reading the byte stream reports. */
  datatype ReadOutcome = Received(data: Bytes) | EndOfStream | ReadPending | ReadFailed(error: Error)

  /** The peer future's answer: finished, waiting, or failed. */
  datatype PollResult = Ready | NotReady | Failed(error: Error)

  /** `peers` with `id` inserted. */
  function Joined(peers: set<nat>, id: nat): (r: set<nat>)
    ensures id in r
    ensures forall other :: other != id ==> (other in r <==> other in peers)
  {
    peers + {id}
  }

  /** `peers` with `id` removed. */
  function Left(peers: set<nat>, id: nat): (r: set<nat>)
    ensures id !in r
    ensures forall other :: other != id ==> (other in r <==> other in peers)
  {
    peers - {id}
  }

  /** A peer that joins and leaves restores the set when its id was new;
      when another live peer already had that id, leaving takes the id away
      from both. */
  lemma JoinThenLeave(peers: set<nat>, id: nat)
    ensures id !in peers ==> Left(Joined(peers, id), id) == peers
    ensures id in peers ==> Left(Joined(peers, id), id) == peers - {id}
  {
  }

  /** The stream calls that pass `chunks` to the write buffer, oldest first. */
  function Fills(chunks: seq<Bytes>): (calls: seq<StreamCall>)
    ensures |calls| == |chunks|
    ensures forall i :: 0 <= i < |chunks| ==> calls[i] == FillWriteBuffer(chunks[i])
  {
    if chunks == [] then [] else [FillWriteBuffer(chunks[0])] + Fills(chunks[1..])
  }

  /** The stream calls of one poll: every queued chunk in FIFO order, then
      the flush, then a read unless the flush failed. */
  function PollCalls(queued: seq<Bytes>, flush: FlushOutcome): (calls: seq<StreamCall>)
    ensures |calls| == |queued| + (if flush.FlushFailed? then 1 else 2)
    ensures forall i :: 0 <= i < |queued| ==> calls[i] == FillWriteBuffer(queued[i])
    ensures calls[|queued|] == PollFlush
    ensures PollRead in calls <==> !flush.FlushFailed?
  {
    Fills(queued) + [PollFlush] + (if flush.FlushFailed? then [] else [PollRead])
  }

  /** The poll's answer: a flush error ends the poll with that error; then
      the end of the stream finishes the peer, data or nothing keeps it
      waiting, and a read error fails it. */
  function PollVerdict(flush: FlushOutcome, read: ReadOutcome): (r: PollResult)
    ensures flush.FlushFailed? ==> r == Failed(flush.error)
    ensures r == Ready <==> !flush.FlushFailed? && read == EndOfStream
    ensures r == NotReady <==> !flush.FlushFailed? && (read.Received? || read == ReadPending)
    ensures r.Failed? <==> flush.FlushFailed? || read.ReadFailed?
    ensures !flush.FlushFailed? && read.ReadFailed? ==> r == Failed(read.error)
  {
    match flush
    case FlushFailed(e) => Failed(e)
    case _ =>
      match read
      case Received(_) => NotReady
      case EndOfStream => Ready
      case ReadPending => NotReady
      case ReadFailed(e) => Failed(e)
  }

  /** The state the peers share; only the set of live peer ids is modelled. */
  class Shared {
    var peers: set<nat>

    constructor ()
      ensures peers == {}
    {
      peers := {};
    }
  }

  class Peer {
    const id: nat
    const shared: Shared
    /** Chunks waiting on the peer's unbounded outbound channel, oldest first. */
    var receiver: seq<Bytes>
    /** The calls made so far on the peer's byte stream, oldest first. */
    var stream: seq<StreamCall>

    constructor (id: nat, shared: Shared)
      modifies shared
      ensures this.id == id && this.shared == shared
      ensures shared.peers == Joined(old(shared.peers), id)
      ensures receiver == [] && stream == []
    {
      this.id := id;
      this.shared := shared;
      receiver := [];
      stream := [];
      new;
      shared.peers := shared.peers + {id};
    }

    /** The end of the peer's life: its id leaves the shared set. */
    method Drop()
      modifies shared
      ensures shared.peers == Left(old(shared.peers), id)
    {
      shared.peers := shared.peers - {id};
    }

    /** A chunk sent through the outbound channel's sender half. */
    method QueueOutbound(chunk: Bytes)
      modifies this
      ensures receiver == old(receiver) + [chunk] && stream == old(stream)
    {
      receiver := receiver + [chunk];
    }

    /** One poll, given what the flush and the read report. */
    method Poll(flush: FlushOutcome, read: ReadOutcome) returns (r: PollResult)
      modifies this
      ensures receiver == []
      ensures stream == old(stream) + PollCalls(old(receiver), flush)
      ensures r == PollVerdict(flush, read)
    {
      ghost var queued := receiver;
      ghost var start := stream;
      while receiver != []
        invariant |receiver| <= |queued|
        invariant receiver == queued[|queued| - |receiver|..]
        invariant stream == start + Fills(queued[..|queued| - |receiver|])
        decreases |receiver|
      {
        var chunk := receiver[0];
        ghost var done := queued[..|queued| - |receiver|];
        receiver := receiver[1..];
        stream := stream + [FillWriteBuffer(chunk)];
        assert queued[..|queued| - |receiver|] == done + [chunk];
      }
      assert queued[..|queued|] == queued;
      stream := stream + [PollFlush];
      if flush.FlushFailed? {
        return Failed(flush.error);
      }
      stream := stream + [PollRead];
      match read {
        case Received(_) => r := NotReady;
        case EndOfStream => r := Ready;
        case ReadPending => r := NotReady;
        case ReadFailed(e) => r := Failed(e);
      }
    }
  }

  /** A new peer whose id was not live, dropped again, leaves the shared set
      as it found it. */
  method JoinAndLeave(shared: Shared, id: nat)
    requires id !in shared.peers
    modifies shared
    ensures shared.peers == old(shared.peers)
  {
    var peer := new Peer(id, shared);
    peer.Drop();
  }

  /** Two live peers with one id: dropping either removes the id for both. */
  method SharedIdLeaves(shared: Shared, id: nat)
    modifies shared
    ensures id !in shared.peers
    ensures shared.peers == old(shared.peers) - {id}
  {
    var first := new Peer(id, shared);
    var second := new Peer(id, shared);
    first.Drop();
  }
}
