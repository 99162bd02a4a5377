/** The member-side handles of the internal message bus. A `Connection`
    belongs to a registered member and an `Addr` lets a third party push raw
    data to one named member. Neither does registry work itself: each builds
    a `Message` or `Event` from its arguments and its own name and hands it
    to the registry handle. The registry is not part of this model; its
    handle records every request with the answer it gave, and that answer
    is unconstrained. Delivery channels are FIFO queues. */
module BusConnection {

  import opened Options

  type Bytes = seq<bv8>

  /** The bus's error type; its kinds are the registry's concern. */
  datatype Error = Error(reason: string)

  datatype Result<T> = Ok(value: T) | Err(error: Error)

  type Outcome = Result<()>

  /** The name of a bus member. */
  datatype BusName = BusName(name: string)

  /** A topic, scoped by its publisher. */
  datatype EventId = EventId(id: string)

  datatype Event = Event(publisher: BusName, id: EventId)

  /** A payload the sender had serialized (typed) or handed over as it is (raw). */
  datatype Payload = Typed(value: Bytes) | Raw(data: Bytes)

  /** A message; no destination means it is the payload of a broadcast. */
  datatype Message = Message(destination: Option<BusName>, payload: Payload)

  function NewTyped(destination: Option<BusName>, value: Bytes): Message {
    Message(destination, Typed(value))
  }

  function NewRaw(destination: Option<BusName>, data: Bytes): Message {
    Message(destination, Raw(data))
  }

  /** A request made of the registry handle. */
  datatype Request =
    | SendMessage(message: Message)
    | RegisterEvent(event: Event)
    | Subscribe(subscriber: BusName, event: Event)
    | Broadcast(event: Event, message: Message)
    | Unregister(name: BusName)

  /** A connection operation with its arguments. A name argument is given as
      the outcome of converting the caller's value into a `BusName`; event ids
      convert infallibly and are given directly. */
  datatype Op =
    | SendOp(to: Result<BusName>, value: Bytes)
    | SendRawOp(to: Result<BusName>, data: Bytes)
    | RegisterEventOp(id: EventId)
    | SubscribeOp(publisher: Result<BusName>, id: EventId)
    | BroadcastOp(id: EventId, value: Bytes)

  /** The name argument of `op`, for the operations that take one. */
  function NameArgument(op: Op): Option<Result<BusName>> {
    match op
    case SendOp(to, _) => Some(to)
    case SendRawOp(to, _) => Some(to)
    case SubscribeOp(publisher, _) => Some(publisher)
    case _ => None
  }

  /** The one request a connection named `self` makes for `op`, or the name
      conversion error that stops it before any request is made. */
  function RequestFor(self: BusName, op: Op): (r: Result<Request>)
    // a failed name conversion is returned as it is, and only it fails
    ensures r.Err? <==> NameArgument(op).Some? && NameArgument(op).value.Err?
    ensures r.Err? ==> r.error == NameArgument(op).value.error
    // point-to-point sends are addressed to the converted name
    ensures r.Ok? && (op.SendOp? || op.SendRawOp?) ==>
      r.value.SendMessage? && r.value.message.destination == Some(op.to.value)
    ensures r.Ok? && op.SendOp? ==> r.value.message.payload == Typed(op.value)
    ensures r.Ok? && op.SendRawOp? ==> r.value.message.payload == Raw(op.data)
    // the connection's own name is the publisher of what it declares and broadcasts
    ensures op.RegisterEventOp? ==> r == Ok(RegisterEvent(Event(self, op.id)))
    ensures op.BroadcastOp? ==>
      r.Ok? && r.value.Broadcast? && r.value.event == Event(self, op.id)
      && r.value.message.destination == None && r.value.message.payload == Typed(op.value)
    // a subscription names the given publisher and this connection as subscriber
    ensures r.Ok? && op.SubscribeOp? ==>
      r.value == Subscribe(self, Event(op.publisher.value, op.id))
  {
    match op
    case SendOp(to, value) =>
      if to.Err? then Err(to.error) else Ok(SendMessage(NewTyped(Some(to.value), value)))
    case SendRawOp(to, data) =>
      if to.Err? then Err(to.error) else Ok(SendMessage(NewRaw(Some(to.value), data)))
    case RegisterEventOp(id) =>
      Ok(RegisterEvent(Event(self, id)))
    case SubscribeOp(publisher, id) =>
      if publisher.Err? then Err(publisher.error) else Ok(Subscribe(self, Event(publisher.value, id)))
    case BroadcastOp(id, value) =>
      Ok(Broadcast(Event(self, id), NewTyped(None, value)))
  }

  /** Which connection operation, if any, a request from a connection named
      `self` stands for. */
  function OpOf(self: BusName, request: Request): Option<Op> {
    match request
    case SendMessage(Message(Some(to), Typed(value))) => Some(SendOp(Ok(to), value))
    case SendMessage(Message(Some(to), Raw(data))) => Some(SendRawOp(Ok(to), data))
    case RegisterEvent(Event(publisher, id)) =>
      if publisher == self then Some(RegisterEventOp(id)) else None
    case Subscribe(subscriber, Event(publisher, id)) =>
      if subscriber == self then Some(SubscribeOp(Ok(publisher), id)) else None
    case Broadcast(Event(publisher, id), Message(None, Typed(value))) =>
      if publisher == self then Some(BroadcastOp(id, value)) else None
    case _ => None
  }

  /** The requests a connection makes are exactly those OpOf reads back: no
      two operations make the same request, typed and raw sends and
      broadcasts stay apart, and a connection never publishes, broadcasts
      or subscribes under another member's name. */
  lemma RequestForInverse(self: BusName, op: Op, request: Request)
    ensures RequestFor(self, op) == Ok(request) <==> OpOf(self, request) == Some(op)
  {
  }

  /** The registry handle's log after a connection operation: unchanged with
      the conversion error returned, or one more request whose answer is
      returned unchanged. */
  ghost predicate Issued(before: seq<(Request, Outcome)>, after: seq<(Request, Outcome)>, planned: Result<Request>, r: Outcome) {
    match planned
    case Err(e) => after == before && r == Err(e)
    case Ok(request) => after == before + [(request, r)]
  }

  /** The shared registry handle, reduced to the requests made of it. */
  class Handle {
    /** Every request made so far, with the answer the registry gave. */
    var log: seq<(Request, Outcome)>

    constructor ()
      ensures log == []
    {
      log := [];
    }

    /** A request to the registry; any answer is possible. */
    method Call(request: Request) returns (answer: Outcome)
      modifies this
      ensures log == old(log) + [(request, answer)]
    {
      answer :| true;
      log := log + [(request, answer)];
    }
  }

  /** What waiting for the next message gives: a value, or nothing yet. */
  datatype Poll<T> = Ready(value: T) | Pending

  /** A member's FIFO delivery channel. */
  class Channel {
    var queue: seq<Message>
    /** Every sender half is gone: an empty queue then means end of stream. */
    var sendersDropped: bool
    /** The receiver half is gone: sends fail. */
    var receiverDropped: bool

    constructor ()
      ensures queue == [] && !sendersDropped && !receiverDropped
    {
      queue := [];
      sendersDropped := false;
      receiverDropped := false;
    }

    method Send(m: Message) returns (r: Outcome)
      modifies this
      ensures r.Ok? <==> !receiverDropped
      ensures queue == if r.Ok? then old(queue) + [m] else old(queue)
      ensures sendersDropped == old(sendersDropped) && receiverDropped == old(receiverDropped)
    {
      if receiverDropped {
        r := Err(Error("channel closed"));
      } else {
        queue := queue + [m];
        r := Ok(());
      }
    }

    method Recv() returns (r: Poll<Option<Message>>)
      modifies this
      ensures old(queue) != [] ==> r == Ready(Some(old(queue)[0])) && queue == old(queue)[1..]
      ensures old(queue) == [] ==> queue == [] && r == if sendersDropped then Ready(None) else Pending
      ensures sendersDropped == old(sendersDropped) && receiverDropped == old(receiverDropped)
    {
      if queue != [] {
        r := Ready(Some(queue[0]));
        queue := queue[1..];
      } else if sendersDropped {
        r := Ready(None);
      } else {
        r := Pending;
      }
    }

    /** The last sender half goes away (on the registry's side). */
    method DropSenders()
      modifies this
      ensures sendersDropped && queue == old(queue) && receiverDropped == old(receiverDropped)
    {
      sendersDropped := true;
    }
  }

  /** A registered member's connection to the bus. */
  class Connection {
    const name: BusName
    const handle: Handle
    const rx: Channel

    constructor (name: BusName, handle: Handle, rx: Channel)
      ensures this.name == name && this.handle == handle && this.rx == rx
      ensures handle.log == old(handle.log)
    {
      this.name := name;
      this.handle := handle;
      this.rx := rx;
    }

    /** Sends a typed message to the member `to` names. */
    method Send(to: Result<BusName>, value: Bytes) returns (r: Outcome)
      modifies handle
      ensures Issued(old(handle.log), handle.log, RequestFor(name, SendOp(to, value)), r)
    {
      if to.Err? {
        return Err(to.error);
      }
      var message := NewTyped(Some(to.value), value);
      r := handle.Call(SendMessage(message));
    }

    /** Sends raw data to the member `to` names. */
    method SendRaw(to: Result<BusName>, data: Bytes) returns (r: Outcome)
      modifies handle
      ensures Issued(old(handle.log), handle.log, RequestFor(name, SendRawOp(to, data)), r)
    {
      if to.Err? {
        return Err(to.error);
      }
      var message := NewRaw(Some(to.value), data);
      r := handle.Call(SendMessage(message));
    }

    /** Declares this member the publisher of event `id`. */
    method RegisterEvent(id: EventId) returns (r: Outcome)
      modifies handle
      ensures Issued(old(handle.log), handle.log, RequestFor(name, RegisterEventOp(id)), r)
    {
      var event := Event(name, id);
      r := handle.Call(Request.RegisterEvent(event));
    }

    /** Subscribes this member to event `id` of the member `publisher` names. */
    method Subscribe(publisher: Result<BusName>, id: EventId) returns (r: Outcome)
      modifies handle
      ensures Issued(old(handle.log), handle.log, RequestFor(name, SubscribeOp(publisher, id)), r)
    {
      if publisher.Err? {
        return Err(publisher.error);
      }
      var event := Event(publisher.value, id);
      r := handle.Call(Request.Subscribe(name, event));
    }

    /** Broadcasts a typed message under this member's event `id`. */
    method Broadcast(id: EventId, value: Bytes) returns (r: Outcome)
      modifies handle
      ensures Issued(old(handle.log), handle.log, RequestFor(name, BroadcastOp(id, value)), r)
    {
      var message := NewTyped(None, value);
      var event := Event(name, id);
      r := handle.Call(Request.Broadcast(event, message));
    }

    /** The oldest message waiting for this member; None once the channel is
        closed and drained; Pending while the caller would have to wait. */
    method NextMessage() returns (r: Poll<Option<Message>>)
      modifies rx
      ensures old(rx.queue) != [] ==> r == Ready(Some(old(rx.queue)[0])) && rx.queue == old(rx.queue)[1..]
      ensures old(rx.queue) == [] ==> rx.queue == [] && r == if rx.sendersDropped then Ready(None) else Pending
      ensures rx.sendersDropped == old(rx.sendersDropped) && rx.receiverDropped == old(rx.receiverDropped)
    {
      r := rx.Recv();
    }

    /** The end of the connection: exactly one unregister request for its own
        name, whose answer is ignored; the receiver half goes with it. */
    method Drop()
      modifies handle, rx
      ensures |handle.log| == |old(handle.log)| + 1
      ensures handle.log[..|old(handle.log)|] == old(handle.log)
      ensures handle.log[|old(handle.log)|].0 == Unregister(name)
      ensures rx.receiverDropped && rx.queue == old(rx.queue) && rx.sendersDropped == old(rx.sendersDropped)
    {
      var ignored := handle.Call(Unregister(name));
      rx.receiverDropped := true;
    }
  }

  /** A send-only handle to one named member. */
  class Addr {
    const name: BusName
    const tx: Channel

    constructor (name: BusName, tx: Channel)
      ensures this.name == name && this.tx == tx
      ensures tx.queue == old(tx.queue)
    {
      this.name := name;
      this.tx := tx;
    }

    /** Pushes raw data addressed to the held name onto the held channel.
        It always reports success: when the member's receiver is gone the
        message is dropped and the channel's error discarded. */
    method Send(data: Bytes) returns (r: Outcome)
      modifies tx
      ensures r == Ok(())
      ensures tx.queue == if old(tx.receiverDropped) then old(tx.queue) else old(tx.queue) + [NewRaw(Some(name), data)]
      ensures tx.sendersDropped == old(tx.sendersDropped) && tx.receiverDropped == old(tx.receiverDropped)
    {
      var message := NewRaw(Some(name), data);
      var ignored := tx.Send(message);
      r := Ok(());
    }
  }

  /** A connection and an `Addr` sharing its channel: messages through the
      `Addr` reach the member in order, and after the connection is dropped
      the `Addr` still reports success while its messages go nowhere. */
  method StaleAddr(name: BusName, first: Bytes, second: Bytes, late: Bytes)
    returns (delivered: seq<Message>, lateResult: Outcome, leftOver: seq<Message>)
    ensures delivered == [NewRaw(Some(name), first), NewRaw(Some(name), second)]
    ensures lateResult == Ok(())
    ensures leftOver == []
  {
    var handle := new Handle();
    var channel := new Channel();
    var connection := new Connection(name, handle, channel);
    var addr := new Addr(name, channel);
    var ignored := addr.Send(first);
    ignored := addr.Send(second);
    var m1 := connection.NextMessage();
    var m2 := connection.NextMessage();
    delivered := [m1.value.value, m2.value.value];
    connection.Drop();
    lateResult := addr.Send(late);
    leftOver := channel.queue;
  }

  /** Once every sender half is gone, the member still receives what was
      queued before, and then `next_message` reports the end of the stream. */
  method DrainAfterClose(name: BusName, data: Bytes)
    returns (last: Poll<Option<Message>>, end: Poll<Option<Message>>)
    ensures last == Ready(Some(NewRaw(Some(name), data)))
    ensures end == Ready(None)
  {
    var handle := new Handle();
    var channel := new Channel();
    var connection := new Connection(name, handle, channel);
    var addr := new Addr(name, channel);
    var ignored := addr.Send(data);
    channel.DropSenders();
    last := connection.NextMessage();
    end := connection.NextMessage();
  }
}
