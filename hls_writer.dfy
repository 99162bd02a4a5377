/** The HLS segment writer: it consumes the media items of one stream and
    decides, at keyframes, when the transport-stream buffer is cut into a
    roughly two-second `.ts` media segment (RFC 8216, section 3) and under
    which file name. Packet parsing and the transport-stream buffer itself
    are outside the model: a built packet is reduced to its kind, and the
    buffer to the ordered list of calls made on it. */
module HlsWriter {
  import opened Options
  import opened Decimal

  /** What becomes of an H.264 payload, in the order the writer tests it:
      the packet cannot be built, it is a sequence header, it is a keyframe,
      or it is any other frame. */
  datatype PacketKind = BuildFailed | SequenceHeader | Keyframe | Frame

  /** One item from the media receiver; timestamps are in milliseconds. */
  datatype Media = H264(timestamp: nat, kind: PacketKind) | Aac

  /** The part of a built video packet that the model follows into the buffer. */
  datatype Packet = Packet(timestamp: nat, keyframe: bool)

  /** A call the writer makes on its transport-stream buffer. */
  datatype BufferCall = WriteToFile(path: string) | PushVideo(packet: Packet)

  /** Whether `poll` finished (the media sender is gone) or waits for more. */
  datatype Async = Ready | NotReady

  /** The writer's cut-scheduling fields. */
  datatype State = State(writeInterval: nat, nextWrite: nat, keyframeCounter: nat)

  /** The state after some media, and the buffer calls made on the way. */
  datatype StepResult = StepResult(state: State, calls: seq<BufferCall>)

  /** Segment length in milliseconds. */
  const WriteInterval: nat := 2000

  const SegmentDirectory: string := "./tmp/stream/"
  const SegmentStem: string := "test"

  function Initial(): State {
    State(WriteInterval, WriteInterval, 0)
  }

  /** `test-{timestamp}-{counter}.ts` */
  function SegmentFileName(timestamp: nat, counter: nat): string {
    SegmentStem + "-" + Format(timestamp) + "-" + Format(counter) + ".ts"
  }

  function SegmentPath(timestamp: nat, counter: nat): string {
    SegmentDirectory + SegmentFileName(timestamp, counter)
  }

  predicate IsKeyframe(m: Media) {
    m.H264? && m.kind == Keyframe
  }

  /** The items whose packet goes into the buffer. */
  predicate IsPushed(m: Media) {
    m.H264? && (m.kind == Keyframe || m.kind == Frame)
  }

  function PushedBy(m: Media): seq<Packet> {
    if IsPushed(m) then [Packet(m.timestamp, m.kind == Keyframe)] else []
  }

  /** Segment paths written by `calls`, in order. */
  function Paths(calls: seq<BufferCall>): seq<string> {
    if calls == [] then []
    else (if calls[0].WriteToFile? then [calls[0].path] else []) + Paths(calls[1..])
  }

  function Writes(calls: seq<BufferCall>): nat {
    |Paths(calls)|
  }

  /** Packets pushed by `calls`, in order. */
  function Pushed(calls: seq<BufferCall>): seq<Packet> {
    if calls == [] then []
    else (if calls[0].PushVideo? then [calls[0].packet] else []) + Pushed(calls[1..])
  }

  function Keyframes(items: seq<Media>): nat {
    if items == [] then 0 else (if IsKeyframe(items[0]) then 1 else 0) + Keyframes(items[1..])
  }

  function PushedPackets(items: seq<Media>): seq<Packet> {
    if items == [] then [] else PushedBy(items[0]) + PushedPackets(items[1..])
  }

  /** The calls of one pushed item: an optional segment write, then the push. */
  lemma PushLast(write: seq<BufferCall>, packet: Packet)
    requires write == [] || (|write| == 1 && write[0].WriteToFile?)
    ensures Paths(write + [PushVideo(packet)]) == if write == [] then [] else [write[0].path]
    ensures Pushed(write + [PushVideo(packet)]) == [packet]
  {
    var push := [PushVideo(packet)];
    assert Paths(push) == [] && Pushed(push) == [packet];
    if write != [] {
      assert (write + push)[1..] == push;
    }
  }

  /** The body of the writer's receive loop for one item. */
  function Step(s: State, m: Media): StepResult {
    match m
    case Aac => StepResult(s, [])
    case H264(timestamp, kind) =>
      if kind == BuildFailed || kind == SequenceHeader then StepResult(s, [])
      else
        var push := [PushVideo(Packet(timestamp, kind == Keyframe))];
        if kind == Keyframe then
          var cut := timestamp >= s.nextWrite;
          var next := if cut then s.nextWrite + s.writeInterval else s.nextWrite;
          var write := if cut then [WriteToFile(SegmentPath(timestamp, s.keyframeCounter))] else [];
          StepResult(s.(nextWrite := next, keyframeCounter := s.keyframeCounter + 1), write + push)
        else
          StepResult(s, push)
  }

  /** What one item does. A segment is written exactly for a keyframe whose
      timestamp has reached the threshold, never more than one per item, and
      it is named after the counter value before this keyframe; the threshold
      then moves by exactly one interval, even when the timestamp is several
      intervals ahead. The counter counts keyframes whether or not they cut.
      Every built frame that is not a sequence header is pushed once, after
      any segment write; everything else changes nothing. */
  lemma StepRules(s: State, m: Media)
    ensures var r := Step(s, m);
      && r.state.writeInterval == s.writeInterval
      && Writes(r.calls) == (if IsKeyframe(m) && m.timestamp >= s.nextWrite then 1 else 0)
      && r.state.nextWrite == s.nextWrite + (if Writes(r.calls) == 1 then s.writeInterval else 0)
      && r.state.keyframeCounter == s.keyframeCounter + (if IsKeyframe(m) then 1 else 0)
      && Paths(r.calls) == (if Writes(r.calls) == 1 then [SegmentPath(m.timestamp, s.keyframeCounter)] else [])
      && Pushed(r.calls) == PushedBy(m)
      && (r.calls != [] ==> r.calls[|r.calls| - 1].PushVideo?)
      && (!IsPushed(m) ==> r == StepResult(s, []))
  {
    if IsPushed(m) {
      var packet := Packet(m.timestamp, m.kind == Keyframe);
      if IsKeyframe(m) && m.timestamp >= s.nextWrite {
        PushLast([WriteToFile(SegmentPath(m.timestamp, s.keyframeCounter))], packet);
      } else {
        PushLast([], packet);
        assert [] + [PushVideo(packet)] == [PushVideo(packet)];
      }
    }
  }

  /** The receive loop over a sequence of items. */
  function Run(s: State, items: seq<Media>): StepResult
    decreases |items|
  {
    if items == [] then StepResult(s, [])
    else
      var first := Step(s, items[0]);
      var rest := Run(first.state, items[1..]);
      StepResult(rest.state, first.calls + rest.calls)
  }

  lemma {:induction false} PathsAppend(a: seq<BufferCall>, b: seq<BufferCall>)
    ensures Paths(a + b) == Paths(a) + Paths(b)
  {
    if a != [] {
      var head := if a[0].WriteToFile? then [a[0].path] else [];
      assert (a + b)[0] == a[0] && (a + b)[1..] == a[1..] + b;
      assert Paths(a + b) == head + Paths(a[1..] + b);
      PathsAppend(a[1..], b);
      assert Paths(a + b) == head + (Paths(a[1..]) + Paths(b));
    } else {
      assert a + b == b;
    }
  }

  lemma {:induction false} PushedAppend(a: seq<BufferCall>, b: seq<BufferCall>)
    ensures Pushed(a + b) == Pushed(a) + Pushed(b)
  {
    if a != [] {
      var head := if a[0].PushVideo? then [a[0].packet] else [];
      assert (a + b)[0] == a[0] && (a + b)[1..] == a[1..] + b;
      assert Pushed(a + b) == head + Pushed(a[1..] + b);
      PushedAppend(a[1..], b);
      assert Pushed(a + b) == head + (Pushed(a[1..]) + Pushed(b));
    } else {
      assert a + b == b;
    }
  }

  /** Multiplication distributes over addition; kept apart so that the
      threshold proof does not reason about products in its own context. */
  lemma Distribute(k: nat, a: nat, b: nat)
    ensures k * a + k * b == k * (a + b)
  {
  }

  /** What a run of the receive loop does to the counters: the interval is
      fixed, the counter counts keyframes, and at most one segment is
      written per keyframe. */
  lemma {:induction false} RunCounters(s: State, items: seq<Media>)
    ensures var r := Run(s, items);
      && r.state.writeInterval == s.writeInterval
      && r.state.keyframeCounter == s.keyframeCounter + Keyframes(items)
      && Writes(r.calls) <= Keyframes(items)
    decreases |items|
  {
    if items != [] {
      var first := Step(s, items[0]);
      var rest := Run(first.state, items[1..]);
      StepRules(s, items[0]);
      RunCounters(first.state, items[1..]);
      PathsAppend(first.calls, rest.calls);
    }
  }

  /** The threshold moves by exactly one interval per segment written. */
  lemma {:induction false} RunThreshold(s: State, items: seq<Media>)
    ensures Run(s, items).state.nextWrite == s.nextWrite + s.writeInterval * Writes(Run(s, items).calls)
    decreases |items|
  {
    if items != [] {
      var first := Step(s, items[0]);
      var rest := Run(first.state, items[1..]);
      StepRules(s, items[0]);
      RunThreshold(first.state, items[1..]);
      RunCounters(first.state, items[1..]);
      PathsAppend(first.calls, rest.calls);
      var k, w1, w2 := s.writeInterval, Writes(first.calls), Writes(rest.calls);
      assert k * w1 == if w1 == 1 then k else 0;
      Distribute(k, w1, w2);
    }
  }

  /** Exactly the built non-header frames are pushed, once each, in arrival
      order. */
  lemma {:induction false} RunPushes(s: State, items: seq<Media>)
    ensures Pushed(Run(s, items).calls) == PushedPackets(items)
    decreases |items|
  {
    if items != [] {
      var first := Step(s, items[0]);
      var rest := Run(first.state, items[1..]);
      StepRules(s, items[0]);
      RunPushes(first.state, items[1..]);
      PushedAppend(first.calls, rest.calls);
    }
  }

  /** From a new writer: `next_write == 2000 + 2000 * segments written`, so it
      never falls below its initial value, and the counter equals the number
      of keyframes seen. */
  lemma {:induction false} WriterTotals(items: seq<Media>)
    ensures var r := Run(Initial(), items);
      && r.state.nextWrite == 2000 + 2000 * Writes(r.calls)
      && r.state.nextWrite >= 2000
      && r.state.keyframeCounter == Keyframes(items)
  {
    RunCounters(Initial(), items);
    RunThreshold(Initial(), items);
  }

  /** The cut threshold never decreases. */
  lemma {:induction false} NextWriteMonotone(s: State, items: seq<Media>)
    ensures Run(s, items).state.nextWrite >= s.nextWrite
    ensures Run(s, items).state.keyframeCounter >= s.keyframeCounter
  {
    RunCounters(s, items);
    RunThreshold(s, items);
  }

  /** Position of the first `c` in `s`, or `|s|` when there is none. */
  function IndexOf(s: string, c: char): (k: nat)
    ensures k <= |s|
    ensures k < |s| ==> s[k] == c
    ensures forall i :: 0 <= i < k ==> s[i] != c
  {
    if s == [] then 0 else if s[0] == c then 0 else 1 + IndexOf(s[1..], c)
  }

  const SegmentPrefix: string := SegmentDirectory + SegmentStem + "-"
  const SegmentSuffix: string := ".ts"

  /** The timestamp and counter a segment path was made from, or None for a
      string that is not a segment path. */
  function ParseSegmentPath(path: string): Option<(nat, nat)> {
    if |path| < |SegmentPrefix| + |SegmentSuffix|
      || path[..|SegmentPrefix|] != SegmentPrefix
      || path[|path| - |SegmentSuffix|..] != SegmentSuffix
    then None
    else ParseNumbers(path[|SegmentPrefix|..|path| - |SegmentSuffix|])
  }

  /** Reads `{timestamp}-{counter}`. */
  function ParseNumbers(middle: string): Option<(nat, nat)> {
    var k := IndexOf(middle, '-');
    if k == |middle| then None
    else match (Parse(middle[..k]), Parse(middle[k + 1..]))
      case (Some(t), Some(c)) => Some((t, c))
      case _ => None
  }

  lemma NumbersRoundTrip(timestamp: nat, counter: nat)
    ensures ParseNumbers(Format(timestamp) + "-" + Format(counter)) == Some((timestamp, counter))
  {
    var t, c := Format(timestamp), Format(counter);
    var middle := t + "-" + c;
    assert middle[|t|] == '-';
    assert IndexOf(middle, '-') == |t|;
    assert middle[..|t|] == t;
    assert middle[|t| + 1..] == c;
    ParseFormat(timestamp);
    ParseFormat(counter);
  }

  lemma StripAffixes(middle: string)
    ensures ParseSegmentPath(SegmentPrefix + middle + SegmentSuffix) == ParseNumbers(middle)
  {
    var path := SegmentPrefix + middle + SegmentSuffix;
    assert path[..|SegmentPrefix|] == SegmentPrefix;
    assert path[|path| - |SegmentSuffix|..] == SegmentSuffix;
    assert path[|SegmentPrefix|..|path| - |SegmentSuffix|] == middle;
  }

  /** A segment path determines the timestamp and counter it was made from. */
  lemma SegmentPathRoundTrip(timestamp: nat, counter: nat)
    ensures ParseSegmentPath(SegmentPath(timestamp, counter)) == Some((timestamp, counter))
  {
    var middle := Format(timestamp) + "-" + Format(counter);
    assert SegmentPath(timestamp, counter) == SegmentPrefix + middle + SegmentSuffix;
    StripAffixes(middle);
    NumbersRoundTrip(timestamp, counter);
  }

  /** The counter a segment path carries (-1 for other strings). */
  function SegmentCounter(path: string): int {
    match ParseSegmentPath(path)
    case Some(p) => p.1
    case None => -1
  }

  /** Every counter carried by `paths` lies in `[lo, hi)`. */
  predicate Within(paths: seq<string>, lo: int, hi: int) {
    forall i :: 0 <= i < |paths| ==> lo <= SegmentCounter(paths[i]) < hi
  }

  lemma WithinAppend(first: seq<string>, rest: seq<string>, lo: int, mid: int, hi: int)
    requires Within(first, lo, hi) && Within(rest, mid, hi) && lo <= mid
    ensures Within(first + rest, lo, hi)
  {
    var ps := first + rest;
    forall i | 0 <= i < |ps|
      ensures lo <= SegmentCounter(ps[i]) < hi
    {
      if i >= |first| {
        assert ps[i] == rest[i - |first|];
      }
    }
  }

  /** The segments of a run carry counter values of keyframes of that run. */
  lemma {:induction false} RunSegmentBounds(s: State, items: seq<Media>)
    ensures Within(Paths(Run(s, items).calls), s.keyframeCounter, Run(s, items).state.keyframeCounter)
    decreases |items|
  {
    if items != [] {
      var m := items[0];
      var first := Step(s, m);
      var rest := Run(first.state, items[1..]);
      StepRules(s, m);
      RunSegmentBounds(first.state, items[1..]);
      RunCounters(first.state, items[1..]);
      PathsAppend(first.calls, rest.calls);
      if Writes(first.calls) == 1 {
        SegmentPathRoundTrip(m.timestamp, s.keyframeCounter);
      }
      WithinAppend(Paths(first.calls), Paths(rest.calls), s.keyframeCounter, first.state.keyframeCounter, rest.state.keyframeCounter);
    }
  }

  /** The counters carried by `paths` strictly increase. */
  predicate Increasing(paths: seq<string>) {
    forall i, j :: 0 <= i < j < |paths| ==> SegmentCounter(paths[i]) < SegmentCounter(paths[j])
  }

  lemma IncreasingPrepend(first: seq<string>, rest: seq<string>, lo: int, bound: int, hi: int)
    requires |first| <= 1 && Increasing(rest)
    requires Within(first, lo, bound) && Within(rest, bound, hi)
    ensures Increasing(first + rest)
  {
    var ps := first + rest;
    forall i, j | 0 <= i < j < |ps|
      ensures SegmentCounter(ps[i]) < SegmentCounter(ps[j])
    {
      assert ps[j] == rest[j - |first|];
      if i >= |first| {
        assert ps[i] == rest[i - |first|];
      }
    }
  }

  /** The segments of a run carry strictly increasing counter values. */
  lemma {:induction false} RunSegmentOrder(s: State, items: seq<Media>)
    ensures Increasing(Paths(Run(s, items).calls))
    decreases |items|
  {
    if items != [] {
      var m := items[0];
      var first := Step(s, m);
      var rest := Run(first.state, items[1..]);
      StepRules(s, m);
      RunSegmentOrder(first.state, items[1..]);
      RunSegmentBounds(first.state, items[1..]);
      PathsAppend(first.calls, rest.calls);
      if Writes(first.calls) == 1 {
        SegmentPathRoundTrip(m.timestamp, s.keyframeCounter);
      }
      IncreasingPrepend(Paths(first.calls), Paths(rest.calls), s.keyframeCounter, first.state.keyframeCounter, rest.state.keyframeCounter);
    }
  }

  /** No two segments written in one run share a file: no segment file is
      overwritten. */
  lemma DistinctSegmentPaths(s: State, items: seq<Media>)
    ensures var ps := Paths(Run(s, items).calls);
      forall i, j :: 0 <= i < j < |ps| ==> ps[i] != ps[j]
  {
    RunSegmentOrder(s, items);
  }

  /** The writer: it owns the cut-scheduling fields and the transport-stream
      buffer, here the list of calls made on it. */
  class Writer {
    const writeInterval: nat
    var nextWrite: nat
    var keyframeCounter: nat
    var buffer: seq<BufferCall>

    function Current(): State
      reads this
    {
      State(writeInterval, nextWrite, keyframeCounter)
    }

    constructor ()
      ensures writeInterval == 2000 && nextWrite == 2000 && keyframeCounter == 0
      ensures Current() == Initial() && buffer == []
    {
      writeInterval := WriteInterval;
      nextWrite := WriteInterval;
      keyframeCounter := 0;
      buffer := [];
    }

    /** One pass of the receive loop. */
    method Handle(m: Media)
      modifies this
      ensures Current() == Step(old(Current()), m).state
      ensures buffer == old(buffer) + Step(old(Current()), m).calls
    {
      match m {
        case Aac =>
        case H264(timestamp, kind) =>
          if kind == BuildFailed || kind == SequenceHeader {
            return;
          }
          if kind == Keyframe {
            if timestamp >= nextWrite {
              buffer := buffer + [WriteToFile(SegmentPath(timestamp, keyframeCounter))];
              nextWrite := nextWrite + writeInterval;
            }
            keyframeCounter := keyframeCounter + 1;
          }
          buffer := buffer + [PushVideo(Packet(timestamp, kind == Keyframe))];
      }
    }

    /** Handles every item the receiver yields, oldest first; `closed` says
        whether the receiver then reports the end of the stream (Ready) or
        that nothing more is available yet (NotReady). */
    method Poll(received: seq<Media>, closed: bool) returns (status: Async)
      modifies this
      ensures Current() == Run(old(Current()), received).state
      ensures buffer == old(buffer) + Run(old(Current()), received).calls
      ensures status == if closed then Ready else NotReady
    {
      ghost var goal := Run(Current(), received);
      var i := 0;
      while i < |received|
        invariant 0 <= i <= |received|
        invariant Run(Current(), received[i..]).state == goal.state
        invariant buffer + Run(Current(), received[i..]).calls == old(buffer) + goal.calls
      {
        ghost var tail := received[i..];
        ghost var step := Step(Current(), received[i]);
        ghost var rest := Run(step.state, received[i + 1..]);
        assert tail[0] == received[i] && tail[1..] == received[i + 1..];
        assert Run(Current(), tail) == StepResult(rest.state, step.calls + rest.calls);
        ghost var pending := buffer;
        Handle(received[i]);
        assert buffer + rest.calls == pending + (step.calls + rest.calls);
        i := i + 1;
      }
      assert received[i..] == [];
      status := if closed then Ready else NotReady;
    }
  }
}
