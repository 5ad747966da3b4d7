/**
 QuicSocket.cpp: length-prefixed frames over one QUIC stream. The peer first sends a status
 number; every later frame is a length followed by that many octets.
 */
module QuicFraming {
  import opened Bytes
  import opened QuicVarint
  import TerminalCallbacks

  datatype SocketState = Connecting | Open | Closing | Closed

  datatype Callback = DidOpen | DidRecv(payload: seq<byte>) | DidError(httpCode: nat) | DidClose

  /** The receiving side between two callbacks from the QUIC loop. */
  datatype Receiver = Receiver(
    buffer: seq<byte>,
    receivedStatusCode: bool,
    openNotified: bool,
    fuse: TerminalCallbacks.Fuse,
    state: SocketState,
    running: bool,
    callbacks: seq<Callback>)

  const OPENING := Receiver([], false, false, TerminalCallbacks.FRESH, Connecting, true, [])

  const STATUS_OK: nat := 200

  function ErrorFired(r: Receiver, code: nat): Receiver
  {
    if r.fuse.errorReported then r
    else r.(fuse := TerminalCallbacks.Fire(r.fuse, TerminalCallbacks.Error),
            state := Closed, running := false, callbacks := r.callbacks + [DidError(code)])
  }

  function CloseFired(r: Receiver): Receiver
  {
    var fuse := TerminalCallbacks.Fire(r.fuse, TerminalCallbacks.Close);
    if r.fuse.closeCalled || r.fuse.errorReported then r.(fuse := fuse)
    else r.(fuse := fuse, state := Closed, running := false, callbacks := r.callbacks + [DidClose])
  }

  // ----- frames

  function Wrap(payload: seq<byte>): seq<byte>
    requires |payload| < 0x1_0000_0000_0000_0000
  {
    Encode(|payload|) + payload
  }

  /** A whole frame stands at the front of `bs`. */
  predicate HasFrame(bs: seq<byte>)
  {
    var head := Decode(bs);
    head.Decoded? && head.length + head.value <= |bs|
  }

  function FrameEnd(bs: seq<byte>): (end: nat)
    requires HasFrame(bs)
    ensures 0 < end <= |bs|
  {
    Decode(bs).length + Decode(bs).value
  }

  function FrameBody(bs: seq<byte>): seq<byte>
    requires HasFrame(bs)
  {
    bs[Decode(bs).length..FrameEnd(bs)]
  }

  /** The payloads of the complete frames at the front of `bs`. */
  function Payloads(bs: seq<byte>): seq<seq<byte>>
    decreases |bs|
  {
    if HasFrame(bs) then [FrameBody(bs)] + Payloads(bs[FrameEnd(bs)..]) else []
  }

  /** What is left behind those frames. */
  function Leftover(bs: seq<byte>): (rest: seq<byte>)
    ensures !HasFrame(rest)
    decreases |bs|
  {
    if HasFrame(bs) then Leftover(bs[FrameEnd(bs)..]) else bs
  }

  function Receipts(payloads: seq<seq<byte>>): (cs: seq<Callback>)
    ensures |cs| == |payloads|
    ensures forall i :: 0 <= i < |cs| ==> cs[i] == DidRecv(payloads[i])
  {
    seq(|payloads|, i requires 0 <= i < |payloads| => DidRecv(payloads[i]))
  }

  /** The payloads among the callbacks, in order. */
  function Delivered(cs: seq<Callback>): seq<seq<byte>>
  {
    if cs == [] then []
    else PayloadOf(cs[0]) + Delivered(cs[1..])
  }

  function PayloadOf(c: Callback): seq<seq<byte>>
  {
    if c.DidRecv? then [c.payload] else []
  }

  function Drain(r: Receiver): Receiver
  {
    r.(buffer := Leftover(r.buffer), callbacks := r.callbacks + Receipts(Payloads(r.buffer)))
  }

  function Opened(r: Receiver): Receiver
  {
    if r.openNotified then r
    else r.(openNotified := true, state := Open, callbacks := r.callbacks + [DidOpen])
  }

  /** One chunk from the network. */
  function Feed(r: Receiver, data: seq<byte>): Receiver
  {
    var got := r.(buffer := r.buffer + data);
    if got.receivedStatusCode then Drain(got)
    else
      match Decode(got.buffer)
      case Incomplete => got
      case Decoded(code, length) =>
        var past := got.(buffer := got.buffer[length..], receivedStatusCode := true);
        if code != STATUS_OK then ErrorFired(past, code) else Drain(Opened(past))
  }

  function FeedAll(r: Receiver, chunks: seq<seq<byte>>): Receiver
    decreases |chunks|
  {
    if chunks == [] then r else FeedAll(Feed(r, chunks[0]), chunks[1..])
  }

  // ----- insensitivity to chunking

  lemma DecodeStable(bs: seq<byte>, more: seq<byte>)
    requires Decode(bs).Decoded?
    ensures Decode(bs + more) == Decode(bs)
  {
    var len := Decode(bs).length;
    assert (bs + more)[1..len] == bs[1..len];
  }

  lemma FrameStable(bs: seq<byte>, more: seq<byte>)
    requires HasFrame(bs)
    ensures HasFrame(bs + more) && FrameEnd(bs + more) == FrameEnd(bs)
    ensures FrameBody(bs + more) == FrameBody(bs)
    ensures (bs + more)[FrameEnd(bs)..] == bs[FrameEnd(bs)..] + more
  {
    DecodeStable(bs, more);
  }

  lemma {:induction false} ParseAppend(a: seq<byte>, b: seq<byte>)
    ensures Payloads(a + b) == Payloads(a) + Payloads(Leftover(a) + b)
    ensures Leftover(a + b) == Leftover(Leftover(a) + b)
    decreases |a|
  {
    if HasFrame(a) {
      FrameStable(a, b);
      ParseAppend(a[FrameEnd(a)..], b);
    }
  }

  /** Nothing in the buffer could have been consumed already. */
  predicate Settled(r: Receiver)
  {
    if r.receivedStatusCode then !HasFrame(r.buffer) else Decode(r.buffer).Incomplete?
  }

  /** The stream is not one whose status rejects the handshake. */
  predicate Accepted(r: Receiver, data: seq<byte>)
  {
    r.receivedStatusCode
    || Decode(r.buffer + data).Incomplete? || Decode(r.buffer + data).value == STATUS_OK
  }

  lemma DrainTwice(r: Receiver, b: seq<byte>)
    ensures var mid := Drain(r);
            Drain(mid.(buffer := mid.buffer + b)) == Drain(r.(buffer := r.buffer + b))
  {
    ParseAppend(r.buffer, b);
    ReceiptsAppend(r.callbacks, Payloads(r.buffer), Payloads(Leftover(r.buffer) + b));
  }

  lemma ReceiptsAppend(before: seq<Callback>, ps: seq<seq<byte>>, qs: seq<seq<byte>>)
    ensures before + Receipts(ps + qs) == before + Receipts(ps) + Receipts(qs)
  {
  }

  /** Two chunks are as good as their concatenation. */
  lemma FeedFeed(r: Receiver, a: seq<byte>, b: seq<byte>)
    requires Settled(r) && Accepted(r, a + b)
    ensures Settled(Feed(r, a)) && Accepted(Feed(r, a), b)
    ensures Feed(Feed(r, a), b) == Feed(r, a + b)
  {
    assert r.buffer + a + b == r.buffer + (a + b);
    var got := r.(buffer := r.buffer + a);
    if r.receivedStatusCode {
      DrainTwice(got, b);
    } else if Decode(got.buffer).Decoded? {
      DecodeStable(got.buffer, b);
      var length := Decode(got.buffer).length;
      var past := got.(buffer := got.buffer[length..], receivedStatusCode := true);
      assert (got.buffer + b)[length..] == past.buffer + b;
      assert Decode(got.buffer).value == STATUS_OK;
      DrainTwice(Opened(past), b);
      assert Feed(r, a) == Drain(Opened(past));
    } else {
      assert Feed(r, a) == got;
    }
  }

  /** However an accepted stream is cut into chunks, the receiver ends in the very state, with
      the very callbacks, that the uncut stream produces. */
  lemma {:induction false} ChunkInsensitive(r: Receiver, chunks: seq<seq<byte>>)
    requires Settled(r) && Accepted(r, Flatten(chunks))
    ensures FeedAll(r, chunks) == Feed(r, Flatten(chunks))
    decreases |chunks|
  {
    if chunks == [] {
      assert r.buffer + [] == r.buffer;
      assert r.receivedStatusCode ==> r.callbacks + Receipts([]) == r.callbacks;
    } else {
      FeedFeed(r, chunks[0], Flatten(chunks[1..]));
      ChunkInsensitive(Feed(r, chunks[0]), chunks[1..]);
    }
  }

  // ----- rejected handshakes

  lemma {:induction false} DeliveredAppend(a: seq<Callback>, b: seq<Callback>)
    ensures Delivered(a + b) == Delivered(a) + Delivered(b)
  {
    if a == [] {
      assert a + b == b;
    } else {
      assert (a + b)[0] == a[0] && (a + b)[1..] == a[1..] + b;
      DeliveredAppend(a[1..], b);
      var first, more := PayloadOf(a[0]), Delivered(a[1..]);
      assert first + (more + Delivered(b)) == first + more + Delivered(b);
    }
  }

  lemma {:induction false} DeliveredReceipts(payloads: seq<seq<byte>>)
    ensures Delivered(Receipts(payloads)) == payloads
  {
    if payloads != [] {
      assert Receipts(payloads)[1..] == Receipts(payloads[1..]);
      DeliveredReceipts(payloads[1..]);
      assert [payloads[0]] + payloads[1..] == payloads;
    }
  }

  /** The payloads an application is handed when `stream` arrives in these chunks. */
  function DeliveredBy(chunks: seq<seq<byte>>): seq<seq<byte>>
  {
    Delivered(FeedAll(OPENING, chunks).callbacks)
  }

  /** The frames that follow the status number of a complete stream prefix. */
  function FramesAfterStatus(stream: seq<byte>): seq<seq<byte>>
    requires Decode(stream).Decoded?
  {
    Payloads(stream[Decode(stream).length..])
  }

  predicate CutDoesNotMatter(stream: seq<byte>, chunks: seq<seq<byte>>)
  {
    Flatten(chunks) == stream ==> DeliveredBy(chunks) == DeliveredBy([stream])
  }

  /** The rejection path leaves the status flag set, so a later chunk is parsed all the same.
      Delivery is independent of the cut exactly when the handshake is accepted, still incomplete,
      or followed by no complete frame. */
  lemma CutMattersIff(stream: seq<byte>)
    ensures (forall chunks: seq<seq<byte>> :: CutDoesNotMatter(stream, chunks))
       <==> Decode(stream).Incomplete? || Decode(stream).value == STATUS_OK
            || FramesAfterStatus(stream) == []
  {
    if Decode(stream).Incomplete? || Decode(stream).value == STATUS_OK {
      forall chunks: seq<seq<byte>>
        ensures CutDoesNotMatter(stream, chunks)
      {
        AcceptedCut(stream, chunks);
      }
    } else if FramesAfterStatus(stream) == [] {
      forall chunks: seq<seq<byte>>
        ensures CutDoesNotMatter(stream, chunks)
      {
        SilentCut(stream, chunks);
      }
    } else {
      RejectedStreamStillDelivers(stream);
    }
  }

  lemma AcceptedCut(stream: seq<byte>, chunks: seq<seq<byte>>)
    requires Decode(stream).Incomplete? || Decode(stream).value == STATUS_OK
    ensures CutDoesNotMatter(stream, chunks)
  {
    assert OPENING.buffer + stream == stream;
    assert Flatten([stream]) == stream;
    if Flatten(chunks) == stream {
      ChunkInsensitive(OPENING, chunks);
      ChunkInsensitive(OPENING, [stream]);
    }
  }

  lemma SilentCut(stream: seq<byte>, chunks: seq<seq<byte>>)
    requires Decode(stream).Decoded? && Decode(stream).value != STATUS_OK
    requires FramesAfterStatus(stream) == []
    ensures CutDoesNotMatter(stream, chunks)
  {
    assert Flatten([stream]) == stream;
    assert [] + stream == stream;
    if Flatten(chunks) == stream {
      RejectedSilently(OPENING, [], chunks);
      RejectedSilently(OPENING, [], [stream]);
    }
  }

  /** The stream so far is that of a rejected handshake and nothing has been delivered. */
  predicate Silent(r: Receiver, seen: seq<byte>)
  {
    && Delivered(r.callbacks) == []
    && if r.receivedStatusCode
       then Decode(seen).Decoded? && r.buffer == seen[Decode(seen).length..]
       else Decode(seen).Incomplete? && r.buffer == seen
  }

  predicate RejectedWithoutFrames(stream: seq<byte>)
  {
    Decode(stream).Decoded? && Decode(stream).value != STATUS_OK && FramesAfterStatus(stream) == []
  }

  lemma PrefixWithoutFrames(seen: seq<byte>, more: seq<byte>)
    requires RejectedWithoutFrames(seen + more) && Decode(seen).Decoded?
    ensures RejectedWithoutFrames(seen)
  {
    DecodeStable(seen, more);
    var length := Decode(seen).length;
    assert (seen + more)[length..] == seen[length..] + more;
    ParseAppend(seen[length..], more);
  }

  lemma SilentStep(r: Receiver, seen: seq<byte>, a: seq<byte>)
    requires Silent(r, seen)
    requires Decode(seen + a).Decoded? ==> RejectedWithoutFrames(seen + a)
    ensures Silent(Feed(r, a), seen + a)
  {
    var now := seen + a;
    if r.receivedStatusCode {
      DecodeStable(seen, a);
      assert now[Decode(now).length..] == r.buffer + a;
      assert r.callbacks + Receipts([]) == r.callbacks;
    } else if Decode(now).Decoded? {
      DeliveredAppend(r.callbacks, [DidError(Decode(now).value)]);
    }
  }

  /** While a rejected stream with no complete frame arrives, nothing is delivered. */
  lemma {:induction false} RejectedSilently(r: Receiver, seen: seq<byte>, chunks: seq<seq<byte>>)
    requires RejectedWithoutFrames(seen + Flatten(chunks)) && Silent(r, seen)
    ensures Delivered(FeedAll(r, chunks).callbacks) == []
    decreases |chunks|
  {
    if chunks != [] {
      var now, more := seen + chunks[0], Flatten(chunks[1..]);
      assert now + more == seen + Flatten(chunks);
      if Decode(now).Decoded? {
        PrefixWithoutFrames(now, more);
      }
      SilentStep(r, seen, chunks[0]);
      RejectedSilently(Feed(r, chunks[0]), now, chunks[1..]);
    }
  }

  /** The octets of a rejecting status number leave the error behind, and nothing else. */
  lemma RejectionAlone(stream: seq<byte>)
    requires Decode(stream).Decoded? && Decode(stream).value != STATUS_OK
    ensures var past := OPENING.(buffer := stream[Decode(stream).length..], receivedStatusCode := true);
            Feed(OPENING, stream) == ErrorFired(past, Decode(stream).value)
  {
    assert OPENING.buffer + stream == stream;
  }

  lemma RejectedStreamStillDelivers(stream: seq<byte>)
    requires Decode(stream).Decoded? && Decode(stream).value != STATUS_OK
    requires FramesAfterStatus(stream) != []
    ensures !CutDoesNotMatter(stream, [stream[..Decode(stream).length], stream[Decode(stream).length..]])
  {
    var status, rest := stream[..Decode(stream).length], stream[Decode(stream).length..];
    var chunks := [status, rest];
    assert status + rest == stream;
    assert Flatten(chunks) == stream by {
      assert chunks[1..] == [rest] && Flatten([rest]) == rest;
    }
    assert Decode(status) == Decode(stream) by {
      assert status[1..Decode(stream).length] == stream[1..Decode(stream).length];
    }
    RejectionAlone(stream);
    RejectionAlone(status);
    var first := Feed(OPENING, status);
    assert first.buffer + rest == rest;
    DeliveredAppend(first.callbacks, Receipts(Payloads(rest)));
    DeliveredReceipts(Payloads(rest));
    assert Feed(first, rest).callbacks == first.callbacks + Receipts(Payloads(rest));
    FeedAllOne(OPENING, stream);
    FeedAllOne(first, rest);
    assert FeedAll(OPENING, chunks) == FeedAll(first, [rest]) by {
      assert chunks[1..] == [rest];
    }
  }

  lemma FeedAllOne(r: Receiver, chunk: seq<byte>)
    ensures FeedAll(r, [chunk]) == Feed(r, chunk)
  {
  }

  // ----- what the owner is told

  /** What happens to an open socket: a chunk arrives, the connection fails, or it is closed. */
  datatype SocketEvent = Chunk(data: seq<byte>) | Fails(httpCode: nat) | Closes

  function React(r: Receiver, e: SocketEvent): Receiver
  {
    match e
    case Chunk(data) => Feed(r, data)
    case Fails(code) => ErrorFired(r, code)
    case Closes => CloseFired(r)
  }

  function ReactAll(r: Receiver, events: seq<SocketEvent>): Receiver
    decreases |events|
  {
    if events == [] then r else ReactAll(React(r, events[0]), events[1..])
  }

  /** The terminal callbacks among the callbacks. */
  function Terminals(cs: seq<Callback>): seq<TerminalCallbacks.Terminal>
  {
    if cs == [] then []
    else
      (match cs[0]
       case DidError(_) => [TerminalCallbacks.Error]
       case DidClose => [TerminalCallbacks.Close]
       case _ => [])
      + Terminals(cs[1..])
  }

  /** What the owner was told last about the connection. */
  function StateTold(cs: seq<Callback>): SocketState
    decreases |cs|
  {
    if cs == [] then Connecting
    else
      match cs[|cs| - 1]
      case DidOpen => Open
      case DidRecv(_) => StateTold(cs[..|cs| - 1])
      case _ => Closed
  }

  function Opens(cs: seq<Callback>): nat
  {
    if cs == [] then 0 else (if cs[0].DidOpen? then 1 else 0) + Opens(cs[1..])
  }

  predicate Mutual(ts: seq<TerminalCallbacks.Terminal>)
  {
    ts == [] || ts == [TerminalCallbacks.Error] || ts == [TerminalCallbacks.Close]
    || ts == [TerminalCallbacks.Close, TerminalCallbacks.Error]
  }

  /** The fields agree with what the owner has been told: the state is the last thing said, the socket
      runs until a terminal callback, an error is told once, a close only first, and an open once. */
  predicate AsTold(r: Receiver)
  {
    && r.state == StateTold(r.callbacks)
    && r.fuse.fired == Terminals(r.callbacks)
    && (r.running <==> Terminals(r.callbacks) == [])
    && (r.fuse.closeCalled <==> Terminals(r.callbacks) != [])
    && (r.fuse.errorReported <==> TerminalCallbacks.Error in Terminals(r.callbacks))
    && Opens(r.callbacks) == (if r.openNotified then 1 else 0)
    && (r.openNotified ==> r.receivedStatusCode)
    && Mutual(Terminals(r.callbacks))
  }

  lemma {:induction false} TerminalsAppend(a: seq<Callback>, b: seq<Callback>)
    ensures Terminals(a + b) == Terminals(a) + Terminals(b) && Opens(a + b) == Opens(a) + Opens(b)
    decreases |a|
  {
    if a == [] {
      assert a + b == b;
    } else {
      assert (a + b)[0] == a[0] && (a + b)[1..] == a[1..] + b;
      TerminalsAppend(a[1..], b);
    }
  }

  lemma OneMoreCallback(cs: seq<Callback>, c: Callback)
    ensures Terminals(cs + [c]) == Terminals(cs) + if c.DidError? then [TerminalCallbacks.Error]
                                                   else if c.DidClose? then [TerminalCallbacks.Close] else []
    ensures Opens(cs + [c]) == Opens(cs) + if c.DidOpen? then 1 else 0
    ensures StateTold(cs + [c]) == if c.DidRecv? then StateTold(cs) else if c.DidOpen? then Open else Closed
  {
    TerminalsAppend(cs, [c]);
    assert [c][1..] == [] && (cs + [c])[..|cs|] == cs;
  }

  lemma {:induction false} ReceiptsAreQuiet(payloads: seq<seq<byte>>)
    ensures Terminals(Receipts(payloads)) == [] && Opens(Receipts(payloads)) == 0
    decreases |payloads|
  {
    if payloads != [] {
      assert Receipts(payloads)[1..] == Receipts(payloads[1..]);
      ReceiptsAreQuiet(payloads[1..]);
    }
  }

  lemma {:induction false} ReceiptsKeepState(cs: seq<Callback>, payloads: seq<seq<byte>>)
    ensures StateTold(cs + Receipts(payloads)) == StateTold(cs)
    decreases |payloads|
  {
    var told := cs + Receipts(payloads);
    if payloads == [] {
      assert told == cs;
    } else {
      var n := |payloads| - 1;
      ReceiptsKeepState(cs, payloads[..n]);
      assert told[..|told| - 1] == cs + Receipts(payloads[..n]);
    }
  }

  lemma ReceiptsTellNothing(cs: seq<Callback>, payloads: seq<seq<byte>>)
    ensures Terminals(cs + Receipts(payloads)) == Terminals(cs) && Opens(cs + Receipts(payloads)) == Opens(cs)
    ensures StateTold(cs + Receipts(payloads)) == StateTold(cs)
  {
    TerminalsAppend(cs, Receipts(payloads));
    ReceiptsAreQuiet(payloads);
    ReceiptsKeepState(cs, payloads);
  }

  lemma DrainTells(r: Receiver)
    requires AsTold(r)
    ensures AsTold(Drain(r))
  {
    ReceiptsTellNothing(r.callbacks, Payloads(r.buffer));
  }

  /** An error is told, with its code, unless one was told before; nothing else of what was received
      changes. */
  lemma ErrorTells(r: Receiver, code: nat)
    requires AsTold(r)
    ensures var failed := ErrorFired(r, code);
      && AsTold(failed) && failed.buffer == r.buffer && failed.receivedStatusCode == r.receivedStatusCode
      && failed.callbacks
         == if TerminalCallbacks.Error in Terminals(r.callbacks) then r.callbacks else r.callbacks + [DidError(code)]
  {
    OneMoreCallback(r.callbacks, DidError(code));
  }

  /** A close is told unless an error or a close was. */
  lemma CloseTells(r: Receiver)
    requires AsTold(r)
    ensures var closed := CloseFired(r);
      && AsTold(closed) && closed.buffer == r.buffer && closed.receivedStatusCode == r.receivedStatusCode
      && closed.callbacks == if Terminals(r.callbacks) != [] then r.callbacks else r.callbacks + [DidClose]
  {
    OneMoreCallback(r.callbacks, DidClose);
  }

  lemma OpenTells(r: Receiver)
    requires AsTold(r) && r.receivedStatusCode
    ensures AsTold(Opened(r))
    ensures Opened(r).callbacks == r.callbacks + if DidOpen in r.callbacks then [] else [DidOpen]
  {
    OneMoreCallback(r.callbacks, DidOpen);
    OpenOccurs(r.callbacks);
    assert r.callbacks + [] == r.callbacks;
  }

  lemma {:induction false} OpenOccurs(cs: seq<Callback>)
    ensures DidOpen in cs <==> Opens(cs) > 0
  {
    if cs != [] {
      OpenOccurs(cs[1..]);
      assert cs == [cs[0]] + cs[1..];
    }
  }

  lemma ChunkTells(r: Receiver, data: seq<byte>)
    requires AsTold(r)
    ensures AsTold(Feed(r, data))
  {
    var got := r.(buffer := r.buffer + data);
    if r.receivedStatusCode {
      DrainTells(got);
    } else if Decode(got.buffer).Decoded? {
      var past := got.(buffer := got.buffer[Decode(got.buffer).length..], receivedStatusCode := true);
      ErrorTells(past, Decode(got.buffer).value);
      OpenTells(past);
      DrainTells(Opened(past));
    }
  }

  /** However chunks, failures and closes follow each other, the fields agree with what was told. */
  lemma {:induction false} EveryRunTells(r: Receiver, events: seq<SocketEvent>)
    requires AsTold(r)
    ensures AsTold(ReactAll(r, events))
    decreases |events|
  {
    if events != [] {
      match events[0] {
        case Chunk(data) => ChunkTells(r, data);
        case Fails(code) => ErrorTells(r, code);
        case Closes => CloseTells(r);
      }
      EveryRunTells(React(r, events[0]), events[1..]);
    }
  }

  /** From the opening on: one open at most, and of the terminal callbacks an error, a close, or an error
      after a close, at most. */
  lemma ToldFromOpening(events: seq<SocketEvent>)
    ensures var r := ReactAll(OPENING, events);
            AsTold(r) && Opens(r.callbacks) <= 1 && Mutual(Terminals(r.callbacks))
  {
    EveryRunTells(OPENING, events);
  }

  // ----- sender to receiver

  predicate Sendable(payloads: seq<seq<byte>>)
  {
    forall i :: 0 <= i < |payloads| ==> |payloads[i]| < TWO62
  }

  function WrapAll(payloads: seq<seq<byte>>): seq<byte>
    requires Sendable(payloads)
  {
    if payloads == [] then [] else Wrap(payloads[0]) + WrapAll(payloads[1..])
  }

  lemma WrappedHead(p: seq<byte>, more: seq<byte>)
    requires |p| < TWO62
    ensures var bs := Wrap(p) + more;
            HasFrame(bs) && FrameBody(bs) == p && bs[FrameEnd(bs)..] == more
  {
    assert Wrap(p) + more == Encode(|p|) + (p + more);
    RoundTripIff(|p|, p + more);
  }

  lemma {:induction false} FramesRoundTrip(payloads: seq<seq<byte>>)
    requires Sendable(payloads)
    ensures Payloads(WrapAll(payloads)) == payloads && Leftover(WrapAll(payloads)) == []
  {
    if payloads != [] {
      WrappedHead(payloads[0], WrapAll(payloads[1..]));
      FramesRoundTrip(payloads[1..]);
      assert [payloads[0]] + payloads[1..] == payloads;
    }
  }

  /** Whatever is wrapped and sent behind a 200 status arrives intact and in order, however the
      network cuts the stream, and leaves nothing behind. */
  lemma SentIsReceived(payloads: seq<seq<byte>>, chunks: seq<seq<byte>>)
    requires Sendable(payloads)
    requires Flatten(chunks) == Encode(STATUS_OK) + WrapAll(payloads)
    ensures DeliveredBy(chunks) == payloads
    ensures FeedAll(OPENING, chunks).buffer == []
  {
    var stream := Flatten(chunks);
    assert OPENING.buffer + stream == stream;
    AfterNumber(STATUS_OK, WrapAll(payloads));
    ChunkInsensitive(OPENING, chunks);
    FramesRoundTrip(payloads);
    DeliveredAppend([DidOpen], Receipts(payloads));
    DeliveredReceipts(payloads);
    assert Feed(OPENING, stream).callbacks == [DidOpen] + Receipts(payloads);
  }

  lemma AfterNumber(n: uint64, more: seq<byte>)
    requires n < TWO62
    ensures var head := Decode(Encode(n) + more);
            head.Decoded? && head.value == n && (Encode(n) + more)[head.length..] == more
  {
    RoundTripIff(n, more);
  }

  // ----- the socket object

  /** A status of 200, two octets, accepts the handshake, and no other status does. */
  lemma AcceptedStatus(stream: seq<byte>)
    ensures Encode(200) == [0x40, 0xc8] && Accepted(OPENING, [0x40, 0xc8])
    ensures Decode(stream).Decoded? ==> (Accepted(OPENING, stream) <==> Decode(stream).value == 200)
  {
    ReadsAs(200, [0x40, 0xc8]);
    assert [] + [0x40, 0xc8] == [0x40, 0xc8] && OPENING.buffer + stream == stream;
  }

  method WrapVarIntPayload(payload: seq<byte>) returns (framed: array<byte>)
    requires |payload| < 0x1_0000_0000_0000_0000
    ensures fresh(framed)
    ensures framed[..] == Wrap(payload)
  {
    var vlen := PutUVarIntLen(|payload|);
    framed := new byte[vlen + |payload|];
    var p := PutUVarInt(framed, 0, |payload|);
    for i := 0 to |payload|
      invariant framed[..vlen] == Encode(|payload|)
      invariant framed[vlen..vlen + i] == payload[..i]
    {
      framed[p + i] := payload[i];
      assert framed[vlen..vlen + i + 1] == framed[vlen..vlen + i] + [payload[i]];
      assert payload[..i + 1] == payload[..i] + [payload[i]];
    }
    assert payload[..|payload|] == payload;
    SplitsInTwo(framed[..], vlen);
  }

  lemma SplitsInTwo(s: seq<byte>, k: nat)
    requires k <= |s|
    ensures s == s[..k] + s[k..]
  {
  }

  /** Looks for a whole frame at the front of the buffer; zero octets consumed means "not yet". */
  method NextFrame(buffer: seq<byte>) returns (vlen: nat, consumed: nat)
    ensures HasFrame(buffer) <==> consumed > 0
    ensures HasFrame(buffer) ==> consumed == FrameEnd(buffer) && vlen <= consumed
                                 && buffer[vlen..consumed] == FrameBody(buffer)
  {
    var payloadLen;
    vlen, payloadLen := GetUVarInt(buffer);
    if vlen == 0 {
      return 0, 0;
    }
    if |buffer| < vlen + payloadLen {
      return vlen, 0;
    }
    return vlen, vlen + payloadLen;
  }

  lemma FrameTaken(done: seq<seq<byte>>, bs: seq<byte>)
    ensures HasFrame(bs) ==> Leftover(bs[FrameEnd(bs)..]) == Leftover(bs)
    ensures HasFrame(bs) ==> (done + [FrameBody(bs)]) + Payloads(bs[FrameEnd(bs)..]) == done + Payloads(bs)
    ensures !HasFrame(bs) ==> Leftover(bs) == bs && done + Payloads(bs) == done
  {
  }

  class QuicSocket {
    var rxBuffer: seq<byte>
    var receivedStatusCode: bool
    var openNotified: bool
    var errorReported: bool
    var closeCalled: bool
    var state: SocketState
    var running: bool
    ghost var fired: seq<TerminalCallbacks.Terminal>
    ghost var callbacks: seq<Callback>

    ghost function Abs(): Receiver
      reads this
    {
      Receiver(rxBuffer, receivedStatusCode, openNotified,
               TerminalCallbacks.Fuse(errorReported, closeCalled, fired), state, running, callbacks)
    }

    /** The object as QuicSocket::open leaves it when the stream has been opened. */
    constructor ()
      ensures Abs() == OPENING
    {
      rxBuffer, receivedStatusCode, openNotified := [], false, false;
      errorReported, closeCalled, state, running := false, false, Connecting, true;
      fired, callbacks := [], [];
    }

    method FireError(code: nat)
      modifies this
      ensures Abs() == ErrorFired(old(Abs()), code)
    {
      if errorReported {
        return;
      }
      errorReported := true;
      closeCalled := true;
      state := Closed;
      running := false;
      fired, callbacks := fired + [TerminalCallbacks.Error], callbacks + [DidError(code)];
    }

    method FireClose()
      modifies this
      ensures Abs() == CloseFired(old(Abs()))
    {
      var before := closeCalled;
      closeCalled := true;
      if before || errorReported {
        return;
      }
      state := Closed;
      running := false;
      fired, callbacks := fired + [TerminalCallbacks.Close], callbacks + [DidClose];
    }

    method HandleDataFrames()
      modifies this
      ensures Abs() == Feed(old(Abs()), [])
    {
      assert rxBuffer + [] == rxBuffer;
      if !receivedStatusCode {
        var consumed, code := GetUVarInt(rxBuffer);
        if consumed == 0 {
          return;
        }
        rxBuffer := rxBuffer[consumed..];
        receivedStatusCode := true;
        if code != 200 {
          FireError(code);
          return;
        }
        if !openNotified {
          openNotified := true;
          state := Open;
          callbacks := callbacks + [DidOpen];
        }
      }
      DeliverCompleteFrames();
    }

    /** The frame loop of handleDataFramesLocked. */
    method DeliverCompleteFrames()
      modifies this`rxBuffer, this`callbacks
      ensures rxBuffer == Leftover(old(rxBuffer))
      ensures callbacks == old(callbacks) + Receipts(Payloads(old(rxBuffer)))
    {
      ghost var start, before := rxBuffer, callbacks;
      ghost var payloads: seq<seq<byte>> := [];
      assert before + Receipts([]) == before;
      while rxBuffer != []
        invariant callbacks == before + Receipts(payloads)
        invariant payloads + Payloads(rxBuffer) == Payloads(start)
        invariant Leftover(rxBuffer) == Leftover(start)
        decreases |rxBuffer|
      {
        FrameTaken(payloads, rxBuffer);
        var vlen, consumed := NextFrame(rxBuffer);
        if consumed == 0 {
          return;
        }
        var payload := rxBuffer[vlen..consumed];
        ReceiptsAppend(before, payloads, [payload]);
        callbacks := callbacks + [DidRecv(payload)];
        payloads := payloads + [payload];
        rxBuffer := rxBuffer[consumed..];
      }
    }

    /** The stream callback: append, then consume what has become complete. */
    method OnRecv(data: seq<byte>)
      modifies this
      ensures Abs() == Feed(old(Abs()), data)
    {
      rxBuffer := rxBuffer + data;
      assert rxBuffer + [] == rxBuffer;
      HandleDataFrames();
    }
  }
}
