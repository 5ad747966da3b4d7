/**
 The inbound side of WebSocket.cpp: libcurl hands over frames in chunks, control frames may come
 between the chunks of a data frame, and only whole frames are delivered.
 */
module WsInbound {
  import opened Bytes
  import WsOutbound

  datatype Kind = TextFrame | BinaryFrame | PingPong | CloseFrame

  /** One call of the write callback: what curl_ws_meta says, and the octets. */
  datatype Chunk = Chunk(kind: Kind, offset: nat, bytesLeft: nat, bytes: seq<byte>)

  datatype Delivery = Delivery(payload: seq<byte>, binary: bool)

  datatype ClosePair = ClosePair(code: int, reason: seq<byte>)

  const NO_CODE := 1005

  /** A frame being put together. */
  datatype Assembly = Assembly(buf: seq<byte>, expected: nat)

  const EMPTY := Assembly([], 0)

  datatype Inbound = Inbound(
    rx: Assembly,
    rxIsBinary: bool,
    closing: Assembly,
    openNotified: bool,
    abort: bool,
    delivered: seq<Delivery>,
    closes: seq<ClosePair>)

  const OPENING := Inbound(EMPTY, false, EMPTY, false, false, [], [])

  predicate IsData(c: Chunk)
  {
    c.kind.TextFrame? || c.kind.BinaryFrame?
  }

  /** A chunk at offset zero, or at an unexpected offset, starts over. */
  function Append(a: Assembly, c: Chunk): Assembly
  {
    var base := if c.offset == 0 || c.offset != a.expected then EMPTY else a;
    Assembly(base.buf + c.bytes, base.expected + |c.bytes|)
  }

  function ParseClose(body: seq<byte>): ClosePair
  {
    if |body| < 2 then ClosePair(NO_CODE, [])
    else ClosePair(body[0] as int * 256 + body[1] as int, body[2..])
  }

  function Written(s: Inbound, c: Chunk): Inbound
  {
    if c.bytes == [] then s
    else
      var heard := s.(openNotified := true);
      match c.kind
      case PingPong => heard
      case CloseFrame =>
        var a := Append(s.closing, c);
        if c.bytesLeft > 0 then heard.(closing := a)
        else heard.(closing := EMPTY, abort := true, closes := s.closes + [ParseClose(a.buf)])
      case _ =>
        var a := Append(s.rx, c);
        var binary := if c.offset == 0 || c.offset != s.rx.expected then c.kind.BinaryFrame? else s.rxIsBinary;
        if c.bytesLeft > 0 then heard.(rx := a, rxIsBinary := binary)
        else heard.(rx := EMPTY, rxIsBinary := binary, delivered := s.delivered + [Delivery(a.buf, binary)])
  }

  function WrittenAll(s: Inbound, cs: seq<Chunk>): Inbound
    decreases |cs|
  {
    if cs == [] then s else WrittenAll(Written(s, cs[0]), cs[1..])
  }

  // ----- well-formed chunk sequences

  function Select(cs: seq<Chunk>, data: bool): seq<Chunk>
  {
    if cs == [] then []
    else if IsData(cs[0]) == data then [cs[0]] + Select(cs[1..], data)
    else Select(cs[1..], data)
  }

  /** The close chunks of a sequence. */
  function CloseChunks(cs: seq<Chunk>): seq<Chunk>
  {
    if cs == [] then []
    else if cs[0].kind.CloseFrame? then [cs[0]] + CloseChunks(cs[1..])
    else CloseChunks(cs[1..])
  }

  /** How a frame is handed over when it is cut into these pieces, `done` octets having gone
      before. */
  function ChunksOf(kind: Kind, done: nat, pieces: seq<seq<byte>>): seq<Chunk>
    decreases |pieces|
  {
    if pieces == [] then []
    else
      [Chunk(kind, done, |Flatten(pieces[1..])|, pieces[0])]
      + ChunksOf(kind, done + |pieces[0]|, pieces[1..])
  }

  datatype Frame = Frame(binary: bool, pieces: seq<seq<byte>>)

  /** Every piece carries something; libcurl never calls back without octets. */
  predicate NonEmpty(pieces: seq<seq<byte>>)
  {
    pieces != [] && forall i :: 0 <= i < |pieces| ==> pieces[i] != []
  }

  predicate Frames(frames: seq<Frame>)
  {
    forall i :: 0 <= i < |frames| ==> NonEmpty(frames[i].pieces)
  }

  function FrameKind(binary: bool): Kind
  {
    if binary then BinaryFrame else TextFrame
  }

  function FrameChunks(frames: seq<Frame>): seq<Chunk>
  {
    if frames == [] then []
    else ChunksOf(FrameKind(frames[0].binary), 0, frames[0].pieces) + FrameChunks(frames[1..])
  }

  function Messages(frames: seq<Frame>): seq<Delivery>
  {
    if frames == [] then []
    else [Delivery(Flatten(frames[0].pieces), frames[0].binary)] + Messages(frames[1..])
  }

  // ----- control chunks do not disturb data

  predicate SameData(s: Inbound, t: Inbound)
  {
    s.rx == t.rx && s.rxIsBinary == t.rxIsBinary && s.delivered == t.delivered
  }

  lemma {:induction false} ControlIsTransparent(s: Inbound, t: Inbound, cs: seq<Chunk>)
    requires SameData(s, t)
    ensures SameData(WrittenAll(s, cs), WrittenAll(t, Select(cs, true)))
    decreases |cs|
  {
    if cs != [] {
      var rest := Select(cs[1..], true);
      if IsData(cs[0]) {
        assert Select(cs, true)[1..] == rest;
        ControlIsTransparent(Written(s, cs[0]), Written(t, cs[0]), cs[1..]);
      } else {
        ControlIsTransparent(Written(s, cs[0]), t, cs[1..]);
      }
    }
  }

  lemma {:induction false} WrittenAppend(s: Inbound, a: seq<Chunk>, b: seq<Chunk>)
    ensures WrittenAll(s, a + b) == WrittenAll(WrittenAll(s, a), b)
    decreases |a|
  {
    if a == [] {
      assert a + b == b;
    } else {
      assert (a + b)[1..] == a[1..] + b;
      WrittenAppend(Written(s, a[0]), a[1..], b);
    }
  }

  /** The rest of a frame completes it. */
  lemma {:induction false} RestOfFrame(s: Inbound, kind: Kind, done: nat, pieces: seq<seq<byte>>)
    requires kind == FrameKind(kind.BinaryFrame?) && NonEmpty(pieces)
    requires done > 0 ==> s.rx.expected == done && s.rxIsBinary == kind.BinaryFrame?
    ensures var t := WrittenAll(s, ChunksOf(kind, done, pieces));
            t.rx == EMPTY
            && t.delivered == s.delivered
                 + [Delivery((if done == 0 then [] else s.rx.buf) + Flatten(pieces), kind.BinaryFrame?)]
    decreases |pieces|
  {
    var cs := ChunksOf(kind, done, pieces);
    var before := if done == 0 then [] else s.rx.buf;
    var t := Written(s, cs[0]);
    assert cs[1..] == ChunksOf(kind, done + |pieces[0]|, pieces[1..]);
    if |pieces| == 1 {
      assert Flatten(pieces[1..]) == [] && Flatten(pieces) == pieces[0];
      assert WrittenAll(t, cs[1..]) == t;
    } else {
      assert Flatten(pieces[1..]) == pieces[1] + Flatten(pieces[1..][1..]);
      RestOfFrame(t, kind, done + |pieces[0]|, pieces[1..]);
      assert before + pieces[0] + Flatten(pieces[1..]) == before + Flatten(pieces);
    }
  }

  lemma {:induction false} FramesDeliver(s: Inbound, frames: seq<Frame>)
    requires Frames(frames)
    ensures WrittenAll(s, FrameChunks(frames)).delivered == s.delivered + Messages(frames)
    decreases |frames|
  {
    if frames == [] {
      assert s.delivered + [] == s.delivered;
    } else {
      var kind := FrameKind(frames[0].binary);
      var first := ChunksOf(kind, 0, frames[0].pieces);
      WrittenAppend(s, first, FrameChunks(frames[1..]));
      RestOfFrame(s, kind, 0, frames[0].pieces);
      var t := WrittenAll(s, first);
      FramesDeliver(t, frames[1..]);
      assert [] + Flatten(frames[0].pieces) == Flatten(frames[0].pieces);
      var head := [Delivery(Flatten(frames[0].pieces), frames[0].binary)];
      assert s.delivered + head + Messages(frames[1..]) == s.delivered + (head + Messages(frames[1..]));
    }
  }

  /** However data frames are cut into chunks, and whatever control chunks come in between, each
      frame is delivered once, whole and in order. */
  lemma WholeFramesInOrder(s: Inbound, cs: seq<Chunk>, frames: seq<Frame>)
    requires Frames(frames) && Select(cs, true) == FrameChunks(frames)
    ensures WrittenAll(s, cs).delivered == s.delivered + Messages(frames)
  {
    ControlIsTransparent(s, s, cs);
    FramesDeliver(s, frames);
  }

  // ----- close frames

  predicate SameClose(s: Inbound, t: Inbound)
  {
    s.closing == t.closing && s.closes == t.closes
  }

  lemma {:induction false} DataIsTransparent(s: Inbound, t: Inbound, cs: seq<Chunk>)
    requires SameClose(s, t)
    ensures SameClose(WrittenAll(s, cs), WrittenAll(t, CloseChunks(cs)))
    decreases |cs|
  {
    if cs != [] {
      if cs[0].kind.CloseFrame? {
        assert CloseChunks(cs)[1..] == CloseChunks(cs[1..]);
        DataIsTransparent(Written(s, cs[0]), Written(t, cs[0]), cs[1..]);
      } else {
        DataIsTransparent(Written(s, cs[0]), t, cs[1..]);
      }
    }
  }

  lemma {:induction false} RestOfClose(s: Inbound, done: nat, pieces: seq<seq<byte>>)
    requires NonEmpty(pieces) && (done > 0 ==> s.closing.expected == done)
    ensures WrittenAll(s, ChunksOf(CloseFrame, done, pieces)).closes
         == s.closes + [ParseClose((if done == 0 then [] else s.closing.buf) + Flatten(pieces))]
    decreases |pieces|
  {
    var cs := ChunksOf(CloseFrame, done, pieces);
    var before := if done == 0 then [] else s.closing.buf;
    var t := Written(s, cs[0]);
    assert cs[1..] == ChunksOf(CloseFrame, done + |pieces[0]|, pieces[1..]);
    if |pieces| == 1 {
      assert Flatten(pieces[1..]) == [] && Flatten(pieces) == pieces[0];
      assert WrittenAll(t, cs[1..]) == t;
    } else {
      assert Flatten(pieces[1..]) == pieces[1] + Flatten(pieces[1..][1..]);
      RestOfClose(t, done + |pieces[0]|, pieces[1..]);
      assert before + pieces[0] + Flatten(pieces[1..]) == before + Flatten(pieces);
    }
  }

  /** Two octets make up the low 16 bits. */
  lemma LowBits(code: int)
    ensures code / 256 % 256 * 256 + code % 256 == code % 0x1_0000
  {
    var high, low := code / 256, code % 256;
    var top, middle := high / 256, high % 256;
    assert code == 256 * high + low && high == 256 * top + middle;
    assert code == 0x1_0000 * top + (256 * middle + low);
    UniqueRemainder(code, top, 256 * middle + low);
  }

  lemma UniqueRemainder(n: int, q: int, r: int)
    requires n == 0x1_0000 * q + r && 0 <= r < 0x1_0000
    ensures n % 0x1_0000 == r
  {
  }

  lemma BodyParses(code: int, reason: seq<byte>)
    ensures var kept := if |reason| <= WsOutbound.MAX_REASON then reason else reason[..WsOutbound.MAX_REASON];
            ParseClose(WsOutbound.CloseBody(code, reason)) == ClosePair(code % 0x1_0000, kept)
  {
    LowBits(code);
    var kept := if |reason| <= WsOutbound.MAX_REASON then reason else reason[..WsOutbound.MAX_REASON];
    assert WsOutbound.CloseBody(code, reason)[2..] == kept;
  }

  /** The close body that one side queues reads back, at the other side, as the low 16 bits of its
      code and the first 123 octets of its reason, however the frame is cut and whatever data chunks
      come in between. */
  lemma CloseRoundTrip(s: Inbound, cs: seq<Chunk>, pieces: seq<seq<byte>>, code: int, reason: seq<byte>)
    requires NonEmpty(pieces) && Flatten(pieces) == WsOutbound.CloseBody(code, reason)
    requires CloseChunks(cs) == ChunksOf(CloseFrame, 0, pieces)
    ensures var kept := if |reason| <= 123 then reason else reason[..123];
            WrittenAll(s, cs).closes == s.closes + [ClosePair(code % 0x1_0000, kept)]
  {
    DataIsTransparent(s, s, cs);
    RestOfClose(s, 0, pieces);
    assert [] + Flatten(pieces) == WsOutbound.CloseBody(code, reason);
    BodyParses(code, reason);
  }

  /** Code and reason survive unchanged exactly when the code is an unsigned 16-bit number and the
      reason fits. */
  lemma CloseIsLosslessIff(code: int, reason: seq<byte>)
    ensures ParseClose(WsOutbound.CloseBody(code, reason)) == ClosePair(code, reason)
       <==> 0 <= code < 0x1_0000 && |reason| <= 123
  {
    BodyParses(code, reason);
  }

  /** A close frame of one octet carries no code, which section 7.4.1 of RFC 6455 calls 1005. */
  lemma ShortClose(s: Inbound, cs: seq<Chunk>, octet: byte)
    requires CloseChunks(cs) == ChunksOf(CloseFrame, 0, [[octet]])
    ensures WrittenAll(s, cs).closes == s.closes + [ClosePair(1005, [])]
  {
    DataIsTransparent(s, s, cs);
    RestOfClose(s, 0, [[octet]]);
    assert [[octet]][1..] == [] && [] + Flatten([[octet]]) == [octet];
  }

  // ----- chunks out of place, and empty ones

  /** A chunk at offset zero or at any offset but the expected one is taken for the start of a frame:
      nothing that was buffered before it counts, and from here on the frame has its kind. */
  lemma StartsOver(s: Inbound, c: Chunk, before: Assembly, binary: bool)
    requires IsData(c) && c.bytes != [] && (c.offset == 0 || c.offset != s.rx.expected)
    ensures Written(s, c) == Written(s.(rx := before, rxIsBinary := binary), c.(offset := 0))
    ensures Written(s, c).rxIsBinary == c.kind.BinaryFrame?
  {
  }

  lemma CloseStartsOver(s: Inbound, c: Chunk, before: Assembly)
    requires c.kind.CloseFrame? && c.bytes != [] && (c.offset == 0 || c.offset != s.closing.expected)
    ensures Written(s, c) == Written(s.(closing := before), c.(offset := 0))
  {
  }

  /** What a continuing chunk calls itself does not matter: the frame has the kind it began with. */
  lemma FirstKindCounts(s: Inbound, c: Chunk, kind: Kind)
    requires IsData(c) && c.offset == s.rx.expected != 0 && (kind.TextFrame? || kind.BinaryFrame?)
    ensures Written(s, c) == Written(s, c.(kind := kind)) && Written(s, c).rxIsBinary == s.rxIsBinary
  {
  }

  predicate SomeChunk(cs: seq<Chunk>)
  {
    exists k :: 0 <= k < |cs| && cs[k].bytes != []
  }

  predicate ClosesFrame(c: Chunk)
  {
    c.kind.CloseFrame? && c.bytesLeft == 0 && c.bytes != []
  }

  predicate SomeClose(cs: seq<Chunk>)
  {
    exists k :: 0 <= k < |cs| && ClosesFrame(cs[k])
  }

  /** Whatever arrives: the open callback is made by the first chunk that carries anything, the socket is
      torn down by a whole close frame and by nothing else, and a frame without octets is never delivered. */
  lemma {:induction false} WhateverArrives(s: Inbound, cs: seq<Chunk>)
    ensures WrittenAll(s, cs).openNotified <==> s.openNotified || SomeChunk(cs)
    ensures WrittenAll(s, cs).abort <==> s.abort || SomeClose(cs)
    ensures forall d :: d in WrittenAll(s, cs).delivered && d !in s.delivered ==> d.payload != []
    decreases |cs|
  {
    if cs != [] {
      var rest := cs[1..];
      WhateverArrives(Written(s, cs[0]), rest);
      assert forall k :: 0 <= k < |rest| ==> rest[k] == cs[k + 1];
      assert forall k :: 1 <= k < |cs| ==> cs[k] == rest[k - 1];
    }
  }

  /** A chunk without octets changes nothing. */
  lemma EmptyChunkIgnored(s: Inbound, c: Chunk)
    requires c.bytes == []
    ensures Written(s, c) == s
  {
  }

  /** A whole close frame leaves nothing behind that a later one could be added to. */
  lemma CloseLeavesNothing(s: Inbound, c: Chunk)
    requires ClosesFrame(c)
    ensures Written(s, c).closing == EMPTY && |Written(s, c).closes| == |s.closes| + 1
  {
  }

  // ----- the socket object

  class Receiver {
    var rxBuf: seq<byte>
    var rxIsBinary: bool
    var rxExpectedOffset: nat
    var closeBuf: seq<byte>
    var closeExpectedOffset: nat
    var openNotified: bool
    var abort: bool
    ghost var delivered: seq<Delivery>
    ghost var closes: seq<ClosePair>

    ghost function Abs(): Inbound
      reads this
    {
      Inbound(Assembly(rxBuf, rxExpectedOffset), rxIsBinary, Assembly(closeBuf, closeExpectedOffset),
              openNotified, abort, delivered, closes)
    }

    constructor ()
      ensures Abs() == OPENING
    {
      rxBuf, rxIsBinary, rxExpectedOffset := [], false, 0;
      closeBuf, closeExpectedOffset, openNotified, abort := [], 0, false, false;
      delivered, closes := [], [];
    }

    method WriteCallback(c: Chunk)
      modifies this
      ensures Abs() == Written(old(Abs()), c)
    {
      if c.bytes == [] {
        return;
      }
      openNotified := true;
      match c.kind
      case PingPong =>
      case CloseFrame => CloseChunk(c);
      case _ => DataChunk(c);
    }

    method CloseChunk(c: Chunk)
      requires c.kind.CloseFrame? && c.bytes != [] && openNotified
      modifies `closeBuf, `closeExpectedOffset, `abort, `closes
      ensures Abs() == Written(old(Abs()), c)
    {
      if c.offset == 0 {
        closeBuf, closeExpectedOffset := [], 0;
      }
      if c.offset != closeExpectedOffset {
        closeBuf, closeExpectedOffset := [], 0;
      }
      closeBuf := closeBuf + c.bytes;
      closeExpectedOffset := closeExpectedOffset + |c.bytes|;
      if c.bytesLeft == 0 {
        var code, reason := NO_CODE, [];
        if |closeBuf| >= 2 {
          code := closeBuf[0] as int * 256 + closeBuf[1] as int;
          if |closeBuf| > 2 {
            reason := closeBuf[2..];
          }
        }
        assert ClosePair(code, reason) == ParseClose(closeBuf);
        closes := closes + [ClosePair(code, reason)];
        abort := true;
        closeBuf, closeExpectedOffset := [], 0;
      }
    }

    method DataChunk(c: Chunk)
      requires IsData(c) && c.bytes != [] && openNotified
      modifies `rxBuf, `rxIsBinary, `rxExpectedOffset, `delivered
      ensures Abs() == Written(old(Abs()), c)
    {
      if c.offset == 0 {
        rxBuf, rxIsBinary, rxExpectedOffset := [], c.kind.BinaryFrame?, 0;
      }
      if c.offset != rxExpectedOffset {
        rxBuf, rxIsBinary, rxExpectedOffset := [], c.kind.BinaryFrame?, 0;
      }
      rxBuf := rxBuf + c.bytes;
      rxExpectedOffset := rxExpectedOffset + |c.bytes|;
      if c.bytesLeft == 0 {
        delivered := delivered + [Delivery(rxBuf, rxIsBinary)];
        rxBuf, rxExpectedOffset := [], 0;
      }
    }
  }
}
