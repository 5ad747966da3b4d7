/**
 The outbound side of WebSocket.cpp: a queue that any thread may fill, flushed by the worker thread
 through a send call that may take part of a payload, ask for a retry, or fail.
 */
module WsOutbound {
  import opened Bytes
  import opened Options

  datatype SendItem = SendItem(payload: seq<byte>, binary: bool, closeFrame: bool)

  /** The kinds of frame libcurl can be told to make. */
  datatype Kind = TextFrame | BinaryFrame | CloseFrame

  /** An octet on its way out, with the kind of the frame it belongs to. */
  datatype Octet = Octet(value: byte, kind: Kind)

  /** What curl_ws_send answers. `Retry` is CURLE_AGAIN or CURLE_SEND_ERROR, `Fatal` any other
      failure; octets may have been taken in every case. */
  datatype Answer = Ok(n: nat) | Retry(n: nat) | Fatal(n: nat)

  /** One that has tested that the socket runs: what it will push, on which connection it tested, and the
      octets and the kind that its caller asked for. */
  datatype Sender = Sender(item: SendItem, connection: nat, asked: seq<Octet>)

  /** `senders` and `closer` have tested and have not yet pushed. `joined` tells that no worker thread is
      left to join, `connection` how often the socket was opened. */
  datatype Outbound = Outbound(
    running: bool,
    joined: bool,
    connection: nat,
    queue: seq<SendItem>,
    inFlight: Option<SendItem>,
    senders: seq<Sender>,
    closer: Option<Sender>,
    abort: bool,
    // octets taken by libcurl and thrown away by close on this connection, what became of those before
    // it was opened, and octets asked for by callers; taken ones have the kind that libcurl was told
    accepted: seq<Octet>,
    discarded: seq<Octet>,
    past: seq<Octet>,
    enqueued: seq<Octet>)

  datatype Event =
    | Open
    | TestSend(data: seq<byte>, binary: bool)
    | PushSend(i: nat)
    | TestClose(code: int, reason: seq<byte>)
    | PushClose
    | Pop
    | Write(answer: Answer)
    | Done
    | End
    | Clear

  const MAX_REASON: nat := 123

  /** The body of a close frame: the low 16 bits of the code, then at most 123 octets of reason. */
  function CloseBody(code: int, reason: seq<byte>): (body: seq<byte>)
    ensures 2 <= |body| <= 125
  {
    [(code / 256 % 256) as byte, (code % 256) as byte]
    + if |reason| <= MAX_REASON then reason else reason[..MAX_REASON]
  }

  function Mark(payload: seq<byte>, kind: Kind): (octets: seq<Octet>)
    ensures |octets| == |payload|
    ensures forall i :: 0 <= i < |payload| ==> octets[i] == Octet(payload[i], kind)
  {
    seq(|payload|, i requires 0 <= i < |payload| => Octet(payload[i], kind))
  }

  /** The flags that sendDirect passes for an item. */
  function KindOf(item: SendItem): Kind
  {
    if item.closeFrame then CloseFrame else if item.binary then BinaryFrame else TextFrame
  }

  function Marked(item: SendItem): seq<Octet>
  {
    Mark(item.payload, KindOf(item))
  }

  function QueueOctets(queue: seq<SendItem>): seq<Octet>
  {
    if queue == [] then [] else Marked(queue[0]) + QueueOctets(queue[1..])
  }

  /** What a call of send, or of requestClose, asks for. */
  function MessageAsked(data: seq<byte>, binary: bool): seq<Octet>
  {
    Mark(data, if binary then BinaryFrame else TextFrame)
  }

  function CloseAsked(code: int, reason: seq<byte>): seq<Octet>
  {
    Mark(CloseBody(code, reason), CloseFrame)
  }

  function Push(o: Outbound, s: Sender): Outbound
  {
    o.(queue := o.queue + [s.item], enqueued := o.enqueued + s.asked)
  }

  function MessageItem(data: seq<byte>, binary: bool): SendItem
  {
    SendItem(data, binary, false)
  }

  function CloseItem(code: int, reason: seq<byte>): SendItem
  {
    SendItem(CloseBody(code, reason), false, true)
  }

  function Clamp(n: nat, payload: seq<byte>): nat
  {
    if n <= |payload| then n else |payload|
  }

  predicate Enabled(o: Outbound, e: Event)
  {
    match e
    case Open => o.joined && !o.running
    case TestSend(_, _) => true
    case PushSend(i) => i < |o.senders|
    case TestClose(_, _) => o.closer.None?
    case PushClose => o.closer.Some?
    case Pop => o.running && o.inFlight.None? && o.queue != []
    case Write(_) => o.inFlight.Some? && o.inFlight.value.payload != []
    case Done => o.inFlight.Some? && o.inFlight.value.payload == []
    case End => o.running && o.inFlight.None?
    case Clear => !o.running && o.inFlight.None? && o.closer.None?
  }

  function Written(o: Outbound, answer: Answer): Outbound
    requires Enabled(o, Write(answer))
  {
    var item := o.inFlight.value;
    var n := Clamp(answer.n, item.payload);
    var rest := item.(payload := item.payload[n..]);
    var took := o.(accepted := o.accepted + Mark(item.payload[..n], KindOf(item)));
    if answer.Ok? then took.(inFlight := Some(rest))
    else took.(inFlight := None, queue := [rest] + o.queue, abort := o.abort || answer.Fatal?)
  }

  /** A new worker; the queue is as it was left. */
  function Opened(o: Outbound): Outbound
  {
    o.(running := true, joined := false, connection := o.connection + 1, abort := false,
       past := o.past + o.accepted + o.discarded, accepted := [], discarded := [])
  }

  /** The worker has been joined. */
  function Cleared(o: Outbound): Outbound
  {
    o.(joined := true, queue := [], discarded := o.discarded + QueueOctets(o.queue))
  }

  /** Who passes a test. */
  function Tester(o: Outbound, e: Event): seq<Sender>
  {
    if e.TestSend? && o.running
    then [Sender(MessageItem(e.data, e.binary), o.connection, MessageAsked(e.data, e.binary))]
    else []
  }

  /** One test, one critical section, or one call of curl_ws_send. */
  function Step(o: Outbound, e: Event): Outbound
    requires Enabled(o, e)
  {
    match e
    case Open => Opened(o)
    case TestSend(data, binary) => o.(senders := o.senders + Tester(o, e))
    case PushSend(i) => Push(o.(senders := o.senders[..i] + o.senders[i + 1..]), o.senders[i])
    case TestClose(code, reason) =>
      if o.running then o.(closer := Some(Sender(CloseItem(code, reason), o.connection, CloseAsked(code, reason))))
      else o
    case PushClose => Push(o.(closer := None), o.closer.value)
    case Pop => o.(queue := o.queue[1..], inFlight := Some(o.queue[0]))
    case Write(answer) => Written(o, answer)
    case Done => o.(inFlight := None)
    case End => o.(running := false)
    case Clear => Cleared(o)
  }

  predicate Runs(o: Outbound, trace: seq<Event>)
    decreases |trace|
  {
    trace == [] || (Enabled(o, trace[0]) && Runs(Step(o, trace[0]), trace[1..]))
  }

  function After(o: Outbound, trace: seq<Event>): Outbound
    requires Runs(o, trace)
    decreases |trace|
  {
    if trace == [] then o else After(Step(o, trace[0]), trace[1..])
  }

  /** A socket that was never opened. */
  const FRESH := Outbound(false, true, 0, [], None, [], None, false, [], [], [], [])

  // ----- conservation

  function HeldOctets(o: Outbound): seq<Octet>
  {
    if o.inFlight.Some? then Marked(o.inFlight.value) + QueueOctets(o.queue) else QueueOctets(o.queue)
  }

  predicate Working(o: Outbound)
  {
    (o.inFlight.Some? ==> o.running) && (o.running ==> !o.joined) && (!o.joined ==> o.discarded == [])
  }

  /** What waits to be pushed is, octet for octet and in kind, what was asked for. */
  predicate AsAsked(o: Outbound)
  {
    && (forall i :: 0 <= i < |o.senders| ==> o.senders[i].asked == Marked(o.senders[i].item))
    && (o.closer.Some? ==> o.closer.value.asked == Marked(o.closer.value.item))
  }

  /** What libcurl was handed, with the kind of frame it was told, what was thrown away, and what is held
      make up what callers asked for, octet for octet, in kind and in order; until a close nothing is thrown
      away. */
  predicate Conserved(o: Outbound)
  {
    Working(o) && AsAsked(o) && o.past + o.accepted + o.discarded + HeldOctets(o) == o.enqueued
  }

  lemma {:induction false} QueueOctetsAppend(a: seq<SendItem>, b: seq<SendItem>)
    ensures QueueOctets(a + b) == QueueOctets(a) + QueueOctets(b)
  {
    if a == [] {
      assert a + b == b;
    } else {
      assert (a + b)[1..] == a[1..] + b;
      QueueOctetsAppend(a[1..], b);
    }
  }

  lemma QueueOctetsPush(queue: seq<SendItem>, item: SendItem)
    ensures QueueOctets(queue + [item]) == QueueOctets(queue) + Marked(item)
  {
    QueueOctetsAppend(queue, [item]);
    assert [item][1..] == [] && QueueOctets([item]) == Marked(item) + [];
    assert Marked(item) + [] == Marked(item);
  }

  lemma PushHolds(o: Outbound, s: Sender)
    ensures HeldOctets(Push(o, s)) == HeldOctets(o) + Marked(s.item)
  {
    QueueOctetsPush(o.queue, s.item);
    if o.inFlight.Some? {
      var flying, queued := Marked(o.inFlight.value), QueueOctets(o.queue);
      assert flying + (queued + Marked(s.item)) == (flying + queued) + Marked(s.item);
    }
  }

  lemma Regroup(a: seq<Octet>, b: seq<Octet>, c: seq<Octet>, d: seq<Octet>)
    ensures (a + b) + c == a + (b + c)
    ensures a + b + [] + (c + d) == a + (b + c) + [] + d
    ensures a + b + c + d == (a + b + c) + [] + [] + d
    ensures a + b + c + d == a + b + (c + d) + []
  {
  }

  lemma PushKeeps(o: Outbound, s: Sender)
    requires Conserved(o) && s.asked == Marked(s.item)
    ensures Conserved(Push(o, s))
  {
    PushHolds(o, s);
    Regroup(o.past + o.accepted + o.discarded, HeldOctets(o), Marked(s.item), []);
  }

  lemma MarkCut(payload: seq<byte>, n: nat, kind: Kind)
    requires n <= |payload|
    ensures Mark(payload, kind) == Mark(payload[..n], kind) + Mark(payload[n..], kind)
  {
  }

  /** Part of the first item is handed over; the rest, in kind, goes back in front. */
  lemma HandedOver(item: SendItem, n: nat, others: seq<Octet>)
    requires n <= |item.payload|
    ensures var rest := item.(payload := item.payload[n..]);
            Marked(item) + others == Mark(item.payload[..n], KindOf(item)) + (Marked(rest) + others)
  {
    MarkCut(item.payload, n, KindOf(item));
    Regroup(Mark(item.payload[..n], KindOf(item)), Mark(item.payload[n..], KindOf(item)), others, []);
  }

  lemma WriteKeeps(o: Outbound, answer: Answer)
    requires Conserved(o) && Enabled(o, Write(answer))
    ensures Conserved(Written(o, answer))
  {
    var item := o.inFlight.value;
    var n := Clamp(answer.n, item.payload);
    var rest := item.(payload := item.payload[n..]);
    assert ([rest] + o.queue)[1..] == o.queue;
    assert HeldOctets(Written(o, answer)) == Marked(rest) + QueueOctets(o.queue);
    HandedOver(item, n, QueueOctets(o.queue));
    Regroup(o.past, o.accepted, Mark(item.payload[..n], KindOf(item)), Marked(rest) + QueueOctets(o.queue));
  }

  lemma OpenKeeps(o: Outbound)
    requires Conserved(o) && !o.running
    ensures Conserved(Opened(o))
  {
    Regroup(o.past, o.accepted, o.discarded, HeldOctets(o));
  }

  lemma ClearKeeps(o: Outbound)
    requires Conserved(o) && Enabled(o, Clear)
    ensures Conserved(Cleared(o))
  {
    Regroup(o.past, o.accepted, o.discarded, QueueOctets(o.queue));
  }

  lemma StepKeeps(o: Outbound, e: Event)
    requires Conserved(o) && Enabled(o, e)
    ensures Conserved(Step(o, e))
  {
    match e
    case Open => OpenKeeps(o);
    case TestSend(_, _) =>
    case PushSend(i) => PushKeeps(o.(senders := o.senders[..i] + o.senders[i + 1..]), o.senders[i]);
    case TestClose(_, _) =>
    case PushClose => PushKeeps(o.(closer := None), o.closer.value);
    case Pop => assert HeldOctets(Step(o, e)) == HeldOctets(o);
    case Write(answer) => WriteKeeps(o, answer);
    case Done => assert [] + QueueOctets(o.queue) == QueueOctets(o.queue);
    case End =>
    case Clear => ClearKeeps(o);
  }

  /** Outbound octets are conserved, with the kind of their frame, under every interleaving of callers, of
      tests and pushes too, with full, partial, retried and failed sends, closes and reopenings. */
  lemma {:induction false} OctetsConserved(o: Outbound, trace: seq<Event>)
    requires Conserved(o) && Runs(o, trace)
    ensures Conserved(After(o, trace))
    decreases |trace|
  {
    if trace != [] {
      StepKeeps(o, trace[0]);
      OctetsConserved(Step(o, trace[0]), trace[1..]);
    }
  }

  /** From the first opening on: until a close nothing is missing, and what libcurl has, was thrown away
      or belongs to connections before is a prefix of what callers handed in. */
  lemma ConservedFromFresh(trace: seq<Event>)
    requires Runs(FRESH, trace)
    ensures var o := After(FRESH, trace);
      && Conserved(o) && o.past + o.accepted + o.discarded <= o.enqueued
      && (!o.joined ==> o.past + o.accepted + HeldOctets(o) == o.enqueued)
  {
    OctetsConserved(FRESH, trace);
    var o := After(FRESH, trace);
    assert o.past + o.accepted + [] == o.past + o.accepted;
  }

  // ----- messages that come too late

  /** What was thrown away comes before what is held. The other order holds exactly when the two cannot be
      told apart by their order. */
  lemma HeldBeforeDiscardedIff(o: Outbound)
    requires Conserved(o)
    ensures o.past + o.accepted + HeldOctets(o) + o.discarded == o.enqueued
       <==> HeldOctets(o) + o.discarded == o.discarded + HeldOctets(o)
  {
    var done, held, gone := o.past + o.accepted, HeldOctets(o), o.discarded;
    assert done + held + gone == done + (held + gone) && done + gone + held == done + (gone + held);
    if done + (held + gone) == done + (gone + held) {
      assert held + gone == (done + (held + gone))[|done|..] == gone + held;
    }
  }

  // A sender is late when it tested on a connection that has since been closed.

  predicate Pushes(e: Event)
  {
    e.PushSend? || e.PushClose?
  }

  /** Who pushes in one step, if anybody does. */
  function Pusher(o: Outbound, e: Event): seq<Sender>
    requires Enabled(o, e)
  {
    match e
    case PushSend(i) => [o.senders[i]]
    case PushClose => [o.closer.value]
    case _ => []
  }

  /** Who pushes in a run, in order. */
  function Pushed(o: Outbound, trace: seq<Event>): seq<Sender>
    requires Runs(o, trace)
    decreases |trace|
  {
    if trace == [] then [] else Pusher(o, trace[0]) + Pushed(Step(o, trace[0]), trace[1..])
  }

  function Items(senders: seq<Sender>): seq<SendItem>
  {
    seq(|senders|, i requires 0 <= i < |senders| => senders[i].item)
  }

  /** Those that tested on a connection up to `last`. */
  function Late(senders: seq<Sender>, last: nat): seq<Sender>
  {
    if senders == [] then []
    else (if senders[0].connection <= last then [senders[0]] else []) + Late(senders[1..], last)
  }

  lemma {:induction false} LateAppend(a: seq<Sender>, b: seq<Sender>, last: nat)
    ensures Late(a + b, last) == Late(a, last) + Late(b, last)
    decreases |a|
  {
    if a == [] {
      assert a + b == b;
    } else {
      var head := if a[0].connection <= last then [a[0]] else [];
      assert (a + b)[1..] == a[1..] + b && (a + b)[0] == a[0];
      LateAppend(a[1..], b, last);
      assert head + (Late(a[1..], last) + Late(b, last)) == (head + Late(a[1..], last)) + Late(b, last);
    }
  }

  lemma {:induction false} AllLate(senders: seq<Sender>, last: nat)
    requires forall i :: 0 <= i < |senders| ==> senders[i].connection <= last
    ensures Late(senders, last) == senders
    decreases |senders|
  {
    if senders != [] {
      AllLate(senders[1..], last);
      assert [senders[0]] + senders[1..] == senders;
    }
  }

  /** Nobody has tested on a connection that was not yet opened. */
  predicate Tagged(o: Outbound)
  {
    forall i :: 0 <= i < |o.senders| ==> o.senders[i].connection <= o.connection
  }

  lemma {:induction false} EveryRunTags(o: Outbound, trace: seq<Event>)
    requires Tagged(o) && Runs(o, trace)
    ensures Tagged(After(o, trace))
    decreases |trace|
  {
    if trace != [] {
      EveryRunTags(Step(o, trace[0]), trace[1..]);
    }
  }

  /** Nothing is taken and nothing closed. */
  predicate Untaken(trace: seq<Event>)
  {
    forall k :: 0 <= k < |trace| ==> !trace[k].Pop? && !trace[k].Clear?
  }

  lemma UntakenLater(trace: seq<Event>)
    requires Untaken(trace) && trace != []
    ensures Untaken(trace[1..])
  {
    assert forall k :: 0 <= k < |trace[1..]| ==> trace[1..][k] == trace[k + 1];
  }

  /** Whoever tests from here on tests on a later connection. */
  predicate Since(o: Outbound, last: nat)
  {
    o.inFlight.None? && last <= o.connection && (o.running ==> last < o.connection)
    && (o.closer.Some? ==> last < o.closer.value.connection)
  }

  lemma SinceStep(o: Outbound, e: Event, last: nat)
    requires Since(o, last) && Enabled(o, e) && !e.Pop? && !e.Clear?
    ensures Since(Step(o, e), last) && Step(o, e).queue == o.queue + Items(Pusher(o, e))
  {
    assert !Pushes(e) ==> o.queue + Items([]) == o.queue;
  }

  lemma SendersStep(o: Outbound, e: Event)
    requires Enabled(o, e)
    ensures Step(o, e).senders
         == if e.PushSend? then o.senders[..e.i] + o.senders[e.i + 1..] else o.senders + Tester(o, e)
  {
  }

  lemma LateUnchanged(senders: seq<Sender>, more: seq<Sender>, last: nat)
    requires forall i :: 0 <= i < |more| ==> more[i].connection > last
    ensures Late(senders + more, last) == Late(senders, last)
  {
    NobodyLate(more, last);
    LateAppend(senders, more, last);
    assert Late(senders, last) + [] == Late(senders, last);
  }

  lemma QuietStep(o: Outbound, e: Event, last: nat)
    requires Since(o, last) && Enabled(o, e) && !e.PushSend?
    ensures Late(Step(o, e).senders, last) == Late(o.senders, last) && Late(Pusher(o, e), last) == []
  {
    SendersStep(o, e);
    LateUnchanged(o.senders, Tester(o, e), last);
    NobodyLate(Pusher(o, e), last);
  }

  lemma LateStep(o: Outbound, e: Event, last: nat)
    requires Since(o, last) && Enabled(o, e)
    ensures multiset(Late(Step(o, e).senders, last)) + multiset(Late(Pusher(o, e), last))
         == multiset(Late(o.senders, last))
  {
    if e.PushSend? {
      SendersStep(o, e);
      TakenOut(o.senders, e.i, last);
    } else {
      QuietStep(o, e, last);
    }
  }

  lemma {:induction false} NobodyLate(senders: seq<Sender>, last: nat)
    requires forall i :: 0 <= i < |senders| ==> senders[i].connection > last
    ensures Late(senders, last) == []
    decreases |senders|
  {
    if senders != [] {
      NobodyLate(senders[1..], last);
    }
  }

  lemma TakenOut(senders: seq<Sender>, i: nat, last: nat)
    requires i < |senders|
    ensures multiset(Late(senders[..i] + senders[i + 1..], last)) + multiset(Late([senders[i]], last))
         == multiset(Late(senders, last))
  {
    assert senders == senders[..i] + ([senders[i]] + senders[i + 1..]);
    LateAppend(senders[..i], [senders[i]] + senders[i + 1..], last);
    LateAppend([senders[i]], senders[i + 1..], last);
    LateAppend(senders[..i], senders[i + 1..], last);
  }

  /** What is queued is what was pushed, and the late ones among those who pushed or still wait are the late
      ones from before. */
  lemma {:induction false} SinceRun(o: Outbound, trace: seq<Event>, last: nat)
    requires Since(o, last) && Runs(o, trace) && Untaken(trace)
    ensures Since(After(o, trace), last)
    ensures After(o, trace).queue == o.queue + Items(Pushed(o, trace))
    ensures multiset(Late(After(o, trace).senders, last)) + multiset(Late(Pushed(o, trace), last))
         == multiset(Late(o.senders, last))
    decreases |trace|
  {
    if trace == [] {
      assert o.queue + Items([]) == o.queue;
    } else {
      UntakenLater(trace);
      SinceStep(o, trace[0], last);
      LateStep(o, trace[0], last);
      var next, one := Step(o, trace[0]), Pusher(o, trace[0]);
      SinceRun(next, trace[1..], last);
      var more := Pushed(next, trace[1..]);
      LateAppend(one, more, last);
      QueuedMore(o.queue, one, more);
    }
  }

  lemma QueuedMore(queue: seq<SendItem>, one: seq<Sender>, more: seq<Sender>)
    ensures (queue + Items(one)) + Items(more) == queue + Items(one + more)
  {
  }

  /** The first push of a run. */
  function FirstPush(trace: seq<Event>): Option<Event>
    decreases |trace|
  {
    if trace == [] then None else if Pushes(trace[0]) then Some(trace[0]) else FirstPush(trace[1..])
  }

  /** Until somebody pushes, the late senders stay the first ones in line. */
  lemma {:induction false} FirstPushIsLateIff(o: Outbound, trace: seq<Event>, n: nat, last: nat)
    requires Since(o, last) && Runs(o, trace) && Untaken(trace) && n <= |o.senders|
    requires forall i :: 0 <= i < |o.senders| ==> (o.senders[i].connection <= last <==> i < n)
    ensures Pushed(o, trace) != [] <==> FirstPush(trace).Some?
    ensures Pushed(o, trace) != [] ==>
              (Pushed(o, trace)[0].connection <= last
               <==> FirstPush(trace).value.PushSend? && FirstPush(trace).value.i < n)
    decreases |trace|
  {
    if trace != [] {
      var e, next := trace[0], Step(o, trace[0]);
      if Pushes(e) {
        assert Pushed(o, trace)[0] == Pusher(o, e)[0];
      } else {
        UntakenLater(trace);
        SinceStep(o, e, last);
        SendersStep(o, e);
        FirstPushIsLateIff(next, trace[1..], n, last);
        assert Pushed(o, trace) == Pushed(next, trace[1..]);
      }
    }
  }

  /** From a close up to where a worker takes its first item. The queue is then all that was pushed since
      the close, in order, before or after the opening. A message is late that was tested before the close;
      late messages are pushed by senders that stood in line at the close, each once. The item taken first
      is late if and only if the first push since the close is by one of those. */
  lemma LateMessageIsFirstIff(o: Outbound, trace: seq<Event>)
    requires Tagged(o) && Enabled(o, Clear)
    requires Runs(Step(o, Clear), trace) && Untaken(trace) && Enabled(After(Step(o, Clear), trace), Pop)
    ensures var first := Step(After(Step(o, Clear), trace), Pop).inFlight;
            var pushed, e := Pushed(Step(o, Clear), trace), FirstPush(trace);
      && After(Step(o, Clear), trace).queue == Items(pushed)
      && multiset(Late(pushed, o.connection)) <= multiset(o.senders)
      && pushed != [] && e.Some? && first == Some(pushed[0].item)
      && (pushed[0].connection <= o.connection <==> e.value.PushSend? && e.value.i < |o.senders|)
  {
    var closed := Step(o, Clear);
    SinceRun(closed, trace, o.connection);
    AllLate(o.senders, o.connection);
    var pushed := Pushed(closed, trace);
    assert [] + Items(pushed) == Items(pushed);
    FirstPushIsLateIff(closed, trace, |o.senders|, o.connection);
  }

  function SenderOf(item: SendItem): Sender
  {
    Sender(item, 1, Marked(item))
  }

  /** It happens: two senders pass the test, one pushes before the close and one after it, and the later
      message is the first of the next connection while the earlier is thrown away. */
  lemma LateMessageIsReached(a: SendItem, b: SendItem)
    requires !a.closeFrame && !b.closeFrame
    ensures var trace := [Open, TestSend(a.payload, a.binary), TestSend(b.payload, b.binary), PushSend(0), End, Clear,
                          PushSend(0), Open];
            Runs(FRESH, trace)
            && var o := After(FRESH, trace); o.past == Marked(a) && o.queue == [b] && Enabled(o, Pop)
  {
    var first, second := TestSend(a.payload, a.binary), TestSend(b.payload, b.binary);
    var tail := [PushSend(0), End, Clear, PushSend(0), Open];
    var o1 := Step(FRESH, Open);
    var o2 := Step(o1, first);
    var o3 := Step(o2, second);
    assert o3.senders == [SenderOf(a), SenderOf(b)];
    LateTail(o3, a, b);
    OneMore(o2, second, tail);
    OneMore(o1, first, [second] + tail);
    OneMore(FRESH, Open, [first] + ([second] + tail));
    InARow(Open, first, second, tail);
  }

  lemma InARow(a: Event, b: Event, c: Event, tail: seq<Event>)
    requires |tail| == 5
    ensures [a] + ([b] + ([c] + tail)) == [a, b, c, tail[0], tail[1], tail[2], tail[3], tail[4]]
  {
  }

  lemma LateTail(o: Outbound, a: SendItem, b: SendItem)
    requires o.running && o.senders == [SenderOf(a), SenderOf(b)]
    requires o.queue == [] && o.inFlight.None? && o.closer.None?
    requires o.past == o.accepted == o.discarded == []
    ensures var tail := [PushSend(0), End, Clear, PushSend(0), Open];
            Runs(o, tail)
            && After(o, tail).past == Marked(a) && After(o, tail).queue == [b] && Enabled(After(o, tail), Pop)
  {
    var o4 := Step(o, PushSend(0));
    assert o4.senders == [SenderOf(b)] && o4.queue == [a];
    LateClose(o4, a, b);
    OneMore(o, PushSend(0), [End, Clear, PushSend(0), Open]);
    assert [PushSend(0)] + [End, Clear, PushSend(0), Open] == [PushSend(0), End, Clear, PushSend(0), Open];
  }

  lemma LateClose(o: Outbound, a: SendItem, b: SendItem)
    requires o.running && o.senders == [SenderOf(b)] && o.queue == [a] && o.inFlight.None? && o.closer.None?
    requires o.past == o.accepted == o.discarded == []
    ensures var tail := [End, Clear, PushSend(0), Open];
            Runs(o, tail)
            && After(o, tail).past == Marked(a) && After(o, tail).queue == [b] && Enabled(After(o, tail), Pop)
  {
    var o5 := Step(o, End);
    var o6 := Step(o5, Clear);
    assert [a][1..] == [] && QueueOctets([a]) == Marked(a) + [] && o6.discarded == [] + Marked(a);
    LatePush(o6, b);
    var rest := [PushSend(0), Open];
    OneMore(o5, Clear, rest);
    OneMore(o, End, [Clear] + rest);
    assert [End] + ([Clear] + rest) == [End, Clear, PushSend(0), Open];
  }

  lemma LatePush(o: Outbound, b: SendItem)
    requires !o.running && o.joined && o.inFlight.None? && o.senders == [SenderOf(b)] && o.queue == []
    requires o.past == o.accepted == []
    ensures var rest := [PushSend(0), Open];
            Runs(o, rest) && After(o, rest).past == o.discarded && After(o, rest).queue == [b] && After(o, rest).running
            && After(o, rest).inFlight.None?
  {
    var o7 := Step(o, PushSend(0));
    assert o7.queue == [b];
    var o8 := Step(o7, Open);
    assert o8.past == [] + [] + o.discarded == o.discarded;
    OneMore(o7, Open, []);
    OneMore(o, PushSend(0), [Open] + []);
    assert [PushSend(0)] + ([Open] + []) == [PushSend(0), Open];
  }

  lemma OneMore(o: Outbound, e: Event, rest: seq<Event>)
    requires Enabled(o, e) && Runs(Step(o, e), rest)
    ensures Runs(o, [e] + rest) && After(o, [e] + rest) == After(Step(o, e), rest)
  {
    assert ([e] + rest)[1..] == rest;
  }

  // ----- what was asked for

  /** The call that asks for these octets in this kind of frame: a message as text or as binary, and a close
      body, and nothing else, in a close frame. */
  predicate AsksFor(e: Event, asked: seq<Octet>)
  {
    match e
    case TestSend(data, binary) => asked == Mark(data, if binary then BinaryFrame else TextFrame)
    case TestClose(code, reason) => asked == Mark(CloseBody(code, reason), CloseFrame)
    case _ => false
  }

  predicate AskedIn(trace: seq<Event>, s: Sender)
  {
    exists k :: 0 <= k < |trace| && AsksFor(trace[k], s.asked)
  }

  predicate Waits(o: Outbound, s: Sender)
  {
    s in o.senders || o.closer == Some(s)
  }

  function AskedOctets(senders: seq<Sender>): seq<Octet>
  {
    if senders == [] then [] else senders[0].asked + AskedOctets(senders[1..])
  }

  lemma AskedStep(o: Outbound, e: Event, s: Sender)
    requires Enabled(o, e)
    ensures Waits(Step(o, e), s) || s in Pusher(o, e) ==> Waits(o, s) || AsksFor(e, s.asked)
    ensures Step(o, e).enqueued == o.enqueued + AskedOctets(Pusher(o, e))
  {
    assert o.enqueued + [] == o.enqueued;
    if Pushes(e) {
      var asked := Pusher(o, e)[0].asked;
      assert Pusher(o, e)[1..] == [] && asked + [] == asked;
    }
  }

  /** What callers have handed in is what those who pushed had asked for, in the order of the pushes; and
      whoever pushes, or waits to, in a run from the first opening on was let through by a call in that run
      that asks for just those octets in that kind of frame. */
  lemma {:induction false} HandedInWasAsked(o: Outbound, trace: seq<Event>)
    requires Runs(o, trace)
    ensures After(o, trace).enqueued == o.enqueued + AskedOctets(Pushed(o, trace))
    ensures forall s :: Waits(After(o, trace), s) || s in Pushed(o, trace) ==> Waits(o, s) || AskedIn(trace, s)
    decreases |trace|
  {
    if trace == [] {
      assert o.enqueued + [] == o.enqueued;
    } else {
      var next, rest, one := Step(o, trace[0]), trace[1..], Pusher(o, trace[0]);
      HandedInWasAsked(next, rest);
      AskedAppend(one, Pushed(next, rest));
      AskedStep(o, trace[0], if one == [] then SenderOf(SendItem([], false, false)) else one[0]);
      Regroup(o.enqueued, AskedOctets(one), AskedOctets(Pushed(next, rest)), []);
      forall s | Waits(After(o, trace), s) || s in Pushed(o, trace)
        ensures Waits(o, s) || AskedIn(trace, s)
      {
        AskedStep(o, trace[0], s);
        if AskedIn(rest, s) {
          var k :| 0 <= k < |rest| && AsksFor(rest[k], s.asked);
          assert trace[k + 1] == rest[k];
        }
      }
    }
  }

  lemma {:induction false} AskedAppend(a: seq<Sender>, b: seq<Sender>)
    ensures AskedOctets(a + b) == AskedOctets(a) + AskedOctets(b)
    decreases |a|
  {
    if a == [] {
      assert a + b == b;
    } else {
      assert (a + b)[1..] == a[1..] + b;
      AskedAppend(a[1..], b);
    }
  }

  /** From the first opening on, what libcurl has been handed is a prefix of what was asked for, octet for
      octet and each in the kind of frame that its caller asked for: nothing but close bodies goes out in
      close frames, and no part of a message, however it was cut up, changes its kind. */
  lemma HandedOverInKind(trace: seq<Event>)
    requires Runs(FRESH, trace)
    ensures var o, pushed := After(FRESH, trace), Pushed(FRESH, trace);
      && o.past + o.accepted + o.discarded + HeldOctets(o) == AskedOctets(pushed)
      && forall s :: s in pushed ==> AskedIn(trace, s)
  {
    OctetsConserved(FRESH, trace);
    HandedInWasAsked(FRESH, trace);
    assert [] + AskedOctets(Pushed(FRESH, trace)) == AskedOctets(Pushed(FRESH, trace));
    forall s | s in Pushed(FRESH, trace)
      ensures AskedIn(trace, s)
    {
      assert !Waits(FRESH, s);
    }
  }

  /** A fatal answer, and no other event, tears the connection down from the sending side. */
  lemma {:induction false} TornDownIff(o: Outbound, trace: seq<Event>)
    requires Runs(o, trace) && forall k :: 0 <= k < |trace| ==> !trace[k].Open?
    ensures After(o, trace).abort
       <==> o.abort || exists k :: 0 <= k < |trace| && trace[k].Write? && trace[k].answer.Fatal?
    decreases |trace|
  {
    if trace != [] {
      var rest := trace[1..];
      assert forall k :: 0 <= k < |rest| ==> rest[k] == trace[k + 1];
      TornDownIff(Step(o, trace[0]), rest);
      assert forall k :: 1 <= k < |trace| ==> trace[k] == rest[k - 1];
    }
  }

  /** An opening forgets what tore the connection before it down. */
  lemma TornDownSinceOpening(o: Outbound, trace: seq<Event>)
    requires Enabled(o, Open) && Runs(Step(o, Open), trace) && forall k :: 0 <= k < |trace| ==> !trace[k].Open?
    ensures After(Step(o, Open), trace).abort
       <==> exists k :: 0 <= k < |trace| && trace[k].Write? && trace[k].answer.Fatal?
  {
    TornDownIff(Step(o, Open), trace);
  }

  /** With an idle socket that runs, the next in line goes out at the first call that takes all of it, and
      the socket is idle again. */
  lemma FirstGoesOut(o: Outbound)
    requires o.running && o.inFlight.None? && |o.queue| == 1 && o.queue[0].payload != []
    ensures var trace := [Pop, Write(Ok(|o.queue[0].payload|)), Done];
            Runs(o, trace)
            && After(o, trace) == o.(queue := [], accepted := o.accepted + Marked(o.queue[0]))
  {
    var item, n := o.queue[0], |o.queue[0].payload|;
    var o1 := Step(o, Pop);
    var o2 := Step(o1, Write(Ok(n)));
    assert item.payload[..n] == item.payload && o2.inFlight.value.payload == [];
    OneMore(o2, Done, []);
    OneMore(o1, Write(Ok(n)), [Done] + []);
    OneMore(o, Pop, [Write(Ok(n))] + ([Done] + []));
    assert [Pop] + ([Write(Ok(n))] + ([Done] + [])) == [Pop, Write(Ok(n)), Done];
  }

  /** A close asked for on an idle socket that runs goes out, as a close frame. */
  lemma CloseGoesOut(o: Outbound, code: int, reason: seq<byte>)
    requires o.running && o.inFlight.None? && o.queue == [] && o.closer.None?
    ensures Enabled(o, TestClose(code, reason)) && Enabled(Step(o, TestClose(code, reason)), PushClose)
    ensures var pushed := Step(Step(o, TestClose(code, reason)), PushClose);
            var trace := [Pop, Write(Ok(|CloseBody(code, reason)|)), Done];
            Runs(pushed, trace)
            && After(pushed, trace).accepted == o.accepted + CloseAsked(code, reason)
            && After(pushed, trace).closer.None? && Enabled(After(pushed, trace), End)
  {
    var pushed := Step(Step(o, TestClose(code, reason)), PushClose);
    assert pushed.queue == [CloseItem(code, reason)];
    FirstGoesOut(pushed);
  }

  /** So does a message. */
  lemma MessageGoesOut(o: Outbound, data: seq<byte>, binary: bool)
    requires o.running && o.inFlight.None? && o.queue == [] && data != []
    ensures var tested := Step(o, TestSend(data, binary));
            Enabled(tested, PushSend(|o.senders|))
            && var pushed, trace := Step(tested, PushSend(|o.senders|)), [Pop, Write(Ok(|data|)), Done];
               Runs(pushed, trace)
               && After(pushed, trace).accepted == o.accepted + MessageAsked(data, binary)
               && After(pushed, trace).senders == o.senders
  {
    var pushed := Step(Step(o, TestSend(data, binary)), PushSend(|o.senders|));
    assert pushed.queue == [MessageItem(data, binary)] && pushed.senders == o.senders;
    FirstGoesOut(pushed);
  }

  // ----- messages

  predicate Sending(e: Event)
  {
    match e
    case Done => false
    case Write(answer) => answer.Ok?
    case _ => true
  }

  predicate AllSending(trace: seq<Event>)
  {
    trace == [] || (Sending(trace[0]) && AllSending(trace[1..]))
  }

  /** How often libcurl is called. */
  function Calls(trace: seq<Event>): nat
  {
    if trace == [] then 0 else Calls(trace[1..]) + if trace[0].Write? then 1 else 0
  }

  lemma SendingKeepsItem(o: Outbound, e: Event)
    requires Working(o) && o.inFlight.Some? && Enabled(o, e) && Sending(e)
    ensures var next := Step(o, e);
            next.inFlight.Some? && next.accepted + Marked(next.inFlight.value) == o.accepted + Marked(o.inFlight.value)
  {
    if e.Write? {
      var item := o.inFlight.value;
      var n := Clamp(e.answer.n, item.payload);
      MarkCut(item.payload, n, KindOf(item));
      Regroup(o.accepted, Mark(item.payload[..n], KindOf(item)), Mark(item.payload[n..], KindOf(item)), []);
    }
  }

  lemma {:induction false} RunKeepsItem(o: Outbound, trace: seq<Event>)
    requires Conserved(o) && o.inFlight.Some? && Runs(o, trace) && AllSending(trace)
    ensures var after := After(o, trace);
      && after.inFlight.Some?
      && after.accepted + Marked(after.inFlight.value) == o.accepted + Marked(o.inFlight.value)
      && (o.inFlight.value.payload == [] ==> Calls(trace) == 0)
      && (Calls(trace) == 0 ==> after.inFlight == o.inFlight)
    decreases |trace|
  {
    if trace != [] {
      SendingKeepsItem(o, trace[0]);
      StepKeeps(o, trace[0]);
      RunKeepsItem(Step(o, trace[0]), trace[1..]);
    }
  }

  /** However callers interleave, an item that the worker finishes has been taken whole by libcurl,
      and libcurl is never called for it exactly when it is empty: octets are conserved, empty
      messages vanish. */
  lemma FinishedUnsentIff(o: Outbound, trace: seq<Event>)
    requires Conserved(o) && Enabled(o, Pop) && Runs(Step(o, Pop), trace) && AllSending(trace)
    requires Enabled(After(Step(o, Pop), trace), Done)
    ensures After(Step(o, Pop), trace).accepted == o.accepted + Marked(o.queue[0])
    ensures Calls(trace) == 0 <==> o.queue[0].payload == []
  {
    StepKeeps(o, Pop);
    RunKeepsItem(Step(o, Pop), trace);
    var after := After(Step(o, Pop), trace);
    assert after.accepted + [] == after.accepted;
  }

  // ----- termination of the send loop

  /** What is left of the payload when the answers up to `at` have been used, or None once the loop of
      sendDirect has ended. `answers` are libcurl's answers in order, of which the loop uses those from
      `first` on. */
  function Looping(answers: nat -> Answer, first: nat, payload: seq<byte>, at: nat): (r: Option<seq<byte>>)
    requires first <= at
    ensures r.Some? ==> r.value != []
    decreases at
  {
    if at == first then (if payload == [] then None else Some(payload))
    else
      match Looping(answers, first, payload, at - 1)
      case None => None
      case Some(p) => Round(answers(at - 1), p)
  }

  /** One round: libcurl takes something, and the loop goes on if the answer is fine and more is left. */
  function Round(answer: Answer, payload: seq<byte>): (r: Option<seq<byte>>)
    ensures r.Some? ==> r.value != []
  {
    var rest := payload[Clamp(answer.n, payload)..];
    if !answer.Ok? || rest == [] then None else Some(rest)
  }

  /** From some answer on, every one is "fine, nothing taken". */
  ghost predicate Stalled(answers: nat -> Answer, from: nat)
  {
    forall j: nat :: from <= j ==> answers(j) == Ok(0)
  }

  ghost predicate Ends(answers: nat -> Answer, first: nat, payload: seq<byte>)
  {
    exists at: nat :: first <= at && Looping(answers, first, payload, at).None?
  }

  ghost predicate Starves(answers: nat -> Answer, first: nat, payload: seq<byte>)
  {
    exists at: nat :: first <= at && Looping(answers, first, payload, at).Some? && Stalled(answers, at)
  }

  /** The loop ends unless, from some round on, every answer is "fine, nothing taken". */
  lemma SendLoopEndsIff(answers: nat -> Answer, first: nat, payload: seq<byte>)
    ensures Ends(answers, first, payload) <==> !Starves(answers, first, payload)
  {
    if Starves(answers, first, payload) {
      var i: nat :| first <= i && Looping(answers, first, payload, i).Some? && Stalled(answers, i);
      forall at: nat | first <= at
        ensures Looping(answers, first, payload, at).Some?
      {
        if at <= i {
          StillLooping(answers, first, payload, at, i);
        } else {
          StalledLoops(answers, first, payload, i, at);
        }
      }
    } else if !Ends(answers, first, payload) {
      forall at: nat | first <= at
        ensures Looping(answers, first, payload, at).Some?
      {
        assert !Looping(answers, first, payload, at).None?;
      }
      var i := FindStall(answers, first, payload, first);
    }
  }

  lemma {:induction false} StillLooping(answers: nat -> Answer, first: nat, payload: seq<byte>, at: nat, later: nat)
    requires first <= at <= later && Looping(answers, first, payload, later).Some?
    ensures Looping(answers, first, payload, at).Some?
    decreases later - at
  {
    if at < later {
      StillLooping(answers, first, payload, at + 1, later);
    }
  }

  lemma {:induction false} StalledLoops(answers: nat -> Answer, first: nat, payload: seq<byte>, i: nat, at: nat)
    requires first <= i <= at && Looping(answers, first, payload, i).Some? && Stalled(answers, i)
    ensures Looping(answers, first, payload, at) == Looping(answers, first, payload, i)
    decreases at
  {
    if i < at {
      StalledLoops(answers, first, payload, i, at - 1);
      var p := Looping(answers, first, payload, at - 1).value;
      assert answers(at - 1) == Ok(0) && p[0..] == p;
      assert Round(Ok(0), p) == Some(p);
    }
  }

  /** A loop that never ends takes octets only finitely often. */
  lemma FindStall(answers: nat -> Answer, first: nat, payload: seq<byte>, from: nat) returns (i: nat)
    requires first <= from && forall at: nat :: first <= at ==> Looping(answers, first, payload, at).Some?
    ensures from <= i && Stalled(answers, i)
    decreases |Looping(answers, first, payload, from).value|
  {
    if Stalled(answers, from) {
      return from;
    }
    var j: nat :| from <= j && answers(j) != Ok(0);
    ShrinkingLoop(answers, first, payload, from, j);
    assert Looping(answers, first, payload, j + 1).Some?;
    i := FindStall(answers, first, payload, j + 1);
  }

  lemma {:induction false} ShrinkingLoop(answers: nat -> Answer, first: nat, payload: seq<byte>, from: nat, j: nat)
    requires first <= from <= j && forall at: nat :: first <= at ==> Looping(answers, first, payload, at).Some?
    ensures |Looping(answers, first, payload, j).value| <= |Looping(answers, first, payload, from).value|
    ensures answers(j).Ok?
    decreases j
  {
    assert Looping(answers, first, payload, j + 1).Some?;
    if from < j {
      ShrinkingLoop(answers, first, payload, from, j - 1);
    }
  }

  /** The loop ends when exactly the answers up to `next` have been used. */
  predicate EndsAt(answers: nat -> Answer, first: nat, payload: seq<byte>, next: nat)
    requires first <= next
  {
    Looping(answers, first, payload, next).None?
    && (next == first || Looping(answers, first, payload, next - 1).Some?)
  }

  lemma {:induction false} EndsAtSome(answers: nat -> Answer, first: nat, payload: seq<byte>, last: nat)
      returns (next: nat)
    requires first <= last && Looping(answers, first, payload, last).None?
    ensures first <= next && EndsAt(answers, first, payload, next)
    decreases last
  {
    if last == first || Looping(answers, first, payload, last - 1).Some? {
      next := last;
    } else {
      next := EndsAtSome(answers, first, payload, last - 1);
    }
  }

  lemma EndsAtOnce(answers: nat -> Answer, first: nat, payload: seq<byte>, n: nat, m: nat)
    requires first <= n && first <= m
    requires EndsAt(answers, first, payload, n) && EndsAt(answers, first, payload, m)
    ensures n == m
  {
    if n < m {
      StillLooping(answers, first, payload, n, m - 1);
    } else if m < n {
      StillLooping(answers, first, payload, m, n - 1);
    }
  }

  /** The last answer, if one was used, was fine. */
  predicate TakenWhole(answers: nat -> Answer, first: nat, next: nat)
  {
    next <= first || answers(next - 1).Ok?
  }

  /** What a round that does not end the loop, and one that does, come to. */
  lemma NextRound(answers: nat -> Answer, first: nat, whole: seq<byte>, at: nat, payload: seq<byte>, last: nat)
    requires first <= at && Looping(answers, first, whole, at) == Some(payload)
    requires first <= last && Looping(answers, first, whole, last).None?
    ensures at < last
    ensures var left := payload[Clamp(answers(at).n, payload)..];
            if answers(at).Ok? && left != [] then Looping(answers, first, whole, at + 1) == Some(left)
            else EndsAt(answers, first, whole, at + 1)
  {
    if last <= at {
      StillLooping(answers, first, whole, last, at);
    }
    assert Looping(answers, first, whole, at + 1) == Round(answers(at), payload);
  }

  /** What the answers from `first` up to `next` leave of a payload: each takes what it says it took. */
  function LeftAfter(answers: nat -> Answer, first: nat, payload: seq<byte>, next: nat): (rest: seq<byte>)
    requires first <= next
    decreases next
  {
    if next == first then payload
    else
      var before := LeftAfter(answers, first, payload, next - 1);
      before[Clamp(answers(next - 1).n, before)..]
  }

  lemma {:induction false} LeftIsSuffix(answers: nat -> Answer, first: nat, payload: seq<byte>, next: nat)
      returns (gone: nat)
    requires first <= next
    ensures gone <= |payload| && LeftAfter(answers, first, payload, next) == payload[gone..]
    decreases next
  {
    if next == first {
      gone := 0;
    } else {
      gone := LeftIsSuffix(answers, first, payload, next - 1);
      var n := Clamp(answers(next - 1).n, payload[gone..]);
      assert payload[gone..][n..] == payload[gone + n..];
      gone := gone + n;
    }
  }

  predicate IsSuffix(payload: seq<byte>, whole: seq<byte>)
  {
    |payload| <= |whole| && payload == whole[|whole| - |payload|..]
  }

  /** The loop has ended with the answers up to `next`: what they did not take is left, the item is sent if the
      last of them was fine, and the connection is to be torn down if it was a failure not to be retried. */
  predicate SendEnded(answers: nat -> Answer, first: nat, whole: seq<byte>, next: nat,
                      left: seq<byte>, sent: bool, fatal: bool)
    requires first <= next
  {
    && EndsAt(answers, first, whole, next) && left == LeftAfter(answers, first, whole, next)
    && (sent <==> TakenWhole(answers, first, next)) && (sent ==> left == [] && !fatal)
    && (fatal <==> !sent && answers(next - 1).Fatal?)
  }

  /** The loop of sendDirect has come to `next` with `payload` left and no failure. */
  predicate InLoop(answers: nat -> Answer, first: nat, whole: seq<byte>, next: nat, payload: seq<byte>)
    requires first <= next
  {
    TakenWhole(answers, first, next) && payload == LeftAfter(answers, first, whole, next)
    && if payload == [] then EndsAt(answers, first, whole, next)
       else Looping(answers, first, whole, next) == Some(payload)
  }

  lemma LoopRound(answers: nat -> Answer, first: nat, whole: seq<byte>, next: nat, payload: seq<byte>, last: nat)
    requires first <= next && payload != [] && InLoop(answers, first, whole, next, payload)
    requires first <= last && Looping(answers, first, whole, last).None?
    ensures next < last
    ensures var rest := payload[Clamp(answers(next).n, payload)..];
      && rest == LeftAfter(answers, first, whole, next + 1)
      && if answers(next).Ok? then InLoop(answers, first, whole, next + 1, rest)
         else EndsAt(answers, first, whole, next + 1)
  {
    NextRound(answers, first, whole, next, payload, last);
  }

  /** The loop of sendDirect. It need not end, and ends exactly when libcurl does not, from some round on,
      answer "fine, nothing taken". */
  method SendLoop(whole: seq<byte>, answers: nat -> Answer, first: nat)
      returns (payload: seq<byte>, sent: bool, fatal: bool, next: nat)
    requires Ends(answers, first, whole)
    ensures first <= next && SendEnded(answers, first, whole, next, payload, sent, fatal)
  {
    payload, sent, fatal, next := whole, false, false, first;
    ghost var last: nat :| first <= last && Looping(answers, first, whole, last).None?;
    while payload != []
      invariant first <= next && InLoop(answers, first, whole, next, payload) && !fatal && !sent
      decreases last - next
    {
      LoopRound(answers, first, whole, next, payload, last);
      var answer := answers(next);
      payload, next := payload[Clamp(answer.n, payload)..], next + 1;
      if !answer.Ok? {
        fatal := answer.Fatal?;
        return;
      }
    }
    sent := true;
  }

  /** A flush ends: the loop of every item that it comes to does. */
  ghost predicate FlushEnds(answers: nat -> Answer, first: nat, queue: seq<SendItem>)
    decreases |queue|
  {
    queue == [] || exists next: nat :: first <= next && ItemEnds(answers, first, queue, next)
  }

  ghost predicate ItemEnds(answers: nat -> Answer, first: nat, queue: seq<SendItem>, next: nat)
    requires queue != [] && first <= next
    decreases |queue|, 0
  {
    EndsAt(answers, first, queue[0].payload, next)
    && (TakenWhole(answers, first, next) ==> FlushEnds(answers, next, queue[1..]))
  }

  /** It comes to an item at which libcurl answers "fine, nothing taken" for ever. */
  ghost predicate FlushStarves(answers: nat -> Answer, first: nat, queue: seq<SendItem>)
    decreases |queue|
  {
    queue != []
    && (Starves(answers, first, queue[0].payload)
        || exists next: nat :: first <= next && StarvesLater(answers, first, queue, next))
  }

  ghost predicate StarvesLater(answers: nat -> Answer, first: nat, queue: seq<SendItem>, next: nat)
    requires queue != [] && first <= next
    decreases |queue|, 0
  {
    EndsAt(answers, first, queue[0].payload, next) && TakenWhole(answers, first, next)
    && FlushStarves(answers, next, queue[1..])
  }

  /** What a flush with these answers leaves of the queue: items go, each as far as the answers take it, until
      one does not go whole. */
  ghost predicate Flushed(answers: nat -> Answer, first: nat, before: seq<SendItem>, after: seq<SendItem>)
    decreases |before|
  {
    if before == [] then after == []
    else exists next: nat :: first <= next && ItemFlushed(answers, first, before, after, next)
  }

  ghost predicate ItemFlushed(answers: nat -> Answer, first: nat, before: seq<SendItem>, after: seq<SendItem>,
                              next: nat)
    requires before != [] && first <= next
    decreases |before|, 0
  {
    EndsAt(answers, first, before[0].payload, next)
    && if TakenWhole(answers, first, next) then Flushed(answers, next, before[1..], after)
       else after == [before[0].(payload := LeftAfter(answers, first, before[0].payload, next))] + before[1..]
  }

  /** Nothing of the queue that stays is left to chance. */
  lemma {:induction false} FlushedOnce(answers: nat -> Answer, first: nat, before: seq<SendItem>,
                                       a: seq<SendItem>, b: seq<SendItem>)
    requires Flushed(answers, first, before, a) && Flushed(answers, first, before, b)
    ensures a == b
    decreases |before|
  {
    if before != [] {
      var n: nat :| first <= n && ItemFlushed(answers, first, before, a, n);
      var m: nat :| first <= m && ItemFlushed(answers, first, before, b, m);
      EndsAtOnce(answers, first, before[0].payload, n, m);
      if TakenWhole(answers, first, n) {
        FlushedOnce(answers, n, before[1..], a, b);
      }
    }
  }

  lemma FlushEndsNext(answers: nat -> Answer, first: nat, queue: seq<SendItem>)
    requires queue != [] && FlushEnds(answers, first, queue)
    ensures Ends(answers, first, queue[0].payload)
    ensures forall next: nat :: first <= next && EndsAt(answers, first, queue[0].payload, next) ==>
              TakenWhole(answers, first, next) ==> FlushEnds(answers, next, queue[1..])
  {
    var n: nat :| first <= n && ItemEnds(answers, first, queue, n);
    assert Looping(answers, first, queue[0].payload, n).None?;
    forall next: nat | first <= next && EndsAt(answers, first, queue[0].payload, next)
      ensures next == n
    {
      EndsAtOnce(answers, first, queue[0].payload, n, next);
    }
  }

  /** A flush does not end exactly when it comes to such an item. */
  lemma {:induction false} FlushEndsIff(answers: nat -> Answer, first: nat, queue: seq<SendItem>)
    ensures FlushEnds(answers, first, queue) <==> !FlushStarves(answers, first, queue)
    decreases |queue|
  {
    if queue != [] {
      SendLoopEndsIff(answers, first, queue[0].payload);
      if Ends(answers, first, queue[0].payload) {
        var last: nat :| first <= last && Looping(answers, first, queue[0].payload, last).None?;
        var n := EndsAtSome(answers, first, queue[0].payload, last);
        FlushEndsIff(answers, n, queue[1..]);
        forall m: nat | first <= m && EndsAt(answers, first, queue[0].payload, m)
          ensures m == n
        {
          EndsAtOnce(answers, first, queue[0].payload, n, m);
        }
        assert ItemEnds(answers, first, queue, n) <==> !StarvesLater(answers, first, queue, n);
      } else {
        forall n: nat | first <= n
          ensures !ItemEnds(answers, first, queue, n)
        {
          assert !Looping(answers, first, queue[0].payload, n).None?;
        }
      }
    }
  }

  /** What a send leaves of the first item goes back in front, or, if nothing is left, does not. */
  lemma SentKeeps(o: Outbound, k: nat, rest: SendItem, left: seq<SendItem>, abort: bool)
    requires Conserved(o) && o.running && o.inFlight.None? && o.queue != []
    requires k <= |o.queue[0].payload| && rest == o.queue[0].(payload := o.queue[0].payload[k..])
    requires left == [rest] + o.queue[1..] || (rest.payload == [] && left == o.queue[1..])
    ensures var taken := Mark(o.queue[0].payload[..k], KindOf(o.queue[0]));
            Conserved(o.(queue := left, abort := abort, accepted := o.accepted + taken))
  {
    var others := QueueOctets(o.queue[1..]);
    assert QueueOctets(left) == Marked(rest) + others by {
      if left == [rest] + o.queue[1..] {
        assert left[1..] == o.queue[1..];
      } else {
        assert Marked(rest) == [] && [] + others == others;
      }
    }
    HandedOver(o.queue[0], k, others);
    Regroup(o.past, o.accepted, Mark(o.queue[0].payload[..k], KindOf(o.queue[0])), Marked(rest) + others);
  }

  // ----- the socket object

  /** The queue after a flush: empty, or cut short inside or before one item. */
  predicate FlushedTo(before: seq<SendItem>, after: seq<SendItem>)
  {
    after == []
    || exists k :: 0 <= k < |before| && CutAt(before, after, k)
  }

  predicate CutAt(before: seq<SendItem>, after: seq<SendItem>, k: nat)
    requires k < |before|
  {
    && |after| == |before| - k && after[1..] == before[k + 1..]
    && after[0].binary == before[k].binary && after[0].closeFrame == before[k].closeFrame
    && IsSuffix(after[0].payload, before[k].payload)
  }

  lemma CutInFront(before: seq<SendItem>, k: nat, after: seq<SendItem>)
    requires before != [] && k <= |before[0].payload|
    requires after == [before[0].(payload := before[0].payload[k..])] + before[1..]
    ensures CutAt(before, after, 0)
  {
  }

  lemma CutInside(before: seq<SendItem>, k: nat, after: seq<SendItem>)
    requires k < |before| && CutAt(before[k..], after, 0)
    ensures CutAt(before, after, k)
  {
    assert before[k..][0] == before[k] && before[k..][1..] == before[k + 1..];
  }

  lemma CutExactly(before: seq<SendItem>, after: seq<SendItem>, rest: seq<byte>)
    requires before != [] && CutAt(before, after, 0) && after[0].payload == rest
    ensures after == [before[0].(payload := rest)] + before[1..]
  {
  }

  class SendQueue {
    var running: bool
    var joined: bool
    var openNotified: bool
    var abort: bool
    var sendq: seq<SendItem>
    ghost var connection: nat
    ghost var senders: seq<Sender>
    ghost var closer: Option<Sender>
    ghost var accepted: seq<Octet>
    ghost var discarded: seq<Octet>
    ghost var past: seq<Octet>
    ghost var enqueued: seq<Octet>

    ghost function Abs(inFlight: Option<SendItem>): Outbound
      reads this
    {
      Outbound(running, joined, connection, sendq, inFlight, senders, closer, abort,
               accepted, discarded, past, enqueued)
    }

    ghost predicate Valid()
      reads this
    {
      Conserved(Abs(None))
    }

    constructor ()
      ensures Valid() && Abs(None) == FRESH && !openNotified
    {
      running, joined, openNotified, abort, sendq := false, true, false, false, [];
      connection, senders, closer := 0, [], None;
      accepted, discarded, past, enqueued := [], [], [], [];
    }

    method Open()
      requires Valid() && joined && !running
      modifies this
      ensures Valid() && Abs(None) == Step(old(Abs(None)), Event.Open) && !openNotified
    {
      StepKeeps(Abs(None), Event.Open);
      past, accepted, discarded := past + accepted + discarded, [], [];
      running, joined, connection, abort, openNotified := true, false, connection + 1, false, false;
    }

    /** WebSocket::send up to where it has tested that the socket runs. */
    method TestRunning(data: seq<byte>, binary: bool) returns (passed: bool)
      requires Valid()
      modifies this
      ensures Valid() && passed == running && Abs(None) == Step(old(Abs(None)), TestSend(data, binary))
    {
      StepKeeps(Abs(None), TestSend(data, binary));
      passed := running;
      if passed {
        senders := senders + [Sender(SendItem(data, binary, false), connection, MessageAsked(data, binary))];
      }
    }

    /** The rest of it, by a sender that has passed, whatever has happened since. */
    method PushItem(item: SendItem, ghost i: nat)
      requires Valid() && i < |senders| && senders[i].item == item
      modifies this
      ensures Valid() && Abs(None) == Step(old(Abs(None)), PushSend(i))
    {
      StepKeeps(Abs(None), PushSend(i));
      sendq := sendq + [item];
      enqueued := enqueued + senders[i].asked;
      senders := senders[..i] + senders[i + 1..];
    }

    /** Both with nothing in between. */
    method Send(data: seq<byte>, binary: bool) returns (ok: bool)
      requires Valid()
      modifies this
      ensures Valid() && ok == running && senders == old(senders)
      ensures sendq == if ok then old(sendq) + [SendItem(data, binary, false)] else old(sendq)
    {
      ok := TestRunning(data, binary);
      if ok {
        PushItem(SendItem(data, binary, false), |senders| - 1);
        assert senders == old(senders);
      }
    }

    /** requestClose up to its own test, under the lifecycle mutex. */
    method TestForClose(code: int, reason: seq<byte>) returns (passed: bool)
      requires Valid() && closer.None?
      modifies this
      ensures Valid() && passed == running && Abs(None) == Step(old(Abs(None)), TestClose(code, reason))
    {
      StepKeeps(Abs(None), TestClose(code, reason));
      passed := running;
      if passed {
        closer := Some(Sender(CloseItem(code, reason), connection, CloseAsked(code, reason)));
      }
    }

    method QueueCloseFrame(code: int, reason: seq<byte>)
      requires Valid() && closer.Some? && closer.value.item == CloseItem(code, reason)
      modifies this
      ensures Valid() && Abs(None) == Step(old(Abs(None)), PushClose)
    {
      StepKeeps(Abs(None), PushClose);
      var payload: seq<byte> := [(code / 256 % 256) as byte, (code % 256) as byte];
      if reason != [] {
        var n := if |reason| < MAX_REASON then |reason| else MAX_REASON;
        payload := payload + reason[..n];
        assert reason[..|reason|] == reason;
      }
      assert payload == CloseBody(code, reason);
      sendq := sendq + [SendItem(payload, false, true)];
      enqueued := enqueued + closer.value.asked;
      closer := None;
    }

    /** Sends as much of one item as libcurl takes. */
    method SendDirect(item: SendItem, answers: nat -> Answer, first: nat)
        returns (rest: SendItem, sent: bool, fatal: bool, next: nat, ghost k: nat)
      requires Ends(answers, first, item.payload)
      modifies this`accepted
      ensures k <= |item.payload| && rest == item.(payload := item.payload[k..])
      ensures accepted == old(accepted) + Mark(item.payload[..k], KindOf(item))
      ensures first <= next && SendEnded(answers, first, item.payload, next, rest.payload, sent, fatal)
    {
      var kind := if item.closeFrame then CloseFrame else if item.binary then BinaryFrame else TextFrame;
      var payload;
      payload, sent, fatal, next := SendLoop(item.payload, answers, first);
      k := LeftIsSuffix(answers, first, item.payload, next);
      rest := item.(payload := payload);
      accepted := accepted + Mark(item.payload[..k], kind);
    }

    /** Takes the first item, sends it, and puts back what libcurl did not take. */
    method SendFirst(answers: nat -> Answer, first: nat) returns (blocked: bool, next: nat, ghost k: nat)
      requires sendq != [] && Ends(answers, first, sendq[0].payload)
      modifies this`sendq, this`abort, this`accepted
      ensures var item := old(sendq)[0];
        && k <= |item.payload| && accepted == old(accepted) + Mark(item.payload[..k], KindOf(item))
        && first <= next && EndsAt(answers, first, item.payload, next)
        && item.payload[k..] == LeftAfter(answers, first, item.payload, next)
        && (blocked <==> !TakenWhole(answers, first, next))
        && sendq == (if blocked then [item.(payload := item.payload[k..])] + old(sendq)[1..] else old(sendq)[1..])
        && (!blocked ==> item.payload[k..] == [] && abort == old(abort))
        && (blocked ==> abort == (old(abort) || answers(next - 1).Fatal?))
    {
      var item := sendq[0];
      sendq := sendq[1..];
      var left, sent, fatal;
      left, sent, fatal, next, k := SendDirect(item, answers, first);
      blocked := !sent;
      if blocked {
        sendq := [left] + sendq;
        abort := abort || fatal;
      }
    }

    method FlushOne(answers: nat -> Answer, first: nat) returns (blocked: bool, next: nat)
      requires Valid() && running && sendq != [] && Ends(answers, first, sendq[0].payload)
      modifies this`sendq, this`abort, this`accepted
      ensures Valid()
      ensures first <= next && EndsAt(answers, first, old(sendq)[0].payload, next)
      ensures blocked <==> !TakenWhole(answers, first, next)
      ensures !blocked ==> sendq == old(sendq)[1..] && abort == old(abort)
      ensures blocked ==> CutAt(old(sendq), sendq, 0)
                          && sendq[0].payload == LeftAfter(answers, first, old(sendq)[0].payload, next)
      ensures blocked ==> abort == (old(abort) || answers(next - 1).Fatal?)
    {
      ghost var before := Abs(None);
      ghost var k;
      blocked, next, k := SendFirst(answers, first);
      ghost var item := old(sendq)[0];
      assert Valid() by {
        SentKeeps(before, k, item.(payload := item.payload[k..]), sendq, abort);
        assert Abs(None) == before.(queue := sendq, abort := abort, accepted := accepted);
      }
      if blocked {
        CutInFront(old(sendq), k, sendq);
      }
    }

    /** One flush with no caller in between; it need not end. */
    method FlushSendQueue(answers: nat -> Answer)
      requires Valid() && running && (openNotified ==> FlushEnds(answers, 0, sendq))
      modifies this`sendq, this`abort, this`accepted
      ensures Valid()
      ensures !openNotified ==> Abs(None) == old(Abs(None))
      ensures openNotified ==> FlushedTo(old(sendq), sendq) && Flushed(answers, 0, old(sendq), sendq)
      ensures abort && !old(abort) ==> exists i: nat :: answers(i).Fatal?
    {
      if !openNotified {
        return;
      }
      var next, k := 0, 0;
      while sendq != []
        invariant Valid() && running
        invariant k <= |old(sendq)| && sendq == old(sendq)[k..]
        invariant abort == old(abort) && FlushEnds(answers, next, sendq)
        invariant forall after :: Flushed(answers, next, sendq, after) ==> Flushed(answers, 0, old(sendq), after)
        decreases |sendq|
      {
        ghost var queue, first := sendq, next;
        FlushEndsNext(answers, first, queue);
        var blocked;
        blocked, next := FlushOne(answers, next);
        if blocked {
          CutInside(old(sendq), k, sendq);
          assert ItemFlushed(answers, first, queue, sendq, next) by {
            CutExactly(queue, sendq, LeftAfter(answers, first, queue[0].payload, next));
          }
          assert Flushed(answers, first, queue, sendq);
          return;
        }
        forall after | Flushed(answers, next, sendq, after)
          ensures Flushed(answers, first, queue, after)
        {
          assert ItemFlushed(answers, first, queue, after, next);
        }
        k := k + 1;
      }
    }

    /** The worker is done. */
    method WorkerEnds()
      requires Valid() && running
      modifies this`running
      ensures Valid() && Abs(None) == Step(old(Abs(None)), End)
    {
      StepKeeps(Abs(None), End);
      running := false;
    }

    /** close(), once the worker is joined: whatever is queued is thrown away. */
    method Clear()
      requires Valid() && !running && closer.None?
      modifies this
      ensures Valid() && Abs(None) == Step(old(Abs(None)), Event.Clear)
    {
      StepKeeps(Abs(None), Event.Clear);
      discarded := discarded + QueueOctets(sendq);
      joined := true;
      sendq := [];
      running := false;
    }
  }
}
