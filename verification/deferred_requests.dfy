/**
 Requests that could not be sent, in Signal.cpp: kept packed, and sent again by a flush. Any thread
 may submit, and flushes may overlap; one step is one send, one swap or one clear. Pings and leave
 requests, which are not kept, take their ids from the same counter. Packing and unpacking are taken to
 be inverse.
 */
module DeferredRequests {
  import opened Bytes
  import opened Options

  const TWO32: nat := 0x1_0000_0000

  /** `ticket` tells submissions apart; the code has no such field. */
  datatype Request = Request(ticket: nat, id: nat, body: string)

  datatype Requests = Requests(
    msgId: nat,
    pending: seq<Request>,
    // what each flush still has to send
    flights: seq<seq<Request>>,
    sent: seq<Request>,
    cleared: seq<Request>,
    // the id each submission was first given
    firstIds: seq<nat>)

  datatype Event =
    | Submit(id: nat, body: string, ok: bool)
    | FlushBegin
    | FlushNext(flight: nat, ok: bool)
    | TakeId
    | Disconnect

  const NONE := Requests(1, [], [], [], [], [])

  function Numbered(msgId: nat, r: Request): Request
  {
    if r.id == 0 then r.(id := msgId) else r
  }

  function NextId(msgId: nat, r: Request): nat
  {
    if r.id == 0 then (msgId + 1) % TWO32 else msgId
  }

  /** sendRequest, then keeping what could not be sent. */
  function Tried(b: Requests, r: Request, ok: bool): Requests
  {
    var n := Numbered(b.msgId, r);
    var numbered := b.(msgId := NextId(b.msgId, r));
    if ok then numbered.(sent := b.sent + [n]) else numbered.(pending := b.pending + [n])
  }

  predicate Enabled(b: Requests, e: Event)
  {
    match e
    case Submit(id, _, _) => id < TWO32
    case FlushNext(f, _) => f < |b.flights| && b.flights[f] != []
    case _ => true
  }

  function Step(b: Requests, e: Event): Requests
    requires Enabled(b, e)
  {
    match e
    case Submit(id, body, ok) =>
      var r := Request(|b.firstIds|, id, body);
      Tried(b, r, ok).(firstIds := b.firstIds + [Numbered(b.msgId, r).id])
    case FlushBegin => b.(pending := [], flights := b.flights + [b.pending])
    case FlushNext(f, ok) =>
      Tried(b, b.flights[f][0], ok).(flights := b.flights[f := b.flights[f][1..]])
    case TakeId => b.(msgId := (b.msgId + 1) % TWO32)
    case Disconnect => b.(pending := [], cleared := b.cleared + b.pending)
  }

  predicate Runs(b: Requests, trace: seq<Event>)
    decreases |trace|
  {
    trace == [] || (Enabled(b, trace[0]) && Runs(Step(b, trace[0]), trace[1..]))
  }

  function After(b: Requests, trace: seq<Event>): Requests
    requires Runs(b, trace)
    decreases |trace|
  {
    if trace == [] then b else After(Step(b, trace[0]), trace[1..])
  }

  /** What is before, in and after one flight. */
  lemma FlightAt(flights: seq<seq<Request>>, f: nat, flight: seq<Request>)
    requires f < |flights|
    ensures Flatten(flights[f := flight]) == Flatten(flights[..f]) + flight + Flatten(flights[f + 1..])
  {
    var updated := flights[f := flight];
    assert updated == flights[..f] + ([flight] + flights[f + 1..]);
    FlattenAppend(flights[..f], [flight] + flights[f + 1..]);
    assert ([flight] + flights[f + 1..])[1..] == flights[f + 1..];
  }

  // ----- nothing is lost or sent twice

  function Tickets(rs: seq<Request>): multiset<nat>
  {
    if rs == [] then multiset{} else multiset{rs[0].ticket} + Tickets(rs[1..])
  }

  lemma {:induction false} TicketsAppend(a: seq<Request>, b: seq<Request>)
    ensures Tickets(a + b) == Tickets(a) + Tickets(b)
    decreases |a|
  {
    if a == [] {
      assert a + b == b;
    } else {
      assert (a + b)[1..] == a[1..] + b;
      TicketsAppend(a[1..], b);
    }
  }

  function AllTickets(b: Requests): multiset<nat>
  {
    Tickets(b.pending) + Tickets(Flatten(b.flights)) + Tickets(b.sent) + Tickets(b.cleared)
  }

  ghost predicate Once(m: multiset<nat>, n: nat)
  {
    forall t: nat :: m[t] == if t < n then 1 else 0
  }

  /** Every submission so far is in exactly one place, once. */
  ghost predicate Conserved(b: Requests)
  {
    Once(AllTickets(b), |b.firstIds|)
  }

  lemma OnceMore(m: multiset<nat>, n: nat, after: multiset<nat>)
    requires Once(m, n) && after == m + multiset{n}
    ensures Once(after, n + 1)
  {
  }

  lemma FlightTickets(flights: seq<seq<Request>>, f: nat)
    requires f < |flights| && flights[f] != []
    ensures Tickets(Flatten(flights))
         == Tickets(Flatten(flights[f := flights[f][1..]])) + multiset{flights[f][0].ticket}
  {
    var before, after := Flatten(flights[..f]), Flatten(flights[f + 1..]);
    assert flights[f := flights[f]] == flights;
    FlightAt(flights, f, flights[f]);
    FlightAt(flights, f, flights[f][1..]);
    TicketsAppend(before + flights[f], after);
    TicketsAppend(before, flights[f]);
    TicketsAppend(before + flights[f][1..], after);
    TicketsAppend(before, flights[f][1..]);
  }

  lemma TriedTickets(b: Requests, r: Request, ok: bool)
    ensures AllTickets(Tried(b, r, ok)) == AllTickets(b) + multiset{r.ticket}
  {
    var n := Numbered(b.msgId, r);
    assert Tickets([n]) == multiset{r.ticket} by { assert [n][1..] == []; }
    TicketsAppend(b.sent, [n]);
    TicketsAppend(b.pending, [n]);
  }

  lemma BeginTickets(b: Requests)
    ensures AllTickets(Step(b, FlushBegin)) == AllTickets(b)
  {
    FlattenAppend(b.flights, [b.pending]);
    assert Flatten([b.pending]) == b.pending by { assert [b.pending][1..] == []; }
    TicketsAppend(Flatten(b.flights), b.pending);
  }

  lemma NextTickets(b: Requests, f: nat, ok: bool)
    requires Enabled(b, FlushNext(f, ok))
    ensures AllTickets(Step(b, FlushNext(f, ok))) == AllTickets(b)
  {
    FlightTickets(b.flights, f);
    var rest := b.(flights := b.flights[f := b.flights[f][1..]]);
    TriedTickets(rest, b.flights[f][0], ok);
    assert Step(b, FlushNext(f, ok)) == Tried(rest, b.flights[f][0], ok);
  }

  /** A submission adds one request; no other step adds or loses any. */
  lemma StepTickets(b: Requests, e: Event)
    requires Enabled(b, e)
    ensures !e.Submit? ==> AllTickets(Step(b, e)) == AllTickets(b) && Step(b, e).firstIds == b.firstIds
    ensures e.Submit? ==>
      AllTickets(Step(b, e)) == AllTickets(b) + multiset{|b.firstIds|} && |Step(b, e).firstIds| == |b.firstIds| + 1
  {
    match e
    case Submit(id, body, ok) => TriedTickets(b, Request(|b.firstIds|, id, body), ok);
    case FlushBegin => BeginTickets(b);
    case FlushNext(f, ok) => NextTickets(b, f, ok);
    case TakeId =>
    case Disconnect => TicketsAppend(b.cleared, b.pending);
  }

  lemma StepConserves(b: Requests, e: Event)
    requires Conserved(b) && Enabled(b, e)
    ensures Conserved(Step(b, e))
  {
    StepTickets(b, e);
    var before, after := AllTickets(b), AllTickets(Step(b, e));
    if e.Submit? {
      OnceMore(before, |b.firstIds|, after);
    }
  }

  // ----- ids

  /** A request carries the id it was first given, unless that id was zero. */
  ghost predicate KeepsIds(b: Requests, rs: seq<Request>)
  {
    forall i :: 0 <= i < |rs| ==>
      rs[i].ticket < |b.firstIds| && (rs[i].id == b.firstIds[rs[i].ticket] || b.firstIds[rs[i].ticket] == 0)
  }

  ghost predicate IdsKept(b: Requests)
  {
    && KeepsIds(b, b.pending) && KeepsIds(b, b.sent) && KeepsIds(b, b.cleared)
    && (forall f :: 0 <= f < |b.flights| ==> KeepsIds(b, b.flights[f]))
  }

  lemma StepKeepsIds(b: Requests, e: Event)
    requires IdsKept(b) && Enabled(b, e)
    ensures IdsKept(Step(b, e))
  {
    if e.FlushNext? {
      assert KeepsIds(b, b.flights[e.flight]);
    }
  }

  /** Over any submissions, failures, overlapping flushes and disconnects. */
  lemma {:induction false} EveryRunKeeps(b: Requests, trace: seq<Event>)
    requires Conserved(b) && IdsKept(b) && Runs(b, trace)
    ensures Conserved(After(b, trace)) && IdsKept(After(b, trace))
    decreases |trace|
  {
    if trace != [] {
      StepConserves(b, trace[0]);
      StepKeepsIds(b, trace[0]);
      EveryRunKeeps(Step(b, trace[0]), trace[1..]);
    }
  }

  lemma {:induction false} TicketsCount(rs: seq<Request>, i: nat, j: nat)
    requires i < |rs| && j < |rs| && (Tickets(rs)[rs[i].ticket] <= 1 || i == j)
    ensures Tickets(rs)[rs[i].ticket] >= 1
    ensures rs[i].ticket == rs[j].ticket ==> i == j
    decreases |rs|
  {
    if i == 0 && j > 0 {
      TicketsCount(rs[1..], j - 1, j - 1);
    } else if i > 0 && j == 0 {
      TicketsCount(rs[1..], i - 1, i - 1);
    } else if i > 0 {
      TicketsCount(rs[1..], i - 1, j - 1);
    }
  }

  /** A request that has been sent was sent once, with the id it was first given when that is not
      zero, and is waiting nowhere. */
  lemma SentOnceWithItsId(trace: seq<Event>, i: nat)
    requires Runs(NONE, trace) && i < |After(NONE, trace).sent|
    ensures var b := After(NONE, trace);
            var t := b.sent[i].ticket;
      && t < |b.firstIds| && (b.firstIds[t] != 0 ==> b.sent[i].id == b.firstIds[t])
      && (forall j :: 0 <= j < |b.sent| && b.sent[j].ticket == t ==> j == i)
      && (forall j :: 0 <= j < |b.pending| ==> b.pending[j].ticket != t)
      && (forall j :: 0 <= j < |Flatten(b.flights)| ==> Flatten(b.flights)[j].ticket != t)
  {
    EveryRunKeeps(NONE, trace);
    var b := After(NONE, trace);
    var t := b.sent[i].ticket;
    assert AllTickets(b)[t] <= 1;
    assert Tickets(b.sent)[t] <= 1;
    TicketsCount(b.sent, i, i);
    forall j | 0 <= j < |b.sent| && b.sent[j].ticket == t
      ensures j == i
    {
      TicketsCount(b.sent, i, j);
    }
    forall j | 0 <= j < |b.pending|
      ensures b.pending[j].ticket != t
    {
      TicketsCount(b.pending, j, j);
    }
    forall j | 0 <= j < |Flatten(b.flights)|
      ensures Flatten(b.flights)[j].ticket != t
    {
      TicketsCount(Flatten(b.flights), j, j);
    }
  }

  /** The id counter hands out zero only when it wraps. A request numbered zero is numbered again by
      every resend; any other keeps its number. */
  lemma ResendKeepsIdIff(b: Requests, f: nat, ok: bool)
    requires Enabled(b, FlushNext(f, ok)) && b.msgId != 0
    ensures var x := b.flights[f][0];
            var after := Step(b, FlushNext(f, ok));
            var where := if ok then after.sent else after.pending;
            where[|where| - 1].ticket == x.ticket && (where[|where| - 1].id == x.id <==> x.id != 0)
  {
  }

  // ----- ids differ

  /** An id taken from the counter, and by which submission, if it is that submission's first. */
  datatype Numbering = Numbering(ticket: Option<nat>, id: nat)

  /** The id that a step takes from the counter, read off what it leaves: a submission and a resend of a
      request that is still numbered zero, a ping and a leave request each take one. */
  function Numberings(b: Requests, e: Event): seq<Numbering>
    requires Enabled(b, e)
  {
    var after := Step(b, e);
    match e
    case Submit(0, _, _) => [Numbering(Some(|b.firstIds|), after.firstIds[|b.firstIds|])]
    case FlushNext(f, ok) =>
      if b.flights[f][0].id != 0 then []
      else [Numbering(None, if ok then after.sent[|b.sent|].id else after.pending[|b.pending|].id)]
    case TakeId => [Numbering(None, b.msgId)]
    case _ => []
  }

  function AllNumberings(b: Requests, trace: seq<Event>): seq<Numbering>
    requires Runs(b, trace)
    decreases |trace|
  {
    if trace == [] then [] else Numberings(b, trace[0]) + AllNumberings(Step(b, trace[0]), trace[1..])
  }

  lemma CountOn(c: nat, k: nat)
    ensures ((c + 1) % TWO32 + k) % TWO32 == (c + (k + 1)) % TWO32
  {
    var q := (c + 1) / TWO32;
    assert c + 1 == TWO32 * q + (c + 1) % TWO32;
    SameRemainder((c + 1) % TWO32 + k, c + (k + 1), q);
  }

  lemma SameRemainder(x: nat, y: nat, q: nat)
    requires y == x + TWO32 * q
    ensures x % TWO32 == y % TWO32
  {
    assert y / TWO32 == x / TWO32 + q;
  }

  lemma StepNumbers(b: Requests, e: Event)
    requires Enabled(b, e) && b.msgId < TWO32
    ensures Step(b, e).msgId == (b.msgId + |Numberings(b, e)|) % TWO32 && |Numberings(b, e)| <= 1
    ensures Numberings(b, e) != [] ==> Numberings(b, e)[0].id == b.msgId
    ensures b.firstIds <= Step(b, e).firstIds
  {
  }

  lemma {:induction false} FirstIdsStay(b: Requests, trace: seq<Event>)
    requires Runs(b, trace)
    ensures b.firstIds <= After(b, trace).firstIds
    decreases |trace|
  {
    if trace != [] {
      FirstIdsStay(Step(b, trace[0]), trace[1..]);
    }
  }

  lemma {:induction false} TicketsNumbered(b: Requests, trace: seq<Event>, k: nat)
    requires Runs(b, trace) && k < |AllNumberings(b, trace)|
    ensures var n, ids := AllNumberings(b, trace)[k], After(b, trace).firstIds;
            n.ticket.Some? ==> n.ticket.value < |ids| && ids[n.ticket.value] == n.id
    decreases |trace|
  {
    var next, rest, one := Step(b, trace[0]), trace[1..], Numberings(b, trace[0]);
    if k >= |one| {
      TicketsNumbered(next, rest, k - |one|);
    } else {
      FirstIdsStay(next, rest);
    }
  }

  lemma {:induction false} CountedInTurn(b: Requests, trace: seq<Event>, k: nat)
    requires Runs(b, trace) && b.msgId < TWO32 && k < |AllNumberings(b, trace)|
    ensures AllNumberings(b, trace)[k].id == (b.msgId + k) % TWO32
    decreases |trace|
  {
    var next, rest, one := Step(b, trace[0]), trace[1..], Numberings(b, trace[0]);
    StepNumbers(b, trace[0]);
    if k >= |one| {
      CountedInTurn(next, rest, k - |one|);
      if one != [] {
        CountOn(b.msgId, k - 1);
      }
    }
  }

  /** The counter hands out one number after the other, and what it hands to a submission is the id that
      submission is given. */
  lemma NumberedInTurn(b: Requests, trace: seq<Event>, k: nat)
    requires Runs(b, trace) && b.msgId < TWO32 && k < |AllNumberings(b, trace)|
    ensures var n, ids := AllNumberings(b, trace)[k], After(b, trace).firstIds;
      && n.id == (b.msgId + k) % TWO32
      && (n.ticket.Some? ==> n.ticket.value < |ids| && ids[n.ticket.value] == n.id)
  {
    CountedInTurn(b, trace, k);
    TicketsNumbered(b, trace, k);
  }

  lemma Remainders(x: nat, y: nat)
    requires x < y
    ensures x % TWO32 == y % TWO32 <==> (y - x) % TWO32 == 0
  {
    assert x == x / TWO32 * TWO32 + x % TWO32 && y == y / TWO32 * TWO32 + y % TWO32;
    var q := y / TWO32 - x / TWO32;
    if x % TWO32 == y % TWO32 {
      SameRemainder(0, y - x, q);
    } else if (y - x) % TWO32 == 0 {
      SameRemainder(x, y, (y - x) / TWO32);
    }
  }

  /** Two of the numbers handed out are the same exactly when the counter has gone all the way round
      between them, and one is zero exactly when the counter has just gone round. */
  lemma SameIdIff(trace: seq<Event>, i: nat, j: nat)
    requires Runs(NONE, trace) && i < j < |AllNumberings(NONE, trace)|
    ensures var ns := AllNumberings(NONE, trace);
      && (ns[i].id == ns[j].id <==> (j - i) % TWO32 == 0)
      && (ns[i].id == 0 <==> (i + 1) % TWO32 == 0)
      && (ns[j].id == 0 <==> (j + 1) % TWO32 == 0)
  {
    NumberedInTurn(NONE, trace, i);
    NumberedInTurn(NONE, trace, j);
    Remainders(1 + i, 1 + j);
  }

  /** Submission `t` came numbered zero. */
  ghost predicate Unnumbered(b: Requests, trace: seq<Event>, t: nat)
    requires Runs(b, trace)
  {
    exists k :: 0 <= k < |AllNumberings(b, trace)| && AllNumberings(b, trace)[k].ticket == Some(t)
  }

  function Submissions(trace: seq<Event>): nat
  {
    if trace == [] then 0 else (if trace[0].Submit? then 1 else 0) + Submissions(trace[1..])
  }

  /** Every submission numbered zero is among these. */
  lemma {:induction false} ComesUnnumbered(b: Requests, trace: seq<Event>, i: nat)
    requires Runs(b, trace) && i < |trace| && trace[i].Submit? && trace[i].id == 0
    ensures Unnumbered(b, trace, |b.firstIds| + Submissions(trace[..i]))
    decreases |trace|
  {
    var one, next := Numberings(b, trace[0]), Step(b, trace[0]);
    var more := AllNumberings(next, trace[1..]);
    var all: seq<Numbering> := one + more;
    assert AllNumberings(b, trace) == all;
    if i == 0 {
      assert all[0].ticket == Some(|b.firstIds|);
    } else {
      assert trace[..i][1..] == trace[1..][..i - 1];
      ComesUnnumbered(next, trace[1..], i - 1);
      var t := |next.firstIds| + Submissions(trace[1..][..i - 1]);
      var k :| 0 <= k < |more| && more[k].ticket == Some(t);
      assert all[|one| + k].ticket == Some(t);
    }
  }

  lemma BeforeTheWrap(trace: seq<Event>, k: nat)
    requires Runs(NONE, trace) && k < |AllNumberings(NONE, trace)| < 0x1_0000_0000
    ensures var n, ids := AllNumberings(NONE, trace)[k], After(NONE, trace).firstIds;
            n.id == k + 1 && (n.ticket.Some? ==> n.ticket.value < |ids| && ids[n.ticket.value] == k + 1)
  {
    NumberedInTurn(NONE, trace, k);
  }

  /** As long as fewer than 2^32 numbers have been taken, by requests, resends, pings and leave requests
      together, no request that came without a number is given zero, and no two are given the same. */
  lemma GivenIdsDiffer(trace: seq<Event>, t: nat, u: nat)
    requires Runs(NONE, trace) && |AllNumberings(NONE, trace)| < 0x1_0000_0000
    requires Unnumbered(NONE, trace, t) && Unnumbered(NONE, trace, u)
    ensures var ids := After(NONE, trace).firstIds;
            t < |ids| && u < |ids| && ids[t] != 0 && (ids[t] == ids[u] ==> t == u)
  {
    var ns := AllNumberings(NONE, trace);
    var k :| 0 <= k < |ns| && ns[k].ticket == Some(t);
    var l :| 0 <= l < |ns| && ns[l].ticket == Some(u);
    BeforeTheWrap(trace, k);
    BeforeTheWrap(trace, l);
  }

  /** And so what is sent can be told apart by its id, which is how answers are matched. */
  lemma SentIdsDiffer(trace: seq<Event>, i: nat, j: nat)
    requires Runs(NONE, trace) && |AllNumberings(NONE, trace)| < 0x1_0000_0000
    requires i < j < |After(NONE, trace).sent|
    requires var sent := After(NONE, trace).sent;
             Unnumbered(NONE, trace, sent[i].ticket) && Unnumbered(NONE, trace, sent[j].ticket)
    ensures var sent := After(NONE, trace).sent;
            sent[i].id != 0 && sent[i].id != sent[j].id
  {
    var sent := After(NONE, trace).sent;
    SentOnceWithItsId(trace, i);
    SentOnceWithItsId(trace, j);
    GivenIdsDiffer(trace, sent[i].ticket, sent[j].ticket);
    GivenIdsDiffer(trace, sent[j].ticket, sent[i].ticket);
  }

  /** A submission that does not come numbered zero keeps its number, and takes none. */
  lemma NumberKept(b: Requests, id: nat, body: string, ok: bool)
    requires Enabled(b, Submit(id, body, ok)) && id != 0
    ensures var after := Step(b, Submit(id, body, ok));
            after.firstIds == b.firstIds + [id] && after.msgId == b.msgId
  {
  }

  predicate Fits(b: Requests)
  {
    b.msgId < TWO32 && forall t :: 0 <= t < |b.firstIds| ==> b.firstIds[t] < TWO32
  }

  /** Ids are 32-bit numbers. */
  lemma {:induction false} IdsFit(b: Requests, trace: seq<Event>)
    requires Fits(b) && Runs(b, trace)
    ensures Fits(After(b, trace))
    decreases |trace|
  {
    if trace != [] {
      IdsFit(Step(b, trace[0]), trace[1..]);
    }
  }

  // ----- order

  predicate Sorted(rs: seq<Request>)
  {
    forall i, j :: 0 <= i < j < |rs| ==> rs[i].ticket < rs[j].ticket
  }

  /** The order in which what is kept will be tried again. */
  function Line(b: Requests): seq<Request>
  {
    b.pending + Flatten(b.flights)
  }

  /** The steps that put a request behind a younger one. */
  predicate Overtakes(b: Requests, e: Event)
  {
    match e
    case Submit(_, _, ok) => !ok && Flatten(b.flights) != []
    case FlushBegin => b.pending != [] && Flatten(b.flights) != []
    case FlushNext(f, ok) => !ok && f < |b.flights| && Flatten(b.flights[..f]) != []
    case TakeId => false
    case Disconnect => false
  }

  predicate Below(rs: seq<Request>, n: nat)
  {
    forall i :: 0 <= i < |rs| ==> rs[i].ticket < n
  }

  predicate Older(a: seq<Request>, b: seq<Request>)
  {
    forall i, j :: 0 <= i < |a| && 0 <= j < |b| ==> a[i].ticket < b[j].ticket
  }

  lemma SortedSplit(a: seq<Request>, b: seq<Request>)
    ensures Sorted(a + b) <==> Sorted(a) && Sorted(b) && Older(a, b)
  {
    var s := a + b;
    assert forall i :: 0 <= i < |a| ==> s[i] == a[i];
    assert forall j :: 0 <= j < |b| ==> s[|a| + j] == b[j];
  }

  lemma OlderSplit(a: seq<Request>, b: seq<Request>, c: seq<Request>)
    ensures Older(a, b + c) <==> Older(a, b) && Older(a, c)
  {
    var s := b + c;
    assert forall i :: 0 <= i < |b| ==> s[i] == b[i];
    assert forall j :: 0 <= j < |c| ==> s[|b| + j] == c[j];
  }

  /** Swapping two neighbouring non-empty parts of a sorted line breaks its order. */
  lemma SwapBreaks(a: seq<Request>, b: seq<Request>)
    requires Sorted(a + b)
    ensures Sorted(b + a) <==> a == [] || b == []
  {
    SortedSplit(a, b);
    SortedSplit(b, a);
    if a != [] && b != [] {
      assert a[0].ticket < b[0].ticket;
    }
  }

  lemma MoveAheadBreaks(p: seq<Request>, before: seq<Request>, x: Request, after: seq<Request>)
    requires Sorted(p + (before + ([x] + after)))
    ensures Sorted(p + ([x] + (before + after))) <==> before == []
    ensures Sorted(p + (before + after))
  {
    SortedSplit(p, before + ([x] + after));
    SortedSplit(before, [x] + after);
    SortedSplit([x], after);
    OlderSplit(p, before, [x] + after);
    OlderSplit(p, [x], after);
    OlderSplit(before, [x], after);

    SortedSplit(before, after);
    OlderSplit(p, before, after);
    SortedSplit(p, before + after);

    SortedSplit([x], before + after);
    OlderSplit([x], before, after);
    OlderSplit(p, [x], before + after);
    SortedSplit(p, [x] + (before + after));
    if before != [] {
      assert before[0].ticket < [x][0].ticket;
    }
  }

  lemma DeferralKeepsOrderIff(pending: seq<Request>, flat: seq<Request>, n: Request)
    requires Sorted(pending + flat) && Below(pending + flat, n.ticket)
    ensures Sorted((pending + [n]) + flat) <==> flat == []
  {
    SortedSplit(pending, flat);
    SortedSplit(pending + [n], flat);
    SortedSplit(pending, [n]);
    assert forall i :: 0 <= i < |pending| ==> pending[i] == (pending + flat)[i];
    if flat != [] {
      assert flat[0] == (pending + flat)[|pending|];
      assert (pending + [n])[|pending|] == n;
    }
  }

  /** The line seen around the next request of one flight. */
  lemma LineAt(b: Requests, f: nat)
    requires f < |b.flights| && b.flights[f] != []
    ensures var x := b.flights[f][0];
            var before, after := Flatten(b.flights[..f]), b.flights[f][1..] + Flatten(b.flights[f + 1..]);
            Line(b) == b.pending + (before + ([x] + after))
            && Flatten(b.flights[f := b.flights[f][1..]]) == before + after
  {
    var before, behind := Flatten(b.flights[..f]), Flatten(b.flights[f + 1..]);
    assert b.flights[f := b.flights[f]] == b.flights;
    FlightAt(b.flights, f, b.flights[f]);
    FlightAt(b.flights, f, b.flights[f][1..]);
    assert b.flights[f] == [b.flights[f][0]] + b.flights[f][1..];
  }

  lemma FlushNextKeepsOrderIff(b: Requests, f: nat, ok: bool)
    requires Enabled(b, FlushNext(f, ok)) && Sorted(Line(b))
    ensures Sorted(Line(Step(b, FlushNext(f, ok)))) <==> ok || Flatten(b.flights[..f]) == []
  {
    var x := b.flights[f][0];
    var before, after := Flatten(b.flights[..f]), b.flights[f][1..] + Flatten(b.flights[f + 1..]);
    LineAt(b, f);
    MoveAheadBreaks(b.pending, before, x, after);
    if !ok {
      var n := Numbered(b.msgId, x);
      Renumbered(b.pending, x, n, before + after);
      assert (b.pending + [n]) + (before + after) == b.pending + ([n] + (before + after));
    }
  }

  /** What is kept stays in the order of submission until a step that overtakes, and such a step
      always breaks it. */
  lemma OrderKeptIff(b: Requests, e: Event)
    requires Enabled(b, e) && Sorted(Line(b)) && Below(Line(b), |b.firstIds|)
    ensures Sorted(Line(Step(b, e))) <==> !Overtakes(b, e)
  {
    var flat := Flatten(b.flights);
    match e
    case Submit(id, body, ok) =>
      DeferralKeepsOrderIff(b.pending, flat, Numbered(b.msgId, Request(|b.firstIds|, id, body)));
    case FlushBegin =>
      FlattenAppend(b.flights, [b.pending]);
      assert Flatten([b.pending]) == b.pending by { assert [b.pending][1..] == []; }
      SwapBreaks(b.pending, flat);
      assert Line(Step(b, e)) == flat + b.pending;
    case FlushNext(f, ok) => FlushNextKeepsOrderIff(b, f, ok);
    case TakeId =>
    case Disconnect =>
      SortedSplit(b.pending, flat);
      assert Line(Step(b, e)) == flat;
  }

  lemma Renumbered(p: seq<Request>, x: Request, n: Request, s: seq<Request>)
    requires n.ticket == x.ticket
    ensures Sorted(p + ([n] + s)) <==> Sorted(p + ([x] + s))
  {
    var a, b := p + ([n] + s), p + ([x] + s);
    assert forall i :: 0 <= i < |a| ==> a[i].ticket == b[i].ticket;
  }

  // ----- order over runs

  lemma TicketsBelow(b: Requests, rs: seq<Request>)
    requires Conserved(b) && Tickets(rs) <= AllTickets(b)
    ensures Below(rs, |b.firstIds|)
  {
    forall i | 0 <= i < |rs|
      ensures rs[i].ticket < |b.firstIds|
    {
      TicketsCount(rs, i, i);
      assert AllTickets(b)[rs[i].ticket] >= 1;
    }
  }

  /** Whatever is kept was submitted before whatever comes next. */
  lemma LineIsBelow(b: Requests)
    requires Conserved(b)
    ensures Below(Line(b), |b.firstIds|)
  {
    TicketsAppend(b.pending, Flatten(b.flights));
    TicketsBelow(b, Line(b));
  }

  predicate SortedThroughout(b: Requests, trace: seq<Event>)
    requires Runs(b, trace)
    decreases |trace|
  {
    Sorted(Line(b)) && (trace == [] || SortedThroughout(Step(b, trace[0]), trace[1..]))
  }

  predicate NeverOvertakes(b: Requests, trace: seq<Event>)
    requires Runs(b, trace)
    decreases |trace|
  {
    trace == [] || (!Overtakes(b, trace[0]) && NeverOvertakes(Step(b, trace[0]), trace[1..]))
  }

  /** Throughout a run what is kept stands in the order of submission exactly when no step of the run
      overtakes. */
  lemma {:induction false} OrderThroughoutIff(b: Requests, trace: seq<Event>)
    requires Conserved(b) && Sorted(Line(b)) && Runs(b, trace)
    ensures SortedThroughout(b, trace) <==> NeverOvertakes(b, trace)
    decreases |trace|
  {
    if trace != [] {
      LineIsBelow(b);
      OrderKeptIff(b, trace[0]);
      StepConserves(b, trace[0]);
      if !Overtakes(b, trace[0]) {
        OrderThroughoutIff(Step(b, trace[0]), trace[1..]);
      }
    }
  }

  /** So it is from the start on. */
  lemma OrderFromStartIff(trace: seq<Event>)
    requires Runs(NONE, trace)
    ensures SortedThroughout(NONE, trace) <==> NeverOvertakes(NONE, trace)
  {
    OrderThroughoutIff(NONE, trace);
  }

  // ----- an undisturbed flush

  function Nexts(f: nat, oks: seq<bool>): seq<Event>
  {
    seq(|oks|, i requires 0 <= i < |oks| => FlushNext(f, oks[i]))
  }

  /** The steps of a flush with nothing in between. */
  function FlushRun(f: nat, oks: seq<bool>): seq<Event>
  {
    [FlushBegin] + Nexts(f, oks)
  }

  lemma {:induction false} RunOneMore(b: Requests, trace: seq<Event>, e: Event)
    requires Runs(b, trace) && Enabled(After(b, trace), e)
    ensures Runs(b, trace + [e]) && After(b, trace + [e]) == Step(After(b, trace), e)
    decreases |trace|
  {
    if trace == [] {
      assert [] + [e] == [e] && [e][1..] == [];
    } else {
      assert (trace + [e])[1..] == trace[1..] + [e];
      RunOneMore(Step(b, trace[0]), trace[1..], e);
    }
  }

  // ----- the code's objects

  function Failing(rs: seq<Request>, oks: seq<bool>): seq<Request>
    requires |rs| == |oks|
  {
    if rs == [] then []
    else
      var n := |rs| - 1;
      if oks[n] then Failing(rs[..n], oks[..n]) else Failing(rs[..n], oks[..n]) + [rs[n]]
  }

  function Passing(rs: seq<Request>, oks: seq<bool>): seq<Request>
    requires |rs| == |oks|
  {
    if rs == [] then []
    else
      var n := |rs| - 1;
      if oks[n] then Passing(rs[..n], oks[..n]) + [rs[n]] else Passing(rs[..n], oks[..n])
  }

  predicate AllNumbered(rs: seq<Request>)
  {
    forall i :: 0 <= i < |rs| ==> rs[i].id != 0
  }

  /** What an undisturbed flush of numbered requests comes to: what passes is sent and what fails is
      kept, each in order and with its id. */
  lemma {:induction false} FlushOutcome(b: Requests, oks: seq<bool>)
    requires |oks| <= |b.pending| && AllNumbered(b.pending)
    ensures Runs(b, FlushRun(|b.flights|, oks))
    ensures var after := After(b, FlushRun(|b.flights|, oks));
      && after.pending == Failing(b.pending[..|oks|], oks)
      && after.sent == b.sent + Passing(b.pending[..|oks|], oks)
      && after.flights == b.flights + [b.pending[|oks|..]] && after.msgId == b.msgId
    decreases |oks|
  {
    var f := |b.flights|;
    if oks == [] {
      assert FlushRun(f, oks) == [FlushBegin] && [FlushBegin][1..] == [];
      assert b.pending[..0] == [] && b.pending[0..] == b.pending;
    } else {
      var n := |oks| - 1;
      FlushOutcome(b, oks[..n]);
      var before := After(b, FlushRun(f, oks[..n]));
      assert before.flights[f] == b.pending[n..];
      RunOneMore(b, FlushRun(f, oks[..n]), FlushNext(f, oks[n]));
      assert FlushRun(f, oks) == FlushRun(f, oks[..n]) + [FlushNext(f, oks[n])];
      assert b.pending[..n + 1][..n] == b.pending[..n];
      assert before.flights[f := b.pending[n..][1..]] == b.flights + [b.pending[n + 1..]];
    }
  }

  class SignalRequests {
    var msgId: nat
    var pendingReqs: seq<Request>
    ghost var flights: seq<seq<Request>>
    ghost var sent: seq<Request>
    ghost var cleared: seq<Request>
    ghost var firstIds: seq<nat>

    ghost function Abs(): Requests
      reads this
    {
      Requests(msgId, pendingReqs, flights, sent, cleared, firstIds)
    }

    /** Every submission is in one place, once, with its id. */
    ghost predicate Valid()
      reads this
    {
      Conserved(Abs()) && IdsKept(Abs())
    }

    constructor ()
      ensures Valid() && Abs() == NONE
    {
      msgId, pendingReqs, flights, sent, cleared, firstIds := 1, [], [], [], [], [];
    }

    method SendRequest(r: Request, ok: bool) returns (numbered: Request)
      modifies `msgId, `sent
      ensures numbered == Numbered(old(msgId), r) && msgId == NextId(old(msgId), r)
      ensures sent == if ok then old(sent) + [numbered] else old(sent)
    {
      numbered := r;
      if r.id == 0 {
        numbered := r.(id := msgId);
        msgId := (msgId + 1) % TWO32;
      }
      if ok {
        sent := sent + [numbered];
      }
    }

    method RequestOrAgain(r: Request, ok: bool) returns (accepted: bool)
      modifies `msgId, `sent, `pendingReqs
      ensures accepted == ok && Abs() == Tried(old(Abs()), r, ok)
    {
      var numbered := SendRequest(r, ok);
      if !ok {
        pendingReqs := pendingReqs + [numbered];
      }
      accepted := ok;
    }

    /** A new request of the application. */
    method SubmitRequest(ticket: nat, id: nat, body: string, ok: bool) returns (accepted: bool)
      requires Valid() && id < TWO32 && ticket == |firstIds|
      modifies this
      ensures Valid() && accepted == ok && Abs() == Step(old(Abs()), Submit(id, body, ok))
    {
      ghost var before := Abs();
      StepConserves(before, Submit(id, body, ok));
      StepKeepsIds(before, Submit(id, body, ok));
      var r := Request(ticket, id, body);
      firstIds := firstIds + [Numbered(msgId, r).id];
      accepted := RequestOrAgain(r, ok);
    }

    /** The flush of any list of requests, numbered or not, makes the steps of an undisturbed flush. */
    method FlushPendingReqs(oks: seq<bool>)
      requires Valid() && |oks| == |pendingReqs|
      modifies this
      ensures Valid() && Runs(old(Abs()), FlushRun(|old(flights)|, oks))
      ensures Abs() == After(old(Abs()), FlushRun(|old(flights)|, oks))
    {
      ghost var before := Abs();
      ghost var f := |flights|;
      var pending := pendingReqs;
      pendingReqs := [];
      flights := flights + [pending];
      var i := 0;
      assert FlushRun(f, []) == [FlushBegin] && [FlushBegin][1..] == [];
      while i < |pending|
        invariant i <= |pending| && |flights| == f + 1 && flights[f] == pending[i..]
        invariant Runs(before, FlushRun(f, oks[..i])) && Abs() == After(before, FlushRun(f, oks[..i]))
      {
        ghost var start := Abs();
        RunOneMore(before, FlushRun(f, oks[..i]), FlushNext(f, oks[i]));
        assert FlushRun(f, oks[..i + 1]) == FlushRun(f, oks[..i]) + [FlushNext(f, oks[i])];
        var accepted := RequestOrAgain(pending[i], oks[i]);
        flights := flights[f := flights[f][1..]];
        i := i + 1;
      }
      assert oks[..i] == oks;
      EveryRunKeeps(before, FlushRun(f, oks));
    }

    /** sendRequest of a ping or a leave request, which nobody keeps. */
    method SendUnkept() returns (id: nat)
      requires Valid()
      modifies `msgId
      ensures Valid() && id == old(msgId) && Abs() == Step(old(Abs()), Event.TakeId)
    {
      ghost var before := Abs();
      id := msgId;
      msgId := (msgId + 1) % TWO32;
      assert Abs() == Step(before, Event.TakeId);
      assert Valid() by {
        StepConserves(before, Event.TakeId);
        StepKeepsIds(before, Event.TakeId);
      }
    }

    method DisconnectClears()
      requires Valid()
      modifies this
      ensures Valid() && Abs() == Step(old(Abs()), Event.Disconnect)
    {
      ghost var before := Abs();
      StepConserves(before, Event.Disconnect);
      StepKeepsIds(before, Event.Disconnect);
      cleared := cleared + pendingReqs;
      pendingReqs := [];
      assert Abs() == Step(before, Event.Disconnect);
    }
  }
}
