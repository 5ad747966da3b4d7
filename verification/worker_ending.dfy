/**
 The life of the worker thread of restincurl.h: when a thread is started, in what order it works, when
 it stops and why, what each step does to one request, and what is left in the wake pipe.
 */
module RequestEnding {
  import opened RequestWorker

  // ----- one round

  predicate FromOutside(e: Event)
  {
    e.Enqueue? || e.CloseWhenFinished? || e.Close?
  }

  /** The order of work in one thread. */
  predicate MayFollow(place: Place, next: Place)
  {
    match place
    case NoThread => false
    case Starting => next in {AtEvaluate, Leaving}
    case AtEvaluate => next in {Adding, AtPerform, Stopping}
    case Adding => next in {Adding, AtPerform, Leaving}
    case AtPerform => next in {AtMessages, Stopping}
    case AtMessages => next in {AtMessages, AtExitCheck}
    case AtExitCheck => next in {AtPoll, Stopping}
    case AtPoll => next in {Draining(false), AfterPoll, Leaving}
    case Draining(_) => next in {Draining(true), AfterPoll}
    case AfterPoll => next == AtEvaluate
    case Stopping => next == Leaving
    case Leaving => next == NoThread
  }

  /** The worker's own steps go round in this order, and no step of another thread moves it, but for an
      enqueue that starts one. */
  lemma InThisOrder(w: Worker, e: Event, capacity: nat)
    requires Enabled(w, e)
    ensures !FromOutside(e) ==> MayFollow(w.place, Step(w, e, capacity).place)
    ensures FromOutside(e) ==>
              Step(w, e, capacity).place
              == if e.Enqueue? && w.place == NoThread && !w.abort && !w.done then Starting else w.place
    ensures Step(w, e, capacity).place == Starting && w.place != Starting ==>
              Step(w, e, capacity).doDequeue && Step(w, e, capacity).transfers == -1
  {
    match e
    case Enqueue(_) =>
    case Init(_) =>
    case Evaluate =>
    case Dequeue =>
    case Add(_) =>
    case Perform(_, _) =>
    case NoMoreMessages =>
    case ExitCheck =>
    case Poll(_, _) =>
    case Read =>
    case _ =>
  }

  /** Nobody waits for the worker to enqueue a request or to close. */
  lemma CallersNeverWait(w: Worker, r: Request)
    ensures Enabled(w, CloseWhenFinished) && Enabled(w, Close) && (New(w.jobs, r) ==> Enabled(w, Enqueue(r)))
  {
  }

  /** The loop is left when somebody has aborted, when somebody has closed and the last look at the
      transfers, of which there had been some, found none, or when there are none and the thread has been
      idle too long; and only then. */
  lemma StopsIff(w: Worker, e: Event, capacity: nat)
    requires Enabled(w, e) && w.place != Stopping
    ensures Step(w, e, capacity).place == Stopping
       <==> ((e.Evaluate? || e.ExitCheck?) && (w.abort || (w.closePending && w.transfers == 0)))
            || (e.Perform? && e.running == 0 && e.idleTooLong)
  {
    match e
    case Enqueue(_) =>
    case Init(_) =>
    case Evaluate =>
    case Dequeue =>
    case Add(_) =>
    case Perform(_, _) =>
    case NoMoreMessages =>
    case ExitCheck =>
    case Poll(_, _) =>
    case Read =>
    case _ =>
  }

  /** The thread goes without stopping first exactly when the library fails. */
  lemma FailsIff(w: Worker, e: Event, capacity: nat)
    requires Enabled(w, e) && w.place != Leaving
    ensures Step(w, e, capacity).place == Leaving
       <==> e.Finish? || (e.Init? && !e.ok) || (e.Add? && !e.accepted) || (e.Poll? && !e.ok)
  {
    match e
    case Enqueue(_) =>
    case Init(_) =>
    case Evaluate =>
    case Dequeue =>
    case Add(_) =>
    case Perform(_, _) =>
    case NoMoreMessages =>
    case ExitCheck =>
    case Poll(_, _) =>
    case Read =>
    case _ =>
  }

  // ----- transfers

  /** What the last look at the transfers found, if there was one. */
  function LastLook(trace: seq<Event>): (n: int)
    ensures n >= -1
    decreases |trace|
  {
    if trace == [] then -1
    else
      var e := trace[|trace| - 1];
      if e.Perform? then e.running else LastLook(trace[..|trace| - 1])
  }

  predicate SawTransfers(trace: seq<Event>)
  {
    exists k :: 0 <= k < |trace| && trace[k].Perform? && trace[k].running > 0
  }

  predicate OneThread(trace: seq<Event>)
  {
    forall k :: 0 <= k < |trace| ==> !trace[k].ThreadGone?
  }

  lemma TransfersStep(w: Worker, e: Event, capacity: nat)
    requires Enabled(w, e) && w.place != NoThread && !e.ThreadGone?
    ensures var t := Step(w, e, capacity);
            t.place != NoThread
            && t.transfers == if !e.Perform? then w.transfers
                              else if e.running == 0 && w.transfers == -1 then -1 else e.running
  {
    match e
    case Enqueue(_) =>
    case Init(_) =>
    case Evaluate =>
    case Dequeue =>
    case Add(_) =>
    case Perform(_, _) =>
    case NoMoreMessages =>
    case ExitCheck =>
    case Poll(_, _) =>
    case Read =>
    case _ =>
  }

  lemma LookStep(before: seq<Event>, e: Event)
    ensures LastLook(before + [e]) == if e.Perform? then e.running else LastLook(before)
    ensures SawTransfers(before + [e]) <==> SawTransfers(before) || (e.Perform? && e.running > 0)
    ensures OneThread(before + [e]) <==> OneThread(before) && !e.ThreadGone?
  {
    var trace := before + [e];
    assert trace[..|before|] == before;
    assert forall k :: 0 <= k < |before| ==> before[k] == trace[k];
    assert trace[|before|] == e;
  }

  /** Until a thread has seen a transfer, the number of transfers is not known to be zero, and so closing
      when finished does not stop it; after that it is what the last look found. */
  lemma {:induction false} TransfersKnown(w: Worker, trace: seq<Event>, capacity: nat)
    requires w.place == Starting && w.transfers == -1 && Runs(w, trace, capacity) && OneThread(trace)
    ensures After(w, trace, capacity).transfers == if SawTransfers(trace) then LastLook(trace) else -1
    ensures After(w, trace, capacity).place != NoThread
    ensures SawTransfers(trace) ==> LastLook(trace) >= 0
    decreases |trace|
  {
    if trace != [] {
      var n := |trace| - 1;
      var before, e := trace[..n], trace[n];
      assert trace == before + [e];
      RunsSplit(w, before, e, capacity);
      LookStep(before, e);
      TransfersKnown(w, before, capacity);
      TransfersStep(After(w, before, capacity), e, capacity);
    }
  }

  lemma {:induction false} RunsSplit(w: Worker, before: seq<Event>, e: Event, capacity: nat)
    requires Runs(w, before + [e], capacity)
    ensures Runs(w, before, capacity) && Enabled(After(w, before, capacity), e)
    ensures After(w, before + [e], capacity) == Step(After(w, before, capacity), e, capacity)
    decreases |before|
  {
    if before == [] {
      assert before + [e] == [e] && [e][1..] == [];
    } else {
      assert (before + [e])[1..] == before[1..] + [e];
      RunsSplit(Step(w, before[0], capacity), before[1..], e, capacity);
    }
  }

  // ----- closing

  /** A thread ends by itself after somebody has aborted or closed. */
  predicate NotedClosed(closed: bool, trace: seq<Event>)
    decreases |trace|
  {
    trace != []
    && ((trace[0].Finish? && closed)
        || NotedClosed(closed || trace[0].CloseWhenFinished? || trace[0].Close?, trace[1..]))
  }

  lemma FlagsStep(w: Worker, e: Event, capacity: nat)
    requires Enabled(w, e)
    ensures var t := Step(w, e, capacity);
      && (t.closePending <==> w.closePending || e.CloseWhenFinished?)
      && (t.abort <==> w.abort || e.Close?)
      && (t.done <==> w.done || (e.Finish? && (w.closePending || w.abort)))
  {
  }

  /** The flags are set by the calls they are for, and the worker is done once a thread has ended by itself
      after one of them. */
  lemma {:induction false} FlagsAfter(w: Worker, trace: seq<Event>, capacity: nat)
    requires Runs(w, trace, capacity)
    ensures var t := After(w, trace, capacity);
      && (t.closePending <==> w.closePending || CloseWhenFinished in trace)
      && (t.abort <==> w.abort || Close in trace)
      && (t.done <==> w.done || NotedClosed(w.closePending || w.abort, trace))
    decreases |trace|
  {
    if trace != [] {
      FlagsStep(w, trace[0], capacity);
      FlagsAfter(Step(w, trace[0], capacity), trace[1..], capacity);
      assert trace == [trace[0]] + trace[1..];
    }
  }

  /** Once the worker is done or has been aborted, and its thread is gone, no thread comes back, and what is
      enqueued stays where it is. */
  lemma {:induction false} NoThreadAgain(w: Worker, trace: seq<Event>, capacity: nat)
    requires w.place == NoThread && (w.abort || w.done) && Runs(w, trace, capacity)
    ensures After(w, trace, capacity).place == NoThread
    ensures After(w, trace, capacity).jobs.admitted == w.jobs.admitted
    ensures w.jobs.queue <= After(w, trace, capacity).jobs.queue
    decreases |trace|
  {
    if trace != [] {
      assert FromOutside(trace[0]);
      NoThreadAgain(Step(w, trace[0], capacity), trace[1..], capacity);
    }
  }

  // ----- one request

  /** Where one request goes in one step, seen from what has become of it: it is enqueued, handed over in
      its turn, completed when the library says so of its handle, and dropped when the library refuses one
      before it. */
  predicate Moves(j: Jobs, t: Jobs, e: Event, r: Request)
  {
    && (r in t.enqueued <==> r in j.enqueued || e == Enqueue(r))
    && (r in t.completed <==> r in j.completed || (e == Message(r.handle) && Ongoing(j, r)))
    && (r in t.dropped <==> r in j.dropped || (e == Add(false) && r in j.taken && r != j.taken[0]))
    && (Ongoing(t, r) <==> (Ongoing(j, r) && e != Message(r.handle)) || (e.Add? && j.taken != [] && j.taken[0] == r))
  }

  lemma AddMoves(j: Jobs, accepted: bool, r: Request)
    requires JobsOk(j) && j.taken != []
    ensures Moves(j, if accepted then Start(j) else Abandon(Start(j)), Add(accepted), r)
  {
    var first, t := j.taken[0], Start(j);
    assert j.taken == [first] + t.taken && t.taken == j.taken[1..];
    assert forall i :: 0 <= i < |j.taken| ==> j.taken[i] == Waiting(j)[i];
    assert first.handle !in j.ongoing;
    forall i | 0 <= i < |t.taken|
      ensures t.taken[i] != first
    {
      assert Waiting(j)[i + 1] == t.taken[i];
    }
    assert Ongoing(t, r) <==> Ongoing(j, r) || r == first;
  }

  lemma MessageMoves(j: Jobs, handle: nat, r: Request)
    requires JobsOk(j)
    ensures Moves(j, Complete(j, handle), Message(handle), r)
  {
    if handle in j.ongoing {
      assert j.ongoing[handle].handle == handle;
    }
  }

  lemma RequestMoves(w: Worker, e: Event, r: Request, capacity: nat)
    requires JobsOk(w.jobs) && Enabled(w, e)
    ensures Moves(w.jobs, Step(w, e, capacity).jobs, e, r)
  {
    match e
    case Add(accepted) => AddMoves(w.jobs, accepted, r);
    case Message(handle) => MessageMoves(w.jobs, handle, r);
    case _ =>
  }

  /** A request enqueued on an idle worker can be completed. */
  lemma RequestIsServed(r: Request, capacity: nat)
    requires capacity > 0
    ensures var trace := [Enqueue(r), Init(true), Evaluate, Dequeue, Add(true), Perform(1, false), Message(r.handle)];
            Runs(IDLE, trace, capacity) && After(IDLE, trace, capacity).jobs.completed == [r]
            && After(IDLE, trace, capacity).jobs.ongoing == map[]
  {
    var w1 := Step(IDLE, Enqueue(r), capacity);
    assert w1.jobs.queue == [r];
    ServedHead(w1, r, capacity);
    var rest := [Init(true), Evaluate, Dequeue, Add(true), Perform(1, false), Message(r.handle)];
    Longer(IDLE, Enqueue(r), rest, capacity);
    assert [Enqueue(r)] + rest
        == [Enqueue(r), Init(true), Evaluate, Dequeue, Add(true), Perform(1, false), Message(r.handle)];
  }

  lemma ServedHead(w: Worker, r: Request, capacity: nat)
    requires w.place == Starting && w.doDequeue && w.jobs.queue == [r] && w.jobs.taken == []
    requires !w.abort && !w.closePending && w.jobs.ongoing == map[] && w.jobs.completed == []
    ensures var rest := [Init(true), Evaluate, Dequeue, Add(true), Perform(1, false), Message(r.handle)];
            Runs(w, rest, capacity) && After(w, rest, capacity).jobs.completed == [r]
            && After(w, rest, capacity).jobs.ongoing == map[]
  {
    var w2 := Step(w, Init(true), capacity);
    var w3 := Step(w2, Evaluate, capacity);
    var w4 := Step(w3, Dequeue, capacity);
    assert w4.jobs.taken == [r];
    ServedTail(w4, r, capacity);
    var tail := [Add(true), Perform(1, false), Message(r.handle)];
    Longer(w3, Dequeue, tail, capacity);
    Longer(w2, Evaluate, [Dequeue] + tail, capacity);
    Longer(w, Init(true), [Evaluate] + ([Dequeue] + tail), capacity);
    assert [Init(true)] + ([Evaluate] + ([Dequeue] + tail))
        == [Init(true), Evaluate, Dequeue, Add(true), Perform(1, false), Message(r.handle)];
  }

  lemma ServedTail(w: Worker, r: Request, capacity: nat)
    requires w.place == Adding && w.jobs.taken == [r] && w.jobs.ongoing == map[] && w.jobs.completed == []
    ensures var tail := [Add(true), Perform(1, false), Message(r.handle)];
            Runs(w, tail, capacity) && After(w, tail, capacity).jobs.completed == [r]
            && After(w, tail, capacity).jobs.ongoing == map[]
  {
    var w5 := Step(w, Add(true), capacity);
    assert w5.jobs.taken == [] && w5.jobs.ongoing == map[r.handle := r];
    var w6 := Step(w5, Perform(1, false), capacity);
    var w7 := Step(w6, Message(r.handle), capacity);
    assert w7.jobs.ongoing == map[];
    Longer(w6, Message(r.handle), [], capacity);
    Longer(w5, Perform(1, false), [Message(r.handle)] + [], capacity);
    Longer(w, Add(true), [Perform(1, false)] + ([Message(r.handle)] + []), capacity);
    assert [Add(true)] + ([Perform(1, false)] + ([Message(r.handle)] + []))
        == [Add(true), Perform(1, false), Message(r.handle)];
  }

  lemma Longer(w: Worker, e: Event, rest: seq<Event>, capacity: nat)
    requires Enabled(w, e) && Runs(Step(w, e, capacity), rest, capacity)
    ensures Runs(w, [e] + rest, capacity)
    ensures After(w, [e] + rest, capacity) == After(Step(w, e, capacity), rest, capacity)
  {
    assert ([e] + rest)[1..] == rest;
  }

  // ----- the wake pipe

  function Signals(trace: seq<Event>): nat
  {
    if trace == [] then 0 else (if FromOutside(trace[0]) then 1 else 0) + Signals(trace[1..])
  }

  /** The reads that find a byte. */
  function Reads(w: Worker, trace: seq<Event>, capacity: nat): nat
    requires Runs(w, trace, capacity)
    decreases |trace|
  {
    if trace == [] then 0
    else (if trace[0].Read? && w.wake > 0 then 1 else 0) + Reads(Step(w, trace[0], capacity), trace[1..], capacity)
  }

  lemma ByteStep(w: Worker, e: Event, capacity: nat)
    requires Enabled(w, e) && w.wake <= capacity
    ensures var t := Step(w, e, capacity);
      t.wake == if FromOutside(e) then (if w.wake < capacity then w.wake + 1 else w.wake)
                else if e.Read? && w.wake > 0 then w.wake - 1 else w.wake
  {
  }

  /** One byte goes into the pipe for every enqueue and every close, as long as it has room for all, and
      the only ones taken out are those that are read; it never holds more than it can. */
  lemma {:induction false} BytesCounted(w: Worker, trace: seq<Event>, capacity: nat)
    requires Runs(w, trace, capacity) && w.wake <= capacity
    ensures After(w, trace, capacity).wake <= capacity
    ensures w.wake + Signals(trace) <= capacity ==>
              After(w, trace, capacity).wake + Reads(w, trace, capacity) == w.wake + Signals(trace)
    decreases |trace|
  {
    if trace != [] {
      ByteStep(w, trace[0], capacity);
      BytesCounted(Step(w, trace[0], capacity), trace[1..], capacity);
    }
  }
}
