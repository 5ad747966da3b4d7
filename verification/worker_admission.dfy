/**
 When a queued request is admitted. The worker thread ends after an idle time, on a failure, or when
 it is told to; a request that comes too late for it stays queued with nobody to serve it.
 */
module RequestAdmission {
  import opened RequestWorker

  /** Poll finds the pipe readable exactly when a byte is in it; nothing fails, and nobody closes. */
  predicate Calm(w: Worker, e: Event)
  {
    match e
    case CloseWhenFinished => false
    case Close => false
    case Init(ok) => ok
    case Add(accepted) => accepted
    case Poll(ok, readable) => ok && readable == (w.wake > 0)
    case _ => true
  }

  predicate CalmRun(w: Worker, trace: seq<Event>, capacity: nat)
    requires Runs(w, trace, capacity)
    decreases |trace|
  {
    trace == [] || (Calm(w, trace[0]) && CalmRun(Step(w, trace[0], capacity), trace[1..], capacity))
  }

  /** The worker will dequeue before it looks at its idle time again. */
  predicate WillDequeue(w: Worker)
  {
    match w.place
    case Starting => w.doDequeue && GoesOn(w)
    case AtEvaluate => w.doDequeue && GoesOn(w)
    case Adding => w.doDequeue
    case AtMessages => (w.wake > 0 || w.jobs.pendingEntries) && GoesOn(w)
    case AtExitCheck => (w.wake > 0 || w.jobs.pendingEntries) && GoesOn(w)
    case AtPoll => (w.wake > 0 || w.jobs.pendingEntries) && GoesOn(w)
    case Draining(signalled) => (signalled || w.wake > 0 || w.jobs.pendingEntries) && GoesOn(w)
    case AfterPoll => (w.doDequeue || w.jobs.pendingEntries) && GoesOn(w)
    case _ => false
  }

  predicate Fits(j: Jobs, r: Request)
  {
    r in j.queue[..Room(j)]
  }

  /** The thread can end with `r` still queued. */
  ghost predicate Strandable(w: Worker, r: Request, capacity: nat)
  {
    exists trace ::
      Runs(w, trace, capacity) && CalmRun(w, trace, capacity)
      && After(w, trace, capacity).place == NoThread && r in After(w, trace, capacity).jobs.queue
  }

  /** So it can when anything may fail and anybody may close. */
  ghost predicate StrandableAnyhow(w: Worker, r: Request, capacity: nat)
  {
    exists trace ::
      Runs(w, trace, capacity)
      && After(w, trace, capacity).place == NoThread && r in After(w, trace, capacity).jobs.queue
  }

  lemma StrandedAfter(w: Worker, e: Event, r: Request, capacity: nat)
    requires Enabled(w, e) && Calm(w, e) && Strandable(Step(w, e, capacity), r, capacity)
    ensures Strandable(w, r, capacity)
  {
    var next := Step(w, e, capacity);
    var rest :| Runs(next, rest, capacity) && CalmRun(next, rest, capacity)
                && After(next, rest, capacity).place == NoThread && r in After(next, rest, capacity).jobs.queue;
    var trace := [e] + rest;
    assert trace[1..] == rest;
    assert Runs(w, trace, capacity) && CalmRun(w, trace, capacity);
    assert After(w, trace, capacity) == After(next, rest, capacity);
  }

  lemma StrandedNow(w: Worker, r: Request, capacity: nat)
    requires w.place == NoThread && r in w.jobs.queue
    ensures Strandable(w, r, capacity)
  {
    assert Runs(w, [], capacity) && CalmRun(w, [], capacity) && After(w, [], capacity) == w;
  }

  lemma LeavingStrands(w: Worker, r: Request, capacity: nat)
    requires w.place == Leaving && r in w.jobs.queue
    ensures Strandable(w, r, capacity)
  {
    StrandedNow(Step(w, ThreadGone, capacity), r, capacity);
    StrandedAfter(w, ThreadGone, r, capacity);
  }

  lemma StoppingStrands(w: Worker, r: Request, capacity: nat)
    requires w.place == Stopping && r in w.jobs.queue
    ensures Strandable(w, r, capacity)
  {
    LeavingStrands(Step(w, Finish, capacity), r, capacity);
    StrandedAfter(w, Finish, r, capacity);
  }

  /** Before curl_multi_perform the idle time may have run out. */
  lemma PerformStrands(w: Worker, r: Request, capacity: nat)
    requires w.place == AtPerform && r in w.jobs.queue
    ensures Strandable(w, r, capacity)
  {
    StoppingStrands(Step(w, Perform(0, true), capacity), r, capacity);
    StrandedAfter(w, Perform(0, true), r, capacity);
  }

  lemma {:induction false} AddingStrands(w: Worker, r: Request, capacity: nat)
    requires w.place == Adding && w.jobs.taken != [] && r in w.jobs.queue
    ensures Strandable(w, r, capacity)
    decreases |w.jobs.taken|
  {
    var next := Step(w, Add(true), capacity);
    if next.jobs.taken == [] {
      PerformStrands(next, r, capacity);
    } else {
      AddingStrands(next, r, capacity);
    }
    StrandedAfter(w, Add(true), r, capacity);
  }

  lemma DequeueStrands(w: Worker, r: Request, capacity: nat)
    requires w.place == Adding && w.doDequeue && w.jobs.taken == [] && r in w.jobs.queue && !Fits(w.jobs, r)
    ensures Strandable(w, r, capacity)
  {
    var next := Step(w, Dequeue, capacity);
    assert w.jobs.queue == w.jobs.queue[..Room(w.jobs)] + w.jobs.queue[Room(w.jobs)..];
    if next.jobs.taken == [] {
      PerformStrands(next, r, capacity);
    } else {
      AddingStrands(next, r, capacity);
    }
    StrandedAfter(w, Dequeue, r, capacity);
  }

  lemma EvaluateStrands(w: Worker, r: Request, capacity: nat)
    requires w.place == AtEvaluate && w.jobs.taken == [] && r in w.jobs.queue
    requires !(WillDequeue(w) && Fits(w.jobs, r))
    ensures Strandable(w, r, capacity)
  {
    var next := Step(w, Evaluate, capacity);
    if next.place == Stopping {
      StoppingStrands(next, r, capacity);
    } else if w.doDequeue {
      DequeueStrands(next, r, capacity);
    } else {
      PerformStrands(next, r, capacity);
    }
    StrandedAfter(w, Evaluate, r, capacity);
  }

  lemma AfterPollStrands(w: Worker, r: Request, capacity: nat)
    requires w.place == AfterPoll && w.jobs.taken == [] && r in w.jobs.queue
    requires !(WillDequeue(w) && Fits(w.jobs, r))
    ensures Strandable(w, r, capacity)
  {
    EvaluateStrands(Step(w, Resume, capacity), r, capacity);
    StrandedAfter(w, Resume, r, capacity);
  }

  lemma {:induction false} DrainingStrands(w: Worker, r: Request, capacity: nat)
    requires w.place.Draining? && w.jobs.taken == [] && r in w.jobs.queue
    requires !(WillDequeue(w) && Fits(w.jobs, r))
    ensures Strandable(w, r, capacity)
    decreases w.wake
  {
    var next := Step(w, Read, capacity);
    if w.wake > 0 {
      DrainingStrands(next, r, capacity);
    } else {
      AfterPollStrands(next, r, capacity);
    }
    StrandedAfter(w, Read, r, capacity);
  }

  lemma PollStrands(w: Worker, r: Request, capacity: nat)
    requires w.place == AtPoll && w.jobs.taken == [] && !w.doDequeue && r in w.jobs.queue
    requires !(WillDequeue(w) && Fits(w.jobs, r))
    ensures Strandable(w, r, capacity)
  {
    var e := Poll(true, w.wake > 0);
    var next := Step(w, e, capacity);
    if w.wake > 0 {
      DrainingStrands(next, r, capacity);
    } else {
      AfterPollStrands(next, r, capacity);
    }
    StrandedAfter(w, e, r, capacity);
  }

  lemma ExitCheckStrands(w: Worker, r: Request, capacity: nat)
    requires w.place == AtExitCheck && w.jobs.taken == [] && !w.doDequeue && r in w.jobs.queue
    requires !(WillDequeue(w) && Fits(w.jobs, r))
    ensures Strandable(w, r, capacity)
  {
    var next := Step(w, ExitCheck, capacity);
    if GoesOn(w) {
      PollStrands(next, r, capacity);
    } else {
      StoppingStrands(next, r, capacity);
    }
    StrandedAfter(w, ExitCheck, r, capacity);
  }

  /** From every place in which the worker is not bound to dequeue with room for the request. */
  lemma OtherwiseStrands(w: Worker, r: Request, capacity: nat)
    requires ControlOk(w) && r in w.jobs.queue
    requires !(WillDequeue(w) && Fits(w.jobs, r))
    ensures Strandable(w, r, capacity)
  {
    match w.place
    case NoThread => StrandedNow(w, r, capacity);
    case Leaving => LeavingStrands(w, r, capacity);
    case Stopping => StoppingStrands(w, r, capacity);
    case AtPerform => PerformStrands(w, r, capacity);
    case Starting =>
      EvaluateStrands(Step(w, Init(true), capacity), r, capacity);
      StrandedAfter(w, Init(true), r, capacity);
    case AtEvaluate => EvaluateStrands(w, r, capacity);
    case Adding =>
      if w.jobs.taken == [] {
        DequeueStrands(w, r, capacity);
      } else {
        AddingStrands(w, r, capacity);
      }
    case AtMessages =>
      ExitCheckStrands(Step(w, NoMoreMessages, capacity), r, capacity);
      StrandedAfter(w, NoMoreMessages, r, capacity);
    case AtExitCheck => ExitCheckStrands(w, r, capacity);
    case AtPoll => PollStrands(w, r, capacity);
    case Draining(_) => DrainingStrands(w, r, capacity);
    case AfterPoll => AfterPollStrands(w, r, capacity);
  }

  // ----- and conversely

  /** The request is out of the queue for good, or the worker is bound to take it. */
  predicate Bound(w: Worker, r: Request)
  {
    r in w.jobs.enqueued && (r in w.jobs.queue ==> WillDequeue(w) && Fits(w.jobs, r))
  }

  lemma FitsStays(j: Jobs, k: Jobs, r: Request)
    requires Fits(j, r) && Bounded(j) && j.queue <= k.queue && |k.ongoing| <= |j.ongoing|
    ensures Fits(k, r)
  {
    var i :| 0 <= i < Room(j) && j.queue[i] == r;
    assert i + |j.ongoing| < MAX_CONNECTIONS;
    assert i < Room(k) && k.queue[i] == r;
  }

  lemma CompletingFrees(j: Jobs, handle: nat)
    ensures |Complete(j, handle).ongoing| <= |j.ongoing|
  {
    if handle in j.ongoing {
      assert j.ongoing.Keys == (j.ongoing - {handle}).Keys + {handle};
    }
  }

  lemma StepWillDequeue(w: Worker, e: Event, capacity: nat)
    requires ControlOk(w) && WillDequeue(w) && Enabled(w, e) && Calm(w, e) && !e.Dequeue?
    ensures WillDequeue(Step(w, e, capacity))
  {
  }

  /** Until the next Dequeue nothing takes the place of a request that fits. */
  lemma StepFits(w: Worker, e: Event, r: Request, capacity: nat)
    requires Bounded(w.jobs) && Fits(w.jobs, r) && Enabled(w, e) && !e.Dequeue? && !e.Add?
    ensures Fits(Step(w, e, capacity).jobs, r)
  {
    if e.Message? {
      CompletingFrees(w.jobs, e.handle);
    }
    FitsStays(w.jobs, Step(w, e, capacity).jobs, r);
  }

  lemma StepEnqueued(w: Worker, e: Event, r: Request, capacity: nat)
    requires Enabled(w, e) && r in w.jobs.enqueued
    ensures r in Step(w, e, capacity).jobs.enqueued
    ensures r !in w.jobs.queue ==> r !in Step(w, e, capacity).jobs.queue
  {
  }

  lemma StepStaysBound(w: Worker, e: Event, r: Request, capacity: nat)
    requires Inv(w) && Bound(w, r) && Enabled(w, e) && Calm(w, e)
    ensures Bound(Step(w, e, capacity), r)
  {
    StepEnqueued(w, e, r, capacity);
    if r in w.jobs.queue {
      if e.Dequeue? {
        TakenIsGone(w.jobs, r);
      } else {
        StepWillDequeue(w, e, capacity);
        StepFits(w, e, r, capacity);
      }
    }
  }

  lemma TakenIsGone(j: Jobs, r: Request)
    requires JobsOk(j) && Fits(j, r)
    ensures r !in Take(j).queue
  {
    var n := Room(j);
    var i :| 0 <= i < n && j.queue[i] == r;
    forall k | n <= k < |j.queue|
      ensures j.queue[k] != r
    {
      var offset := |j.taken|;
      assert Waiting(j)[offset + i] == j.queue[i] && Waiting(j)[offset + k] == j.queue[k];
    }
  }

  lemma {:induction false} RunStaysBound(w: Worker, trace: seq<Event>, r: Request, capacity: nat)
    requires capacity > 0 && Inv(w) && Bound(w, r) && Runs(w, trace, capacity) && CalmRun(w, trace, capacity)
    ensures Bound(After(w, trace, capacity), r)
    decreases |trace|
  {
    if trace != [] {
      StepStaysBound(w, trace[0], r, capacity);
      StepKeeps(w, trace[0], capacity);
      RunStaysBound(Step(w, trace[0], capacity), trace[1..], r, capacity);
    }
  }

  /** While nothing fails and nobody closes, a queued request is admitted before the thread ends, in
      every run, exactly when the worker will dequeue before it looks at its idle time again and has
      room for the request. */
  lemma AdmittedFirstIff(w: Worker, r: Request, capacity: nat)
    requires capacity > 0 && Inv(w) && r in w.jobs.queue
    ensures !Strandable(w, r, capacity) <==> WillDequeue(w) && Fits(w.jobs, r)
  {
    if WillDequeue(w) && Fits(w.jobs, r) {
      forall trace | Runs(w, trace, capacity) && CalmRun(w, trace, capacity)
        ensures !(After(w, trace, capacity).place == NoThread && r in After(w, trace, capacity).jobs.queue)
      {
        RunStaysBound(w, trace, r, capacity);
      }
    } else {
      OtherwiseStrands(w, r, capacity);
    }
  }

  /** Where an enqueue finds a worker that will admit the request, as its caller could tell: a fresh
      thread, or one that has not passed the point where it decides about dequeuing. */
  predicate Serves(w: Worker)
  {
    match w.place
    case NoThread => !w.abort && !w.done
    case Starting => w.doDequeue && GoesOn(w)
    case AtEvaluate => w.doDequeue && GoesOn(w)
    case Adding => w.doDequeue
    case AtMessages => GoesOn(w)
    case AtExitCheck => GoesOn(w)
    case AtPoll => GoesOn(w)
    case Draining(_) => GoesOn(w)
    case AfterPoll => (w.doDequeue || w.jobs.pendingEntries) && GoesOn(w)
    case _ => false
  }

  /** Over all runs that follow an enqueue and in which nothing fails and nobody closes, the request
      is admitted before the thread ends exactly when the worker stands where Serves says and the
      request is among the first that fit. */
  lemma EnqueueIsServedIff(w: Worker, r: Request, capacity: nat)
    requires capacity > 0 && Inv(w) && Enabled(w, Enqueue(r))
    ensures !Strandable(Step(w, Enqueue(r), capacity), r, capacity)
       <==> Serves(w) && |w.jobs.queue| + |w.jobs.ongoing| < MAX_CONNECTIONS
  {
    var next := Step(w, Enqueue(r), capacity);
    StepKeeps(w, Enqueue(r), capacity);
    var last := |w.jobs.queue|;
    assert next.jobs.queue[last] == r;
    AdmittedFirstIff(next, r, capacity);
    EnqueuedWillDequeue(w, r, capacity);
    NewIsLast(w.jobs, r);
  }

  lemma EnqueuedWillDequeue(w: Worker, r: Request, capacity: nat)
    requires capacity > 0 && ControlOk(w) && Enabled(w, Enqueue(r))
    ensures WillDequeue(Step(w, Enqueue(r), capacity)) <==> Serves(w)
  {
  }

  lemma NewIsLast(j: Jobs, r: Request)
    requires JobsOk(j) && New(j, r)
    ensures Fits(Accept(j, r), r) <==> |j.queue| + |j.ongoing| < MAX_CONNECTIONS
  {
    var k := Accept(j, r);
    assert k.queue[|j.queue|] == r;
    forall i | 0 <= i < |j.queue|
      ensures k.queue[i] != r
    {
      assert j.queue[i] in j.admitted + j.queue;
    }
    if |j.queue| < Room(k) {
      assert k.queue[..Room(k)][|j.queue|] == r;
    }
  }

  /** A request that is bound to be admitted is admitted by the next Dequeue and not before. */
  lemma {:induction false} AdmittedAtNextDequeue(w: Worker, trace: seq<Event>, r: Request, capacity: nat)
    requires capacity > 0 && Inv(w) && r in w.jobs.queue && WillDequeue(w) && Fits(w.jobs, r)
    requires Runs(w, trace, capacity) && CalmRun(w, trace, capacity)
    ensures r in After(w, trace, capacity).jobs.queue <==> !Dequeues(trace)
    decreases |trace|
  {
    if trace != [] {
      var next := Step(w, trace[0], capacity);
      StepKeeps(w, trace[0], capacity);
      if trace[0].Dequeue? {
        TakenIsGone(w.jobs, r);
        GoneForGood(next, trace[1..], r, capacity);
      } else {
        StepWillDequeue(w, trace[0], capacity);
        StepFits(w, trace[0], r, capacity);
        AdmittedAtNextDequeue(next, trace[1..], r, capacity);
      }
    }
  }

  predicate Dequeues(trace: seq<Event>)
  {
    trace != [] && (trace[0].Dequeue? || Dequeues(trace[1..]))
  }

  lemma {:induction false} GoneForGood(w: Worker, trace: seq<Event>, r: Request, capacity: nat)
    requires Runs(w, trace, capacity) && r in w.jobs.enqueued && r !in w.jobs.queue
    ensures r !in After(w, trace, capacity).jobs.queue
    decreases |trace|
  {
    if trace != [] {
      StepEnqueued(w, trace[0], r, capacity);
      GoneForGood(Step(w, trace[0], capacity), trace[1..], r, capacity);
    }
  }

  // ----- when anything may fail and anybody may close

  lemma StrandedAnyhowAfter(w: Worker, e: Event, r: Request, capacity: nat)
    requires Enabled(w, e) && Strandable(Step(w, e, capacity), r, capacity)
    ensures StrandableAnyhow(w, r, capacity)
  {
    var next := Step(w, e, capacity);
    var rest :| Runs(next, rest, capacity) && CalmRun(next, rest, capacity)
                && After(next, rest, capacity).place == NoThread && r in After(next, rest, capacity).jobs.queue;
    var trace := [e] + rest;
    assert trace[1..] == rest;
    assert Runs(w, trace, capacity) && After(w, trace, capacity) == After(next, rest, capacity);
  }

  predicate AboutToTake(w: Worker, r: Request)
  {
    r in w.jobs.enqueued && (r in w.jobs.queue ==> w.place == Adding && w.doDequeue && Fits(w.jobs, r))
  }

  lemma StepStaysTaken(w: Worker, e: Event, r: Request, capacity: nat)
    requires Inv(w) && AboutToTake(w, r) && Enabled(w, e)
    ensures AboutToTake(Step(w, e, capacity), r)
  {
    StepEnqueued(w, e, r, capacity);
    if r in w.jobs.queue {
      if e.Dequeue? {
        TakenIsGone(w.jobs, r);
      } else {
        StepFits(w, e, r, capacity);
      }
    }
  }

  lemma {:induction false} RunStaysTaken(w: Worker, trace: seq<Event>, r: Request, capacity: nat)
    requires capacity > 0 && Inv(w) && AboutToTake(w, r) && Runs(w, trace, capacity)
    ensures AboutToTake(After(w, trace, capacity), r)
    decreases |trace|
  {
    if trace != [] {
      StepStaysTaken(w, trace[0], r, capacity);
      StepKeeps(w, trace[0], capacity);
      RunStaysTaken(Step(w, trace[0], capacity), trace[1..], r, capacity);
    }
  }

  /** When anything may fail and anybody may close, only a worker about to dequeue with room is bound
      to admit the request before its thread ends. */
  lemma AdmittedAnyhowIff(w: Worker, r: Request, capacity: nat)
    requires capacity > 0 && Inv(w) && r in w.jobs.queue
    ensures !StrandableAnyhow(w, r, capacity) <==> w.place == Adding && w.doDequeue && Fits(w.jobs, r)
  {
    if w.place == Adding && w.doDequeue && Fits(w.jobs, r) {
      forall trace | Runs(w, trace, capacity)
        ensures !(After(w, trace, capacity).place == NoThread && r in After(w, trace, capacity).jobs.queue)
      {
        RunStaysTaken(w, trace, r, capacity);
      }
    } else {
      StepKeeps(w, Close, capacity);
      OtherwiseStrands(Step(w, Close, capacity), r, capacity);
      StrandedAnyhowAfter(w, Close, r, capacity);
    }
  }

  /** A live, idle worker that is not shutting down, reached from the start, strands a request that
      comes after poll has timed out and before the idle time is looked at. */
  lemma StrandedWhileIdling(q: Request, r: Request, capacity: nat)
    requires q != r && q.handle != r.handle
    ensures var trace := [Enqueue(q), Init(true), Evaluate, Dequeue, Add(true), Enqueue(r)];
            Runs(IDLE, trace, capacity)
            && var w := After(IDLE, trace, capacity);
               !w.abort && !w.closePending && w.jobs.queue == [r] && Strandable(w, r, capacity)
  {
    var w1 := Step(IDLE, Enqueue(q), capacity);
    var w2 := Step(w1, Init(true), capacity);
    var w3 := Step(w2, Evaluate, capacity);
    var rest := [Dequeue, Add(true), Enqueue(r)];
    IdlingTail(w3, q, r, capacity);
    PerformStrands(After(w3, rest, capacity), r, capacity);
    OneMore(w2, Evaluate, rest, capacity);
    OneMore(w1, Init(true), [Evaluate] + rest, capacity);
    OneMore(IDLE, Enqueue(q), [Init(true)] + ([Evaluate] + rest), capacity);
    assert [Enqueue(q)] + ([Init(true)] + ([Evaluate] + rest))
        == [Enqueue(q), Init(true), Evaluate, Dequeue, Add(true), Enqueue(r)];
  }

  lemma IdlingTail(w: Worker, q: Request, r: Request, capacity: nat)
    requires q != r && q.handle != r.handle && w.place == Adding && w.doDequeue && w.jobs == Accept(NO_JOBS, q)
    ensures var rest := [Dequeue, Add(true), Enqueue(r)];
            Runs(w, rest, capacity)
            && var end := After(w, rest, capacity);
               end.place == AtPerform && end.jobs.queue == [r] && end.abort == w.abort
               && end.closePending == w.closePending
  {
    IdlingAdds(w, q, r, capacity);
    var w4 := Step(w, Dequeue, capacity);
    var w5 := Step(w4, Add(true), capacity);
    OneMore(w5, Enqueue(r), [], capacity);
    OneMore(w4, Add(true), [Enqueue(r)] + [], capacity);
    OneMore(w, Dequeue, [Add(true)] + ([Enqueue(r)] + []), capacity);
    assert [Dequeue] + ([Add(true)] + ([Enqueue(r)] + [])) == [Dequeue, Add(true), Enqueue(r)];
  }

  lemma IdlingAdds(w: Worker, q: Request, r: Request, capacity: nat)
    requires q != r && q.handle != r.handle && w.place == Adding && w.doDequeue
    requires w.jobs == Accept(NO_JOBS, q)
    ensures Enabled(w, Dequeue) && Enabled(Step(w, Dequeue, capacity), Add(true))
    ensures var w5 := Step(Step(w, Dequeue, capacity), Add(true), capacity);
            Enabled(w5, Enqueue(r)) && w5.place == AtPerform && Step(w5, Enqueue(r), capacity).jobs.queue == [r]
            && w5.abort == w.abort && w5.closePending == w.closePending
  {
    assert w.jobs.queue == [q] && w.jobs.enqueued == [q];
    var w4 := Step(w, Dequeue, capacity);
    assert w4.jobs.taken == [q] && w4.jobs.queue == [];
  }

  lemma OneMore(w: Worker, e: Event, rest: seq<Event>, capacity: nat)
    requires Enabled(w, e) && Runs(Step(w, e, capacity), rest, capacity)
    ensures Runs(w, [e] + rest, capacity)
    ensures After(w, [e] + rest, capacity) == After(Step(w, e, capacity), rest, capacity)
  {
    assert ([e] + rest)[1..] == rest;
  }
}
