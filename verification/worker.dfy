/**
 The request scheduler of restincurl.h: a queue that any thread may fill, at most 32 transfers in
 flight, and a worker thread that sleeps in poll beside a wake pipe. A step is one critical section
 or one system call of one thread, so every interleaving of the threads is a sequence of steps.
 */
module RequestWorker {
  const MAX_CONNECTIONS: nat := 32

  /** Requests are distinct objects; the easy handle is owned by its request while that lives. */
  datatype Request = Request(id: nat, handle: nat)

  /** The requests, and what has happened to them so far. `taken` has left the queue and is about to
      be handed to libcurl. */
  datatype Jobs = Jobs(
    queue: seq<Request>,
    taken: seq<Request>,
    ongoing: map<nat, Request>,
    pendingEntries: bool,
    enqueued: seq<Request>,
    admitted: seq<Request>,
    completed: seq<Request>,
    dropped: seq<Request>)

  const NO_JOBS := Jobs([], [], map[], false, [], [], [], [])

  // ----- the requests

  function Accept(j: Jobs, r: Request): Jobs
  {
    j.(queue := j.queue + [r], enqueued := j.enqueued + [r])
  }

  /** How many of the queued requests may start. The free places are counted in unsigned
      arithmetic, so more than 32 transfers would leave room for everything. */
  function Room(j: Jobs): (n: nat)
    ensures n <= |j.queue|
  {
    if |j.queue| + |j.ongoing| <= MAX_CONNECTIONS || |j.ongoing| > MAX_CONNECTIONS
       || |j.queue| < MAX_CONNECTIONS - |j.ongoing|
    then |j.queue|
    else MAX_CONNECTIONS - |j.ongoing|
  }

  /** The part of Dequeue that holds the lock. */
  function Take(j: Jobs): Jobs
  {
    var n := Room(j);
    j.(queue := j.queue[n..], taken := j.queue[..n], admitted := j.admitted + j.queue[..n],
       pendingEntries := |j.queue| + |j.ongoing| > MAX_CONNECTIONS)
  }

  function Start(j: Jobs): Jobs
    requires j.taken != []
  {
    var r := j.taken[0];
    j.(ongoing := j.ongoing[r.handle := r], taken := j.taken[1..])
  }

  /** libcurl refused a handle: the exception unwinds over the requests not yet handed over. */
  function Abandon(j: Jobs): Jobs
  {
    j.(taken := [], dropped := j.dropped + j.taken)
  }

  function Complete(j: Jobs, handle: nat): Jobs
  {
    if handle in j.ongoing
    then j.(ongoing := j.ongoing - {handle}, completed := j.completed + [j.ongoing[handle]])
    else j
  }

  /** Requests that have not been handed to libcurl, oldest first. */
  function Waiting(j: Jobs): seq<Request>
  {
    j.taken + j.queue
  }

  /** A new request has its own identity and its handle is not in use. */
  predicate New(j: Jobs, r: Request)
  {
    r !in j.enqueued && r.handle !in j.ongoing && forall q :: q in Waiting(j) ==> q.handle != r.handle
  }

  predicate NoDuplicates(s: seq<Request>)
  {
    forall i, j :: 0 <= i < j < |s| ==> s[i] != s[j]
  }

  predicate DistinctHandles(s: seq<Request>)
  {
    forall i, j :: 0 <= i < j < |s| ==> s[i].handle != s[j].handle
  }

  predicate Ongoing(j: Jobs, r: Request)
  {
    r.handle in j.ongoing && j.ongoing[r.handle] == r
  }

  /** How many of the four places hold `r`. */
  function Holders(j: Jobs, r: Request): nat
  {
    (if r in Waiting(j) then 1 else 0) + (if Ongoing(j, r) then 1 else 0)
    + (if r in j.completed then 1 else 0) + (if r in j.dropped then 1 else 0)
  }

  /** Every request ever enqueued is in exactly one place, once, and nothing else is anywhere. */
  ghost predicate Conserved(j: Jobs)
  {
    && (forall r :: Holders(j, r) == if r in j.enqueued then 1 else 0)
    && NoDuplicates(j.enqueued) && NoDuplicates(j.completed) && NoDuplicates(j.dropped)
  }

  predicate HandlesOwned(j: Jobs)
  {
    && (forall h :: h in j.ongoing ==> j.ongoing[h].handle == h)
    && (forall i :: 0 <= i < |Waiting(j)| ==> Waiting(j)[i].handle !in j.ongoing)
    && DistinctHandles(Waiting(j))
  }

  /** Requests leave the queue in the order in which they entered it. */
  predicate InOrder(j: Jobs)
  {
    j.enqueued == j.admitted + j.queue
  }

  predicate Bounded(j: Jobs)
  {
    |j.ongoing| + |j.taken| <= MAX_CONNECTIONS
  }

  ghost predicate JobsOk(j: Jobs)
  {
    Conserved(j) && HandlesOwned(j) && InOrder(j) && Bounded(j)
  }

  lemma AcceptKeeps(j: Jobs, r: Request)
    requires JobsOk(j) && New(j, r)
    ensures JobsOk(Accept(j, r))
  {
    var next := Accept(j, r);
    assert Waiting(next) == Waiting(j) + [r];
    assert j.enqueued + [r] == j.admitted + (j.queue + [r]);
    assert Holders(j, r) == 0;
    forall q
      ensures Holders(next, q) == if q in next.enqueued then 1 else 0
    {
      assert Holders(j, q) == if q in j.enqueued then 1 else 0;
      assert q in Waiting(next) <==> q in Waiting(j) || q == r;
    }
  }

  /** Taking leaves the queue empty or fills every place. */
  lemma TakeKeeps(j: Jobs)
    requires JobsOk(j) && j.taken == []
    ensures var next := Take(j);
            JobsOk(next) && (next.pendingEntries <==> next.queue != [])
            && if next.pendingEntries then |next.ongoing| + |next.taken| == MAX_CONNECTIONS
               else next.queue == []
  {
    var next, n := Take(j), Room(j);
    assert Waiting(next) == Waiting(j);
    assert j.admitted + j.queue[..n] + j.queue[n..] == j.admitted + j.queue;
    forall q
      ensures Holders(next, q) == if q in next.enqueued then 1 else 0
    {
      assert Holders(next, q) == Holders(j, q);
    }
  }

  /** There are 32 places. */
  lemma PlacesAre32(j: Jobs)
    requires JobsOk(j) && j.taken == []
    ensures |j.ongoing| <= 32
    ensures |Take(j).taken| == if |j.queue| <= 32 - |j.ongoing| then |j.queue| else 32 - |j.ongoing|
  {
  }

  lemma SplitMembership(s: seq<Request>, n: nat, q: Request)
    requires n <= |s|
    ensures q in s <==> q in s[..n] || q in s[n..]
    ensures DistinctHandles(s) ==> !(q in s[..n] && q in s[n..])
  {
  }

  lemma StartKeeps(j: Jobs)
    requires JobsOk(j) && j.taken != []
    ensures JobsOk(Start(j))
  {
    var next, r := Start(j), j.taken[0];
    assert Waiting(next) == Waiting(j)[1..];
    assert r == Waiting(j)[0];
    assert next.ongoing.Keys == j.ongoing.Keys + {r.handle};
    forall q
      ensures Holders(next, q) == if q in next.enqueued then 1 else 0
    {
      assert Holders(j, q) == if q in j.enqueued then 1 else 0;
      SplitMembership(Waiting(j), 1, q);
      assert q in Waiting(j)[..1] <==> q == r;
    }
  }

  lemma AbandonKeeps(j: Jobs)
    requires JobsOk(j)
    ensures JobsOk(Abandon(j))
  {
    var next, n := Abandon(j), |j.taken|;
    assert Waiting(next) == j.queue;
    assert Waiting(j)[..n] == j.taken && Waiting(j)[n..] == j.queue;
    forall q
      ensures Holders(next, q) == Holders(j, q)
    {
      AbandonedOne(j, q);
    }
    AbandonedOnce(j);
    assert HandlesOwned(next) by {
      assert forall i :: 0 <= i < |j.queue| ==> j.queue[i] == Waiting(j)[i + n];
    }
  }

  lemma AbandonedOne(j: Jobs, q: Request)
    requires JobsOk(j)
    ensures Holders(Abandon(j), q) == Holders(j, q)
  {
    var n := |j.taken|;
    assert Waiting(Abandon(j)) == j.queue;
    assert Waiting(j)[..n] == j.taken && Waiting(j)[n..] == j.queue;
    SplitMembership(Waiting(j), n, q);
    assert Holders(j, q) <= 1;
  }

  lemma AbandonedOnce(j: Jobs)
    requires JobsOk(j)
    ensures NoDuplicates(j.dropped + j.taken)
  {
    var all, k := j.dropped + j.taken, |j.dropped|;
    forall a, b | 0 <= a < b < |all|
      ensures all[a] != all[b]
    {
      if a < k <= b {
        assert Holders(j, j.dropped[a]) == 1;
        assert all[b] == Waiting(j)[b - k];
      } else if k <= a {
        assert Waiting(j)[a - k].handle != Waiting(j)[b - k].handle;
      }
    }
  }

  lemma CompleteKeeps(j: Jobs, handle: nat)
    requires JobsOk(j)
    ensures JobsOk(Complete(j, handle))
  {
    if handle in j.ongoing {
      var next, r := Complete(j, handle), j.ongoing[handle];
      assert j.ongoing.Keys == next.ongoing.Keys + {handle};
      assert Waiting(next) == Waiting(j);
      forall q
        ensures Holders(next, q) == if q in next.enqueued then 1 else 0
      {
        assert Holders(j, q) == if q in j.enqueued then 1 else 0;
      }
      assert Holders(j, r) == 1;
    }
  }

  // ----- the threads

  /** Where the worker thread stands in Run. */
  datatype Place =
    | NoThread
    | Starting
    | AtEvaluate
    | Adding
    | AtPerform
    | AtMessages
    | AtExitCheck
    | AtPoll
    | Draining(signalled: bool)
    | AfterPoll
    | Stopping
    | Leaving

  datatype Worker = Worker(
    jobs: Jobs,
    closePending: bool,
    abort: bool,
    done: bool,
    wake: nat,
    place: Place,
    doDequeue: bool,
    transfers: int)

  const IDLE := Worker(NO_JOBS, false, false, false, 0, NoThread, false, -1)

  datatype Event =
    | Enqueue(request: Request)
    | CloseWhenFinished
    | Close
    | Init(ok: bool)
    | Evaluate
    | Dequeue
    | Add(accepted: bool)
    | Perform(running: nat, idleTooLong: bool)
    | Message(handle: nat)
    | NoMoreMessages
    | ExitCheck
    | Poll(ok: bool, readable: bool)
    | Read
    | Resume
    | Finish
    | ThreadGone

  /** One byte into the wake pipe; a full pipe makes the writer throw and changes nothing. */
  function Signalled(w: Worker, capacity: nat): Worker
  {
    if w.wake < capacity then w.(wake := w.wake + 1) else w
  }

  function PrepareThread(w: Worker): Worker
  {
    if w.abort || w.done || w.place != NoThread then w
    else w.(place := Starting, doDequeue := true, transfers := -1)
  }

  function Enqueued(w: Worker, r: Request, capacity: nat): Worker
  {
    Signalled(PrepareThread(w).(jobs := Accept(w.jobs, r)), capacity)
  }

  /** The loop is left. What follows it, but not an exception, then notes whether somebody closed. */
  function Left(w: Worker): Worker
  {
    w.(place := Stopping)
  }

  predicate Enabled(w: Worker, e: Event)
  {
    match e
    case Enqueue(r) => New(w.jobs, r)
    case CloseWhenFinished => true
    case Close => true
    case Init(_) => w.place == Starting
    case Evaluate => w.place == AtEvaluate
    case Dequeue => w.place == Adding && w.doDequeue && w.jobs.taken == []
    case Add(_) => w.place == Adding && w.jobs.taken != []
    case Perform(_, _) => w.place == AtPerform
    case Message(_) => w.place == AtMessages
    case NoMoreMessages => w.place == AtMessages
    case ExitCheck => w.place == AtExitCheck
    case Poll(_, _) => w.place == AtPoll
    case Read => w.place.Draining?
    case Resume => w.place == AfterPoll
    case Finish => w.place == Stopping
    case ThreadGone => w.place == Leaving
  }

  /** What EvaluateState tests, and, negated, the test before poll. */
  predicate GoesOn(w: Worker)
  {
    !w.abort && (w.transfers != 0 || !w.closePending)
  }

  function Added(w: Worker, accepted: bool): Worker
    requires w.jobs.taken != []
  {
    var started := Start(w.jobs);
    if !accepted then w.(jobs := Abandon(started), place := Leaving)
    else w.(jobs := started, place := if started.taken == [] then AtPerform else Adding)
  }

  function Performed(w: Worker, running: nat, idleTooLong: bool): Worker
  {
    var transfers: int := if running == 0 && w.transfers == -1 then -1 else running;
    var ran := w.(transfers := transfers, place := AtMessages);
    if transfers <= 0 && idleTooLong then Left(ran) else ran
  }

  function Step(w: Worker, e: Event, capacity: nat): Worker
    requires Enabled(w, e)
  {
    match e
    case Enqueue(r) => Enqueued(w, r, capacity)
    case CloseWhenFinished => Signalled(w.(closePending := true), capacity)
    case Close => Signalled(w.(abort := true), capacity)
    case Init(ok) => w.(place := if ok then AtEvaluate else Leaving)
    case Evaluate =>
      if GoesOn(w)
      then w.(place := if w.doDequeue then Adding else AtPerform)
      else Left(w)
    case Dequeue =>
      var jobs := Take(w.jobs);
      w.(jobs := jobs, doDequeue := false, place := if jobs.taken == [] then AtPerform else Adding)
    case Add(accepted) => Added(w, accepted)
    case Perform(running, idleTooLong) => Performed(w, running, idleTooLong)
    case Message(handle) => w.(jobs := Complete(w.jobs, handle))
    case NoMoreMessages => w.(place := AtExitCheck)
    case ExitCheck =>
      if GoesOn(w) then w.(place := AtPoll) else Left(w)
    case Poll(ok, readable) =>
      w.(place := if !ok then Leaving else if readable then Draining(false) else AfterPoll)
    case Read =>
      if w.wake > 0 then w.(wake := w.wake - 1, place := Draining(true))
      else w.(doDequeue := w.place.signalled, place := AfterPoll)
    case Resume => w.(doDequeue := w.doDequeue || w.jobs.pendingEntries, place := AtEvaluate)
    case Finish => w.(place := Leaving, done := w.done || w.closePending || w.abort)
    case ThreadGone => w.(place := NoThread)
  }

  /** `trace` is a run: each event is enabled where it happens. */
  predicate Runs(w: Worker, trace: seq<Event>, capacity: nat)
    decreases |trace|
  {
    trace == [] || (Enabled(w, trace[0]) && Runs(Step(w, trace[0], capacity), trace[1..], capacity))
  }

  function After(w: Worker, trace: seq<Event>, capacity: nat): Worker
    requires Runs(w, trace, capacity)
    decreases |trace|
  {
    if trace == [] then w else After(Step(w, trace[0], capacity), trace[1..], capacity)
  }

  // ----- what every step keeps

  /** The requests that cannot reach the worker without a wake-up are announced to it. */
  predicate Announced(w: Worker)
  {
    w.place.NoThread? || w.place.Leaving? || w.jobs.queue == []
    || w.jobs.pendingEntries || w.wake > 0 || w.doDequeue || w.place == Draining(true)
  }

  predicate ControlOk(w: Worker)
  {
    && (w.jobs.taken != [] ==> w.place == Adding && !w.doDequeue)
    && (w.place == Adding ==> w.doDequeue || w.jobs.taken != [])
    && (w.place.Draining? || w.place.AtPerform? || w.place.AtMessages? || w.place.AtExitCheck? || w.place.AtPoll?
        ==> !w.doDequeue)
  }

  ghost predicate Inv(w: Worker)
  {
    JobsOk(w.jobs) && Announced(w) && ControlOk(w)
  }

  function JobsAfter(w: Worker, e: Event): Jobs
    requires Enabled(w, e)
  {
    match e
    case Enqueue(r) => Accept(w.jobs, r)
    case Dequeue => Take(w.jobs)
    case Add(accepted) => if accepted then Start(w.jobs) else Abandon(Start(w.jobs))
    case Message(handle) => Complete(w.jobs, handle)
    case _ => w.jobs
  }

  lemma JobsKeep(w: Worker, e: Event)
    requires JobsOk(w.jobs) && Enabled(w, e)
    ensures JobsOk(JobsAfter(w, e))
  {
    match e
    case Enqueue(r) => AcceptKeeps(w.jobs, r);
    case Dequeue => TakeKeeps(w.jobs);
    case Add(_) =>
      StartKeeps(w.jobs);
      AbandonKeeps(Start(w.jobs));
    case Message(handle) => CompleteKeeps(w.jobs, handle);
    case _ =>
  }

  lemma WakeKeeps(w: Worker, e: Event, capacity: nat)
    requires capacity > 0 && Announced(w) && ControlOk(w) && Enabled(w, e)
    ensures Announced(Step(w, e, capacity)) && ControlOk(Step(w, e, capacity))
  {
  }

  lemma StepKeeps(w: Worker, e: Event, capacity: nat)
    requires capacity > 0 && Inv(w) && Enabled(w, e)
    ensures Inv(Step(w, e, capacity))
  {
    assert Step(w, e, capacity).jobs == JobsAfter(w, e);
    JobsKeep(w, e);
    WakeKeeps(w, e, capacity);
  }

  /** Conservation, order, the bound and the announcement hold at the end of every run. */
  lemma {:induction false} EveryRunKeeps(w: Worker, trace: seq<Event>, capacity: nat)
    requires capacity > 0 && Inv(w) && Runs(w, trace, capacity)
    ensures Inv(After(w, trace, capacity))
    decreases |trace|
  {
    if trace != [] {
      StepKeeps(w, trace[0], capacity);
      EveryRunKeeps(Step(w, trace[0], capacity), trace[1..], capacity);
    }
  }

  lemma RunsFromIdle(trace: seq<Event>, capacity: nat)
    requires capacity > 0 && Runs(IDLE, trace, capacity)
    ensures Inv(After(IDLE, trace, capacity))
  {
    assert Conserved(NO_JOBS);
    EveryRunKeeps(IDLE, trace, capacity);
  }

  /** No lost wake-up: a worker about to block in poll either has no queued request, or will look
      again by itself, or will find a byte in its pipe. */
  lemma NoLostWakeup(trace: seq<Event>, capacity: nat)
    requires capacity > 0 && Runs(IDLE, trace, capacity)
    ensures var w := After(IDLE, trace, capacity);
            w.place == AtPoll && w.jobs.queue != [] ==> w.jobs.pendingEntries || w.wake > 0
  {
    RunsFromIdle(trace, capacity);
  }

  // ----- the worker object

  /** Hands over what has been taken until libcurl, after `accepts` requests, refuses one. */
  function AddAll(j: Jobs, accepts: nat): Jobs
    decreases |j.taken|
  {
    if j.taken == [] then j
    else if accepts == 0 then Abandon(Start(j))
    else AddAll(Start(j), accepts - 1)
  }

  lemma StartCounts(j: Jobs)
    requires HandlesOwned(j) && j.taken != []
    ensures |Start(j).ongoing| == |j.ongoing| + 1
  {
    assert Waiting(j)[0] == j.taken[0];
    assert Start(j).ongoing.Keys == j.ongoing.Keys + {j.taken[0].handle};
  }

  lemma {:induction false} AddAllKeeps(j: Jobs, accepts: nat)
    requires JobsOk(j)
    ensures var next := AddAll(j, accepts);
            JobsOk(next) && next.taken == [] && next.queue == j.queue
            && (accepts >= |j.taken| ==> |next.ongoing| == |j.ongoing| + |j.taken|)
    decreases |j.taken|
  {
    if j.taken != [] {
      StartKeeps(j);
      if accepts == 0 {
        AbandonKeeps(Start(j));
      } else {
        StartCounts(j);
        AddAllKeeps(Start(j), accepts - 1);
      }
    }
  }

  class RequestQueue {
    const capacity: nat
    var queue: seq<Request>
    var ongoing: map<nat, Request>
    var pendingEntries: bool
    var closePending: bool
    var abort: bool
    var done: bool
    var hasThread: bool
    var wake: nat
    ghost var enqueued: seq<Request>
    ghost var admitted: seq<Request>
    ghost var completed: seq<Request>
    ghost var dropped: seq<Request>

    ghost function Abs(): Jobs
      reads this
    {
      Jobs(queue, [], ongoing, pendingEntries, enqueued, admitted, completed, dropped)
    }

    ghost predicate Valid()
      reads this
    {
      JobsOk(Abs()) && wake <= capacity
    }

    constructor (capacity: nat)
      ensures Valid() && Abs() == NO_JOBS && wake == 0 && this.capacity == capacity
      ensures !closePending && !abort && !done && !hasThread
    {
      this.capacity := capacity;
      queue, ongoing, pendingEntries := [], map[], false;
      closePending, abort, done, hasThread, wake := false, false, false, false, 0;
      enqueued, admitted, completed, dropped := [], [], [], [];
      new;
      assert Conserved(NO_JOBS);
    }

    method Signal() returns (ok: bool)
      modifies this`wake
      ensures ok == (old(wake) < capacity)
      ensures wake == if ok then old(wake) + 1 else old(wake)
    {
      ok := wake < capacity;
      if ok {
        wake := wake + 1;
      }
    }

    /** The request is queued even when the wake pipe is full and the call throws. */
    method Enqueue(r: Request) returns (ok: bool)
      requires Valid() && New(Abs(), r)
      modifies this`queue, this`enqueued, this`hasThread, this`wake
      ensures Valid() && Abs() == Accept(old(Abs()), r)
      ensures hasThread == (old(hasThread) || !(abort || done))
      ensures ok == (old(wake) < capacity) && wake == (if ok then old(wake) + 1 else old(wake))
    {
      if !(abort || done) && !hasThread {
        hasThread := true;
      }
      AcceptKeeps(Abs(), r);
      queue := queue + [r];
      enqueued := enqueued + [r];
      ok := Signal();
    }

    /** Reads the pipe until it is empty. */
    method WasSignalled() returns (rval: bool)
      modifies this`wake
      ensures wake == 0 && rval == (old(wake) > 0)
    {
      rval := false;
      while wake > 0
        invariant rval || wake == old(wake)
        invariant rval ==> old(wake) > 0
      {
        wake := wake - 1;
        rval := true;
      }
    }

    /** The block of Dequeue that holds the lock. */
    method TakeFromQueue() returns (tmp: seq<Request>)
      requires Valid()
      modifies this`queue, this`pendingEntries, this`admitted
      ensures Abs().(taken := tmp) == Take(old(Abs()))
    {
      if |queue| + |ongoing| <= MAX_CONNECTIONS {
        tmp := queue;
        queue := [];
        pendingEntries := false;
      } else {
        var remains := if MAX_CONNECTIONS - |ongoing| < |queue| then MAX_CONNECTIONS - |ongoing| else |queue|;
        tmp, queue := queue[..remains], queue[remains..];
        pendingEntries := true;
      }
      admitted := admitted + tmp;
    }

    /** The loop of Dequeue that hands the requests to libcurl. */
    method StartTransfers(tmp: seq<Request>, accepts: nat) returns (ok: bool)
      modifies this`ongoing, this`dropped
      ensures Abs() == AddAll(old(Abs()).(taken := tmp), accepts)
      ensures ok == (accepts >= |tmp|)
    {
      for i := 0 to |tmp|
        invariant i <= accepts
        invariant dropped == old(dropped)
        invariant AddAll(Abs().(taken := tmp[i..]), accepts - i) == AddAll(old(Abs()).(taken := tmp), accepts)
      {
        assert tmp[i..][1..] == tmp[i + 1..];
        ongoing := ongoing[tmp[i].handle := tmp[i]];
        if i >= accepts {
          dropped := dropped + tmp[i + 1..];
          return false;
        }
      }
      ok := true;
    }

    method Dequeue(accepts: nat) returns (ok: bool)
      requires Valid()
      modifies this`queue, this`ongoing, this`pendingEntries, this`admitted, this`dropped
      ensures Valid() && Abs() == AddAll(Take(old(Abs())), accepts)
      ensures ok ==> if pendingEntries then |ongoing| == MAX_CONNECTIONS else queue == []
    {
      TakeKeeps(Abs());
      AddAllKeeps(Take(Abs()), accepts);
      var tmp := TakeFromQueue();
      ok := StartTransfers(tmp, accepts);
    }

    /** One completion message. */
    method FinishRequest(handle: nat)
      requires Valid()
      modifies this`ongoing, this`completed
      ensures Valid() && Abs() == Complete(old(Abs()), handle)
    {
      CompleteKeeps(Abs(), handle);
      if handle in ongoing {
        completed := completed + [ongoing[handle]];
        ongoing := ongoing - {handle};
      }
    }
  }
}
