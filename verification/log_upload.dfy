/**
 uploadAllLogs in HttpClient.cpp: any number of calls at once share one set of paths being uploaded,
 and each call counts its own completions. One step is one critical section or one callback.
 */
module LogUpload {

  /** What uploadAllLogs reports. */
  datatype Summary = Summary(total: nat, succeeded: nat, removed: nat, secError: bool)

  /** How far one file's completion has come: its upload runs, its outcome is counted, its path is
      released, its completion has returned. */
  datatype Phase = Sending | Counted | Released | Returned

  datatype Outcome = Outcome(succeeded: bool, secError: bool)

  datatype Task = Task(path: string, phase: Phase, outcome: Outcome, last: bool)

  datatype Call = Call(tasks: seq<Task>, summary: Summary, pending: nat, hasCallback: bool, reports: seq<Summary>)

  datatype World = World(uploading: set<string>, calls: seq<Call>)

  datatype Event =
    | Start(paths: seq<string>, hasCallback: bool)
    | Count(call: nat, task: nat, outcome: Outcome)
    | Release(call: nat, task: nat)
    | Return(call: nat, task: nat)

  const NOTHING := Outcome(false, false)

  const IDLE := World({}, [])

  // ----- claiming paths

  /** Paths neither in flight nor already claimed, in order. */
  function Claimed(held: set<string>, paths: seq<string>): seq<string>
    decreases |paths|
  {
    if paths == [] then []
    else if paths[0] in held then Claimed(held, paths[1..])
    else [paths[0]] + Claimed(held + {paths[0]}, paths[1..])
  }

  predicate Distinct(paths: seq<string>)
  {
    forall i, j :: 0 <= i < j < |paths| ==> paths[i] != paths[j]
  }

  function Elements(paths: seq<string>): set<string>
  {
    set p | p in paths
  }

  /** A claim takes each free path once, takes nothing that is in flight, and leaves nothing out. */
  lemma {:induction false} ClaimIsExact(held: set<string>, paths: seq<string>)
    ensures Distinct(Claimed(held, paths))
    ensures Elements(Claimed(held, paths)) == Elements(paths) - held
    decreases |paths|
  {
    if paths != [] {
      if paths[0] in held {
        ClaimIsExact(held, paths[1..]);
      } else {
        var rest := Claimed(held + {paths[0]}, paths[1..]);
        ClaimIsExact(held + {paths[0]}, paths[1..]);
        assert paths[0] !in Elements(rest);
        assert Elements([paths[0]] + rest) == {paths[0]} + Elements(rest);
        assert Elements(paths) == {paths[0]} + Elements(paths[1..]);
      }
    }
  }

  function Fresh(paths: seq<string>): seq<Task>
  {
    seq(|paths|, i requires 0 <= i < |paths| => Task(paths[i], Sending, NOTHING, false))
  }

  // ----- steps

  function Started(held: set<string>, paths: seq<string>, hasCallback: bool): Call
  {
    var claimed := Claimed(held, paths);
    var summary := Summary(|claimed|, 0, 0, false);
    Call(Fresh(claimed), summary, |claimed|, hasCallback, if claimed == [] && hasCallback then [summary] else [])
  }

  function Tallied(s: Summary, o: Outcome): Summary
  {
    s.(secError := s.secError || o.secError,
       succeeded := if o.succeeded then s.succeeded + 1 else s.succeeded,
       removed := if o.succeeded then s.removed + 1 else s.removed)
  }

  function CallCounted(c: Call, j: nat, o: Outcome): Call
    requires j < |c.tasks|
  {
    var pending := if c.pending > 0 then c.pending - 1 else 0;
    var last := c.pending > 0 && pending == 0;
    c.(tasks := c.tasks[j := c.tasks[j].(phase := Counted, outcome := o, last := last)],
       summary := Tallied(c.summary, o),
       pending := pending)
  }

  function CallReleased(c: Call, j: nat): Call
    requires j < |c.tasks|
  {
    c.(tasks := c.tasks[j := c.tasks[j].(phase := Released)])
  }

  function CallReturned(c: Call, j: nat): Call
    requires j < |c.tasks|
  {
    c.(tasks := c.tasks[j := c.tasks[j].(phase := Returned)],
       reports := if c.tasks[j].last && c.hasCallback then c.reports + [c.summary] else c.reports)
  }

  predicate At(w: World, i: nat, j: nat, phase: Phase)
  {
    i < |w.calls| && j < |w.calls[i].tasks| && w.calls[i].tasks[j].phase == phase
  }

  predicate Enabled(w: World, e: Event)
  {
    match e
    case Start(_, _) => true
    case Count(i, j, _) => At(w, i, j, Sending)
    case Release(i, j) => At(w, i, j, Counted)
    case Return(i, j) => At(w, i, j, Released)
  }

  function Step(w: World, e: Event): World
    requires Enabled(w, e)
  {
    match e
    case Start(paths, hasCallback) =>
      World(w.uploading + Elements(Claimed(w.uploading, paths)), w.calls + [Started(w.uploading, paths, hasCallback)])
    case Count(i, j, o) => w.(calls := w.calls[i := CallCounted(w.calls[i], j, o)])
    case Release(i, j) =>
      World(w.uploading - {w.calls[i].tasks[j].path}, w.calls[i := CallReleased(w.calls[i], j)])
    case Return(i, j) => w.(calls := w.calls[i := CallReturned(w.calls[i], j)])
  }

  predicate Runs(w: World, trace: seq<Event>)
    decreases |trace|
  {
    trace == [] || (Enabled(w, trace[0]) && Runs(Step(w, trace[0]), trace[1..]))
  }

  function After(w: World, trace: seq<Event>): World
    requires Runs(w, trace)
    decreases |trace|
  {
    if trace == [] then w else After(Step(w, trace[0]), trace[1..])
  }

  // ----- what one call keeps

  predicate Holds(t: Task)
  {
    t.phase.Sending? || t.phase.Counted?
  }

  function Held(tasks: seq<Task>): set<string>
  {
    set j | 0 <= j < |tasks| && Holds(tasks[j]) :: tasks[j].path
  }

  function SendingCount(tasks: seq<Task>): nat
  {
    if tasks == [] then 0 else SendingCount(tasks[1..]) + if tasks[0].phase.Sending? then 1 else 0
  }

  function SucceededCount(tasks: seq<Task>): nat
  {
    if tasks == [] then 0
    else SucceededCount(tasks[1..]) + if !tasks[0].phase.Sending? && tasks[0].outcome.succeeded then 1 else 0
  }

  function AnySecError(tasks: seq<Task>): bool
  {
    tasks != [] && ((!tasks[0].phase.Sending? && tasks[0].outcome.secError) || AnySecError(tasks[1..]))
  }

  /** The summary is the tally of the outcomes counted so far. */
  predicate Tally(c: Call)
  {
    && c.pending == SendingCount(c.tasks)
    && c.summary.total == |c.tasks|
    && c.summary.succeeded == c.summary.removed == SucceededCount(c.tasks)
    && c.summary.secError == AnySecError(c.tasks)
  }

  /** Exactly one completion is the last, and only once every file is counted. */
  predicate OneLast(c: Call)
  {
    && (forall j :: 0 <= j < |c.tasks| && c.tasks[j].last ==> c.pending == 0 && !c.tasks[j].phase.Sending?)
    && (forall j, k :: 0 <= j < k < |c.tasks| ==> !(c.tasks[j].last && c.tasks[k].last))
    && (c.pending == 0 && c.tasks != [] ==> exists j :: 0 <= j < |c.tasks| && c.tasks[j].last)
  }

  /** The completion that reports has returned. */
  predicate LastReturned(c: Call)
  {
    c.tasks == [] || exists j :: 0 <= j < |c.tasks| && c.tasks[j].last && c.tasks[j].phase.Returned?
  }

  /** The callback has been given the final summary once, or not at all. */
  predicate ReportedOnce(c: Call)
  {
    c.reports == if c.hasCallback && LastReturned(c) then [c.summary] else []
  }

  predicate DistinctPaths(tasks: seq<Task>)
  {
    forall j, k :: 0 <= j < k < |tasks| ==> tasks[j].path != tasks[k].path
  }

  predicate CallOk(c: Call)
  {
    Tally(c) && OneLast(c) && ReportedOnce(c) && DistinctPaths(c.tasks)
  }

  lemma {:induction false} TallyAfterUpdate(tasks: seq<Task>, j: nat, t: Task)
    requires j < |tasks| && tasks[j].phase.Sending? && !t.phase.Sending?
    ensures SendingCount(tasks[j := t]) == SendingCount(tasks) - 1
    ensures SucceededCount(tasks[j := t]) == SucceededCount(tasks) + if t.outcome.succeeded then 1 else 0
    ensures AnySecError(tasks[j := t]) == (AnySecError(tasks) || t.outcome.secError)
    decreases |tasks|
  {
    if j == 0 {
      assert tasks[0 := t][1..] == tasks[1..];
    } else {
      assert tasks[j := t][1..] == tasks[1..][j - 1 := t];
      TallyAfterUpdate(tasks[1..], j - 1, t);
    }
  }

  lemma {:induction false} TallyUnchanged(tasks: seq<Task>, j: nat, t: Task)
    requires j < |tasks| && !tasks[j].phase.Sending? && !t.phase.Sending? && t.outcome == tasks[j].outcome
    ensures SendingCount(tasks[j := t]) == SendingCount(tasks)
    ensures SucceededCount(tasks[j := t]) == SucceededCount(tasks)
    ensures AnySecError(tasks[j := t]) == AnySecError(tasks)
    decreases |tasks|
  {
    if j == 0 {
      assert tasks[0 := t][1..] == tasks[1..];
    } else {
      assert tasks[j := t][1..] == tasks[1..][j - 1 := t];
      TallyUnchanged(tasks[1..], j - 1, t);
    }
  }

  lemma {:induction false} CountsBound(tasks: seq<Task>)
    ensures SucceededCount(tasks) + SendingCount(tasks) <= |tasks|
    ensures SendingCount(tasks) == 0 <==> forall j :: 0 <= j < |tasks| ==> !tasks[j].phase.Sending?
    decreases |tasks|
  {
    if tasks != [] {
      CountsBound(tasks[1..]);
      assert forall j :: 0 < j < |tasks| ==> tasks[j] == tasks[1..][j - 1];
    }
  }

  lemma {:induction false} FreshTally(paths: seq<string>)
    ensures SendingCount(Fresh(paths)) == |paths|
    ensures SucceededCount(Fresh(paths)) == 0 && !AnySecError(Fresh(paths))
    decreases |paths|
  {
    if paths != [] {
      assert Fresh(paths)[1..] == Fresh(paths[1..]);
      FreshTally(paths[1..]);
    }
  }

  lemma StartedOk(held: set<string>, paths: seq<string>, hasCallback: bool)
    ensures var c := Started(held, paths, hasCallback);
            CallOk(c) && Held(c.tasks) == Elements(paths) - held
  {
    var claimed := Claimed(held, paths);
    ClaimIsExact(held, paths);
    FreshTally(claimed);
    var tasks := Fresh(claimed);
    forall p
      ensures p in Held(tasks) <==> p in Elements(claimed)
    {
      if p in Elements(claimed) {
        var i :| 0 <= i < |claimed| && claimed[i] == p;
        assert tasks[i].path == p && Holds(tasks[i]);
      }
    }
  }

  lemma CountKeeps(c: Call, j: nat, o: Outcome)
    requires CallOk(c) && j < |c.tasks| && c.tasks[j].phase.Sending?
    ensures CallOk(CallCounted(c, j, o)) && Held(CallCounted(c, j, o).tasks) == Held(c.tasks)
  {
    CountsBound(c.tasks);
    var d := CallCounted(c, j, o);
    TallyAfterUpdate(c.tasks, j, d.tasks[j]);
    CountsBound(d.tasks);
    assert d.pending == 0 ==> d.tasks[j].last;
    assert !LastReturned(c) && !LastReturned(d);
    assert forall k :: 0 <= k < |c.tasks| ==>
      Holds(c.tasks[k]) == Holds(d.tasks[k]) && c.tasks[k].path == d.tasks[k].path;
  }

  /** Later phases leave the choice of the last completion alone. */
  lemma LastSettled(c: Call, d: Call)
    requires OneLast(c) && |c.tasks| == |d.tasks| && c.pending == d.pending
    requires forall k :: 0 <= k < |c.tasks| ==>
      c.tasks[k].last == d.tasks[k].last && (d.tasks[k].phase.Sending? ==> c.tasks[k].phase.Sending?)
    ensures OneLast(d)
  {
  }

  lemma ReleaseKeeps(c: Call, j: nat)
    requires CallOk(c) && j < |c.tasks| && c.tasks[j].phase.Counted?
    ensures CallOk(CallReleased(c, j)) && Held(CallReleased(c, j).tasks) == Held(c.tasks) - {c.tasks[j].path}
  {
    var d := CallReleased(c, j);
    TallyUnchanged(c.tasks, j, d.tasks[j]);
    LastSettled(c, d);
    assert forall k :: 0 <= k < |c.tasks| ==> c.tasks[k].path == d.tasks[k].path;
    assert forall k :: 0 <= k < |c.tasks| ==> c.tasks[k].phase.Returned? == d.tasks[k].phase.Returned?;
    assert LastReturned(c) <==> LastReturned(d);
  }

  lemma ReturnKeeps(c: Call, j: nat)
    requires CallOk(c) && j < |c.tasks| && c.tasks[j].phase.Released?
    ensures CallOk(CallReturned(c, j)) && Held(CallReturned(c, j).tasks) == Held(c.tasks)
  {
    var d := CallReturned(c, j);
    TallyUnchanged(c.tasks, j, d.tasks[j]);
    LastSettled(c, d);
    assert forall k :: 0 <= k < |c.tasks| ==> c.tasks[k].path == d.tasks[k].path;
    assert forall k :: 0 <= k < |c.tasks| && k != j ==> c.tasks[k] == d.tasks[k];
    if c.tasks[j].last {
      assert !LastReturned(c);
      assert d.tasks[j].last && d.tasks[j].phase.Returned?;
    }
  }

  // ----- what all calls keep together

  /** The paths being uploaded are those held by the calls, no path by two of them. */
  ghost predicate Partitioned(w: World)
  {
    && (forall p :: p in w.uploading <==> exists i :: 0 <= i < |w.calls| && p in Held(w.calls[i].tasks))
    && (forall i, k :: 0 <= i < k < |w.calls| ==> Held(w.calls[i].tasks) !! Held(w.calls[k].tasks))
  }

  ghost predicate Ok(w: World)
  {
    Partitioned(w) && forall i :: 0 <= i < |w.calls| ==> CallOk(w.calls[i])
  }

  lemma PartitionAfterUpdate(w: World, i: nat, c: Call, gone: set<string>)
    requires Partitioned(w) && i < |w.calls|
    requires gone <= Held(w.calls[i].tasks) && Held(c.tasks) == Held(w.calls[i].tasks) - gone
    ensures Partitioned(World(w.uploading - gone, w.calls[i := c]))
  {
    var v := World(w.uploading - gone, w.calls[i := c]);
    forall p
      ensures p in v.uploading <==> exists k :: 0 <= k < |v.calls| && p in Held(v.calls[k].tasks)
    {
      if p in v.uploading {
        var k :| 0 <= k < |w.calls| && p in Held(w.calls[k].tasks);
        assert p in Held(v.calls[k].tasks);
      }
    }
  }

  lemma PartitionAfterStart(w: World, c: Call, claimed: set<string>)
    requires Partitioned(w) && Held(c.tasks) == claimed && claimed !! w.uploading
    ensures Partitioned(World(w.uploading + claimed, w.calls + [c]))
  {
    var v := World(w.uploading + claimed, w.calls + [c]);
    forall p
      ensures p in v.uploading <==> exists k :: 0 <= k < |v.calls| && p in Held(v.calls[k].tasks)
    {
      if p in w.uploading {
        var k :| 0 <= k < |w.calls| && p in Held(w.calls[k].tasks);
        assert p in Held(v.calls[k].tasks);
      } else if p in claimed {
        assert p in Held(v.calls[|w.calls|].tasks);
      }
    }
  }

  lemma StepKeeps(w: World, e: Event)
    requires Ok(w) && Enabled(w, e)
    ensures Ok(Step(w, e))
  {
    match e
    case Start(paths, hasCallback) =>
      StartedOk(w.uploading, paths, hasCallback);
      ClaimIsExact(w.uploading, paths);
      PartitionAfterStart(w, Started(w.uploading, paths, hasCallback), Elements(paths) - w.uploading);
    case Count(i, j, o) =>
      CountKeeps(w.calls[i], j, o);
      PartitionAfterUpdate(w, i, CallCounted(w.calls[i], j, o), {});
      assert w.uploading - {} == w.uploading;
    case Release(i, j) =>
      ReleaseKeeps(w.calls[i], j);
      PartitionAfterUpdate(w, i, CallReleased(w.calls[i], j), {w.calls[i].tasks[j].path});
    case Return(i, j) =>
      ReturnKeeps(w.calls[i], j);
      PartitionAfterUpdate(w, i, CallReturned(w.calls[i], j), {});
      assert w.uploading - {} == w.uploading;
  }

  /** Over any interleaving of calls and completions. */
  lemma {:induction false} EveryRunKeeps(w: World, trace: seq<Event>)
    requires Ok(w) && Runs(w, trace)
    ensures Ok(After(w, trace))
    decreases |trace|
  {
    if trace != [] {
      StepKeeps(w, trace[0]);
      EveryRunKeeps(Step(w, trace[0]), trace[1..]);
    }
  }

  /** A call's callback is given a summary at most once, only when every one of its files has been
      counted; what it is given is the tally of all the outcomes. */
  lemma CallbackIsFinal(trace: seq<Event>, i: nat)
    requires Runs(IDLE, trace) && i < |After(IDLE, trace).calls|
    ensures var c := After(IDLE, trace).calls[i];
      && |c.reports| <= 1
      && c.summary.succeeded == c.summary.removed <= c.summary.total == |c.tasks|
      && c.summary.succeeded == SucceededCount(c.tasks)
      && c.summary.secError == AnySecError(c.tasks)
      && (c.reports != [] ==> c.reports[0] == c.summary && c.pending == 0)
  {
    EveryRunKeeps(IDLE, trace);
    CountsBound(After(IDLE, trace).calls[i].tasks);
  }

  /** The callback fires in exactly the step in which the last completion to be counted returns. */
  lemma CallbackFiresIff(trace: seq<Event>, e: Event, i: nat)
    requires Runs(IDLE, trace) && Enabled(After(IDLE, trace), e) && i < |After(IDLE, trace).calls|
    ensures var before, after := After(IDLE, trace).calls[i], Step(After(IDLE, trace), e).calls[i];
      after.reports != before.reports
      <==> before.hasCallback && e.Return? && e.call == i && before.tasks[e.task].last
  {
  }

  /** Once all completions of a call have returned, its callback has fired and its paths are free. */
  lemma SettledCall(trace: seq<Event>, i: nat)
    requires Runs(IDLE, trace) && i < |After(IDLE, trace).calls|
    requires forall j :: 0 <= j < |After(IDLE, trace).calls[i].tasks| ==>
               After(IDLE, trace).calls[i].tasks[j].phase.Returned?
    ensures var c := After(IDLE, trace).calls[i];
      Held(c.tasks) == {} && c.reports == if c.hasCallback then [c.summary] else []
  {
    EveryRunKeeps(IDLE, trace);
    var c := After(IDLE, trace).calls[i];
    CountsBound(c.tasks);
  }

  predicate StillHeld(w: World, c: Call)
  {
    exists j :: 0 <= j < |c.tasks| && c.tasks[j].path in w.uploading && Holds(c.tasks[j])
  }

  predicate SomeCounted(c: Call)
  {
    exists j :: 0 <= j < |c.tasks| && c.tasks[j].phase.Counted?
  }

  /** At the return that fires the callback, a path of the call is still held exactly when some other
      completion has been counted and not released: the callback waits for the counting only. */
  lemma CallbackFindsHeldIff(w: World, i: nat, j: nat)
    requires Ok(w) && At(w, i, j, Released) && w.calls[i].tasks[j].last
    ensures Held(w.calls[i].tasks) <= w.uploading
    ensures StillHeld(w, w.calls[i]) <==> SomeCounted(w.calls[i])
    ensures Held(w.calls[i].tasks) != {} <==> SomeCounted(w.calls[i])
  {
    var c := w.calls[i];
    CountsBound(c.tasks);
    forall k | 0 <= k < |c.tasks| && Holds(c.tasks[k])
      ensures c.tasks[k].phase.Counted? && c.tasks[k].path in w.uploading
    {
      assert c.tasks[k].path in Held(c.tasks);
    }
    forall k | 0 <= k < |c.tasks| && c.tasks[k].phase.Counted?
      ensures c.tasks[k].path in Held(c.tasks)
    {
      assert Holds(c.tasks[k]);
    }
  }

  const FOUND := Outcome(true, false)

  /** It happens: two files, both counted, only the second released before its completion returns. */
  lemma CallbackFindsHeldIsReached(a: string, b: string)
    requires a != b
    ensures var trace := [Start([a, b], true), Count(0, 0, FOUND), Count(0, 1, FOUND), Release(0, 1)];
            Runs(IDLE, trace)
            && var w := After(IDLE, trace);
               Ok(w) && At(w, 0, 1, Released) && w.calls[0].tasks[1].last && StillHeld(w, w.calls[0])
  {
    var e1, e2, e3, e4 := Start([a, b], true), Count(0, 0, FOUND), Count(0, 1, FOUND), Release(0, 1);
    var w1 := Step(IDLE, e1);
    TwoStarted(a, b);
    var w2 := Step(w1, e2);
    var w3 := Step(w2, e3);
    assert w3.calls[0].tasks[0] == Task(a, Counted, FOUND, false);
    assert w3.calls[0].tasks[1] == Task(b, Counted, FOUND, true);
    var w4 := Step(w3, e4);
    assert w4.calls[0].tasks[0] == Task(a, Counted, FOUND, false) && a in w4.uploading;
    OneMore(w3, e4, []);
    OneMore(w2, e3, [e4] + []);
    OneMore(w1, e2, [e3] + ([e4] + []));
    OneMore(IDLE, e1, [e2] + ([e3] + ([e4] + [])));
    assert [e1] + ([e2] + ([e3] + ([e4] + []))) == [e1, e2, e3, e4];
    EveryRunKeeps(IDLE, [e1, e2, e3, e4]);
  }

  lemma TwoStarted(a: string, b: string)
    requires a != b
    ensures var w := Step(IDLE, Start([a, b], true));
            w.uploading == {a, b} && |w.calls| == 1 && w.calls[0].pending == 2
            && w.calls[0].tasks == [Task(a, Sending, NOTHING, false), Task(b, Sending, NOTHING, false)]
  {
    assert [a, b][1..] == [b] && [b][1..] == [];
    assert Claimed({} + {a} + {b}, []) == [];
    assert Claimed({} + {a}, [b]) == [b];
    assert Claimed({}, [a, b]) == [a, b];
    assert Elements([a, b]) == {a, b};
  }

  lemma OneMore(w: World, e: Event, rest: seq<Event>)
    requires Enabled(w, e) && Runs(Step(w, e), rest)
    ensures Runs(w, [e] + rest) && After(w, [e] + rest) == After(Step(w, e), rest)
  {
    assert ([e] + rest)[1..] == rest;
  }

  // ----- the code's objects

  class Uploads {
    var uploadingPaths: set<string>

    constructor ()
      ensures uploadingPaths == {}
    {
      uploadingPaths := {};
    }

    method Claim(paths: seq<string>) returns (toUpload: seq<string>)
      modifies this
      ensures toUpload == Claimed(old(uploadingPaths), paths)
      ensures uploadingPaths == old(uploadingPaths) + Elements(toUpload)
    {
      toUpload := [];
      var i := 0;
      while i < |paths|
        invariant i <= |paths|
        invariant uploadingPaths == old(uploadingPaths) + Elements(toUpload)
        invariant toUpload + Claimed(uploadingPaths, paths[i..]) == Claimed(old(uploadingPaths), paths)
      {
        assert paths[i..][0] == paths[i] && paths[i..][1..] == paths[i + 1..];
        if paths[i] !in uploadingPaths {
          uploadingPaths := uploadingPaths + {paths[i]};
          toUpload := toUpload + [paths[i]];
        }
        i := i + 1;
      }
    }

    method Release(path: string)
      modifies this
      ensures uploadingPaths == old(uploadingPaths) - {path}
    {
      uploadingPaths := uploadingPaths - {path};
    }
  }

  class State {
    var summary: Summary
    var pending: nat

    constructor (total: nat)
      ensures summary == Summary(total, 0, 0, false) && pending == total
    {
      summary := Summary(total, 0, 0, false);
      pending := total;
    }

    /** The critical section of finishOne. */
    method FinishOne(o: Outcome) returns (done: bool, result: Summary)
      modifies this
      ensures summary == Tallied(old(summary), o)
      ensures pending == if old(pending) > 0 then old(pending) - 1 else 0
      ensures done == (old(pending) == 1) && (done ==> result == summary)
    {
      done, result := false, summary;
      if o.secError {
        summary := summary.(secError := true);
      }
      if o.succeeded {
        summary := summary.(succeeded := summary.succeeded + 1);
        summary := summary.(removed := summary.removed + 1);
      }
      if pending > 0 {
        pending := pending - 1;
        if pending == 0 {
          done, result := true, summary;
        }
      }
    }
  }
}
