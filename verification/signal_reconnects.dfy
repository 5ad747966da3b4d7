/**
 What every run of the transport controller keeps about reconnects and shutdowns.
 */
module SignalReconnects {
  import opened SignalTransport

  predicate Increasing(spawned: seq<nat>)
  {
    forall i, j :: 0 <= i < j < |spawned| ==> spawned[i] < spawned[j]
  }

  predicate UpTo(spawned: seq<nat>, gen: nat)
  {
    forall i :: 0 <= i < |spawned| ==> spawned[i] <= gen
  }

  predicate AllSpawned(sleeping: set<nat>, spawned: seq<nat>)
  {
    forall g :: g in sleeping ==> g in spawned
  }

  /** Generations of spawned reconnect timers only grow, and no sleeping timer is unaccounted for. */
  predicate Generations(gen: nat, sleeping: set<nat>, spawned: seq<nat>)
  {
    Increasing(spawned) && UpTo(spawned, gen) && AllSpawned(sleeping, spawned)
  }

  /** The counter counts the reconnects spawned since its last reset, up to the configured limit. A
      step that never ends may have counted one that it does not come to spawn. */
  predicate Counted(cfg: Config, ctl: Control, log: History, halted: bool)
  {
    && (log.mark + ctl.count == |log.spawned| || (halted && log.mark + ctl.count == |log.spawned| + 1))
    && (ctl.count > 0 ==> ctl.count <= cfg.maxTimes)
  }

  /** Each effective shutdown answers a disconnect of its own. */
  predicate Answered(ctl: Control, log: History)
  {
    log.shutdowns + (if ctl.closing then 1 else 0) <= log.disconnects
  }

  predicate ReconnectsOk(cfg: Config, s: State)
  {
    && Generations(s.timers.reconnectGen, s.timers.reconnects.Keys, s.log.spawned)
    && Counted(cfg, s.ctl, s.log, s.locks.halted)
    && Answered(s.ctl, s.log)
  }

  /** An invariant state in which something can still happen. */
  predicate Running(cfg: Config, s: State)
  {
    ReconnectsOk(cfg, s) && !s.locks.halted
  }

  lemma GenerationsGrow(gen: nat, later: nat, sleeping: set<nat>, fewer: set<nat>, spawned: seq<nat>)
    requires Generations(gen, sleeping, spawned) && gen <= later && fewer <= sleeping
    ensures Generations(later, fewer, spawned)
  {
  }

  lemma GenerationsSpawn(gen: nat, sleeping: set<nat>, spawned: seq<nat>)
    requires Generations(gen, sleeping, spawned)
    ensures Generations(gen + 1, sleeping + {gen + 1}, spawned + [gen + 1])
  {
    var more := spawned + [gen + 1];
    assert more[|spawned|] == gen + 1;
    assert forall i :: 0 <= i < |spawned| ==> more[i] == spawned[i];
  }

  lemma SupersededKeeps(cfg: Config, s: State)
    requires Running(cfg, s)
    ensures Running(cfg, Superseded(s))
  {
    var gen, sleeping := s.timers.reconnectGen, s.timers.reconnects.Keys;
    GenerationsGrow(gen, gen + 1, sleeping, sleeping, s.log.spawned);
  }

  lemma ReconnectTakenKeeps(cfg: Config, s: State, gen: nat)
    requires Running(cfg, s)
    ensures Running(cfg, ReconnectTaken(s, gen))
  {
    var fewer := ReconnectTaken(s, gen).timers.reconnects.Keys;
    assert fewer <= s.timers.reconnects.Keys;
    GenerationsGrow(s.timers.reconnectGen, s.timers.reconnectGen, s.timers.reconnects.Keys, fewer, s.log.spawned);
  }

  lemma FailFatalKeeps(cfg: Config, s: State)
    requires Running(cfg, s)
    ensures ReconnectsOk(cfg, FailFatal(s)) && FailFatal(s).locks.halted == s.locks.held
  {
  }

  /** A counted reconnect is spawned, unless the thread blocks in between. */
  lemma SpawnKeeps(cfg: Config, s: State)
    requires Running(cfg, s) && s.ctl.count < cfg.maxTimes
    ensures ReconnectsOk(cfg, if s.locks.held then FailFatal(CountedUp(s))
                              else SpawnReconnect(Unsuppressed(FailFatal(CountedUp(s)))))
  {
    var closed := FailFatal(CountedUp(s));
    assert closed.log == s.log && closed.timers.reconnects == s.timers.reconnects;
    GenerationsSpawn(s.timers.reconnectGen, s.timers.reconnects.Keys, s.log.spawned);
    var spawned := SpawnReconnect(Unsuppressed(closed));
    assert spawned.timers.reconnects.Keys == s.timers.reconnects.Keys + {s.timers.reconnectGen + 1};
  }

  lemma ScheduleReconnectKeeps(cfg: Config, s: State)
    requires Running(cfg, s)
    ensures ReconnectsOk(cfg, ScheduleReconnect(cfg, s))
    ensures ScheduleReconnect(cfg, s).locks.halted ==> s.locks.held
  {
    FailFatalKeeps(cfg, s);
    if s.ctl.count < cfg.maxTimes {
      SpawnKeeps(cfg, s);
    }
  }

  lemma HandleFailureKeeps(cfg: Config, s: State, leg: Leg, allow: bool, env: Env)
    requires Running(cfg, s)
    ensures var after := HandleFailure(cfg, s, leg, allow, env).0;
            Running(cfg, after) && after.ctl == s.ctl && after.locks == s.locks
  {
  }

  lemma OnCloseKeeps(cfg: Config, s: State, leg: Leg, code: int, remote: bool, env: Env)
    requires Running(cfg, s)
    ensures ReconnectsOk(cfg, OnClose(cfg, s, leg, code, remote, env))
    ensures OnClose(cfg, s, leg, code, remote, env).locks.halted ==> s.locks.held
  {
    var allow := remote && !s.ctl.userClosed;
    FailFatalKeeps(cfg, s);
    HandleFailureKeeps(cfg, s, leg, allow, env);
    ScheduleReconnectKeeps(cfg, WithStatus(NoSession(HandleFailure(cfg, s, leg, allow, env).0), Closed));
  }

  lemma ErrorKeeps(cfg: Config, s: State, leg: Leg, env: Env)
    requires Running(cfg, s)
    ensures var after := HandleFailure(cfg, s, leg, true, env).0;
            ReconnectsOk(cfg, after) && ReconnectsOk(cfg, FailFatal(s)) && ReconnectsOk(cfg, FailFatal(after))
            && ReconnectsOk(cfg, ScheduleReconnect(cfg, NoSession(after)))
  {
    HandleFailureKeeps(cfg, s, leg, true, env);
    var after := HandleFailure(cfg, s, leg, true, env).0;
    FailFatalKeeps(cfg, s);
    FailFatalKeeps(cfg, after);
    ScheduleReconnectKeeps(cfg, NoSession(after));
  }

  lemma OnCurlErrorKeeps(cfg: Config, s: State, error: CurlError, env: Env)
    requires Running(cfg, s)
    ensures ReconnectsOk(cfg, OnCurlError(cfg, s, error, env))
  {
    ErrorKeeps(cfg, s, Curl, env);
  }

  lemma OnQuicErrorKeeps(cfg: Config, s: State, error: QuicError, env: Env)
    requires Running(cfg, s)
    ensures ReconnectsOk(cfg, OnQuicError(cfg, s, error, env))
  {
    ErrorKeeps(cfg, s, Quic, env);
  }

  /** Nothing that the invariant speaks of has changed. */
  predicate SameReconnects(s: State, t: State)
  {
    && t.timers.reconnectGen == s.timers.reconnectGen && t.timers.reconnects == s.timers.reconnects
    && t.log.spawned == s.log.spawned && t.log.mark == s.log.mark
    && t.log.shutdowns == s.log.shutdowns && t.log.disconnects == s.log.disconnects
    && t.ctl.count == s.ctl.count && t.ctl.closing == s.ctl.closing
  }

  lemma SameReconnectsKeep(cfg: Config, s: State, t: State)
    requires Running(cfg, s) && SameReconnects(s, t)
    ensures ReconnectsOk(cfg, t)
  {
  }

  lemma OnOpenSame(s: State, leg: Leg)
    ensures SameReconnects(s, OnOpen(s, leg))
  {
    assert SameReconnects(s, Settled(s, leg));
  }

  lemma OnOpenKeeps(cfg: Config, s: State, leg: Leg)
    requires Running(cfg, s)
    ensures ReconnectsOk(cfg, OnOpen(s, leg))
  {
    OnOpenSame(s, leg);
    SameReconnectsKeep(cfg, s, OnOpen(s, leg));
  }

  lemma CloseOnWorkerKeeps(cfg: Config, s: State)
    requires Running(cfg, s) && s.ctl.closing
    ensures ReconnectsOk(cfg, CloseOnWorker(s))
  {
  }

  lemma HearKeeps(cfg: Config, s: State, response: Response)
    requires Running(cfg, s)
    ensures ReconnectsOk(cfg, HearOnWorker(s, response))
  {
    var heard := Heard(s, Curl);
    if s.ctl.closing {
      CloseOnWorkerKeeps(cfg, heard);
    }
    SameReconnectsKeep(cfg, s, CloseAsync(heard));
    CountStartsOver(cfg, heard);
  }

  lemma CountStartsOver(cfg: Config, s: State)
    requires Running(cfg, s)
    ensures Running(cfg, ResetCount(s))
  {
  }

  lemma ArrivedKeeps(cfg: Config, s: State, a: Arrival, env: Env)
    requires Running(cfg, s)
    ensures ReconnectsOk(cfg, Arrived(cfg, s, a, env))
  {
    match a
    case Opens => OnOpenKeeps(cfg, s, Curl);
    case Closes(code, remote) => OnCloseKeeps(cfg, Ended(s, Curl), Curl, code, remote, env);
    case Fails(error) => OnCurlErrorKeeps(cfg, Ended(s, Curl), error, env);
    case Hears(response) => HearKeeps(cfg, s, response);
    case Lands =>
  }

  lemma {:induction false} AllArrivedKeeps(cfg: Config, s: State, during: seq<Arrival>, env: Env)
    requires ReconnectsOk(cfg, s)
    ensures ReconnectsOk(cfg, AllArrived(cfg, s, during, env))
    decreases |during|
  {
    if during != [] && !s.locks.halted {
      ArrivedKeeps(cfg, s, during[0], env);
      AllArrivedKeeps(cfg, Arrived(cfg, s, during[0], env), during[1..], env);
    }
  }

  lemma CloseCurlKeeps(cfg: Config, s: State, env: Env)
    requires Running(cfg, s)
    ensures ReconnectsOk(cfg, CloseCurl(cfg, s, env))
  {
    AllArrivedKeeps(cfg, Held(s), if s.wires.curlWorker then env.during else [], env);
    var joined := Joining(cfg, s, env);
    if !joined.locks.halted {
      OnCloseKeeps(cfg, CurlJoined(joined), Curl, 0, false, env);
    }
  }

  lemma CloseJoinKeeps(cfg: Config, s: State, env: Env)
    requires Running(cfg, s)
    ensures ReconnectsOk(cfg, CloseJoin(cfg, s, env))
  {
    CloseCurlKeeps(cfg, Cut(s), env);
    var curl := CloseCurl(cfg, Cut(s), env);
    if !curl.locks.halted {
      OnCloseKeeps(cfg, QuicJoined(curl), Quic, 0, false, env);
    }
  }

  lemma CloseAfterDisconnectKeeps(cfg: Config, s: State, env: Env)
    requires Running(cfg, s)
    ensures ReconnectsOk(cfg, CloseAfterDisconnect(cfg, s, env))
  {
    if s.ctl.closing {
      CloseJoinKeeps(cfg, WaitCancelled(s), env);
    }
  }

  lemma JoinInsideKeeps(cfg: Config, s: State, leg: Leg, env: Env)
    requires Running(cfg, s) && s.ctl.closing
    ensures ReconnectsOk(cfg, JoinInside(cfg, s, leg, env))
  {
    CloseOnWorkerKeeps(cfg, s);
    CloseCurlKeeps(cfg, Cut(WaitCancelled(s)), env);
  }

  lemma HandleResponseKeeps(cfg: Config, s: State, leg: Leg, response: Response, env: Env)
    requires Running(cfg, s)
    ensures ReconnectsOk(cfg, HandleResponse(cfg, s, leg, response, env))
  {
    if s.ctl.closing {
      JoinInsideKeeps(cfg, s, leg, env);
    }
    SameReconnectsKeep(cfg, s, CloseAsync(s));
    CountStartsOver(cfg, s);
  }

  lemma PreparedKeeps(cfg: Config, s: State, url: string, env: Env)
    requires Running(cfg, s)
    ensures ReconnectsOk(cfg, Prepared(cfg, s, url, env))
  {
    SupersededKeeps(cfg, s);
    CloseJoinKeeps(cfg, Stopped(s), env);
  }

  lemma OpenPrimaryKeeps(cfg: Config, s: State, env: Env)
    requires Running(cfg, s)
    ensures ReconnectsOk(cfg, OpenPrimary(cfg, s, env))
  {
    match env.opening
    case Refused =>
    case Failed(error) => OnQuicErrorKeeps(cfg, Ended(s, Quic), error, env);
    case Started =>
  }

  lemma BeginConnectKeeps(cfg: Config, s: State, url: string, env: Env)
    requires Running(cfg, s)
    ensures ReconnectsOk(cfg, BeginConnect(cfg, s, url, env))
  {
    PreparedKeeps(cfg, s, url, env);
    if !Prepared(cfg, s, url, env).locks.halted {
      OpenPrimaryKeeps(cfg, Prepared(cfg, s, url, env), env);
    }
  }

  // ----- steps

  lemma TimerKeeps(cfg: Config, s: State, e: Event)
    requires ReconnectsOk(cfg, s) && Enabled(s, e)
    requires e.DelayTimer? || e.ReconnectTimer? || e.CloseTimer? || e.KeepaliveTimer?
    ensures ReconnectsOk(cfg, Step(cfg, s, e))
  {
    match e
    case DelayTimer(gen, env) =>
    case ReconnectTimer(gen, env) =>
      ReconnectTakenKeeps(cfg, s, gen);
      BeginConnectKeeps(cfg, WithStatus(ReconnectTaken(s, gen), Connecting), s.timers.reconnects[gen], env);
    case CloseTimer(gen, env) => CloseAfterDisconnectKeeps(cfg, CloseTaken(s, gen), env);
    case KeepaliveTimer(gen) => ScheduleReconnectKeeps(cfg, KeepaliveTaken(s, gen));
  }

  lemma StepKeeps(cfg: Config, s: State, e: Event)
    requires ReconnectsOk(cfg, s) && Enabled(s, e)
    ensures ReconnectsOk(cfg, Step(cfg, s, e))
  {
    match e
    case AppConnect(url, env) => BeginConnectKeeps(cfg, Aimed(s, url), url, env);
    case AppConnectBest(url, env) => BeginConnectKeeps(cfg, Aimed(ResetCount(s), url), url, env);
    case AppDisconnect(leaveId, env) =>
      SupersededKeeps(cfg, s);
      CloseAfterDisconnectKeeps(cfg, Leaving(s), env);
    case AppReconnect => ScheduleReconnectKeeps(cfg, s);
    case Opened(leg) => OnOpenKeeps(cfg, s, leg);
    case LegClosed(leg, code, remote, env) => OnCloseKeeps(cfg, Ended(s, leg), leg, code, remote, env);
    case CurlFailed(error, env) => OnCurlErrorKeeps(cfg, Ended(s, Curl), error, env);
    case QuicFailed(error, env) => OnQuicErrorKeeps(cfg, Ended(s, Quic), error, env);
    case Received(leg, response, env) =>
      HandleResponseKeeps(cfg, Heard(s, leg), leg, response, env);
    case _ => TimerKeeps(cfg, s, e);
  }

  lemma {:induction false} EveryRunKeeps(cfg: Config, s: State, trace: seq<Event>)
    requires ReconnectsOk(cfg, s) && Runs(cfg, s, trace)
    ensures ReconnectsOk(cfg, After(cfg, s, trace))
    decreases |trace|
  {
    if trace != [] {
      StepKeeps(cfg, s, trace[0]);
      EveryRunKeeps(cfg, Step(cfg, s, trace[0]), trace[1..]);
    }
  }

  // ----- live timers

  /** A sleeping reconnect that will connect when it fires. */
  predicate Live(s: State, gen: nat)
  {
    gen in s.timers.reconnects && s.timers.reconnectGen == gen && !s.ctl.userClosed
  }

  lemma OneLive(cfg: Config, s: State, gen: nat, env: Env)
    requires ReconnectsOk(cfg, s) && gen in s.timers.reconnects
    ensures s.log.spawned != []
    ensures Live(s, gen) ==> gen == s.log.spawned[|s.log.spawned| - 1]
    ensures !Live(s, gen) ==> ReconnectFires(cfg, s, gen, env) == ReconnectTaken(s, gen)
  {
    var i :| 0 <= i < |s.log.spawned| && s.log.spawned[i] == gen;
    assert i < |s.log.spawned| - 1 ==> s.log.spawned[i] < s.log.spawned[|s.log.spawned| - 1];
  }

  /** Of all reconnect timers ever spawned at most one is live, the last; every other one, when it
      fires, does nothing but end. The reconnects since the last reset are counted and bounded. */
  lemma OneLiveReconnect(cfg: Config, start: State, trace: seq<Event>, gen: nat, env: Env)
    requires Runs(cfg, start, trace) && ReconnectsOk(cfg, start)
    requires gen in After(cfg, start, trace).timers.reconnects
    ensures var s := After(cfg, start, trace);
      && s.log.spawned != []
      && (Live(s, gen) ==> gen == s.log.spawned[|s.log.spawned| - 1])
      && (!Live(s, gen) ==> ReconnectFires(cfg, s, gen, env) == ReconnectTaken(s, gen))
      && (!s.locks.halted ==> |s.log.spawned| - s.log.mark == s.ctl.count)
      && (s.ctl.count > 0 ==> s.ctl.count <= cfg.maxTimes)
  {
    EveryRunKeeps(cfg, start, trace);
    OneLive(cfg, After(cfg, start, trace), gen, env);
  }

  /** The controller starts in such a state. */
  lemma FreshOk(cfg: Config)
    ensures ReconnectsOk(cfg, FRESH)
  {
  }

  /** Shutdowns that take effect never outnumber the disconnects asked for. */
  lemma ShutdownsAreAsked(cfg: Config, trace: seq<Event>)
    requires Runs(cfg, FRESH, trace)
    ensures After(cfg, FRESH, trace).log.shutdowns <= After(cfg, FRESH, trace).log.disconnects
  {
    FreshOk(cfg);
    EveryRunKeeps(cfg, FRESH, trace);
  }
}
