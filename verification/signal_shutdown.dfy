/**
 A shutdown waits for the answer to a leave request. It outlives the connection it was meant for.
 */
module SignalShutdown {
  import opened SignalTransport
  import SignalLegs
  import SignalLocks
  import SignalRace

  /** What a pending shutdown consists of. */
  predicate SameShutdown(s: State, t: State)
  {
    && t.ctl.closing == s.ctl.closing && t.ctl.leaveId == s.ctl.leaveId
    && t.timers.closeGen == s.timers.closeGen && t.timers.closes == s.timers.closes
    && t.log.shutdowns == s.log.shutdowns
  }

  predicate Untouched(s: State, t: State)
  {
    SameShutdown(s, t) && t.ctl.userClosed == s.ctl.userClosed
  }

  lemma FailureShutdown(cfg: Config, s: State, leg: Leg, allow: bool, env: Env)
    ensures Untouched(s, HandleFailure(cfg, s, leg, allow, env).0)
    ensures HandleFailure(cfg, s, leg, allow, env).0.ctl == s.ctl
  {
  }

  lemma ScheduleShutdown(cfg: Config, s: State)
    ensures Untouched(s, ScheduleReconnect(cfg, s)) && Untouched(s, FailFatal(s))
  {
  }

  lemma OnCloseShutdown(cfg: Config, s: State, leg: Leg, code: int, remote: bool, env: Env)
    ensures Untouched(s, OnClose(cfg, s, leg, code, remote, env))
  {
    var allow := remote && !s.ctl.userClosed;
    FailureShutdown(cfg, s, leg, allow, env);
    ScheduleShutdown(cfg, WithStatus(NoSession(HandleFailure(cfg, s, leg, allow, env).0), Closed));
  }

  lemma ErrorShutdown(cfg: Config, s: State, leg: Leg, env: Env)
    ensures var after := HandleFailure(cfg, s, leg, true, env).0;
            Untouched(s, after) && Untouched(s, FailFatal(s)) && Untouched(s, FailFatal(after))
            && Untouched(s, ScheduleReconnect(cfg, NoSession(after)))
  {
    FailureShutdown(cfg, s, leg, true, env);
    var after := HandleFailure(cfg, s, leg, true, env).0;
    ScheduleShutdown(cfg, s);
    ScheduleShutdown(cfg, after);
    ScheduleShutdown(cfg, NoSession(after));
  }

  /** A callback may end the shutdown only by a joining close of its own, which waits. */
  predicate Shut(s: State, t: State)
  {
    && t.ctl.userClosed == s.ctl.userClosed && (t.ctl.closing ==> s.ctl.closing)
    && (!t.locks.halted || !s.ctl.closing ==> SameShutdown(s, t))
  }

  lemma HearShuts(s: State, response: Response)
    requires s.locks.held
    ensures Shut(s, HearOnWorker(s, response)) && HearOnWorker(s, response).locks.held
    ensures HearOnWorker(s, response).log.spawned == s.log.spawned
  {
  }

  lemma OpenShuts(s: State)
    ensures Untouched(s, OnOpen(s, Curl)) && OnOpen(s, Curl).locks.held == s.locks.held
    ensures OnOpen(s, Curl).log.spawned == s.log.spawned
  {
  }

  /** While the mutex is held no failure gets as far as spawning a reconnect. */
  lemma HeldFailure(cfg: Config, s: State, allow: bool, env: Env)
    requires s.locks.held
    ensures var after := HandleFailure(cfg, s, Curl, allow, env).0;
            Untouched(s, after) && after.locks == s.locks && after.log.spawned == s.log.spawned
  {
  }

  lemma HeldSchedule(cfg: Config, s: State)
    requires s.locks.held
    ensures Untouched(s, ScheduleReconnect(cfg, s)) && ScheduleReconnect(cfg, s).locks.held
    ensures ScheduleReconnect(cfg, s).log.spawned == s.log.spawned
    ensures Untouched(s, FailFatal(s)) && FailFatal(s).locks.held && FailFatal(s).log.spawned == s.log.spawned
  {
  }

  lemma CloseShuts(cfg: Config, s: State, code: int, remote: bool, env: Env)
    requires s.locks.held
    ensures var t := OnClose(cfg, s, Curl, code, remote, env);
            Untouched(s, t) && t.locks.held && t.log.spawned == s.log.spawned
  {
    var allow := remote && !s.ctl.userClosed;
    HeldFailure(cfg, s, allow, env);
    HeldSchedule(cfg, s);
    HeldSchedule(cfg, WithStatus(NoSession(HandleFailure(cfg, s, Curl, allow, env).0), Closed));
  }

  lemma ErrorShuts(cfg: Config, s: State, error: CurlError, env: Env)
    requires s.locks.held
    ensures var t := OnCurlError(cfg, s, error, env);
            Untouched(s, t) && t.locks.held && t.log.spawned == s.log.spawned
  {
    HeldFailure(cfg, s, true, env);
    var after := HandleFailure(cfg, s, Curl, true, env).0;
    HeldSchedule(cfg, s);
    HeldSchedule(cfg, after);
    HeldSchedule(cfg, NoSession(after));
  }

  lemma ArrivedShuts(cfg: Config, s: State, a: Arrival, env: Env)
    requires s.locks.held
    ensures Shut(s, Arrived(cfg, s, a, env)) && Arrived(cfg, s, a, env).locks.held
    ensures Arrived(cfg, s, a, env).log.spawned == s.log.spawned
  {
    match a
    case Opens => OpenShuts(s);
    case Closes(code, remote) => CloseShuts(cfg, Ended(s, Curl), code, remote, env);
    case Fails(error) => ErrorShuts(cfg, Ended(s, Curl), error, env);
    case Hears(response) => HearShuts(s, response);
    case Lands =>
  }

  lemma {:induction false} AllArrivedShuts(cfg: Config, s: State, during: seq<Arrival>, env: Env)
    requires s.locks.held
    ensures Shut(s, AllArrived(cfg, s, during, env)) && AllArrived(cfg, s, during, env).locks.held
    ensures AllArrived(cfg, s, during, env).log.spawned == s.log.spawned
    decreases |during|
  {
    if during != [] && !s.locks.halted {
      ArrivedShuts(cfg, s, during[0], env);
      AllArrivedShuts(cfg, Arrived(cfg, s, during[0], env), during[1..], env);
    }
  }

  lemma CloseCurlShuts(cfg: Config, s: State, env: Env)
    ensures Shut(s, CloseCurl(cfg, s, env)) && CloseCurl(cfg, s, env).log.spawned == s.log.spawned
  {
    AllArrivedShuts(cfg, Held(s), if s.wires.curlWorker then env.during else [], env);
    CloseShuts(cfg, CurlJoined(Joining(cfg, s, env)), 0, false, env);
  }

  lemma CloseJoinShuts(cfg: Config, s: State, env: Env)
    ensures Shut(s, CloseJoin(cfg, s, env))
  {
    CloseCurlShuts(cfg, Cut(s), env);
    OnCloseShutdown(cfg, QuicJoined(CloseCurl(cfg, Cut(s), env)), Quic, 0, false, env);
  }

  /** A receive callback counts one more shutdown exactly when it does not return. */
  lemma CallbackEndsShutdownIff(cfg: Config, s: State, leg: Leg, response: Response, env: Env)
    requires s.locks == UNLOCKED
    ensures OnRecv(cfg, s, leg, response, env).log.shutdowns
         == s.log.shutdowns + if SignalLocks.JoinsItself(s, leg, response) then 1 else 0
  {
    CloseCurlShuts(cfg, Cut(WaitCancelled(Heard(s, leg))), env);
  }

  lemma OpenPrimaryShutdown(cfg: Config, s: State, env: Env)
    ensures Untouched(s, OpenPrimary(cfg, s, env))
  {
    match env.opening
    case Refused =>
    case Failed(error) => ErrorShutdown(cfg, Ended(s, Quic), Quic, env);
    case Started =>
  }

  lemma BeginConnectShutdown(cfg: Config, s: State, url: string, env: Env)
    ensures var t := BeginConnect(cfg, s, url, env);
            (t.ctl.closing ==> s.ctl.closing)
            && (!Prepared(cfg, s, url, env).locks.halted ==> SameShutdown(s, t) && !t.ctl.userClosed)
  {
    CloseJoinShuts(cfg, Stopped(s), env);
    OpenPrimaryShutdown(cfg, Prepared(cfg, s, url, env), env);
  }

  /** A connect that returns has not cancelled a pending shutdown. */
  lemma ConnectKeepsShutdown(cfg: Config, s: State, url: string, env: Env)
    ensures var t := Connect(cfg, s, url, env);
            !t.locks.halted ==> SameShutdown(s, t) && !t.ctl.userClosed
  {
    BeginConnectShutdown(cfg, Aimed(s, url), url, env);
  }

  /** The shutdown timer ends an open session, or does not return from trying to, exactly when it is
      current and a shutdown is pending; whether the session was there at the time of the disconnect does
      not matter. */
  lemma ShutdownTimerClosesIff(cfg: Config, s: State, gen: nat, env: Env)
    requires s.race.sessionOpen && s.locks == UNLOCKED
    ensures var t := CloseFires(cfg, s, gen, env);
            (!t.race.sessionOpen || t.locks.halted) <==> s.timers.closeGen == gen && s.ctl.closing
  {
    SignalLegs.CloseJoinWorks(cfg, WaitCancelled(CloseTaken(s, gen)), env);
  }

  // ----- a joining close of an open session

  /** What comes in over TCP while QUIC serves the session goes unheard. */
  lemma {:induction false} AllArrivedUnheard(cfg: Config, s: State, during: seq<Arrival>, env: Env)
    requires SignalRace.OverQuic(s)
    ensures var t := AllArrived(cfg, s, during, env);
            t == s.(locks := t.locks, wires := s.wires.(curlDuty := t.wires.curlDuty))
    decreases |during|
  {
    if during != [] && !s.locks.halted {
      var next := Arrived(cfg, s, during[0], env);
      assert next == s.(locks := next.locks, wires := s.wires.(curlDuty := next.wires.curlDuty));
      AllArrivedUnheard(cfg, next, during[1..], env);
    }
  }

  lemma CloseCurlUnheard(cfg: Config, s: State, env: Env)
    requires SignalRace.OverQuic(s) && s.locks == UNLOCKED && !CloseCurl(cfg, s, env).locks.halted
    ensures CloseCurl(cfg, s, env) == CurlJoined(s)
  {
    var during := if s.wires.curlWorker then env.during else [];
    AllArrivedUnheard(cfg, Held(s), during, env);
    AllArrivedDies(cfg, Held(s), during, env);
  }

  lemma {:induction false} AllArrivedDies(cfg: Config, s: State, during: seq<Arrival>, env: Env)
    requires SignalRace.OverQuic(s) && s.locks.held
    ensures AllArrived(cfg, s, during, env).locks.died == s.locks.died
    decreases |during|
  {
    if during != [] && !s.locks.halted {
      AllArrivedDies(cfg, Arrived(cfg, s, during[0], env), during[1..], env);
    }
  }

  lemma QuicReportIgnored(cfg: Config, s: State, env: Env)
    requires s.race.primary == Curl
    ensures CloseQuic(cfg, s, env) == QuicJoined(s)
  {
  }

  predicate Reconnects(cfg: Config, s: State)
  {
    !s.ctl.suppress && s.ctl.count < cfg.maxTimes
  }

  /** A joining close of an open session that returns ends the session, and spends a reconnect exactly
      when QUIC served the session, has not reported, and reconnects are neither suppressed nor used up.
      One that does not return spends none. */
  lemma CloseOpenSession(cfg: Config, s: State, env: Env)
    requires s.race.sessionOpen && !s.ctl.userClosed && s.locks == UNLOCKED
    ensures var t := CloseJoin(cfg, s, env);
      && !t.ctl.userClosed && (t.locks.halted <==> SignalLocks.JoinBlocks(cfg, s, env))
      && (!t.locks.halted ==> !t.race.sessionOpen)
      && (|t.log.spawned| == |s.log.spawned| + 1
          <==> !t.locks.halted && s.race.primary == Quic && s.wires.quicDuty != Told && Reconnects(cfg, s))
  {
    SignalLocks.CloseJoinBlocksIff(cfg, s, env);
    SignalLocks.CloseCurlBlocksIff(cfg, s, env);
    SignalLegs.CloseJoinWorks(cfg, s, env);
    CloseJoinShuts(cfg, s, env);
    CloseCurlShuts(cfg, Cut(s), env);
    var curl := CloseCurl(cfg, Cut(s), env);
    if !curl.locks.halted {
      if s.race.primary == Quic {
        CloseCurlUnheard(cfg, Cut(s), env);
      } else {
        SignalLegs.CloseCurlWorks(cfg, Cut(s), env);
        QuicReportIgnored(cfg, curl, env);
      }
    }
  }

  /** Disconnect, connect again before the leave request is answered, and once the connect has returned
      and the session opened, the old shutdown ends the new session, or its timer does not return. When
      nothing else comes in, it does not return exactly over TCP that owes its report, with reconnects not
      suppressed; over QUIC the close spends a reconnect. */
  lemma StaleShutdown(cfg: Config, s: State, leaveId: nat, url: string, env1: Env, env2: Env)
    requires leaveId != 0 && s.locks == UNLOCKED
    requires !Connect(cfg, Disconnect(cfg, s, leaveId, env1), url, env1).locks.halted
    ensures var s1 := Disconnect(cfg, s, leaveId, env1);
            var s3 := Reopened(cfg, s1, url, env1);
            var s4 := CloseFires(cfg, s3, s1.timers.closeGen, env2);
      && s3.race.sessionOpen && !s3.ctl.userClosed && s1.timers.closeGen in s3.timers.closes
      && (!s4.locks.halted ==> !s4.race.sessionOpen)
      && (s4.locks.halted
          <==> SignalLocks.JoinBlocks(cfg, WaitCancelled(CloseTaken(s3, s1.timers.closeGen)), env2))
      && (env2.during == [] ==>
            (s4.locks.halted <==> s3.race.primary == Curl && s3.wires.curlDuty != Told && !s3.ctl.suppress))
      && (|s4.log.spawned| == |s3.log.spawned| + 1
          <==> !s4.locks.halted && s3.race.primary == Quic && s3.wires.quicDuty != Told && Reconnects(cfg, s3))
  {
    var s1 := Disconnect(cfg, s, leaveId, env1);
    var s2 := Connect(cfg, s1, url, env1);
    ConnectKeepsShutdown(cfg, s1, url, env1);
    SignalLegs.BeginConnectLegs(cfg, Aimed(s1, url), url, env1);
    SignalLocks.BeginConnectHaltsIff(cfg, Aimed(s1, url), url, env1);
    var s3 := Reopened(cfg, s1, url, env1);
    OpenedSession(s2);
    var waiting := WaitCancelled(CloseTaken(s3, s1.timers.closeGen));
    CloseOpenSession(cfg, waiting, env2);
    if env2.during == [] {
      SignalLocks.JoinBlocksIff(cfg, waiting, env2);
    }
  }

  /** Connected again, with the session open. */
  function Reopened(cfg: Config, s: State, url: string, env: Env): State
  {
    var s2 := Connect(cfg, s, url, env);
    OnOpen(s2, s2.race.primary)
  }

  lemma OpenedSession(s: State)
    requires !s.race.sessionOpen && !s.ctl.userClosed && s.locks == UNLOCKED
    ensures var t := OnOpen(s, s.race.primary);
            t.race.sessionOpen && SameShutdown(s, t) && t.ctl.userClosed == s.ctl.userClosed && t.locks == s.locks
  {
  }

  // ----- without a late connect

  /** A connect while a shutdown is pending. */
  predicate LateConnect(s: State, e: Event)
  {
    (e.AppConnect? || e.AppConnectBest?) && s.ctl.closing
  }

  predicate InTime(cfg: Config, s: State, trace: seq<Event>)
    requires Runs(cfg, s, trace)
    decreases |trace|
  {
    trace == [] || (!LateConnect(s, trace[0]) && InTime(cfg, Step(cfg, s, trace[0]), trace[1..]))
  }

  predicate PendingMeansClosed(s: State)
  {
    s.ctl.closing ==> s.ctl.userClosed
  }

  lemma ReceivingStartsNoShutdown(cfg: Config, s: State, leg: Leg, response: Response, env: Env)
    ensures OnRecv(cfg, s, leg, response, env).ctl.closing ==> s.ctl.closing
  {
    CloseCurlShuts(cfg, Cut(WaitCancelled(Heard(s, leg))), env);
  }

  /** Only a disconnect starts a shutdown. */
  lemma OnlyDisconnectStarts(cfg: Config, s: State, e: Event)
    requires Enabled(s, e) && !e.AppDisconnect?
    ensures Step(cfg, s, e).ctl.closing ==> s.ctl.closing
  {
    match e
    case AppConnect(url, env) => BeginConnectShutdown(cfg, Aimed(s, url), url, env);
    case AppConnectBest(url, env) => BeginConnectShutdown(cfg, Aimed(ResetCount(s), url), url, env);
    case AppReconnect => ScheduleShutdown(cfg, s);
    case Opened(leg) =>
    case LegClosed(leg, code, remote, env) => OnCloseShutdown(cfg, Ended(s, leg), leg, code, remote, env);
    case CurlFailed(error, env) => ErrorShutdown(cfg, Ended(s, Curl), Curl, env);
    case QuicFailed(error, env) => ErrorShutdown(cfg, Ended(s, Quic), Quic, env);
    case Received(leg, response, env) => ReceivingStartsNoShutdown(cfg, s, leg, response, env);
    case DelayTimer(gen, env) =>
    case ReconnectTimer(gen, env) =>
      BeginConnectShutdown(cfg, WithStatus(ReconnectTaken(s, gen), Connecting), s.timers.reconnects[gen], env);
    case CloseTimer(gen, env) => CloseJoinShuts(cfg, WaitCancelled(CloseTaken(s, gen)), env);
    case KeepaliveTimer(gen) => ScheduleShutdown(cfg, KeepaliveTaken(s, gen));
  }

  lemma StepKeepsPending(cfg: Config, s: State, e: Event)
    requires PendingMeansClosed(s) && Enabled(s, e) && !LateConnect(s, e)
    ensures PendingMeansClosed(Step(cfg, s, e))
  {
    if e.AppDisconnect? {
      SignalLegs.CloseJoinSilent(cfg, WaitCancelled(Leaving(s)), e.env);
    } else if s.ctl.closing {
      SignalLegs.StepSilent(cfg, s, e);
    } else {
      OnlyDisconnectStarts(cfg, s, e);
    }
  }

  lemma {:induction false} InTimeKeepsPending(cfg: Config, s: State, trace: seq<Event>)
    requires PendingMeansClosed(s) && s.locks == UNLOCKED && Runs(cfg, s, trace) && InTime(cfg, s, trace)
    ensures PendingMeansClosed(After(cfg, s, trace)) && SignalLocks.Free(After(cfg, s, trace))
    decreases |trace|
  {
    if trace != [] {
      StepKeepsPending(cfg, s, trace[0]);
      SignalLocks.StepHaltsIff(cfg, s, trace[0]);
      if Step(cfg, s, trace[0]).locks.halted {
        assert trace[1..] == [];
      } else {
        InTimeKeepsPending(cfg, Step(cfg, s, trace[0]), trace[1..]);
      }
    }
  }

  /** In a run without a connect while a shutdown is pending, the shutdown timer does not block on the
      report of its own close. With no fallback landing, it does not return exactly when TCP is the
      primary leg and its worker, while it is joined, reports open, a rejected token or a fatal error, or
      hears a fatal answer. */
  lemma InTimeTimerHaltsIff(cfg: Config, start: State, trace: seq<Event>, gen: nat, env: Env)
    requires PendingMeansClosed(start) && start.locks == UNLOCKED && Runs(cfg, start, trace)
    requires InTime(cfg, start, trace) && !After(cfg, start, trace).locks.halted
    requires SignalLocks.CallbacksOnly(env.during)
    ensures var s := After(cfg, start, trace);
            SignalLocks.Halts(cfg, s, CloseTimer(gen, env))
            <==> s.timers.closeGen == gen && s.ctl.closing && s.race.primary == Curl && s.wires.curlWorker
                 && exists k :: 0 <= k < |env.during| && Interrupts(s, env.during, k)
  {
    InTimeKeepsPending(cfg, start, trace);
    var s := After(cfg, start, trace);
    if s.timers.closeGen == gen && s.ctl.closing {
      var waiting := WaitCancelled(CloseTaken(s, gen));
      SignalLocks.JoinBlocksIff(cfg, waiting, env);
      assert forall k :: 0 <= k < |env.during| ==>
          SignalLocks.BlocksAt(waiting, env.during, k) == Interrupts(s, env.during, k);
    }
  }

  /** What never returns from a callback after the application has closed. */
  predicate Interrupts(s: State, during: seq<Arrival>, k: nat)
    requires k < |during|
  {
    match during[k]
    case Opens => true
    case Closes(code, _) => IsTokenCode(code)
    case Fails(error) => !error.CurlOther?
    case Hears(response) =>
      SignalLocks.OpenAfter(s.race.sessionOpen, during[..k]) && SignalLocks.FatalAnswer(response)
    case Lands => false
  }

  // ----- runs that do not return

  function Settle(): Env
  {
    Env(QuicClosed, Started, [])
  }

  /** A worker that reports open while it is joined. */
  function OpeningLate(): Env
  {
    Env(QuicClosed, Started, [Opens])
  }

  function LateConnectRun(url: string, leaveId: nat): seq<Event>
  {
    [AppConnect(url, Settle()), Opened(Curl), AppDisconnect(leaveId, Settle()), AppConnect(url, Settle()),
     CloseTimer(1, Settle())]
  }

  /** With a late connect the report blocks: over TCP, connect, open, disconnect, connect, and the timer
      does not return. */
  lemma BlockingIsReached(cfg: Config, url: string, leaveId: nat)
    requires cfg.implementation == OnlyCurl && leaveId != 0
    ensures Runs(cfg, FRESH, LateConnectRun(url, leaveId))
    ensures After(cfg, FRESH, LateConnectRun(url, leaveId)).locks.halted
  {
    var e1, e2, e3 := AppConnect(url, Settle()), Opened(Curl), AppDisconnect(leaveId, Settle());
    var e4, e5 := AppConnect(url, Settle()), CloseTimer(1, Settle());
    ConnectOverTcp(cfg, FRESH, url);
    var s1 := Step(cfg, FRESH, e1);
    var s2 := Step(cfg, s1, e2);
    assert s2.locks == UNLOCKED && s2.timers.closeGen == 0;
    var s3 := Step(cfg, s2, e3);
    LateConnectHalts(cfg, s3, url, 1);
    OneMore(cfg, s2, e3, [e4, e5]);
    OneMore(cfg, s1, e2, [e3] + [e4, e5]);
    OneMore(cfg, FRESH, e1, [e2] + ([e3] + [e4, e5]));
    assert LateConnectRun(url, leaveId) == [e1] + ([e2] + ([e3] + [e4, e5]));
  }

  lemma LateConnectHalts(cfg: Config, s: State, url: string, gen: nat)
    requires cfg.implementation == OnlyCurl && s.locks == UNLOCKED
    requires s.ctl.closing && s.timers.closeGen == gen && gen in s.timers.closes
    ensures var trace := [AppConnect(url, Settle()), CloseTimer(gen, Settle())];
            Runs(cfg, s, trace) && After(cfg, s, trace).locks.halted
  {
    var e4, e5 := AppConnect(url, Settle()), CloseTimer(gen, Settle());
    ConnectOverTcp(cfg, s, url);
    var t := Step(cfg, s, e4);
    SignalLocks.JoinBlocksIff(cfg, WaitCancelled(CloseTaken(t, gen)), Settle());
    SignalLocks.StepHaltsIff(cfg, t, e5);
    OneMore(cfg, t, e5, []);
    OneMore(cfg, s, e4, [e5]);
    assert [e5] + [] == [e5] && [e4] + [e5] == [e4, e5];
  }

  /** When nothing comes in meanwhile, a connect over TCP returns, with a worker that owes its report. */
  lemma ConnectOverTcp(cfg: Config, s: State, url: string)
    requires cfg.implementation == OnlyCurl && s.locks == UNLOCKED
    ensures var t := Connect(cfg, s, url, Settle());
            t.locks == UNLOCKED && t.race.primary == Curl && t.wires.curlWorker && t.wires.curlDuty == Owing
            && !t.ctl.userClosed && !t.ctl.suppress && SameShutdown(s, t)
  {
    SignalLocks.JoinBlocksIff(cfg, Stopped(Aimed(s, url)), Settle());
    SignalLocks.BeginConnectHaltsIff(cfg, Aimed(s, url), url, Settle());
    ConnectKeepsShutdown(cfg, s, url, Settle());
  }

  /** A disconnect that finds TCP still connecting: the worker reports open while it is joined, wants to
      close the WebSocket because the user has, and neither thread returns. No connect is late. */
  lemma LeavingWhileConnectingIsReached(cfg: Config, url: string)
    requires cfg.implementation == OnlyCurl
    ensures var trace := [AppConnect(url, Settle()), AppDisconnect(0, OpeningLate())];
            Runs(cfg, FRESH, trace) && InTime(cfg, FRESH, trace) && After(cfg, FRESH, trace).locks.halted
  {
    var e1, e2 := AppConnect(url, Settle()), AppDisconnect(0, OpeningLate());
    ConnectOverTcp(cfg, FRESH, url);
    var s1 := Step(cfg, FRESH, e1);
    OpeningLateBlocks(cfg, WaitCancelled(Leaving(s1)));
    SignalLocks.StepHaltsIff(cfg, s1, e2);
    OneMore(cfg, s1, e2, []);
    OneMore(cfg, FRESH, e1, [e2]);
    assert [e2] + [] == [e2] && [e1] + [e2] == [e1, e2] && [e1, e2][1..] == [e2] && [e2][1..] == [];
  }

  /** The same when the leave request was sent and its answer does not come in time. */
  lemma TimerWhileConnectingIsReached(cfg: Config, url: string, leaveId: nat)
    requires cfg.implementation == OnlyCurl && leaveId != 0
    ensures var trace := [AppConnect(url, Settle()), AppDisconnect(leaveId, Settle()), CloseTimer(1, OpeningLate())];
            Runs(cfg, FRESH, trace) && InTime(cfg, FRESH, trace) && After(cfg, FRESH, trace).locks.halted
  {
    var e1, e2, e3 := AppConnect(url, Settle()), AppDisconnect(leaveId, Settle()), CloseTimer(1, OpeningLate());
    ConnectOverTcp(cfg, FRESH, url);
    var s1 := Step(cfg, FRESH, e1);
    assert s1.timers.closeGen == 0;
    var s2 := Step(cfg, s1, e2);
    OpeningLateBlocks(cfg, WaitCancelled(CloseTaken(s2, 1)));
    SignalLocks.StepHaltsIff(cfg, s2, e3);
    OneMore(cfg, s2, e3, []);
    OneMore(cfg, s1, e2, [e3]);
    OneMore(cfg, FRESH, e1, [e2] + [e3]);
    assert [e3] + [] == [e3] && [e2] + [e3] == [e2, e3] && [e1] + ([e2] + [e3]) == [e1, e2, e3];
    assert [e3][1..] == [] && InTime(cfg, s2, [e3]);
    assert [e2, e3][1..] == [e3] && InTime(cfg, s1, [e2, e3]);
    assert [e1, e2, e3][1..] == [e2, e3];
  }

  lemma OpeningLateBlocks(cfg: Config, s: State)
    requires s.locks == UNLOCKED && s.ctl.userClosed && s.race.primary == Curl && s.wires.curlWorker
    ensures SignalLocks.JoinBlocks(cfg, s, OpeningLate())
  {
    SignalLocks.JoinBlocksIff(cfg, s, OpeningLate());
    assert SignalLocks.BlocksAt(s, OpeningLate().during, 0);
  }
}
