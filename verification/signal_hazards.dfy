/**
 Places where the transport controller does something its comments or its callers would not expect,
 each with the exact condition under which it happens.
 */
module SignalHazards {
  import opened SignalTransport
  import SignalLegs
  import SignalLocks
  import SignalRace
  import SignalReconnects
  import SignalShutdown

  // ----- a TCP worker thread replaced before it was joined

  predicate FailsQuic(e: Event)
  {
    match e
    case LegClosed(leg, code, remote, _) => leg == Quic && remote && !IsTokenCode(code)
    case QuicFailed(error, _) => !error.QuicToken? && !error.QuicSsl?
    case _ => false
  }

  /** The QUIC leg fails while TCP has already been tried and has failed in the same connection. */
  predicate Overruns(cfg: Config, s: State, e: Event)
  {
    && FailsQuic(e) && cfg.implementation == Mixed
    && s.race.primary == Quic && !s.race.sessionOpen && !s.race.hasAlt && s.wires.curlWorker
    && !s.ctl.userClosed && s.ctl.pendingUrl != "" && !e.env.quicState.QuicOpen?
  }

  predicate SameOpens(w: Wires, v: Wires)
  {
    v.overrun == w.overrun && v.opens == w.opens
  }

  /** Nothing that comes in while TCP is joined opens it. */
  lemma ArrivedWires(cfg: Config, s: State, a: Arrival, env: Env)
    ensures SameOpens(s.wires, Arrived(cfg, s, a, env).wires)
  {
    match a
    case Opens =>
    case Closes(code, remote) => CloseWires(cfg, Ended(s, Curl), Curl, code, remote, env);
    case Fails(error) => CurlErrorWires(cfg, Ended(s, Curl), error, env);
    case Hears(response) =>
    case Lands =>
  }

  lemma {:induction false} AllArrivedWires(cfg: Config, s: State, during: seq<Arrival>, env: Env)
    ensures SameOpens(s.wires, AllArrived(cfg, s, during, env).wires)
    decreases |during|
  {
    if during != [] && !s.locks.halted {
      ArrivedWires(cfg, s, during[0], env);
      AllArrivedWires(cfg, Arrived(cfg, s, during[0], env), during[1..], env);
    }
  }

  lemma CloseCurlWires(cfg: Config, s: State, env: Env)
    ensures var t := CloseCurl(cfg, s, env);
            SameOpens(s.wires, t.wires) && (!t.locks.halted ==> !t.wires.curlWorker)
  {
    AllArrivedWires(cfg, Held(s), if s.wires.curlWorker then env.during else [], env);
    CloseWires(cfg, CurlJoined(Joining(cfg, s, env)), Curl, 0, false, env);
  }

  lemma CloseJoinWires(cfg: Config, s: State, env: Env)
    ensures var t := CloseJoin(cfg, s, env);
            SameOpens(s.wires, t.wires) && (!t.locks.halted ==> !t.wires.curlWorker)
  {
    CloseCurlWires(cfg, Cut(s), env);
    CloseWires(cfg, QuicJoined(CloseCurl(cfg, Cut(s), env)), Quic, 0, false, env);
  }

  lemma CloseWires(cfg: Config, s: State, leg: Leg, code: int, remote: bool, env: Env)
    requires leg == Quic ==> !remote
    ensures OnClose(cfg, s, leg, code, remote, env).wires == s.wires
  {
    var allow := remote && !s.ctl.userClosed;
    FailureWires(cfg, s, leg, allow, env);
    ScheduleWires(cfg, WithStatus(NoSession(HandleFailure(cfg, s, leg, allow, env).0), Closed));
  }

  lemma CurlErrorWires(cfg: Config, s: State, error: CurlError, env: Env)
    ensures OnCurlError(cfg, s, error, env).wires == s.wires
  {
    FailureWires(cfg, s, Curl, true, env);
    ScheduleWires(cfg, NoSession(HandleFailure(cfg, s, Curl, true, env).0));
  }

  lemma BeginConnectOverrun(cfg: Config, s: State, url: string, env: Env)
    ensures BeginConnect(cfg, s, url, env).wires.overrun == s.wires.overrun
  {
    CloseJoinWires(cfg, Stopped(s), env);
    if !Prepared(cfg, s, url, env).locks.halted {
      OpenPrimaryOverrun(cfg, Prepared(cfg, s, url, env), env);
    }
  }

  lemma OpenPrimaryOverrun(cfg: Config, s: State, env: Env)
    requires !s.wires.curlWorker
    ensures OpenPrimary(cfg, s, env).wires.overrun == s.wires.overrun
  {
    match env.opening
    case Refused =>
    case Failed(error) => QuicErrorWires(cfg, Ended(s, Quic), error, env);
    case Started =>
  }

  lemma QuicErrorWires(cfg: Config, s: State, error: QuicError, env: Env)
    ensures OnQuicError(cfg, s, error, env).wires
         == if IsCandidate(s.race, Quic) && !error.QuicToken? && !error.QuicSsl? && FallsBack(cfg, s, Quic, true, env)
            then CurlOpened(s.wires) else s.wires
  {
    FailureWires(cfg, s, Quic, true, env);
    ScheduleWires(cfg, NoSession(HandleFailure(cfg, s, Quic, true, env).0));
  }

  /** A failure opens TCP anew when QUIC fails with no alternative racing. */
  predicate FallsBack(cfg: Config, s: State, leg: Leg, allow: bool, env: Env)
  {
    && leg == Quic && allow && cfg.implementation == Mixed
    && !s.race.sessionOpen && !s.race.hasAlt && !s.ctl.userClosed
    && s.ctl.pendingUrl != "" && !env.quicState.QuicOpen?
  }

  lemma FailureWires(cfg: Config, s: State, leg: Leg, allow: bool, env: Env)
    ensures HandleFailure(cfg, s, leg, allow, env).0.wires
         == if FallsBack(cfg, s, leg, allow, env) then CurlOpened(s.wires) else s.wires
  {
  }

  lemma ScheduleWires(cfg: Config, s: State)
    ensures ScheduleReconnect(cfg, s).wires == s.wires
  {
  }

  lemma FailureOverrunIff(cfg: Config, s: State, e: Event)
    requires SignalRace.RaceOk(cfg, s) && Enabled(s, e) && !s.wires.overrun
    requires e.LegClosed? || e.CurlFailed? || e.QuicFailed?
    ensures Step(cfg, s, e).wires.overrun <==> Overruns(cfg, s, e)
  {
    match e
    case LegClosed(leg, code, remote, env) =>
      var allow := remote && !s.ctl.userClosed;
      FailureWires(cfg, Ended(s, leg), leg, allow, env);
      ScheduleWires(cfg, WithStatus(NoSession(HandleFailure(cfg, Ended(s, leg), leg, allow, env).0), Closed));
    case CurlFailed(error, env) =>
      FailureWires(cfg, Ended(s, Curl), Curl, true, env);
      ScheduleWires(cfg, NoSession(HandleFailure(cfg, Ended(s, Curl), Curl, true, env).0));
    case QuicFailed(error, env) =>
      FailureWires(cfg, Ended(s, Quic), Quic, true, env);
      ScheduleWires(cfg, NoSession(HandleFailure(cfg, Ended(s, Quic), Quic, true, env).0));
  }

  /** WebSocket.open replaces an unjoined thread in exactly the step described by Overruns; a delay
      timer, a connect or a reconnect never does it. */
  lemma OverrunIff(cfg: Config, s: State, e: Event)
    requires SignalRace.RaceOk(cfg, s) && Enabled(s, e) && !s.wires.overrun
    ensures Step(cfg, s, e).wires.overrun <==> Overruns(cfg, s, e)
  {
    match e
    case AppConnect(url, env) => BeginConnectOverrun(cfg, Aimed(s, url), url, env);
    case AppConnectBest(url, env) => BeginConnectOverrun(cfg, Aimed(ResetCount(s), url), url, env);
    case AppDisconnect(leaveId, env) => CloseJoinWires(cfg, WaitCancelled(Leaving(s)), env);
    case AppReconnect => ScheduleWires(cfg, s);
    case Opened(leg) =>
    case Received(leg, response, env) => CloseCurlWires(cfg, Cut(WaitCancelled(Heard(s, leg))), env);
    case DelayTimer(gen, env) =>
    case ReconnectTimer(gen, env) =>
      BeginConnectOverrun(cfg, WithStatus(ReconnectTaken(s, gen), Connecting), s.timers.reconnects[gen], env);
    case CloseTimer(gen, env) => CloseJoinWires(cfg, WaitCancelled(CloseTaken(s, gen)), env);
    case KeepaliveTimer(gen) => ScheduleWires(cfg, KeepaliveTaken(s, gen));
    case _ => FailureOverrunIff(cfg, s, e);
  }

  function EnvOf(quicState: QuicState): Env
  {
    Env(quicState, Started, [])
  }

  /** It does happen: the delay passes, TCP fails while QUIC still connects, then QUIC fails. */
  lemma OverrunIsReached(cfg: Config, url: string)
    requires cfg.implementation == Mixed && cfg.mixedDelay > 0 && url != ""
    ensures var trace := [AppConnect(url, EnvOf(QuicConnecting)), DelayTimer(2, EnvOf(QuicConnecting)),
                          CurlFailed(CurlOther, EnvOf(QuicConnecting)), QuicFailed(QuicOther, EnvOf(QuicClosed))];
            Runs(cfg, FRESH, trace) && After(cfg, FRESH, trace).wires.overrun
  {
    var e1, e2 := AppConnect(url, EnvOf(QuicConnecting)), DelayTimer(2, EnvOf(QuicConnecting));
    var e3, e4 := CurlFailed(CurlOther, EnvOf(QuicConnecting)), QuicFailed(QuicOther, EnvOf(QuicClosed));
    MixedConnect(cfg, url);
    var s1 := Step(cfg, FRESH, e1);
    DelayedTcpFails(cfg, s1, 2);
    OneMore(cfg, FRESH, e1, [e2, e3, e4]);
    assert [e1] + [e2, e3, e4] == [e1, e2, e3, e4];
  }

  lemma MixedConnect(cfg: Config, url: string)
    requires cfg.implementation == Mixed && cfg.mixedDelay > 0
    ensures var s := Connect(cfg, FRESH, url, EnvOf(QuicConnecting));
      && s.race == Race(Quic, false, false, true, 2) && s.timers.delays == {2}
      && s.ctl.pendingUrl == url && !s.ctl.userClosed && s.locks == UNLOCKED
  {
    SignalLocks.JoinBlocksIff(cfg, Stopped(Aimed(FRESH, url)), EnvOf(QuicConnecting));
    SignalLocks.BeginConnectHaltsIff(cfg, Aimed(FRESH, url), url, EnvOf(QuicConnecting));
  }

  lemma DelayedTcpFails(cfg: Config, s: State, gen: nat)
    requires cfg.implementation == Mixed && !s.locks.halted && !s.ctl.userClosed && s.ctl.pendingUrl != ""
    requires s.race == Race(Quic, false, false, true, gen) && gen in s.timers.delays
    ensures var trace := [DelayTimer(gen, EnvOf(QuicConnecting)), CurlFailed(CurlOther, EnvOf(QuicConnecting)),
                          QuicFailed(QuicOther, EnvOf(QuicClosed))];
            Runs(cfg, s, trace) && After(cfg, s, trace).wires.overrun
  {
    var e2 := DelayTimer(gen, EnvOf(QuicConnecting));
    var e3, e4 := CurlFailed(CurlOther, EnvOf(QuicConnecting)), QuicFailed(QuicOther, EnvOf(QuicClosed));
    var s2 := Step(cfg, s, e2);
    assert s2.race == Race(Quic, true, false, false, gen + 1) && s2.wires.curlWorker;
    var s3 := Step(cfg, s2, e3);
    assert s3.race == Race(Quic, false, false, false, gen + 1) && s3.wires.curlWorker;
    OneMore(cfg, s3, e4, []);
    OneMore(cfg, s2, e3, [e4] + []);
    OneMore(cfg, s, e2, [e3] + ([e4] + []));
    assert [e2] + ([e3] + ([e4] + [])) == [e2, e3, e4];
  }

  // ----- the parts of starting TCP

  /** startMixedTcpFallback up to where it gives up its lock for the first time. */
  function FallbackTested(s: State): State
  {
    s.(race := CancelDelay(s.race))
  }

  /** Then it opens TCP, and takes the lock again for the rest, which is Landed. */
  function FallbackOpened(s: State): State
  {
    s.(wires := CurlOpened(s.wires))
  }

  /** The single step of the model is the three parts with nothing in between. */
  lemma FallbackIsItsParts(s: State, env: Env)
    requires FallbackOpens(s, env)
    ensures StartFallback(s, env) == Landed(FallbackOpened(FallbackTested(s)))
  {
  }

  /** With anything in between test and open, TCP is opened all the same. It is opened although the test
      would by then refuse it exactly when the user has closed, a session has opened, an alternative
      races, QUIC is open or there is no url. */
  lemma OpensUntestedIff(s: State, env: Env)
    ensures FallbackOpened(s).wires.opens == s.wires.opens + 1
    ensures StartFallback(s, env).wires.opens == s.wires.opens
       <==> s.ctl.userClosed || s.race.sessionOpen || s.race.hasAlt || env.quicState.QuicOpen? || s.ctl.pendingUrl == ""
  {
  }

  /** A disconnect in between: a transport is opened although the user has closed. The rest then closes
      it, and changes nothing else. */
  lemma DisconnectBeforeOpening(cfg: Config, s: State, leaveId: nat, env1: Env, env2: Env)
    requires FallbackOpens(s, env1) && !Disconnect(cfg, FallbackTested(s), leaveId, env2).locks.halted
    ensures var t := Disconnect(cfg, FallbackTested(s), leaveId, env2);
            var u := FallbackOpened(t);
      && t.ctl.userClosed && StartFallback(t, env1) == t
      && u.wires.opens == s.wires.opens + 1 && u.ctl.userClosed && Landed(u).race == u.race
  {
    SignalLegs.DisconnectSilent(cfg, FallbackTested(s), leaveId, env2);
  }

  /** With something in between open and rest, the rest waits for the mutex of a joining close exactly
      when it finds the user gone or a session open, and keeps the race invariant exactly when it closes
      what it opened, finds the alternative already racing, or finds the same unopened QUIC leg with no
      delay pending. */
  lemma LandingKeepsRaceIff(cfg: Config, s: State)
    requires SignalRace.RaceOk(cfg, s)
    ensures Landed(s).locks == s.locks.(landing := s.locks.landing
              || (s.locks.held && (s.ctl.userClosed || s.race.sessionOpen)))
    ensures SignalRace.RaceOk(cfg, Landed(s))
       <==> s.ctl.userClosed || s.race.sessionOpen || s.race.hasAlt
            || (s.race.primary == Quic && cfg.implementation == Mixed && !s.race.delayPending && s.wires.curlWorker)
  {
  }

  /** A connect in between breaks it: the new connection has an alternative it never started, while
      its own delay is still pending. */
  lemma ConnectBetweenHalves(cfg: Config, s: State, url: string, env: Env)
    requires cfg.implementation == Mixed && cfg.mixedDelay > 0 && env.opening.Started?
    ensures var t := Connect(cfg, FallbackOpened(FallbackTested(s)), url, env);
            !t.locks.halted ==>
              Landed(t).race.hasAlt && Landed(t).race.delayPending && !Landed(t).wires.curlWorker
              && !SignalRace.RaceOk(cfg, Landed(t))
  {
    CloseJoinWires(cfg, Stopped(Aimed(FallbackOpened(FallbackTested(s)), url)), env);
  }

  /** A disconnect in between does not return if the rest comes while it joins what was opened: the rest
      holds the race mutex and waits for the other, and the report of the end needs both. */
  lemma DisconnectWhileLanding(cfg: Config, s: State, env: Env)
    requires cfg.implementation == Mixed && s.locks == UNLOCKED && env.during == [Lands]
    ensures Disconnect(cfg, FallbackOpened(FallbackTested(s)), 0, env).locks.halted
  {
    var leaving := WaitCancelled(Leaving(FallbackOpened(FallbackTested(s))));
    SignalLocks.LandingBlocksIff(cfg, leaving, env);
    SignalLocks.CloseJoinBlocksIff(cfg, leaving, env);
  }

  // ----- the two halves of a reconnect

  /** What a reconnect timer tests. */
  predicate ReconnectTested(s: State, gen: nat)
  {
    gen in s.timers.reconnects && s.timers.reconnectGen == gen && !s.ctl.userClosed && s.timers.reconnects[gen] != ""
  }

  /** What it does then, without testing again. */
  function ReconnectLanded(cfg: Config, s: State, url: string, env: Env): State
  {
    BeginConnect(cfg, WithStatus(s, Connecting), url, env)
  }

  lemma ReconnectIsBothHalves(cfg: Config, s: State, gen: nat, env: Env)
    requires ReconnectTested(s, gen)
    ensures ReconnectFires(cfg, s, gen, env)
         == ReconnectLanded(cfg, ReconnectTaken(s, gen), s.timers.reconnects[gen], env)
  {
  }

  /** A disconnect in between that returns is undone by a connect that returns: the user's wish is
      forgotten and a transport is opened after it. The shutdown stays pending, and over TCP its timer
      will then not return. */
  lemma DisconnectBetweenHalves(cfg: Config, s: State, leaveId: nat, url: string, env1: Env, env2: Env)
    requires s.locks == UNLOCKED && (cfg.implementation == OnlyCurl || env2.opening.Started?)
    requires !Disconnect(cfg, s, leaveId, env1).locks.halted
    requires !ReconnectLanded(cfg, Disconnect(cfg, s, leaveId, env1), url, env2).locks.halted
    ensures var s1 := Disconnect(cfg, s, leaveId, env1);
            var s2 := ReconnectLanded(cfg, s1, url, env2);
      && !s2.ctl.userClosed && s2.wires.opens > s1.wires.opens
      && (s2.ctl.closing <==> leaveId != 0)
      && (cfg.implementation == OnlyCurl && leaveId != 0 ==>
            SignalLocks.Halts(cfg, s2, CloseTimer(s1.timers.closeGen, SignalLocks.NoEnv())))
  {
    SignalLocks.CloseJoinBlocksIff(cfg, WaitCancelled(Leaving(s)), env1);
    var s1 := Disconnect(cfg, s, leaveId, env1);
    var connecting := WithStatus(s1, Connecting);
    SignalLocks.CloseJoinBlocksIff(cfg, Stopped(connecting), env2);
    CloseJoinWires(cfg, Stopped(connecting), env2);
    SignalShutdown.CloseJoinShuts(cfg, Stopped(connecting), env2);
    SignalShutdown.CloseJoinShuts(cfg, WaitCancelled(Leaving(s)), env1);
    StartedOpens(cfg, Prepared(cfg, connecting, url, env2), env2);
    var s2 := ReconnectLanded(cfg, s1, url, env2);
    if cfg.implementation == OnlyCurl && leaveId != 0 {
      OverTcpHalts(cfg, s2, s1.timers.closeGen);
    }
  }

  lemma OverTcpHalts(cfg: Config, s: State, gen: nat)
    requires s.locks == UNLOCKED && s.timers.closeGen == gen && s.ctl.closing && s.race.primary == Curl
    requires s.wires.curlDuty == Owing && !s.ctl.userClosed && !s.ctl.suppress
    ensures SignalLocks.Halts(cfg, s, CloseTimer(gen, SignalLocks.NoEnv()))
  {
    SignalLocks.JoinBlocksIff(cfg, WaitCancelled(CloseTaken(s, gen)), SignalLocks.NoEnv());
  }

  lemma StartedOpens(cfg: Config, s: State, env: Env)
    requires cfg.implementation == OnlyCurl || env.opening.Started?
    ensures var t := OpenPrimary(cfg, s, env);
            t.wires.opens > s.wires.opens && t.ctl == s.ctl && t.race.primary == s.race.primary
            && t.timers.closeGen == s.timers.closeGen && t.locks == s.locks
            && t.timers.closes == s.timers.closes
            && (cfg.implementation == OnlyCurl ==> t.wires.curlDuty == Owing)
  {
  }

  // ----- reconnects spent on a close of one's own

  predicate Spends(cfg: Config, s: State)
  {
    !s.ctl.userClosed && !s.ctl.suppress && s.ctl.count < cfg.maxTimes
  }

  lemma ScheduleSpends(cfg: Config, s: State)
    requires !s.locks.held
    ensures var t := ScheduleReconnect(cfg, s);
      && t.ctl.userClosed == s.ctl.userClosed && t.locks == s.locks
      && (if Spends(cfg, s)
          then t.log.spawned == s.log.spawned + [s.timers.reconnectGen + 1] && t.ctl.count == s.ctl.count + 1
               && t.timers.reconnectGen == s.timers.reconnectGen + 1
               && SignalReconnects.Live(t, t.timers.reconnectGen) && !t.ctl.suppress && !t.race.hasAlt
          else t.log.spawned == s.log.spawned && (t == s || (t.ctl.suppress && !t.race.hasAlt)))
  {
  }

  /** What the primary leg's report of a local close leaves before it schedules a reconnect. */
  function Reported(cfg: Config, s: State, env: Env): State
  {
    WithStatus(NoSession(HandleFailure(cfg, s, s.race.primary, false, env).0), Closed)
  }

  lemma ReportSchedules(cfg: Config, s: State, env: Env)
    requires !s.race.hasAlt
    ensures OnClose(cfg, s, s.race.primary, 0, false, env) == ScheduleReconnect(cfg, Reported(cfg, s, env))
    ensures var r := Reported(cfg, s, env);
            r.ctl == s.ctl.(status := Closed) && r.timers == s.timers && r.log == s.log && r.locks == s.locks
  {
  }

  lemma ReportSpendsOne(cfg: Config, s: State, env: Env)
    requires !s.locks.held
    ensures |OnClose(cfg, s, s.race.primary, 0, false, env).log.spawned| <= |s.log.spawned| + 1
  {
    ScheduleSpends(cfg, Reported(cfg, s, env));
  }

  /** A keepalive thread ends, and the leg that was closed for it reports that close before any timer
      fires: two reconnects are spent exactly when the thread was not superseded, reconnects are wanted
      and not suppressed, and the limit allows two. The first of them is then dead. */
  lemma OverdueAnswerSpendsTwo(cfg: Config, s: State, gen: nat, env: Env)
    requires gen in s.timers.keepalives && s.locks == UNLOCKED
    ensures var t := KeepaliveFires(cfg, s, gen);
            var u := OnClose(cfg, t, t.race.primary, 0, false, env);
      && (|u.log.spawned| == |s.log.spawned| + 2
          <==> gen == s.timers.keepaliveGen && !s.ctl.userClosed && !s.ctl.suppress && s.ctl.count + 1 < cfg.maxTimes)
      && (|u.log.spawned| == |s.log.spawned| + 2 ==>
            u.ctl.count == s.ctl.count + 2
            && SignalReconnects.Live(t, t.timers.reconnectGen) && !SignalReconnects.Live(u, t.timers.reconnectGen)
            && SignalReconnects.Live(u, u.timers.reconnectGen))
  {
    var taken, t := KeepaliveTaken(s, gen), KeepaliveFires(cfg, s, gen);
    ScheduleSpends(cfg, taken);
    if t != taken {
      ReportSchedules(cfg, t, env);
      ScheduleSpends(cfg, Reported(cfg, t, env));
    } else {
      ReportSpendsOne(cfg, t, env);
    }
  }

  /** A rejected token that comes as a close code ends all reconnecting exactly when it comes from a
      leg that is still a candidate. */
  lemma TokenCloseSuppressesIff(cfg: Config, s: State, leg: Leg, env: Env)
    requires !s.ctl.suppress
    ensures OnClose(cfg, s, leg, TOKEN_EXPIRED, true, env).ctl.suppress <==> IsCandidate(s.race, leg)
  {
  }

  /** When it comes as an answer, the local close that follows still spends a reconnect exactly when
      the answer comes on the leg that serves an open session, no shutdown is pending, and reconnects
      are wanted, not suppressed and not used up. */
  lemma TokenAnswerReconnectsIff(cfg: Config, s: State, leg: Leg, id: nat, important: bool, env: Env)
    requires s.locks == UNLOCKED
    ensures var t := OnRecv(cfg, s, leg, Answer(id, TOKEN_EXPIRED, important), env);
            var u := OnClose(cfg, t, t.race.primary, 0, false, env);
      (|t.log.delivered| > |s.log.delivered| && !t.locks.halted && |u.log.spawned| == |s.log.spawned| + 1)
      <==> leg == s.race.primary && s.race.sessionOpen && !s.ctl.closing
           && !s.ctl.userClosed && !s.ctl.suppress && s.ctl.count < cfg.maxTimes
  {
  }

  // ----- the announced status

  /** A callback that sets the status. */
  predicate Announces(a: Arrival)
  {
    a.Opens? || a.Closes?
  }

  predicate NoneAnnounces(during: seq<Arrival>)
  {
    forall k :: 0 <= k < |during| ==> !Announces(during[k])
  }

  lemma {:induction false} StatusDuring(cfg: Config, s: State, during: seq<Arrival>, env: Env)
    requires SignalLocks.InJoin(s) && !s.locks.landing && !s.race.hasAlt && SignalLocks.CallbacksOnly(during)
    requires s.race.primary == Curl && !SignalLocks.SomeWaits(cfg, s, during, env)
    ensures var status := AllArrived(cfg, s, during, env).ctl.status;
            if NoneAnnounces(during) then status == s.ctl.status else status == Open || status == Closed
    decreases |during|
  {
    if during != [] {
      var next := Arrived(cfg, s, during[0], env);
      SignalLocks.OneDecides(cfg, s, during[0], env);
      StatusDuring(cfg, next, during[1..], env);
      assert forall k :: 0 < k < |during| ==> during[k] == during[1..][k - 1];
      assert NoneAnnounces(during) <==> !Announces(during[0]) && NoneAnnounces(during[1..]) by {
        assert forall k :: 0 <= k < |during[1..]| ==> during[1..][k] == during[k + 1];
      }
    }
  }

  /** What the close of the old primary leg leaves of the announced status. */
  predicate StaysUnannounced(s: State, env: Env)
  {
    var during := SignalLocks.Arrivals(s, env);
    if s.race.primary == Quic then s.wires.quicDuty == Told
    else NoneAnnounces(during) && (s.wires.curlDuty == Told || !SignalLocks.NoneEnds(during))
  }

  /** The status set by a connect that returns, if opening does not fail at once and no fallback lands in
      between, survives until a socket reports exactly when the old primary leg has made its terminal
      callback and, over TCP, nothing comes in that opens or closes; before the first connect no leg has. */
  lemma ConnectStatusIff(cfg: Config, s: State, url: string, env: Env)
    requires (cfg.implementation == OnlyCurl || !env.opening.Failed?) && s.locks == UNLOCKED
    requires SignalLocks.CallbacksOnly(env.during) && !Connect(cfg, s, url, env).locks.halted
    ensures Connect(cfg, s, url, env).ctl.status == Connecting <==> StaysUnannounced(s, env)
  {
    var stopped := Stopped(Aimed(s, url));
    SignalLocks.BeginConnectHaltsIff(cfg, Aimed(s, url), url, env);
    CloseStatusIff(cfg, stopped, env);
    assert StaysUnannounced(stopped, env) == StaysUnannounced(s, env);
  }

  lemma CloseStatusIff(cfg: Config, s: State, env: Env)
    requires s.ctl.status == Connecting && s.ctl.suppress && s.locks == UNLOCKED
    requires SignalLocks.CallbacksOnly(env.during) && !CloseJoin(cfg, s, env).locks.halted
    ensures CloseJoin(cfg, s, env).ctl.status == Connecting <==> StaysUnannounced(s, env)
  {
    var start, during := Held(Cut(s)), SignalLocks.Arrivals(s, env);
    SignalLocks.SomeWaitsIff(cfg, start, during, env);
    SignalLocks.CloseCurlBlocksIff(cfg, s, env);
    var curl := CloseCurl(cfg, Cut(s), env);
    if s.race.primary == Quic {
      QuicStatusDuring(cfg, start, during, env);
    } else {
      StatusDuring(cfg, start, during, env);
      SignalShutdown.QuicReportIgnored(cfg, curl, env);
    }
  }

  /** Over QUIC nothing that TCP reports is heard. */
  lemma {:induction false} QuicStatusDuring(cfg: Config, s: State, during: seq<Arrival>, env: Env)
    requires s.race.primary == Quic && !s.race.hasAlt && SignalLocks.CallbacksOnly(during)
    ensures var t := AllArrived(cfg, s, during, env);
            t.ctl == s.ctl && t.race == s.race && t.wires.quicDuty == s.wires.quicDuty
    decreases |during|
  {
    if during != [] && !s.locks.halted {
      QuicStatusDuring(cfg, Arrived(cfg, s, during[0], env), during[1..], env);
    }
  }
}
