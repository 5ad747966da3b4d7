/**
 Which leg serves a session, and what happens after a disconnect.
 */
module SignalLegs {
  import opened SignalTransport
  import SignalRace

  // ----- one leg a session

  predicate SameLegs(s: State, t: State)
  {
    t.race.primary == s.race.primary && t.log.delivered == s.log.delivered && t.log.legChanges == s.log.legChanges
  }

  predicate QuicToCurl(s: State, t: State)
  {
    && s.race.primary == Quic && t.race.primary == Curl
    && t.log.delivered == s.log.delivered && t.log.legChanges == s.log.legChanges + 1
  }

  /** The legs are as before, or the TCP leg has taken over while no session was open. */
  predicate MayPromote(s: State, t: State)
  {
    SameLegs(s, t) || (QuicToCurl(s, t) && !s.race.sessionOpen)
  }

  /** In addition no session has opened. */
  predicate Kept(s: State, t: State)
  {
    MayPromote(s, t) && (t.race.sessionOpen ==> s.race.sessionOpen)
  }

  lemma FailFatalLegs(s: State)
    ensures SameLegs(s, FailFatal(s)) && Kept(s, FailFatal(s))
    ensures !s.locks.held ==> !FailFatal(s).race.sessionOpen
  {
  }

  lemma ScheduleReconnectLegs(cfg: Config, s: State)
    ensures SameLegs(s, ScheduleReconnect(cfg, s)) && Kept(s, ScheduleReconnect(cfg, s))
  {
    FailFatalLegs(s);
    FailFatalLegs(CountedUp(s));
  }

  lemma StartFallbackLegs(s: State, env: Env)
    ensures SameLegs(s, StartFallback(s, env)) && Kept(s, StartFallback(s, env))
    ensures StartFallback(s, env).race.hasAlt && !s.race.hasAlt ==> !s.race.sessionOpen
  {
  }

  lemma HandleFailureLegs(cfg: Config, s: State, leg: Leg, allow: bool, env: Env)
    ensures Kept(s, HandleFailure(cfg, s, leg, allow, env).0)
    ensures !allow && !s.race.hasAlt ==>
              SameLegs(s, HandleFailure(cfg, s, leg, allow, env).0)
              && !HandleFailure(cfg, s, leg, allow, env).0.race.hasAlt
  {
    StartFallbackLegs(s.(race := CancelDelay(s.race)), env);
  }

  lemma OnCloseLegs(cfg: Config, s: State, leg: Leg, code: int, remote: bool, env: Env)
    ensures Kept(s, OnClose(cfg, s, leg, code, remote, env))
    ensures !remote && !s.race.hasAlt ==> SameLegs(s, OnClose(cfg, s, leg, code, remote, env))
  {
    var allow := remote && !s.ctl.userClosed;
    FailFatalLegs(s);
    HandleFailureLegs(cfg, s, leg, allow, env);
    ScheduleReconnectLegs(cfg, WithStatus(NoSession(HandleFailure(cfg, s, leg, allow, env).0), Closed));
  }

  lemma ErrorLegs(cfg: Config, s: State, leg: Leg, env: Env)
    ensures var after := HandleFailure(cfg, s, leg, true, env).0;
            Kept(s, after) && Kept(s, FailFatal(s)) && Kept(s, FailFatal(after))
            && Kept(s, ScheduleReconnect(cfg, NoSession(after)))
  {
    HandleFailureLegs(cfg, s, leg, true, env);
    var after := HandleFailure(cfg, s, leg, true, env).0;
    FailFatalLegs(s);
    FailFatalLegs(after);
    ScheduleReconnectLegs(cfg, NoSession(after));
  }

  lemma OnCurlErrorLegs(cfg: Config, s: State, error: CurlError, env: Env)
    ensures Kept(s, OnCurlError(cfg, s, error, env))
  {
    ErrorLegs(cfg, s, Curl, env);
  }

  lemma OnQuicErrorLegs(cfg: Config, s: State, error: QuicError, env: Env)
    ensures Kept(s, OnQuicError(cfg, s, error, env))
  {
    ErrorLegs(cfg, s, Quic, env);
  }

  // ----- joining closes, with what comes in while they join

  predicate MoreOverCurl(before: seq<Leg>, after: seq<Leg>)
  {
    before <= after && forall i :: |before| <= i < |after| ==> after[i] == Curl
  }

  /** What a joining close does to the legs. TCP may take over if no session was open, and payloads
      that still come in come from TCP, which serves the session then. */
  predicate Worked(s: State, t: State)
  {
    && MoreOverCurl(s.log.delivered, t.log.delivered) && (t.log.delivered == s.log.delivered || t.race.primary == Curl)
    && (t.race.primary == s.race.primary || (t.race.primary == Curl && !s.race.sessionOpen))
    && t.log.legChanges == s.log.legChanges + (if t.race.primary == s.race.primary then 0 else 1)
    && (t.race.sessionOpen && !s.race.sessionOpen ==> t.race.primary == Curl)
  }

  lemma KeptWorks(s: State, t: State)
    requires Kept(s, t)
    ensures Worked(s, t)
  {
  }

  /** An alternative and a session exclude each other. */
  predicate Exclusive(s: State)
  {
    s.race.hasAlt ==> !s.race.sessionOpen
  }

  lemma CallBackWorks(cfg: Config, s: State, a: Arrival, env: Env)
    requires Exclusive(s)
    ensures Worked(s, Arrived(cfg, s, a, env)) && Exclusive(Arrived(cfg, s, a, env))
  {
    match a
    case Opens => OnOpenLegs(s, Curl);
    case Closes(code, remote) => OnCloseLegs(cfg, Ended(s, Curl), Curl, code, remote, env);
    case Fails(error) => OnCurlErrorLegs(cfg, Ended(s, Curl), error, env);
    case Hears(response) =>
    case Lands =>
  }

  /** A session over QUIC is not touched. */
  lemma CallBackOverQuic(cfg: Config, s: State, a: Arrival, env: Env)
    requires SignalRace.OverQuic(s)
    ensures var t := Arrived(cfg, s, a, env); SignalRace.OverQuic(t) && SameLegs(s, t)
  {
  }

  lemma {:induction false} AllArrivedWorks(cfg: Config, s: State, during: seq<Arrival>, env: Env)
    requires Exclusive(s)
    ensures var t := AllArrived(cfg, s, during, env);
            Worked(s, t) && Exclusive(t) && (SignalRace.OverQuic(s) ==> SignalRace.OverQuic(t))
    decreases |during|
  {
    if during != [] && !s.locks.halted {
      var next := Arrived(cfg, s, during[0], env);
      CallBackWorks(cfg, s, during[0], env);
      if SignalRace.OverQuic(s) {
        CallBackOverQuic(cfg, s, during[0], env);
      }
      AllArrivedWorks(cfg, next, during[1..], env);
      WorkedTwice(s, next, AllArrived(cfg, next, during[1..], env));
    }
  }

  lemma WorkedTwice(s: State, u: State, t: State)
    requires Worked(s, u) && Worked(u, t) && Exclusive(s)
    requires SignalRace.OverQuic(s) ==> SignalRace.OverQuic(u) && SignalRace.OverQuic(t)
    requires s.race.sessionOpen && s.race.primary == Quic ==> SignalRace.OverQuic(s)
    ensures Worked(s, t)
  {
  }

  /** The TCP leg that ends promotes nothing. */
  lemma CurlReportLegs(cfg: Config, s: State, env: Env)
    ensures var t := OnClose(cfg, s, Curl, 0, false, env);
            SameLegs(s, t) && Kept(s, t) && (Exclusive(s) ==> Exclusive(t))
            && (SignalRace.OverQuic(s) ==> SignalRace.OverQuic(t))
  {
    OnCloseLegs(cfg, s, Curl, 0, false, env);
  }

  lemma CloseCurlWorks(cfg: Config, s: State, env: Env)
    requires !s.race.hasAlt
    ensures var t := CloseCurl(cfg, s, env);
            Worked(s, t) && Exclusive(t) && (SignalRace.OverQuic(s) ==> SignalRace.OverQuic(t))
  {
    AllArrivedWorks(cfg, Held(s), if s.wires.curlWorker then env.during else [], env);
    var joined := Joining(cfg, s, env);
    CurlReportLegs(cfg, CurlJoined(joined), env);
  }

  /** Unless it does not return, it ends with no session. */
  lemma CloseJoinWorks(cfg: Config, s: State, env: Env)
    ensures Worked(s, CloseJoin(cfg, s, env))
    ensures !CloseJoin(cfg, s, env).locks.halted ==> !CloseJoin(cfg, s, env).race.sessionOpen
  {
    CloseCurlWorks(cfg, Cut(s), env);
    var curl := CloseCurl(cfg, Cut(s), env);
    assert Worked(s, curl);
    if !curl.locks.halted {
      if curl.wires.quicDuty == Told {
        KeptWorks(curl, WithoutAlt(NoSession(curl)));
      } else {
        QuicReportWorks(cfg, Cut(s), QuicJoined(curl), env);
      }
    }
  }

  lemma QuicReportWorks(cfg: Config, s: State, u: State, env: Env)
    requires Worked(s, u) && !s.race.hasAlt && (SignalRace.OverQuic(s) ==> SignalRace.OverQuic(u))
    ensures Worked(s, NoSession(OnClose(cfg, u, Quic, 0, false, env)))
  {
    OnCloseLegs(cfg, u, Quic, 0, false, env);
  }

  lemma CloseAfterDisconnectWorks(cfg: Config, s: State, env: Env)
    ensures Worked(s, CloseAfterDisconnect(cfg, s, env))
  {
    if s.ctl.closing {
      CloseJoinWorks(cfg, WaitCancelled(s), env);
    }
  }

  lemma CloseOnWorkerLegs(s: State)
    ensures SameLegs(s, CloseOnWorker(s)) && Kept(s, CloseOnWorker(s))
  {
  }

  lemma {:induction false} AllArrivedQuicLegs(cfg: Config, s: State, during: seq<Arrival>, env: Env)
    requires SignalRace.OverQuic(s)
    ensures var t := AllArrived(cfg, s, during, env); SignalRace.OverQuic(t) && SameLegs(s, t)
    decreases |during|
  {
    if during != [] && !s.locks.halted {
      CallBackOverQuic(cfg, s, during[0], env);
      AllArrivedQuicLegs(cfg, Arrived(cfg, s, during[0], env), during[1..], env);
    }
  }

  lemma JoinInsideLegs(cfg: Config, s: State, leg: Leg, env: Env)
    requires leg == s.race.primary && s.race.sessionOpen
    ensures SameLegs(s, JoinInside(cfg, s, leg, env))
  {
    if leg == Quic {
      var cut := Cut(WaitCancelled(s));
      AllArrivedQuicLegs(cfg, Held(cut), if cut.wires.curlWorker then env.during else [], env);
      CurlReportLegs(cfg, CurlJoined(Joining(cfg, cut, env)), env);
    } else {
      CloseOnWorkerLegs(s);
    }
  }

  lemma HandleResponseLegs(cfg: Config, s: State, leg: Leg, response: Response, env: Env)
    requires leg == s.race.primary && s.race.sessionOpen
    ensures SameLegs(s, HandleResponse(cfg, s, leg, response, env))
  {
    JoinInsideLegs(cfg, s, leg, env);
  }

  lemma OnOpenLegs(s: State, leg: Leg)
    ensures MayPromote(s, OnOpen(s, leg))
    ensures !s.race.sessionOpen && OnOpen(s, leg).race.sessionOpen ==> OnOpen(s, leg).race.primary == leg
  {
    assert IsCandidate(s.race, leg) && !s.race.sessionOpen ==>
        MayPromote(s, Settled(s, leg)) && Settled(s, leg).race.primary == leg;
  }

  lemma ScheduleFallbackLegs(cfg: Config, s: State, env: Env)
    ensures Kept(s, ScheduleFallback(cfg, s, env))
  {
    StartFallbackLegs(s, env);
  }

  lemma OpenPrimaryLegs(cfg: Config, s: State, env: Env)
    requires !s.race.sessionOpen
    ensures Kept(s, OpenPrimary(cfg, s, env))
  {
    match env.opening
    case Refused =>
    case Failed(error) => OnQuicErrorLegs(cfg, Ended(s, Quic), error, env);
    case Started => ScheduleFallbackLegs(cfg, s.(wires := QuicOpened(s.wires)), env);
  }

  /** A connect ends the session before, or does not return from trying to. */
  lemma BeginConnectLegs(cfg: Config, s: State, url: string, env: Env)
    ensures var t := BeginConnect(cfg, s, url, env);
            if Prepared(cfg, s, url, env).locks.halted then t.locks.halted && Worked(s, t)
            else MayPromote(ReadyRace(cfg, s), t) && !t.race.sessionOpen
  {
    CloseJoinWorks(cfg, Stopped(s), env);
    var ready := Prepared(cfg, s, url, env);
    if !ready.locks.halted {
      OpenPrimaryLegs(cfg, ready, env);
    }
  }

  // ----- every step

  predicate Connects(e: Event)
  {
    e.AppConnect? || e.AppConnectBest? || e.ReconnectTimer?
  }

  /** Every step that neither connects nor opens nor receives. */
  lemma QuietStepLegs(cfg: Config, s: State, e: Event)
    requires Enabled(s, e) && !Connects(e) && !e.Opened? && !e.Received?
    ensures Worked(s, Step(cfg, s, e))
    ensures !e.AppDisconnect? && !e.CloseTimer? ==> Kept(s, Step(cfg, s, e))
  {
    match e
    case AppDisconnect(leaveId, env) => CloseAfterDisconnectWorks(cfg, Leaving(s), env);
    case AppReconnect => ScheduleReconnectLegs(cfg, s);
    case LegClosed(leg, code, remote, env) => OnCloseLegs(cfg, Ended(s, leg), leg, code, remote, env);
    case CurlFailed(error, env) => OnCurlErrorLegs(cfg, Ended(s, Curl), error, env);
    case QuicFailed(error, env) => OnQuicErrorLegs(cfg, Ended(s, Quic), error, env);
    case DelayTimer(gen, env) =>
      StartFallbackLegs(DelayTaken(s, gen).(race := s.race.(delayPending := false)), env);
    case CloseTimer(gen, env) => CloseAfterDisconnectWorks(cfg, CloseTaken(s, gen), env);
    case KeepaliveTimer(gen) => ScheduleReconnectLegs(cfg, KeepaliveTaken(s, gen));
  }

  /** Within a connection the legs change at most from QUIC to TCP, and only while no session is open;
      a payload is delivered only from the leg that serves the session, or, while a disconnect or the
      shutdown timer joins the TCP worker, from TCP when it serves the session at the end. */
  lemma StepLegs(cfg: Config, s: State, e: Event)
    requires Enabled(s, e) && !Connects(e)
    ensures var t := Step(cfg, s, e);
      || MayPromote(s, t)
      || (e.Received? && e.leg == s.race.primary && s.race.sessionOpen && SameLegs(Heard(s, e.leg), t))
      || ((e.AppDisconnect? || e.CloseTimer?) && Worked(s, t))
  {
    match e
    case Opened(leg) => OnOpenLegs(s, leg);
    case Received(leg, response, env) =>
      if leg == s.race.primary && s.race.sessionOpen {
        HandleResponseLegs(cfg, Heard(s, leg), leg, response, env);
      }
    case _ => QuietStepLegs(cfg, s, e);
  }

  lemma ReconnectTimerLegs(cfg: Config, s: State, gen: nat, env: Env)
    requires gen in s.timers.reconnects
    ensures var t := ReconnectFires(cfg, s, gen, env);
            Worked(s, t) || (MayPromote(ReadyRace(cfg, s), t) && !t.race.sessionOpen)
    ensures ReconnectFires(cfg, s, gen, env).race.sessionOpen ==> Worked(s, ReconnectFires(cfg, s, gen, env))
  {
    var taken := WithStatus(ReconnectTaken(s, gen), Connecting);
    BeginConnectLegs(cfg, taken, s.timers.reconnects[gen], env);
    if ReconnectFires(cfg, s, gen, env) == ReconnectTaken(s, gen) {
      KeptWorks(s, ReconnectTaken(s, gen));
    }
  }

  lemma ConnectLegs(cfg: Config, s: State, e: Event)
    requires Enabled(s, e) && Connects(e)
    ensures var t := Step(cfg, s, e);
            Worked(s, t) || (MayPromote(ReadyRace(cfg, s), t) && !t.race.sessionOpen)
    ensures Step(cfg, s, e).race.sessionOpen ==> Worked(s, Step(cfg, s, e))
  {
    match e
    case AppConnect(url, env) => BeginConnectLegs(cfg, Aimed(s, url), url, env);
    case AppConnectBest(url, env) => BeginConnectLegs(cfg, Aimed(ResetCount(s), url), url, env);
    case ReconnectTimer(gen, env) => ReconnectTimerLegs(cfg, s, gen, env);
  }

  /** A session open before and after any step is served by the same leg. One that opens is served by
      the leg whose callback opened it; within a step that does not return that is TCP, whose worker is
      being joined. */
  lemma OneLegASession(cfg: Config, s: State, e: Event)
    requires Enabled(s, e)
    ensures s.race.sessionOpen && Step(cfg, s, e).race.sessionOpen ==>
              Step(cfg, s, e).race.primary == s.race.primary
    ensures !s.race.sessionOpen && Step(cfg, s, e).race.sessionOpen ==>
              if e.Opened? then Step(cfg, s, e).race.primary == e.leg
              else Step(cfg, s, e).locks.halted && Step(cfg, s, e).race.primary == Curl
  {
    if Connects(e) {
      ConnectLegs(cfg, s, e);
      ConnectOpensNothing(cfg, s, e);
    } else {
      match e
      case Opened(leg) => OnOpenLegs(s, leg);
      case Received(leg, response, env) =>
        if leg == s.race.primary && s.race.sessionOpen {
          HandleResponseLegs(cfg, Heard(s, leg), leg, response, env);
        }
      case _ =>
        QuietStepLegs(cfg, s, e);
        if e.AppDisconnect? || e.CloseTimer? {
          DisconnectOpensNothing(cfg, s, e);
        }
    }
  }

  lemma ConnectOpensNothing(cfg: Config, s: State, e: Event)
    requires Enabled(s, e) && Connects(e)
    ensures Step(cfg, s, e).race.sessionOpen && !s.race.sessionOpen ==> Step(cfg, s, e).locks.halted
  {
    match e
    case AppConnect(url, env) => BeginConnectLegs(cfg, Aimed(s, url), url, env);
    case AppConnectBest(url, env) => BeginConnectLegs(cfg, Aimed(ResetCount(s), url), url, env);
    case ReconnectTimer(gen, env) =>
      BeginConnectLegs(cfg, WithStatus(ReconnectTaken(s, gen), Connecting), s.timers.reconnects[gen], env);
  }

  lemma DisconnectOpensNothing(cfg: Config, s: State, e: Event)
    requires Enabled(s, e) && (e.AppDisconnect? || e.CloseTimer?)
    ensures Step(cfg, s, e).race.sessionOpen && !s.race.sessionOpen ==> Step(cfg, s, e).locks.halted
  {
    match e
    case AppDisconnect(leaveId, env) => CloseJoinWorks(cfg, WaitCancelled(Leaving(s)), env);
    case CloseTimer(gen, env) => CloseJoinWorks(cfg, WaitCancelled(CloseTaken(s, gen)), env);
  }

  // ----- the order of delivered payloads

  /** Some payloads over QUIC, then some over TCP. */
  predicate QuicThenCurl(legs: seq<Leg>)
  {
    forall i, j :: 0 <= i < j < |legs| && legs[i] == Curl ==> legs[j] == Curl
  }

  predicate Delivered(primary: Leg, changes: nat, legs: seq<Leg>)
  {
    && QuicThenCurl(legs) && changes <= 1
    && (primary == Quic ==> changes == 0 && Curl !in legs)
    && (primary == Curl && changes == 0 ==> Quic !in legs)
  }

  predicate LegsOk(s: State)
  {
    Delivered(s.race.primary, s.log.legChanges, s.log.delivered)
  }

  lemma DeliverKeeps(primary: Leg, changes: nat, legs: seq<Leg>)
    requires Delivered(primary, changes, legs)
    ensures Delivered(primary, changes, legs + [primary])
  {
  }

  lemma WorkedKeeps(s: State, t: State)
    requires LegsOk(s) && Worked(s, t)
    ensures LegsOk(t)
  {
  }

  lemma StepKeeps(cfg: Config, s: State, e: Event)
    requires LegsOk(s) && Enabled(s, e)
    ensures LegsOk(Step(cfg, s, e))
  {
    var t := Step(cfg, s, e);
    if Connects(e) {
      ConnectLegs(cfg, s, e);
    } else {
      StepLegs(cfg, s, e);
      DeliverKeeps(s.race.primary, s.log.legChanges, s.log.delivered);
    }
    if Worked(s, t) {
      WorkedKeeps(s, t);
    }
  }

  /** Between two beginConnect calls the primary leg changes at most once, from QUIC to TCP, and the
      legs of the payloads delivered form Quic* Curl*. */
  lemma {:induction false} EveryRunKeeps(cfg: Config, s: State, trace: seq<Event>)
    requires LegsOk(s) && Runs(cfg, s, trace)
    ensures LegsOk(After(cfg, s, trace))
    decreases |trace|
  {
    if trace != [] {
      StepKeeps(cfg, s, trace[0]);
      EveryRunKeeps(cfg, Step(cfg, s, trace[0]), trace[1..]);
    }
  }

  // ----- silence after a disconnect

  /** Nothing is opened, no session opens, no reconnect is scheduled, and the wish stands. */
  predicate Silent(s: State, t: State)
  {
    && t.ctl.userClosed
    && t.wires.opens == s.wires.opens
    && t.log.spawned == s.log.spawned
    && (t.race.sessionOpen ==> s.race.sessionOpen)
  }

  lemma OnCloseSilent(cfg: Config, s: State, leg: Leg, code: int, remote: bool, env: Env)
    requires s.ctl.userClosed
    ensures Silent(s, OnClose(cfg, s, leg, code, remote, env))
  {
  }

  lemma ArrivedSilent(cfg: Config, s: State, a: Arrival, env: Env)
    requires s.ctl.userClosed
    ensures Silent(s, Arrived(cfg, s, a, env))
  {
    match a
    case Opens => OnOpenSilent(s, Curl);
    case Closes(code, remote) => OnCloseSilent(cfg, Ended(s, Curl), Curl, code, remote, env);
    case Fails(error) => OnCurlErrorSilent(cfg, Ended(s, Curl), error, env);
    case Hears(response) =>
    case Lands =>
  }

  lemma {:induction false} AllArrivedSilent(cfg: Config, s: State, during: seq<Arrival>, env: Env)
    requires s.ctl.userClosed
    ensures Silent(s, AllArrived(cfg, s, during, env))
    decreases |during|
  {
    if during != [] && !s.locks.halted {
      ArrivedSilent(cfg, s, during[0], env);
      AllArrivedSilent(cfg, Arrived(cfg, s, during[0], env), during[1..], env);
    }
  }

  lemma CloseCurlSilent(cfg: Config, s: State, env: Env)
    requires s.ctl.userClosed
    ensures Silent(s, CloseCurl(cfg, s, env))
  {
    AllArrivedSilent(cfg, Held(s), if s.wires.curlWorker then env.during else [], env);
    OnCloseSilent(cfg, CurlJoined(Joining(cfg, s, env)), Curl, 0, false, env);
  }

  lemma CloseJoinSilent(cfg: Config, s: State, env: Env)
    requires s.ctl.userClosed
    ensures Silent(s, CloseJoin(cfg, s, env))
  {
    CloseCurlSilent(cfg, Cut(s), env);
    OnCloseSilent(cfg, QuicJoined(CloseCurl(cfg, Cut(s), env)), Quic, 0, false, env);
  }

  lemma HandleResponseSilent(cfg: Config, s: State, leg: Leg, response: Response, env: Env)
    requires s.ctl.userClosed
    ensures Silent(s, HandleResponse(cfg, s, leg, response, env))
  {
    CloseCurlSilent(cfg, Cut(WaitCancelled(s)), env);
  }

  lemma ErrorSilent(cfg: Config, s: State, leg: Leg, env: Env)
    requires s.ctl.userClosed
    ensures var after := HandleFailure(cfg, s, leg, true, env).0;
            Silent(s, after) && Silent(s, FailFatal(s)) && Silent(s, FailFatal(after))
            && Silent(s, ScheduleReconnect(cfg, NoSession(after)))
  {
  }

  lemma OnRecvSilent(cfg: Config, s: State, leg: Leg, response: Response, env: Env)
    requires s.ctl.userClosed
    ensures Silent(s, OnRecv(cfg, s, leg, response, env))
  {
    HandleResponseSilent(cfg, Heard(s, leg), leg, response, env);
  }

  /** The disconnect itself is silent, whatever was before. */
  lemma DisconnectSilent(cfg: Config, s: State, leaveId: nat, env: Env)
    ensures Silent(s, Disconnect(cfg, s, leaveId, env))
  {
    CloseJoinSilent(cfg, WaitCancelled(Leaving(s)), env);
  }

  lemma OnCurlErrorSilent(cfg: Config, s: State, error: CurlError, env: Env)
    requires s.ctl.userClosed
    ensures Silent(s, OnCurlError(cfg, s, error, env))
  {
    ErrorSilent(cfg, s, Curl, env);
  }

  lemma OnQuicErrorSilent(cfg: Config, s: State, error: QuicError, env: Env)
    requires s.ctl.userClosed
    ensures Silent(s, OnQuicError(cfg, s, error, env))
  {
    ErrorSilent(cfg, s, Quic, env);
  }

  lemma OnOpenSilent(s: State, leg: Leg)
    requires s.ctl.userClosed
    ensures Silent(s, OnOpen(s, leg))
  {
  }

  lemma TimerSilent(cfg: Config, s: State, e: Event)
    requires Enabled(s, e) && s.ctl.userClosed
    requires e.DelayTimer? || e.ReconnectTimer? || e.CloseTimer? || e.KeepaliveTimer?
    ensures Silent(s, Step(cfg, s, e))
  {
    if e.CloseTimer? {
      CloseJoinSilent(cfg, WaitCancelled(CloseTaken(s, e.gen)), e.env);
    }
  }

  lemma StepSilent(cfg: Config, s: State, e: Event)
    requires Enabled(s, e) && s.ctl.userClosed && !e.AppConnect? && !e.AppConnectBest?
    ensures Silent(s, Step(cfg, s, e))
  {
    match e
    case AppDisconnect(leaveId, env) => DisconnectSilent(cfg, s, leaveId, env);
    case AppReconnect =>
    case Opened(leg) => OnOpenSilent(s, leg);
    case LegClosed(leg, code, remote, env) => OnCloseSilent(cfg, Ended(s, leg), leg, code, remote, env);
    case CurlFailed(error, env) => OnCurlErrorSilent(cfg, Ended(s, Curl), error, env);
    case QuicFailed(error, env) => OnQuicErrorSilent(cfg, Ended(s, Quic), error, env);
    case Received(leg, response, env) => OnRecvSilent(cfg, s, leg, response, env);
    case _ => TimerSilent(cfg, s, e);
  }

  /** After a disconnect and until the application connects again, no run of callbacks and timers
      opens a transport, opens a session or schedules a reconnect. */
  lemma {:induction false} SilentAfterDisconnect(cfg: Config, s: State, trace: seq<Event>)
    requires s.ctl.userClosed && Runs(cfg, s, trace)
    requires forall i :: 0 <= i < |trace| ==> !trace[i].AppConnect? && !trace[i].AppConnectBest?
    ensures Silent(s, After(cfg, s, trace))
    decreases |trace|
  {
    if trace != [] {
      StepSilent(cfg, s, trace[0]);
      SilentAfterDisconnect(cfg, Step(cfg, s, trace[0]), trace[1..]);
    }
  }

  /** The disconnect itself is as silent as what follows it. */
  lemma NothingAfterDisconnect(cfg: Config, s: State, leaveId: nat, env: Env, trace: seq<Event>)
    requires Runs(cfg, Disconnect(cfg, s, leaveId, env), trace)
    requires forall i :: 0 <= i < |trace| ==> !trace[i].AppConnect? && !trace[i].AppConnectBest?
    ensures Silent(s, After(cfg, Disconnect(cfg, s, leaveId, env), trace))
  {
    DisconnectSilent(cfg, s, leaveId, env);
    SilentAfterDisconnect(cfg, Disconnect(cfg, s, leaveId, env), trace);
  }
}
