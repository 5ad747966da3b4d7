/**
 The transport controller never gets stuck: while the application wants a connection and no fatal
 error has ended it, something is always on its way that will move it on.
 */
module SignalProgress {
  import opened SignalTransport
  import SignalLocks
  import SignalRace
  import SignalReconnects
  import SignalShutdown

  /** The leg still owes its terminal callback. */
  predicate LegLive(w: Wires, leg: Leg)
  {
    if leg == Quic then w.quicDuty == Owing else w.curlDuty == Owing
  }

  predicate AltLive(s: State)
  {
    s.race.hasAlt ==> s.wires.curlDuty == Owing && s.race.primary == Quic
  }

  /** The application has closed, a fatal error has ended reconnecting, a reconnect will fire, or the
      primary leg will still call back. */
  predicate Moving(s: State)
  {
    || s.ctl.userClosed
    || s.ctl.suppress
    || SignalReconnects.Live(s, s.timers.reconnectGen)
    || LegLive(s.wires, s.race.primary)
  }

  predicate Urls(s: State)
  {
    s.ctl.serverUrl != "" && forall g :: g in s.timers.reconnects ==> s.timers.reconnects[g] != ""
  }

  predicate ProgressOk(s: State)
  {
    AltLive(s) && Urls(s) && Moving(s)
  }

  /** How the sockets behave: a QUIC socket that connects or is open will call back, and it can be
      opened once it is closed. */
  predicate HonestEnv(s: State, env: Env)
  {
    && ((env.quicState.QuicConnecting? || env.quicState.QuicOpen?) ==> s.wires.quicDuty == Owing)
    && !env.opening.Refused?
  }

  /** While TCP is joined its terminal callback comes once, too; before it, the handshake may end and a
      fallback land. */
  predicate HonestDuring(duty: Duty, during: seq<Arrival>)
    decreases |during|
  {
    during == []
    || match during[0]
       case Opens => duty == Owing && HonestDuring(duty, during[1..])
       case Lands => duty == Owing && HonestDuring(duty, during[1..])
       case Hears(_) => HonestDuring(duty, during[1..])
       case _ => duty == Owing && HonestDuring(Told, during[1..])
  }

  predicate HonestJoin(s: State, env: Env)
  {
    HonestEnv(s, env) && HonestDuring(s.wires.curlDuty, env.during)
  }

  /** Terminal callbacks come once, from legs that owe them; urls are not empty. */
  predicate Honest(s: State, e: Event)
  {
    match e
    case AppConnect(url, env) => url != "" && HonestJoin(s, env)
    case AppConnectBest(url, env) => url != "" && HonestJoin(s, env)
    case AppDisconnect(_, env) => HonestJoin(s, env)
    case Opened(leg) => LegLive(s.wires, leg)
    case LegClosed(leg, _, _, env) => LegLive(s.wires, leg) && HonestEnv(Ended(s, leg), env)
    case CurlFailed(_, env) => s.wires.curlDuty == Owing && HonestEnv(Ended(s, Curl), env)
    case QuicFailed(_, env) => s.wires.quicDuty == Owing && HonestEnv(Ended(s, Quic), env)
    case Received(_, _, env) => HonestJoin(s, env)
    case DelayTimer(_, env) => HonestEnv(s, env)
    case ReconnectTimer(_, env) => HonestJoin(s, env)
    case CloseTimer(_, env) => HonestJoin(s, env)
    case _ => true
  }

  lemma ScheduleMoves(cfg: Config, s: State)
    requires Urls(s) && AltLive(s)
    ensures ProgressOk(ScheduleReconnect(cfg, s))
  {
  }

  lemma FatalMoves(s: State)
    requires Urls(s)
    ensures ProgressOk(FailFatal(s))
  {
  }

  /** What a failing leg leaves behind: a handled failure leaves a leg that will call back. */
  lemma HandleFailureMoves(cfg: Config, s: State, leg: Leg, allow: bool, env: Env)
    requires SignalRace.Racing(cfg, s.race, s.wires) && Urls(s) && IsCandidate(s.race, leg)
    requires leg == Quic ==> AltLive(s)
    requires leg == Curl && (env.quicState.QuicConnecting? || env.quicState.QuicOpen?) ==> s.wires.quicDuty == Owing
    ensures var (after, handled) := HandleFailure(cfg, s, leg, allow, env);
            Urls(after) && AltLive(after) && (handled ==> Moving(after))
  {
  }

  lemma OnCloseMoves(cfg: Config, s: State, leg: Leg, code: int, remote: bool, env: Env)
    requires SignalRace.Racing(cfg, s.race, s.wires) && Urls(s) && IsCandidate(s.race, leg)
    requires leg == Quic ==> AltLive(s)
    requires leg == Curl && (env.quicState.QuicConnecting? || env.quicState.QuicOpen?) ==> s.wires.quicDuty == Owing
    ensures ProgressOk(OnClose(cfg, s, leg, code, remote, env))
  {
    var allow := remote && !s.ctl.userClosed;
    FatalMoves(s);
    HandleFailureMoves(cfg, s, leg, allow, env);
    ScheduleMoves(cfg, WithStatus(NoSession(HandleFailure(cfg, s, leg, allow, env).0), Closed));
  }

  lemma ErrorMoves(cfg: Config, s: State, leg: Leg, env: Env)
    requires SignalRace.Racing(cfg, s.race, s.wires) && Urls(s) && IsCandidate(s.race, leg)
    requires leg == Quic ==> AltLive(s)
    requires leg == Curl && (env.quicState.QuicConnecting? || env.quicState.QuicOpen?) ==> s.wires.quicDuty == Owing
    ensures var (after, handled) := HandleFailure(cfg, s, leg, true, env);
      && ProgressOk(FailFatal(s)) && ProgressOk(FailFatal(after))
      && ProgressOk(ScheduleReconnect(cfg, NoSession(after))) && (handled ==> ProgressOk(after))
  {
    HandleFailureMoves(cfg, s, leg, true, env);
    var after := HandleFailure(cfg, s, leg, true, env).0;
    FatalMoves(s);
    FatalMoves(after);
    ScheduleMoves(cfg, NoSession(after));
  }

  lemma OnCurlErrorMoves(cfg: Config, s: State, error: CurlError, env: Env)
    requires SignalRace.Racing(cfg, s.race, s.wires) && Urls(s) && IsCandidate(s.race, Curl)
    requires (env.quicState.QuicConnecting? || env.quicState.QuicOpen?) ==> s.wires.quicDuty == Owing
    ensures ProgressOk(OnCurlError(cfg, s, error, env))
  {
    ErrorMoves(cfg, s, Curl, env);
  }

  lemma OnQuicErrorMoves(cfg: Config, s: State, error: QuicError, env: Env)
    requires SignalRace.Racing(cfg, s.race, s.wires) && Urls(s) && IsCandidate(s.race, Quic) && AltLive(s)
    ensures ProgressOk(OnQuicError(cfg, s, error, env))
  {
    ErrorMoves(cfg, s, Quic, env);
  }

  /** A leg that is no candidate may end unnoticed. */
  lemma EndedUnnoticed(s: State, leg: Leg)
    requires ProgressOk(s) && !IsCandidate(s.race, leg)
    ensures ProgressOk(Ended(s, leg))
  {
  }

  /** The primary leg reports from inside a joining close, and is heard. */
  lemma ReportMoves(cfg: Config, s: State, env: Env)
    requires Urls(s) && !s.race.hasAlt
    ensures ProgressOk(OnClose(cfg, s, s.race.primary, 0, false, env))
    ensures !OnClose(cfg, s, s.race.primary, 0, false, env).race.hasAlt
  {
    var failed := HandleFailure(cfg, s, s.race.primary, false, env).0;
    assert Urls(failed) && !failed.race.hasAlt;
    ScheduleMoves(cfg, WithStatus(NoSession(failed), Closed));
  }

  // ----- joining closes, with what comes in while they join

  /** A fallback that has landed races with a leg that owes its end. */
  predicate JoinMoves(cfg: Config, s: State)
  {
    && Urls(s) && Moving(s)
    && (s.race.hasAlt ==> cfg.implementation == Mixed && !s.race.sessionOpen)
    && (s.race.hasAlt && s.race.primary == Quic ==> s.wires.curlDuty == Owing)
  }

  /** What is honest about QUIC stays so, since nothing is heard from it. */
  predicate HonestQuic(s: State, env: Env)
  {
    env.quicState.QuicConnecting? || env.quicState.QuicOpen? ==> s.wires.quicDuty == Owing
  }

  lemma OpensMoves(cfg: Config, s: State)
    requires JoinMoves(cfg, s) && s.wires.curlDuty == Owing
    ensures JoinMoves(cfg, OnOpen(s, Curl)) && OnOpen(s, Curl).wires == s.wires
  {
  }

  /** A TCP leg that ends in a join and does not wait leaves QUIC, or nobody, to go on. */
  lemma CloseEndMoves(cfg: Config, s: State, code: int, remote: bool, env: Env)
    requires SignalLocks.InJoin(s) && JoinMoves(cfg, s) && HonestQuic(s, env)
    requires !OnClose(cfg, Ended(s, Curl), Curl, code, remote, env).locks.halted
    ensures var t := OnClose(cfg, Ended(s, Curl), Curl, code, remote, env);
            JoinMoves(cfg, t) && t.wires == Ended(s, Curl).wires && !(t.race.hasAlt && t.race.primary == Quic)
  {
    SignalLocks.CloseWaitsIff(cfg, Ended(s, Curl), code, remote, env);
  }

  lemma FailEndMoves(cfg: Config, s: State, error: CurlError, env: Env)
    requires SignalLocks.InJoin(s) && JoinMoves(cfg, s) && HonestQuic(s, env)
    requires !OnCurlError(cfg, Ended(s, Curl), error, env).locks.halted
    ensures var t := OnCurlError(cfg, Ended(s, Curl), error, env);
            JoinMoves(cfg, t) && t.wires == Ended(s, Curl).wires
  {
    SignalLocks.ErrorWaitsIff(cfg, Ended(s, Curl), error, env);
  }

  lemma HearMoves(cfg: Config, s: State, response: Response)
    requires SignalLocks.InJoin(s) && JoinMoves(cfg, s) && !HearOnWorker(s, response).locks.halted
    ensures JoinMoves(cfg, HearOnWorker(s, response)) && HearOnWorker(s, response).wires == s.wires
  {
  }

  lemma ArrivedMoves(cfg: Config, s: State, during: seq<Arrival>, env: Env)
    requires SignalLocks.InJoin(s) && JoinMoves(cfg, s) && HonestQuic(s, env)
    requires during != [] && HonestDuring(s.wires.curlDuty, during)
    requires !Arrived(cfg, s, during[0], env).locks.halted
    ensures var t := Arrived(cfg, s, during[0], env);
            JoinMoves(cfg, t) && HonestQuic(t, env) && HonestDuring(t.wires.curlDuty, during[1..])
  {
    if !s.locks.landing {
      match during[0]
      case Opens => OpensMoves(cfg, s);
      case Closes(code, remote) => CloseEndMoves(cfg, s, code, remote, env);
      case Fails(error) => FailEndMoves(cfg, s, error, env);
      case Hears(response) => HearMoves(cfg, s, response);
      case Lands =>
    }
  }

  lemma {:induction false} AllArrivedMoves(cfg: Config, s: State, during: seq<Arrival>, env: Env)
    requires SignalLocks.InJoin(s) && JoinMoves(cfg, s) && HonestQuic(s, env)
    requires HonestDuring(s.wires.curlDuty, during) && !AllArrived(cfg, s, during, env).locks.halted
    ensures var t := AllArrived(cfg, s, during, env);
            JoinMoves(cfg, t) && HonestQuic(t, env) && SignalLocks.InJoin(t)
    decreases |during|
  {
    if during != [] {
      var next := Arrived(cfg, s, during[0], env);
      SignalLocks.ArrivedStaysInJoin(cfg, s, during[0], env);
      if !next.locks.halted {
        ArrivedMoves(cfg, s, during, env);
        AllArrivedMoves(cfg, next, during[1..], env);
      }
    }
  }

  lemma CurlCloseMoves(cfg: Config, s: State, env: Env)
    requires Urls(s) && Moving(s) && !s.race.hasAlt && !s.race.delayPending && s.locks == UNLOCKED
    requires HonestJoin(s, env) && !CloseCurl(cfg, s, env).locks.halted
    ensures var t := CloseCurl(cfg, s, env);
            JoinMoves(cfg, t) && t.wires.curlDuty == Told && !(t.race.hasAlt && t.race.primary == Quic)
  {
    var during := if s.wires.curlWorker then env.during else [];
    AllArrivedMoves(cfg, Held(s), during, env);
    var joined := Joining(cfg, s, env);
    if joined.wires.curlDuty != Told {
      CurlReportMoves(cfg, joined, env);
    }
  }

  lemma CurlReportMoves(cfg: Config, s: State, env: Env)
    requires SignalLocks.InJoin(s) && JoinMoves(cfg, s) && HonestQuic(s, env)
    requires !ReportCurl(cfg, CurlJoined(s), env).locks.halted
    ensures var t := ReportCurl(cfg, CurlJoined(s), env);
            JoinMoves(cfg, t) && t.wires.curlDuty == Told && !(t.race.hasAlt && t.race.primary == Quic)
  {
    SignalLocks.CloseWaitsIff(cfg, CurlJoined(s), 0, false, env);
  }

  lemma QuicCloseMoves(cfg: Config, s: State, env: Env)
    requires Urls(s) && Moving(s) && !s.race.hasAlt && s.race.primary == Quic
    ensures ProgressOk(CloseQuic(cfg, s, env)) && !CloseQuic(cfg, s, env).race.hasAlt
  {
    if s.wires.quicDuty != Told {
      ReportMoves(cfg, QuicJoined(s), env);
    }
  }

  lemma CloseJoinMoves(cfg: Config, s: State, env: Env)
    requires Urls(s) && Moving(s) && s.locks == UNLOCKED
    requires HonestJoin(s, env) && !CloseJoin(cfg, s, env).locks.halted
    ensures ProgressOk(CloseJoin(cfg, s, env))
  {
    CurlCloseMoves(cfg, Cut(s), env);
    var curl := CloseCurl(cfg, Cut(s), env);
    if curl.race.primary == Quic {
      QuicCloseMoves(cfg, curl, env);
    } else {
      SignalShutdown.QuicReportIgnored(cfg, curl, env);
    }
  }

  // ----- the urls outlive every join

  predicate SameUrls(s: State, t: State)
  {
    t.ctl.serverUrl == s.ctl.serverUrl && t.timers.reconnects == s.timers.reconnects
  }

  lemma ArrivedUrls(cfg: Config, s: State, a: Arrival, env: Env)
    requires s.locks.held
    ensures SameUrls(s, Arrived(cfg, s, a, env)) && Arrived(cfg, s, a, env).locks.held
  {
    match a
    case Opens =>
    case Closes(code, remote) => HeldCloseUrls(cfg, Ended(s, Curl), code, remote, env);
    case Fails(error) => HeldErrorUrls(cfg, Ended(s, Curl), error, env);
    case Hears(response) =>
    case Lands =>
  }

  lemma HeldCloseUrls(cfg: Config, s: State, code: int, remote: bool, env: Env)
    requires s.locks.held
    ensures SameUrls(s, OnClose(cfg, s, Curl, code, remote, env)) && OnClose(cfg, s, Curl, code, remote, env).locks.held
  {
  }

  lemma HeldErrorUrls(cfg: Config, s: State, error: CurlError, env: Env)
    requires s.locks.held
    ensures SameUrls(s, OnCurlError(cfg, s, error, env)) && OnCurlError(cfg, s, error, env).locks.held
  {
  }

  lemma {:induction false} AllArrivedUrls(cfg: Config, s: State, during: seq<Arrival>, env: Env)
    requires s.locks.held
    ensures SameUrls(s, AllArrived(cfg, s, during, env)) && AllArrived(cfg, s, during, env).locks.held
    decreases |during|
  {
    if during != [] && !s.locks.halted {
      ArrivedUrls(cfg, s, during[0], env);
      AllArrivedUrls(cfg, Arrived(cfg, s, during[0], env), during[1..], env);
    }
  }

  lemma ScheduleUrls(cfg: Config, s: State)
    requires Urls(s)
    ensures Urls(ScheduleReconnect(cfg, s))
  {
  }

  lemma LocalCloseUrls(cfg: Config, s: State, leg: Leg, env: Env)
    requires Urls(s)
    ensures Urls(OnClose(cfg, s, leg, 0, false, env))
  {
    ScheduleUrls(cfg, WithStatus(NoSession(HandleFailure(cfg, s, leg, false, env).0), Closed));
  }

  lemma CloseJoinUrls(cfg: Config, s: State, env: Env)
    requires Urls(s)
    ensures Urls(CloseJoin(cfg, s, env))
  {
    AllArrivedUrls(cfg, Held(Cut(s)), if s.wires.curlWorker then env.during else [], env);
    HeldCloseUrls(cfg, CurlJoined(Joining(cfg, Cut(s), env)), 0, false, env);
    LocalCloseUrls(cfg, QuicJoined(CloseCurl(cfg, Cut(s), env)), Quic, env);
  }

  // ----- the other steps

  lemma OnRecvMoves(cfg: Config, s: State, leg: Leg, response: Response, env: Env)
    requires ProgressOk(s) && s.locks == UNLOCKED && !OnRecv(cfg, s, leg, response, env).locks.halted
    ensures ProgressOk(OnRecv(cfg, s, leg, response, env))
  {
    SignalLocks.JoinsInCallbackIff(cfg, s, leg, response, env);
  }

  lemma OpenPrimaryMoves(cfg: Config, s: State, env: Env)
    requires SignalRace.Racing(cfg, s.race, s.wires) && Urls(s) && !s.race.hasAlt && !env.opening.Refused?
    requires s.race.primary == if cfg.implementation == OnlyCurl then Curl else Quic
    ensures ProgressOk(OpenPrimary(cfg, s, env))
  {
    if cfg.implementation != OnlyCurl && env.opening.Failed? {
      OnQuicErrorMoves(cfg, Ended(s, Quic), env.opening.error, env);
    }
  }

  lemma BeginConnectMoves(cfg: Config, s: State, url: string, env: Env)
    requires SignalRace.RaceOk(cfg, s) && Urls(s) && !env.opening.Refused?
    requires !Prepared(cfg, s, url, env).locks.halted
    ensures ProgressOk(BeginConnect(cfg, s, url, env))
  {
    CloseJoinUrls(cfg, Stopped(s), env);
    SignalRace.CloseJoinKeeps(cfg, Stopped(s), env);
    OpenPrimaryMoves(cfg, Prepared(cfg, s, url, env), env);
  }

  lemma OnOpenMoves(cfg: Config, s: State, leg: Leg)
    requires SignalRace.Racing(cfg, s.race, s.wires) && ProgressOk(s) && LegLive(s.wires, leg)
    ensures ProgressOk(OnOpen(s, leg))
  {
  }

  lemma FailureMoves(cfg: Config, s: State, e: Event)
    requires SignalRace.RaceOk(cfg, s) && ProgressOk(s) && Enabled(s, e) && Honest(s, e)
    requires e.LegClosed? || e.CurlFailed? || e.QuicFailed?
    ensures ProgressOk(Step(cfg, s, e))
  {
    var leg := if e.LegClosed? then e.leg else if e.CurlFailed? then Curl else Quic;
    if !IsCandidate(s.race, leg) {
      EndedUnnoticed(s, leg);
    } else {
      match e
      case LegClosed(_, code, remote, env) => OnCloseMoves(cfg, Ended(s, leg), leg, code, remote, env);
      case CurlFailed(error, env) => OnCurlErrorMoves(cfg, Ended(s, leg), error, env);
      case QuicFailed(error, env) => OnQuicErrorMoves(cfg, Ended(s, leg), error, env);
    }
  }

  /** Unless it does not return. */
  lemma ConnectMoves(cfg: Config, s: State, url: string, env: Env)
    requires SignalRace.RaceOk(cfg, s) && Urls(s) && !env.opening.Refused?
    requires !BeginConnect(cfg, s, url, env).locks.halted
    ensures ProgressOk(BeginConnect(cfg, s, url, env))
  {
    BeginConnectMoves(cfg, s, url, env);
  }

  lemma TimerMoves(cfg: Config, s: State, e: Event)
    requires SignalRace.RaceOk(cfg, s) && s.locks == UNLOCKED && ProgressOk(s) && Enabled(s, e) && Honest(s, e)
    requires e.DelayTimer? || e.ReconnectTimer? || e.CloseTimer? || e.KeepaliveTimer?
    requires !Step(cfg, s, e).locks.halted
    ensures ProgressOk(Step(cfg, s, e))
  {
    match e
    case DelayTimer(gen, env) =>
    case ReconnectTimer(gen, env) =>
      var taken := WithStatus(ReconnectTaken(s, gen), Connecting);
      if s.timers.reconnectGen == gen && !s.ctl.userClosed {
        ConnectMoves(cfg, taken, s.timers.reconnects[gen], env);
      }
    case CloseTimer(gen, env) =>
      if s.timers.closeGen == gen && s.ctl.closing {
        CloseJoinMoves(cfg, WaitCancelled(CloseTaken(s, gen)), env);
      }
    case KeepaliveTimer(gen) => ScheduleMoves(cfg, KeepaliveTaken(s, gen));
  }

  /** Every step that returns. */
  lemma StepMoves(cfg: Config, s: State, e: Event)
    requires SignalRace.RaceOk(cfg, s) && s.locks == UNLOCKED && ProgressOk(s) && Enabled(s, e) && Honest(s, e)
    requires !Step(cfg, s, e).locks.halted
    ensures ProgressOk(Step(cfg, s, e))
  {
    match e
    case AppConnect(url, env) => ConnectMoves(cfg, Aimed(s, url), url, env);
    case AppConnectBest(url, env) => ConnectMoves(cfg, Aimed(ResetCount(s), url), url, env);
    case AppDisconnect(leaveId, env) =>
      if leaveId == 0 {
        CloseJoinMoves(cfg, WaitCancelled(Leaving(s)), env);
      }
    case AppReconnect => ScheduleMoves(cfg, s);
    case Opened(leg) => OnOpenMoves(cfg, s, leg);
    case Received(leg, response, env) => OnRecvMoves(cfg, s, leg, response, env);
    case LegClosed(_, _, _, _) => FailureMoves(cfg, s, e);
    case CurlFailed(_, _) => FailureMoves(cfg, s, e);
    case QuicFailed(_, _) => FailureMoves(cfg, s, e);
    case _ => TimerMoves(cfg, s, e);
  }

  predicate HonestRun(cfg: Config, s: State, trace: seq<Event>)
    requires Runs(cfg, s, trace)
    decreases |trace|
  {
    trace == [] || (Honest(s, trace[0]) && HonestRun(cfg, Step(cfg, s, trace[0]), trace[1..]))
  }

  /** The run ends in a step that never ends. */
  predicate HaltsAtEnd(cfg: Config, s: State, trace: seq<Event>)
    requires Runs(cfg, s, trace)
    decreases |trace|
  {
    trace != []
    && if |trace| == 1 then SignalLocks.Halts(cfg, s, trace[0]) else HaltsAtEnd(cfg, Step(cfg, s, trace[0]), trace[1..])
  }

  lemma {:induction false} EveryRunMoves(cfg: Config, s: State, trace: seq<Event>)
    requires SignalRace.RaceOk(cfg, s) && ProgressOk(s) && Runs(cfg, s, trace) && HonestRun(cfg, s, trace)
    requires s.locks == UNLOCKED
    ensures if After(cfg, s, trace).locks.halted then HaltsAtEnd(cfg, s, trace) else ProgressOk(After(cfg, s, trace))
    decreases |trace|
  {
    if trace != [] {
      SignalLocks.StepHaltsIff(cfg, s, trace[0]);
      if Step(cfg, s, trace[0]).locks.halted {
        assert trace[1..] == [];
      } else {
        StepMoves(cfg, s, trace[0]);
        SignalRace.StepKeeps(cfg, s, trace[0]);
        EveryRunMoves(cfg, Step(cfg, s, trace[0]), trace[1..]);
      }
    }
  }

  /** From the first connect on, with sockets that behave, the controller is never stranded: a live
      reconnect or a callback of the primary leg is still to come, unless the application has closed
      or a fatal error has ended reconnecting, or the last step is one of those that do not return. */
  lemma NeverStranded(cfg: Config, url: string, env: Env, trace: seq<Event>)
    requires url != "" && !env.opening.Refused?
    requires var s := Connect(cfg, FRESH, url, env); Runs(cfg, s, trace) && HonestRun(cfg, s, trace)
    ensures var s := Connect(cfg, FRESH, url, env);
            if After(cfg, s, trace).locks.halted then HaltsAtEnd(cfg, s, trace) else Moving(After(cfg, s, trace))
  {
    var s := Connect(cfg, FRESH, url, env);
    FirstConnectReturns(cfg, url, env);
    ConnectMoves(cfg, Aimed(FRESH, url), url, env);
    SignalRace.BeginConnectKeeps(cfg, Aimed(FRESH, url), url, env);
    EveryRunMoves(cfg, s, trace);
  }

  /** There is no worker to join yet, and the first connect is not one of them. */
  lemma FirstConnectReturns(cfg: Config, url: string, env: Env)
    ensures Connect(cfg, FRESH, url, env).locks == UNLOCKED
  {
    var stopped := Stopped(Aimed(FRESH, url));
    SignalLocks.JoinBlocksIff(cfg, stopped, env);
    SignalLocks.BeginConnectHaltsIff(cfg, Aimed(FRESH, url), url, env);
  }
}
