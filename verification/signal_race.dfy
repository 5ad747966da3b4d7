/**
 What every run of the transport controller keeps about the race between the two legs.
 */
module SignalRace {
  import opened SignalTransport

  /** A TCP alternative races only against an unopened QUIC leg, and a pending delay means that it
      has not been tried yet. */
  predicate Racing(cfg: Config, r: Race, w: Wires)
  {
    && (r.hasAlt ==>
          r.primary == Quic && !r.sessionOpen && cfg.implementation == Mixed && !r.delayPending && w.curlWorker)
    && (r.delayPending ==> r.primary == Quic && !r.sessionOpen && cfg.implementation == Mixed && !w.curlWorker)
    && (cfg.implementation == OnlyCurl ==> r.primary == Curl)
  }

  /** A delay thread of the current generation sleeps exactly while the delay is pending. */
  ghost predicate DelayTimed(r: Race, delays: set<nat>)
  {
    && (r.delayPending <==> r.delayGen in delays)
    && (forall g :: g in delays ==> g <= r.delayGen)
  }

  ghost predicate RaceOk(cfg: Config, s: State)
  {
    Racing(cfg, s.race, s.wires) && DelayTimed(s.race, s.timers.delays)
  }

  lemma CancelKeeps(r: Race, delays: set<nat>)
    requires DelayTimed(r, delays)
    ensures DelayTimed(CancelDelay(r), delays)
  {
  }

  lemma ScheduleReconnectKeeps(cfg: Config, s: State)
    requires RaceOk(cfg, s)
    ensures RaceOk(cfg, ScheduleReconnect(cfg, s)) && ScheduleReconnect(cfg, s).wires == s.wires
  {
  }

  lemma StartFallbackKeeps(cfg: Config, s: State, env: Env)
    requires RaceOk(cfg, s) && s.race.primary == Quic && cfg.implementation == Mixed
    ensures RaceOk(cfg, StartFallback(s, env))
  {
  }

  lemma HandleFailureKeeps(cfg: Config, s: State, leg: Leg, allow: bool, env: Env)
    requires RaceOk(cfg, s) && IsCandidate(s.race, leg)
    ensures RaceOk(cfg, HandleFailure(cfg, s, leg, allow, env).0)
  {
  }

  lemma OnCloseKeeps(cfg: Config, s: State, leg: Leg, code: int, remote: bool, env: Env)
    requires RaceOk(cfg, s)
    ensures RaceOk(cfg, OnClose(cfg, s, leg, code, remote, env))
  {
    CancelKeeps(s.race, s.timers.delays);
    if IsCandidate(s.race, leg) && !IsTokenCode(code) {
      HandleFailureKeeps(cfg, s, leg, remote && !s.ctl.userClosed, env);
      var (after, handled) := HandleFailure(cfg, s, leg, remote && !s.ctl.userClosed, env);
      ScheduleReconnectKeeps(cfg, WithStatus(NoSession(after), Closed));
    }
  }

  lemma OnCurlErrorKeeps(cfg: Config, s: State, error: CurlError, env: Env)
    requires RaceOk(cfg, s)
    ensures RaceOk(cfg, OnCurlError(cfg, s, error, env))
  {
    CancelKeeps(s.race, s.timers.delays);
    if IsCandidate(s.race, Curl) && !error.CurlToken? && !error.CurlSecurity? {
      HandleFailureKeeps(cfg, s, Curl, true, env);
      var (after, handled) := HandleFailure(cfg, s, Curl, true, env);
      CancelKeeps(after.race, after.timers.delays);
      ScheduleReconnectKeeps(cfg, NoSession(after));
    }
  }

  lemma OnQuicErrorKeeps(cfg: Config, s: State, error: QuicError, env: Env)
    requires RaceOk(cfg, s)
    ensures RaceOk(cfg, OnQuicError(cfg, s, error, env))
  {
    CancelKeeps(s.race, s.timers.delays);
    if IsCandidate(s.race, Quic) && !error.QuicToken? && !error.QuicSsl? {
      HandleFailureKeeps(cfg, s, Quic, true, env);
      var (after, handled) := HandleFailure(cfg, s, Quic, true, env);
      CancelKeeps(after.race, after.timers.delays);
      ScheduleReconnectKeeps(cfg, NoSession(after));
    }
  }

  lemma OnOpenKeeps(cfg: Config, s: State, leg: Leg)
    requires RaceOk(cfg, s)
    ensures RaceOk(cfg, OnOpen(s, leg))
  {
  }

  /** What holds once the alternative has been cut off. */
  ghost predicate CutOk(cfg: Config, s: State)
  {
    RaceOk(cfg, s) && !s.race.hasAlt && !s.race.delayPending
  }

  lemma CutKeeps(cfg: Config, s: State)
    requires RaceOk(cfg, s)
    ensures CutOk(cfg, Cut(s))
  {
    CancelKeeps(s.race, s.timers.delays);
  }

  // ----- joining closes, with what comes in while they join

  /** No delay is pending; an alternative is there only if a fallback has just landed. */
  ghost predicate Undelayed(cfg: Config, s: State)
  {
    && DelayTimed(s.race, s.timers.delays) && !s.race.delayPending
    && (cfg.implementation == OnlyCurl ==> s.race.primary == Curl)
  }

  ghost predicate JoinOk(cfg: Config, s: State)
  {
    && Undelayed(cfg, s) && s.locks.held
    && (s.race.hasAlt ==> !s.race.sessionOpen && !s.ctl.userClosed && !s.locks.landing && !s.locks.halted)
  }

  lemma OpenJoinOk(cfg: Config, s: State)
    requires JoinOk(cfg, s)
    ensures JoinOk(cfg, OnOpen(s, Curl))
  {
    CancelKeeps(s.race, s.timers.delays);
  }

  lemma ScheduleJoinOk(cfg: Config, s: State)
    requires JoinOk(cfg, s)
    ensures JoinOk(cfg, FailFatal(s)) && JoinOk(cfg, ScheduleReconnect(cfg, s))
  {
    CancelKeeps(s.race, s.timers.delays);
  }

  lemma FailureJoinOk(cfg: Config, s: State, allow: bool, env: Env)
    requires JoinOk(cfg, s)
    ensures JoinOk(cfg, HandleFailure(cfg, s, Curl, allow, env).0)
  {
  }

  lemma CloseJoinOk(cfg: Config, s: State, code: int, remote: bool, env: Env)
    requires JoinOk(cfg, s)
    ensures JoinOk(cfg, OnClose(cfg, s, Curl, code, remote, env))
  {
    var allow := remote && !s.ctl.userClosed;
    ScheduleJoinOk(cfg, s);
    FailureJoinOk(cfg, s, allow, env);
    ScheduleJoinOk(cfg, WithStatus(NoSession(HandleFailure(cfg, s, Curl, allow, env).0), Closed));
  }

  lemma ErrorJoinOk(cfg: Config, s: State, error: CurlError, env: Env)
    requires JoinOk(cfg, s)
    ensures JoinOk(cfg, OnCurlError(cfg, s, error, env))
  {
    ScheduleJoinOk(cfg, s);
    FailureJoinOk(cfg, s, true, env);
    var after := HandleFailure(cfg, s, Curl, true, env).0;
    ScheduleJoinOk(cfg, after);
    ScheduleJoinOk(cfg, NoSession(after));
  }

  lemma HearJoinOk(cfg: Config, s: State, response: Response)
    requires JoinOk(cfg, s)
    ensures JoinOk(cfg, HearOnWorker(s, response))
  {
    CancelKeeps(s.race, s.timers.delays);
  }

  lemma ArrivedJoinOk(cfg: Config, s: State, a: Arrival, env: Env)
    requires JoinOk(cfg, s) && !s.locks.halted
    ensures JoinOk(cfg, Arrived(cfg, s, a, env))
  {
    match a
    case Opens => OpenJoinOk(cfg, s);
    case Closes(code, remote) => CloseJoinOk(cfg, Ended(s, Curl), code, remote, env);
    case Fails(error) => ErrorJoinOk(cfg, Ended(s, Curl), error, env);
    case Hears(response) => HearJoinOk(cfg, s, response);
    case Lands =>
  }

  lemma {:induction false} AllArrivedJoinOk(cfg: Config, s: State, during: seq<Arrival>, env: Env)
    requires JoinOk(cfg, s)
    ensures JoinOk(cfg, AllArrived(cfg, s, during, env))
    decreases |during|
  {
    if during != [] && !s.locks.halted {
      ArrivedJoinOk(cfg, s, during[0], env);
      AllArrivedJoinOk(cfg, Arrived(cfg, s, during[0], env), during[1..], env);
    }
  }

  lemma CloseCurlKeeps(cfg: Config, s: State, env: Env)
    requires CutOk(cfg, s)
    ensures var t := CloseCurl(cfg, s, env);
            Undelayed(cfg, t) && (t.locks.halted ==> !t.race.hasAlt) && (!t.locks.halted ==> !t.wires.curlWorker)
  {
    AllArrivedJoinOk(cfg, Held(s), if s.wires.curlWorker then env.during else [], env);
    var joined := Joining(cfg, s, env);
    CloseJoinOk(cfg, CurlJoined(joined), 0, false, env);
    LocalCloseWorker(cfg, CurlJoined(joined), Curl, env);
  }

  lemma LocalCloseWorker(cfg: Config, s: State, leg: Leg, env: Env)
    ensures OnClose(cfg, s, leg, 0, false, env).wires == s.wires
  {
  }

  lemma CloseQuicKeeps(cfg: Config, s: State, env: Env)
    requires Undelayed(cfg, s)
    ensures Undelayed(cfg, CloseQuic(cfg, s, env)) && CloseQuic(cfg, s, env).wires.curlWorker == s.wires.curlWorker
  {
    if s.wires.quicDuty != Told {
      LocalCloseUndelayed(cfg, QuicJoined(s), Quic, env);
      LocalCloseWorker(cfg, QuicJoined(s), Quic, env);
    }
  }

  lemma LocalCloseUndelayed(cfg: Config, s: State, leg: Leg, env: Env)
    requires Undelayed(cfg, s)
    ensures Undelayed(cfg, OnClose(cfg, s, leg, 0, false, env))
  {
    CancelKeeps(s.race, s.timers.delays);
    var after := HandleFailure(cfg, s, leg, false, env).0;
    assert Undelayed(cfg, after);
    CancelKeeps(after.race, after.timers.delays);
  }

  lemma CloseJoinKeeps(cfg: Config, s: State, env: Env)
    requires RaceOk(cfg, s)
    ensures var t := CloseJoin(cfg, s, env);
            CutOk(cfg, t) && (!t.locks.halted ==> !t.wires.curlWorker)
  {
    CutKeeps(cfg, s);
    CloseCurlKeeps(cfg, Cut(s), env);
    CloseQuicKeeps(cfg, CloseCurl(cfg, Cut(s), env), env);
  }

  lemma CloseAfterDisconnectKeeps(cfg: Config, s: State, env: Env)
    requires RaceOk(cfg, s)
    ensures RaceOk(cfg, CloseAfterDisconnect(cfg, s, env))
  {
    if s.ctl.closing {
      CloseJoinKeeps(cfg, WaitCancelled(s), env);
    }
  }

  // ----- receiving

  /** While QUIC serves a session, no fallback becomes an alternative. */
  predicate OverQuic(s: State)
  {
    s.race.primary == Quic && s.race.sessionOpen && !s.race.hasAlt
  }

  lemma {:induction false} AllArrivedOverQuic(cfg: Config, s: State, during: seq<Arrival>, env: Env)
    requires OverQuic(s)
    ensures OverQuic(AllArrived(cfg, s, during, env))
    decreases |during|
  {
    if during != [] && !s.locks.halted {
      assert OverQuic(Arrived(cfg, s, during[0], env));
      AllArrivedOverQuic(cfg, Arrived(cfg, s, during[0], env), during[1..], env);
    }
  }

  lemma CloseCurlOverQuic(cfg: Config, s: State, env: Env)
    requires OverQuic(s)
    ensures OverQuic(CloseCurl(cfg, s, env))
  {
    AllArrivedOverQuic(cfg, Held(s), if s.wires.curlWorker then env.during else [], env);
  }

  lemma OnRecvKeeps(cfg: Config, s: State, leg: Leg, response: Response, env: Env)
    requires RaceOk(cfg, s)
    ensures RaceOk(cfg, OnRecv(cfg, s, leg, response, env))
  {
    CancelKeeps(s.race, s.timers.delays);
    var heard := Heard(s, leg);
    CutKeeps(cfg, WaitCancelled(heard));
    if leg == Quic && leg == s.race.primary && s.race.sessionOpen {
      CloseCurlKeeps(cfg, Cut(WaitCancelled(heard)), env);
      CloseCurlOverQuic(cfg, Cut(WaitCancelled(heard)), env);
    }
  }

  lemma ScheduleFallbackKeeps(cfg: Config, s: State, env: Env)
    requires CutOk(cfg, s) && !s.race.sessionOpen && !s.wires.curlWorker
    requires s.race.primary == Quic && cfg.implementation == Mixed
    ensures RaceOk(cfg, ScheduleFallback(cfg, s, env))
  {
    StartFallbackKeeps(cfg, s, env);
  }

  lemma OpenPrimaryKeeps(cfg: Config, s: State, env: Env)
    requires CutOk(cfg, s) && !s.race.sessionOpen && !s.wires.curlWorker
    requires s.race.primary == if cfg.implementation == OnlyCurl then Curl else Quic
    ensures RaceOk(cfg, OpenPrimary(cfg, s, env))
  {
    match env.opening
    case Refused =>
    case Failed(error) => OnQuicErrorKeeps(cfg, Ended(s, Quic), error, env);
    case Started =>
      if cfg.implementation == Mixed {
        ScheduleFallbackKeeps(cfg, s.(wires := QuicOpened(s.wires)), env);
      }
  }

  lemma BeginConnectKeeps(cfg: Config, s: State, url: string, env: Env)
    requires RaceOk(cfg, s)
    ensures RaceOk(cfg, BeginConnect(cfg, s, url, env))
  {
    CloseJoinKeeps(cfg, Stopped(s), env);
    if !Prepared(cfg, s, url, env).locks.halted {
      OpenPrimaryKeeps(cfg, Prepared(cfg, s, url, env), env);
    }
  }

  lemma TimerKeeps(cfg: Config, s: State, e: Event)
    requires RaceOk(cfg, s) && Enabled(s, e)
    requires e.DelayTimer? || e.ReconnectTimer? || e.CloseTimer? || e.KeepaliveTimer?
    ensures RaceOk(cfg, Step(cfg, s, e))
  {
    match e
    case DelayTimer(gen, env) =>
      if s.race.delayGen == gen {
        StartFallbackKeeps(cfg, DelayTaken(s, gen).(race := s.race.(delayPending := false)), env);
      }
    case ReconnectTimer(gen, env) =>
      BeginConnectKeeps(cfg, WithStatus(ReconnectTaken(s, gen), Connecting), s.timers.reconnects[gen], env);
    case CloseTimer(gen, env) => CloseAfterDisconnectKeeps(cfg, CloseTaken(s, gen), env);
    case KeepaliveTimer(gen) => ScheduleReconnectKeeps(cfg, KeepaliveTaken(s, gen));
  }

  lemma StepKeeps(cfg: Config, s: State, e: Event)
    requires RaceOk(cfg, s) && Enabled(s, e)
    ensures RaceOk(cfg, Step(cfg, s, e))
  {
    match e
    case AppConnect(url, env) => BeginConnectKeeps(cfg, Aimed(s, url), url, env);
    case AppConnectBest(url, env) => BeginConnectKeeps(cfg, Aimed(ResetCount(s), url), url, env);
    case AppDisconnect(leaveId, env) => CloseAfterDisconnectKeeps(cfg, Leaving(s), env);
    case AppReconnect => ScheduleReconnectKeeps(cfg, s);
    case Opened(leg) => OnOpenKeeps(cfg, s, leg);
    case LegClosed(leg, code, remote, env) => OnCloseKeeps(cfg, Ended(s, leg), leg, code, remote, env);
    case CurlFailed(error, env) => OnCurlErrorKeeps(cfg, Ended(s, Curl), error, env);
    case QuicFailed(error, env) => OnQuicErrorKeeps(cfg, Ended(s, Quic), error, env);
    case Received(leg, response, env) => OnRecvKeeps(cfg, s, leg, response, env);
    case _ => TimerKeeps(cfg, s, e);
  }

  /** Whatever the sockets do and however timers are delayed. */
  lemma {:induction false} EveryRunKeeps(cfg: Config, s: State, trace: seq<Event>)
    requires RaceOk(cfg, s) && Runs(cfg, s, trace)
    ensures RaceOk(cfg, After(cfg, s, trace))
    decreases |trace|
  {
    if trace != [] {
      StepKeeps(cfg, s, trace[0]);
      EveryRunKeeps(cfg, Step(cfg, s, trace[0]), trace[1..]);
    }
  }
}
