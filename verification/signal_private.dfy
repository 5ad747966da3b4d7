/**
 Signal::Private: the fields of the transport controller and the handlers that update them in place.
 The entry points, at the end, are what the application, the sockets and the timer threads call; each
 makes exactly its step of the state machine and keeps the invariants proved about all runs.
 */
module SignalPrivate {
  import opened SignalTransport
  import SignalLegs
  import SignalLocks
  import SignalRace
  import SignalReconnects

  /** What every entry point finds and leaves. */
  ghost predicate Sound(cfg: Config, s: State)
  {
    SignalRace.RaceOk(cfg, s) && SignalReconnects.ReconnectsOk(cfg, s) && SignalLegs.LegsOk(s) && SignalLocks.Free(s)
  }

  lemma StepStaysSound(cfg: Config, s: State, e: Event)
    requires Sound(cfg, s) && Enabled(s, e)
    ensures Sound(cfg, Step(cfg, s, e))
  {
    SignalRace.StepKeeps(cfg, s, e);
    SignalReconnects.StepKeeps(cfg, s, e);
    SignalLegs.StepKeeps(cfg, s, e);
    SignalLocks.StepHaltsIff(cfg, s, e);
  }

  class Private {
    const cfg: Config

    var primaryLeg: Leg
    var hasAlt: bool
    var sessionOpen: bool
    var mixedDelayPending: bool
    var mixedDelayGen: nat

    var userClosed: bool
    var suppressReconnect: bool
    var disconnectClosing: bool
    var disconnectLeaveReqId: nat
    var pendingUrl: string
    var serverUrl: string
    var reconnectCount: nat
    var stateString: Status

    var reconnectGen: nat
    var keepaliveGen: nat
    var disconnectCloseGen: nat

    // of the sockets: the joinable worker, close_called or error_reported, and the lifecycle mutex; a
    // fallback that waits for it, and whether a step has not returned
    var curlWorker: bool
    var quicDuty: Duty
    var curlDuty: Duty
    var lifecycleHeld: bool
    var landing: bool
    var halted: bool
    var died: bool

    // sleeping timer threads, and what has happened
    ghost var delays: set<nat>
    ghost var reconnects: map<nat, string>
    ghost var closes: set<nat>
    ghost var keepalives: set<nat>
    ghost var overrun: bool
    ghost var opens: nat
    ghost var log: History

    ghost function RaceOf(): Race
      reads `primaryLeg, `hasAlt, `sessionOpen, `mixedDelayPending, `mixedDelayGen
    {
      Race(primaryLeg, hasAlt, sessionOpen, mixedDelayPending, mixedDelayGen)
    }

    ghost function WiresOf(): Wires
      reads `quicDuty, `curlDuty, `curlWorker, `overrun, `opens
    {
      Wires(quicDuty, curlDuty, curlWorker, overrun, opens)
    }

    ghost function ControlOf(): Control
      reads `userClosed, `suppressReconnect, `disconnectClosing, `disconnectLeaveReqId
      reads `pendingUrl, `serverUrl, `reconnectCount, `stateString
    {
      Control(userClosed, suppressReconnect, disconnectClosing, disconnectLeaveReqId,
              pendingUrl, serverUrl, reconnectCount, stateString)
    }

    ghost function TimersOf(): Timers
      reads `reconnectGen, `keepaliveGen, `disconnectCloseGen, `delays, `reconnects, `closes, `keepalives
    {
      Timers(reconnectGen, keepaliveGen, disconnectCloseGen, delays, reconnects, closes, keepalives)
    }

    ghost function LocksOf(): Locks
      reads `lifecycleHeld, `landing, `halted, `died
    {
      Locks(lifecycleHeld, landing, halted, died)
    }

    ghost function Abs(): State
      reads this
    {
      State(RaceOf(), WiresOf(), ControlOf(), TimersOf(), log, LocksOf())
    }

    ghost predicate Valid()
      reads this
    {
      Sound(cfg, Abs())
    }

    constructor (cfg: Config)
      ensures Valid() && Abs() == FRESH && this.cfg == cfg
    {
      this.cfg := cfg;
      primaryLeg, hasAlt, sessionOpen, mixedDelayPending, mixedDelayGen := Curl, false, false, false, 0;
      userClosed, suppressReconnect, disconnectClosing, disconnectLeaveReqId := false, false, false, 0;
      pendingUrl, serverUrl, reconnectCount, stateString := "", "", 0, Idle;
      reconnectGen, keepaliveGen, disconnectCloseGen := 0, 0, 0;
      delays, reconnects, closes, keepalives := {}, map[], {}, {};
      quicDuty, curlDuty, lifecycleHeld, landing, halted, died := Unopened, Unopened, false, false, false, false;
      curlWorker, overrun, opens, log := false, false, 0, FRESH.log;
    }

    predicate AltLeg(leg: Leg)
      reads `hasAlt, `primaryLeg
    {
      hasAlt && leg == Curl && primaryLeg == Quic
    }

    predicate Candidate(leg: Leg)
      reads `hasAlt, `primaryLeg
    {
      leg == primaryLeg || AltLeg(leg)
    }

    // ----- the race

    method CancelMixedDelayOnly()
      modifies `mixedDelayGen, `mixedDelayPending
      ensures Abs() == old(Abs()).(race := CancelDelay(old(Abs()).race))
    {
      mixedDelayGen := mixedDelayGen + 1;
      mixedDelayPending := false;
    }

    method CancelMixedRace()
      modifies `mixedDelayGen, `mixedDelayPending, `hasAlt
      ensures Abs() == old(Abs()).(race := CancelDelay(old(Abs()).race).(hasAlt := false))
    {
      CancelMixedDelayOnly();
      if hasAlt {
        hasAlt := false;
      }
    }

    /** The TCP leg takes over. */
    method Promote()
      modifies `primaryLeg, `hasAlt, `log
      ensures Abs() == Promoted(old(Abs()))
    {
      if primaryLeg == Quic {
        log := log.(legChanges := log.legChanges + 1);
      }
      primaryLeg := Curl;
      hasAlt := false;
    }

    /** websocket.closeAsync() takes the lifecycle mutex. */
    method CloseWebSocketAsync()
      modifies `halted
      ensures Abs() == CloseLoser(old(Abs()), Curl)
    {
      if lifecycleHeld {
        halted := true;
      }
    }

    method CloseLoserAsync(loser: Leg)
      modifies `halted
      ensures Abs() == CloseLoser(old(Abs()), loser)
    {
      if loser == Curl {
        CloseWebSocketAsync();
      }
    }

    method MixedDeclareWinner(winner: Leg)
      modifies `mixedDelayGen, `mixedDelayPending, `hasAlt, `primaryLeg, `log, `halted
      ensures Abs() == DeclareWinner(old(Abs()), winner)
    {
      CancelMixedDelayOnly();
      if winner == primaryLeg {
        if !hasAlt {
          return;
        }
        hasAlt := false;
        CloseLoserAsync(Curl);
      } else if AltLeg(winner) {
        var loser := primaryLeg;
        Promote();
        CloseLoserAsync(loser);
      }
    }

    method StartMixedTcpFallback(env: Env)
      modifies `mixedDelayGen, `mixedDelayPending, `hasAlt, `curlDuty, `curlWorker, `overrun, `opens
      ensures Abs() == StartFallback(old(Abs()), env)
    {
      if userClosed || sessionOpen || hasAlt {
        return;
      }
      CancelMixedDelayOnly();
      if env.quicState == QuicOpen {
        return;
      }
      if pendingUrl == "" {
        return;
      }
      OpenWebSocket();
      hasAlt := true;
    }

    method OpenWebSocket()
      modifies `curlDuty, `curlWorker, `overrun, `opens
      ensures Abs() == old(Abs()).(wires := CurlOpened(old(Abs()).wires))
    {
      StartWorker();
      curlDuty := Owing;
      opens := opens + 1;
    }

    /** Whether a worker that was never joined is replaced. */
    method StartWorker()
      modifies `curlWorker, `overrun
      ensures Abs() == old(Abs()).(wires := old(Abs()).wires.(
                overrun := old(Abs()).wires.overrun || old(Abs()).wires.curlWorker, curlWorker := true))
    {
      overrun := overrun || curlWorker;
      curlWorker := true;
    }

    /** The QUIC leg owes its terminal callback from here on. */
    method OpenQuicSocket()
      modifies `quicDuty, `opens
      ensures Abs() == old(Abs()).(wires := QuicOpened(old(Abs()).wires))
    {
      quicDuty := Owing;
      opens := opens + 1;
    }

    method ScheduleMixedTcpFallback(env: Env)
      modifies `mixedDelayGen, `mixedDelayPending, `hasAlt, `curlDuty, `curlWorker, `overrun, `opens, `delays
      ensures Abs() == ScheduleFallback(cfg, old(Abs()), env)
    {
      if cfg.mixedDelay <= 0 {
        StartMixedTcpFallback(env);
        return;
      }
      CancelMixedDelayOnly();
      mixedDelayPending := true;
      delays := delays + {mixedDelayGen};
    }

    method HandleMixedTransportFailure(leg: Leg, allowQuicFallback: bool, env: Env) returns (handled: bool)
      modifies `mixedDelayGen, `mixedDelayPending, `hasAlt, `primaryLeg, `curlDuty, `curlWorker, `overrun, `opens, `log
      ensures (Abs(), handled) == HandleFailure(cfg, old(Abs()), leg, allowQuicFallback, env)
    {
      var startTcp := false;
      if !sessionOpen && cfg.implementation == Mixed && leg == Quic {
        CancelMixedDelayOnly();
        if hasAlt {
          if leg == primaryLeg {
            Promote();
          }
          hasAlt := false;
          return true;
        }
        if allowQuicFallback {
          startTcp := true;
        }
      } else if !sessionOpen && cfg.implementation == Mixed && AltLeg(leg) {
        hasAlt := false;
        if env.quicState == QuicConnecting || env.quicState == QuicOpen {
          return true;
        }
      }
      if !startTcp {
        return false;
      }
      StartMixedTcpFallback(env);
      if hasAlt {
        Promote();
        return true;
      }
      return false;
    }

    // ----- callbacks of the sockets

    /** Opens the session and decides the race, if there was one. */
    method SettleRace(leg: Leg)
      modifies `sessionOpen, `mixedDelayGen, `mixedDelayPending, `hasAlt, `primaryLeg, `log, `halted
      ensures Abs() == Settled(old(Abs()), leg)
    {
      var racing := hasAlt || mixedDelayPending;
      sessionOpen := true;
      if racing {
        MixedDeclareWinner(leg);
      } else {
        CancelMixedDelayOnly();
      }
    }

    /** The handshake ends after the disconnect. */
    method AbandonOpening(leg: Leg)
      modifies `hasAlt, `sessionOpen, `halted
      ensures Abs() == CloseLoser(NoSession(if old(AltLeg(leg)) then WithoutAlt(old(Abs())) else old(Abs())), leg)
    {
      if AltLeg(leg) {
        hasAlt := false;
      }
      sessionOpen := false;
      CloseLoserAsync(leg);
    }

    method OnTransportOpen(leg: Leg)
      modifies this
      ensures Abs() == OnOpen(old(Abs()), leg)
    {
      if !Candidate(leg) {
        return;
      }
      if userClosed {
        AbandonOpening(leg);
        return;
      }
      if sessionOpen && AltLeg(leg) {
        hasAlt := false;
        CloseWebSocketAsync();
        return;
      }
      SettleRace(leg);
      if halted {
        return;
      }
      SetStateString(Open);
      StartKeepaliveThread();
    }

    method StartKeepaliveThread()
      modifies `keepaliveGen, `keepalives
      ensures Abs() == StartKeepalive(old(Abs()))
    {
      keepaliveGen := keepaliveGen + 1;
      keepalives := keepalives + {keepaliveGen};
    }

    method StopKeepaliveThread()
      modifies `keepaliveGen
      ensures Abs() == StopKeepalive(old(Abs()))
    {
      keepaliveGen := keepaliveGen + 1;
    }

    /** No payload is heard from here on: a receive callback looks at this flag first. */
    method EndSession()
      modifies `sessionOpen
      ensures Abs() == NoSession(old(Abs()))
    {
      sessionOpen := false;
    }

    /** What the application is told; no handler decides by it. */
    method SetStateString(status: Status)
      modifies `stateString
      ensures Abs() == WithStatus(old(Abs()), status)
    {
      stateString := status;
    }

    method OnTransportClose(leg: Leg, code: int, remote: bool, env: Env)
      requires !halted
      modifies this
      ensures Abs() == OnClose(cfg, old(Abs()), leg, code, remote, env)
    {
      if !Candidate(leg) {
        return;
      }
      if IsTokenCode(code) {
        FailFatally();
        return;
      }
      var handled := HandleMixedTransportFailure(leg, remote && !userClosed, env);
      if handled {
        return;
      }
      EndSession();
      SetStateString(Closed);
      ScheduleReconnectAfter();
    }

    method OnCurlErrorReported(error: CurlError, env: Env)
      requires !halted
      modifies this
      ensures Abs() == OnCurlError(cfg, old(Abs()), error, env)
    {
      if !Candidate(Curl) {
        return;
      }
      if error == CurlToken || error == CurlSecurity {
        FailFatally();
        return;
      }
      var handled := HandleMixedTransportFailure(Curl, true, env);
      if handled {
        return;
      }
      if error == CurlTimedOut || error == CurlNeverConnected {
        FailFatally();
        return;
      }
      EndSession();
      ScheduleReconnectAfter();
    }

    method OnQuicErrorReported(error: QuicError, env: Env)
      requires !halted
      modifies this
      ensures Abs() == OnQuicError(cfg, old(Abs()), error, env)
    {
      if !Candidate(Quic) {
        return;
      }
      if error == QuicToken || error == QuicSsl {
        FailFatally();
        return;
      }
      var handled := HandleMixedTransportFailure(Quic, true, env);
      if handled {
        return;
      }
      if error == QuicTimeout || error == QuicInvalidUrl {
        FailFatally();
        return;
      }
      EndSession();
      ScheduleReconnectAfter();
    }

    // ----- closing

    /** closeAllTransports without joining: the sockets report later. */
    method CloseAllTransportsAsync()
      requires !halted
      modifies `mixedDelayGen, `mixedDelayPending, `hasAlt, `sessionOpen, `halted
      ensures Abs() == CloseAsync(old(Abs()))
    {
      CancelMixedRace();
      CloseWebSocketAsync();
      if halted {
        return;
      }
      sessionOpen := false;
      hasAlt := false;
    }

    /** What comes in while another thread joins the worker. */
    method OnArrival(a: Arrival, env: Env)
      requires !halted
      modifies this
      ensures Abs() == Arrived(cfg, old(Abs()), a, env)
      decreases 0, 4
    {
      if landing {
        if a != Lands {
          halted := true;
        }
        return;
      }
      match a
      case Opens => OnTransportOpen(Curl);
      case Closes(code, remote) =>
        NoteTold(Curl);
        OnTransportClose(Curl, code, remote, env);
      case Fails(error) =>
        NoteTold(Curl);
        OnCurlErrorReported(error, env);
      case Hears(response) =>
        WorkerHears(cfg, Abs(), response, env);
        OnTransportRecv(Curl, response, env);
      case Lands =>
        if cfg.implementation == Mixed {
          LandFallback();
        }
    }

    /** The second half of startMixedTcpFallback, for which another thread has opened TCP. */
    method LandFallback()
      modifies `hasAlt, `landing
      ensures Abs() == Landed(old(Abs()))
    {
      if userClosed || sessionOpen {
        if lifecycleHeld {
          landing := true;
        }
        return;
      }
      hasAlt := true;
    }

    /** joinThreadLocked, under the lifecycle mutex. */
    method JoinWorker(env: Env)
      requires !halted
      modifies this
      ensures Abs() == Joining(cfg, old(Abs()), env)
      decreases 0, 5
    {
      var during := if curlWorker then env.during else [];
      lifecycleHeld := true;
      ghost var start := Abs();
      var i := 0;
      while i < |during| && !halted
        invariant i <= |during|
        invariant AllArrived(cfg, start, during, env) == AllArrived(cfg, Abs(), during[i..], env)
      {
        assert during[i..][0] == during[i] && during[i..][1..] == during[i + 1..];
        OnArrival(during[i], env);
        i := i + 1;
      }
    }

    /** The report of a local close. */
    method ReportWebSocket(env: Env)
      requires !halted
      modifies this
      ensures Abs() == ReportCurl(cfg, old(Abs()), env)
    {
      if landing {
        halted := true;
        return;
      }
      OnTransportClose(Curl, 0, false, env);
    }

    /** websocket.close(): joins the worker and reports, both under the lifecycle mutex. */
    method CloseWebSocket(env: Env)
      requires !halted
      modifies this
      ensures Abs() == CloseCurl(cfg, old(Abs()), env)
      decreases 0, 6
    {
      JoinWorker(env);
      if halted {
        return;
      }
      var told := curlDuty == Told;
      NoteJoined();
      if !told {
        ReportWebSocket(env);
        if halted {
          return;
        }
      }
      ReleaseLifecycle();
    }

    method NoteJoined()
      modifies `curlDuty, `curlWorker
      ensures Abs() == CurlJoined(old(Abs()))
    {
      curlDuty := Told;
      curlWorker := false;
    }

    method ReleaseLifecycle()
      modifies `lifecycleHeld, `landing
      ensures Abs() == Released(old(Abs()))
    {
      lifecycleHeld, landing := false, false;
    }

    /** quic.close(). */
    method CloseQuicSocket(env: Env)
      requires !halted
      modifies this
      ensures Abs() == CloseQuic(cfg, old(Abs()), env)
    {
      if quicDuty != Told {
        NoteTold(Quic);
        OnTransportClose(Quic, 0, false, env);
      }
    }

    /** closeAllTransports with joining. */
    method CloseAllTransportsJoin(env: Env)
      requires !halted
      modifies this
      ensures Abs() == CloseJoin(cfg, old(Abs()), env)
    {
      CancelMixedRace();
      CloseWebSocket(env);
      if halted {
        return;
      }
      CloseQuicSocket(env);
      EndSession();
      hasAlt := false;
    }

    method CancelDisconnectCloseWait()
      modifies `disconnectClosing, `disconnectLeaveReqId, `disconnectCloseGen, `log
      ensures Abs() == WaitCancelled(old(Abs()))
    {
      ClearDisconnectWait();
      disconnectCloseGen := disconnectCloseGen + 1;
      log := log.(shutdowns := log.shutdowns + 1);
    }

    /** No answer is awaited any more: neither a response nor a timer closes again. */
    method ClearDisconnectWait()
      modifies `disconnectClosing, `disconnectLeaveReqId
      ensures Abs() == old(Abs()).(ctl := old(Abs()).ctl.(closing := false, leaveId := 0))
    {
      disconnectClosing := false;
      disconnectLeaveReqId := 0;
    }

    method CloseSocketAfterDisconnect(env: Env)
      requires !halted
      modifies this
      ensures Abs() == CloseAfterDisconnect(cfg, old(Abs()), env)
    {
      if !disconnectClosing {
        return;
      }
      CancelDisconnectCloseWait();
      CloseAllTransportsJoin(env);
    }

    /** The same from inside a receive callback: it does not return. The TCP worker waits for the mutex,
        or ends the process by joining itself. */
    method CloseSocketFromCallback(leg: Leg, env: Env)
      requires !halted
      modifies this
      ensures Abs() == JoinInside(cfg, old(Abs()), leg, env)
      decreases if leg == Quic then 1 else 0, 0
    {
      CancelDisconnectCloseWait();
      CancelMixedRace();
      if leg == Quic {
        CloseWebSocket(env);
        halted := true;
      } else {
        JoinSelf();
      }
    }

    /** std::thread::join of the calling thread throws, unless the thread waits for the mutex before. */
    method JoinSelf()
      modifies `halted, `died
      ensures Abs() == if old(lifecycleHeld) then Halted(old(Abs())) else Died(old(Abs()))
    {
      halted := true;
      if !lifecycleHeld {
        died := true;
      }
    }

    method ScheduleDisconnectCloseTimeout(leaveReqId: nat)
      modifies `disconnectLeaveReqId, `disconnectCloseGen, `closes
      ensures Abs() == AwaitLeave(old(Abs()), leaveReqId)
    {
      disconnectLeaveReqId := leaveReqId;
      disconnectCloseGen := disconnectCloseGen + 1;
      closes := closes + {disconnectCloseGen};
    }

    // ----- failing and reconnecting

    method FailFatally()
      requires !halted
      modifies `keepaliveGen, `suppressReconnect, `mixedDelayGen, `mixedDelayPending, `hasAlt, `sessionOpen, `halted
      ensures Abs() == FailFatal(old(Abs()))
    {
      StopKeepaliveThread();
      suppressReconnect := true;
      CloseAllTransportsAsync();
    }

    method ScheduleReconnectAfter()
      requires !halted
      modifies this
      ensures Abs() == ScheduleReconnect(cfg, old(Abs()))
    {
      if userClosed || suppressReconnect {
        return;
      }
      if reconnectCount >= cfg.maxTimes {
        FailFatally();
        if halted {
          return;
        }
        SetStateString(Closed);
        return;
      }
      reconnectCount := reconnectCount + 1;
      FailFatally();
      if halted {
        return;
      }
      suppressReconnect := false;
      SpawnReconnectThread();
    }

    /** Puts a reconnect to sleep. */
    method SpawnReconnectThread()
      modifies `reconnectGen, `reconnects, `log
      ensures Abs() == SpawnReconnect(old(Abs()))
    {
      reconnectGen := reconnectGen + 1;
      reconnects := reconnects[reconnectGen := serverUrl];
      log := log.(spawned := log.spawned + [reconnectGen]);
    }

    // ----- connecting

    /** Sleeping reconnects and the keepalive are superseded. */
    method SupersedeTimers()
      modifies `reconnectGen, `keepaliveGen
      ensures Abs() == Superseded(old(Abs()))
    {
      reconnectGen := reconnectGen + 1;
      StopKeepaliveThread();
    }

    method PrepareConnect(url: string, env: Env)
      requires !halted
      modifies this
      ensures Abs() == Prepared(cfg, old(Abs()), url, env)
    {
      SupersedeTimers();
      suppressReconnect := true;
      CloseAllTransportsJoin(env);
      if halted {
        return;
      }
      ResetControl(url);
      ResetRace();
    }

    method ResetControl(url: string)
      modifies `suppressReconnect, `userClosed, `pendingUrl
      ensures Abs() == ReadyControl(old(Abs()), url)
    {
      suppressReconnect := false;
      userClosed := false;
      pendingUrl := url;
    }

    method ResetRace()
      modifies `sessionOpen, `hasAlt, `primaryLeg, `log
      ensures Abs() == ReadyRace(cfg, old(Abs()))
    {
      AimRace();
      log := log.(delivered := [], legChanges := 0);
    }

    /** The leg that the configuration begins with stands alone, and no session is open. */
    method AimRace()
      modifies `sessionOpen, `hasAlt, `primaryLeg
      ensures Abs() == old(Abs()).(race := old(Abs()).race.(
                primary := if cfg.implementation == OnlyCurl then Curl else Quic,
                sessionOpen := false, hasAlt := false))
    {
      sessionOpen := false;
      hasAlt := false;
      if cfg.implementation == OnlyCurl {
        primaryLeg := Curl;
      } else {
        primaryLeg := Quic;
      }
    }

    method BeginConnecting(url: string, env: Env) returns (started: bool)
      requires !halted
      modifies this
      ensures Abs() == BeginConnect(cfg, old(Abs()), url, env)
      ensures started == (!Prepared(cfg, old(Abs()), url, env).locks.halted
                          && (cfg.implementation == OnlyCurl || env.opening.Started?))
    {
      PrepareConnect(url, env);
      if halted {
        return false;
      }
      if cfg.implementation == OnlyCurl {
        OpenWebSocket();
        return true;
      }
      match env.opening
      case Refused => return false;
      case Failed(error) =>
        NoteTold(Quic);
        OnQuicErrorReported(error, env);
        return false;
      case Started =>
        OpenQuicSocket();
        if cfg.implementation == Mixed {
          ScheduleMixedTcpFallback(env);
        }
        return true;
    }

    method ResetReconnectCount()
      modifies `reconnectCount, `log
      ensures Abs() == ResetCount(old(Abs()))
    {
      reconnectCount := 0;
      log := log.(mark := |log.spawned|);
    }

    method BeginLeaving()
      modifies `userClosed, `reconnectGen, `keepaliveGen, `stateString, `disconnectClosing, `log
      ensures Abs() == Leaving(old(Abs()))
    {
      SupersedeTimers();
      MarkLeaving();
      log := log.(disconnects := log.disconnects + 1);
    }

    /** From here on no callback and no timer opens or schedules anything, and a shutdown is pending. */
    method MarkLeaving()
      modifies `userClosed, `stateString, `disconnectClosing
      ensures Abs() == old(Abs()).(ctl := old(Abs()).ctl.(userClosed := true, status := Closing, closing := true))
    {
      userClosed := true;
      stateString := Closing;
      disconnectClosing := true;
    }

    // ----- receiving

    method CloseForFailedAnswer(leg: Leg, env: Env)
      requires !halted
      modifies this
      ensures Abs() == CloseOnFailure(cfg, old(Abs()), leg, env)
      decreases if leg == Quic then 1 else 0, 1
    {
      if disconnectClosing {
        CloseSocketFromCallback(leg, env);
      } else {
        CloseAllTransportsAsync();
      }
    }

    method HandleReceiveSignalResponse(leg: Leg, response: Response, env: Env)
      requires !response.Unreadable? && !halted
      modifies this
      ensures Abs() == HandleResponse(cfg, old(Abs()), leg, response, env)
      decreases if leg == Quic then 1 else 0, 2
    {
      var resetReconn := true;
      if response.Answer? && response.code != OK_CODE {
        if IsTokenCode(response.code) {
          CloseForFailedAnswer(leg, env);
          return;
        }
        if response.important {
          CloseForFailedAnswer(leg, env);
          return;
        }
        resetReconn := false;
      }
      if disconnectClosing && disconnectLeaveReqId != 0 && disconnectLeaveReqId == response.id {
        CloseSocketFromCallback(leg, env);
        return;
      }
      if resetReconn {
        ResetReconnectCount();
      }
    }

    method OnTransportRecv(leg: Leg, response: Response, env: Env)
      requires !halted
      modifies this
      ensures Abs() == OnRecv(cfg, old(Abs()), leg, response, env)
      decreases if leg == Quic then 1 else 0, 3
    {
      if leg != primaryLeg || !sessionOpen {
        return;
      }
      log := log.(delivered := log.delivered + [leg]);
      if response != Unreadable {
        HandleReceiveSignalResponse(leg, response, env);
      }
    }

    // ----- entry points: the application

    method ConnectTo(url: string, env: Env) returns (started: bool)
      requires Valid() && !halted
      modifies this
      ensures Valid() && Abs() == Step(cfg, old(Abs()), AppConnect(url, env))
      ensures !halted ==> started == (cfg.implementation == OnlyCurl || env.opening.Started?)
    {
      StepStaysSound(cfg, Abs(), AppConnect(url, env));
      serverUrl := url;
      SetStateString(Connecting);
      started := BeginConnecting(url, env);
    }

    method ConnectBestUrl(bestUrl: string, env: Env)
      requires Valid() && !halted
      modifies this
      ensures Valid() && Abs() == Step(cfg, old(Abs()), AppConnectBest(bestUrl, env))
    {
      StepStaysSound(cfg, Abs(), AppConnectBest(bestUrl, env));
      serverUrl := bestUrl;
      ResetReconnectCount();
      SetStateString(Connecting);
      var started := BeginConnecting(bestUrl, env);
    }

    method DisconnectFrom(leaveReqId: nat, env: Env)
      requires Valid() && !halted
      modifies this
      ensures Valid() && Abs() == Step(cfg, old(Abs()), AppDisconnect(leaveReqId, env))
    {
      StepStaysSound(cfg, Abs(), AppDisconnect(leaveReqId, env));
      BeginLeaving();
      if leaveReqId != 0 {
        ScheduleDisconnectCloseTimeout(leaveReqId);
      } else {
        CloseSocketAfterDisconnect(env);
      }
    }

    method OnReconnect()
      requires Valid() && !halted
      modifies this
      ensures Valid() && Abs() == Step(cfg, old(Abs()), AppReconnect)
    {
      StepStaysSound(cfg, Abs(), AppReconnect);
      ScheduleReconnectAfter();
    }

    // ----- entry points: the callbacks handed to the sockets

    method SocketOpened(leg: Leg)
      requires Valid() && !halted
      modifies this
      ensures Valid() && Abs() == Step(cfg, old(Abs()), Opened(leg))
    {
      StepStaysSound(cfg, Abs(), Opened(leg));
      OnTransportOpen(leg);
    }

    method SocketClosed(leg: Leg, code: int, remote: bool, env: Env)
      requires Valid() && !halted
      modifies this
      ensures Valid() && Abs() == Step(cfg, old(Abs()), LegClosed(leg, code, remote, env))
    {
      StepStaysSound(cfg, Abs(), LegClosed(leg, code, remote, env));
      NoteTold(leg);
      OnTransportClose(leg, code, remote, env);
    }

    /** The guard of the socket has been set before it calls back. */
    method NoteTold(leg: Leg)
      modifies `quicDuty, `curlDuty
      ensures Abs() == Ended(old(Abs()), leg)
    {
      if leg == Quic {
        quicDuty := Told;
      } else {
        curlDuty := Told;
      }
    }

    method WebSocketFailed(error: CurlError, env: Env)
      requires Valid() && !halted
      modifies this
      ensures Valid() && Abs() == Step(cfg, old(Abs()), CurlFailed(error, env))
    {
      StepStaysSound(cfg, Abs(), CurlFailed(error, env));
      NoteTold(Curl);
      OnCurlErrorReported(error, env);
    }

    method QuicSocketFailed(error: QuicError, env: Env)
      requires Valid() && !halted
      modifies this
      ensures Valid() && Abs() == Step(cfg, old(Abs()), QuicFailed(error, env))
    {
      StepStaysSound(cfg, Abs(), QuicFailed(error, env));
      NoteTold(Quic);
      OnQuicErrorReported(error, env);
    }

    method SocketReceived(leg: Leg, response: Response, env: Env)
      requires Valid() && !halted
      modifies this
      ensures Valid() && Abs() == Step(cfg, old(Abs()), Received(leg, response, env))
    {
      StepStaysSound(cfg, Abs(), Received(leg, response, env));
      OnTransportRecv(leg, response, env);
    }

    // ----- entry points: timer threads that wake

    method DelayThreadWakes(gen: nat, env: Env)
      requires Valid() && !halted && gen in delays
      modifies this
      ensures Valid() && Abs() == Step(cfg, old(Abs()), DelayTimer(gen, env))
    {
      StepStaysSound(cfg, Abs(), DelayTimer(gen, env));
      delays := delays - {gen};
      if mixedDelayGen != gen {
        return;
      }
      PassDelay(env);
    }

    method PassDelay(env: Env)
      modifies `mixedDelayGen, `mixedDelayPending, `hasAlt, `curlDuty, `curlWorker, `overrun, `opens
      ensures Abs() == StartFallback(old(Abs()).(race := old(Abs()).race.(delayPending := false)), env)
    {
      mixedDelayPending := false;
      StartMixedTcpFallback(env);
    }

    method ReconnectThreadWakes(gen: nat, url: string, env: Env)
      requires Valid() && !halted && gen in reconnects && reconnects[gen] == url
      modifies this
      ensures Valid() && Abs() == Step(cfg, old(Abs()), ReconnectTimer(gen, env))
    {
      StepStaysSound(cfg, Abs(), ReconnectTimer(gen, env));
      reconnects := reconnects - {gen};
      if reconnectGen != gen || userClosed {
        return;
      }
      if url == "" {
        return;
      }
      SetStateString(Connecting);
      var started := BeginConnecting(url, env);
    }

    method CloseThreadWakes(gen: nat, env: Env)
      requires Valid() && !halted && gen in closes
      modifies this
      ensures Valid() && Abs() == Step(cfg, old(Abs()), CloseTimer(gen, env))
    {
      StepStaysSound(cfg, Abs(), CloseTimer(gen, env));
      closes := closes - {gen};
      if disconnectCloseGen != gen || !disconnectClosing {
        return;
      }
      CloseSocketAfterDisconnect(env);
    }

    /** The keepalive thread ends: it is superseded, or an answer is overdue. */
    method KeepaliveThreadEnds(gen: nat)
      requires Valid() && !halted && gen in keepalives
      modifies this
      ensures Valid() && Abs() == Step(cfg, old(Abs()), KeepaliveTimer(gen))
    {
      StepStaysSound(cfg, Abs(), KeepaliveTimer(gen));
      keepalives := keepalives - {gen};
      if keepaliveGen != gen || userClosed {
        return;
      }
      ScheduleReconnectAfter();
    }
  }
}
