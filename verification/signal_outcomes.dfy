/**
 What each callback, timer and call comes to while no worker is being joined: how the failure of a
 leg ends, who wins a race, what a response does, and what a timer that is still current does. The
 outcomes are stated by the kind of failure or response and by what the state was before.
 */
module SignalOutcomes {
  import opened SignalTransport

  // ----- failures

  predicate IsFailure(e: Event)
  {
    e.LegClosed? || e.CurlFailed? || e.QuicFailed?
  }

  function FailedLeg(e: Event): Leg
    requires IsFailure(e)
  {
    if e.LegClosed? then e.leg else if e.CurlFailed? then Curl else Quic
  }

  /** The leg carries the session or the race: it is the primary one, or TCP beside QUIC. */
  predicate Matters(s: State, leg: Leg)
  {
    s.race.primary == leg || (leg == Curl && s.race.hasAlt)
  }

  /** Failures that nothing is tried after, not even the other leg: a rejected token and a certificate
      that cannot be trusted. */
  predicate IsRejection(e: Event)
  {
    match e
    case LegClosed(_, code, _, _) => code == 602 || code == 603
    case CurlFailed(error, _) => error in {CurlToken, CurlSecurity}
    case QuicFailed(error, _) => error in {QuicToken, QuicSsl}
    case _ => false
  }

  /** Failures after which connecting again is not tried. */
  predicate IsFinal(e: Event)
  {
    match e
    case CurlFailed(error, _) => error in {CurlToken, CurlSecurity, CurlTimedOut, CurlNeverConnected}
    case QuicFailed(error, _) => error in {QuicToken, QuicSsl, QuicTimeout, QuicInvalidUrl}
    case _ => IsRejection(e)
  }

  /** Before the session is open, the other leg goes on, or is started, in place of the one that failed. */
  predicate OtherLegGoesOn(cfg: Config, s: State, leg: Leg, mayStart: bool, env: Env)
  {
    cfg.implementation == Mixed && !s.race.sessionOpen
    && match leg
       case Curl => s.race.hasAlt && s.race.primary == Quic && env.quicState in {QuicConnecting, QuicOpen}
       case Quic =>
         s.race.hasAlt
         || (mayStart && !s.ctl.userClosed && env.quicState != QuicOpen && s.ctl.pendingUrl != "")
  }

  /** A QUIC connection that was closed from this side does not start TCP. */
  predicate TakesOver(cfg: Config, s: State, e: Event)
    requires IsFailure(e)
  {
    OtherLegGoesOn(cfg, s, FailedLeg(e), e.LegClosed? ==> e.remote, e.env)
  }

  datatype Outcome = Ignored | EndsForGood | TakenOver | Unwanted | GivesUp | Reconnects

  function Retry(cfg: Config, s: State): Outcome
  {
    if s.ctl.userClosed || s.ctl.suppress then Unwanted
    else if cfg.maxTimes <= s.ctl.count then GivesUp
    else Reconnects
  }

  function FailureOutcome(cfg: Config, s: State, e: Event): Outcome
    requires IsFailure(e)
  {
    if !Matters(s, FailedLeg(e)) then Ignored
    else if IsRejection(e) then EndsForGood
    else if TakesOver(cfg, s, e) then TakenOver
    else if IsFinal(e) then EndsForGood
    else Retry(cfg, s)
  }

  predicate NothingSpawned(s: State, t: State)
  {
    t.log.spawned == s.log.spawned && t.timers.reconnects == s.timers.reconnects
    && t.timers.reconnectGen == s.timers.reconnectGen && t.ctl.count == s.ctl.count
  }

  /** The race is off and the session, if there was one, closed. */
  predicate LegsDown(s: State, t: State)
  {
    !t.race.sessionOpen && !t.race.hasAlt && !t.race.delayPending && t.race.delayGen > s.race.delayGen
    && t.wires.opens == s.wires.opens
  }

  /** One more keepalive generation, and no new keepalive: whoever sleeps is superseded. */
  predicate KeepaliveStopped(s: State, t: State)
  {
    t.timers.keepaliveGen == s.timers.keepaliveGen + 1 && t.timers.keepalives == s.timers.keepalives
  }

  /** Nothing will be tried again until somebody asks for a connection. */
  predicate EndedForGood(s: State, t: State)
  {
    t.ctl.suppress && NothingSpawned(s, t) && LegsDown(s, t) && KeepaliveStopped(s, t)
  }

  /** One reconnect to the server's address is spawned and counted, and supersedes those before. */
  predicate Respawned(s: State, t: State)
  {
    var gen := s.timers.reconnectGen + 1;
    !t.ctl.suppress && t.ctl.count == s.ctl.count + 1
    && t.log.spawned == s.log.spawned + [gen] && t.timers.reconnectGen == gen
    && t.timers.reconnects == s.timers.reconnects[gen := s.ctl.serverUrl]
    && LegsDown(s, t) && KeepaliveStopped(s, t)
  }

  predicate Retried(s: State, t: State, outcome: Outcome)
  {
    match outcome
    case Unwanted => NothingSpawned(s, t) && t.ctl.suppress == s.ctl.suppress
                     && t.timers == s.timers && t.wires.opens == s.wires.opens
    case GivesUp => EndedForGood(s, t) && t.ctl.status == Closed
    case Reconnects => Respawned(s, t)
    case _ => false
  }

  /** What asking for a reconnect comes to. */
  lemma AskedToReconnect(cfg: Config, s: State)
    requires s.locks == UNLOCKED
    ensures var t := ScheduleReconnect(cfg, s);
            Retried(s, t, Retry(cfg, s)) && t.locks == UNLOCKED
            && (Retry(cfg, s) == Unwanted ==> t == s)
            && (Retry(cfg, s) != GivesUp ==> t.ctl.status == s.ctl.status)
            && t.ctl.userClosed == s.ctl.userClosed && t.ctl.serverUrl == s.ctl.serverUrl
  {
  }

  /** What the application's own call for a reconnect comes to. */
  lemma AppReconnectComesTo(cfg: Config, s: State)
    requires s.locks == UNLOCKED
    ensures Retried(s, Step(cfg, s, AppReconnect), Retry(cfg, s))
  {
    AskedToReconnect(cfg, s);
  }

  /** A takeover leaves one leg, the other one, and opens TCP if it was not open already. */
  predicate HandedOver(s: State, t: State, leg: Leg)
  {
    NothingSpawned(s, t) && t.ctl == s.ctl && t.timers == s.timers
    && !t.race.sessionOpen && !t.race.hasAlt
    && t.race.primary == (if leg == Quic then Curl else Quic)
    && t.wires.opens == s.wires.opens + (if leg == Quic && !s.race.hasAlt then 1 else 0)
    && (leg == Quic ==> !t.race.delayPending && t.race.delayGen > s.race.delayGen)
  }

  /** The state once a failure has been dealt with. */
  predicate DealtWith(s: State, t: State, e: Event, outcome: Outcome)
    requires IsFailure(e)
  {
    t.locks == UNLOCKED
    && match outcome
       case Ignored => t == s.(wires := t.wires) && t.wires.opens == s.wires.opens
                       && t.wires.curlWorker == s.wires.curlWorker && t.wires.overrun == s.wires.overrun
       case EndsForGood => EndedForGood(s, t) && t.ctl.status == s.ctl.status
       case TakenOver => HandedOver(s, t, FailedLeg(e))
       case _ =>
         Retried(s, t, outcome) && !t.race.sessionOpen
         && (outcome != GivesUp ==> t.ctl.status == if e.LegClosed? then Closed else s.ctl.status)
  }

  /** Whether the other leg takes over, and what that comes to; if it does not, only the race may have
      changed. */
  lemma TakesOverIff(cfg: Config, s: State, leg: Leg, allow: bool, env: Env)
    requires s.locks == UNLOCKED && Matters(s, leg)
    ensures var (t, handled) := HandleFailure(cfg, s, leg, allow, env);
      && (handled <==> OtherLegGoesOn(cfg, s, leg, allow, env))
      && t.locks == UNLOCKED && t.ctl == s.ctl && t.timers == s.timers
      && (handled ==> HandedOver(s, t, leg))
      && (!handled ==> t.log == s.log && t.wires == s.wires && t.race.delayGen >= s.race.delayGen)
  {
  }

  lemma RetryComesTo(cfg: Config, s: State, after: State, status: Status)
    requires after.locks == UNLOCKED && after.ctl == s.ctl.(status := after.ctl.status)
    requires after.timers == s.timers && after.log == s.log && after.race.delayGen >= s.race.delayGen
    requires after.wires.opens == s.wires.opens && !after.race.sessionOpen && after.ctl.status == status
    ensures var t, outcome := ScheduleReconnect(cfg, after), Retry(cfg, s);
      && t.locks == UNLOCKED && Retried(s, t, outcome) && !t.race.sessionOpen
      && (outcome != GivesUp ==> t.ctl.status == status)
  {
    AskedToReconnect(cfg, after);
  }

  lemma CloseComesTo(cfg: Config, s: State, e: Event)
    requires s.locks == UNLOCKED && e.LegClosed? && Matters(s, e.leg) && !IsRejection(e)
    ensures DealtWith(s, Step(cfg, s, e), e, FailureOutcome(cfg, s, e))
  {
    var failed := Ended(s, e.leg);
    var allow := e.remote && !s.ctl.userClosed;
    TakesOverIff(cfg, failed, e.leg, allow, e.env);
    var (after, handled) := HandleFailure(cfg, failed, e.leg, allow, e.env);
    assert handled == TakesOver(cfg, s, e);
    if !handled {
      RetryComesTo(cfg, s, WithStatus(NoSession(after), Closed), Closed);
    }
  }

  lemma EndedComesTo(s: State, after: State)
    requires after.locks == UNLOCKED && after.ctl == s.ctl
    requires after.timers == s.timers && after.log == s.log && after.race.delayGen >= s.race.delayGen
    requires after.wires.opens == s.wires.opens
    ensures var t := FailFatal(after);
            t.locks == UNLOCKED && EndedForGood(s, t) && t.ctl.status == s.ctl.status
  {
  }

  lemma CurlErrorComesTo(cfg: Config, s: State, e: Event)
    requires s.locks == UNLOCKED && e.CurlFailed? && Matters(s, Curl) && !IsRejection(e)
    ensures DealtWith(s, Step(cfg, s, e), e, FailureOutcome(cfg, s, e))
  {
    var failed := Ended(s, Curl);
    TakesOverIff(cfg, failed, Curl, true, e.env);
    var (after, handled) := HandleFailure(cfg, failed, Curl, true, e.env);
    assert handled == TakesOver(cfg, s, e);
    if !handled {
      EndedComesTo(s, after);
      RetryComesTo(cfg, s, NoSession(after), s.ctl.status);
    }
  }

  lemma QuicErrorComesTo(cfg: Config, s: State, e: Event)
    requires s.locks == UNLOCKED && e.QuicFailed? && Matters(s, Quic) && !IsRejection(e)
    ensures DealtWith(s, Step(cfg, s, e), e, FailureOutcome(cfg, s, e))
  {
    var failed := Ended(s, Quic);
    TakesOverIff(cfg, failed, Quic, true, e.env);
    var (after, handled) := HandleFailure(cfg, failed, Quic, true, e.env);
    assert handled == TakesOver(cfg, s, e);
    if !handled {
      EndedComesTo(s, after);
      RetryComesTo(cfg, s, NoSession(after), s.ctl.status);
    }
  }

  /** What every failure comes to, leg by leg and kind by kind. */
  lemma FailureComesTo(cfg: Config, s: State, e: Event)
    requires s.locks == UNLOCKED && IsFailure(e)
    ensures DealtWith(s, Step(cfg, s, e), e, FailureOutcome(cfg, s, e))
  {
    if Matters(s, FailedLeg(e)) {
      if IsRejection(e) {
        EndedComesTo(s, Ended(s, FailedLeg(e)));
      } else if e.LegClosed? {
        CloseComesTo(cfg, s, e);
      } else if e.CurlFailed? {
        CurlErrorComesTo(cfg, s, e);
      } else {
        QuicErrorComesTo(cfg, s, e);
      }
    }
  }

  /** The leg has made its terminal callback, and the other owes what it owed. */
  predicate SocketTold(s: State, t: State, leg: Leg)
  {
    match leg
    case Curl => t.wires.curlDuty == Told && t.wires.quicDuty == s.wires.quicDuty
    case Quic => t.wires.quicDuty == Told && t.wires.curlDuty == s.wires.curlDuty
  }

  lemma WiresKept(cfg: Config, s: State, leg: Leg, allow: bool, env: Env)
    requires s.locks == UNLOCKED
    ensures ScheduleReconnect(cfg, s).wires == s.wires && FailFatal(s).wires == s.wires
    ensures var (t, handled) := HandleFailure(cfg, s, leg, allow, env);
      && (t.wires.opens == s.wires.opens ==> t.wires == s.wires)
      && t.locks == UNLOCKED && (!handled ==> t.wires == s.wires)
  {
  }

  lemma CloseHasSaid(cfg: Config, s: State, leg: Leg, code: int, remote: bool, env: Env)
    requires s.locks == UNLOCKED
    ensures OnClose(cfg, s, leg, code, remote, env).wires.opens == s.wires.opens ==>
              OnClose(cfg, s, leg, code, remote, env).wires == s.wires
  {
    var (after, handled) := HandleFailure(cfg, s, leg, remote && !s.ctl.userClosed, env);
    WiresKept(cfg, s, leg, remote && !s.ctl.userClosed, env);
    if !handled {
      WiresKept(cfg, WithStatus(NoSession(after), Closed), leg, true, env);
    }
  }

  lemma CurlErrorHasSaid(cfg: Config, s: State, error: CurlError, env: Env)
    requires s.locks == UNLOCKED
    ensures OnCurlError(cfg, s, error, env).wires.opens == s.wires.opens ==>
              OnCurlError(cfg, s, error, env).wires == s.wires
  {
    var (after, handled) := HandleFailure(cfg, s, Curl, true, env);
    WiresKept(cfg, s, Curl, true, env);
    if !handled {
      WiresKept(cfg, after, Curl, true, env);
      WiresKept(cfg, NoSession(after), Curl, true, env);
    }
  }

  lemma QuicErrorHasSaid(cfg: Config, s: State, error: QuicError, env: Env)
    requires s.locks == UNLOCKED
    ensures OnQuicError(cfg, s, error, env).wires.opens == s.wires.opens ==>
              OnQuicError(cfg, s, error, env).wires == s.wires
  {
    var (after, handled) := HandleFailure(cfg, s, Quic, true, env);
    WiresKept(cfg, s, Quic, true, env);
    if !handled {
      WiresKept(cfg, after, Quic, true, env);
      WiresKept(cfg, NoSession(after), Quic, true, env);
    }
  }

  /** Whatever a failure comes to, the socket has had its say; what the other one owes only a takeover that
      opens it changes. */
  lemma SocketHasSaid(cfg: Config, s: State, e: Event)
    requires s.locks == UNLOCKED && IsFailure(e)
    ensures Step(cfg, s, e).wires.opens == s.wires.opens ==> SocketTold(s, Step(cfg, s, e), FailedLeg(e))
  {
    var failed := Ended(s, FailedLeg(e));
    assert SocketTold(s, failed, FailedLeg(e)) && failed.wires.opens == s.wires.opens;
    match e {
      case LegClosed(leg, code, remote, env) => CloseHasSaid(cfg, failed, leg, code, remote, env);
      case CurlFailed(error, env) => CurlErrorHasSaid(cfg, failed, error, env);
      case QuicFailed(error, env) => QuicErrorHasSaid(cfg, failed, error, env);
    }
  }

  /** Where reconnects are wanted and nothing takes over, a failure of a leg that matters ends
      reconnecting exactly if it is final or the limit is used up, and otherwise, and only then, one
      reconnect is spawned. Over QUIC final are a rejected token, TLS, a timeout and an invalid address,
      over TCP a rejected token, TLS, a timeout and never having connected, and for a close the codes of
      a rejected token. */
  lemma EndsReconnectingIff(cfg: Config, s: State, e: Event)
    requires s.locks == UNLOCKED && IsFailure(e) && Matters(s, FailedLeg(e)) && !TakesOver(cfg, s, e)
    requires !s.ctl.userClosed && !s.ctl.suppress
    ensures var t := Step(cfg, s, e);
            && (t.ctl.suppress <==> IsFinal(e) || s.ctl.count >= cfg.maxTimes)
            && (!t.ctl.suppress <==> t.log.spawned == s.log.spawned + [s.timers.reconnectGen + 1])
            && (t.ctl.suppress <==> t.log.spawned == s.log.spawned)
            && !t.race.sessionOpen
  {
    FailureComesTo(cfg, s, e);
  }

  // ----- opening

  /** The first leg to open while the user wants a session has it, alone: it becomes the primary leg,
      the race is over, and a keepalive starts. An open that comes after a disconnect opens nothing, and
      neither does TCP when QUIC has the session. */
  lemma OpenComesTo(cfg: Config, s: State, leg: Leg)
    requires s.locks == UNLOCKED
    ensures var t := Step(cfg, s, Opened(leg));
      if !Matters(s, leg) then t == s
      else if s.ctl.userClosed then
        !t.race.sessionOpen && t.race.hasAlt == (s.race.hasAlt && leg == s.race.primary)
        && t.ctl == s.ctl && t.timers == s.timers && t.wires == s.wires && t.log == s.log
      else if s.race.sessionOpen && leg != s.race.primary then
        t == s.(race := s.race.(hasAlt := false))
      else
        t.race == Race(leg, false, true, false, s.race.delayGen + 1)
        && t.ctl == s.ctl.(status := Open) && t.wires == s.wires && t.locks == UNLOCKED
        && t.timers == s.timers.(keepaliveGen := s.timers.keepaliveGen + 1,
                                 keepalives := s.timers.keepalives + {s.timers.keepaliveGen + 1})
        && t.log == s.log.(legChanges := s.log.legChanges + if leg == s.race.primary then 0 else 1)
  {
  }

  // ----- receiving

  /** An answer that is itself a failure: a rejected token, or the failure of an important request. */
  predicate IsRefusal(response: Response)
  {
    response.Answer? && response.code != 200 && (response.code == 602 || response.code == 603 || response.important)
  }

  predicate IsAwaited(s: State, response: Response)
  {
    !response.Unreadable? && s.ctl.closing && s.ctl.leaveId != 0 && response.id == s.ctl.leaveId
  }

  /** A sign that the connection works. */
  predicate IsGood(response: Response)
  {
    response.Other? || (response.Answer? && response.code == 200)
  }

  /** A payload is heard exactly from the primary leg of an open session. What is readable and good
      starts the count of reconnects over; a refusal closes both legs and neither ends reconnecting nor
      starts it; another answer does nothing. While a shutdown waits, the awaited answer and a refusal
      join from inside the callback and do not return. */
  lemma ResponseComesTo(cfg: Config, s: State, leg: Leg, response: Response, env: Env)
    requires s.locks == UNLOCKED
    ensures var t := Step(cfg, s, Received(leg, response, env));
      if leg != s.race.primary || !s.race.sessionOpen then t == s
      else if IsAwaited(s, response) || (IsRefusal(response) && s.ctl.closing) then t.locks.halted
      else
        t.log.delivered == s.log.delivered + [leg] && t.locks == UNLOCKED
        && t.log.spawned == s.log.spawned && t.timers == s.timers && t.wires == s.wires
        && t.ctl == (if IsGood(response) then s.ctl.(count := 0) else s.ctl)
        && t.log.mark == (if IsGood(response) then |s.log.spawned| else s.log.mark)
        && (if IsRefusal(response) then LegsDown(s, t) && t.race.primary == s.race.primary else t.race == s.race)
  {
  }

  // ----- timers

  /** The wish for TCP beside QUIC is met: while a session is wanted and none is open, unless QUIC has
      just opened or there is no address. */
  predicate AltWanted(s: State, env: Env)
  {
    !s.ctl.userClosed && !s.race.sessionOpen && !s.race.hasAlt
    && env.quicState != QuicOpen && s.ctl.pendingUrl != ""
  }

  predicate AltStarted(s: State, t: State)
  {
    t.race.hasAlt && !t.race.delayPending && t.race.primary == s.race.primary && !t.race.sessionOpen
    && t.wires.opens == s.wires.opens + 1 && t.wires.curlWorker && t.wires.curlDuty == Owing
    && t.wires.quicDuty == s.wires.quicDuty && t.ctl == s.ctl && t.log == s.log
  }

  predicate AltNotStarted(s: State, t: State)
  {
    t.race.hasAlt == s.race.hasAlt && t.race.primary == s.race.primary && t.race.sessionOpen == s.race.sessionOpen
    && t.wires == s.wires && t.ctl == s.ctl && t.log == s.log
  }

  /** The delay timer starts TCP exactly if it is still current and TCP is still wanted. */
  lemma DelayComesTo(cfg: Config, s: State, gen: nat, env: Env)
    requires Enabled(s, DelayTimer(gen, env))
    ensures var t := Step(cfg, s, DelayTimer(gen, env));
      && t.timers == s.timers.(delays := s.timers.delays - {gen}) && t.locks == s.locks
      && (if gen == s.race.delayGen && AltWanted(s, env) then AltStarted(s, t) else AltNotStarted(s, t))
      && (gen != s.race.delayGen ==> t.race == s.race)
      && (gen == s.race.delayGen ==> !t.race.delayPending)
      && (gen == s.race.delayGen && !s.ctl.userClosed && !s.race.sessionOpen && !s.race.hasAlt ==>
            t.race.delayGen == s.race.delayGen + 1)
  {
  }

  /** The keepalive asks for a reconnect exactly if it is still current and the user has not closed. */
  lemma KeepaliveComesTo(cfg: Config, s: State, gen: nat)
    requires s.locks == UNLOCKED && Enabled(s, KeepaliveTimer(gen))
    ensures var t := Step(cfg, s, KeepaliveTimer(gen));
            var taken := s.(timers := s.timers.(keepalives := s.timers.keepalives - {gen}));
      if gen != s.timers.keepaliveGen || s.ctl.userClosed then t == taken
      else Retried(taken, t, Retry(cfg, s)) && (Retry(cfg, s) == Unwanted ==> t == taken)
  {
    AskedToReconnect(cfg, KeepaliveTaken(s, gen));
  }

  /** The reconnect timer connects, to the address it was spawned with, exactly if it is still current,
      the user has not closed and there is an address. */
  lemma ReconnectComesTo(cfg: Config, s: State, gen: nat, env: Env)
    requires Enabled(s, ReconnectTimer(gen, env))
    ensures var taken := s.(timers := s.timers.(reconnects := s.timers.reconnects - {gen}));
      Step(cfg, s, ReconnectTimer(gen, env))
      == if gen == s.timers.reconnectGen && !s.ctl.userClosed && s.timers.reconnects[gen] != ""
         then BeginConnect(cfg, taken.(ctl := s.ctl.(status := Connecting)), s.timers.reconnects[gen], env)
         else taken
  {
  }

  /** A shutdown that is under way is under way no longer. */
  function ShutdownTaken(s: State): State
  {
    s.(ctl := s.ctl.(closing := false, leaveId := 0), timers := s.timers.(closeGen := s.timers.closeGen + 1),
       log := s.log.(shutdowns := s.log.shutdowns + 1))
  }

  /** The shutdown timer joins both legs exactly if it is still current and a shutdown is under way. */
  lemma CloseTimerComesTo(cfg: Config, s: State, gen: nat, env: Env)
    requires Enabled(s, CloseTimer(gen, env))
    ensures var taken := s.(timers := s.timers.(closes := s.timers.closes - {gen}));
      Step(cfg, s, CloseTimer(gen, env))
      == if gen == s.timers.closeGen && s.ctl.closing then CloseJoin(cfg, ShutdownTaken(taken), env) else taken
  {
  }

  // ----- joining

  lemma ReportKeepsWires(cfg: Config, s: State, leg: Leg, env: Env)
    ensures OnClose(cfg, s, leg, 0, false, env).wires == s.wires
  {
  }

  lemma ReportLocksNothing(cfg: Config, s: State, leg: Leg, env: Env)
    requires !s.locks.held
    ensures OnClose(cfg, s, leg, 0, false, env).locks == s.locks
  {
  }

  /** A join that returns, whatever comes in meanwhile, leaves neither session nor race nor TCP worker, and
      both sockets have had their say. */
  lemma JoinComesTo(cfg: Config, s: State, env: Env)
    ensures var t := CloseJoin(cfg, s, env);
            !t.locks.halted ==>
              !t.race.sessionOpen && !t.race.hasAlt && !t.wires.curlWorker
              && t.wires.curlDuty == Told && t.wires.quicDuty == Told && !t.locks.held && !t.locks.landing
  {
    var joined := Joining(cfg, Cut(s), env);
    ReportKeepsWires(cfg, CurlJoined(joined), Curl, env);
    var curl := CloseCurl(cfg, Cut(s), env);
    ReportKeepsWires(cfg, QuicJoined(curl), Quic, env);
    if !curl.locks.held {
      ReportLocksNothing(cfg, QuicJoined(curl), Quic, env);
    }
  }

  /** A timer that has been spawned, and has not fired, can fire, and no other can. */
  lemma TimerFiresIff(s: State, gen: nat, env: Env)
    ensures Enabled(s, DelayTimer(gen, env)) <==> !s.locks.halted && gen in s.timers.delays
    ensures Enabled(s, ReconnectTimer(gen, env)) <==> !s.locks.halted && gen in s.timers.reconnects
    ensures Enabled(s, CloseTimer(gen, env)) <==> !s.locks.halted && gen in s.timers.closes
    ensures Enabled(s, KeepaliveTimer(gen)) <==> !s.locks.halted && gen in s.timers.keepalives
  {
  }

  // ----- a connect spends no reconnect

  /** Reconnects are suppressed and stay so, and none is spawned. */
  predicate SpendsNothing(s: State, t: State)
  {
    s.ctl.suppress && t.ctl.suppress && t.log.spawned == s.log.spawned && t.timers.reconnects == s.timers.reconnects
    && t.timers.reconnectGen == s.timers.reconnectGen && t.timers.keepaliveGen >= s.timers.keepaliveGen
  }

  lemma FailureSpendsNothing(cfg: Config, s: State, leg: Leg, allow: bool, env: Env)
    requires s.ctl.suppress
    ensures SpendsNothing(s, HandleFailure(cfg, s, leg, allow, env).0)
  {
  }

  lemma CloseSpendsNothing(cfg: Config, s: State, leg: Leg, code: int, remote: bool, env: Env)
    requires s.ctl.suppress
    ensures SpendsNothing(s, OnClose(cfg, s, leg, code, remote, env))
  {
    FailureSpendsNothing(cfg, s, leg, remote && !s.ctl.userClosed, env);
  }

  lemma ErrorSpendsNothing(cfg: Config, s: State, error: CurlError, env: Env)
    requires s.ctl.suppress
    ensures SpendsNothing(s, OnCurlError(cfg, s, error, env))
  {
    FailureSpendsNothing(cfg, s, Curl, true, env);
  }

  lemma OpenSpendsNothing(s: State)
    requires s.ctl.suppress
    ensures SpendsNothing(s, OnOpen(s, Curl))
  {
  }

  lemma HearingSpendsNothing(s: State, response: Response)
    requires s.ctl.suppress
    ensures SpendsNothing(s, HearOnWorker(s, response))
  {
  }

  lemma ArrivedSpendsNothing(cfg: Config, s: State, a: Arrival, env: Env)
    requires s.ctl.suppress
    ensures SpendsNothing(s, Arrived(cfg, s, a, env))
  {
    match a
    case Opens => OpenSpendsNothing(s);
    case Closes(code, remote) => CloseSpendsNothing(cfg, Ended(s, Curl), Curl, code, remote, env);
    case Fails(error) => ErrorSpendsNothing(cfg, Ended(s, Curl), error, env);
    case Hears(response) => HearingSpendsNothing(s, response);
    case Lands =>
  }

  lemma {:induction false} AllArrivedSpendNothing(cfg: Config, s: State, during: seq<Arrival>, env: Env)
    requires s.ctl.suppress
    ensures SpendsNothing(s, AllArrived(cfg, s, during, env))
    decreases |during|
  {
    if during != [] && !s.locks.halted {
      ArrivedSpendsNothing(cfg, s, during[0], env);
      AllArrivedSpendNothing(cfg, Arrived(cfg, s, during[0], env), during[1..], env);
    }
  }

  lemma CloseCurlSpendsNothing(cfg: Config, s: State, env: Env)
    requires s.ctl.suppress
    ensures SpendsNothing(s, CloseCurl(cfg, s, env))
  {
    AllArrivedSpendNothing(cfg, Held(s), if s.wires.curlWorker then env.during else [], env);
    var joined := Joining(cfg, s, env);
    CloseSpendsNothing(cfg, CurlJoined(joined), Curl, 0, false, env);
  }

  /** Whatever comes in while a connect joins what was open before, it spends no reconnect, and it supersedes
      the reconnects that sleep and the keepalive. */
  lemma ConnectSpendsNothing(cfg: Config, s: State, url: string, env: Env)
    ensures var ready := Prepared(cfg, s, url, env);
      && ready.log.spawned == s.log.spawned && ready.timers.reconnects == s.timers.reconnects
      && ready.timers.reconnectGen == s.timers.reconnectGen + 1
      && ready.timers.keepaliveGen > s.timers.keepaliveGen
  {
    var stopped := Stopped(s);
    CloseCurlSpendsNothing(cfg, Cut(stopped), env);
    var curl := CloseCurl(cfg, Cut(stopped), env);
    CloseSpendsNothing(cfg, QuicJoined(curl), Quic, 0, false, env);
  }

  // ----- connecting and leaving

  /** A connect that joins what was open before and returns: which legs it opens, and what it sets. */
  lemma ConnectComesTo(cfg: Config, s: State, url: string, env: Env)
    requires var ready := Prepared(cfg, s, url, env); !ready.locks.halted
    ensures var ready, t := Prepared(cfg, s, url, env), BeginConnect(cfg, s, url, env);
      && !ready.ctl.userClosed && !ready.ctl.suppress && ready.ctl.pendingUrl == url
      && !ready.race.sessionOpen && !ready.race.hasAlt
      && ready.race.primary == (if cfg.implementation == OnlyCurl then Curl else Quic)
      && ready.log.delivered == [] && ready.log.legChanges == 0
      && (cfg.implementation == OnlyCurl ==> t == ready.(wires := t.wires) && OpenedTcp(ready, t))
      && (cfg.implementation != OnlyCurl ==>
            match env.opening
            case Refused => t == ready
            case Started => OpenedQuic(cfg, ready, t, env)
            case Failed(error) => t == OnQuicError(cfg, Ended(ready, Quic), error, env))
  {
  }

  predicate OpenedTcp(s: State, t: State)
  {
    t.wires.opens == s.wires.opens + 1 && t.wires.curlWorker && t.wires.curlDuty == Owing
    && t.wires.quicDuty == s.wires.quicDuty
  }

  /** QUIC is opened, and TCP beside it at once or after the delay, but only where the two are raced. */
  predicate OpenedQuic(cfg: Config, s: State, t: State, env: Env)
  {
    t.wires.quicDuty == Owing && t.ctl == s.ctl && t.log == s.log && !t.race.sessionOpen && t.race.primary == Quic
    && if cfg.implementation != Mixed then
         t.wires == s.wires.(quicDuty := Owing, opens := s.wires.opens + 1) && t.race == s.race && t.timers == s.timers
       else if cfg.mixedDelay > 0 then
         t.wires == s.wires.(quicDuty := Owing, opens := s.wires.opens + 1)
         && t.race.delayPending && !t.race.hasAlt && t.race.delayGen == s.race.delayGen + 1
         && t.timers == s.timers.(delays := s.timers.delays + {s.race.delayGen + 1})
       else
         t.timers == s.timers && t.race.hasAlt == (env.quicState != QuicOpen && s.ctl.pendingUrl != "")
         && t.race.delayGen == s.race.delayGen + 1
         && t.wires.opens == s.wires.opens + if t.race.hasAlt then 2 else 1
  }

  /** A connect to a server first takes its address and, when a node was chosen, starts the count over. */
  lemma ServerTaken(cfg: Config, s: State, url: string, env: Env)
    ensures Step(cfg, s.(locks := UNLOCKED), AppConnect(url, env))
         == BeginConnect(cfg, s.(locks := UNLOCKED, ctl := s.ctl.(serverUrl := url, status := Connecting)), url, env)
    ensures Step(cfg, s.(locks := UNLOCKED), AppConnectBest(url, env))
         == Step(cfg, s.(locks := UNLOCKED, ctl := s.ctl.(count := 0), log := s.log.(mark := |s.log.spawned|)),
                 AppConnect(url, env))
  {
  }

  /** A disconnect whose leave request went out closes nothing yet: it waits for the answer, or for a
      timer of its own. One whose request could not be sent joins both legs at once. */
  lemma DisconnectComesTo(cfg: Config, s: State, leaveId: nat, env: Env)
    requires !s.locks.halted
    ensures var t, gen := Step(cfg, s, AppDisconnect(leaveId, env)), s.timers.closeGen + 1;
      && (leaveId != 0 ==>
            t.ctl == s.ctl.(userClosed := true, status := Closing, closing := true, leaveId := leaveId)
            && t.race == s.race && t.wires == s.wires && t.log == s.log.(disconnects := s.log.disconnects + 1)
            && t.timers == s.timers.(closeGen := gen, closes := s.timers.closes + {gen},
                                     reconnectGen := s.timers.reconnectGen + 1,
                                     keepaliveGen := s.timers.keepaliveGen + 1))
      && (leaveId == 0 ==> t == CloseJoin(cfg, ShutdownTaken(Disconnecting(s)), env))
  {
  }

  function Disconnecting(s: State): State
  {
    s.(ctl := s.ctl.(userClosed := true, status := Closing, closing := true),
       timers := s.timers.(reconnectGen := s.timers.reconnectGen + 1, keepaliveGen := s.timers.keepaliveGen + 1),
       log := s.log.(disconnects := s.log.disconnects + 1))
  }
}
