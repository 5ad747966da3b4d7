/**
 The lifecycle mutex of the WebSocket. It is not recursive, a joining close holds it while the worker
 is joined and its end reported, and every other close of the WebSocket takes it, those that the
 worker makes from its own callbacks too. A landing fallback takes it with the race mutex held, with
 which every callback begins. Which steps, for these reasons, do not return.
 */
module SignalLocks {
  import opened SignalTransport

  // ----- handlers wait for the mutex only while it is held

  predicate SameLocks(s: State, t: State)
  {
    t.locks == s.locks
  }

  lemma FreeHandlers(cfg: Config, s: State, leg: Leg, allow: bool, env: Env)
    requires !s.locks.held
    ensures SameLocks(s, HandleFailure(cfg, s, leg, allow, env).0)
    ensures SameLocks(s, FailFatal(s)) && SameLocks(s, ScheduleReconnect(cfg, s))
  {
  }

  lemma FreeOnClose(cfg: Config, s: State, leg: Leg, code: int, remote: bool, env: Env)
    requires !s.locks.held
    ensures SameLocks(s, OnClose(cfg, s, leg, code, remote, env))
  {
    var allow := remote && !s.ctl.userClosed;
    FreeHandlers(cfg, s, leg, allow, env);
    FreeHandlers(cfg, WithStatus(NoSession(HandleFailure(cfg, s, leg, allow, env).0), Closed), leg, allow, env);
  }

  lemma FreeError(cfg: Config, s: State, leg: Leg, env: Env)
    requires !s.locks.held
    ensures var after := HandleFailure(cfg, s, leg, true, env).0;
            SameLocks(s, after) && SameLocks(s, FailFatal(s)) && SameLocks(s, FailFatal(after))
            && SameLocks(s, ScheduleReconnect(cfg, NoSession(after)))
  {
    FreeHandlers(cfg, s, leg, true, env);
    var after := HandleFailure(cfg, s, leg, true, env).0;
    FreeHandlers(cfg, after, leg, true, env);
    FreeHandlers(cfg, NoSession(after), leg, true, env);
  }

  lemma FreeOnOpen(s: State, leg: Leg)
    requires !s.locks.held && !s.locks.halted
    ensures SameLocks(s, OnOpen(s, leg))
  {
  }

  // ----- one callback of the TCP worker while another thread joins it

  /** A joining close is under way. */
  predicate InJoin(s: State)
  {
    s.locks.held && !s.locks.halted && !s.race.delayPending
  }

  /** A failed alternative is forgotten while QUIC is still on its way. */
  predicate Forgotten(cfg: Config, s: State, env: Env)
  {
    && cfg.implementation == Mixed && !s.race.sessionOpen && IsAlt(s.race, Curl)
    && (env.quicState.QuicConnecting? || env.quicState.QuicOpen?)
  }

  /** A failed TCP leg leads to a reconnect, and so to another close. */
  predicate WantsReconnect(cfg: Config, s: State, env: Env)
  {
    !s.ctl.userClosed && !s.ctl.suppress && !Forgotten(cfg, s, env)
  }

  predicate FatalAnswer(response: Response)
  {
    response.Answer? && response.code != OK_CODE && (IsTokenCode(response.code) || response.important)
  }

  /** What ends a pending shutdown when it is heard on the leg that serves the session. */
  predicate EndsShutdown(s: State, response: Response)
  {
    match response
    case Unreadable => false
    case Other(id) => s.ctl.leaveId != 0 && id == s.ctl.leaveId
    case Answer(id, _, _) => FatalAnswer(response) || (s.ctl.leaveId != 0 && id == s.ctl.leaveId)
  }

  predicate OpenWaits(s: State)
  {
    IsCandidate(s.race, Curl)
    && (s.ctl.userClosed || (s.race.hasAlt && (s.race.primary == Curl || s.race.sessionOpen)))
  }

  predicate CloseWaits(cfg: Config, s: State, code: int, env: Env)
  {
    IsCandidate(s.race, Curl) && (IsTokenCode(code) || WantsReconnect(cfg, s, env))
  }

  predicate ErrorWaits(cfg: Config, s: State, error: CurlError, env: Env)
  {
    IsCandidate(s.race, Curl)
    && match error
       case CurlToken => true
       case CurlSecurity => true
       case CurlTimedOut => !Forgotten(cfg, s, env)
       case CurlNeverConnected => !Forgotten(cfg, s, env)
       case CurlOther => WantsReconnect(cfg, s, env)
  }

  predicate HearWaits(s: State, response: Response)
  {
    s.race.primary == Curl && s.race.sessionOpen
    && (FatalAnswer(response) || (s.ctl.closing && EndsShutdown(s, response)))
  }

  /** The callback closes the WebSocket, and so waits for the mutex. */
  predicate Waits(cfg: Config, s: State, a: Arrival, env: Env)
  {
    match a
    case Opens => OpenWaits(s)
    case Closes(code, _) => CloseWaits(cfg, s, code, env)
    case Fails(error) => ErrorWaits(cfg, s, error, env)
    case Hears(response) => HearWaits(s, response)
    case Lands => false
  }

  lemma OpenWaitsIff(s: State)
    requires InJoin(s)
    ensures OnOpen(s, Curl).locks == s.locks.(halted := OpenWaits(s))
  {
  }

  lemma CloseWaitsIff(cfg: Config, s: State, code: int, remote: bool, env: Env)
    requires InJoin(s)
    ensures OnClose(cfg, s, Curl, code, remote, env).locks == s.locks.(halted := CloseWaits(cfg, s, code, env))
  {
  }

  lemma ErrorWaitsIff(cfg: Config, s: State, error: CurlError, env: Env)
    requires InJoin(s)
    ensures OnCurlError(cfg, s, error, env).locks == s.locks.(halted := ErrorWaits(cfg, s, error, env))
  {
  }

  lemma HearWaitsIff(s: State, response: Response)
    requires InJoin(s)
    ensures HearOnWorker(s, response).locks == s.locks.(halted := HearWaits(s, response))
  {
  }

  /** A callback of a worker that is being joined never returns exactly when it closes the WebSocket
      itself. */
  lemma CallBackWaitsIff(cfg: Config, s: State, a: Arrival, env: Env)
    requires InJoin(s) && !a.Lands?
    ensures CallBack(cfg, s, a, env).locks == s.locks.(halted := Waits(cfg, s, a, env))
  {
    match a
    case Opens => OpenWaitsIff(s);
    case Closes(code, remote) => CloseWaitsIff(cfg, Ended(s, Curl), code, remote, env);
    case Fails(error) => ErrorWaitsIff(cfg, Ended(s, Curl), error, env);
    case Hears(response) => HearWaitsIff(s, response);
  }

  // ----- the whole of a join

  /** One of the callbacks waits: for the mutex, or behind a landing fallback that does. */
  predicate SomeWaits(cfg: Config, s: State, during: seq<Arrival>, env: Env)
    decreases |during|
  {
    during != []
    && ((if s.locks.landing then !during[0].Lands? else Waits(cfg, s, during[0], env))
        || SomeWaits(cfg, Arrived(cfg, s, during[0], env), during[1..], env))
  }

  lemma ArrivedStaysInJoin(cfg: Config, s: State, a: Arrival, env: Env)
    requires InJoin(s)
    ensures !Arrived(cfg, s, a, env).race.delayPending
    ensures var t := Arrived(cfg, s, a, env);
            t.locks == s.locks.(landing := t.locks.landing,
              halted := if s.locks.landing then !a.Lands? else Waits(cfg, s, a, env))
  {
    if !a.Lands? {
      CallBackWaitsIff(cfg, s, a, env);
    }
  }

  lemma {:induction false} AllArrivedWaitsIff(cfg: Config, s: State, during: seq<Arrival>, env: Env)
    requires InJoin(s)
    ensures var t := AllArrived(cfg, s, during, env);
            t.locks == s.locks.(landing := t.locks.landing, halted := SomeWaits(cfg, s, during, env))
    ensures !AllArrived(cfg, s, during, env).race.delayPending
    decreases |during|
  {
    if during != [] {
      var next := Arrived(cfg, s, during[0], env);
      ArrivedStaysInJoin(cfg, s, during[0], env);
      if !next.locks.halted {
        AllArrivedWaitsIff(cfg, next, during[1..], env);
      }
    }
  }

  /** The report of the end waits, likewise. */
  predicate ReportWaits(cfg: Config, s: State, env: Env)
  {
    s.wires.curlDuty != Told && (s.locks.landing || CloseWaits(cfg, s, 0, env))
  }

  /** What comes in during a join of the TCP worker, if there is one to join. */
  function Arrivals(s: State, env: Env): seq<Arrival>
  {
    if s.wires.curlWorker then env.during else []
  }

  /** A joining close does not return. */
  predicate JoinBlocks(cfg: Config, s: State, env: Env)
  {
    SomeWaits(cfg, Held(Cut(s)), Arrivals(s, env), env) || ReportWaits(cfg, Joining(cfg, Cut(s), env), env)
  }

  lemma CloseCurlBlocksIff(cfg: Config, s: State, env: Env)
    requires s.locks == UNLOCKED
    ensures CloseCurl(cfg, Cut(s), env).locks.halted <==> JoinBlocks(cfg, s, env)
    ensures !JoinBlocks(cfg, s, env) ==> CloseCurl(cfg, Cut(s), env).locks == UNLOCKED
    ensures !CloseCurl(cfg, Cut(s), env).locks.died
  {
    AllArrivedWaitsIff(cfg, Held(Cut(s)), Arrivals(s, env), env);
    var joined := Joining(cfg, Cut(s), env);
    if !joined.locks.halted && !joined.locks.landing {
      CloseWaitsIff(cfg, CurlJoined(joined), 0, false, env);
    }
  }

  /** A joining close does not return exactly when a callback of the worker waits during the join, or
      the report of its end does; otherwise it leaves every lock free. */
  lemma CloseJoinBlocksIff(cfg: Config, s: State, env: Env)
    requires s.locks == UNLOCKED
    ensures CloseJoin(cfg, s, env).locks.halted <==> JoinBlocks(cfg, s, env)
    ensures !JoinBlocks(cfg, s, env) ==> CloseJoin(cfg, s, env).locks == UNLOCKED
    ensures !CloseJoin(cfg, s, env).locks.died
  {
    CloseCurlBlocksIff(cfg, s, env);
    var curl := CloseCurl(cfg, Cut(s), env);
    if !curl.locks.halted {
      FreeOnClose(cfg, QuicJoined(curl), Quic, 0, false, env);
    }
  }

  // ----- the same without the states in between

  predicate IsEnd(a: Arrival)
  {
    a.Closes? || a.Fails?
  }

  predicate OpenNow(open: bool, a: Arrival)
  {
    if a.Opens? then true else if IsEnd(a) then false else open
  }

  /** Whether a session over TCP is open, by the callbacks so far. */
  predicate OpenAfter(open: bool, before: seq<Arrival>)
    decreases |before|
  {
    if before == [] then open else OpenAfter(OpenNow(open, before[0]), before[1..])
  }

  predicate BlocksAt(s: State, during: seq<Arrival>, k: nat)
    requires k < |during|
  {
    match during[k]
    case Opens => s.ctl.userClosed
    case Closes(code, _) => IsTokenCode(code) || !(s.ctl.userClosed || s.ctl.suppress)
    case Fails(error) => !error.CurlOther? || !(s.ctl.userClosed || s.ctl.suppress)
    case Hears(response) =>
      OpenAfter(s.race.sessionOpen, during[..k])
      && (FatalAnswer(response) || (s.ctl.closing && EndsShutdown(s, response)))
    case Lands => false
  }

  predicate SomeBlocks(s: State, during: seq<Arrival>)
  {
    exists k :: 0 <= k < |during| && BlocksAt(s, during, k)
  }

  predicate CallbacksOnly(during: seq<Arrival>)
  {
    forall k :: 0 <= k < |during| ==> !during[k].Lands?
  }

  predicate NoneEnds(during: seq<Arrival>)
  {
    forall k :: 0 <= k < |during| ==> !IsEnd(during[k])
  }

  /** What a callback that does not wait leaves of all that decides about the next. */
  predicate Decides(s: State, t: State, a: Arrival)
  {
    && t.race.primary == s.race.primary && !t.race.hasAlt && !t.race.delayPending && t.locks == s.locks
    && t.ctl.userClosed == s.ctl.userClosed && t.ctl.suppress == s.ctl.suppress
    && t.ctl.closing == s.ctl.closing && t.ctl.leaveId == s.ctl.leaveId
    && (s.race.primary == Curl ==> t.race.sessionOpen == OpenNow(s.race.sessionOpen, a))
    && (t.wires.curlDuty == Told <==> s.wires.curlDuty == Told || IsEnd(a))
  }

  lemma OneDecides(cfg: Config, s: State, a: Arrival, env: Env)
    requires InJoin(s) && !s.locks.landing && !s.race.hasAlt && !a.Lands? && !Waits(cfg, s, a, env)
    ensures Decides(s, Arrived(cfg, s, a, env), a)
  {
    ArrivedStaysInJoin(cfg, s, a, env);
  }

  lemma BlocksLater(s: State, t: State, during: seq<Arrival>)
    requires during != [] && s.race.primary == Curl && Decides(s, t, during[0])
    ensures SomeBlocks(s, during) <==> BlocksAt(s, during, 0) || SomeBlocks(t, during[1..])
  {
    forall k | 0 < k < |during|
      ensures BlocksAt(s, during, k) <==> BlocksAt(t, during[1..], k - 1)
    {
      assert during[..k][1..] == during[1..][..k - 1] && during[..k][0] == during[0];
    }
    if SomeBlocks(s, during) {
      var k :| 0 <= k < |during| && BlocksAt(s, during, k);
      assert k > 0 ==> BlocksAt(t, during[1..], k - 1);
    }
    if SomeBlocks(t, during[1..]) {
      var k :| 0 <= k < |during[1..]| && BlocksAt(t, during[1..], k);
      assert BlocksAt(s, during, k + 1);
    }
  }

  /** A leg that does not count is not heard, so that nothing waits. */
  lemma {:induction false} SomeWaitsIff(cfg: Config, s: State, during: seq<Arrival>, env: Env)
    requires InJoin(s) && !s.locks.landing && !s.race.hasAlt && CallbacksOnly(during)
    ensures SomeWaits(cfg, s, during, env) <==> s.race.primary == Curl && SomeBlocks(s, during)
    ensures !SomeWaits(cfg, s, during, env) ==>
              var t := AllArrived(cfg, s, during, env);
              t.race.primary == s.race.primary && !t.race.hasAlt && t.locks == s.locks
              && t.ctl.userClosed == s.ctl.userClosed && t.ctl.suppress == s.ctl.suppress
              && (t.wires.curlDuty == Told <==> s.wires.curlDuty == Told || !NoneEnds(during))
    decreases |during|
  {
    if during != [] {
      var next := Arrived(cfg, s, during[0], env);
      assert during[..0] == [];
      assert Waits(cfg, s, during[0], env) <==> s.race.primary == Curl && BlocksAt(s, during, 0);
      if !Waits(cfg, s, during[0], env) {
        OneDecides(cfg, s, during[0], env);
        SomeWaitsIff(cfg, next, during[1..], env);
        if s.race.primary == Curl {
          BlocksLater(s, next, during);
        }
        EndsLater(during);
      }
    }
  }

  lemma EndsLater(during: seq<Arrival>)
    requires during != []
    ensures NoneEnds(during) <==> !IsEnd(during[0]) && NoneEnds(during[1..])
  {
    if !IsEnd(during[0]) && NoneEnds(during[1..]) {
      forall k | 0 <= k < |during|
        ensures !IsEnd(during[k])
      {
        assert k > 0 ==> during[k] == during[1..][k - 1];
      }
    }
  }

  /** When no fallback lands, a joining close does not return exactly when TCP is the primary leg and
      either a callback during the join blocks, or the worker has not told its end and the application
      has neither closed nor been denied reconnects. A disconnect while TCP connects is one of these:
      the worker reports open, and the application has closed. */
  lemma JoinBlocksIff(cfg: Config, s: State, env: Env)
    requires s.locks == UNLOCKED && CallbacksOnly(Arrivals(s, env))
    ensures JoinBlocks(cfg, s, env)
       <==> s.race.primary == Curl
            && (SomeBlocks(s, Arrivals(s, env))
                || (s.wires.curlDuty != Told && NoneEnds(Arrivals(s, env))
                    && !s.ctl.userClosed && !s.ctl.suppress))
  {
    var start, during := Held(Cut(s)), Arrivals(s, env);
    SomeWaitsIff(cfg, start, during, env);
    AllArrivedWaitsIff(cfg, start, during, env);
    assert forall k :: 0 <= k < |during| ==> BlocksAt(start, during, k) == BlocksAt(s, during, k);
  }

  // ----- a fallback that lands first

  lemma {:induction false} LandedWaitsIff(cfg: Config, s: State, during: seq<Arrival>, env: Env)
    requires s.locks.landing && !s.locks.halted
    ensures SomeWaits(cfg, s, during, env) <==> !(forall k :: 0 <= k < |during| ==> during[k].Lands?)
    ensures !SomeWaits(cfg, s, during, env) ==> AllArrived(cfg, s, during, env) == s
    decreases |during|
  {
    if during != [] && during[0].Lands? {
      LandedWaitsIff(cfg, s, during[1..], env);
      assert forall k :: 0 < k < |during| ==> during[k] == during[1..][k - 1];
      assert forall k :: 0 <= k < |during[1..]| ==> during[1..][k] == during[k + 1];
    }
  }

  /** A fallback that lands while another thread joins the worker, and finds the user gone or a session
      open, closes what it opened with the race mutex held. The join does not return exactly when
      anything else calls back, or the worker has not told its end. */
  lemma LandingBlocksIff(cfg: Config, s: State, env: Env)
    requires s.locks == UNLOCKED && cfg.implementation == Mixed
    requires s.wires.curlWorker && env.during != [] && env.during[0].Lands?
    requires s.ctl.userClosed || s.race.sessionOpen
    ensures JoinBlocks(cfg, s, env)
       <==> s.wires.curlDuty != Told || !(forall k :: 0 <= k < |env.during| ==> env.during[k].Lands?)
  {
    var start, during := Held(Cut(s)), env.during;
    var landed := Arrived(cfg, start, during[0], env);
    LandedWaitsIff(cfg, landed, during[1..], env);
    AllArrivedWaitsIff(cfg, start, during, env);
    assert forall k :: 0 < k < |during| ==> during[k] == during[1..][k - 1];
    assert forall k :: 0 <= k < |during[1..]| ==> during[1..][k] == during[k + 1];
  }

  // ----- every step

  predicate JoinsItself(s: State, leg: Leg, response: Response)
  {
    leg == s.race.primary && s.race.sessionOpen && s.ctl.closing && EndsShutdown(s, response)
  }

  predicate Halts(cfg: Config, s: State, e: Event)
  {
    match e
    case AppConnect(url, env) => JoinBlocks(cfg, Stopped(Aimed(s, url)), env)
    case AppConnectBest(url, env) => JoinBlocks(cfg, Stopped(Aimed(ResetCount(s), url)), env)
    case AppDisconnect(leaveId, env) => leaveId == 0 && JoinBlocks(cfg, WaitCancelled(Leaving(s)), env)
    case ReconnectTimer(gen, env) =>
      gen in s.timers.reconnects && s.timers.reconnectGen == gen && !s.ctl.userClosed
      && s.timers.reconnects[gen] != ""
      && JoinBlocks(cfg, Stopped(WithStatus(ReconnectTaken(s, gen), Connecting)), env)
    case CloseTimer(gen, env) =>
      s.timers.closeGen == gen && s.ctl.closing && JoinBlocks(cfg, WaitCancelled(CloseTaken(s, gen)), env)
    case Received(leg, response, _) => JoinsItself(s, leg, response)
    case _ => false
  }

  function NoEnv(): Env
  {
    Env(QuicClosed, Started, [])
  }

  lemma BeginConnectHaltsIff(cfg: Config, s: State, url: string, env: Env)
    requires s.locks == UNLOCKED
    ensures var t := BeginConnect(cfg, s, url, env);
            !t.locks.died && (t.locks.halted <==> JoinBlocks(cfg, Stopped(s), env))
            && (!t.locks.halted ==> t.locks == UNLOCKED)
  {
    CloseJoinBlocksIff(cfg, Stopped(s), env);
    var ready := Prepared(cfg, s, url, env);
    if env.opening.Failed? && !ready.locks.halted {
      FreeError(cfg, Ended(ready, Quic), Quic, env);
    }
  }

  lemma TimerHaltsIff(cfg: Config, s: State, e: Event)
    requires s.locks == UNLOCKED
    requires Enabled(s, e) && (e.DelayTimer? || e.ReconnectTimer? || e.CloseTimer? || e.KeepaliveTimer?)
    ensures var t := Step(cfg, s, e);
            !t.locks.died && (t.locks.halted <==> Halts(cfg, s, e)) && (!t.locks.halted ==> t.locks == UNLOCKED)
  {
    match e
    case DelayTimer(gen, env) =>
    case ReconnectTimer(gen, env) =>
      BeginConnectHaltsIff(cfg, WithStatus(ReconnectTaken(s, gen), Connecting), s.timers.reconnects[gen], env);
    case CloseTimer(gen, env) => CloseJoinBlocksIff(cfg, WaitCancelled(CloseTaken(s, gen)), env);
    case KeepaliveTimer(gen) => FreeHandlers(cfg, KeepaliveTaken(s, gen), Curl, false, NoEnv());
  }

  /** Joining closes are meant for the application thread. A receive callback makes one, of the very
      thread it runs on, exactly when it hears, on the leg that serves the session, what a pending
      shutdown waits for or a fatal answer while one is pending. It does not return: over TCP the
      process ends, because std::thread::join of oneself throws and nothing catches it. */
  lemma JoinsInCallbackIff(cfg: Config, s: State, leg: Leg, response: Response, env: Env)
    requires s.locks == UNLOCKED
    ensures var t := OnRecv(cfg, s, leg, response, env);
      && (t.locks.halted <==> JoinsItself(s, leg, response))
      && (t.locks.died <==> JoinsItself(s, leg, response) && leg == Curl)
      && (!t.locks.halted ==> t.locks == UNLOCKED)
  {
    FreeHandlers(cfg, Heard(s, leg), leg, false, NoEnv());
    CloseCurlBlocksIff(cfg, WaitCancelled(Heard(s, leg)), env);
  }

  /** For every step, with everything that may come in while it joins the TCP worker: it does not
      return exactly when it makes a joining close that blocks, or is a receive callback that hears what
      a pending shutdown waits for; otherwise it leaves every lock free. */
  lemma StepHaltsIff(cfg: Config, s: State, e: Event)
    requires s.locks == UNLOCKED && Enabled(s, e)
    ensures Step(cfg, s, e).locks.halted <==> Halts(cfg, s, e)
    ensures !Step(cfg, s, e).locks.halted ==> Step(cfg, s, e).locks == UNLOCKED
  {
    match e
    case AppConnect(url, env) => BeginConnectHaltsIff(cfg, Aimed(s, url), url, env);
    case AppConnectBest(url, env) => BeginConnectHaltsIff(cfg, Aimed(ResetCount(s), url), url, env);
    case AppDisconnect(leaveId, env) => CloseJoinBlocksIff(cfg, WaitCancelled(Leaving(s)), env);
    case AppReconnect => FreeHandlers(cfg, s, Curl, false, NoEnv());
    case Opened(leg) => FreeOnOpen(s, leg);
    case LegClosed(leg, code, remote, env) => FreeOnClose(cfg, Ended(s, leg), leg, code, remote, env);
    case CurlFailed(error, env) => FreeError(cfg, Ended(s, Curl), Curl, env);
    case QuicFailed(error, env) => FreeError(cfg, Ended(s, Quic), Quic, env);
    case Received(leg, response, env) => JoinsInCallbackIff(cfg, s, leg, response, env);
    case _ => TimerHaltsIff(cfg, s, e);
  }

  /** Between steps every lock is free, unless a step has not returned. */
  predicate Free(s: State)
  {
    s.locks.halted || s.locks == UNLOCKED
  }
}
