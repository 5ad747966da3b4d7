/**
 When a joining close does not return, for any list of what comes in while it joins, landing fallbacks
 anywhere in it included. The condition is on the state before and the list: five facts are followed
 through the list, and no handler is run.
 */
module SignalLandings {
  import opened SignalTransport
  import opened SignalLocks

  /** `alt`: TCP races as an alternative. `told`: the worker has told its end. `landing`: a fallback waits
      with the race mutex held. */
  datatype Scene = Scene(primary: Leg, alt: bool, open: bool, told: bool, landing: bool)

  /** The scene at the beginning of a join, which has cut off any alternative. */
  function Beginning(s: State): Scene
  {
    Scene(s.race.primary, false, s.race.sessionOpen, s.wires.curlDuty == Told, false)
  }

  /** What TCP reports is heard. */
  predicate Counts(sc: Scene)
  {
    sc.primary == Curl || sc.alt
  }

  predicate Races(cfg: Config, sc: Scene)
  {
    cfg.implementation == Mixed && sc.alt && sc.primary == Quic && !sc.open
  }

  /** A failure of TCP that is heard calls for a reconnect. */
  predicate Wanted(cfg: Config, s: State, env: Env, sc: Scene)
  {
    !s.ctl.userClosed && !s.ctl.suppress && !Excused(cfg, env, sc)
  }

  /** Unless TCP was only racing, and QUIC is still on its way. */
  predicate Excused(cfg: Config, env: Env, sc: Scene)
  {
    Races(cfg, sc) && (env.quicState.QuicConnecting? || env.quicState.QuicOpen?)
  }

  /** What comes in waits for ever. */
  predicate Stuck(cfg: Config, s: State, env: Env, sc: Scene, a: Arrival)
  {
    if sc.landing then !a.Lands?
    else
      match a
      case Opens => Counts(sc) && (s.ctl.userClosed || (sc.alt && (sc.primary == Curl || sc.open)))
      case Closes(code, _) => Counts(sc) && (IsTokenCode(code) || Wanted(cfg, s, env, sc))
      case Fails(error) => Counts(sc) && FailureSticks(cfg, s, env, sc, error)
      case Hears(response) =>
        sc.primary == Curl && sc.open && (FatalAnswer(response) || (s.ctl.closing && EndsShutdown(s, response)))
      case Lands => false
  }

  predicate FailureSticks(cfg: Config, s: State, env: Env, sc: Scene, error: CurlError)
  {
    match error
    case CurlOther => Wanted(cfg, s, env, sc)
    case CurlToken => true
    case CurlSecurity => true
    case _ => !Excused(cfg, env, sc)
  }

  /** The scene after something that does not wait. */
  function Next(cfg: Config, s: State, sc: Scene, a: Arrival): Scene
  {
    if sc.landing then sc
    else
      match a
      case Opens => if Counts(sc) then sc.(primary := Curl, alt := false, open := true) else sc
      case Closes(_, _) => NextEnded(cfg, sc)
      case Fails(_) => NextEnded(cfg, sc)
      case Hears(_) => sc
      case Lands =>
        if cfg.implementation != Mixed then sc
        else if s.ctl.userClosed || sc.open then sc.(landing := true)
        else sc.(alt := true)
  }

  function NextEnded(cfg: Config, sc: Scene): Scene
  {
    if Counts(sc) then sc.(told := true, open := false, alt := sc.alt && !Races(cfg, sc)) else sc.(told := true)
  }

  /** Something waits, or at the end the report does. */
  predicate Sticks(cfg: Config, s: State, env: Env, sc: Scene, during: seq<Arrival>)
    decreases |during|
  {
    if during == [] then !sc.told && (sc.landing || (Counts(sc) && Wanted(cfg, s, env, sc)))
    else Stuck(cfg, s, env, sc, during[0]) || Sticks(cfg, s, env, Next(cfg, s, sc, during[0]), during[1..])
  }

  // ----- the scene is what the handlers see

  predicate Shows(s: State, u: State, sc: Scene)
  {
    && sc == Scene(u.race.primary, u.race.hasAlt, u.race.sessionOpen, u.wires.curlDuty == Told, u.locks.landing)
    && u.ctl.userClosed == s.ctl.userClosed && u.ctl.suppress == s.ctl.suppress
    && u.ctl.closing == s.ctl.closing && u.ctl.leaveId == s.ctl.leaveId
  }

  lemma StuckIff(cfg: Config, s: State, u: State, sc: Scene, a: Arrival, env: Env)
    requires InJoin(u) && Shows(s, u, sc)
    ensures Stuck(cfg, s, env, sc, a) <==> if u.locks.landing then !a.Lands? else Waits(cfg, u, a, env)
  {
  }

  lemma OpenShows(s: State, u: State, sc: Scene)
    requires InJoin(u) && Shows(s, u, sc) && !OpenWaits(u)
    ensures Shows(s, OnOpen(u, Curl), if Counts(sc) then sc.(primary := Curl, alt := false, open := true) else sc)
  {
  }

  lemma CloseShows(cfg: Config, s: State, u: State, sc: Scene, code: int, remote: bool, env: Env)
    requires InJoin(u) && Shows(s, u, sc) && !CloseWaits(cfg, u, code, env)
    ensures Shows(s, OnClose(cfg, Ended(u, Curl), Curl, code, remote, env), NextEnded(cfg, sc))
  {
  }

  lemma ErrorShows(cfg: Config, s: State, u: State, sc: Scene, error: CurlError, env: Env)
    requires InJoin(u) && Shows(s, u, sc) && !ErrorWaits(cfg, u, error, env)
    ensures Shows(s, OnCurlError(cfg, Ended(u, Curl), error, env), NextEnded(cfg, sc))
  {
  }

  lemma HearShows(s: State, u: State, sc: Scene, response: Response)
    requires InJoin(u) && Shows(s, u, sc) && !HearWaits(u, response)
    ensures Shows(s, HearOnWorker(u, response), sc)
  {
  }

  lemma NextShows(cfg: Config, s: State, u: State, sc: Scene, a: Arrival, env: Env)
    requires InJoin(u) && Shows(s, u, sc) && !Stuck(cfg, s, env, sc, a)
    ensures Shows(s, Arrived(cfg, u, a, env), Next(cfg, s, sc, a))
  {
    StuckIff(cfg, s, u, sc, a, env);
    if !u.locks.landing {
      match a
      case Opens => OpenShows(s, u, sc);
      case Closes(code, remote) =>
        CallBackWaitsIff(cfg, u, a, env);
        CloseShows(cfg, s, u, sc, code, remote, env);
      case Fails(error) =>
        CallBackWaitsIff(cfg, u, a, env);
        ErrorShows(cfg, s, u, sc, error, env);
      case Hears(response) => HearShows(s, u, sc, response);
      case Lands =>
    }
  }

  lemma {:induction false} SticksIff(cfg: Config, s: State, u: State, sc: Scene, during: seq<Arrival>, env: Env)
    requires InJoin(u) && Shows(s, u, sc)
    ensures Sticks(cfg, s, env, sc, during)
       <==> SomeWaits(cfg, u, during, env) || ReportWaits(cfg, AllArrived(cfg, u, during, env), env)
    decreases |during|
  {
    if during != [] {
      StuckIff(cfg, s, u, sc, during[0], env);
      if !Stuck(cfg, s, env, sc, during[0]) {
        NextShows(cfg, s, u, sc, during[0], env);
        ArrivedStaysInJoin(cfg, u, during[0], env);
        SticksIff(cfg, s, Arrived(cfg, u, during[0], env), Next(cfg, s, sc, during[0]), during[1..], env);
      }
    }
  }

  /** Whatever comes in, and wherever a fallback lands in between: a joining close does not return exactly
      when the five facts, followed through the list, come to something that waits. */
  lemma AnyJoinBlocksIff(cfg: Config, s: State, env: Env)
    requires s.locks == UNLOCKED
    ensures JoinBlocks(cfg, s, env) <==> Sticks(cfg, s, env, Beginning(s), Arrivals(s, env))
  {
    SticksIff(cfg, s, Held(Cut(s)), Beginning(s), Arrivals(s, env), env);
  }
}
