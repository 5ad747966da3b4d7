/**
 The transport controller of Signal.cpp as a state machine: a QUIC leg raced against a TCP leg,
 reconnects, keepalive, and a shutdown that waits for an answer. Timers are threads that sleep and
 then look at a generation counter; they are never killed. One callback, timer body or call of the
 application is one step, and what libraries do is the step's environment.
 */
module SignalTransport {

  datatype Leg = Curl | Quic

  datatype Implementation = OnlyCurl | OnlyQuic | Mixed

  datatype Config = Config(implementation: Implementation, mixedDelay: int, maxTimes: int)

  datatype Status = Idle | Connecting | Open | Closing | Closed

  datatype QuicState = QuicConnecting | QuicOpen | QuicClosing | QuicClosed

  datatype CurlError = CurlToken | CurlSecurity | CurlTimedOut | CurlNeverConnected | CurlOther

  datatype QuicError = QuicToken | QuicSsl | QuicTimeout | QuicInvalidUrl | QuicOther

  datatype Opening = Started | Refused | Failed(error: QuicError)

  /** A response as the controller sees it. `important` tells whether the id is one of the
      important requests. */
  datatype Response =
    | Unreadable
    | Answer(id: nat, code: nat, important: bool)
    | Other(id: nat)

  /** What may come in while the TCP worker is being joined: its own callbacks, and the second half of
      a TCP fallback that another thread has begun. */
  datatype Arrival =
    | Opens
    | Closes(code: int, remote: bool)
    | Fails(error: CurlError)
    | Hears(response: Response)
    | Lands

  /** What comes from outside during a step: the state of the QUIC socket, how opening it goes, and
      what comes in, in order, while the TCP worker is joined. */
  datatype Env = Env(quicState: QuicState, opening: Opening, during: seq<Arrival>)

  // ----- state

  datatype Race = Race(primary: Leg, hasAlt: bool, sessionOpen: bool, delayPending: bool, delayGen: nat)

  /** What a socket has told its owner: never opened, opened and owing its terminal callback, or told
      (close_called or error_reported). */
  datatype Duty = Unopened | Owing | Told

  /** `curlWorker` tells whether the TCP worker thread is joinable; `overrun` whether it was ever
      replaced unjoined. */
  datatype Wires = Wires(quicDuty: Duty, curlDuty: Duty, curlWorker: bool, overrun: bool, opens: nat)

  /** `held`: a joining close holds the lifecycle mutex of the WebSocket, while the worker is joined and
      its end reported. `landing`: a landing fallback holds the race mutex and waits for that one.
      `halted`: the step does not return, because threads wait for each other or because the process
      has ended (`died`); nothing is said about what follows. */
  datatype Locks = Locks(held: bool, landing: bool, halted: bool, died: bool)

  const UNLOCKED := Locks(false, false, false, false)

  datatype Control = Control(
    userClosed: bool,
    suppress: bool,
    closing: bool,
    leaveId: nat,
    pendingUrl: string,
    serverUrl: string,
    count: nat,
    status: Status)

  datatype Timers = Timers(
    reconnectGen: nat,
    keepaliveGen: nat,
    closeGen: nat,
    delays: set<nat>,
    reconnects: map<nat, string>,
    closes: set<nat>,
    keepalives: set<nat>)

  /** What has happened. `delivered` and `legChanges` start over with each beginConnect; `mark` is how
      many reconnects had been spawned when the counter was last reset. */
  datatype History = History(
    delivered: seq<Leg>,
    legChanges: nat,
    spawned: seq<nat>,
    mark: nat,
    disconnects: nat,
    shutdowns: nat)

  datatype State = State(race: Race, wires: Wires, ctl: Control, timers: Timers, log: History, locks: Locks)

  const FRESH := State(
    Race(Curl, false, false, false, 0),
    Wires(Unopened, Unopened, false, false, 0),
    Control(false, false, false, 0, "", "", 0, Idle),
    Timers(0, 0, 0, {}, map[], {}, {}),
    History([], 0, [], 0, 0, 0),
    UNLOCKED)

  // ----- small pieces

  const TOKEN_EXPIRED: nat := 602
  const TOKEN_INVALID: nat := 603
  const OK_CODE: nat := 200

  predicate IsTokenCode(code: int)
  {
    code == TOKEN_EXPIRED || code == TOKEN_INVALID
  }

  predicate IsAlt(r: Race, leg: Leg)
  {
    r.hasAlt && leg == Curl && r.primary == Quic
  }

  predicate IsCandidate(r: Race, leg: Leg)
  {
    leg == r.primary || IsAlt(r, leg)
  }

  function CancelDelay(r: Race): Race
  {
    r.(delayGen := r.delayGen + 1, delayPending := false)
  }

  /** Nothing races. */
  function Cut(s: State): State
  {
    s.(race := CancelDelay(s.race).(hasAlt := false))
  }

  function CurlOpened(w: Wires): Wires
  {
    w.(curlDuty := Owing, overrun := w.overrun || w.curlWorker, curlWorker := true, opens := w.opens + 1)
  }

  function QuicOpened(w: Wires): Wires
  {
    w.(quicDuty := Owing, opens := w.opens + 1)
  }

  /** A terminal callback has been made. */
  function Ended(s: State, leg: Leg): State
  {
    s.(wires := if leg == Quic then s.wires.(quicDuty := Told) else s.wires.(curlDuty := Told))
  }

  function Halted(s: State): State
  {
    s.(locks := s.locks.(halted := true))
  }

  /** A thread joins itself. std::thread::join throws, nothing catches it, and the process ends. */
  function Died(s: State): State
  {
    s.(locks := s.locks.(halted := true, died := true))
  }

  function StopKeepalive(s: State): State
  {
    s.(timers := s.timers.(keepaliveGen := s.timers.keepaliveGen + 1))
  }

  function NoSession(s: State): State
  {
    s.(race := s.race.(sessionOpen := false))
  }

  function WithStatus(s: State, status: Status): State
  {
    s.(ctl := s.ctl.(status := status))
  }

  /** The TCP leg becomes the primary one. */
  function Promoted(s: State): State
  {
    s.(race := s.race.(primary := Curl, hasAlt := false),
       log := s.log.(legChanges := if s.race.primary == Quic then s.log.legChanges + 1 else s.log.legChanges))
  }

  function WithoutAlt(s: State): State
  {
    s.(race := s.race.(hasAlt := false))
  }

  // ----- failing and reconnecting

  /** A close that joins nothing. It takes the lifecycle mutex of the WebSocket. */
  function CloseAsync(s: State): State
  {
    if s.locks.held then Halted(Cut(s)) else NoSession(Cut(s))
  }

  function Suppressed(s: State): State
  {
    s.(ctl := s.ctl.(suppress := true))
  }

  function Unsuppressed(s: State): State
  {
    s.(ctl := s.ctl.(suppress := false))
  }

  function FailFatal(s: State): State
  {
    CloseAsync(Suppressed(StopKeepalive(s)))
  }

  function GiveUp(s: State): State
  {
    if s.locks.held then FailFatal(s) else WithStatus(FailFatal(s), Closed)
  }

  function CountedUp(s: State): State
  {
    s.(ctl := s.ctl.(count := s.ctl.count + 1))
  }

  function SpawnReconnect(s: State): State
  {
    var t := s.timers;
    var gen := t.reconnectGen + 1;
    s.(timers := t.(reconnectGen := gen, reconnects := t.reconnects[gen := s.ctl.serverUrl]),
       log := s.log.(spawned := s.log.spawned + [gen]))
  }

  function ScheduleReconnect(cfg: Config, s: State): State
  {
    if s.ctl.userClosed || s.ctl.suppress then s
    else if s.ctl.count >= cfg.maxTimes then GiveUp(s)
    else
      var closed := FailFatal(CountedUp(s));
      if s.locks.held then closed else SpawnReconnect(Unsuppressed(closed))
  }

  predicate FallbackAllowed(s: State)
  {
    !s.ctl.userClosed && !s.race.sessionOpen && !s.race.hasAlt
  }

  predicate FallbackOpens(s: State, env: Env)
  {
    FallbackAllowed(s) && !env.quicState.QuicOpen? && s.ctl.pendingUrl != ""
  }

  function StartFallback(s: State, env: Env): State
  {
    if !FallbackAllowed(s) then s
    else if !FallbackOpens(s, env) then s.(race := CancelDelay(s.race))
    else s.(race := CancelDelay(s.race).(hasAlt := true), wires := CurlOpened(s.wires))
  }

  /** The second half of startMixedTcpFallback, under the race mutex, after the TCP leg was opened. */
  function Landed(s: State): State
  {
    if s.ctl.userClosed || s.race.sessionOpen then CloseLanded(s) else s.(race := s.race.(hasAlt := true))
  }

  /** websocket.closeAsync with the race mutex held. */
  function CloseLanded(s: State): State
  {
    if s.locks.held then s.(locks := s.locks.(landing := true)) else s
  }

  /** The state after, and whether the failure ends there. */
  function HandleFailure(cfg: Config, s: State, leg: Leg, allowFallback: bool, env: Env): (State, bool)
  {
    if s.race.sessionOpen || cfg.implementation != Mixed then (s, false)
    else if leg == Quic then
      var cut := s.(race := CancelDelay(s.race));
      if s.race.hasAlt then (if s.race.primary == Quic then Promoted(cut) else WithoutAlt(cut), true)
      else if !allowFallback then (cut, false)
      else
        var tried := StartFallback(cut, env);
        if tried.race.hasAlt then (Promoted(tried), true) else (tried, false)
    else if IsAlt(s.race, leg) then
      (WithoutAlt(s), env.quicState.QuicConnecting? || env.quicState.QuicOpen?)
    else (s, false)
  }

  // ----- callbacks of the sockets

  function OnClose(cfg: Config, s: State, leg: Leg, code: int, remote: bool, env: Env): State
  {
    if !IsCandidate(s.race, leg) then s
    else if IsTokenCode(code) then FailFatal(s)
    else
      var (after, handled) := HandleFailure(cfg, s, leg, remote && !s.ctl.userClosed, env);
      if handled then after else ScheduleReconnect(cfg, WithStatus(NoSession(after), Closed))
  }

  function OnCurlError(cfg: Config, s: State, error: CurlError, env: Env): State
  {
    if !IsCandidate(s.race, Curl) then s
    else if error.CurlToken? || error.CurlSecurity? then FailFatal(s)
    else
      var (after, handled) := HandleFailure(cfg, s, Curl, true, env);
      if handled then after
      else if error.CurlTimedOut? || error.CurlNeverConnected? then FailFatal(after)
      else ScheduleReconnect(cfg, NoSession(after))
  }

  function OnQuicError(cfg: Config, s: State, error: QuicError, env: Env): State
  {
    if !IsCandidate(s.race, Quic) then s
    else if error.QuicToken? || error.QuicSsl? then FailFatal(s)
    else
      var (after, handled) := HandleFailure(cfg, s, Quic, true, env);
      if handled then after
      else if error.QuicTimeout? || error.QuicInvalidUrl? then FailFatal(after)
      else ScheduleReconnect(cfg, NoSession(after))
  }

  function StartKeepalive(s: State): State
  {
    var gen := s.timers.keepaliveGen + 1;
    s.(timers := s.timers.(keepaliveGen := gen, keepalives := s.timers.keepalives + {gen}))
  }

  /** closeAsync on a losing or late leg; that of the WebSocket takes its lifecycle mutex. */
  function CloseLoser(s: State, leg: Leg): State
  {
    if leg == Curl && s.locks.held then Halted(s) else s
  }

  function DeclareWinner(s: State, winner: Leg): State
  {
    var cut := s.(race := CancelDelay(s.race));
    if winner == s.race.primary then (if s.race.hasAlt then CloseLoser(WithoutAlt(cut), Curl) else cut)
    else if IsAlt(s.race, winner) then CloseLoser(Promoted(cut), s.race.primary)
    else cut
  }

  /** The session is open and the race, if there was one, is decided. */
  function Settled(s: State, leg: Leg): State
  {
    var opened1 := s.(race := s.race.(sessionOpen := true));
    if s.race.hasAlt || s.race.delayPending then DeclareWinner(opened1, leg)
    else opened1.(race := CancelDelay(opened1.race))
  }

  function OnOpen(s: State, leg: Leg): State
  {
    if !IsCandidate(s.race, leg) then s
    else if s.ctl.userClosed then
      CloseLoser(NoSession(if IsAlt(s.race, leg) then WithoutAlt(s) else s), leg)
    else if s.race.sessionOpen && IsAlt(s.race, leg) then CloseLoser(WithoutAlt(s), Curl)
    else
      var settled := Settled(s, leg);
      if settled.locks.halted then settled else StartKeepalive(WithStatus(settled, Open))
  }

  // ----- responses

  function ResetCount(s: State): State
  {
    s.(ctl := s.ctl.(count := 0), log := s.log.(mark := |s.log.spawned|))
  }

  predicate AwaitedLeave(s: State, id: nat)
  {
    s.ctl.closing && s.ctl.leaveId != 0 && s.ctl.leaveId == id
  }

  /** What a response means to the connection. */
  datatype Meaning = Fatal | Left | Alive | Nothing

  function Meant(s: State, response: Response): Meaning
  {
    match response
    case Unreadable => Nothing
    case Other(id) => if AwaitedLeave(s, id) then Left else Alive
    case Answer(id, code, important) =>
      if code != OK_CODE && (IsTokenCode(code) || important) then Fatal
      else if AwaitedLeave(s, id) then Left
      else if code == OK_CODE then Alive
      else Nothing
  }

  function Heard(s: State, leg: Leg): State
  {
    s.(log := s.log.(delivered := s.log.delivered + [leg]))
  }

  /** The shutdown waits no longer. */
  function WaitCancelled(s: State): State
  {
    s.(ctl := s.ctl.(closing := false, leaveId := 0),
       timers := s.timers.(closeGen := s.timers.closeGen + 1),
       log := s.log.(shutdowns := s.log.shutdowns + 1))
  }

  /** closeSocketAfterDisconnect on the TCP worker: it waits for the lifecycle mutex, or takes it and
      joins itself. */
  function CloseOnWorker(s: State): State
  {
    var cut := Cut(WaitCancelled(s));
    if s.locks.held then Halted(cut) else Died(cut)
  }

  /** A response heard by the TCP worker. */
  function HandleOnWorker(s: State, response: Response): State
  {
    match Meant(s, response)
    case Fatal => if s.ctl.closing then CloseOnWorker(s) else CloseAsync(s)
    case Left => CloseOnWorker(s)
    case Alive => ResetCount(s)
    case Nothing => s
  }

  function HearOnWorker(s: State, response: Response): State
  {
    if s.race.primary != Curl || !s.race.sessionOpen then s else HandleOnWorker(Heard(s, Curl), response)
  }

  // ----- closing

  function Held(s: State): State
  {
    s.(locks := s.locks.(held := true))
  }

  /** A fallback that has waited for the mutex finds a closed socket and is done. */
  function Released(s: State): State
  {
    s.(locks := s.locks.(held := false, landing := false))
  }

  function CurlJoined(s: State): State
  {
    s.(wires := s.wires.(curlDuty := Told, curlWorker := false))
  }

  function QuicJoined(s: State): State
  {
    s.(wires := s.wires.(quicDuty := Told))
  }

  function CallBack(cfg: Config, s: State, a: Arrival, env: Env): State
  {
    match a
    case Opens => OnOpen(s, Curl)
    case Closes(code, remote) => OnClose(cfg, Ended(s, Curl), Curl, code, remote, env)
    case Fails(error) => OnCurlError(cfg, Ended(s, Curl), error, env)
    case Hears(response) => HearOnWorker(s, response)
    case Lands => if cfg.implementation == Mixed then Landed(s) else s
  }

  /** Every callback begins with the race mutex. */
  function Arrived(cfg: Config, s: State, a: Arrival, env: Env): State
  {
    if !s.locks.landing then CallBack(cfg, s, a, env) else if a.Lands? then s else Halted(s)
  }

  function AllArrived(cfg: Config, s: State, during: seq<Arrival>, env: Env): State
    decreases |during|
  {
    if during == [] || s.locks.halted then s
    else AllArrived(cfg, Arrived(cfg, s, during[0], env), during[1..], env)
  }

  /** The lifecycle mutex is taken, and the worker joined if there is one. */
  function Joining(cfg: Config, s: State, env: Env): State
  {
    AllArrived(cfg, Held(s), if s.wires.curlWorker then env.during else [], env)
  }

  /** The report of a local close, which also begins with the race mutex. */
  function ReportCurl(cfg: Config, s: State, env: Env): State
  {
    if s.locks.landing then Halted(s) else OnClose(cfg, s, Curl, 0, false, env)
  }

  /** WebSocket::close: under its lifecycle mutex it joins the worker and, if the owner has not been
      told, reports a local close. */
  function CloseCurl(cfg: Config, s: State, env: Env): State
  {
    var joined := Joining(cfg, s, env);
    if joined.locks.halted then joined
    else if joined.wires.curlDuty == Told then Released(CurlJoined(joined))
    else
      var told := ReportCurl(cfg, CurlJoined(joined), env);
      if told.locks.halted then told else Released(told)
  }

  /** QuicSocket::close reports without a lock. */
  function CloseQuic(cfg: Config, s: State, env: Env): State
  {
    if s.wires.quicDuty == Told then s else OnClose(cfg, QuicJoined(s), Quic, 0, false, env)
  }

  /** A close of both legs that joins their threads. */
  function CloseJoin(cfg: Config, s: State, env: Env): State
  {
    var curl := CloseCurl(cfg, Cut(s), env);
    if curl.locks.halted then curl else WithoutAlt(NoSession(CloseQuic(cfg, curl, env)))
  }

  function CloseAfterDisconnect(cfg: Config, s: State, env: Env): State
  {
    if s.ctl.closing then CloseJoin(cfg, WaitCancelled(s), env) else s
  }

  /** The same from inside a receive callback of `leg`. QUIC waits for the loop that calls it. */
  function JoinInside(cfg: Config, s: State, leg: Leg, env: Env): State
  {
    if leg == Curl then CloseOnWorker(s) else Halted(CloseCurl(cfg, Cut(WaitCancelled(s)), env))
  }

  function CloseOnFailure(cfg: Config, s: State, leg: Leg, env: Env): State
  {
    if s.ctl.closing then JoinInside(cfg, s, leg, env) else CloseAsync(s)
  }

  function HandleResponse(cfg: Config, s: State, leg: Leg, response: Response, env: Env): State
  {
    match Meant(s, response)
    case Fatal => CloseOnFailure(cfg, s, leg, env)
    case Left => JoinInside(cfg, s, leg, env)
    case Alive => ResetCount(s)
    case Nothing => s
  }

  function OnRecv(cfg: Config, s: State, leg: Leg, response: Response, env: Env): State
  {
    if leg != s.race.primary || !s.race.sessionOpen then s
    else HandleResponse(cfg, Heard(s, leg), leg, response, env)
  }

  /** The worker hears the same whether it is being joined or not. */
  lemma WorkerHears(cfg: Config, s: State, response: Response, env: Env)
    ensures HearOnWorker(s, response) == OnRecv(cfg, s, Curl, response, env)
  {
  }

  // ----- connecting

  function ScheduleFallback(cfg: Config, s: State, env: Env): State
  {
    if cfg.mixedDelay <= 0 then StartFallback(s, env)
    else
      var race := CancelDelay(s.race).(delayPending := true);
      s.(race := race, timers := s.timers.(delays := s.timers.delays + {race.delayGen}))
  }

  /** Sleeping reconnects and the keepalive are superseded. */
  function Superseded(s: State): State
  {
    var t := s.timers;
    s.(timers := t.(reconnectGen := t.reconnectGen + 1, keepaliveGen := t.keepaliveGen + 1))
  }

  function ReadyControl(s: State, url: string): State
  {
    s.(ctl := s.ctl.(suppress := false, userClosed := false, pendingUrl := url))
  }

  function ReadyRace(cfg: Config, s: State): State
  {
    s.(race := s.race.(primary := if cfg.implementation == OnlyCurl then Curl else Quic,
                       sessionOpen := false, hasAlt := false),
       log := s.log.(delivered := [], legChanges := 0))
  }

  function Stopped(s: State): State
  {
    Suppressed(Superseded(s))
  }

  function Prepared(cfg: Config, s: State, url: string, env: Env): State
  {
    var closed := CloseJoin(cfg, Stopped(s), env);
    if closed.locks.halted then closed else ReadyRace(cfg, ReadyControl(closed, url))
  }

  function OpenPrimary(cfg: Config, s: State, env: Env): State
  {
    if cfg.implementation == OnlyCurl then s.(wires := CurlOpened(s.wires))
    else
      match env.opening
      case Refused => s
      case Failed(error) => OnQuicError(cfg, Ended(s, Quic), error, env)
      case Started =>
        var opened1 := s.(wires := QuicOpened(s.wires));
        if cfg.implementation == Mixed then ScheduleFallback(cfg, opened1, env) else opened1
  }

  function BeginConnect(cfg: Config, s: State, url: string, env: Env): State
  {
    var ready := Prepared(cfg, s, url, env);
    if ready.locks.halted then ready else OpenPrimary(cfg, ready, env)
  }

  function Aimed(s: State, url: string): State
  {
    s.(ctl := s.ctl.(serverUrl := url, status := Connecting))
  }

  function Connect(cfg: Config, s: State, url: string, env: Env): State
  {
    BeginConnect(cfg, Aimed(s, url), url, env)
  }

  function ConnectBest(cfg: Config, s: State, url: string, env: Env): State
  {
    Connect(cfg, ResetCount(s), url, env)
  }

  function Leaving(s: State): State
  {
    Superseded(s).(ctl := s.ctl.(userClosed := true, status := Closing, closing := true),
                   log := s.log.(disconnects := s.log.disconnects + 1))
  }

  function AwaitLeave(s: State, leaveId: nat): State
  {
    var gen := s.timers.closeGen + 1;
    s.(ctl := s.ctl.(leaveId := leaveId),
       timers := s.timers.(closeGen := gen, closes := s.timers.closes + {gen}))
  }

  /** `leaveId` is the id of the leave request, or zero when it could not be sent. */
  function Disconnect(cfg: Config, s: State, leaveId: nat, env: Env): State
  {
    if leaveId == 0 then CloseAfterDisconnect(cfg, Leaving(s), env) else AwaitLeave(Leaving(s), leaveId)
  }

  // ----- timers

  function DelayTaken(s: State, gen: nat): State
  {
    s.(timers := s.timers.(delays := s.timers.delays - {gen}))
  }

  function DelayFires(s: State, gen: nat, env: Env): State
  {
    var fired := DelayTaken(s, gen);
    if s.race.delayGen != gen then fired
    else StartFallback(fired.(race := s.race.(delayPending := false)), env)
  }

  function ReconnectTaken(s: State, gen: nat): State
  {
    s.(timers := s.timers.(reconnects := s.timers.reconnects - {gen}))
  }

  function ReconnectFires(cfg: Config, s: State, gen: nat, env: Env): State
    requires gen in s.timers.reconnects
  {
    var url := s.timers.reconnects[gen];
    var fired := ReconnectTaken(s, gen);
    if s.timers.reconnectGen != gen || s.ctl.userClosed || url == "" then fired
    else BeginConnect(cfg, WithStatus(fired, Connecting), url, env)
  }

  function CloseTaken(s: State, gen: nat): State
  {
    s.(timers := s.timers.(closes := s.timers.closes - {gen}))
  }

  function CloseFires(cfg: Config, s: State, gen: nat, env: Env): State
  {
    if s.timers.closeGen != gen then CloseTaken(s, gen) else CloseAfterDisconnect(cfg, CloseTaken(s, gen), env)
  }

  function KeepaliveTaken(s: State, gen: nat): State
  {
    s.(timers := s.timers.(keepalives := s.timers.keepalives - {gen}))
  }

  /** The keepalive thread ends: it is superseded, or no response came in time. */
  function KeepaliveFires(cfg: Config, s: State, gen: nat): State
  {
    if s.timers.keepaliveGen != gen || s.ctl.userClosed then KeepaliveTaken(s, gen)
    else ScheduleReconnect(cfg, KeepaliveTaken(s, gen))
  }

  // ----- steps

  datatype Event =
    | AppConnect(url: string, env: Env)
    | AppConnectBest(url: string, env: Env)
    | AppDisconnect(leaveId: nat, env: Env)
    | AppReconnect
    | Opened(leg: Leg)
    | LegClosed(leg: Leg, code: int, remote: bool, env: Env)
    | CurlFailed(curlError: CurlError, env: Env)
    | QuicFailed(quicError: QuicError, env: Env)
    | Received(leg: Leg, response: Response, env: Env)
    | DelayTimer(gen: nat, env: Env)
    | ReconnectTimer(gen: nat, env: Env)
    | CloseTimer(gen: nat, env: Env)
    | KeepaliveTimer(gen: nat)

  /** A run ends with a step that never ends. */
  predicate Enabled(s: State, e: Event)
  {
    && !s.locks.halted
    && match e
       case DelayTimer(gen, _) => gen in s.timers.delays
       case ReconnectTimer(gen, _) => gen in s.timers.reconnects
       case CloseTimer(gen, _) => gen in s.timers.closes
       case KeepaliveTimer(gen) => gen in s.timers.keepalives
       case _ => true
  }

  function Step(cfg: Config, s: State, e: Event): State
    requires Enabled(s, e)
  {
    match e
    case AppConnect(url, env) => Connect(cfg, s, url, env)
    case AppConnectBest(url, env) => ConnectBest(cfg, s, url, env)
    case AppDisconnect(leaveId, env) => Disconnect(cfg, s, leaveId, env)
    case AppReconnect => ScheduleReconnect(cfg, s)
    case Opened(leg) => OnOpen(s, leg)
    case LegClosed(leg, code, remote, env) => OnClose(cfg, Ended(s, leg), leg, code, remote, env)
    case CurlFailed(error, env) => OnCurlError(cfg, Ended(s, Curl), error, env)
    case QuicFailed(error, env) => OnQuicError(cfg, Ended(s, Quic), error, env)
    case Received(leg, response, env) => OnRecv(cfg, s, leg, response, env)
    case DelayTimer(gen, env) => DelayFires(s, gen, env)
    case ReconnectTimer(gen, env) => ReconnectFires(cfg, s, gen, env)
    case CloseTimer(gen, env) => CloseFires(cfg, s, gen, env)
    case KeepaliveTimer(gen) => KeepaliveFires(cfg, s, gen)
  }

  predicate Runs(cfg: Config, s: State, trace: seq<Event>)
    decreases |trace|
  {
    trace == [] || (Enabled(s, trace[0]) && Runs(cfg, Step(cfg, s, trace[0]), trace[1..]))
  }

  function After(cfg: Config, s: State, trace: seq<Event>): State
    requires Runs(cfg, s, trace)
    decreases |trace|
  {
    if trace == [] then s else After(cfg, Step(cfg, s, trace[0]), trace[1..])
  }

  lemma OneMore(cfg: Config, s: State, e: Event, rest: seq<Event>)
    requires Enabled(s, e) && Runs(cfg, Step(cfg, s, e), rest)
    ensures Runs(cfg, s, [e] + rest) && After(cfg, s, [e] + rest) == After(cfg, Step(cfg, s, e), rest)
  {
    assert ([e] + rest)[1..] == rest;
  }
}
