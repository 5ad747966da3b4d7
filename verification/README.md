# Verification of the transport and codec core

A Dafny model of the parts of the library that coordinate concurrent activity or encode data, with
proofs of what they promise. Procedures that change state in place are methods on classes with those
fields, proved to make the steps of a state machine or to compute a function; the theorems are about
that state machine or function and hold for all inputs, all runs and, unless they say otherwise, all
behaviours of the libraries underneath.

- `signal_transport.dfy` is the transport controller: QUIC raced against TCP, reconnects, keepalive,
  and the shutdown that waits for an answer. `signal_race.dfy`, `signal_reconnects.dfy`,
  `signal_legs.dfy` and `signal_progress.dfy` prove what every run keeps. `signal_locks.dfy`,
  `signal_landings.dfy`, `signal_shutdown.dfy` and `signal_hazards.dfy` prove exactly when it misbehaves.
  `signal_outcomes.dfy` says what each callback, timer and call comes to.
  `signal_private.dfy` is the object with its fields, whose entry points keep all the invariants.
- `deferred_requests.dfy` is the list of requests kept for resending.
- `quic_varint.dfy`, `quic_socket.dfy` and `terminal_callbacks.dfy` are the QUIC number codec, the
  framing, and the guard of terminal callbacks, which the WebSocket has too.
- `ws_outbound.dfy` and `ws_inbound.dfy` are the WebSocket queues.
- `pb_schema.dfy`, `pb_json.dfy`, `pb_typing.dfy`, `pb_codec.dfy`, `naming.dfy` and `base64.dfy` are
  the descriptor-driven JSON codec. `pb_reading.dfy`, `pb_printing.dfy` and `base64_text.dfy` say what any
  JSON, message or string comes to in it.
- `worker.dfy` is the request scheduler; `worker_admission.dfy` says which requests it serves, and
  `worker_ending.dfy` when its thread starts and stops.
- `ev_interest.dfy`, `ev_poll.dfy`, `ev_select.dfy` and `ev_backends.dfy` are two libev backends and
  the map that both represent.
- `log_upload.dfy` is the concurrent log upload.

## How concurrency is modelled

Each protocol is a step relation; a run is any sequence of enabled steps. In the controller one
callback, one timer body or one call of the application is one step. That is coarser than the code
wherever a handler gives up its lock and takes it again. The places where that matters most have
theorems of their own, among others these: `startMixedTcpFallback` tests at Signal.cpp:370, opens at
Signal.cpp:390 and lands at Signal.cpp:395 (`FallbackIsItsParts`, `OpensUntestedIff`,
`DisconnectBeforeOpening`, `LandingKeepsRaceIff`, `ConnectBetweenHalves`), and `beginConnect` clears the
closed flag at Signal.cpp:689 after the reconnect timer tested it at Signal.cpp:863
(`ReconnectIsBothHalves`, `DisconnectBetweenHalves`).

The exception is a step that joins the TCP worker. Its environment says, in order, which callbacks the
worker makes while it is joined, and whether a fallback lands meanwhile, and the handlers run inside the
step. The lifecycle mutex of the WebSocket is part of the state, and so is a landing fallback that holds
the race mutex and waits for it. A step that does not return ends the run: the state says `halted`,
because threads wait for each other, or `died`, because a thread has joined itself, which in C++ throws
and, uncaught, ends the process. Nothing is said about what the other threads do then. A landing is
offered to every join in mixed mode, whether or not a fallback stands between its parts.

In the worker, the queues, the resend list and the log upload one test of a flag, one critical section
or one library call is one step. Sleeping timer threads are sets of generations; any of them may fire at
any time. What a library answers is a parameter of the step, so the theorems cover every answer, with
three exceptions that are conditions of the theorems: `Honest` in `SignalProgress.NeverStranded`; `Calm`
in the admission theorems about a worker to which nothing bad happens, beside which `AdmittedAnyhowIff`
stands for a worker to which anything may; and the methods that send and flush require that their loops
end, for which `SendLoopEndsIff` and `FlushEndsIff` say when.

## What the code does against its own comments or expectations

Each of these is proved with its exact condition, and those that take a run to get to with such a run.

- `connect` does not cancel a pending shutdown, so that the old shutdown ends the new session
  (`ConnectKeepsShutdown`, `StaleShutdown`). If TCP serves that session, the joining close reports under
  the lifecycle mutex, the report schedules a reconnect, and that closes the WebSocket, which takes the
  mutex again: the thread never returns (`JoinBlocksIff`, `BlockingIsReached`).
- A joining close does not return either when the TCP worker, while it is joined, makes a callback that
  closes the WebSocket (`CallBackWaitsIff`, `JoinBlocksIff`). A disconnect while TCP is still connecting
  is enough: the worker reports open and, since the user has closed, closes
  (`LeavingWhileConnectingIsReached`, `TimerWhileConnectingIsReached`). Without a late connect only such
  callbacks do it (`InTimeTimerHaltsIff`).
- The last part of `startMixedTcpFallback` closes the WebSocket with the race mutex held, in the other
  order than a joining close takes the two (`AnyJoinBlocksIff`, `DisconnectWhileLanding`).
- Joining closes are documented as made by the application thread only (Signal.cpp:270), but the
  answer to a leave request makes one inside the receive callback, which joins itself
  (`JoinsInCallbackIff`). With the joining closes above these are all the steps of the model that do not
  return (`StepHaltsIff`).
- A TCP alternative that failed is not joined; when QUIC fails after it in the same connection, its
  `std::thread` is assigned over (`OverrunIff`, `OverrunIsReached`).
- The lock that `startMixedTcpFallback` gives up lets a connect in between leave an alternative racing
  that the new connection never started (`LandingKeepsRaceIff`, `ConnectBetweenHalves`), and a disconnect
  in between not keep TCP from being opened (`OpensUntestedIff`, `DisconnectBeforeOpening`).
- A disconnect between the test of a reconnect timer and its connect is forgotten
  (`DisconnectBetweenHalves`).
- A message whose sender tested the socket before a close and pushed after it is not thrown away but
  stays queued for the next connection, and is the first there exactly when its push is the first since
  the close (`LateMessageIsFirstIff`, `LateMessageIsReached`).
- A ping timeout can spend two reconnects (`OverdueAnswerSpendsTwo`). A rejected token stops
  reconnecting when it comes as a close code (`TokenCloseSuppressesIff`) and not when it comes as an
  answer (`TokenAnswerReconnectsIff`).
- `connect` announces that it is connecting, and the close of a socket that has not reported yet,
  because it was never opened or is still open, overwrites it (`ConnectStatusIff`).
- After a rejected handshake the QUIC framing still parses later chunks (`CutMattersIff`).
- Close and error are documented as mutually exclusive; an error can follow a close
  (`ErrorAfterCloseIff`).
- A request enqueued after a worker's poll timed out and before it looks at its idle time, or while it
  leaves its loop, may stay queued with no thread to serve it (`EnqueueIsServedIff`,
  `AdmittedFirstIff`, `StrandedWhileIdling`).
- The counter of request ids goes round after 2^32 numbers, hands out zero, which a resend numbers again,
  and then repeats itself (`SameIdIff`).
- A request deferred during a flush may overtake older ones (`OrderThroughoutIff`).
- An empty WebSocket message is dropped without a call of libcurl (`FinishedUnsentIff`), and the send
  loop spins while libcurl succeeds without taking anything (`SendLoopEndsIff`).
- A field whose name starts with an underscore can be shadowed by another (`PrintedKeyFindsFieldIff`).
- A log upload's callback can find its own paths still held (`CallbackFindsHeldIff`,
  `CallbackFindsHeldIsReached`).

## Model

| member | source | states |
|---|---|---|
| SignalRace.EveryRunKeeps | Signal.cpp:257-518 | In every state any run reaches: a TCP alternative races only against an unopened QUIC primary leg in mixed mode with its worker thread unjoined, and a delay thread of the current generation sleeps exactly while the delay is pending |
| SignalRace.StepKeeps | Signal.cpp:257-1011 | Each of the thirteen kinds of step (four application calls, five socket callbacks, four timers) keeps that race invariant, for every environment |
| SignalReconnects.EveryRunKeeps | Signal.cpp:813-874 | Over any run the generations of spawned reconnect timers only grow, every sleeping timer is one of them, the counter equals the reconnects spawned since its last reset (a step that never ends may have counted one more), and no shutdown takes effect without a disconnect of its own |
| SignalReconnects.OneLiveReconnect | Signal.cpp:813-874 | Of all reconnect timers ever spawned only the last can be live; any other does nothing when it fires; reconnects since the last reset equal the counter, unless the run has ended in a step that never ends, and the counter never exceeds the configured maximum |
| SignalReconnects.ShutdownsAreAsked | Signal.cpp:627-664 | Shutdown closes that take effect never outnumber calls of disconnect |
| SignalLegs.StepLegs | Signal.cpp:310-493 | Within a connection the primary leg changes only from QUIC to TCP, only while no session is open; a payload is delivered only from the primary leg of an open session, or, while a disconnect or the shutdown timer joins the TCP worker, from TCP when it is the primary leg at the end |
| SignalLegs.OneLegASession | Signal.cpp:444-493 | A session open before and after any step is served by the same leg; a session opens only in an open callback and is then served by that callback's leg, which within a step that does not return is the TCP leg that is being joined |
| SignalLegs.EveryRunKeeps | Signal.cpp:310-611 | Between two beginConnect calls the primary leg changes at most once and the legs of delivered payloads form Quic* Curl* |
| SignalLegs.SilentAfterDisconnect | Signal.cpp:367-401 | While the user has closed, no run of callbacks and timers opens a transport, opens a session or spawns a reconnect |
| SignalLegs.NothingAfterDisconnect | Signal.cpp:996-1011 | The same from before disconnect up to any later state that no explicit connect precedes |
| SignalProgress.NeverStranded | Signal.cpp:402-874 | From the first connect on, with sockets that make their terminal callback once, during joins too: the user has closed, a fatal error has ended reconnecting, a live reconnect sleeps, or the primary leg still owes a callback; otherwise the last step of the run is one of those that StepHaltsIff says do not return |
| SignalProgress.StepMoves | Signal.cpp:402-874 | Every step with such sockets that returns keeps this |
| SignalLocks.StepHaltsIff | Signal.cpp:613-664 | For every step, with everything that may come in while it joins the TCP worker: it does not return exactly when it makes a joining close (a connect, a live reconnect, a disconnect without leave request, the current shutdown timer) that blocks, or is a receive callback that hears what a pending shutdown waits for; otherwise it leaves every lock free |
| SignalLocks.CloseJoinBlocksIff | WebSocket.cpp:483-506 | A joining close of both legs does not return exactly when a callback of the worker waits during the join or the report of its end does; otherwise every lock is free after it |
| SignalLocks.JoinBlocksIff | WebSocket.cpp:483-506 | Without landing fallbacks, on the state before and the list of callbacks alone: it blocks exactly over TCP when some callback blocks (open after the user has closed, a rejected token, a fatal or unwanted error, an unwanted close, a fatal or awaited answer in an open session) or the worker reports no end, owes it, and reconnects are wanted |
| SignalLandings.AnyJoinBlocksIff | Signal.cpp:395-398 | For any list of what comes in, fallbacks landing anywhere in it, whether they close what they opened or make TCP an alternative: it blocks exactly when five facts of the state before (the primary leg, whether TCP races as an alternative, whether a session is open, whether the worker has told its end, whether a fallback waits with the race mutex held), followed through the list without running a handler, come to a callback or a report that waits |
| SignalLocks.CallBackWaitsIff | WebSocket.cpp:483-506 | A callback of the worker that is being joined never returns under an exact condition for each of open, close, error and receive, an alternative that has just landed included |
| SignalLocks.JoinsInCallbackIff | Signal.cpp:1606-1686 | A receive callback makes a joining close, which the comments reserve for the application thread, exactly when it hears on the serving leg the awaited answer or a fatal one while a shutdown is pending; it does not return, and over TCP the process ends, because joining oneself throws |
| SignalShutdown.CallbackEndsShutdownIff | Signal.cpp:1606-1686 | A receive callback makes a shutdown take effect exactly then, once |
| SignalShutdown.ConnectKeepsShutdown | Signal.cpp:680-728 | A connect that returns leaves a pending shutdown, its timer and its request id as they were |
| SignalShutdown.ShutdownTimerClosesIff | Signal.cpp:641-657 | The shutdown timer ends an open session, or does not return from trying to, exactly when it is current and a shutdown is pending |
| SignalShutdown.CloseOpenSession | Signal.cpp:613-625 | A joining close of an open session that returns ends it, and spends a reconnect exactly over QUIC with the report owed and reconnects neither suppressed nor used up, whatever comes in over TCP; one that does not return spends none |
| SignalShutdown.StaleShutdown | Signal.cpp:990-1011 | disconnect, then connect before the leave request is answered: the old timer ends the new session or does not return; with nothing else coming in, it does not return exactly over TCP that owes its report with reconnects not suppressed, and over QUIC a reconnect is spent |
| SignalShutdown.InTimeTimerHaltsIff | Signal.cpp:641-657 | In a run without a connect while a shutdown is pending, and no fallback landing, the shutdown timer does not return exactly when, while it joins the TCP worker of the primary leg, that worker reports open, a rejected token or a fatal error, or hears a fatal answer in an open session; its own report never blocks |
| SignalShutdown.BlockingIsReached | Signal.cpp:641-657 | A five-step run with a late connect in which the report blocks |
| SignalShutdown.LeavingWhileConnectingIsReached | Signal.cpp:444-475 | A two-step run without one: a disconnect while TCP connects does not return when the worker reports open |
| SignalShutdown.TimerWhileConnectingIsReached | Signal.cpp:641-657 | The same in the shutdown timer, when the leave request was sent |
| SignalHazards.OverrunIff | Signal.cpp:367-401 | WebSocket.open replaces an unjoined worker thread in exactly one situation: QUIC fails in mixed mode, unopened, with no alternative racing, after TCP was already tried in the same connection |
| SignalHazards.OverrunIsReached | Signal.cpp:367-442 | A four-step run from the initial state that gets there, for every mixed configuration with a positive delay |
| SignalHazards.LandingKeepsRaceIff | Signal.cpp:395-401 | The last part of the fallback, after anything: it waits for the mutex of a joining close exactly when it finds the user gone or a session open while one is held, and keeps the race invariant exactly when it closes what it opened, finds the alternative already racing, or finds an unopened QUIC leg in mixed mode with no delay pending and the worker it started |
| SignalHazards.ConnectBetweenHalves | Signal.cpp:386-401 | A connect that returns before it always breaks the invariant: an alternative is racing while the delay of the new connection is pending |
| SignalHazards.DisconnectBeforeOpening | Signal.cpp:367-392 | A disconnect between the test of the fallback and its opening: TCP is opened after it although the test would now refuse, and the last part changes nothing but to close it |
| SignalHazards.DisconnectWhileLanding | Signal.cpp:395-398 | A disconnect that joins the TCP worker while the fallback that opened it lands does not return |
| SignalHazards.DisconnectBetweenHalves | Signal.cpp:850-873 | A disconnect between the test of a reconnect timer and its connect, both of which return, is forgotten and a transport is opened after it; with a leave request its shutdown stays pending, and over TCP its timer then does not return |
| SignalHazards.OverdueAnswerSpendsTwo | Signal.cpp:741-789 | After a keepalive thread ends, the local close that it caused spends a second reconnect, and makes the first timer dead, exactly when the thread was not superseded, reconnects are wanted and not suppressed, and the limit allows two |
| SignalHazards.TokenAnswerReconnectsIff | Signal.cpp:1606-1640 | A rejected token that comes as an answer is followed by a reconnect exactly when it comes on the leg serving an open session, no shutdown is pending, and reconnects are wanted, not suppressed and not used up |
| SignalHazards.ConnectStatusIff | Signal.cpp:990-994 | Unless opening fails at once or a fallback lands, the connecting status set by a connect that returns survives exactly when the old primary leg has made its terminal callback and, over TCP, nothing comes in during the join that opens or closes |
| SignalOutcomes.FailureComesTo | Signal.cpp:495-584 | What every close and error outside a join comes to, by leg and kind: ignored from a leg that does not matter; a rejected token or TLS ends reconnecting at once; otherwise the other leg takes over where it can; otherwise a final error ends reconnecting, and any other failure is retried, unless unwanted, or gives up at the limit; each outcome with everything it changes |
| SignalOutcomes.EndsReconnectingIff | Signal.cpp:520-584 | Where reconnects are wanted and nothing takes over: a failure ends reconnecting exactly if it is final (over QUIC a rejected token, TLS, a timeout, an invalid address; over TCP a rejected token, TLS, a timeout, never connected; a close with a token code) or the limit is used up, and otherwise, and only then, one reconnect is spawned |
| SignalOutcomes.TakesOverIff | Signal.cpp:405-442 | The other leg takes over exactly in mixed mode before the session is open: TCP for QUIC if it races or may be started, QUIC for TCP if it is connecting or open |
| SignalOutcomes.SocketHasSaid | Signal.cpp:495-584 | Whatever a failure comes to, the socket owes no terminal callback any more, and the other one owes what it owed unless it was opened |
| SignalOutcomes.AskedToReconnect | Signal.cpp:813-874 | Asking for a reconnect is ignored, gives up with the status closed, or spawns one reconnect to the server address, counted, with the session closed and the keepalive stopped |
| SignalOutcomes.AppReconnectComesTo | Signal.cpp:1684-1686 | So is the application asking for one |
| SignalOutcomes.OpenComesTo | Signal.cpp:444-484 | The first leg to open while a session is wanted has it alone, the race over and one keepalive started; a later open, or one after a disconnect, opens nothing |
| SignalOutcomes.ResponseComesTo | Signal.cpp:1606-1686 | Heard exactly from the primary leg of an open session: a good response starts the count of reconnects over, a refusal closes both legs, another does nothing, and while a shutdown waits the awaited answer and a refusal do not return |
| SignalOutcomes.DelayComesTo | Signal.cpp:350-401 | The delay timer starts TCP exactly if it is current and TCP still wanted |
| SignalOutcomes.KeepaliveComesTo | Signal.cpp:751-788 | The keepalive asks for a reconnect exactly if it is current and the user has not closed |
| SignalOutcomes.ReconnectComesTo | Signal.cpp:850-873 | The reconnect timer connects, to the address it was spawned with, exactly if it is current, the user has not closed and there is an address |
| SignalOutcomes.CloseTimerComesTo | Signal.cpp:641-657 | The shutdown timer joins both legs exactly if it is current and a shutdown is under way, which it then is no longer |
| SignalOutcomes.ConnectSpendsNothing | Signal.cpp:680-689 | Whatever comes in while a connect joins what was open, it spends no reconnect and supersedes those that sleep and the keepalive |
| SignalOutcomes.ConnectComesTo | Signal.cpp:680-728 | Which legs a connect opens, at once or after the delay, and what it clears |
| SignalOutcomes.ServerTaken | Signal.cpp:990-994 | A connect takes the address and the connecting status, and with a chosen node the count starts over |
| SignalOutcomes.DisconnectComesTo | Signal.cpp:996-1011 | A disconnect whose leave request went out waits and closes nothing; one whose request did not joins both legs at once |
| SignalPrivate.StepStaysSound | Signal.cpp:257-1011 | Every step keeps the conjunction of the race, reconnect, leg and mutex invariants, which is what Valid says of the object |
| SignalPrivate.Private.constructor | Signal.cpp:231-249 | A new controller is valid and in the initial state |
| SignalPrivate.Private.ConnectTo | Signal.cpp:990-994 | Keeps Valid, and on the whole state makes the step of a connect; its result says whether a transport started |
| SignalPrivate.Private.ConnectBestUrl | Signal.cpp:1106-1142 | Keeps Valid, and on the whole state makes the step of a connect to the chosen node, with the reconnect counter reset |
| SignalPrivate.Private.DisconnectFrom | Signal.cpp:996-1011 | Keeps Valid, and on the whole state makes the step of a disconnect, whether or not the leave request could be sent |
| SignalPrivate.Private.OnReconnect | Signal.cpp:813-874 | Keeps Valid, and on the whole state makes the step of a reconnect asked for from outside |
| SignalPrivate.Private.SocketOpened | Signal.cpp:444-493 | Keeps Valid, and on the whole state makes the step of an open callback |
| SignalPrivate.Private.SocketClosed | Signal.cpp:495-518 | Keeps Valid, and on the whole state makes the step of a close callback, token codes and mixed fallback included |
| SignalPrivate.Private.WebSocketFailed | Signal.cpp:520-554 | Keeps Valid, and on the whole state makes the step of a TCP error |
| SignalPrivate.Private.QuicSocketFailed | Signal.cpp:556-584 | Keeps Valid, and on the whole state makes the step of a QUIC error |
| SignalPrivate.Private.SocketReceived | Signal.cpp:586-611 | Keeps Valid, and on the whole state makes the step of a payload |
| SignalPrivate.Private.DelayThreadWakes | Signal.cpp:350-364 | Keeps Valid, and on the whole state makes the step of a delay thread |
| SignalPrivate.Private.ReconnectThreadWakes | Signal.cpp:850-873 | Keeps Valid, and on the whole state makes the step of a reconnect thread |
| SignalPrivate.Private.CloseThreadWakes | Signal.cpp:645-656 | Keeps Valid, and on the whole state makes the step of a shutdown timer |
| SignalPrivate.Private.KeepaliveThreadEnds | Signal.cpp:751-788 | Keeps Valid, and on the whole state makes the step of a keepalive thread |
| SignalPrivate.Private.StartMixedTcpFallback | Signal.cpp:367-402 | Opens the alternative exactly when not closed, not open, not racing, QUIC not open and a url is known |
| SignalPrivate.Private.HandleMixedTransportFailure | Signal.cpp:405-442 | State and result are those of HandleFailure, which the leg and overrun theorems are about |
| SignalPrivate.Private.MixedDeclareWinner | Signal.cpp:310-334 | Makes the step DeclareWinner, the closing of the loser and the mutex it takes included |
| SignalPrivate.Private.CloseWebSocket | WebSocket.cpp:488-506 | Joins the worker and reports under the lifecycle mutex, which it gives back unless a callback or the report waits |
| SignalPrivate.Private.JoinWorker | WebSocket.cpp:488-493 | The loop over what comes in while the worker is joined makes AllArrived, which the waiting theorems are about, and stops where something waits |
| SignalPrivate.Private.OnArrival | Signal.cpp:395-611 | One of them, by the ordinary handlers, each of which begins with the race mutex |
| SignalPrivate.Private.CloseAllTransportsJoin | Signal.cpp:613-625 | No race, no session, workers joined, with each leg's own close report handled on the way |
| SignalPrivate.Private.CloseAllTransportsAsync | Signal.cpp:613-625 | No race and no session and nothing joined, or a thread waiting for the mutex |
| SignalPrivate.Private.CloseSocketFromCallback | Signal.cpp:633-664 | A joining close made inside a receive callback consumes the shutdown and does not return: the TCP worker waits for a held mutex or ends the process by joining itself, the QUIC loop waits for itself after TCP has been closed |
| SignalPrivate.Private.ScheduleReconnectAfter | Signal.cpp:813-874 | Ignored, given up, or counted and put to sleep, as ScheduleReconnect says |
| SignalPrivate.Private.BeginConnecting | Signal.cpp:680-728 | The whole of beginConnect, with its result, or up to a join that does not return |
| SignalPrivate.Private.HandleReceiveSignalResponse | Signal.cpp:1606-1682 | State after a response: shutdown, local close, counter reset |
| DeferredRequests.EveryRunKeeps | Signal.cpp:1739-1826 | Over any submissions, failed sends, overlapping flushes and disconnects every submission is in exactly one place once, and carries its first id unless that was zero |
| DeferredRequests.SentOnceWithItsId | Signal.cpp:1782-1826 | A sent request was sent once, with the id it was first given when that is not zero, and waits nowhere |
| DeferredRequests.StepTickets | Signal.cpp:1782-1826 | A submission adds one request; no other step adds or loses any |
| DeferredRequests.NumberedInTurn | Signal.cpp:1739-1742 | The counter hands out one number after the other, modulo 2^32, to submissions and resends numbered zero, pings and leave requests, and what a submission is handed is the id it is given |
| DeferredRequests.SameIdIff | Signal.cpp:1739-1742 | Two of the numbers handed out are the same exactly when a multiple of 2^32 lies between them, and one is zero exactly when the counter has just gone round |
| DeferredRequests.GivenIdsDiffer | Signal.cpp:1739-1742 | In any run with fewer than 2^32 numberings, pings and leave requests included, the ids of submissions that came numbered zero are nonzero and pairwise distinct |
| DeferredRequests.SentIdsDiffer | Signal.cpp:1739-1742 | So are those of what is sent, by which answers are told apart |
| DeferredRequests.ComesUnnumbered | Signal.cpp:1739-1742 | Every submission numbered zero is among those |
| DeferredRequests.NumberKept | Signal.cpp:1739-1742 | Any other keeps its number and takes none |
| DeferredRequests.OrderThroughoutIff | Signal.cpp:1782-1826 | Over any run from a conserved, sorted state: what is kept stands in the order of submission in every state of the run exactly when no step overtakes, that is, no deferral and no second flush while an older flush still has requests, and no failed resend behind an older flush |
| DeferredRequests.OrderFromStartIff | Signal.cpp:1782-1826 | The same for every run from the start |
| DeferredRequests.OrderKeptIff | Signal.cpp:1782-1826 | The single step of it: an overtaking step always breaks the order and no other step does |
| DeferredRequests.FlushOutcome | Signal.cpp:1808-1826 | An undisturbed flush of numbered requests sends what passes and keeps what fails, each in order and with its id |
| DeferredRequests.SignalRequests.SendRequest | Signal.cpp:1739-1780 | A request numbered zero gets the next id, the counter wraps at 2^32, and it is sent or not |
| DeferredRequests.SignalRequests.RequestOrAgain | Signal.cpp:1782-1794 | What cannot be sent is kept at the end, with its id |
| DeferredRequests.SignalRequests.SubmitRequest | Signal.cpp:1782-1794 | Keeps conservation and makes the step of a submission |
| DeferredRequests.SignalRequests.FlushPendingReqs | Signal.cpp:1808-1826 | Keeps conservation and makes the steps of an undisturbed flush, for requests of any number, zero included |
| DeferredRequests.SignalRequests.SendUnkept | Signal.cpp:1739-1741 | A ping or a leave request takes the next id, disturbs nothing that is kept, and keeps conservation |
| DeferredRequests.SignalRequests.DisconnectClears | Signal.cpp:1009-1010 | Keeps conservation; what was kept is gone |
| QuicVarint.DecodeEncode | QuicSocket.cpp:40-84 | Reading back a written 64-bit number gives its low 62 bits and the predicted length, whatever follows |
| QuicVarint.RoundTripIff | QuicSocket.cpp:40-84 | The pair is lossless on exactly the numbers below 2^62 |
| QuicVarint.EncodingIsShortest | QuicSocket.cpp:27-66 | No octet string that reads as a number is shorter than the one written for it |
| QuicVarint.EncodingsArePrefixFree | QuicSocket.cpp:40-66 | No encoding is a proper prefix of another |
| QuicVarint.RfcExamples | QuicSocket.cpp:40-84 | Examples of appendix A.1 of RFC 9000, both ways |
| QuicVarint.FrameLengthCannotWrap | QuicSocket.cpp:366-387 | Header length plus announced length fits 64 bits |
| QuicVarint.OctetsEncode | QuicSocket.cpp:40-66 | The octets the four branches store are the big-endian low 62 bits under the width tag |
| QuicVarint.PutUVarInt | QuicSocket.cpp:40-66 | Writes exactly the encoding at the position given, leaves the rest of the buffer alone, and returns the position after it |
| QuicVarint.GetUVarInt | QuicSocket.cpp:70-84 | Reads the number at the front, or says that it is not complete |
| QuicFraming.ChunkInsensitive | QuicSocket.cpp:336-389 | For an accepted handshake, however the stream is cut, the receiver ends in the state and with the callbacks of the uncut stream |
| QuicFraming.FeedFeed | QuicSocket.cpp:431-436 | Two chunks are as good as their concatenation |
| QuicFraming.CutMattersIff | QuicSocket.cpp:346-355 | Delivery is independent of the cut exactly when the status is incomplete, is 200, or no complete frame follows it |
| QuicFraming.RejectedStreamStillDelivers | QuicSocket.cpp:346-355 | A rejected stream with a complete frame behind the status delivers it when cut after the status |
| QuicFraming.RejectedSilently | QuicSocket.cpp:346-355 | A rejected stream without a complete frame delivers nothing, however cut |
| QuicFraming.AcceptedStatus | QuicSocket.cpp:336-355 | A status of 200, in two octets, accepts the handshake, and no other does |
| QuicFraming.EveryRunTells | QuicSocket.cpp:285-355 | However chunks, failures and closes follow each other: the state is the last thing the owner was told, the socket runs until a terminal callback, and the flags say which callbacks were made |
| QuicFraming.ToldFromOpening | QuicSocket.cpp:285-355 | From the opening on: one open at most, and an error, a close, or an error after a close at most |
| QuicFraming.ErrorTells | QuicSocket.cpp:285-301 | An error is told, with its code, exactly if none was before |
| QuicFraming.CloseTells | QuicSocket.cpp:303-315 | A close is told exactly if neither a close nor an error was before |
| QuicFraming.FramesRoundTrip | QuicSocket.cpp:86-94 | Wrapped payloads parse back to the same list and leave nothing over |
| QuicFraming.SentIsReceived | QuicSocket.cpp:86-94 | Any list of payloads sent behind a 200 status arrives intact and in order under every cut |
| QuicFraming.WrapVarIntPayload | QuicSocket.cpp:86-94 | Length header and payload in a fresh buffer |
| QuicFraming.NextFrame | QuicSocket.cpp:365-379 | Finds the first complete frame and its bounds, or says there is none |
| QuicFraming.QuicSocket.FireError | QuicSocket.cpp:285-301 | An error is passed on once and blows the guard |
| QuicFraming.QuicSocket.FireClose | QuicSocket.cpp:303-315 | A close is passed on only if neither close nor error came before |
| QuicFraming.QuicSocket.HandleDataFrames | QuicSocket.cpp:336-389 | State after the buffer has grown: status, open callback, frames |
| QuicFraming.QuicSocket.DeliverCompleteFrames | QuicSocket.cpp:364-388 | Delivers every complete frame in order and keeps the rest |
| QuicFraming.QuicSocket.OnRecv | QuicSocket.cpp:431-436 | State and callbacks after a chunk |
| TerminalCallbacks.OwnerHears | QuicSocket.cpp:285-315 | Which terminal callbacks get through, for every run |
| TerminalCallbacks.ErrorAfterCloseIff | WebSocket.cpp:339-376 | Never a close after an error; an error after a close exactly when the run opens with a close and holds an error |
| PbJson.RoundTrip | PbCJson.cpp:150-470 | For every well-formed schema and every message over it, parsing the printed object gives the normal form of the message |
| PbJson.PrintedAlikeIff | PbCJson.cpp:150-284 | Two messages print alike exactly when they have one normal form |
| PbJson.MessagePrintsNormal | PbCJson.cpp:248-284 | A message prints as its normal form does |
| PbJson.PrintedMembers | PbCJson.cpp:274-284 | The object holds exactly one member for each field that is set, under distinct keys |
| PbJson.FieldRestores | PbCJson.cpp:392-452 | The printed value of a set field parses back to its normal form |
| PbJson.ScalarRestores | PbCJson.cpp:306-387 | So does each scalar, unknown enum numbers, byte strings and wrapped integers included |
| PbJson.UnsetIsFresh | PbCJson.cpp:150-199 | A field that is not printed holds, up to normalisation, what a fresh struct holds |
| PbSchema.EnumNameRestoresNumber | PbCJson.cpp:128-148 | A printed enum name looks up the number it was printed for |
| PbTyping.SetSlotKeepsTyped | PbCJson.cpp:392-452 | Storing a member of its type keeps every member of its type and at most one member of each oneof chosen, and the member stored is the one read |
| PbTyping.ParsedScalarTyped | PbCJson.cpp:306-387 | A scalar read from any JSON value has the width of its type and is in normal form |
| PbTyping.ParsedIsTypedAndNormal | PbCJson.cpp:454-470 | Whatever is read, from any JSON value, is a well-typed message in normal form with exclusive oneofs |
| PbTyping.ReadingIsStable | PbCJson.cpp:150-470 | Reading, printing and reading again is reading once |
| PbReading.IntegersRead | PbCJson.cpp:306-337 | A JSON integer is stored as itself in every integer type that it fits and in the floating types, and otherwise reduced to the width of the type |
| PbReading.FractionsRead | PbCJson.cpp:306-337 | A JSON fraction is stored as itself in the floating types and loses what lies behind its point in an integer type that can hold the rest |
| PbReading.BooleansRead | PbCJson.cpp:306-337 | A JSON boolean is stored as one or zero, except into the number types that the library has itself, which refuse it |
| PbReading.StringsRead | PbCJson.cpp:339-383 | A JSON string is stored up to its first NUL, or as the octets it encodes, and is refused by every number |
| PbReading.NamesRead | PbCJson.cpp:136-148 | A name is read as a number it stands for in the index or in the value table, and refused exactly when it stands for none |
| PbReading.OthersRefused | PbCJson.cpp:306-387 | Nothing else is read into a scalar |
| PbReading.FieldReadIff | PbCJson.cpp:392-452 | A repeated field takes an array of elements it can read, all of them and in order, and nothing else |
| PbReading.MessageReadIff | PbCJson.cpp:454-470 | A message is read from any object of a known descriptor whose members are each unknown or readable, and from nothing else |
| PbReading.LastMemberWins | PbCJson.cpp:459-466 | Of several members that touch one field the last leaves its value there, or clears it if it chooses another member of the oneof |
| PbReading.UntouchedIsFresh | PbCJson.cpp:454-458 | A field that no member touches is left as in a fresh struct |
| PbReading.SpellingAndOrderDoNotMatter | PbCJson.cpp:454-470 | Objects that give the same values to the same fields, under whatever keys, in whatever order and among whatever unknown members, read as the same message |
| PbReading.OwnNamesReadAlike | PbCJson.cpp:286-304 | Any JSON reads the same with every known key, at every depth, replaced by the field's own proto name |
| PbReading.RoundTripByOwnNames | PbCJson.cpp:246-470 | So what is printed restores the normal form of the message when it is spelt with the proto names |
| PbPrinting.ScalarsPrint | PbCJson.cpp:201-244 | Each type has its own JSON form: booleans, integers unquoted, fractions, strings and base64 |
| PbPrinting.EnumPrints | PbCJson.cpp:225-231 | An enum prints as the name of the first value with its number, and as the number when there is none |
| PbPrinting.PrintedIff | PbCJson.cpp:150-199 | A field is printed exactly when it differs, up to normalisation, from a fresh struct's |
| PbPrinting.PrintedAscends | PbCJson.cpp:274-284 | The keys of a printed object ascend, as StrLessIff orders strings |
| PbPrinting.PutReplaces | PbCJson.cpp:281-281 | Putting a member adds it or takes the place of the one with its key |
| PbCodec.ScalarJson | PbCJson.cpp:201-244 | What the switch prints, enum lookup by a loop included, reads back as the normal form of the scalar; it is the printed scalar of the message theorems |
| PbCodec.ElementJson | PbCJson.cpp:201-272 | Computes one printed element |
| PbCodec.FieldJson | PbCJson.cpp:248-272 | Computes the printed field, repeated fields by a loop |
| PbCodec.MessageToJsonImpl | PbCJson.cpp:274-284 | Computes the printed object |
| PbCodec.ScalarFromJson | PbCJson.cpp:306-387 | What the switch stores, name lookup by two loops included, has the width of its type and is in normal form; it is the parsed scalar of the message theorems |
| PbCodec.ElementFromJson | PbCJson.cpp:392-452 | Computes one parsed element or fails |
| PbCodec.ElementsFromJson | PbCJson.cpp:400-432 | Computes all elements; the first bad one spoils the array |
| PbCodec.Struct.constructor | PbCJson.cpp:454-458 | A fresh struct with default members |
| PbCodec.Struct.Store | PbCJson.cpp:392-452 | In place: the member, its oneof, nothing else |
| PbCodec.MergeField | PbCJson.cpp:392-452 | Parses into one member in place, or fails |
| PbCodec.MessageFromJsonImpl | PbCJson.cpp:454-470 | Computes the parsed message, unknown keys skipped, or fails |
| PbCodec.PrintThenParse | PbCJson.cpp:246-470 | The two procedures one after the other restore the normal form |
| Naming.SnakeToCamel | PbCJson.cpp:48-65 | Computes the camel form |
| Naming.CamelToSnake | PbCJson.cpp:67-80 | Computes the snake form |
| Naming.CamelOfSnakeIff | PbCJson.cpp:48-80 | Camel inverts snake on a key without underscores exactly when it does not start with a capital |
| Naming.WordByWord | PbCJson.cpp:48-80 | On names made of words the two conversions are those between node_list and nodeList, and inverse |
| Naming.CamelOfConcat | PbCJson.cpp:48-65 | The camel form is made from left to right, with nothing carried over a cut but whether an underscore stood before it |
| Naming.SnakeOfConcat | PbCJson.cpp:67-80 | So is the snake form, with nothing carried over but whether anything stood before |
| Naming.LettersAreAscii | PbCJson.cpp:58-76 | The letters are the ASCII ones, and the conversions move between their two rows |
| Naming.OwnNameFindsField | PbCJson.cpp:286-291 | For names without duplicates every field is found by its own proto name |
| Naming.OtherKeysIff | PbCJson.cpp:292-304 | A key that is no field's name finds a field exactly if its guess is that field's name, or its guess is nobody's and the field is printed under it |
| Naming.UnknownKeyIff | PbCJson.cpp:286-304 | A key is unknown exactly if it, its guess and every printed key fail |
| Naming.PrintedKeyFindsFieldIff | PbCJson.cpp:286-304 | With camel-distinct names the printed key of a field finds that field exactly when an earlier lookup stage does not catch it |
| Naming.PlainNamesAreFound | PbCJson.cpp:286-304 | So it always does when no name starts with an underscore or a capital |
| Naming.LeadingUnderscoreIsShadowed | PbCJson.cpp:286-304 | A descriptor whose printed key finds the wrong field |
| Base64.Base64Encode | PbCJson.cpp:85-98 | Computes the encoding of section 4 of RFC 4648 |
| Base64.Encode | PbCJson.cpp:85-98 | The encoding is 4 * ceil(n / 3) characters long |
| Base64.Base64Decode | PbCJson.cpp:109-126 | Computes the decoder with its wrapping 32-bit accumulator |
| Base64.DecodeEncode | PbCJson.cpp:85-126 | Decoding inverts encoding on every octet string, wrap-around included |
| Base64Text.LayoutDoesNotMatter | PbCJson.cpp:109-126 | An equal sign, a line feed, a carriage return or a blank may be put in or taken out anywhere |
| Base64Text.DecodedIff | PbCJson.cpp:109-126 | Decoding fails exactly on a character that is none of the 64 symbols and none of those four |
| Base64Text.DecodedAre | PbCJson.cpp:109-126 | For every string that is decoded: octet by octet, the result is the bits of the symbols' places in the table, bits that fill no octet dropped |
| Base64Text.IndexIsTabled | PbCJson.cpp:82-107 | Symbols and their values are those of the table of section 4 of RFC 4648, written out |
| Base64Text.EncodedAt | PbCJson.cpp:82-98 | Character by character, the encoding is the table's symbols for the octets' bits, filled up with zero bits and padded with equal signs |
| RequestWorker.EveryRunKeeps | restincurl.h:798-1031 | Under every interleaving: each request accepted is exactly queued, taken, ongoing, completed or dropped, once; admission follows enqueue order; never more than the maximum is ongoing |
| RequestWorker.RunsFromIdle | restincurl.h:798-1031 | The same from the idle worker |
| RequestWorker.NoLostWakeup | restincurl.h:935-1031 | A worker about to block in poll with requests queued will look again by itself or has an undrained byte in its pipe |
| RequestWorker.TakeKeeps | restincurl.h:863-890 | After the locked part of Dequeue the queue is empty or every place is filled |
| RequestAdmission.AdmittedFirstIff | restincurl.h:935-1031 | Over all runs in which nothing fails and nobody closes: a queued request is admitted before the thread ends exactly when the worker will dequeue before it looks at its idle time again and the request is among the first that fit |
| RequestAdmission.EnqueueIsServedIff | restincurl.h:768-804 | Over all such runs after an enqueue: the new request is admitted before the thread ends exactly when the worker stands where Serves says, place by place with its flags, and queued plus ongoing are fewer than the maximum |
| RequestAdmission.AdmittedAtNextDequeue | restincurl.h:863-902 | A request bound to be admitted is admitted by the next Dequeue and not before |
| RequestAdmission.AdmittedAnyhowIff | restincurl.h:935-1031 | When anything may fail and anybody may close, only a worker about to dequeue with room is bound to admit the request |
| RequestAdmission.StrandedWhileIdling | restincurl.h:955-959 | A six-step run from the idle worker to a live one, not closing, that then can end with a request still queued |
| RequestEnding.StopsIff | restincurl.h:935-1014 | The loop is left exactly when somebody has aborted, when somebody has closed and the last look at the transfers, of which there had been some, found none, or when there are none and the thread has idled too long |
| RequestEnding.FailsIff | restincurl.h:773-788 | The thread goes without stopping first exactly when the library fails |
| RequestEnding.InThisOrder | restincurl.h:768-1038 | The worker's steps go round in one order, and no other thread moves it but by an enqueue that starts one, not after an abort and not when done |
| RequestEnding.TransfersKnown | restincurl.h:941-955 | Until a thread has seen a transfer their number is not known to be zero, so closing when finished does not stop it; after that it is what the last look found |
| RequestEnding.FlagsAfter | restincurl.h:822-838 | The flags are set by the calls they are for, and the worker is done once a thread has ended by itself after one of them |
| RequestEnding.NoThreadAgain | restincurl.h:768-796 | Once done or aborted and without a thread the worker never gets one again, and what is enqueued stays queued |
| RequestEnding.RequestMoves | restincurl.h:893-988 | Where one request goes in one step, exactly: enqueued, handed over in its turn, completed when the library says so of its handle, dropped when the library refuses one before it |
| RequestEnding.RequestIsServed | restincurl.h:798-988 | A run in which a request enqueued on an idle worker is completed |
| RequestEnding.BytesCounted | restincurl.h:626-650 | The pipe holds one byte for every enqueue and close not yet read, as long as it has room for all, and never more than it can |
| RequestWorker.PlacesAre32 | restincurl.h:863-890 | There are 32 places, and taking fills as many as are free |
| RequestWorker.RequestQueue.constructor | restincurl.h:728-768 | An idle worker with nothing queued |
| RequestWorker.RequestQueue.Signal | restincurl.h:626-634 | One more byte in the pipe unless it is full |
| RequestWorker.RequestQueue.Enqueue | restincurl.h:798-804 | The request is queued last, a thread is there unless shut down, and the pipe is not empty |
| RequestWorker.RequestQueue.WasSignalled | restincurl.h:636-650 | Empties the pipe and tells whether it held anything |
| RequestWorker.RequestQueue.TakeFromQueue | restincurl.h:866-890 | Takes from the front as much as there is room for |
| RequestWorker.RequestQueue.StartTransfers | restincurl.h:893-901 | Starts the transfers libcurl accepts; the first refusal drops the rest |
| RequestWorker.RequestQueue.Dequeue | restincurl.h:863-902 | Both together; without a refusal the queue is empty or every place is filled |
| RequestWorker.RequestQueue.FinishRequest | restincurl.h:964-988 | A completion moves one ongoing request to completed |
| WsOutbound.OctetsConserved | WebSocket.cpp:379-441 | Under every interleaving of callers, of their tests and pushes too, with sends, closes and reopenings: octets of past connections, taken by libcurl in the kind of frame it was told, discarded by close, and held are the octets asked for, in kind and in this order |
| WsOutbound.HandedOverInKind | WebSocket.cpp:379-462 | From the first opening on: what libcurl was handed is a prefix of what was asked for, octet for octet and each in the kind of frame, text, binary or close, that its caller asked for; every pusher was let through by such a call |
| WsOutbound.HandedInWasAsked | WebSocket.cpp:443-462 | What is handed in is what those who pushed had asked for, in order: a message as text or binary, and close bodies, and nothing else, in close frames |
| WsOutbound.TornDownSinceOpening | WebSocket.cpp:399-412 | The sending side tears a connection down exactly by a fatal answer on it |
| WsOutbound.CloseGoesOut | WebSocket.cpp:443-477 | A close asked for on an idle socket goes out, in a close frame |
| WsOutbound.MessageGoesOut | WebSocket.cpp:764-783 | So does a message, in its kind |
| WsOutbound.FlushedOnce | WebSocket.cpp:416-441 | What a flush with given answers leaves of the queue is determined to the octet |
| WsOutbound.ConservedFromFresh | WebSocket.cpp:379-441 | From the first opening on; until a close nothing is discarded, and what is not held is always a prefix of what callers handed in |
| WsOutbound.HeldBeforeDiscardedIff | WebSocket.cpp:488-506 | The order with held before discarded octets holds exactly when the two commute |
| WsOutbound.LateMessageIsFirstIff | WebSocket.cpp:764-783 | From a close up to the first item that a worker takes: the queue is all that was pushed since the close, in order, before or after the opening; the messages tested before the close among it come from senders that stood in line then, each once; and the item taken first is such a message exactly when the first push since the close is by one of those senders |
| WsOutbound.LateMessageIsReached | WebSocket.cpp:764-783 | A run in which the earlier of two messages is discarded and the later is first on the next connection |
| WsOutbound.FinishedUnsentIff | WebSocket.cpp:379-441 | However callers interleave, an item the worker finishes has been taken whole by libcurl, and libcurl was never called for it exactly when it is empty |
| WsOutbound.SendLoopEndsIff | WebSocket.cpp:379-414 | From any point of the answers, the send loop ends exactly unless, from some round on, every answer is a success that takes nothing |
| WsOutbound.FlushEndsIff | WebSocket.cpp:416-441 | A flush ends exactly unless it comes to an item at which the loop does not |
| WsOutbound.CloseBody | WebSocket.cpp:443-462 | A close body has between 2 and 125 octets (section 5.5 of RFC 6455) |
| WsOutbound.SendLoop | WebSocket.cpp:379-414 | Whenever the loop ends: the payload left is a suffix, sent says that the last answer was fine, in which case nothing is left, fatal that it was a failure not to be retried, and exactly the answers up to the end were used |
| WsOutbound.SendQueue.constructor | WebSocket.cpp:104-160 | A socket never opened, with nothing queued |
| WsOutbound.SendQueue.Open | WebSocket.cpp:522-540 | Starts a connection with the queue as it was left |
| WsOutbound.SendQueue.TestRunning | WebSocket.cpp:764-771 | A sender passes exactly when the socket runs |
| WsOutbound.SendQueue.PushItem | WebSocket.cpp:772-779 | A sender that has passed pushes, whatever has happened since; conservation is kept |
| WsOutbound.SendQueue.Send | WebSocket.cpp:764-783 | With nothing in between: queues a message exactly if the socket runs |
| WsOutbound.SendQueue.TestForClose | WebSocket.cpp:464-477 | A close frame is built exactly when the socket runs |
| WsOutbound.SendQueue.QueueCloseFrame | WebSocket.cpp:443-462 | Queues the body of the close under way |
| WsOutbound.SendQueue.SendDirect | WebSocket.cpp:379-414 | Hands a prefix of the item to libcurl and returns the rest, with the outcome of the loop |
| WsOutbound.SendQueue.FlushOne | WebSocket.cpp:416-441 | Sends the first item and puts back what was not taken; conservation is kept |
| WsOutbound.SendQueue.FlushSendQueue | WebSocket.cpp:416-441 | Whenever the flush ends: sends items in order, each as far as the answers take it, up to the first that is not taken whole, and leaves exactly the rest; conservation is kept |
| WsOutbound.SendQueue.WorkerEnds | WebSocket.cpp:703-704 | The worker stops running and leaves the queue |
| WsOutbound.SendQueue.Clear | WebSocket.cpp:488-506 | close throws away what was not sent |
| WsInbound.WholeFramesInOrder | WebSocket.cpp:249-337 | However data frames are cut and whatever control chunks come in between, each frame is delivered once, whole, in order, with its kind |
| WsInbound.CloseRoundTrip | WebSocket.cpp:276-308 | A queued close body arrives as the low 16 bits of its code and the first 123 octets of its reason |
| WsInbound.CloseIsLosslessIff | WebSocket.cpp:443-462 | Code and reason survive exactly when the code is an unsigned 16-bit number and the reason fits |
| WsInbound.ShortClose | WebSocket.cpp:289-301 | A close frame of one octet carries the code 1005 |
| WsInbound.StartsOver | WebSocket.cpp:310-325 | A chunk at offset zero or out of place starts a frame of its own kind, and nothing buffered before counts |
| WsInbound.CloseStartsOver | WebSocket.cpp:276-286 | So does a chunk of a close frame |
| WsInbound.FirstKindCounts | WebSocket.cpp:310-325 | A frame has the kind that it began with |
| WsInbound.WhateverArrives | WebSocket.cpp:249-337 | Over any chunks: the first that carries anything opens, a whole close frame and nothing else tears down, and a frame without octets is never delivered |
| WsInbound.Receiver.constructor | WebSocket.cpp:509-510 | Nothing buffered, nothing delivered |
| WsInbound.Receiver.WriteCallback | WebSocket.cpp:249-337 | State and deliveries after one call of the write callback |
| WsInbound.Receiver.CloseChunk | WebSocket.cpp:276-308 | The part for close frames |
| WsInbound.Receiver.DataChunk | WebSocket.cpp:310-336 | The part for data frames |
| EvBackends.ReplayBoth | libev/ev_poll.c:54-89 | After any history both backends hold the map the history makes; with accurate masks every descriptor is watched for what was last asked |
| EvInterest.AccurateMeansLastAsked | libev/ev.c:2434-2457 | With accurate old masks the map gives each descriptor the mask last asked for |
| EvInterest.StaleMaskMattersIff | libev/ev_poll.c:59-60 | A stale old mask spoils a call exactly when it happens to equal the new one |
| EvPoll.NoDuplicates | libev/ev_poll.c:54-89 | No two entries name one descriptor, and the entries name exactly the watched descriptors |
| EvPoll.RemoveKeeps | libev/ev_poll.c:79-88 | Swap-remove keeps entries and index inverse and forgets exactly one descriptor |
| EvPoll.PollBackend.constructor | libev/ev_poll.c:54-60 | Empty arrays watch nothing |
| EvPoll.PollBackend.PollModify | libev/ev_poll.c:54-89 | Entries and index stay inverse and the map changes as asked, through growth of both arrays |
| EvPoll.PollBackend.Entry | libev/ev_poll.c:62-73 | Finds or makes the entry of a descriptor |
| EvPoll.PollBackend.RemoveEntry | libev/ev_poll.c:79-88 | In place: forgets one descriptor |
| EvPoll.NextSize | libev/ev.c:2247-2265 | Growth is enough and strict: doubled until it is enough, or, for large arrays, as many elements as fill the whole pages that this would need, less 32 octets |
| EvPoll.KernelMasks | libev/ev_poll.c:74-78 | The masks handed to poll, in numbers |
| EvSelect.AssignHas | libev/ev_select.c:125-136 | Setting or clearing the bit of one descriptor leaves all others alone, over the whole array |
| EvSelect.ModifyRefines | libev/ev_select.c:106-137 | One call on the two word arrays is one update of the map |
| EvSelect.SelectBackend.constructor | libev/ev_select.c:106-110 | Empty arrays watch nothing |
| EvSelect.SelectBackend.SelectModify | libev/ev_select.c:106-137 | The map changes as asked, words stay within 64 bits, through growth |
| EvSelect.SelectBackend.Grow | libev/ev_select.c:113-123 | Old words kept, new words zero |
| EvSelect.SelectBackend.SetBit | libev/ev_select.c:125-136 | In place: one bit of one array |
| LogUpload.EveryRunKeeps | HttpClient.cpp:791-874 | Under every interleaving of calls and completions the uploading paths are the disjoint union of the paths held by the calls, and each call's summary is the tally of its outcomes |
| LogUpload.CallbackIsFinal | HttpClient.cpp:825-858 | A callback fires at most once, after every file is counted, with the tally of all outcomes; succeeded equals removed and is at most the total |
| LogUpload.SettledCall | HttpClient.cpp:825-858 | When all completions have returned the callback has fired and no path is held |
| LogUpload.CallbackFindsHeldIff | HttpClient.cpp:844-858 | At the return that fires the callback a path of the call is still held exactly when some other completion has been counted and not released |
| LogUpload.CallbackFindsHeldIsReached | HttpClient.cpp:844-858 | A run of two files that gets there |
| LogUpload.ClaimIsExact | HttpClient.cpp:802-811 | A claim takes each free path once, nothing in flight, and leaves nothing out |
| LogUpload.Uploads.constructor | HttpClient.cpp:793-794 | Nothing is uploading |
| LogUpload.Uploads.Claim | HttpClient.cpp:800-811 | Computes the claim and adds it to the shared set |
| LogUpload.Uploads.Release | HttpClient.cpp:850-853 | Removes one path |
| LogUpload.State.constructor | HttpClient.cpp:820-829 | All files pending, nothing counted |
| LogUpload.State.FinishOne | HttpClient.cpp:831-849 | Counts one outcome; says done exactly at the last, with the final summary |

## Left out

- Locks finer than the steps above, memory ordering, and the destructor of the controller, which clears the owner while threads may run.
- Generation counters are unbounded numbers; the code's 64-bit counters would need 2^64 events to wrap.
- `SignalProgress.NeverStranded`: assumes non-empty urls, a QUIC socket that is not already open when opened, and sockets that make each terminal callback once; a socket that never calls back is outside it.
- `SignalLocks.StepHaltsIff`: says which steps do not return, not what the other threads do afterwards; what comes in during a join is what the TCP worker calls back and what a fallback lands; callbacks of the QUIC loop while either leg is joined are not part of the step, and neither is a fallback that opens TCP during the join (Signal.cpp:390), which would assign the thread being joined (WebSocket.cpp:539); that closing QUIC from its own callback does not return is taken from Signal.cpp:270, since the QUIC library itself is not part of this model.
- `SignalPrivate.Private.ConnectTo`: takes the token query added to the url, the SNI host and the connect timeout as given.
- `SignalPrivate.Private.ConnectBestUrl`: leaves out the choice of the node and the join flags, round-trip times and important requests that it resets.
- `SignalPrivate.Private.KeepaliveThreadEnds`: takes as given that the answer is overdue; the pings themselves are sends and are not modelled.
- `SignalPrivate.Private.HandleReceiveSignalResponse`: models what a response does to the connection, not what the listeners are told; whether an id is important is part of the response.
- `DeferredRequests.EveryRunKeeps`: packing and unpacking are taken to be inverse and never to fail.
- `WsOutbound.SendQueue.SendDirect`: requires that its loop ends, for which `SendLoopEndsIff` gives the exact condition; the code has no way out of a loop that does not.
- `WsOutbound.SendQueue.FlushOne`: requires the same of its one item.
- `WsOutbound.SendQueue.FlushSendQueue`: requires the same of every item it comes to, as `FlushEndsIff` says; two workers at once, which an open over an unjoined one would make, are not modelled.
- `PbJson.RoundTrip`: descriptors are those of proto3, which PbCJson.h:10 is for: every default is zero or empty, as in all of rtc.pb-c.c; a descriptor with any other default for a number, an enum, a string or octets, as proto2 allows, is outside the theorem; JSON is a value, its text form and UTF-8 checks belong to the JSON library; floating-point members are reals, without rounding, infinities or negative zero; field lookup by name in protobuf-c is exact; two JSON members of one oneof do not occur in printed objects.
- `PbJson.UnsetIsFresh`: the same restriction to descriptors whose defaults are zero and empty.
- `Naming.FindField`: keys are compared whole; the code looks a key with a NUL in it up by the part before the NUL (PbCJson.cpp:288), which no printed key has.
- `PbReading.FractionsRead`: says nothing of fractions that the integer type cannot hold, whose conversion C leaves undefined.
- `SignalOutcomes.FailureComesTo`: the kinds of errors are taken as the sockets report them; the tables that map library codes to kinds are not modelled.
- `WsOutbound.TornDownSinceOpening`: is about the sending side; a close frame that arrives (`WhateverArrives`) and a close that is asked for tear down too.
- `PbTyping.ParsedIsTypedAndNormal`: needs schemas whose enum numbers are 32-bit, as C makes them.
- `PbCodec.MergeField`: works on values; ownership and freeing of memory are not modelled.
- `Base64.Base64Decode`: shifts and masks are written as arithmetic.
- `QuicVarint.PutUVarInt`: shifts and masks are written as arithmetic.
- `EvSelect.SelectBackend.SelectModify`: words are numbers with recursively defined bit operations; the form with fd_set and the Windows form are not modelled.
- `EvPoll.PollBackend.PollModify`: takes descriptors and masks as libev asserts them; the kernel calls are not modelled.
- `RequestWorker.EveryRunKeeps`: a completion callback that throws and the destruction of the worker are not modelled.
- `LogUpload.EveryRunKeeps`: reading files, compression and the transfer itself are reduced to an outcome per file.
- libcurl, OpenSSL, zstd, ngtcp2 and protobuf-c are environments; JNI and Objective-C glue, generated tables, node selection and STUN, the file logger, certificates, url helpers and the other libev backends would only add easy members or are I/O.
