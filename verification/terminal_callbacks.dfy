/**
 The guard that both sockets put around their two terminal callbacks
 (fireError and fireClose in QuicSocket.cpp and WebSocket.cpp).
 */
module TerminalCallbacks {
  datatype Terminal = Error | Close

  /** The two flags, and the callbacks that have reached the owner so far. */
  datatype Fuse = Fuse(errorReported: bool, closeCalled: bool, fired: seq<Terminal>)

  const FRESH := Fuse(false, false, [])

  function Fire(f: Fuse, t: Terminal): Fuse
  {
    match t
    case Error =>
      if f.errorReported then f
      else Fuse(true, true, f.fired + [Error])
    case Close =>
      if f.closeCalled || f.errorReported then f.(closeCalled := true)
      else Fuse(f.errorReported, true, f.fired + [Close])
  }

  function FireAll(f: Fuse, ts: seq<Terminal>): Fuse
    decreases |ts|
  {
    if ts == [] then f else FireAll(Fire(f, ts[0]), ts[1..])
  }

  /** What the owner hears of a whole run of terminal events: the first one, plus the first
      error when the run opened with a close. */
  function Heard(ts: seq<Terminal>): seq<Terminal>
  {
    if ts == [] then []
    else if ts[0] == Error then [Error]
    else if Error in ts then [Close, Error]
    else [Close]
  }

  /** Complete behaviour of the guard over every run that follows an open. */
  lemma OwnerHears(ts: seq<Terminal>)
    ensures FireAll(FRESH, ts).fired == Heard(ts)
  {
    if ts != [] {
      var f := Fire(FRESH, ts[0]);
      if ts[0] == Error {
        BlownByError(f, ts[1..]);
      } else {
        AfterClose(f, ts[1..]);
        assert Error in ts <==> Error in ts[1..];
      }
    }
  }

  lemma {:induction false} BlownByError(f: Fuse, ts: seq<Terminal>)
    requires f.errorReported
    ensures FireAll(f, ts).fired == f.fired
    decreases |ts|
  {
    if ts != [] {
      BlownByError(Fire(f, ts[0]), ts[1..]);
    }
  }

  lemma {:induction false} AfterClose(f: Fuse, ts: seq<Terminal>)
    requires f.closeCalled && !f.errorReported
    ensures FireAll(f, ts).fired == f.fired + if Error in ts then [Error] else []
    decreases |ts|
  {
    if ts != [] {
      if ts[0] == Error {
        BlownByError(Fire(f, Error), ts[1..]);
      } else {
        AfterClose(f, ts[1..]);
        assert Error in ts <==> Error in ts[1..];
      }
    }
  }

  /** Any terminal event sets the close flag, and the error flag is set by an error and by nothing else. */
  lemma FlagsAfter(f: Fuse, t: Terminal)
    ensures Fire(f, t).closeCalled || f.errorReported
    ensures t == Close ==> Fire(f, t).closeCalled
    ensures Fire(f, t).errorReported <==> f.errorReported || t == Error
  {
  }

  /** Some `later` callback comes after an `earlier` one. */
  predicate Follows(fired: seq<Terminal>, later: Terminal, earlier: Terminal)
  {
    exists i, j :: 0 <= i < j < |fired| && fired[i] == earlier && fired[j] == later
  }

  /** The documented exclusion of close by error holds in one direction only: an error is
      still delivered after a close, exactly when the run opens with a close and holds an error. */
  lemma ErrorAfterCloseIff(ts: seq<Terminal>)
    ensures Follows(FireAll(FRESH, ts).fired, Error, Close)
        <==> ts != [] && ts[0] == Close && Error in ts
    ensures !Follows(FireAll(FRESH, ts).fired, Close, Error)
  {
    OwnerHears(ts);
    var fired := FireAll(FRESH, ts).fired;
    if ts != [] && ts[0] == Close && Error in ts {
      assert fired[0] == Close && fired[1] == Error;
    }
  }
}
