/**
 The poll and select backends of libev, given the same calls, represent the same map.
 */
module EvBackends {
  import opened EvInterest
  import opened EvPoll
  import opened EvSelect

  /** Any history of calls, with accurate masks or not, leaves both backends with the map that the
      history makes; with accurate masks that is what was last asked for every descriptor. */
  method ReplayBoth(history: seq<Change>) returns (poll: PollBackend, select: SelectBackend)
    requires forall i :: 0 <= i < |history| ==> Masks(history[i])
    ensures poll.Valid() && select.Valid()
    ensures poll.Interest() == select.Interest() == Replay(map[], history)
    ensures Accurate(map[], history) ==>
              forall fd: nat :: Watched(poll.Interest(), fd) == LastAsked(history, fd, 0)
  {
    poll := new PollBackend();
    select := new SelectBackend();
    var i := 0;
    while i < |history|
      invariant i <= |history|
      invariant poll.Valid() && select.Valid()
      invariant fresh(poll) && fresh(poll.polls) && fresh(poll.pollidxs)
      invariant fresh(select) && fresh(select.vecRi) && fresh(select.vecWi)
      invariant poll.Interest() == select.Interest()
      invariant Replay(poll.Interest(), history[i..]) == Replay(map[], history)
    {
      var c := history[i];
      assert history[i..][1..] == history[i + 1..];
      poll.PollModify(c.fd, c.oev, c.nev);
      select.SelectModify(c.fd, c.oev, c.nev);
      i := i + 1;
    }
    if Accurate(map[], history) {
      forall fd: nat
        ensures Watched(Replay(map[], history), fd) == LastAsked(history, fd, 0)
      {
        AccurateMeansLastAsked(map[], history, fd);
      }
    }
  }
}
