/**
 What a libev backend is told: which events each descriptor is watched for. Both backends are proved
 against this map.
 */
module EvInterest {
  const EV_READ: nat := 1
  const EV_WRITE: nat := 2

  /** Descriptors watched for something, each with its non-empty event mask. */
  type Interest = map<nat, nat>

  /** One call of backend_modify. */
  datatype Change = Change(fd: nat, oev: nat, nev: nat)

  /** libev asserts that a watcher asks for nothing but reading and writing. */
  predicate Mask(ev: nat)
  {
    ev <= EV_READ + EV_WRITE
  }

  predicate Wants(ev: nat, flag: nat)
    requires flag == EV_READ || flag == EV_WRITE
  {
    ev / flag % 2 == 1
  }

  predicate Masks(c: Change)
  {
    Mask(c.oev) && Mask(c.nev)
  }

  function Watched(m: Interest, fd: nat): nat
  {
    if fd in m then m[fd] else 0
  }

  function Updated(m: Interest, c: Change): Interest
  {
    if c.oev == c.nev then m
    else if c.nev == 0 then m - {c.fd}
    else m[c.fd := c.nev]
  }

  function Replay(m: Interest, history: seq<Change>): Interest
    decreases |history|
  {
    if history == [] then m else Replay(Updated(m, history[0]), history[1..])
  }

  /** Each call names the mask in force, as fd_reify does. */
  predicate Accurate(m: Interest, history: seq<Change>)
    decreases |history|
  {
    history == []
    || (history[0].oev == Watched(m, history[0].fd) && Accurate(Updated(m, history[0]), history[1..]))
  }

  /** The mask the last call for a descriptor asked for. */
  function LastAsked(history: seq<Change>, fd: nat, otherwise: nat): nat
  {
    if history == [] then otherwise
    else
      var last := history[|history| - 1];
      if last.fd == fd then last.nev else LastAsked(history[..|history| - 1], fd, otherwise)
  }

  lemma {:induction false} LastAskedHead(history: seq<Change>, fd: nat, otherwise: nat)
    requires history != []
    ensures LastAsked(history, fd, otherwise)
         == LastAsked(history[1..], fd, if history[0].fd == fd then history[0].nev else otherwise)
    decreases |history|
  {
    if |history| > 1 {
      LastAskedHead(history[..|history| - 1], fd, otherwise);
      assert history[1..][..|history| - 2] == history[..|history| - 1][1..];
    } else {
      assert history[..0] == [];
    }
  }

  /** With accurate masks every descriptor ends up watched for exactly what was last asked. */
  lemma {:induction false} AccurateMeansLastAsked(m: Interest, history: seq<Change>, fd: nat)
    requires Accurate(m, history)
    ensures Watched(Replay(m, history), fd) == LastAsked(history, fd, Watched(m, fd))
    decreases |history|
  {
    if history != [] {
      LastAskedHead(history, fd, Watched(m, fd));
      AccurateMeansLastAsked(Updated(m, history[0]), history[1..], fd);
    }
  }

  /** A stale mask is harmless unless it happens to equal the new one. */
  lemma StaleMaskMattersIff(m: Interest, c: Change)
    ensures Watched(Updated(m, c), c.fd) != c.nev <==> c.oev == c.nev && c.oev != Watched(m, c.fd)
    ensures forall fd: nat :: fd != c.fd ==> Watched(Updated(m, c), fd) == Watched(m, fd)
  {
  }
}
