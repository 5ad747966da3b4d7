/**
 The poll(2) backend of libev: a dense array of entries handed to the kernel, and an inverse index
 from descriptors to entries. Removal moves the last entry into the hole.
 */
module EvPoll {
  import opened EvInterest

  const POLLIN: nat := 1
  const POLLOUT: nat := 4

  datatype PollFd = PollFd(fd: nat, events: nat)

  function ToPoll(ev: nat): nat
  {
    (if Wants(ev, EV_READ) then POLLIN else 0) + (if Wants(ev, EV_WRITE) then POLLOUT else 0)
  }

  function FromPoll(events: nat): nat
  {
    (if events % 2 == 1 then EV_READ else 0) + (if events / POLLOUT % 2 == 1 then EV_WRITE else 0)
  }

  lemma PollMaskRestores(ev: nat)
    requires Mask(ev)
    ensures FromPoll(ToPoll(ev)) == ev
    ensures ToPoll(ev) == 0 <==> ev == 0
  {
  }

  /** What poll(2) is told for each mask. */
  lemma KernelMasks(ev: nat)
    requires ev <= 3
    ensures Mask(ev) && ToPoll(ev) == (if ev == 0 then 0 else if ev == 1 then 0x1 else if ev == 2 then 0x4 else 0x5)
  {
  }

  const MALLOC_ROUND: nat := 4096
  const MALLOC_EXTRA: nat := 32
  const POLLFD_BYTES: nat := 8
  const INT_BYTES: nat := 4

  lemma {:induction false} Monotone(c: nat, a: nat, b: nat)
    requires a <= b
    ensures c * a <= c * b
    decreases b - a
  {
    if a < b {
      Monotone(c, a, b - 1);
      assert c * b == c * (b - 1) + c;
    }
  }

  lemma Larger(c: nat, a: nat, b: nat)
    requires c * a > c * b
    ensures a > b
  {
    if a <= b {
      Monotone(c, a, b);
    }
  }

  lemma RoundedUp(elem: nat, n: nat, bytes: nat)
    requires elem > 0 && bytes >= elem * n
    ensures bytes / elem >= n
  {
    var q := bytes / elem;
    assert elem * (q + 1) == elem * q + elem;
    Larger(elem, q + 1, n);
  }

  /** Doubled until it is enough. */
  function Doubled(n: nat, cnt: nat): (m: nat)
    requires n > 0
    ensures m >= cnt && m >= n
    decreases cnt - n
  {
    if cnt > n then Doubled(2 * n, cnt) else n
  }

  /** `size` elements are as many as fit into the whole pages that `n` and one more would need, when the
      allocator keeps 32 octets of them for itself. */
  predicate FillsPages(elem: nat, n: nat, size: nat)
  {
    var octets := (elem * n + elem + 32 + 4095) / 4096 * 4096 - 32;
    elem * size <= octets < elem * size + elem
  }

  lemma Fills(elem: nat, octets: nat)
    requires elem > 0
    ensures elem * (octets / elem) <= octets < elem * (octets / elem) + elem
  {
  }

  /** array_nextsize: doubled until it is enough, and large arrays rounded to whole pages less the
      allocator's own words. */
  method NextSize(elem: nat, cur: nat, cnt: nat) returns (size: nat)
    requires elem > 0
    ensures size >= cnt && size > cur
    ensures var n := Doubled(2 * (cur + 1), cnt); if elem * n <= 4064 then size == n else FillsPages(elem, n, size)
  {
    size := 2 * (cur + 1);
    while cnt > size
      invariant size > cur && Doubled(size, cnt) == Doubled(2 * (cur + 1), cnt)
      decreases cnt - size
    {
      size := 2 * size;
    }
    if elem * size > MALLOC_ROUND - MALLOC_EXTRA {
      var wanted := size * elem + elem + (MALLOC_ROUND - 1) + MALLOC_EXTRA;
      var bytes := wanted - wanted % MALLOC_ROUND - MALLOC_EXTRA;
      RoundedUp(elem, size, bytes);
      Fills(elem, bytes);
      size := bytes / elem;
    }
  }

  // ----- entries and index as values

  ghost predicate EntriesIndexed(entries: seq<PollFd>, index: seq<int>)
  {
    forall i :: 0 <= i < |entries| ==> entries[i].fd < |index| && index[entries[i].fd] == i
  }

  ghost predicate IndexNamesEntries(entries: seq<PollFd>, index: seq<int>)
  {
    forall fd :: 0 <= fd < |index| ==>
      index[fd] == -1 || (0 <= index[fd] < |entries| && entries[index[fd]].fd == fd)
  }

  ghost predicate EntriesWanted(entries: seq<PollFd>)
  {
    forall i :: 0 <= i < |entries| ==> FromPoll(entries[i].events) != 0
  }

  /** Entries and index are inverse to each other; no entry is stale, none is repeated. */
  ghost predicate Inverse(entries: seq<PollFd>, index: seq<int>)
  {
    EntriesIndexed(entries, index) && IndexNamesEntries(entries, index)
  }

  ghost function InterestOf(entries: seq<PollFd>, index: seq<int>): Interest
    requires IndexNamesEntries(entries, index)
  {
    map fd: nat | 0 <= fd < |index| && index[fd] != -1 :: FromPoll(entries[index[fd]].events)
  }

  /** No two entries name the same descriptor, and the descriptors named are those watched. */
  lemma NoDuplicates(entries: seq<PollFd>, index: seq<int>)
    requires Inverse(entries, index)
    ensures forall i, j :: 0 <= i < j < |entries| ==> entries[i].fd != entries[j].fd
    ensures forall fd :: fd in InterestOf(entries, index) <==> exists i :: 0 <= i < |entries| && entries[i].fd == fd
  {
  }

  ghost function Longer(index: seq<int>, size: nat): seq<int>
    requires |index| <= size
  {
    index + seq(size - |index|, _ => -1)
  }

  lemma LongerKeeps(entries: seq<PollFd>, index: seq<int>, size: nat)
    requires Inverse(entries, index) && |index| <= size
    ensures Inverse(entries, Longer(index, size))
    ensures InterestOf(entries, Longer(index, size)) == InterestOf(entries, index)
  {
  }

  lemma AddKeeps(entries: seq<PollFd>, index: seq<int>, fd: nat, events: nat)
    requires Inverse(entries, index) && fd < |index| && index[fd] == -1
    ensures var e, x := entries + [PollFd(fd, events)], index[fd := |entries|];
            Inverse(e, x) && InterestOf(e, x) == InterestOf(entries, index)[fd := FromPoll(events)]
  {
  }

  lemma AddedKeepsOthers(entries: seq<PollFd>, index: seq<int>, fd: nat, events: nat)
    requires Inverse(entries, index) && fd < |index| && index[fd] == -1 && EntriesWanted(entries)
    ensures var e, x := entries + [PollFd(fd, events)], index[fd := |entries|];
            Inverse(e, x) && InterestOf(e, x) - {fd} == InterestOf(entries, index)
            && forall i :: 0 <= i < |e| && i != |entries| ==> FromPoll(e[i].events) != 0
  {
    AddKeeps(entries, index, fd, events);
    var m := InterestOf(entries, index);
    assert fd !in m && m[fd := FromPoll(events)] - {fd} == m;
  }

  lemma ChangeKeeps(entries: seq<PollFd>, index: seq<int>, fd: nat, events: nat)
    requires Inverse(entries, index) && fd < |index| && index[fd] != -1
    ensures var e := entries[index[fd] := PollFd(fd, events)];
            Inverse(e, index) && InterestOf(e, index) == InterestOf(entries, index)[fd := FromPoll(events)]
  {
  }

  /** Swap-remove: the last entry moves into the hole, and its index with it. */
  ghost function RemainingEntries(entries: seq<PollFd>, idx: nat): seq<PollFd>
    requires idx < |entries|
  {
    entries[idx := entries[|entries| - 1]][..|entries| - 1]
  }

  ghost function RemainingIndex(entries: seq<PollFd>, index: seq<int>, fd: nat): seq<int>
    requires EntriesIndexed(entries, index) && fd < |index| && 0 <= index[fd] < |entries|
  {
    var idx := index[fd];
    if idx < |entries| - 1 then index[fd := -1][entries[|entries| - 1].fd := idx] else index[fd := -1]
  }

  lemma RemoveKeeps(entries: seq<PollFd>, index: seq<int>, fd: nat)
    requires Inverse(entries, index) && fd < |index| && index[fd] != -1
    ensures var e, x := RemainingEntries(entries, index[fd]), RemainingIndex(entries, index, fd);
            Inverse(e, x) && InterestOf(e, x) == InterestOf(entries, index) - {fd}
  {
    RemoveKeepsInverse(entries, index, fd);
    var e, x := RemainingEntries(entries, index[fd]), RemainingIndex(entries, index, fd);
    var m, n := InterestOf(e, x), InterestOf(entries, index) - {fd};
    forall k
      ensures (k in m <==> k in n) && (k in m ==> m[k] == n[k])
    {
      RemoveKeepsOthers(entries, index, fd, k);
    }
  }

  lemma RemoveKeepsInverse(entries: seq<PollFd>, index: seq<int>, fd: nat)
    requires Inverse(entries, index) && fd < |index| && index[fd] != -1
    ensures Inverse(RemainingEntries(entries, index[fd]), RemainingIndex(entries, index, fd))
  {
    var e, x := RemainingEntries(entries, index[fd]), RemainingIndex(entries, index, fd);
    var last := entries[|entries| - 1];
    assert index[last.fd] == |entries| - 1;
    forall i | 0 <= i < |e|
      ensures e[i].fd < |x| && x[e[i].fd] == i
    {
      assert index[entries[i].fd] == i;
    }
    forall k | 0 <= k < |x| && x[k] != -1
      ensures 0 <= x[k] < |e| && e[x[k]].fd == k
    {
      assert k != fd;
    }
  }

  /** Every other descriptor keeps its events, also the one whose entry has moved. */
  lemma RemoveKeepsOthers(entries: seq<PollFd>, index: seq<int>, fd: nat, k: int)
    requires Inverse(entries, index) && fd < |index| && index[fd] != -1
    ensures var e, x := RemainingEntries(entries, index[fd]), RemainingIndex(entries, index, fd);
            0 <= k < |index| && k != fd ==>
              (x[k] == -1 <==> index[k] == -1)
              && (index[k] != -1 ==> 0 <= x[k] < |e| && e[x[k]].events == entries[index[k]].events)
    ensures 0 <= fd < |RemainingIndex(entries, index, fd)| && RemainingIndex(entries, index, fd)[fd] == -1
  {
    var last := entries[|entries| - 1];
    assert index[last.fd] == |entries| - 1;
    assert entries[index[fd]].fd == fd;
  }

  lemma SameElsewhere(m: Interest, n: Interest, fd: nat, ev: nat)
    requires m - {fd} == n - {fd}
    ensures m[fd := ev] == n[fd := ev]
  {
    assert forall k :: k != fd ==> (k in m <==> k in m - {fd}) && (k in n <==> k in n - {fd});
    forall k | k != fd && k in m
      ensures k in n && m[k] == n[k]
    {
      assert (m - {fd})[k] == (n - {fd})[k];
    }
  }

  class PollBackend {
    var polls: array<PollFd>
    var pollcnt: nat
    var pollidxs: array<int>

    constructor ()
      ensures Valid() && fresh(polls) && fresh(pollidxs)
      ensures Interest() == map[]
    {
      polls := new PollFd[0];
      pollidxs := new int[0];
      pollcnt := 0;
    }

    ghost predicate Valid()
      reads this, polls, pollidxs
    {
      && pollcnt <= polls.Length
      && Inverse(polls[..pollcnt], pollidxs[..])
      && EntriesWanted(polls[..pollcnt])
    }

    ghost function Interest(): Interest
      reads this, polls, pollidxs
      requires Valid()
    {
      InterestOf(polls[..pollcnt], pollidxs[..])
    }

    static method Widened(index: array<int>, size: nat) returns (wider: array<int>)
      requires index.Length <= size
      ensures fresh(wider) && wider[..] == Longer(index[..], size)
    {
      wider := new int[size];
      forall i | 0 <= i < size { wider[i] := if i < index.Length then index[i] else -1; }
    }

    method GrowIndex(fd: nat)
      requires Valid()
      modifies `pollidxs
      ensures Valid() && fd < pollidxs.Length && Interest() == old(Interest())
      ensures pollidxs == old(pollidxs) || fresh(pollidxs)
    {
      if pollidxs.Length <= fd {
        var size := NextSize(INT_BYTES, pollidxs.Length, fd + 1);
        LongerKeeps(polls[..pollcnt], pollidxs[..], size);
        pollidxs := Widened(pollidxs, size);
      }
    }

    method GrowPolls(cnt: nat)
      requires pollcnt <= polls.Length && pollcnt <= cnt
      modifies `polls
      ensures pollcnt <= polls.Length && cnt <= polls.Length
      ensures polls[..pollcnt] == old(polls[..pollcnt])
      ensures polls == old(polls) || fresh(polls)
    {
      if polls.Length < cnt {
        var size := NextSize(POLLFD_BYTES, polls.Length, cnt);
        var wider := new PollFd[size];
        forall i | 0 <= i < polls.Length { wider[i] := polls[i]; }
        assert wider[..pollcnt] == polls[..pollcnt];
        polls := wider;
      }
    }

    method PollModify(fd: nat, oev: nat, nev: nat)
      requires Valid() && Mask(oev) && Mask(nev)
      modifies this, polls, pollidxs
      ensures Valid() && Interest() == Updated(old(Interest()), Change(fd, oev, nev))
      ensures polls == old(polls) || fresh(polls)
      ensures pollidxs == old(pollidxs) || fresh(pollidxs)
    {
      if oev == nev {
        return;
      }
      ghost var before := Interest();
      var idx := Entry(fd);
      SameElsewhere(before, InterestOf(polls[..pollcnt], pollidxs[..]), fd, nev);
      if nev != 0 {
        SetEvents(fd, idx, nev);
      } else {
        RemoveEntry(fd, idx);
      }
    }

    /** The entry of a descriptor, made when there is none. */
    method Entry(fd: nat) returns (idx: nat)
      requires Valid()
      modifies this, polls, pollidxs
      ensures ValidBut(idx) && fd < pollidxs.Length && pollidxs[fd] == idx
      ensures InterestOf(polls[..pollcnt], pollidxs[..]) - {fd} == old(Interest()) - {fd}
      ensures polls == old(polls) || fresh(polls)
      ensures pollidxs == old(pollidxs) || fresh(pollidxs)
    {
      GrowIndex(fd);
      if pollidxs[fd] < 0 {
        ghost var m := Interest();
        assert m - {fd} == m;
        idx := AddEntry(fd);
      } else {
        idx := pollidxs[fd];
      }
    }

    /** A new entry, whose events are not set yet. */
    method AddEntry(fd: nat) returns (idx: nat)
      requires Valid() && fd < pollidxs.Length && pollidxs[fd] == -1
      modifies `pollcnt, `polls, polls, pollidxs
      ensures ValidBut(idx) && pollidxs[fd] == idx
      ensures InterestOf(polls[..pollcnt], pollidxs[..]) - {fd} == old(Interest())
      ensures polls == old(polls) || fresh(polls)
    {
      idx := pollcnt;
      GrowPolls(pollcnt + 1);
      ghost var entries, index := polls[..pollcnt], pollidxs[..];
      AddedKeepsOthers(entries, index, fd, polls[idx].events);
      PlaceEntry(fd);
    }

    method PlaceEntry(fd: nat)
      requires pollcnt < polls.Length && fd < pollidxs.Length
      modifies `pollcnt, polls, pollidxs
      ensures pollcnt == old(pollcnt) + 1
      ensures polls[..pollcnt] == old(polls[..pollcnt]) + [PollFd(fd, old(polls[pollcnt].events))]
      ensures pollidxs[..] == old(pollidxs[..])[fd := old(pollcnt)]
    {
      pollidxs[fd] := pollcnt;
      polls[pollcnt] := PollFd(fd, polls[pollcnt].events);
      pollcnt := pollcnt + 1;
    }

    ghost predicate ValidBut(idx: nat)
      reads this, polls, pollidxs
    {
      && idx < pollcnt <= polls.Length
      && Inverse(polls[..pollcnt], pollidxs[..])
      && forall i :: 0 <= i < pollcnt && i != idx ==> FromPoll(polls[..pollcnt][i].events) != 0
    }

    method SetEvents(fd: nat, idx: nat, nev: nat)
      requires ValidBut(idx) && fd < pollidxs.Length && pollidxs[fd] == idx
      requires Mask(nev) && nev != 0
      modifies polls
      ensures Valid() && Interest() == old(InterestOf(polls[..pollcnt], pollidxs[..]))[fd := nev]
    {
      ghost var entries := polls[..pollcnt];
      PollMaskRestores(nev);
      ChangeKeeps(entries, pollidxs[..], fd, ToPoll(nev));
      assert polls[idx].fd == fd;
      polls[idx] := PollFd(fd, ToPoll(nev));
      assert polls[..pollcnt] == entries[idx := PollFd(fd, ToPoll(nev))];
    }

    method RemoveEntry(fd: nat, idx: nat)
      requires ValidBut(idx) && fd < pollidxs.Length && pollidxs[fd] == idx
      modifies `pollcnt, polls, pollidxs
      ensures Valid() && Interest() == old(InterestOf(polls[..pollcnt], pollidxs[..])) - {fd}
    {
      ghost var entries, index := polls[..pollcnt], pollidxs[..];
      RemoveKeeps(entries, index, fd);
      pollidxs[fd] := -1;
      pollcnt := pollcnt - 1;
      if idx < pollcnt {
        polls[idx] := polls[pollcnt];
        assert polls[idx] == entries[pollcnt];
        pollidxs[polls[idx].fd] := idx;
      }
      assert polls[..pollcnt] == RemainingEntries(entries, idx);
      assert pollidxs[..] == RemainingIndex(entries, index, fd);
    }
  }
}
