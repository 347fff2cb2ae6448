/** The poll(2) registry (net/poller.cc): a vector of poll entries, a map from descriptor to
    channel, and the index each channel keeps into the vector. `C` is the type of channels. */
module Pollers {

  datatype PollFd = PollFd(fd: int, events: int, revents: int)

  /** `index` holds the channels whose index is not negative; a channel never loses its index. */
  datatype Registry<C(==)> = Registry(pollfds: seq<PollFd>, channels: map<int, C>, index: map<C, int>)

  /** A call of `UpdateChannel` for a channel on descriptor `fd` interested in `events`. */
  datatype Call<C> = Call(ch: C, fd: int, events: int)

  /** The asserts of `UpdateChannel`. */
  predicate Passes<C(==)>(r: Registry<C>, call: Call<C>) {
    if call.ch !in r.index then call.fd !in r.channels
    else
      && call.fd in r.channels
      && r.channels[call.fd] == call.ch
      && 0 <= r.index[call.ch] < |r.pollfds|
      && (r.pollfds[r.index[call.ch]].fd == call.fd || r.pollfds[r.index[call.ch]].fd == -1)
  }

  ghost predicate Removes<C>(r: Registry<C>, call: Call<C>) {
    call.ch in r.index && call.events == 0
  }

  function Update<C(==)>(r: Registry<C>, call: Call<C>): Registry<C>
    requires Passes(r, call)
  {
    if call.ch !in r.index then
      Registry(r.pollfds + [PollFd(call.fd, call.events, 0)],
               r.channels[call.fd := call.ch],
               r.index[call.ch := |r.pollfds|])
    else
      var idx := r.index[call.ch];
      if call.events == 0 then
        r.(channels := r.channels - {r.pollfds[idx].fd}, pollfds := r.pollfds[..idx] + r.pollfds[idx + 1..])
      else
        r.(pollfds := r.pollfds[idx := PollFd(r.pollfds[idx].fd, call.events, 0)])
  }

  ghost predicate PassesAll<C>(r: Registry<C>, calls: seq<Call<C>>)
    decreases |calls|
  {
    calls != [] ==>
      calls[0].fd >= 0 && Passes(r, calls[0]) && PassesAll(Update(r, calls[0]), calls[1..])
  }

  ghost function Run<C>(r: Registry<C>, calls: seq<Call<C>>): Registry<C>
    requires PassesAll(r, calls)
    decreases |calls|
  {
    if calls == [] then r else Run(Update(r, calls[0]), calls[1..])
  }

  ghost function Start<C>(): Registry<C> { Registry([], map[], map[]) }

  // ---- Vector and map agree -----------------------------------------------------------------

  /** The descriptors in the vector are distinct and are the keys of the map. */
  ghost predicate Consistent<C>(r: Registry<C>) {
    && (forall i, j :: 0 <= i < j < |r.pollfds| ==> r.pollfds[i].fd != r.pollfds[j].fd)
    && (forall i :: 0 <= i < |r.pollfds| ==> r.pollfds[i].fd in r.channels && r.pollfds[i].fd >= 0)
    && (forall f :: f in r.channels ==> exists i :: 0 <= i < |r.pollfds| && r.pollfds[i].fd == f)
  }

  /** The channel whose entry is the i-th. */
  ghost function At<C>(r: Registry<C>, i: nat): C
    requires i < |r.pollfds| && r.pollfds[i].fd in r.channels
  {
    r.channels[r.pollfds[i].fd]
  }

  /** No channel has two entries, and no entry sits above its channel's index. */
  ghost predicate Indexed<C>(r: Registry<C>)
    requires Consistent(r)
  {
    && (forall i, j :: 0 <= i < j < |r.pollfds| ==> At(r, i) != At(r, j))
    && (forall i :: 0 <= i < |r.pollfds| ==> At(r, i) in r.index && i <= r.index[At(r, i)])
  }

  ghost predicate Inv<C>(r: Registry<C>) { Consistent(r) && Indexed(r) }

  /** Index agreement: the entry a channel's index names is its own. */
  ghost predicate Agrees<C>(r: Registry<C>)
    requires Inv(r)
  {
    forall i :: 0 <= i < |r.pollfds| ==> r.index[At(r, i)] == i
  }

  lemma RegisterConsistent<C>(r: Registry<C>, call: Call<C>)
    requires Consistent(r) && call.fd >= 0 && Passes(r, call) && call.ch !in r.index
    ensures Consistent(Update(r, call))
    ensures forall i :: 0 <= i < |r.pollfds| ==> At(Update(r, call), i) == At(r, i)
    ensures At(Update(r, call), |r.pollfds|) == call.ch
  {
    var d := Update(r, call);
    assert forall i :: 0 <= i < |r.pollfds| ==> d.pollfds[i] == r.pollfds[i];
    forall f | f in d.channels
      ensures exists i :: 0 <= i < |d.pollfds| && d.pollfds[i].fd == f
    {
      if f in r.channels {
        var i :| 0 <= i < |r.pollfds| && r.pollfds[i].fd == f;
        assert d.pollfds[i].fd == f;
      } else {
        assert d.pollfds[|r.pollfds|].fd == f;
      }
    }
  }

  lemma RegisterKeeps<C>(r: Registry<C>, call: Call<C>)
    requires Inv(r) && call.fd >= 0 && Passes(r, call) && call.ch !in r.index
    ensures Inv(Update(r, call))
    ensures Agrees(Update(r, call)) <==> Agrees(r)
  {
    var d := Update(r, call);
    var n := |r.pollfds|;
    RegisterConsistent(r, call);
    assert d.index == r.index[call.ch := n] && |d.pollfds| == n + 1;
    hide Consistent;
    hide Update;
    forall i | 0 <= i < n
      ensures d.index[At(d, i)] == r.index[At(r, i)] && At(d, i) != call.ch
    {
      assert At(r, i) in r.index;
    }
    forall i, j | 0 <= i < j < |d.pollfds|
      ensures At(d, i) != At(d, j)
    {
      if j < n { assert At(r, i) != At(r, j); }
    }
  }

  lemma ChangeKeeps<C>(r: Registry<C>, call: Call<C>)
    requires Inv(r) && call.fd >= 0 && Passes(r, call) && call.ch in r.index && call.events != 0
    ensures Inv(Update(r, call))
    ensures Agrees(Update(r, call)) <==> Agrees(r)
    ensures |Update(r, call).pollfds| == |r.pollfds| && Update(r, call).index == r.index
    ensures forall i :: 0 <= i < |r.pollfds| ==> At(Update(r, call), i) == At(r, i)
  {
    var d := Update(r, call);
    assert forall i :: 0 <= i < |r.pollfds| ==> d.pollfds[i].fd == r.pollfds[i].fd;
    forall f | f in d.channels
      ensures exists i :: 0 <= i < |d.pollfds| && d.pollfds[i].fd == f
    {
      var i :| 0 <= i < |r.pollfds| && r.pollfds[i].fd == f;
      assert d.pollfds[i].fd == f;
    }
    assert Consistent(d);
    hide Consistent;
    forall i | 0 <= i < |r.pollfds|
      ensures At(d, i) == At(r, i)
    {
      assert d.pollfds[i].fd == r.pollfds[i].fd;
    }
  }

  /** Where everything is after a removal: the entries above the removed one moved down by one,
      the channels' indices stayed. */
  lemma RemovalShifts<C>(r: Registry<C>, call: Call<C>)
    requires Inv(r) && call.fd >= 0 && Passes(r, call) && Removes(r, call)
    ensures Consistent(Update(r, call))
    ensures var d := Update(r, call);
            var idx := r.index[call.ch];
            && |d.pollfds| == |r.pollfds| - 1
            && d.index == r.index
            && forall i :: 0 <= i < |d.pollfds| ==>
                 && d.pollfds[i] == r.pollfds[if i < idx then i else i + 1]
                 && At(d, i) == At(r, if i < idx then i else i + 1)
  {
    var d := Update(r, call);
    var idx := r.index[call.ch];
    assert forall i :: 0 <= i < |d.pollfds| ==> d.pollfds[i] == r.pollfds[if i < idx then i else i + 1];
    forall f | f in d.channels
      ensures exists i :: 0 <= i < |d.pollfds| && d.pollfds[i].fd == f
    {
      var i :| 0 <= i < |r.pollfds| && r.pollfds[i].fd == f;
      assert d.pollfds[if i < idx then i else i - 1].fd == f;
    }
  }

  lemma RemovalKeeps<C>(r: Registry<C>, call: Call<C>)
    requires Inv(r) && call.fd >= 0 && Passes(r, call) && Removes(r, call)
    ensures Inv(Update(r, call))
  {
    RemovalShifts(r, call);
    var d := Update(r, call);
    var idx := r.index[call.ch];
    hide Update;
    hide Consistent;
    forall i, j | 0 <= i < j < |d.pollfds|
      ensures At(d, i) != At(d, j)
    {
    }
  }

  /** A registered channel passes the asserts exactly when its index is right. */
  lemma PassesWhenIndexed<C>(r: Registry<C>, p: nat, events: int)
    requires Inv(r) && p < |r.pollfds|
    ensures Passes(r, Call(At(r, p), r.pollfds[p].fd, events)) <==> r.index[At(r, p)] == p
  {
  }

  lemma UpdateKeeps<C>(r: Registry<C>, call: Call<C>)
    requires Inv(r) && call.fd >= 0 && Passes(r, call)
    ensures Inv(Update(r, call))
  {
    if call.ch !in r.index { RegisterKeeps(r, call); }
    else if call.events != 0 { ChangeKeeps(r, call); }
    else { RemovalKeeps(r, call); }
  }

  /** An update leaves the channel's own entry with the interest asked for and no stale events,
      or removes it, and touches no other descriptor's entry. */
  lemma InterestIsRecorded<C>(r: Registry<C>, call: Call<C>, p: PollFd)
    requires Inv(r) && call.fd >= 0 && Passes(r, call)
    ensures p.fd == call.fd ==>
              (p in Update(r, call).pollfds <==> !Removes(r, call) && p == PollFd(call.fd, call.events, 0))
    ensures p.fd != call.fd ==> (p in Update(r, call).pollfds <==> p in r.pollfds)
  {
    var d := Update(r, call);
    if call.ch in r.index {
      var idx := r.index[call.ch];
      assert r.pollfds == r.pollfds[..idx] + [r.pollfds[idx]] + r.pollfds[idx + 1..];
      if call.events != 0 {
        assert d.pollfds == r.pollfds[..idx] + [PollFd(call.fd, call.events, 0)] + r.pollfds[idx + 1..];
      }
    }
  }

  // ---- Removal ------------------------------------------------------------------------------

  /** Agreement survives a removal exactly when the removed entry was the last one; otherwise
      each later channel's entry sits one below its index and each earlier one is untouched. */
  lemma RemovalKeepsAgreement<C>(r: Registry<C>, call: Call<C>)
    requires Inv(r) && Agrees(r) && call.fd >= 0 && Passes(r, call) && Removes(r, call)
    ensures Inv(Update(r, call))
    ensures var d := Update(r, call);
            var idx := r.index[call.ch];
            && (Agrees(d) <==> idx == |r.pollfds| - 1)
            && forall i :: 0 <= i < |d.pollfds| ==> d.index[At(d, i)] == if i < idx then i else i + 1
  {
    RemovalShifts(r, call);
    RemovalKeeps(r, call);
    var d := Update(r, call);
    if r.index[call.ch] < |d.pollfds| { assert d.index[At(d, r.index[call.ch])] != r.index[call.ch]; }
  }

  /** So after the removal of an entry that was not last, the next update of every later channel
      trips an assert, and that of every earlier one does not. */
  lemma LaterChannelsAbort<C>(r: Registry<C>, call: Call<C>, p: nat, events: int)
    requires Inv(r) && Agrees(r) && call.fd >= 0 && Passes(r, call) && Removes(r, call)
    requires p < |r.pollfds| && p != r.index[call.ch]
    ensures Passes(Update(r, call), Call(At(r, p), r.pollfds[p].fd, events)) <==> p < r.index[call.ch]
  {
    RemovalKeepsAgreement(r, call);
    RemovalShifts(r, call);
    var d := Update(r, call);
    var q := if p < r.index[call.ch] then p else p - 1;
    assert At(d, q) == At(r, p) && d.pollfds[q].fd == r.pollfds[p].fd;
    PassesWhenIndexed(d, q, events);
  }

  /** Three channels, the first removed: the third one's next update trips an assert although
      its entry is still there. */
  lemma StaleIndexExample(fd: int)
    requires fd >= 0
    ensures var calls := [Call(0, fd, 1), Call(1, fd + 1, 1), Call(2, fd + 2, 1), Call(0, fd, 0)];
            && PassesAll(Start<int>(), calls)
            && fd + 2 in Run(Start<int>(), calls).channels
            && !Passes(Run(Start<int>(), calls), Call(2, fd + 2, 5))
  {
    var calls := [Call(0, fd, 1), Call(1, fd + 1, 1), Call(2, fd + 2, 1), Call(0, fd, 0)];
    var r1 := Update(Start<int>(), calls[0]);
    var r2 := Update(r1, calls[1]);
    var r3 := Update(r2, calls[2]);
    assert r3.pollfds == [PollFd(fd, 1, 0), PollFd(fd + 1, 1, 0), PollFd(fd + 2, 1, 0)];
    var r4 := Update(r3, calls[3]);
    assert r4.pollfds == [PollFd(fd + 1, 1, 0), PollFd(fd + 2, 1, 0)];
    assert calls[1..] == [calls[1], calls[2], calls[3]];
    assert calls[1..][1..] == [calls[2], calls[3]];
    assert calls[1..][1..][1..] == [calls[3]];
    assert calls[1..][1..][1..][1..] == [];
    assert PassesAll(r4, []) && Run(r4, []) == r4;
    assert PassesAll(r3, [calls[3]]) && Run(r3, [calls[3]]) == r4;
    assert PassesAll(r2, [calls[2], calls[3]]) && Run(r2, [calls[2], calls[3]]) == r4;
    assert PassesAll(r1, calls[1..]) && Run(r1, calls[1..]) == r4;
  }

  // ---- Runs ---------------------------------------------------------------------------------

  /** Every removal of the run took the last entry of the vector. */
  ghost predicate RemovesLastOnly<C>(r: Registry<C>, calls: seq<Call<C>>)
    requires PassesAll(r, calls)
    decreases |calls|
  {
    calls != [] ==>
      && (Removes(r, calls[0]) ==> r.index[calls[0].ch] == |r.pollfds| - 1)
      && RemovesLastOnly(Update(r, calls[0]), calls[1..])
  }

  lemma RemovalRestoresNothing<C>(r: Registry<C>, call: Call<C>)
    requires Inv(r) && !Agrees(r) && call.fd >= 0 && Passes(r, call) && Removes(r, call)
    ensures Inv(Update(r, call)) && !Agrees(Update(r, call))
  {
    RemovalKeeps(r, call);
    RemovalShifts(r, call);
    var d := Update(r, call);
    var idx := r.index[call.ch];
    var i :| 0 <= i < |r.pollfds| && r.index[At(r, i)] != i;
    assert At(r, idx) == call.ch;
    hide Update;
    hide Consistent;
    var k := if i < idx then i else i - 1;
    assert At(d, k) == At(r, i);
  }

  /** Registrations and changes of interest keep agreement and cannot restore it; a removal of
      any entry cannot restore it either. */
  lemma AgreementAfter<C>(r: Registry<C>, call: Call<C>)
    requires Inv(r) && call.fd >= 0 && Passes(r, call)
    ensures Inv(Update(r, call))
    ensures Agrees(Update(r, call)) <==>
              Agrees(r) && (Removes(r, call) ==> r.index[call.ch] == |r.pollfds| - 1)
  {
    if call.ch !in r.index {
      RegisterKeeps(r, call);
    } else if call.events != 0 {
      ChangeKeeps(r, call);
    } else {
      RemovalKeeps(r, call);
      if Agrees(r) { RemovalKeepsAgreement(r, call); } else { RemovalRestoresNothing(r, call); }
    }
  }

  /** Over every run of updates that pass their asserts, on any number of channels: vector and
      map stay consistent, and the indices agree at the end exactly when every removal took the
      last entry. */
  lemma {:induction false} AgreementOverRuns<C>(r: Registry<C>, calls: seq<Call<C>>)
    requires Inv(r) && PassesAll(r, calls)
    ensures Inv(Run(r, calls))
    ensures Agrees(Run(r, calls)) <==> Agrees(r) && RemovesLastOnly(r, calls)
    decreases |calls|
  {
    if calls != [] {
      AgreementAfter(r, calls[0]);
      AgreementOverRuns(Update(r, calls[0]), calls[1..]);
    }
  }

  lemma AgreementFromStart<C>(calls: seq<Call<C>>)
    requires PassesAll(Start<C>(), calls)
    ensures Inv(Run(Start<C>(), calls))
    ensures Agrees(Run(Start<C>(), calls)) <==> RemovesLastOnly(Start<C>(), calls)
  {
    AgreementOverRuns(Start<C>(), calls);
  }

  // ---- How far an index is off --------------------------------------------------------------

  /** The call removes an entry that lies below the channel's. */
  ghost predicate RemovesBelow<C>(r: Registry<C>, call: Call<C>, ch: C)
    requires Inv(r)
  {
    Removes(r, call) && exists p :: r.index[call.ch] < p < |r.pollfds| && 0 <= p && At(r, p) == ch
  }

  /** How many calls of the run did so. While the channel has no entry none does. */
  ghost function RemovalsBelow<C>(r: Registry<C>, calls: seq<Call<C>>, ch: C): nat
    requires Inv(r) && PassesAll(r, calls)
    decreases |calls|
  {
    if calls == [] then 0
    else
      UpdateKeeps(r, calls[0]);
      (if RemovesBelow(r, calls[0], ch) then 1 else 0) + RemovalsBelow(Update(r, calls[0]), calls[1..], ch)
  }

  /** Where the channel has an entry, its index is `d` above it; before it ever has one, `d` is 0. */
  ghost predicate OffBy<C>(r: Registry<C>, ch: C, d: nat)
    requires Inv(r)
  {
    && (forall p :: 0 <= p < |r.pollfds| && At(r, p) == ch ==> r.index[ch] == p + d)
    && (ch !in r.index ==> d == 0)
  }

  lemma RemovalDrifts<C>(r: Registry<C>, call: Call<C>, ch: C, d: nat)
    requires Inv(r) && call.fd >= 0 && Passes(r, call) && Removes(r, call) && OffBy(r, ch, d)
    ensures Inv(Update(r, call))
    ensures OffBy(Update(r, call), ch, if RemovesBelow(r, call, ch) then d + 1 else d)
  {
    RemovalKeeps(r, call);
    RemovalShifts(r, call);
    var e := Update(r, call);
    var idx := r.index[call.ch];
    hide Update;
    hide Consistent;
    forall p | 0 <= p < |e.pollfds| && At(e, p) == ch
      ensures e.index[ch] == p + if RemovesBelow(r, call, ch) then d + 1 else d
    {
      var was := if p < idx then p else p + 1;
      assert At(r, was) == ch;
    }
  }

  lemma UpdateDrifts<C>(r: Registry<C>, call: Call<C>, ch: C, d: nat)
    requires Inv(r) && call.fd >= 0 && Passes(r, call) && OffBy(r, ch, d)
    ensures Inv(Update(r, call))
    ensures OffBy(Update(r, call), ch, if RemovesBelow(r, call, ch) then d + 1 else d)
  {
    if Removes(r, call) {
      RemovalDrifts(r, call, ch, d);
    } else if call.ch !in r.index {
      RegisterKeeps(r, call);
      RegisterConsistent(r, call);
      assert Update(r, call).index == r.index[call.ch := |r.pollfds|];
    } else {
      ChangeKeeps(r, call);
    }
  }

  lemma {:induction false} RunDrifts<C>(r: Registry<C>, calls: seq<Call<C>>, ch: C, d: nat)
    requires Inv(r) && PassesAll(r, calls) && OffBy(r, ch, d)
    ensures Inv(Run(r, calls)) && OffBy(Run(r, calls), ch, d + RemovalsBelow(r, calls, ch))
    decreases |calls|
  {
    if calls != [] {
      UpdateDrifts(r, calls[0], ch, d);
      hide OffBy;
      hide Inv;
      hide RemovesBelow;
      RunDrifts(Update(r, calls[0]), calls[1..], ch, if RemovesBelow(r, calls[0], ch) then d + 1 else d);
    }
  }

  /** Over every run from the empty registry: an entry's index exceeds its position by the number
      of entries removed below it since it was registered. So the next update of its channel
      passes exactly when there were none. */
  lemma IndexIsOffByRemovals<C>(calls: seq<Call<C>>, p: nat, events: int)
    requires PassesAll(Start<C>(), calls) && p < |Run(Start<C>(), calls).pollfds|
    ensures var r := Run(Start<C>(), calls);
            && Inv(r)
            && r.index[At(r, p)] == p + RemovalsBelow(Start<C>(), calls, At(r, p))
            && (Passes(r, Call(At(r, p), r.pollfds[p].fd, events)) <==>
                RemovalsBelow(Start<C>(), calls, At(r, p)) == 0)
  {
    AgreementFromStart(calls);
    var r := Run(Start<C>(), calls);
    RunDrifts(Start<C>(), calls, At(r, p), 0);
    PassesWhenIndexed(r, p, events);
  }

  // ---- Active channels ----------------------------------------------------------------------

  predicate Ready(p: PollFd) { p.fd >= 0 && p.revents > 0 }

  function ReadyFds(pollfds: seq<PollFd>): seq<PollFd> {
    if pollfds == [] then []
    else (if Ready(pollfds[0]) then [pollfds[0]] else []) + ReadyFds(pollfds[1..])
  }

  lemma {:induction false} ReadyAppend(a: seq<PollFd>, b: seq<PollFd>)
    ensures ReadyFds(a + b) == ReadyFds(a) + ReadyFds(b)
  {
    if a == [] {
      assert a + b == b;
    } else {
      var first := if Ready(a[0]) then [a[0]] else [];
      assert (a + b)[0] == a[0] && (a + b)[1..] == a[1..] + b;
      assert ReadyFds(a) == first + ReadyFds(a[1..]);
      assert ReadyFds(a + b) == first + ReadyFds(a[1..] + b);
      hide ReadyFds;
      ReadyAppend(a[1..], b);
    }
  }

  lemma {:induction false} ReadyIn(pollfds: seq<PollFd>, p: PollFd)
    ensures p in ReadyFds(pollfds) <==> p in pollfds && p.fd >= 0 && p.revents > 0
  {
    if pollfds != [] {
      ReadyIn(pollfds[1..], p);
    }
  }

  lemma ReadyPrefix(pollfds: seq<PollFd>, i: nat)
    requires i <= |pollfds|
    ensures ReadyFds(pollfds[..i]) <= ReadyFds(pollfds)
    ensures i == |pollfds| ==> ReadyFds(pollfds[..i]) == ReadyFds(pollfds)
  {
    ReadyAppend(pollfds[..i], pollfds[i..]);
    assert pollfds[..i] + pollfds[i..] == pollfds;
  }

  lemma ReadyElsewhere(pollfds: seq<PollFd>, i: nat)
    requires i < |pollfds|
    requires forall j, k :: 0 <= j < k < |pollfds| ==> pollfds[j].fd != pollfds[k].fd
    ensures forall p :: p in ReadyFds(pollfds[..i]) ==> p.fd != pollfds[i].fd
  {
    forall p | p in ReadyFds(pollfds[..i])
      ensures p.fd != pollfds[i].fd
    {
      ReadyIn(pollfds[..i], p);
    }
  }

  // ---- The objects --------------------------------------------------------------------------

  class Channel {
    const fd: int
    var events: int
    var revents: int
    var index: int

    constructor (fd: int)
      ensures this.fd == fd && events == 0 && revents == 0 && index == -1
    {
      this.fd := fd;
      events, revents, index := 0, 0, -1;
    }
  }

  class Poller {
    var pollfds: seq<PollFd>
    var channels: map<int, Channel>
    ghost var known: set<Channel>

    ghost predicate Valid()
      reads this, known`index
    {
      && (forall f :: f in channels ==> channels[f] in known && channels[f].fd == f)
      && Inv(View())
    }

    ghost function View(): Registry<Channel>
      reads this, known`index
    {
      Registry(pollfds, channels, map c | c in known && 0 <= c.index :: c.index)
    }

    constructor ()
      ensures Valid() && View() == Start<Channel>()
    {
      pollfds, channels, known := [], map[], {};
    }

    /** The branch for a channel without an index. */
    method Add(ch: Channel)
      requires Valid() && ch.fd >= 0 && ch.index < 0 && ch.fd !in channels
      modifies this, ch`index
      ensures Valid() && known == old(known) + {ch}
      ensures View() == Update(old(View()), Call(ch, ch.fd, ch.events))
    {
      ghost var before := View();
      UpdateKeeps(before, Call(ch, ch.fd, ch.events));
      hide Inv;
      known := known + {ch};
      pollfds := pollfds + [PollFd(ch.fd, ch.events, 0)];
      ch.index := |pollfds| - 1;
      channels := channels[ch.fd := ch];
      assert View().index == before.index[ch := |before.pollfds|];
    }

    /** The other branch, after its asserts. */
    method Change(ch: Channel)
      requires Valid() && ch in known && ch.fd >= 0 && ch.index >= 0
      requires Passes(View(), Call(ch, ch.fd, ch.events))
      modifies this`pollfds, this`channels
      ensures Valid() && View() == Update(old(View()), Call(ch, ch.fd, ch.events))
    {
      ghost var before := View();
      UpdateKeeps(before, Call(ch, ch.fd, ch.events));
      hide Inv;
      var idx := ch.index;
      if ch.events == 0 {
        channels := channels - {pollfds[idx].fd};
        pollfds := pollfds[..idx] + pollfds[idx + 1..];
      } else {
        pollfds := pollfds[idx := PollFd(pollfds[idx].fd, ch.events, 0)];
      }
      assert View() == Update(before, Call(ch, ch.fd, ch.events));
    }

    /** `ok` says that no assert fired; otherwise nothing has changed. A channel is new to every
        poller, or was registered with this one. */
    method UpdateChannel(ch: Channel) returns (ok: bool)
      requires Valid() && ch.fd >= 0 && (ch.index >= 0 ==> ch in known)
      modifies this, ch`index
      ensures Valid() && known == old(known) + (if ok then {ch} else {})
      ensures ok == Passes(old(View()), Call(ch, ch.fd, ch.events))
      ensures View() == if ok then Update(old(View()), Call(ch, ch.fd, ch.events)) else old(View())
    {
      hide Inv;
      if ch.index < 0 {
        if ch.fd in channels {
          return false;
        }
        Add(ch);
      } else {
        if ch.fd !in channels || channels[ch.fd] != ch || ch.index >= |pollfds| {
          return false;
        }
        if pollfds[ch.index].fd != ch.fd && pollfds[ch.index].fd != -1 {
          return false;
        }
        Change(ch);
      }
      ok := true;
    }

    /** `active` are the channels of the first entries of `ready`, with their events. */
    ghost predicate Delivered(active: seq<Channel>, ready: seq<PollFd>)
      reads this, known
      requires Valid()
    {
      && |active| <= |ready|
      && forall k :: 0 <= k < |active| ==>
           && ready[k].fd in channels
           && active[k] == channels[ready[k].fd]
           && active[k].revents == ready[k].revents
    }

    /** Stops after `numEvents` ready entries, so with the true count it returns the channel of
        every ready entry, in vector order, each with the entry's events. */
    method FillActiveChannels(numEvents: int) returns (active: seq<Channel>)
      requires Valid() && numEvents > 0
      modifies known`revents
      ensures Valid() && Delivered(active, ReadyFds(pollfds))
      ensures |active| == if numEvents < |ReadyFds(pollfds)| then numEvents else |ReadyFds(pollfds)|
    {
      active := [];
      assert ReadyFds(pollfds[..0]) == [];
      hide Inv;
      hide ReadyFds;
      var i := 0;
      while i < |pollfds|
        invariant 0 <= i <= |pollfds| && |active| < numEvents && Valid()
        invariant |active| == |ReadyFds(pollfds[..i])| && Delivered(active, ReadyFds(pollfds[..i]))
        modifies known`revents
      {
        active := Visit(i, active);
        i := i + 1;
        if |active| == numEvents {
          break;
        }
      }
      ReadyPrefix(pollfds, i);
    }

    /** One entry of the loop. */
    method Visit(i: nat, active: seq<Channel>) returns (more: seq<Channel>)
      requires Valid() && i < |pollfds|
      requires |active| == |ReadyFds(pollfds[..i])| && Delivered(active, ReadyFds(pollfds[..i]))
      modifies known`revents
      ensures Valid() && |more| == |ReadyFds(pollfds[..i + 1])| <= |active| + 1
      ensures Delivered(more, ReadyFds(pollfds[..i + 1]))
    {
      more := active;
      assert pollfds[..i + 1] == pollfds[..i] + [pollfds[i]];
      ReadyAppend(pollfds[..i], [pollfds[i]]);
      ReadyElsewhere(pollfds, i);
      assert pollfds[i].fd in channels;
      hide Inv;
      if pollfds[i].fd >= 0 && pollfds[i].revents > 0 {
        var channel := channels[pollfds[i].fd];
        assert channel.fd == pollfds[i].fd;
        assert forall k :: 0 <= k < |active| ==> active[k] != channel;
        channel.revents := pollfds[i].revents;
        more := more + [channel];
      }
    }
  }
}
