/** `PollPoller`: a dense array of `pollfd` and a map of channels that point back into it
    (source/base/src/PollPoller.cpp). */
module PollPollers {
  import opened Bytes
  import opened Channels

  datatype PollFd = PollFd(fd: int, events: bv16, revents: bv16)

  /** An entry that is ignored carries -fd-1. */
  function Decode(fd: int): nat { if fd >= 0 then fd else -fd - 1 }

  function Ignored(fd: int): int { -fd - 1 }

  /** The poller's two structures. `interest` is what each channel last asked for and `disabled`
      holds the channels that asked for nothing at some time since they were registered. */
  datatype Table = Table(pollfds: seq<PollFd>, index: map<nat, int>, interest: map<nat, bv16>, disabled: set<nat>)

  const EMPTY := Table([], map[], map[], {})

  function Registered(t: Table, fd: nat, ev: bv16): Table {
    Table(t.pollfds + [PollFd(fd, ev, 0)], t.index[fd := |t.pollfds|], t.interest[fd := ev], t.disabled - {fd})
  }

  predicate Known(t: Table, fd: nat) { fd in t.index && 0 <= t.index[fd] < |t.pollfds| }

  function Updated(t: Table, fd: nat, ev: bv16): Table {
    if !Known(t, fd) then t else
    var i := t.index[fd];
    var keep := t.pollfds[i].fd;
    Table(t.pollfds[i := PollFd(if ev == NONE_EVENT then Ignored(fd) else keep, ev, 0)], t.index,
          t.interest[fd := ev], if ev == NONE_EVENT then t.disabled + {fd} else t.disabled)
  }

  /** Swap with the last entry, then pop. */
  function Removed(t: Table, fd: nat): Table {
    if !Known(t, fd) then t else
    var i, last := t.index[fd], |t.pollfds| - 1;
    Table(if i == last then t.pollfds[..last] else t.pollfds[i := t.pollfds[last]][..last],
          if i == last then t.index - {fd} else (t.index - {fd})[Decode(t.pollfds[last].fd) := i],
          t.interest - {fd}, t.disabled - {fd})
  }

  // ---- agreement of the two structures ----

  ghost predicate Entry(t: Table, i: int)
    requires 0 <= i < |t.pollfds|
  {
    var fd := Decode(t.pollfds[i].fd);
    && fd in t.index && t.index[fd] == i
    && fd in t.interest && t.pollfds[i].events == t.interest[fd]
    && (t.pollfds[i].fd < 0 <==> fd in t.disabled)
  }

  ghost predicate Back(t: Table, fd: nat) {
    Known(t, fd) && Decode(t.pollfds[t.index[fd]].fd) == fd
  }

  /** `channels_` and `pollfds_` are in bijection through `index_`, and every entry agrees with its channel. */
  ghost predicate Agrees(t: Table) {
    && (forall i | 0 <= i < |t.pollfds| :: Entry(t, i))
    && (forall fd | fd in t.index :: Back(t, fd))
    && t.interest.Keys == t.index.Keys && t.disabled <= t.index.Keys
  }

  /** The asserts of `removeChannel` about the entry. */
  predicate RemoveAsserts(t: Table, fd: nat) {
    && Known(t, fd) && fd in t.interest
    && var pfd := t.pollfds[t.index[fd]];
    pfd.fd == Ignored(fd) && pfd.events == t.interest[fd]
  }

  lemma RegisterKeeps(t: Table, fd: nat, ev: bv16)
    requires Agrees(t) && fd !in t.index
    ensures Agrees(Registered(t, fd, ev))
  {
    var t' := Registered(t, fd, ev);
    forall i | 0 <= i < |t'.pollfds| ensures Entry(t', i) {
      if i < |t.pollfds| { assert Entry(t, i) && t'.pollfds[i] == t.pollfds[i]; }
    }
    forall g | g in t'.index ensures Back(t', g) {
      if g != fd { assert Back(t, g); }
    }
    assert t'.interest.Keys == t'.index.Keys;
  }

  lemma UpdateKeeps(t: Table, fd: nat, ev: bv16)
    requires Agrees(t) && Known(t, fd)
    ensures Agrees(Updated(t, fd, ev))
  {
    assert Back(t, fd);
    var t' := Updated(t, fd, ev);
    forall i | 0 <= i < |t'.pollfds| ensures Entry(t', i) {
      assert Entry(t, i);
    }
    forall g | g in t'.index ensures Back(t', g) {
      assert Back(t, g);
    }
    assert t'.interest.Keys == t'.index.Keys;
  }

  /** Which old entry stands at each place after the swap-remove. */
  lemma RemovedEntries(t: Table, fd: nat, i: int)
    requires Known(t, fd) && 0 <= i < |t.pollfds| - 1
    ensures |Removed(t, fd).pollfds| == |t.pollfds| - 1
    ensures Removed(t, fd).pollfds[i] == t.pollfds[if i == t.index[fd] then |t.pollfds| - 1 else i]
  {
  }

  lemma RemoveKeeps(t: Table, fd: nat)
    requires Agrees(t) && Known(t, fd)
    ensures Agrees(Removed(t, fd))
    ensures Removed(t, fd).index.Keys == t.index.Keys - {fd}
  {
    var t', at, last := Removed(t, fd), t.index[fd], |t.pollfds| - 1;
    assert Back(t, fd);
    assert Entry(t, last) && Entry(t, at);
    var moved := Decode(t.pollfds[last].fd);
    assert |t'.pollfds| == last;
    forall i | 0 <= i < |t'.pollfds| ensures Entry(t', i) {
      RemovedEntries(t, fd, i);
      assert Entry(t, i);
    }
    forall g | g in t'.index ensures Back(t', g) {
      assert Back(t, g);
      if g == moved {
        assert t'.index[g] == at;
      } else {
        assert t'.index[g] == t.index[g];
        assert t.index[g] != last && t.index[g] != at;
      }
      RemovedEntries(t, fd, t'.index[g]);
    }
    assert t'.interest.Keys == t'.index.Keys;
  }

  /** The removed channel keeps its index, which then points past the end or at another channel. */
  lemma RemovedIndexIsStale(t: Table, fd: nat)
    requires Agrees(t) && Known(t, fd)
    ensures var t', i := Removed(t, fd), t.index[fd];
            && fd !in t'.index
            && (i < |t'.pollfds| ==> Decode(t'.pollfds[i].fd) != fd)
            && (i >= |t'.pollfds| <==> i == |t.pollfds| - 1)
  {
    RemoveKeeps(t, fd);
    var t', i := Removed(t, fd), t.index[fd];
    if i < |t'.pollfds| { assert Entry(t', i); }
  }

  // ---- runs ----

  datatype Op = Register(fd: nat, ev: bv16) | Update(fd: nat, ev: bv16) | Remove(fd: nat)

  /** What the source asks of a caller. */
  predicate Enabled(t: Table, op: Op) {
    match op
    case Register(fd, _) => fd !in t.index
    case Update(fd, _) => Known(t, fd)
    case Remove(fd) => Known(t, fd) && fd in t.interest && t.interest[fd] == NONE_EVENT
  }

  function Apply(t: Table, op: Op): Table
    requires Enabled(t, op)
  {
    match op
    case Register(fd, ev) => Registered(t, fd, ev)
    case Update(fd, ev) => Updated(t, fd, ev)
    case Remove(fd) => Removed(t, fd)
  }

  ghost predicate Runs(t: Table, ops: seq<Op>)
    decreases |ops|
  {
    ops == [] || (Enabled(t, ops[0]) && Runs(Apply(t, ops[0]), ops[1..]))
  }

  ghost function Final(t: Table, ops: seq<Op>): Table
    requires Runs(t, ops)
    decreases |ops|
  {
    if ops == [] then t else Final(Apply(t, ops[0]), ops[1..])
  }

  lemma StepKeeps(t: Table, op: Op)
    requires Agrees(t) && Enabled(t, op)
    ensures Agrees(Apply(t, op))
  {
    match op
    case Register(fd, ev) => RegisterKeeps(t, fd, ev);
    case Update(fd, ev) => UpdateKeeps(t, fd, ev);
    case Remove(fd) => RemoveKeeps(t, fd);
  }

  /** The two structures agree after every sequence of registrations, updates and removals. */
  lemma {:induction false} AlwaysAgrees(t: Table, ops: seq<Op>)
    requires Agrees(t) && Runs(t, ops)
    ensures Agrees(Final(t, ops))
    decreases |ops|
  {
    if ops != [] {
      StepKeeps(t, ops[0]);
      AlwaysAgrees(Apply(t, ops[0]), ops[1..]);
    }
  }

  /** The last operation on the descriptor, if any, was this one. */
  ghost predicate LastOn(ops: seq<Op>, fd: nat, op: Op) {
    exists i :: 0 <= i < |ops| && ops[i] == op && op.fd == fd && forall j | i < j < |ops| :: ops[j].fd != fd
  }

  /** The entry of the descriptor asks for `ev`; with Remove, there is none. */
  ghost predicate Shows(t: Table, fd: nat, op: Op) {
    if op.Remove? then fd !in t.index else Known(t, fd) && t.pollfds[t.index[fd]].events == op.ev
  }

  /** An operation leaves its own entry as asked for, and every other as it was. */
  lemma StepShows(t: Table, op: Op, fd: nat, last: Op)
    requires Agrees(t) && Enabled(t, op)
    ensures op.fd == fd ==> Shows(Apply(t, op), fd, op)
    ensures op.fd != fd && Shows(t, fd, last) ==> Shows(Apply(t, op), fd, last)
  {
    StepKeeps(t, op);
    var t' := Apply(t, op);
    if fd in t.index { assert Back(t, fd) && Entry(t, t.index[fd]); }
    if fd in t'.index { assert Back(t', fd) && Entry(t', t'.index[fd]); }
    if op.Remove? { RemoveKeeps(t, op.fd); }
  }

  lemma {:induction false} ShowsStays(t: Table, ops: seq<Op>, fd: nat, last: Op)
    requires Agrees(t) && Runs(t, ops) && Shows(t, fd, last) && forall j | 0 <= j < |ops| :: ops[j].fd != fd
    ensures Shows(Final(t, ops), fd, last)
    decreases |ops|
  {
    if ops != [] {
      assert ops[0].fd != fd;
      StepKeeps(t, ops[0]);
      StepShows(t, ops[0], fd, last);
      assert forall j | 0 <= j < |ops[1..]| :: ops[1..][j] == ops[j + 1];
      ShowsStays(Apply(t, ops[0]), ops[1..], fd, last);
    }
  }

  /** After every sequence of operations the array asks `poll` for what each channel asked for last,
      and has no entry for a channel that was removed. */
  lemma {:induction false} EntryIsLastAsked(t: Table, ops: seq<Op>, fd: nat, op: Op)
    requires Agrees(t) && Runs(t, ops) && LastOn(ops, fd, op)
    ensures Shows(Final(t, ops), fd, op)
    decreases |ops|
  {
    var i :| 0 <= i < |ops| && ops[i] == op && op.fd == fd && forall j | i < j < |ops| :: ops[j].fd != fd;
    StepKeeps(t, ops[0]);
    var t', rest := Apply(t, ops[0]), ops[1..];
    assert forall j | 0 <= j < |rest| :: rest[j] == ops[j + 1];
    if i == 0 {
      StepShows(t, op, fd, op);
      ShowsStays(t', rest, fd, op);
    } else {
      assert rest[i - 1] == op;
      EntryIsLastAsked(t', rest, fd, op);
    }
  }

  /** Since its last registration the channel once asked for nothing. */
  ghost predicate AskedForNothing(ops: seq<Op>, fd: nat) {
    exists i :: 0 <= i < |ops| && ops[i] == Update(fd, NONE_EVENT) && Remove(fd) !in ops[i + 1..]
  }

  lemma AskedCons(ops: seq<Op>, fd: nat)
    requires ops != []
    ensures AskedForNothing(ops, fd) <==>
              AskedForNothing(ops[1..], fd) || (ops[0] == Update(fd, NONE_EVENT) && Remove(fd) !in ops[1..])
  {
    if AskedForNothing(ops[1..], fd) {
      var i :| 0 <= i < |ops[1..]| && ops[1..][i] == Update(fd, NONE_EVENT) && Remove(fd) !in ops[1..][i + 1..];
      assert ops[i + 1] == ops[1..][i] && ops[i + 1 + 1..] == ops[1..][i + 1..];
    }
    if AskedForNothing(ops, fd) {
      var i :| 0 <= i < |ops| && ops[i] == Update(fd, NONE_EVENT) && Remove(fd) !in ops[i + 1..];
      if i > 0 { assert ops[1..][i - 1] == ops[i] && ops[1..][i - 1 + 1..] == ops[i + 1..]; }
    }
  }

  lemma DisabledStep(t: Table, op: Op, fd: nat)
    requires Agrees(t) && Enabled(t, op)
    ensures fd in Apply(t, op).disabled <==> op == Update(fd, NONE_EVENT) || (fd in t.disabled && op != Remove(fd))
  {
  }

  lemma {:induction false} DisabledIff(t: Table, ops: seq<Op>, fd: nat)
    requires Agrees(t) && Runs(t, ops)
    ensures fd in Final(t, ops).disabled <==> AskedForNothing(ops, fd) || (fd in t.disabled && Remove(fd) !in ops)
    decreases |ops|
  {
    if ops != [] {
      StepKeeps(t, ops[0]);
      DisabledStep(t, ops[0], fd);
      DisabledIff(Apply(t, ops[0]), ops[1..], fd);
      AskedCons(ops, fd);
      assert Remove(fd) in ops <==> ops[0] == Remove(fd) || Remove(fd) in ops[1..];
    }
  }

  /** An entry is polled exactly until its channel first asks for nothing: interest shown later,
      before the removal, is never restored. And the asserts of `removeChannel` hold exactly for
      channels that asked for nothing after their registration. */
  lemma DisabledIsIgnored(ops: seq<Op>, fd: nat)
    requires Runs(EMPTY, ops) && fd in Final(EMPTY, ops).index
    ensures var t := Final(EMPTY, ops);
            && Known(t, fd) && fd in t.interest
            && (t.pollfds[t.index[fd]].fd == fd <==> !AskedForNothing(ops, fd))
            && (RemoveAsserts(t, fd) <==> AskedForNothing(ops, fd))
  {
    AlwaysAgrees(EMPTY, ops);
    DisabledIff(EMPTY, ops, fd);
    var t := Final(EMPTY, ops);
    assert Back(t, fd);
    assert Entry(t, t.index[fd]);
  }

  /** A channel that reads, pauses and reads again is no longer polled. */
  lemma PausedIsNotPolled(fd: nat)
    ensures var ops := [Register(fd, READ_EVENT), Update(fd, NONE_EVENT), Update(fd, READ_EVENT)];
            && Runs(EMPTY, ops)
            && var t := Final(EMPTY, ops);
            && Known(t, fd) && fd in t.interest && t.interest[fd] == READ_EVENT
            && t.pollfds[t.index[fd]].fd == Ignored(fd)
  {
    var o1, o2, o3 := Register(fd, READ_EVENT), Update(fd, NONE_EVENT), Update(fd, READ_EVENT);
    var t1 := Apply(EMPTY, o1);
    var t2 := Apply(t1, o2);
    var t3 := Apply(t2, o3);
    assert [o1, o2, o3][1..] == [o2, o3] && [o2, o3][1..] == [o3] && [o3][1..] == [];
    assert Runs(t3, []) && Runs(t2, [o3]) && Runs(t1, [o2, o3]) && Runs(EMPTY, [o1, o2, o3]);
    assert Final(t2, [o3]) == t3 && Final(t1, [o2, o3]) == t3 && Final(EMPTY, [o1, o2, o3]) == t3;
  }

  ghost predicate RegistersWithInterest(ops: seq<Op>) {
    forall i | 0 <= i < |ops| && ops[i].Register? :: ops[i].ev != NONE_EVENT
  }

  ghost predicate IdleIsDisabled(t: Table) {
    forall fd | fd in t.interest && t.interest[fd] == NONE_EVENT :: fd in t.disabled
  }

  lemma {:induction false} IdleStaysDisabled(t: Table, ops: seq<Op>)
    requires Agrees(t) && IdleIsDisabled(t) && Runs(t, ops) && RegistersWithInterest(ops)
    ensures IdleIsDisabled(Final(t, ops))
    decreases |ops|
  {
    if ops != [] {
      StepKeeps(t, ops[0]);
      assert RegistersWithInterest(ops[1..]);
      assert ops[0].Register? ==> ops[0].ev != NONE_EVENT;
      IdleStaysDisabled(Apply(t, ops[0]), ops[1..]);
    }
  }

  /** When every first registration shows some interest, no removal ever fails an assert. */
  lemma RemovalsAreSafe(ops: seq<Op>, fd: nat)
    requires Runs(EMPTY, ops) && RegistersWithInterest(ops) && Enabled(Final(EMPTY, ops), Remove(fd))
    ensures RemoveAsserts(Final(EMPTY, ops), fd)
  {
    IdleStaysDisabled(EMPTY, ops);
    DisabledIff(EMPTY, ops, fd);
    DisabledIsIgnored(ops, fd);
  }

  /** An `Acceptor` destroyed before it listens registers its channel with no interest and removes
      it: the assert fails. */
  lemma RegisteredIdleFails(fd: nat)
    ensures var t := Apply(EMPTY, Register(fd, NONE_EVENT));
            Enabled(t, Remove(fd)) && !RemoveAsserts(t, fd)
  {
  }

  // ---- poll results ----

  predicate Positive(revents: bv16) { 0 < revents < 0x8000 }

  lemma PositiveIff(revents: bv16)
    ensures Positive(revents) <==> revents != 0 && revents & 0x8000 == 0
  {
  }

  /** The entries with positive `revents`, in array order. */
  function Ready(pollfds: seq<PollFd>): seq<PollFd> {
    if pollfds == [] then []
    else
      var p := pollfds[|pollfds| - 1];
      Ready(pollfds[..|pollfds| - 1]) + if Positive(p.revents) then [p] else []
  }

  /** Exactly the entries whose `revents`, a signed short, are positive. */
  lemma {:induction false} ReadyIsSubset(pollfds: seq<PollFd>, p: PollFd)
    ensures p in Ready(pollfds) <==> p in pollfds && p.revents != 0 && p.revents & 0x8000 == 0
    decreases |pollfds|
  {
    PositiveIff(p.revents);
    if pollfds != [] {
      ReadyIsSubset(pollfds[..|pollfds| - 1], p);
      assert pollfds == pollfds[..|pollfds| - 1] + [pollfds[|pollfds| - 1]];
    }
  }

  ghost predicate DistinctFds(pollfds: seq<PollFd>) {
    forall i, j | 0 <= i < j < |pollfds| :: pollfds[i].fd != pollfds[j].fd
  }

  lemma AgreesDistinct(t: Table)
    requires Agrees(t)
    ensures DistinctFds(t.pollfds)
  {
    forall i, j | 0 <= i < j < |t.pollfds| ensures t.pollfds[i].fd != t.pollfds[j].fd {
      assert Entry(t, i) && Entry(t, j);
    }
  }

  /** Each ready descriptor is listed once. */
  lemma {:induction false} ReadyDistinct(pollfds: seq<PollFd>)
    requires DistinctFds(pollfds)
    ensures DistinctFds(Ready(pollfds))
    decreases |pollfds|
  {
    if pollfds != [] {
      var init, p := pollfds[..|pollfds| - 1], pollfds[|pollfds| - 1];
      ReadyDistinct(init);
      forall j | 0 <= j < |Ready(init)| ensures Ready(init)[j].fd != p.fd {
        ReadyIsSubset(init, Ready(init)[j]);
      }
    }
  }

  /** `poll` never reports on a negative descriptor. */
  ghost predicate IgnoredAreSilent(pollfds: seq<PollFd>) {
    forall i | 0 <= i < |pollfds| && pollfds[i].fd < 0 :: pollfds[i].revents == 0
  }

  lemma {:induction false} ReadyPrefix(pollfds: seq<PollFd>, i: nat)
    requires i <= |pollfds|
    ensures Ready(pollfds[..i]) <= Ready(pollfds)
    decreases |pollfds|
  {
    if i == |pollfds| {
      assert pollfds[..i] == pollfds;
    } else {
      ReadyPrefix(pollfds[..|pollfds| - 1], i);
      assert pollfds[..|pollfds| - 1][..i] == pollfds[..i];
    }
  }

  /** How many entries are ready before place i. */
  ghost function ReadyBefore(pollfds: seq<PollFd>, i: nat): nat
    requires i <= |pollfds|
  {
    |Ready(pollfds[..i])|
  }

  /** A ready entry comes after as many as are ready before it. */
  lemma ReadyAt(pollfds: seq<PollFd>, i: nat)
    requires i < |pollfds|
    ensures ReadyBefore(pollfds, i + 1) == ReadyBefore(pollfds, i) + if Positive(pollfds[i].revents) then 1 else 0
    ensures ReadyBefore(pollfds, i + 1) <= |Ready(pollfds)|
    ensures Positive(pollfds[i].revents) ==> Ready(pollfds)[ReadyBefore(pollfds, i)] == pollfds[i]
  {
    assert pollfds[..i + 1][..i] == pollfds[..i];
    ReadyPrefix(pollfds, i + 1);
  }

  lemma ReadyEnds(pollfds: seq<PollFd>)
    ensures ReadyBefore(pollfds, 0) == 0 && ReadyBefore(pollfds, |pollfds|) == |Ready(pollfds)|
  {
    assert pollfds[..|pollfds|] == pollfds && pollfds[..0] == [];
  }

  /** A ready entry is not an ignored one, so its descriptor is a key of `channels_`. */
  lemma ReadyHasChannel(t: Table, j: nat)
    requires Agrees(t) && IgnoredAreSilent(t.pollfds) && j < |Ready(t.pollfds)|
    ensures Ready(t.pollfds)[j].fd >= 0 && Ready(t.pollfds)[j].fd in t.index
  {
    var p := Ready(t.pollfds)[j];
    ReadyIsSubset(t.pollfds, p);
    var i :| 0 <= i < |t.pollfds| && t.pollfds[i] == p;
    assert Entry(t, i);
  }

  /** The channel of a ready entry, with its report copied. */
  ghost predicate Handed(channels: map<nat, Channel>, p: PollFd, c: Channel)
    reads c
  {
    p.fd >= 0 && p.fd in channels && channels[p.fd] == c && c.revents == p.revents
  }

  // ---- the code ----

  class PollPoller {
    var pollfds: seq<PollFd>
    var channels: map<nat, Channel>
    ghost var interest: map<nat, bv16>
    ghost var disabled: set<nat>

    ghost function View(): Table
      reads this, channels.Values
    {
      Table(pollfds, map fd | fd in channels :: channels[fd].index, interest, disabled)
    }

    ghost predicate Keyed()
      reads this, channels.Values
    {
      forall fd | fd in channels :: channels[fd].fd == fd
    }

    ghost predicate Valid()
      reads this, channels.Values
    {
      Keyed() && Agrees(View())
    }

    constructor ()
      ensures Valid() && View() == EMPTY
    {
      pollfds, channels, interest, disabled := [], map[], map[], {};
    }

    /** The branch of `updateChannel` for a channel with a negative index. */
    method AddEntry(channel: Channel)
      requires Keyed() && channel.fd !in channels
      modifies this, channel`index
      ensures Keyed() && View() == Registered(old(View()), channel.fd, channel.events)
      ensures channels == old(channels)[channel.fd := channel]
    {
      ghost var was := View();
      pollfds := pollfds + [PollFd(channel.fd, channel.events, 0)];
      channel.index := |pollfds| - 1;
      channels := channels[channel.fd := channel];
      interest, disabled := interest[channel.fd := channel.events], disabled - {channel.fd};
      assert View().index == was.index[channel.fd := |was.pollfds|];
    }

    /** The other branch: a negated descriptor is not restored. */
    method ChangeEntry(channel: Channel)
      requires Keyed() && channel.fd in channels && channels[channel.fd] == channel
      requires 0 <= channel.index < |pollfds|
      modifies this`pollfds, this`interest, this`disabled
      ensures Keyed() && View() == Updated(old(View()), channel.fd, channel.events)
    {
      ghost var was := View();
      assert was.index[channel.fd] == channel.index;
      var idx := channel.index;
      var fd := if channel.IsNoneEvent() then Ignored(channel.fd) else pollfds[idx].fd;
      pollfds := pollfds[idx := PollFd(fd, channel.events, 0)];
      interest := interest[channel.fd := channel.events];
      disabled := if channel.IsNoneEvent() then disabled + {channel.fd} else disabled;
    }

    method UpdateChannel(channel: Channel)
      requires Valid()
      requires channel.index < 0 ==> channel.fd !in channels
      requires channel.index >= 0 ==> channel.fd in channels && channels[channel.fd] == channel
      modifies this, channel`index
      ensures Valid() && channel.fd in channels && channels[channel.fd] == channel
      ensures View() == if old(channel.index) < 0
                        then Registered(old(View()), channel.fd, channel.events)
                        else Updated(old(View()), channel.fd, channel.events)
      ensures 0 <= channel.index < |pollfds| && pollfds[channel.index].events == channel.events
    {
      ghost var was := View();
      if channel.index < 0 {
        RegisterKeeps(was, channel.fd, channel.events);
        AddEntry(channel);
      } else {
        assert Back(was, channel.fd) && was.index[channel.fd] == channel.index;
        UpdateKeeps(was, channel.fd, channel.events);
        ChangeEntry(channel);
      }
      assert Back(View(), channel.fd) && View().index[channel.fd] == channel.index;
    }

    /** The last entry moves into the gap; the index of the removed channel is left as it was. */
    method FillGap(idx: nat)
      requires Keyed() && idx < |pollfds| && Decode(pollfds[|pollfds| - 1].fd) in channels
      modifies this`pollfds, channels.Values`index
      ensures Keyed() && pollfds == old(pollfds[idx := pollfds[|pollfds| - 1]][..|pollfds| - 1])
      ensures View().index == old(View()).index[Decode(old(pollfds[|pollfds| - 1].fd)) := idx]
    {
      ghost var was := View();
      var channelAtEnd := pollfds[|pollfds| - 1].fd;
      pollfds := pollfds[idx := pollfds[|pollfds| - 1]];
      if channelAtEnd < 0 {
        channelAtEnd := -channelAtEnd - 1;
      }
      channels[channelAtEnd].index := idx;
      pollfds := pollfds[..|pollfds| - 1];
      assert View().index == was.index[channelAtEnd := idx];
    }

    method DropEntry(channel: Channel)
      requires Keyed() && channel.fd in channels && channels[channel.fd] == channel
      requires 0 <= channel.index < |pollfds|
      requires Decode(pollfds[|pollfds| - 1].fd) in channels
      requires Decode(pollfds[|pollfds| - 1].fd) == channel.fd ==> channel.index == |pollfds| - 1
      modifies this, channels.Values`index
      ensures Keyed() && View() == Removed(old(View()), channel.fd)
      ensures channels == old(channels) - {channel.fd} && channel.index == old(channel.index)
    {
      ghost var was := View();
      var idx := channel.index;
      assert was.index[channel.fd] == idx;
      channels := channels - {channel.fd};
      interest, disabled := interest - {channel.fd}, disabled - {channel.fd};
      assert View().index == was.index - {channel.fd};
      if idx == |pollfds| - 1 {
        pollfds := pollfds[..idx];
      } else {
        FillGap(idx);
      }
    }

    /** `removeChannel`, for a channel whose last update asked for nothing. */
    method RemoveChannel(channel: Channel)
      requires Valid() && channel.fd in channels && channels[channel.fd] == channel
      requires channel.IsNoneEvent() && RemoveAsserts(View(), channel.fd)
      modifies this, channels.Values`index
      ensures Valid() && View() == Removed(old(View()), channel.fd)
      ensures channels == old(channels) - {channel.fd} && channel.index == old(channel.index)
    {
      ghost var was := View();
      assert Back(was, channel.fd) && was.index[channel.fd] == channel.index;
      assert Entry(was, |pollfds| - 1);
      RemoveKeeps(was, channel.fd);
      DropEntry(channel);
    }

    /** Setting `revents_` of a channel changes nothing the poller depends on. */
    twostate lemma ReventsOnly()
      requires old(Valid()) && unchanged(this)
      requires forall fd | fd in channels :: channels[fd].index == old(channels[fd].index)
      ensures Valid() && View() == old(View())
    {
      assert View().index == old(View()).index;
    }

    /** The loop of `fillActiveChannels`: it stops early once `numEvents` ready entries were seen. */
    method CollectActive(numEvents: int) returns (activeChannels: seq<Channel>)
      requires Keyed() && DistinctFds(Ready(pollfds))
      requires forall j | 0 <= j < |Ready(pollfds)| :: Ready(pollfds)[j].fd >= 0 && Ready(pollfds)[j].fd in channels
      modifies channels.Values`revents
      ensures |activeChannels| == Max(0, Min(numEvents, |Ready(pollfds)|))
      ensures forall j | 0 <= j < |activeChannels| :: Handed(channels, Ready(pollfds)[j], activeChannels[j])
    {
      activeChannels := [];
      ghost var ready := Ready(pollfds);
      ReadyEnds(pollfds);
      var i, left := 0, numEvents;
      while i < |pollfds| && left > 0
        invariant 0 <= i <= |pollfds| && left == numEvents - |activeChannels|
        invariant if numEvents >= 0 then left >= 0 else activeChannels == []
        invariant |activeChannels| == ReadyBefore(pollfds, i) <= |ready|
        invariant forall j | 0 <= j < |activeChannels| :: Handed(channels, ready[j], activeChannels[j])
      {
        var pfd := pollfds[i];
        ReadyAt(pollfds, i);
        if Positive(pfd.revents) {
          left := left - 1;
          var channel := channels[pfd.fd];
          channel.revents := pfd.revents;
          activeChannels := activeChannels + [channel];
        }
        i := i + 1;
      }
    }

    /** `fillActiveChannels`. */
    method FillActiveChannels(numEvents: int) returns (activeChannels: seq<Channel>)
      requires Valid() && IgnoredAreSilent(pollfds)
      modifies channels.Values`revents
      ensures Valid() && View() == old(View())
      ensures |activeChannels| == Max(0, Min(numEvents, |Ready(pollfds)|))
      ensures forall j | 0 <= j < |activeChannels| :: Handed(channels, Ready(pollfds)[j], activeChannels[j])
    {
      AgreesDistinct(View());
      ReadyDistinct(pollfds);
      forall j | 0 <= j < |Ready(pollfds)|
        ensures Ready(pollfds)[j].fd >= 0 && Ready(pollfds)[j].fd in channels
      {
        ReadyHasChannel(View(), j);
      }
      activeChannels := CollectActive(numEvents);
      ReventsOnly();
    }
  }
}
