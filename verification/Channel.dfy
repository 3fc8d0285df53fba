/** `Channel`: the interest of one descriptor and the dispatch of what `poll` reports
    (source/base/inc/Channel.h, source/base/src/Channel.cpp). */
module Channels {

  const POLLIN: bv16 := 0x1
  const POLLPRI: bv16 := 0x2
  const POLLOUT: bv16 := 0x4
  const POLLERR: bv16 := 0x8
  const POLLHUP: bv16 := 0x10
  const POLLNVAL: bv16 := 0x20
  const POLLRDHUP: bv16 := 0x2000

  const NONE_EVENT: bv16 := 0
  const READ_EVENT: bv16 := POLLIN | POLLPRI
  const WRITE_EVENT: bv16 := POLLOUT

  predicate Has(revents: bv16, mask: bv16) { revents & mask != 0 }

  datatype Callback = CloseCallback | ErrorCallback | ReadCallback | WriteCallback

  function When(b: bool, c: Callback): seq<Callback> { if b then [c] else [] }

  /** The callbacks `handleEventWithGuard` makes, in order. */
  function Callbacks(revents: bv16): seq<Callback> {
    When(Has(revents, POLLHUP) && !Has(revents, POLLIN), CloseCallback)
    + When(Has(revents, POLLERR | POLLNVAL), ErrorCallback)
    + When(Has(revents, POLLIN | POLLPRI | POLLRDHUP), ReadCallback)
    + When(Has(revents, POLLOUT), WriteCallback)
  }

  /** A hang-up without input, reported together with urgent data or a half-close. */
  predicate HangupThenRead(revents: bv16) {
    Has(revents, POLLHUP) && !Has(revents, POLLIN) && Has(revents, POLLPRI | POLLRDHUP)
  }

  /** The order in which the callbacks are made. */
  function Turn(c: Callback): int {
    match c case CloseCallback => 0 case ErrorCallback => 1 case ReadCallback => 2 case WriteCallback => 3
  }

  ghost predicate InTurn(l: seq<Callback>) {
    forall i, j | 0 <= i < j < |l| :: Turn(l[i]) < Turn(l[j])
  }

  /** Which callbacks are in the list, apart from the bit masks. */
  lemma ListedIff(close: bool, error: bool, read: bool, write: bool)
    ensures var l := When(close, CloseCallback) + When(error, ErrorCallback) + When(read, ReadCallback)
                     + When(write, WriteCallback);
            && (CloseCallback in l <==> close) && (ErrorCallback in l <==> error)
            && (ReadCallback in l <==> read) && (WriteCallback in l <==> write)
            && InTurn(l)
  {
  }

  /** A dispatch makes each callback at most once, in the order close, error, read, write: the write
      callback exactly for POLLOUT, the error callback exactly for POLLERR or POLLNVAL, the read callback
      exactly for POLLIN, POLLPRI or POLLRDHUP, and the close callback exactly for POLLHUP without POLLIN. */
  lemma CallbacksAre(revents: bv16)
    ensures var l := Callbacks(revents);
            && (CloseCallback in l <==> Has(revents, 0x10) && !Has(revents, 0x1))
            && (ErrorCallback in l <==> Has(revents, 0x8) || Has(revents, 0x20))
            && (ReadCallback in l <==> Has(revents, 0x1) || Has(revents, 0x2) || Has(revents, 0x2000))
            && (WriteCallback in l <==> Has(revents, 0x4))
            && InTurn(l)
  {
    ListedIff(Has(revents, POLLHUP) && !Has(revents, POLLIN), Has(revents, POLLERR | POLLNVAL),
              Has(revents, POLLIN | POLLPRI | POLLRDHUP), Has(revents, POLLOUT));
    ErrorMask(revents);
    ReadMask(revents);
    UrgentMask(revents);
  }

  lemma ErrorMask(revents: bv16)
    ensures Has(revents, POLLERR | POLLNVAL) <==> Has(revents, POLLERR) || Has(revents, POLLNVAL)
  {
  }

  lemma UrgentMask(revents: bv16)
    ensures Has(revents, POLLPRI | POLLRDHUP) <==> Has(revents, POLLPRI) || Has(revents, POLLRDHUP)
  {
  }

  lemma ReadMask(revents: bv16)
    ensures Has(revents, POLLIN | POLLPRI | POLLRDHUP) <==> Has(revents, POLLIN) || Has(revents, POLLPRI | POLLRDHUP)
  {
  }

  /** The close and the read callback run in the same dispatch exactly for such reports. */
  lemma CloseThenReadIff(revents: bv16)
    ensures CloseCallback in Callbacks(revents) && ReadCallback in Callbacks(revents) <==> HangupThenRead(revents)
  {
    ListedIff(Has(revents, POLLHUP) && !Has(revents, POLLIN), Has(revents, POLLERR | POLLNVAL),
              Has(revents, POLLIN | POLLPRI | POLLRDHUP), Has(revents, POLLOUT));
    ReadMask(revents);
  }

  class Channel {
    const fd: nat
    var events: bv16
    var revents: bv16
    var index: int
    // the interest `update()` has handed to the poller, call by call
    ghost var updates: seq<bv16>

    constructor (fd: nat)
      ensures this.fd == fd && events == NONE_EVENT && revents == 0 && index == -1 && updates == []
    {
      this.fd := fd;
      events, revents, index, updates := NONE_EVENT, 0, -1, [];
    }

    method Update()
      modifies this`updates
      ensures updates == old(updates) + [events]
    {
      updates := updates + [events];
    }

    predicate IsNoneEvent() reads this { events == NONE_EVENT }

    predicate IsWriting() reads this { Has(events, WRITE_EVENT) }

    predicate IsReading() reads this { Has(events, READ_EVENT) }

    method EnableReading()
      modifies this`events, this`updates
      ensures IsReading() && IsWriting() == old(IsWriting())
      ensures updates == old(updates) + [events]
    {
      events := events | READ_EVENT;
      Update();
    }

    method EnableWriting()
      modifies this`events, this`updates
      ensures IsWriting() && IsReading() == old(IsReading())
      ensures updates == old(updates) + [events]
    {
      events := events | WRITE_EVENT;
      Update();
    }

    method DisableWriting()
      modifies this`events, this`updates
      ensures !IsWriting() && IsReading() == old(IsReading())
      ensures updates == old(updates) + [events]
    {
      events := events & !WRITE_EVENT;
      Update();
    }

    method DisableAll()
      modifies this`events, this`updates
      ensures IsNoneEvent() && !IsReading() && !IsWriting()
      ensures updates == old(updates) + [events]
    {
      events := NONE_EVENT;
      Update();
    }
  }
}
