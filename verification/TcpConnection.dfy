/** `TcpConnection::StateE` (source/base/inc/TcpConnection.h). */
module ConnectionStates {
  datatype State = Disconnected | Connecting | Connected | Disconnecting
}

/** `TcpConnection`: sending through partial writes, half-close and close
    (source/base/src/TcpConnection.cpp). */
module TcpConnections {
  import opened Bytes
  import Buffers
  import opened Channels
  import opened ConnectionStates
  import Codec

  /** The sending side: what the class holds, what the kernel took (`written`), what callers
      gave to `sendInLoop` (`accepted`) and how often `shutdownWrite` was called. */
  datatype Conn = Conn(state: State, reading: bool, writing: bool, output: Str,
                       written: Str, accepted: Str, shutdowns: nat)

  const FRESH := Conn(Connecting, false, false, [], [], [], 0)

  // ---- the handlers, on values; n is what `write` returns ----

  function AfterSendInLoop(c: Conn, data: Str, n: int): Conn
    requires -1 <= n <= |data|
  {
    var nwrote := if !c.writing && c.output == [] && n >= 0 then n else 0;
    var c' := c.(accepted := c.accepted + data, written := c.written + data[..nwrote]);
    if nwrote < |data| then c'.(output := c.output + data[nwrote..], writing := true) else c'
  }

  function AfterSend(c: Conn, data: Str, n: int): Conn
    requires -1 <= n <= |data|
  {
    if c.state == Connected then AfterSendInLoop(c, data, n) else c
  }

  function AfterShutdownInLoop(c: Conn): Conn {
    if !c.writing then c.(shutdowns := c.shutdowns + 1) else c
  }

  function AfterShutdown(c: Conn): Conn {
    if c.state == Connected then AfterShutdownInLoop(c.(state := Disconnecting)) else c
  }

  function AfterHandleWrite(c: Conn, n: int): Conn
    requires -1 <= n <= |c.output|
  {
    if c.writing && n > 0 then
      var c' := c.(written := c.written + c.output[..n], output := c.output[n..]);
      if c'.output != [] then c'
      else if c.state == Disconnecting then AfterShutdownInLoop(c'.(writing := false))
      else c'.(writing := false)
    else c
  }

  function AfterHandleClose(c: Conn): Conn {
    c.(state := Disconnected, reading := false, writing := false)
  }

  // ---- runs ----

  datatype Event = Establish | Sending(data: Str, n: int) | ShuttingDown | Writable(k: int) | Closing

  predicate Enabled(c: Conn, e: Event) {
    match e
    case Establish => c.state == Connecting
    case Sending(data, n) => -1 <= n <= |data|
    case ShuttingDown => true
    case Writable(n) => -1 <= n <= |c.output|
    case Closing => c.state != Connecting
  }

  function Apply(c: Conn, e: Event): Conn
    requires Enabled(c, e)
  {
    match e
    case Establish => c.(state := Connected, reading := true)
    case Sending(data, n) => AfterSend(c, data, n)
    case ShuttingDown => AfterShutdown(c)
    case Writable(n) => AfterHandleWrite(c, n)
    case Closing => AfterHandleClose(c)
  }

  ghost predicate Runs(c: Conn, es: seq<Event>)
    decreases |es|
  {
    es == [] || (Enabled(c, es[0]) && Runs(Apply(c, es[0]), es[1..]))
  }

  ghost function Final(c: Conn, es: seq<Event>): Conn
    requires Runs(c, es)
    decreases |es|
  {
    if es == [] then c else Final(Apply(c, es[0]), es[1..])
  }

  predicate Open(c: Conn) { c.state == Connected || c.state == Disconnecting }

  /** Bytes are conserved, and the interest in writing is exactly the backlog. */
  predicate Conserved(c: Conn) {
    && c.written + c.output == c.accepted
    && (Open(c) ==> (c.writing <==> c.output != []) && c.reading)
    && (!Open(c) ==> !c.writing && !c.reading)
    && (c.state == Connecting ==> c == FRESH)
  }

  /** The write side is shut once the backlog of a disconnecting connection is empty, never before. */
  predicate HalfClosed(c: Conn) {
    && c.shutdowns <= 1
    && (c.state == Connected ==> c.shutdowns == 0)
    && (c.state == Disconnecting ==> (c.shutdowns == 1 <==> c.output == []))
    && (c.shutdowns == 1 ==> c.output == [])
  }

  predicate Inv(c: Conn) { Conserved(c) && HalfClosed(c) }

  lemma SplitAt(s: Str, n: nat)
    requires n <= |s|
    ensures s[..n] + s[n..] == s
  {
  }

  lemma SendKeeps(c: Conn, data: Str, n: int)
    requires Inv(c) && c.state == Connected && -1 <= n <= |data|
    ensures Inv(AfterSendInLoop(c, data, n)) && AfterSendInLoop(c, data, n).accepted == c.accepted + data
  {
    var nwrote := if !c.writing && c.output == [] && n >= 0 then n else 0;
    SplitAt(data, nwrote);
    Codec.Assoc(c.written, c.output, data);
    Codec.Assoc(c.written, data[..nwrote], data[nwrote..]);
    assert c.output == [] ==> c.written + c.output == c.written && c.output + data[nwrote..] == data[nwrote..];
    assert nwrote == 0 ==> data[..nwrote] == [] && data[nwrote..] == data && c.written + [] == c.written;
  }

  lemma WriteKeeps(c: Conn, n: int)
    requires Inv(c) && -1 <= n <= |c.output|
    ensures Inv(AfterHandleWrite(c, n)) && AfterHandleWrite(c, n).accepted == c.accepted
  {
    if c.writing && n > 0 {
      SplitAt(c.output, n);
      Codec.Assoc(c.written, c.output[..n], c.output[n..]);
    }
  }

  lemma StepKeeps(c: Conn, e: Event)
    requires Inv(c) && Enabled(c, e)
    ensures Inv(Apply(c, e))
  {
    match e
    case Sending(data, n) => if c.state == Connected { SendKeeps(c, data, n); }
    case Writable(n) => WriteKeeps(c, n);
    case _ =>
  }

  lemma {:induction false} RunKeeps(c: Conn, es: seq<Event>)
    requires Inv(c) && Runs(c, es)
    ensures Inv(Final(c, es))
    decreases |es|
  {
    if es != [] {
      StepKeeps(c, es[0]);
      RunKeeps(Apply(c, es[0]), es[1..]);
    }
  }

  /** Output conservation over every run of a connection, whatever `write` returns. */
  lemma OutputConserved(es: seq<Event>)
    requires Runs(FRESH, es)
    ensures var c := Final(FRESH, es);
            && c.written + c.output == c.accepted
            && (Open(c) ==> (c.writing <==> c.output != []))
            && c.shutdowns <= 1
  {
    assert Inv(FRESH);
    RunKeeps(FRESH, es);
  }

  /** After `shutdown()`: nothing more is accepted, the write side is shut at most once and only
      when everything accepted before has been written, and it is shut as soon as that is so. */
  lemma {:induction false} GracefulHalfClose(c: Conn, es: seq<Event>)
    requires Inv(c) && (c.state == Disconnecting || c.state == Disconnected) && Runs(c, es)
    ensures var d := Final(c, es);
            && d.accepted == c.accepted && d.shutdowns <= 1
            && (d.shutdowns == 1 ==> d.written == c.accepted)
            && (d.state == Disconnecting && d.output == [] ==> d.shutdowns == 1)
    decreases |es|
  {
    if es != [] {
      StepKeeps(c, es[0]);
      if es[0].Writable? { WriteKeeps(c, es[0].k); }
      GracefulHalfClose(Apply(c, es[0]), es[1..]);
    } else {
      assert c.written + [] == c.written;
    }
  }

  /** No byte is written, and no second shutdown made, once the write side is shut. */
  lemma {:induction false} NothingAfterHalfClose(c: Conn, es: seq<Event>)
    requires Inv(c) && c.shutdowns == 1 && Runs(c, es)
    ensures Final(c, es).written == c.written && Final(c, es).shutdowns == 1
    decreases |es|
  {
    if es != [] {
      StepKeeps(c, es[0]);
      NothingAfterHalfClose(Apply(c, es[0]), es[1..]);
    }
  }

  // ---- what the kernel and the callers saw ----

  /** What a step offers to `write`: the data sent on an idle connection, or the backlog. */
  function Offered(c: Conn, e: Event): Str {
    match e
    case Sending(data, _) => if c.state == Connected && !c.writing && c.output == [] then data else []
    case Writable(_) => if c.writing then c.output else []
    case _ => []
  }

  /** The kernel takes the first n bytes of the offer. */
  function Took(c: Conn, e: Event): Str {
    var n := match e case Sending(_, n) => n case Writable(k) => k case _ => 0;
    Offered(c, e)[..Max(0, Min(n, |Offered(c, e)|))]
  }

  ghost function TookAll(c: Conn, es: seq<Event>): Str
    requires Runs(c, es)
    decreases |es|
  {
    if es == [] then [] else Took(c, es[0]) + TookAll(Apply(c, es[0]), es[1..])
  }

  lemma KernelTook(c: Conn, e: Event)
    requires Inv(c) && Enabled(c, e)
    ensures Apply(c, e).written == c.written + Took(c, e)
  {
    assert c.written + [] == c.written;
    if e.Sending? { assert e.data[..0] == []; }
  }

  /** Over every run the connection knows exactly what the kernel took, so that with `OutputConserved`
      its backlog is what was accepted and not yet taken. */
  lemma {:induction false} WrittenIsTaken(c: Conn, es: seq<Event>)
    requires Inv(c) && Runs(c, es)
    ensures Final(c, es).written == c.written + TookAll(c, es)
    decreases |es|
  {
    if es == [] {
      assert c.written + [] == c.written;
    } else {
      var c' := Apply(c, es[0]);
      KernelTook(c, es[0]);
      StepKeeps(c, es[0]);
      WrittenIsTaken(c', es[1..]);
      Codec.Assoc(c.written, Took(c, es[0]), TookAll(c', es[1..]));
    }
  }

  /** All the data given to `send`. */
  function DataOf(es: seq<Event>): Str {
    if es == [] then [] else (if es[0].Sending? then es[0].data else []) + DataOf(es[1..])
  }

  /** The state is what the calls made it: up by `connectEstablished`, half-closed by the first
      `shutdown()`, closed by `handleClose`; nothing else. */
  lemma {:induction false} StateHistory(c: Conn, es: seq<Event>)
    requires Runs(c, es)
    ensures Final(c, es).state == Connecting <==> c.state == Connecting && Establish !in es
    ensures c.state == Connected ==>
      Final(c, es).state == if Closing in es then Disconnected
                            else if ShuttingDown in es then Disconnecting else Connected
    ensures c.state == Disconnecting ==> Final(c, es).state == if Closing in es then Disconnected else Disconnecting
    ensures c.state == Disconnected ==> Final(c, es).state == Disconnected
    decreases |es|
  {
    if es != [] {
      StateHistory(Apply(c, es[0]), es[1..]);
      assert es == [es[0]] + es[1..];
    }
  }

  /** A connection that is up accepts all that is sent until the first `shutdown()` or close, and does
      not shut its write side before. */
  lemma {:induction false} AcceptsWhileUp(c: Conn, es: seq<Event>)
    requires Inv(c) && c.state == Connected && Runs(c, es) && ShuttingDown !in es && Closing !in es
    ensures Final(c, es).accepted == c.accepted + DataOf(es) && Final(c, es).shutdowns == 0
    decreases |es|
  {
    if es == [] {
      assert c.accepted + [] == c.accepted;
    } else {
      var c' := Apply(c, es[0]);
      StepKeeps(c, es[0]);
      if es[0].Sending? { SendKeeps(c, es[0].data, es[0].n); }
      if es[0].Writable? { WriteKeeps(c, es[0].k); }
      assert c'.accepted == c.accepted + if es[0].Sending? then es[0].data else [];
      AcceptsWhileUp(c', es[1..]);
      Codec.Assoc(c.accepted, if es[0].Sending? then es[0].data else [], DataOf(es[1..]));
    }
  }

  /** Otherwise nothing is accepted. */
  lemma NotUpAcceptsNothing(c: Conn, e: Event)
    requires Inv(c) && Enabled(c, e) && (c.state != Connected || !e.Sending?)
    ensures Apply(c, e).accepted == c.accepted
  {
    if e.Writable? { WriteKeeps(c, e.k); }
  }

  // ---- the class ----

  class TcpConnection {
    var state: State
    var channel: Channel
    var inputBuffer: Buffers.Buffer
    var outputBuffer: Buffers.Buffer
    ghost var written: Str
    ghost var accepted: Str
    ghost var shutdowns: nat

    ghost predicate Valid()
      reads this, inputBuffer, outputBuffer
    {
      && inputBuffer.Valid() && outputBuffer.Valid()
      && inputBuffer != outputBuffer && inputBuffer.data != outputBuffer.data
    }

    ghost function View(): Conn
      requires Valid()
      reads this, channel, inputBuffer, outputBuffer, outputBuffer.data
    {
      Conn(state, channel.IsReading(), channel.IsWriting(), outputBuffer.Contents(), written, accepted, shutdowns)
    }

    constructor (sockfd: nat)
      ensures Valid() && View() == FRESH && inputBuffer.Contents() == []
      ensures fresh(channel) && fresh(inputBuffer) && fresh(outputBuffer)
      ensures fresh(inputBuffer.data) && fresh(outputBuffer.data)
    {
      state := Connecting;
      channel := new Channel(sockfd);
      inputBuffer := new Buffers.Buffer();
      outputBuffer := new Buffers.Buffer();
      written, accepted, shutdowns := [], [], 0;
    }

    method ConnectEstablished()
      requires Valid() && state == Connecting
      modifies this`state, channel`events, channel`updates
      ensures Valid() && View() == Apply(old(View()), Establish)
    {
      state := Connected;
      channel.EnableReading();
    }

    /** `sendInLoop`: n is what `write` returns, if it is called. */
    method SendInLoop(data: Str, n: int)
      requires Valid() && -1 <= n <= |data|
      modifies this`written, this`accepted, channel`events, channel`updates, outputBuffer, outputBuffer.data
      ensures Valid() && View() == AfterSendInLoop(old(View()), data, n)
      ensures outputBuffer.data == old(outputBuffer.data) || fresh(outputBuffer.data)
    {
      var nwrote := 0;
      var remaining := |data|;
      if !channel.IsWriting() && outputBuffer.writerIndex == outputBuffer.readerIndex {
        nwrote := n;
        if nwrote >= 0 {
          remaining := |data| - nwrote;
        } else {
          nwrote := 0;
        }
      }
      accepted, written := accepted + data, written + data[..nwrote];
      if remaining > 0 {
        outputBuffer.Append(data[nwrote..]);
        if !channel.IsWriting() {
          channel.EnableWriting();
        }
      }
    }

    /** `send(Buffers.Buffer*)` from the loop thread: the buffer given is emptied if the data is taken. */
    method Send(buf: Buffers.Buffer, n: int)
      requires Valid() && buf.Valid() && -1 <= n <= |buf.Contents()|
      requires buf != inputBuffer && buf != outputBuffer && buf.data != outputBuffer.data
      modifies this`written, this`accepted, channel`events, channel`updates, outputBuffer, outputBuffer.data, buf
      ensures Valid() && View() == AfterSend(old(View()), old(buf.Contents()), n)
      ensures buf.Valid() && buf.Contents() == if state == Connected then [] else old(buf.Contents())
      ensures outputBuffer.data == old(outputBuffer.data) || fresh(outputBuffer.data)
    {
      if state == Connected {
        SendInLoop(buf.Contents(), n);
        buf.RetrieveAll();
      }
    }

    method ShutdownInLoop()
      requires Valid()
      modifies this`shutdowns
      ensures Valid() && View() == AfterShutdownInLoop(old(View()))
    {
      if !channel.IsWriting() {
        shutdowns := shutdowns + 1;
      }
    }

    method Shutdown()
      requires Valid()
      modifies this`state, this`shutdowns
      ensures Valid() && View() == AfterShutdown(old(View()))
    {
      if state == Connected {
        state := Disconnecting;
        ShutdownInLoop();
      }
    }

    method HandleWrite(n: int)
      requires Valid() && -1 <= n <= |outputBuffer.Contents()|
      modifies this`written, this`shutdowns, channel`events, channel`updates
      modifies outputBuffer`readerIndex, outputBuffer`writerIndex
      ensures Valid() && View() == AfterHandleWrite(old(View()), n)
    {
      if channel.IsWriting() {
        if n > 0 {
          written := written + outputBuffer.Contents()[..n];
          outputBuffer.Retrieve(n);
          if outputBuffer.writerIndex == outputBuffer.readerIndex {
            channel.DisableWriting();
            if state == Disconnecting {
              ShutdownInLoop();
            }
          }
        }
      }
    }

    method HandleClose()
      requires Valid()
      modifies this`state, channel`events, channel`updates
      ensures Valid() && View() == AfterHandleClose(old(View()))
    {
      state := Disconnected;
      channel.DisableAll();
    }

    /** `handleRead` with the codec as message callback. `messages` go to the user's callback in
        order; at a refused header the codec calls `shutdown()`. */
    method HandleRead(n: int, incoming: Str) returns (messages: seq<Str>)
      requires Valid() && (n < 0 || n == |incoming| <= inputBuffer.Lay().Writable() + Buffers.EXTRA_BUF)
      modifies this`state, this`shutdowns, channel`events, channel`updates, inputBuffer, inputBuffer.data
      ensures Valid() && View() ==
        if n == 0 then AfterHandleClose(old(View()))
        else if n > 0 && Codec.Refused(inputBuffer.Contents()) then AfterShutdown(old(View()))
        else old(View())
      ensures n > 0 ==>
        Codec.Decoded(messages, inputBuffer.Contents()) == Codec.Decode(old(inputBuffer.Contents()) + incoming)
      ensures n <= 0 ==> messages == [] && inputBuffer.Contents() == old(inputBuffer.Contents())
      ensures inputBuffer.data == old(inputBuffer.data) || fresh(inputBuffer.data)
    {
      messages := [];
      inputBuffer.ReadFd(n, incoming);
      if n > 0 {
        var refused;
        messages, refused := Codec.OnMessage(inputBuffer);
        if refused {
          Shutdown();
        }
      } else if n == 0 {
        assert inputBuffer.Contents() == old(inputBuffer.Contents());
        HandleClose();
      }
    }
  }
}
