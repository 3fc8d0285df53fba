/** The whole byte path: `codec.send` at one end, the socket, `onMessage` at the other. */
module EndToEnd {
  import opened Bytes
  import Codec
  import opened ConnectionStates
  import T = TcpConnections

  /** `wire` holds what the sender's kernel took and the receiver has not read yet; `input` is the
      receiver's input buffer; `sent` and `delivered` are the messages seen by the two users. */
  datatype System = System(sender: T.Conn, wire: Str, input: Str, sent: seq<Str>, delivered: seq<Str>)

  const START := System(T.FRESH, [], [], [], [])

  /** `LengthHeaderCodec::send` on a connection; n is what `write` returns, if it is called. */
  method SendThroughCodec(conn: T.TcpConnection, message: Str, n: int)
    requires conn.Valid() && |message| < Codec.INT32_LIMIT && -1 <= n <= |Codec.Frame(message)|
    modifies conn`written, conn`accepted, conn.channel`events, conn.channel`updates
    modifies conn.outputBuffer, conn.outputBuffer.data
    ensures conn.Valid() && conn.View() == T.AfterSend(old(conn.View()), Codec.Frame(message), n)
  {
    var buf := Codec.Encode(message);
    conn.Send(buf, n);
  }

  datatype Step =
    | SendMessage(m: Str, n: int)
    | Sender(e: T.Event)
    | Receive(k: nat)

  /** A message of any size is framed and given to `send`; every other event of the sender may happen at any
      time; the receiver reads any non-empty part of what is on the wire. */
  predicate Enabled(s: System, step: Step) {
    match step
    case SendMessage(m, n) => |m| < Codec.INT32_LIMIT && -1 <= n <= |Codec.Frame(m)|
    case Sender(e) => !e.Sending? && T.Enabled(s.sender, e)
    case Receive(k) => 0 < k <= |s.wire|
  }

  /** The sender moves; what its kernel takes goes on the wire. */
  function SenderMoves(s: System, e: T.Event): System
    requires T.Enabled(s.sender, e)
  {
    s.(sender := T.Apply(s.sender, e), wire := s.wire + T.Took(s.sender, e))
  }

  function Apply(s: System, step: Step): System
    requires Enabled(s, step)
  {
    match step
    case SendMessage(m, n) =>
      SenderMoves(s, T.Sending(Codec.Frame(m), n))
        .(sent := if s.sender.state == Connected then s.sent + [m] else s.sent)
    case Sender(e) => SenderMoves(s, e)
    case Receive(k) =>
      var d := Codec.Decode(s.input + s.wire[..k]);
      s.(wire := s.wire[k..], input := d.rest, delivered := s.delivered + d.messages)
  }

  ghost predicate Runs(s: System, steps: seq<Step>)
    decreases |steps|
  {
    steps == [] || (Enabled(s, steps[0]) && Runs(Apply(s, steps[0]), steps[1..]))
  }

  ghost function Final(s: System, steps: seq<Step>): System
    requires Runs(s, steps)
    decreases |steps|
  {
    if steps == [] then s else Final(Apply(s, steps[0]), steps[1..])
  }

  ghost predicate AllFramable(ms: seq<Str>) {
    forall i | 0 <= i < |ms| :: |ms[i]| < Codec.INT32_LIMIT
  }

  /** The messages before the first that is too long for the receiver. */
  function BeforeTooLong(ms: seq<Str>): seq<Str> {
    if ms == [] || |ms[0]| > Codec.MAX_MESSAGE then [] else [ms[0]] + BeforeTooLong(ms[1..])
  }

  /** The receiver has decoded exactly the bytes that left the wire. */
  ghost predicate ReceiverInv(s: System) {
    && Codec.AllDeliverable(s.delivered) && !Codec.HasMessage(s.input)
    && Codec.Frames(s.delivered) + s.input + s.wire == s.sender.written
  }

  ghost predicate Inv(s: System) {
    && T.Inv(s.sender)
    && AllFramable(s.sent) && s.sender.accepted == Codec.Frames(s.sent)
    && ReceiverInv(s)
  }

  /** Only `send` adds to what the sender accepted. */
  lemma SenderGrows(c: T.Conn, e: T.Event)
    requires T.Inv(c) && T.Enabled(c, e)
    ensures T.Apply(c, e).accepted ==
      if e.Sending? && c.state == Connected then c.accepted + e.data else c.accepted
  {
    if e.Sending? && c.state == Connected { T.SendKeeps(c, e.data, e.n); }
    if e.Writable? { T.WriteKeeps(c, e.k); }
  }

  lemma WireGrows(s: System, e: T.Event)
    requires Inv(s) && T.Enabled(s.sender, e)
    ensures ReceiverInv(SenderMoves(s, e)) && T.Inv(SenderMoves(s, e).sender)
  {
    T.StepKeeps(s.sender, e);
    T.KernelTook(s.sender, e);
    Codec.Assoc(Codec.Frames(s.delivered) + s.input, s.wire, T.Took(s.sender, e));
  }

  lemma ReceiveKeeps(s: System, k: nat)
    requires ReceiverInv(s) && 0 < k <= |s.wire|
    ensures ReceiverInv(Apply(s, Receive(k)))
  {
    var a := s.input + s.wire[..k];
    var d := Codec.Decode(a);
    Codec.DecodeSplits(a);
    Codec.FramesConcat(s.delivered, d.messages);
    var fs, taken, left := Codec.Frames(s.delivered), s.wire[..k], s.wire[k..];
    T.SplitAt(s.wire, k);
    Codec.Assoc(fs, s.input, s.wire);
    Codec.Assoc(s.input, taken, left);
    Codec.Assoc(fs, a, left);
    Codec.Assoc(fs, Codec.Frames(d.messages), d.rest);
    assert Codec.AllDeliverable(s.delivered + d.messages);
  }

  lemma SentGrows(sent: seq<Str>, m: Str)
    requires AllFramable(sent) && |m| < Codec.INT32_LIMIT
    ensures AllFramable(sent + [m]) && Codec.Frames(sent + [m]) == Codec.Frames(sent) + Codec.Frame(m)
  {
    Codec.FramesConcat(sent, [m]);
    Codec.FramesCons(m, []);
    assert [m] + [] == [m] && Codec.Frame(m) + [] == Codec.Frame(m);
  }

  lemma StepKeeps(s: System, step: Step)
    requires Inv(s) && Enabled(s, step)
    ensures Inv(Apply(s, step))
  {
    match step
    case SendMessage(m, n) =>
      var e := T.Sending(Codec.Frame(m), n);
      WireGrows(s, e);
      SenderGrows(s.sender, e);
      SentGrows(s.sent, m);
    case Sender(e) =>
      WireGrows(s, e);
      SenderGrows(s.sender, e);
    case Receive(k) => ReceiveKeeps(s, k);
  }

  lemma {:induction false} RunKeeps(s: System, steps: seq<Step>)
    requires Inv(s) && Runs(s, steps)
    ensures Inv(Final(s, steps))
    decreases |steps|
  {
    if steps != [] {
      StepKeeps(s, steps[0]);
      RunKeeps(Apply(s, steps[0]), steps[1..]);
    }
  }

  /** If a stream of frames starts with frames of deliverable messages, these are its first messages. */
  lemma {:induction false} FramesPrefix(got: seq<Str>, rest: Str, sent: seq<Str>)
    requires Codec.AllDeliverable(got) && AllFramable(sent)
    requires Codec.Frames(got) + rest == Codec.Frames(sent)
    ensures got <= sent && rest == Codec.Frames(sent[|got|..])
    decreases |got|
  {
    assert got != [] ==> |Codec.Frames(got)| > 0;
    if got == [] {
      assert rest == Codec.Frames(sent);
    } else {
      Codec.Assoc(Codec.Frame(got[0]), Codec.Frames(got[1..]), rest);
      FirstFrame(got[0], Codec.Frames(got[1..]) + rest, sent[0], Codec.Frames(sent[1..]));
      FramesPrefix(got[1..], rest, sent[1..]);
      assert got == [got[0]] + got[1..] && sent == [sent[0]] + sent[1..];
    }
  }

  lemma FirstFrame(a: Str, x: Str, b: Str, y: Str)
    requires |a| <= Codec.MAX_MESSAGE && |b| < Codec.INT32_LIMIT
    requires Codec.Frame(a) + x == Codec.Frame(b) + y
    ensures a == b && x == y
  {
    Codec.DecodeOneFrame(a, x);
    Codec.DeliveredIffSmall(b, y);
    Codec.DecodeOneFrame(b, y);
    assert [a] + Codec.Decode(x).messages == [b] + Codec.Decode(y).messages;
    assert a == ([a] + Codec.Decode(x).messages)[0];
    assert x == (Codec.Frame(a) + x)[|Codec.Frame(a)|..];
    assert y == (Codec.Frame(b) + y)[|Codec.Frame(b)|..];
  }

  /** A deliverable prefix ends before the first message that is too long, and there if what follows
      it cannot be delivered. */
  lemma {:induction false} PrefixBefore(got: seq<Str>, sent: seq<Str>)
    requires got <= sent && Codec.AllDeliverable(got)
    ensures got <= BeforeTooLong(sent) <= sent
    ensures BeforeTooLong(sent[|got|..]) == [] ==> got == BeforeTooLong(sent)
  {
    if got == [] {
      BeforeIsPrefix(sent);
      assert sent[|got|..] == sent;
    } else {
      assert got == [got[0]] + got[1..] && sent == [sent[0]] + sent[1..];
      assert sent[|got|..] == sent[1..][|got[1..]|..];
      PrefixBefore(got[1..], sent[1..]);
    }
  }

  lemma {:induction false} BeforeIsPrefix(ms: seq<Str>)
    ensures BeforeTooLong(ms) <= ms
    ensures Codec.AllDeliverable(ms) ==> BeforeTooLong(ms) == ms
  {
    if ms != [] {
      BeforeIsPrefix(ms[1..]);
      assert ms == [ms[0]] + ms[1..];
    }
  }

  lemma NothingToDecode(ms: seq<Str>)
    requires !Codec.HasMessage(Codec.Frames(ms))
    ensures BeforeTooLong(ms) == []
  {
    if ms != [] && |ms[0]| <= Codec.MAX_MESSAGE { Codec.DecodeOneFrame(ms[0], Codec.Frames(ms[1..])); }
  }

  /** End to end, for messages of any size and whatever the kernels do: the messages delivered are a
      prefix of those sent before the first that is longer than 65536 bytes, in order, and all of
      these once no byte is on its way. If none is too long, that is everything sent. */
  lemma DeliveredIsPrefix(steps: seq<Step>)
    requires Runs(START, steps)
    ensures var s := Final(START, steps);
            && s.delivered <= BeforeTooLong(s.sent) <= s.sent
            && (s.wire == [] && s.sender.output == [] ==> s.delivered == BeforeTooLong(s.sent))
            && (Codec.AllDeliverable(s.sent) ==> BeforeTooLong(s.sent) == s.sent)
            && (Codec.AllDeliverable(s.sent) && s.wire == [] && s.sender.output == [] ==> s.input == [])
  {
    assert Codec.Frames([]) + [] + [] == [];
    RunKeeps(START, steps);
    var s := Final(START, steps);
    var rest := s.input + s.wire + s.sender.output;
    Codec.Assoc(Codec.Frames(s.delivered), s.input, s.wire);
    Codec.Assoc(Codec.Frames(s.delivered), s.input + s.wire, s.sender.output);
    FramesPrefix(s.delivered, rest, s.sent);
    PrefixBefore(s.delivered, s.sent);
    BeforeIsPrefix(s.sent);
    if s.wire == [] && s.sender.output == [] {
      assert rest == s.input;
      NothingToDecode(s.sent[|s.delivered|..]);
    }
  }
}
