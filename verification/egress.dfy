/**
 The sending half of a channel: the handler's messages, the dispatcher's parked output and the
 packets that leave, as drained once per tick by either runtime.
 */
module Egress {
  import opened Prelude
  import opened Channels

  /** `ChannelEgress`. */
  datatype Message =
    | Data(bytes: seq<byte>)
    | Stderr(bytes: seq<byte>)
    | ExitStatus(code: u32)
    | Datagram(bytes: seq<byte>)
    | Eof
    | Close

  datatype Wire =
    | WData(bytes: seq<byte>)
    | WStderr(bytes: seq<byte>)
    | WExit(code: u32)
    | WSignal(name: string, coreDumped: bool, message: string)
    | WEof
    | WClose

  /** What the runtime holds between ticks. */
  datatype Out = Out(
    pendingData: seq<byte>, pendingStderr: seq<byte>, pendingExit: Option<u32>,
    pendingEof: bool, pendingClose: bool, eofSent: bool, closeSent: bool)

  /** A message taken from the handler; only a datagram can fail to fit. */
  datatype Pulled = Pulled(m: Message, fits: bool)

  /**
   What became of the runtime: the dispatcher holds it, dropped it to close an idle channel, or dropped it on
   the peer's CLOSE (`early`: with neither our EOF nor our CLOSE out).
   */
  datatype Fate = Held | Idled | Answered(early: bool)

  /**
   `handler`: the sending end of `queue` still exists.  Once the runtime is no longer held, `out` is what went
   with it.  `wire` and `pulled` are histories.
   */
  datatype Sender = Sender(
    side: Side, chan: ChannelState, out: Out, up: bool,
    queue: seq<Message>, handler: bool, wire: seq<Wire>, pulled: seq<Pulled>, fate: Fate)

  // --- Emitting ------------------------------------------------------------------------------

  datatype Emitted = Emitted(chan: ChannelState, msgs: seq<Wire>, rest: seq<byte>)

  function Packet(extended: bool, bytes: seq<byte>): Wire {
    if extended then WStderr(bytes) else WData(bytes)
  }

  /** Ship `bytes` packet by packet until one takes nothing. */
  function Emit(chan: ChannelState, extended: bool, bytes: seq<byte>): Result<Emitted, Fault>
    decreases |bytes|
  {
    if bytes == [] then Ok(Emitted(chan, [], []))
    else
      match SendData(chan, extended, |bytes|)
      case Err(e) => Err(e)
      case Ok((chan', taken)) =>
        if taken == 0 then Ok(Emitted(chan, [], bytes))
        else
          match Emit(chan', extended, bytes[taken..])
          case Err(e) => Err(e)
          case Ok(more) => Ok(more.(msgs := [Packet(extended, bytes[..taken])] + more.msgs))
  }

  /** `r`, with packets `sent` already out. */
  function Behind(sent: seq<Wire>, r: Result<Emitted, Fault>): Result<Emitted, Fault> {
    if r.Err? then r else Ok(r.value.(msgs := sent + r.value.msgs))
  }

  /** One turn of the emitting loop. */
  lemma EmitTurn(sent: seq<Wire>, chan: ChannelState, extended: bool, bytes: seq<byte>)
    requires bytes != [] && CanSendData(chan)
    ensures var (chan', taken) := SendData(chan, extended, |bytes|).value;
            && CanSendData(chan')
            && (taken > 0 ==>
                  Behind(sent, Emit(chan, extended, bytes))
                  == Behind(sent + [Packet(extended, bytes[..taken])], Emit(chan', extended, bytes[taken..])))
  {
    var (chan', taken) := SendData(chan, extended, |bytes|).value;
    if taken > 0 && Emit(chan', extended, bytes[taken..]).Ok? {
      var msgs := Emit(chan', extended, bytes[taken..]).value.msgs;
      var p := Packet(extended, bytes[..taken]);
      assert sent + ([p] + msgs) == (sent + [p]) + msgs;
    }
  }

  /** A byte of output and the stream it belongs to (`true`: stderr). */
  type Tagged = (bool, byte)

  function Tag(extended: bool, bytes: seq<byte>): seq<Tagged> {
    if bytes == [] then [] else [(extended, bytes[0])] + Tag(extended, bytes[1..])
  }

  lemma {:induction false} TagAppend(extended: bool, a: seq<byte>, b: seq<byte>)
    ensures Tag(extended, a + b) == Tag(extended, a) + Tag(extended, b)
  {
    if a == [] {
      assert a + b == b;
    } else {
      assert (a + b)[1..] == a[1..] + b;
      TagAppend(extended, a[1..], b);
    }
  }

  function Carries(w: Wire): seq<Tagged> {
    match w
    case WData(b) => Tag(false, b)
    case WStderr(b) => Tag(true, b)
    case _ => []
  }

  /** The output bytes in a run of packets, stdout and stderr interleaved as sent. */
  function Shipped(ws: seq<Wire>): seq<Tagged> {
    if ws == [] then [] else Carries(ws[0]) + Shipped(ws[1..])
  }

  lemma {:induction false} ShippedAppend(a: seq<Wire>, b: seq<Wire>)
    ensures Shipped(a + b) == Shipped(a) + Shipped(b)
  {
    if a == [] {
      assert a + b == b;
    } else {
      assert (a + b)[1..] == a[1..] + b;
      ShippedAppend(a[1..], b);
    }
  }

  ghost predicate AllPayload(ws: seq<Wire>) {
    forall w | w in ws :: w.WData? || w.WStderr?
  }

  /** Emission fails only on a channel that takes no data; a remainder means no room is left. */
  lemma {:induction false} EmitChannel(chan: ChannelState, extended: bool, bytes: seq<byte>)
    ensures Emit(chan, extended, bytes).Err? <==> bytes != [] && !CanSendData(chan)
    ensures var r := Emit(chan, extended, bytes);
            r.Ok? ==>
              && r.value.chan == chan.(remoteWindow := r.value.chan.remoteWindow)
              && |r.value.rest| <= |bytes|
              && r.value.chan.remoteWindow + |bytes| == chan.remoteWindow + |r.value.rest|
              && (r.value.rest != [] ==> Capacity(r.value.chan, extended) == 0)
    decreases |bytes|
  {
    if bytes != [] && CanSendData(chan) {
      var (chan', taken) := SendData(chan, extended, |bytes|).value;
      if taken > 0 {
        EmitChannel(chan', extended, bytes[taken..]);
      }
    }
  }

  /** Emission splits the bytes into packets and a remainder: nothing lost, repeated or reordered. */
  lemma {:induction false} EmitSplits(chan: ChannelState, extended: bool, bytes: seq<byte>)
    requires Emit(chan, extended, bytes).Ok?
    ensures var e := Emit(chan, extended, bytes).value;
            Shipped(e.msgs) + Tag(extended, e.rest) == Tag(extended, bytes) && AllPayload(e.msgs)
    decreases |bytes|
  {
    if bytes != [] {
      var (chan', taken) := SendData(chan, extended, |bytes|).value;
      if taken > 0 {
        EmitSplits(chan', extended, bytes[taken..]);
        var more := Emit(chan', extended, bytes[taken..]).value;
        FirstPacket(extended, bytes, taken, more.msgs, more.rest);
      }
    }
  }

  lemma {:induction false} FirstPacket(extended: bool, bytes: seq<byte>, taken: nat, msgs: seq<Wire>, rest: seq<byte>)
    requires taken <= |bytes|
    requires Shipped(msgs) + Tag(extended, rest) == Tag(extended, bytes[taken..])
    ensures Shipped([Packet(extended, bytes[..taken])] + msgs) + Tag(extended, rest) == Tag(extended, bytes)
  {
    var first := Packet(extended, bytes[..taken]);
    ShippedOne(first);
    ShippedAppend([first], msgs);
    TagSplit(extended, bytes, taken);
    Assoc(Carries(first), Shipped(msgs), Tag(extended, rest));
  }

  lemma ShippedOne(w: Wire)
    ensures Shipped([w]) == Carries(w)
  {
  }

  lemma TagSplit(extended: bool, bytes: seq<byte>, k: nat)
    requires k <= |bytes|
    ensures Tag(extended, bytes) == Tag(extended, bytes[..k]) + Tag(extended, bytes[k..])
  {
    assert bytes == bytes[..k] + bytes[k..];
    TagAppend(extended, bytes[..k], bytes[k..]);
  }

  lemma Assoc(a: seq<Tagged>, b: seq<Tagged>, c: seq<Tagged>)
    ensures (a + b) + c == a + (b + c)
  {
  }

  // --- One tick ------------------------------------------------------------------------------

  predicate Blocked(o: Out) {
    o.pendingData != [] || o.pendingStderr != []
  }

  /** Ship what fits and park the rest behind whatever is parked already. */
  function EmitInto(s: Sender, extended: bool, bytes: seq<byte>): Sender {
    match Emit(s.chan, extended, bytes)
    case Err(_) => s.(up := false)
    case Ok(e) =>
      var out := if extended then s.out.(pendingStderr := s.out.pendingStderr + e.rest)
                 else s.out.(pendingData := s.out.pendingData + e.rest);
      s.(chan := e.chan, wire := s.wire + e.msgs, out := out)
  }

  /** Re-attempt what was parked: stdout first, stderr only if that all went. */
  function Retry(s: Sender): Sender {
    var a := if s.out.pendingData == [] then s
             else EmitInto(s.(out := s.out.(pendingData := [])), false, s.out.pendingData);
    if !a.up || a.out.pendingData != [] || a.out.pendingStderr == [] then a
    else EmitInto(a.(out := a.out.(pendingStderr := [])), true, a.out.pendingStderr)
  }

  function Take(s: Sender, fits: bool): Sender
    requires s.queue != []
  {
    s.(queue := s.queue[1..], pulled := s.pulled + [Pulled(s.queue[0], fits)])
  }

  /** Act on one message.  The client's forwarded channels carry no stderr and no exit status. */
  function Handle(s: Sender): Sender
    requires s.queue != []
  {
    match s.queue[0]
    case Data(b) => EmitInto(Take(s, true), false, b)
    case Stderr(b) => if s.side.Client? then Take(s, true) else EmitInto(Take(s, true), true, b)
    case ExitStatus(c) =>
      if s.side.Client? then Take(s, true) else Take(s, true).(out := s.out.(pendingExit := Some(c)))
    case Datagram(b) =>
      (match SendDatagram(s.chan, |b|)
       case Err(_) => Take(s, true).(up := false)
       case Ok(None) => Take(s, false)
       case Ok(Some(chan)) => Take(s, true).(chan := chan, wire := s.wire + [WData(b)]))
    case Eof => Take(s, true).(out := s.out.(pendingEof := true))
    case Close => Take(s, true).(out := s.out.(pendingClose := true))
  }

  /** Pull messages until one parks, a marker is met, or there are none. */
  function Pull(s: Sender): Sender
    decreases |s.queue|
  {
    if !s.up || Blocked(s.out) then s
    else if s.queue == [] then if s.handler then s else s.(out := s.out.(pendingClose := true))
    else if s.queue[0].Eof? || s.queue[0].Close? then Handle(s)
    else Pull(Handle(s))
  }

  function SendExit(s: Sender): Sender {
    if !s.up || s.out.pendingExit.None? then s
    else if !Sendable(s.chan) then s.(up := false)
    else s.(wire := s.wire + [WExit(s.out.pendingExit.value)], out := s.out.(pendingExit := None))
  }

  function SendEofOnce(s: Sender, wanted: bool): Sender {
    if !s.up || !wanted || s.out.eofSent then s
    else
      match SendEof(s.chan)
      case Err(_) => s.(up := false)
      case Ok(chan) => s.(chan := chan, wire := s.wire + [WEof], out := s.out.(eofSent := true))
  }

  function SendCloseOnce(s: Sender): Sender {
    if !s.up || !s.out.pendingClose || s.out.closeSent then s
    else
      match SendClose(s.chan)
      case Err(_) => s.(up := false)
      case Ok(chan) => s.(chan := chan, wire := s.wire + [WClose], out := s.out.(closeSent := true))
  }

  /** Exit status, EOF, then CLOSE (with an EOF first if none was sent), once all output has left. */
  function Finish(s: Sender): Sender {
    if !s.up || Blocked(s.out) then s
    else SendCloseOnce(SendEofOnce(SendEofOnce(SendExit(s), s.out.pendingEof), s.out.pendingClose))
  }

  function Tick(s: Sender): Sender {
    if !s.up || !s.fate.Held? || s.out.closeSent then s
    else
      var a := Retry(s);
      if Blocked(a.out) then a else Finish(Pull(a))
  }

  // --- Runs ----------------------------------------------------------------------------------

  /**
   The peer's CLOSE is dispatched: our own answers it, unless it is out already, and the runtime goes.  A
   CLOSE for a channel that is forgotten is not this channel's.
   */
  function OnPeerClose(s: Sender): Sender {
    if s.chan.localClosed && s.chan.remoteClosed then s
    else
      s.(chan := s.chan.(remoteClosed := true, localClosed := true),
         wire := if s.chan.localClosed then s.wire else s.wire + [WClose],
         fate := if s.fate.Held? then Answered(!s.chan.localEof) else s.fate)
  }

  /** `close_idle_channels`: the runtime goes, parked output and all, then EOF and CLOSE are sent. */
  function OnIdleClose(s: Sender): Sender {
    if s.side.Client? || !Sendable(s.chan) then s
    else
      s.(chan := s.chan.(localEof := true, localClosed := true), fate := Idled,
         wire := s.wire + if s.chan.localEof then [WClose] else [WEof, WClose])
  }

  /**
   `CloseSwallowed`: the server was reading packets itself, waiting for window on another channel, when the
   peer's CLOSE came; the connection layer has seen it and the runtime never will.
   */
  datatype Step =
    | Enqueue(m: Message) | HandlerGone | Adjust(n: u32) | CloseSwallowed | PeerClose | IdleClose | Drain

  /** `SERVE_EGRESS_BACKLOG` and `SUBSYSTEM_EGRESS_BACKLOG`. */
  const QUEUE_CAP := 32

  /** A full queue makes the handler wait: the step does nothing. */
  function Next(s: Sender, step: Step): Sender {
    match step
    case Enqueue(m) => if s.handler && s.fate.Held? && |s.queue| < QUEUE_CAP then s.(queue := s.queue + [m]) else s
    case HandlerGone => s.(handler := false)
    case Adjust(n) => if s.up then s.(chan := OnWindowAdjust(s.chan, n)) else s
    case CloseSwallowed => if s.up && s.side.Server? then s.(chan := s.chan.(remoteClosed := true)) else s
    case PeerClose => if s.up then OnPeerClose(s) else s
    case IdleClose => if s.up then OnIdleClose(s) else s
    case Drain => Tick(s)
  }

  function Run(s: Sender, steps: seq<Step>): Sender
    decreases |steps|
  {
    if steps == [] then s else Next(Run(s, steps[..|steps| - 1]), steps[|steps| - 1])
  }

  function Init(side: Side, window: u32, maxPacket: u32): Sender {
    Sender(side, ChannelState(0, window, 0, maxPacket, false, false, false, false, 0, 0),
           Out([], [], None, false, false, false, false), true, [], true, [], [], Held)
  }
}
