/** The sending half keeps within the window and packet size its peer granted. */
module EgressMeter {
  import opened Prelude
  import opened Channels
  import opened Egress
  import opened EgressRuns

  function Size(w: Wire): nat {
    if w.WData? || w.WStderr? then |w.bytes| else 0
  }

  ghost predicate WithinPacket(ws: seq<Wire>, limit: nat) {
    forall w | w in ws :: Size(w) <= limit
  }

  /** From `s` to `r` the wire only grew, by packets that fit and that the window paid for. */
  ghost predicate Metered(s: Sender, r: Sender) {
    && s.wire <= r.wire && r.chan.remoteMaxPacket == s.chan.remoteMaxPacket
    && r.chan.remoteWindow + |Shipped(r.wire)| == s.chan.remoteWindow + |Shipped(s.wire)|
    && (WithinPacket(s.wire, s.chan.remoteMaxPacket) ==> WithinPacket(r.wire, s.chan.remoteMaxPacket))
  }

  lemma MeteredTrans(a: Sender, b: Sender, c: Sender)
    requires Metered(a, b) && Metered(b, c)
    ensures Metered(a, c)
  {
  }

  lemma {:induction false} EmitFits(chan: ChannelState, extended: bool, bytes: seq<byte>)
    requires Emit(chan, extended, bytes).Ok?
    ensures WithinPacket(Emit(chan, extended, bytes).value.msgs, chan.remoteMaxPacket)
    decreases |bytes|
  {
    if bytes != [] {
      var (chan', taken) := SendData(chan, extended, |bytes|).value;
      if taken > 0 {
        EmitFits(chan', extended, bytes[taken..]);
      }
    }
  }

  lemma {:induction false} TagLength(extended: bool, bytes: seq<byte>)
    ensures |Tag(extended, bytes)| == |bytes|
  {
    if bytes != [] { TagLength(extended, bytes[1..]); }
  }

  lemma {:induction false} EmitIntoMetered(s: Sender, extended: bool, bytes: seq<byte>)
    ensures Metered(s, EmitInto(s, extended, bytes))
  {
    var e := Emit(s.chan, extended, bytes);
    if e.Ok? {
      EmitChannel(s.chan, extended, bytes);
      EmitSplits(s.chan, extended, bytes);
      EmitFits(s.chan, extended, bytes);
      TagLength(extended, bytes);
      TagLength(extended, e.value.rest);
      ShippedAppend(s.wire, e.value.msgs);
    }
  }

  lemma {:induction false} HandleMetered(s: Sender)
    requires s.queue != []
    ensures Metered(s, Handle(s))
  {
    match s.queue[0]
    case Data(b) => EmitIntoMetered(Take(s, true), false, b);
    case Stderr(b) => EmitIntoMetered(Take(s, true), true, b);
    case Datagram(b) => DatagramMetered(s);
    case _ =>
  }

  lemma {:induction false} DatagramMetered(s: Sender)
    requires s.queue != [] && s.queue[0].Datagram?
    ensures Metered(s, Handle(s))
  {
    DatagramSize(s.wire, s.queue[0].bytes);
  }

  lemma {:induction false} DatagramSize(wire: seq<Wire>, b: seq<byte>)
    ensures |Shipped(wire + [WData(b)])| == |Shipped(wire)| + |b|
  {
    ShippedAppend(wire, [WData(b)]);
    ShippedOne(WData(b));
    TagLength(false, b);
  }

  lemma {:induction false} PullMetered(s: Sender)
    ensures Metered(s, Pull(s))
    decreases |s.queue|
  {
    if s.up && !Blocked(s.out) && s.queue != [] {
      HandleMetered(s);
      if !s.queue[0].Eof? && !s.queue[0].Close? {
        PullMetered(Handle(s));
        MeteredTrans(s, Handle(s), Pull(s));
      }
    }
  }

  lemma {:induction false} ControlMetered(s: Sender, w: Wire)
    requires Size(w) == 0 && Carries(w) == []
    ensures Metered(s, s.(wire := s.wire + [w]))
  {
    ShippedAppend(s.wire, [w]);
    ShippedOne(w);
  }

  lemma {:induction false} ExitMetered(s: Sender)
    ensures Metered(s, SendExit(s))
  {
    if s.out.pendingExit.Some? { ControlMetered(s, WExit(s.out.pendingExit.value)); }
  }

  lemma {:induction false} MarkersMetered(s: Sender, wanted: bool)
    ensures Metered(s, SendEofOnce(s, wanted)) && Metered(s, SendCloseOnce(s))
  {
    ControlMetered(s, WEof);
    ControlMetered(s, WClose);
  }

  lemma {:induction false} FinishMetered(s: Sender)
    ensures Metered(s, Finish(s))
  {
    var a := SendExit(s);
    var b := SendEofOnce(a, s.out.pendingEof);
    var c := SendEofOnce(b, s.out.pendingClose);
    ExitMetered(s);
    MarkersMetered(a, s.out.pendingEof);
    MarkersMetered(b, s.out.pendingClose);
    MarkersMetered(c, false);
    MeteredTrans(s, a, b);
    MeteredTrans(s, b, c);
    MeteredTrans(s, c, SendCloseOnce(c));
  }

  /** A tick never sends more than the window held, nor a packet the peer did not agree to. */
  lemma {:induction false} TickMetered(s: Sender)
    ensures Metered(s, Tick(s))
  {
    if s.up && s.fate.Held? && !s.out.closeSent {
      var a := Retry(s);
      RetryMetered(s);
      PullMetered(a);
      FinishMetered(Pull(a));
      MeteredTrans(s, a, Pull(a));
      MeteredTrans(s, Pull(a), Finish(Pull(a)));
    }
  }

  lemma {:induction false} RetryMetered(s: Sender)
    ensures Metered(s, Retry(s))
  {
    var o := s.out;
    var s1 := s.(out := o.(pendingData := []));
    EmitIntoMetered(s1, false, o.pendingData);
    var a := if o.pendingData == [] then s else EmitInto(s1, false, o.pendingData);
    EmitIntoMetered(a.(out := a.out.(pendingStderr := [])), true, a.out.pendingStderr);
    assert Metered(s, a);
  }

  /** Nor does a close, for whatever reason. */
  lemma {:induction false} ClosesMetered(s: Sender)
    ensures Metered(s, OnPeerClose(s)) && Metered(s, OnIdleClose(s))
  {
    ControlOnly(s, OnPeerClose(s), [WClose]);
    ControlOnly(s, OnIdleClose(s), if s.chan.localEof then [WClose] else [WEof, WClose]);
  }

  lemma {:induction false} ControlOnly(s: Sender, r: Sender, ws: seq<Wire>)
    requires r.wire == s.wire || r.wire == s.wire + ws
    requires r.chan.remoteWindow == s.chan.remoteWindow && r.chan.remoteMaxPacket == s.chan.remoteMaxPacket
    requires forall w | w in ws :: Size(w) == 0 && Carries(w) == []
    ensures Metered(s, r)
  {
    ControlBytes(s.wire, ws);
  }

  lemma {:induction false} ControlBytes(wire: seq<Wire>, ws: seq<Wire>)
    requires forall w | w in ws :: Carries(w) == []
    ensures Shipped(wire + ws) == Shipped(wire)
    decreases |ws|
  {
    if ws == [] {
      assert wire + ws == wire;
    } else {
      assert wire + ws == (wire + [ws[0]]) + ws[1..];
      assert ws[0] in ws;
      ShippedAppend(wire, [ws[0]]);
      ShippedOne(ws[0]);
      assert Shipped(wire) + [] == Shipped(wire);
      ControlBytes(wire + [ws[0]], ws[1..]);
    }
  }
}
