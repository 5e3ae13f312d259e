/**
 Both halves of one direction of a channel, joined: a handler writing at one end, the packets and
 window adjustments in flight, a handler reading at the other, and either end closing first.  Either
 end may be client or server, and a server may swallow what it is sent.
 */
module EndToEnd {
  import opened Prelude
  import opened Channels
  import Egress
  import EgressRuns
  import EgressMeter
  import Ingress
  import Pipeline

  /**
   The first `delivered` packets and the first `adjusted` window adjustments have arrived; `heard`: so has
   the receiver's CLOSE.
   */
  datatype Conn = Conn(snd: Egress.Sender, rcv: Pipeline.Pipe, delivered: nat, adjusted: nat, heard: bool)

  datatype Step =
    | Sending(step: Egress.Step)
    | Deliver(swallowed: bool)
    | DeliverAdjust
    | DeliverClose(swallowed: bool)
    | ReceiverTick
    | ReceiverRead(n: nat)
    | ReceiverGone
    | ReceiverCloses(idle: bool)

  function Init(sender: Side, receiver: Side, window: u32, maxPacket: u32): Conn {
    Conn(Egress.Init(sender, window, maxPacket), Pipeline.Init(receiver, window, maxPacket), 0, 0, false)
  }

  /** What the receiving end makes of a packet; an exit status does not concern the stream. */
  function Arrive(rcv: Pipeline.Pipe, w: Egress.Wire, swallowed: bool): Pipeline.Pipe {
    match w
    case WData(b) => Pipeline.Next(rcv, if swallowed then Pipeline.SwallowData(b) else Pipeline.PeerData(b))
    case WStderr(b) =>
      Pipeline.Next(rcv, if swallowed then Pipeline.SwallowExtended(|b|) else Pipeline.PeerExtended(|b|))
    case WEof => Pipeline.Next(rcv, if swallowed then Pipeline.SwallowEof else Pipeline.PeerEof)
    case WClose => Pipeline.Next(rcv, if swallowed then Pipeline.SwallowClose else Pipeline.PeerClose)
    case WExit(_) => rcv
    case WSignal(_, _, _) => rcv
  }

  /** What the receiver's CLOSE is to the sender. */
  function CloseStep(swallowed: bool): Egress.Step {
    if swallowed then Egress.CloseSwallowed else Egress.PeerClose
  }

  /** Steps the sender takes of its own accord, or its handler does. */
  predicate Own(step: Egress.Step) {
    !step.Adjust? && !step.CloseSwallowed? && !step.PeerClose?
  }

  /** Only a server swallows. */
  predicate Possible(side: Side, swallowed: bool) {
    swallowed ==> side.Server?
  }

  function Next(c: Conn, step: Step): Conn {
    match step
    case Sending(s) => if Own(s) then c.(snd := Egress.Next(c.snd, s)) else c
    case Deliver(swallowed) =>
      if c.delivered >= |c.snd.wire| || !Possible(c.rcv.side, swallowed) then c
      else c.(rcv := Arrive(c.rcv, c.snd.wire[c.delivered], swallowed), delivered := c.delivered + 1)
    case DeliverAdjust =>
      if c.adjusted >= |c.rcv.grants| then c
      else
        c.(snd := Egress.Next(c.snd, Egress.Adjust(Min(c.rcv.grants[c.adjusted], U32_MAX))),
           adjusted := c.adjusted + 1)
    case DeliverClose(swallowed) =>
      if !c.rcv.chan.localClosed || c.adjusted < |c.rcv.grants| || c.heard || !Possible(c.snd.side, swallowed) then c
      else c.(snd := Egress.Next(c.snd, CloseStep(swallowed)), heard := true)
    case ReceiverTick => c.(rcv := Pipeline.Next(c.rcv, Pipeline.Tick))
    case ReceiverRead(n) => c.(rcv := Pipeline.Next(c.rcv, Pipeline.HandlerRead(n)))
    case ReceiverGone => c.(rcv := Pipeline.Next(c.rcv, Pipeline.HandlerGone))
    case ReceiverCloses(idle) =>
      c.(rcv := Pipeline.Next(c.rcv, if idle then Pipeline.IdleClose else Pipeline.LocalClose))
  }

  function Run(c: Conn, steps: seq<Step>): Conn
    decreases |steps|
  {
    if steps == [] then c else Next(Run(c, steps[..|steps| - 1]), steps[|steps| - 1])
  }

  /** The stdout bytes among tagged output. */
  function Stdout(ts: seq<Egress.Tagged>): seq<byte> {
    if ts == [] then [] else (if ts[0].0 then [] else [ts[0].1]) + Stdout(ts[1..])
  }

  lemma {:induction false} StdoutAppend(a: seq<Egress.Tagged>, b: seq<Egress.Tagged>)
    ensures Stdout(a + b) == Stdout(a) + Stdout(b)
  {
    if a == [] {
      assert a + b == b;
    } else {
      assert (a + b)[1..] == a[1..] + b;
      StdoutAppend(a[1..], b);
    }
  }

  lemma {:induction false} StdoutTag(extended: bool, bytes: seq<byte>)
    ensures Stdout(Egress.Tag(extended, bytes)) == if extended then [] else bytes
  {
    if bytes != [] { StdoutTag(extended, bytes[1..]); }
  }

  function InFlight(c: Conn): seq<Egress.Wire>
    requires c.delivered <= |c.snd.wire|
  {
    c.snd.wire[c.delivered..]
  }

  function Arrived(c: Conn): seq<Egress.Wire>
    requires c.delivered <= |c.snd.wire|
  {
    c.snd.wire[..c.delivered]
  }

  // --- The invariant -------------------------------------------------------------------------

  predicate Counters(c: Conn) {
    c.delivered <= |c.snd.wire| && c.adjusted <= |c.rcv.grants|
  }

  /** No byte of window is ever in two places, or in none. */
  ghost predicate WindowAgrees(c: Conn)
    requires Counters(c)
  {
    && c.snd.chan.remoteMaxPacket == c.rcv.chan.localMaxPacket
    && EgressMeter.WithinPacket(c.snd.wire, c.rcv.chan.localMaxPacket)
    && (!c.rcv.chan.remoteClosed ==> Spoken(c) <= c.rcv.chan.localWindow)
    && (!c.rcv.chan.remoteClosed && c.snd.up ==> Spoken(c) == c.rcv.chan.localWindow)
  }

  /** The part of the receiver's window the sender holds, has used up in flight, or is being granted. */
  function Spoken(c: Conn): nat
    requires Counters(c)
  {
    c.snd.chan.remoteWindow + |Egress.Shipped(InFlight(c))| + Sum(c.rcv.grants[c.adjusted..])
  }

  /** The receiver's view is what the packets delivered so far make it. */
  ghost predicate ViewAgrees(c: Conn)
    requires c.delivered <= |c.snd.wire|
  {
    && c.rcv.up
    && EgressRuns.PhaseOf(EgressRuns.Open, Arrived(c)) == Seen(c.rcv.chan)
    && (c.rcv.chan.remoteClosed ==> InFlight(c) == [] && c.snd.chan.localClosed)
    && c.rcv.offered == Stdout(Egress.Shipped(Arrived(c)))
  }

  /** How far the peer has got, by the receiver's own flags. */
  function Seen(chan: ChannelState): EgressRuns.Phase {
    if chan.remoteClosed then if chan.remoteEof then EgressRuns.Closed else EgressRuns.Cut
    else if chan.remoteEof then EgressRuns.AfterEof else EgressRuns.Open
  }

  /** The receiver's CLOSE is its last word. */
  ghost predicate ClosesAgree(c: Conn) {
    c.heard ==> c.rcv.chan.localClosed && c.adjusted == |c.rcv.grants|
  }

  ghost predicate Agree(c: Conn) {
    Counters(c) && WindowAgrees(c) && ViewAgrees(c) && ClosesAgree(c)
  }

  ghost predicate Inv(c: Conn) {
    EgressRuns.Inv(c.snd) && Pipeline.Inv(c.rcv) && Agree(c)
  }

  // --- The sender moves ----------------------------------------------------------------------

  lemma {:induction false} ShippedSplit(ws: seq<Egress.Wire>, k: nat)
    requires k <= |ws|
    ensures Egress.Shipped(ws) == Egress.Shipped(ws[..k]) + Egress.Shipped(ws[k..])
  {
    assert ws == ws[..k] + ws[k..];
    Egress.ShippedAppend(ws[..k], ws[k..]);
  }

  lemma {:induction false} SenderKeeps(c: Conn, step: Egress.Step)
    requires EgressRuns.Inv(c.snd) && Agree(c) && !step.Adjust?
    ensures Agree(c.(snd := Egress.Next(c.snd, step)))
  {
    EgressMeter.TickMetered(c.snd);
    EgressMeter.ClosesMetered(c.snd);
    if c.snd.chan.localClosed { EgressRuns.ClosedStays(c.snd, step); }
    SenderStep(c.snd, step);
    SenderAgrees(c, Egress.Next(c.snd, step));
  }

  lemma SenderStep(s: Egress.Sender, step: Egress.Step)
    requires !step.Adjust?
    requires EgressMeter.Metered(s, Egress.Tick(s))
    requires EgressMeter.Metered(s, Egress.OnPeerClose(s)) && EgressMeter.Metered(s, Egress.OnIdleClose(s))
    ensures EgressMeter.Metered(s, Egress.Next(s, step)) && (Egress.Next(s, step).up ==> s.up)
  {
  }

  lemma {:induction false} SenderAgrees(c: Conn, t: Egress.Sender)
    requires Agree(c)
    requires EgressMeter.Metered(c.snd, t) && (t.up ==> c.snd.up)
    requires c.snd.chan.localClosed ==> t.wire == c.snd.wire && t.chan.localClosed
    ensures Agree(c.(snd := t))
  {
    ShippedSplit(c.snd.wire, c.delivered);
    ShippedSplit(t.wire, c.delivered);
    assert t.wire[..c.delivered] == c.snd.wire[..c.delivered];
  }

  // --- The receiver moves --------------------------------------------------------------------

  /** From `s` to `t` the receiver took in `consumed` bytes and granted the difference it shows. */
  ghost predicate Granted(s: Pipeline.Pipe, t: Pipeline.Pipe, consumed: nat) {
    && t.up == s.up && s.grants <= t.grants
    && Sum(t.grants) + s.chan.localWindow == Sum(s.grants) + t.chan.localWindow + consumed
    && t.chan == s.chan.(localWindow := t.chan.localWindow, pendingReplenish := t.chan.pendingReplenish,
                         remoteEof := t.chan.remoteEof, localClosed := t.chan.localClosed)
    && (s.chan.localClosed ==> t.chan.localClosed && t.grants == s.grants)
  }

  lemma {:induction false} CreditGrants(s: Pipeline.Pipe, n: nat)
    requires s.chan.localWindow + s.chan.pendingReplenish + n <= U32_MAX
    ensures Granted(s, Pipeline.Credit(s, n), 0)
    ensures var t := Pipeline.Credit(s, n);
            t == s.(chan := t.chan, grants := t.grants) && t.chan.remoteEof == s.chan.remoteEof
  {
    ReplenishConserves(s.chan, n);
    var (_, adjust) := Replenish(s.chan, n);
    if adjust.Some? { SumAppend(s.grants, [adjust.value]); }
  }

  lemma {:induction false} TickGrants(s: Pipeline.Pipe)
    requires Pipeline.Inv(s) && s.up
    ensures Granted(s, Pipeline.OnTick(s), 0) && Pipeline.OnTick(s).offered == s.offered
    ensures Pipeline.OnTick(s).chan.remoteEof == s.chan.remoteEof
  {
    if s.runtime && s.backlog != [] && !s.chan.localClosed {
      var p := Ingress.Flush(s.side, s.backlog, s.stream.queue);
      Ingress.FlushHands(s.side, s.backlog, s.stream.queue);
      CreditGrants(Pipeline.Store(s, p, 0), p.moved);
    }
  }

  /** What packet `w`, other than the CLOSE, does to the receiver. */
  ghost predicate TakenIn(s: Pipeline.Pipe, t: Pipeline.Pipe, w: Egress.Wire) {
    && Granted(s, t, EgressMeter.Size(w))
    && t.offered == s.offered + (if w.WData? then w.bytes else [])
    && t.chan.remoteEof == (s.chan.remoteEof || w.WEof?)
  }

  lemma {:induction false} DataGrants(s: Pipeline.Pipe, data: seq<byte>)
    requires Pipeline.Inv(s) && s.up && s.tracked && OnData(s.chan, |data|).Ok?
    ensures TakenIn(s, Pipeline.OnPeerData(s, data), Egress.WData(data))
  {
    var s1 := s.(chan := OnData(s.chan, |data|).value, sent := s.sent + data, offered := s.offered + data);
    if s.runtime {
      var p := Ingress.Offer(s.side, s.backlog, s.stream.queue, Some(data));
      Ingress.OfferHands(s.side, s.backlog, s.stream.queue, Some(data));
      Ingress.PayloadAppend(s.backlog, [Some(data)]);
      assert Ingress.Payload([Some(data)]) == data;
      CreditGrants(Pipeline.Store(s1, p, |data|), p.moved);
    } else {
      CreditGrants(s1.(lost := s.lost + data), |data|);
    }
  }

  lemma {:induction false} ExtendedGrants(s: Pipeline.Pipe, b: seq<byte>)
    requires Pipeline.Inv(s) && s.up && s.tracked && OnData(s.chan, |b|).Ok?
    ensures TakenIn(s, Pipeline.Dispatch(s, Pipeline.PeerExtended(|b|)), Egress.WStderr(b))
  {
    CreditGrants(s.(chan := OnData(s.chan, |b|).value), |b|);
  }

  /** The EOF grants nothing, whatever it pushes on. */
  lemma {:induction false} EofGrants(s: Pipeline.Pipe)
    requires s.up && s.tracked
    ensures TakenIn(s, Pipeline.Dispatch(s, Pipeline.PeerEof), Egress.WEof)
  {
  }

  lemma {:induction false} SwallowGrants(s: Pipeline.Pipe, w: Egress.Wire)
    requires s.up && s.tracked && s.side.Server? && !w.WClose?
    requires w.WData? || w.WStderr? ==> OnData(s.chan, |w.bytes|).Ok?
    ensures TakenIn(s, Arrive(s, w, true), w)
  {
  }

  lemma {:induction false} ArriveGrants(s: Pipeline.Pipe, w: Egress.Wire, swallowed: bool)
    requires Pipeline.Inv(s) && s.up && s.tracked && Possible(s.side, swallowed) && !w.WClose?
    requires w.WData? || w.WStderr? ==> OnData(s.chan, |w.bytes|).Ok?
    ensures TakenIn(s, Arrive(s, w, swallowed), w)
  {
    if swallowed {
      SwallowGrants(s, w);
    } else {
      match w
      case WData(b) => DataGrants(s, b);
      case WStderr(b) => ExtendedGrants(s, b);
      case WEof => EofGrants(s);
      case _ =>
    }
  }

  lemma {:induction false} SumGrows(less: seq<nat>, more: seq<nat>, k: nat)
    requires less <= more && k <= |less|
    ensures Sum(more[k..]) - Sum(less[k..]) == Sum(more) - Sum(less)
  {
    assert less == less[..k] + less[k..] && more == more[..k] + more[k..];
    assert more[..k] == less[..k];
    SumAppend(less[..k], less[k..]);
    SumAppend(more[..k], more[k..]);
  }

  /** The receiver moved, perhaps taking in the next packet: the window still adds up. */
  lemma {:induction false} WindowMoves(c: Conn, t: Pipeline.Pipe, d: nat, consumed: nat)
    requires Counters(c) && WindowAgrees(c) && Granted(c.rcv, t, consumed)
    requires c.delivered <= d <= |c.snd.wire|
    requires |Egress.Shipped(c.snd.wire[c.delivered..])| == |Egress.Shipped(c.snd.wire[d..])| + consumed
    ensures Counters(c.(rcv := t, delivered := d)) && WindowAgrees(c.(rcv := t, delivered := d))
  {
    SumGrows(c.rcv.grants, t.grants, c.adjusted);
  }

  /** Splitting the wire around packet `k`. */
  lemma {:induction false} NextBytes(ws: seq<Egress.Wire>, k: nat)
    requires k < |ws|
    ensures Egress.Shipped(ws[..k + 1]) == Egress.Shipped(ws[..k]) + Egress.Carries(ws[k])
    ensures |Egress.Shipped(ws[k..])| == |Egress.Shipped(ws[k + 1..])| + |Egress.Carries(ws[k])|
    ensures Stdout(Egress.Shipped(ws[..k + 1])) == Stdout(Egress.Shipped(ws[..k])) + Stdout(Egress.Carries(ws[k]))
  {
    assert ws[..k + 1] == ws[..k] + [ws[k]];
    assert ws[k..] == [ws[k]] + ws[k + 1..];
    Egress.ShippedAppend(ws[..k], [ws[k]]);
    Egress.ShippedAppend([ws[k]], ws[k + 1..]);
    Egress.ShippedOne(ws[k]);
    StdoutAppend(Egress.Shipped(ws[..k]), Egress.Carries(ws[k]));
  }

  lemma {:induction false} NextPhase(ws: seq<Egress.Wire>, k: nat)
    requires k < |ws| && EgressRuns.PhaseOf(EgressRuns.Open, ws) != EgressRuns.Broken
    ensures var phase := EgressRuns.PhaseOf(EgressRuns.Open, ws[..k]);
            && EgressRuns.PhaseOf(EgressRuns.Open, ws[..k + 1]) == EgressRuns.Advance(phase, ws[k])
            && EgressRuns.Advance(phase, ws[k]) != EgressRuns.Broken
            && (ws[k].WClose? ==> ws[k + 1..] == [] && EgressRuns.PhaseOf(EgressRuns.Open, ws) ==
                                                       EgressRuns.PhaseOf(EgressRuns.Open, ws[..k + 1]))
  {
    assert ws[..k + 1] == ws[..k] + [ws[k]];
    assert ws == ws[..k + 1] + ws[k + 1..];
    EgressRuns.PhaseAppend(EgressRuns.Open, ws[..k], [ws[k]]);
    EgressRuns.PhaseAppend(EgressRuns.Open, ws[..k + 1], ws[k + 1..]);
    EgressRuns.GrammarMeans(EgressRuns.PhaseOf(EgressRuns.Open, ws[..k + 1]), ws[k + 1..]);
  }

  lemma {:induction false} CarriesSize(w: Egress.Wire)
    ensures |Egress.Carries(w)| == EgressMeter.Size(w)
    ensures Stdout(Egress.Carries(w)) == if w.WData? then w.bytes else []
  {
    if w.WData? || w.WStderr? {
      EgressMeter.TagLength(w.WStderr?, w.bytes);
      StdoutTag(w.WStderr?, w.bytes);
    }
  }

  /** A packet within a sender's bounds passes every check of the receiver. */
  lemma {:induction false} PacketAccepted(c: Conn)
    requires EgressRuns.Flags(c.snd) && Pipeline.Ends(c.rcv) && Agree(c) && c.delivered < |c.snd.wire|
    ensures var w := c.snd.wire[c.delivered];
            && !c.rcv.chan.remoteClosed && c.rcv.tracked
            && (w.WData? || w.WStderr? ==> OnData(c.rcv.chan, |w.bytes|).Ok?)
  {
    StillOpen(c);
    FitsWindow(c);
  }

  lemma {:induction false} StillOpen(c: Conn)
    requires Counters(c) && ViewAgrees(c) && c.delivered < |c.snd.wire|
    requires EgressRuns.PhaseOf(EgressRuns.Open, c.snd.wire) != EgressRuns.Broken
    ensures !c.rcv.chan.remoteClosed
    ensures c.snd.wire[c.delivered].WData? || c.snd.wire[c.delivered].WStderr? ==> !c.rcv.chan.remoteEof
  {
    NextPhase(c.snd.wire, c.delivered);
  }

  lemma {:induction false} FitsWindow(c: Conn)
    requires Counters(c) && WindowAgrees(c) && c.delivered < |c.snd.wire| && !c.rcv.chan.remoteClosed
    ensures EgressMeter.Size(c.snd.wire[c.delivered]) <= c.rcv.chan.localWindow
    ensures EgressMeter.Size(c.snd.wire[c.delivered]) <= c.rcv.chan.localMaxPacket
  {
    NextBytes(c.snd.wire, c.delivered);
    CarriesSize(c.snd.wire[c.delivered]);
  }

  /** The receiver's view after the next packet, if that was not the CLOSE. */
  lemma {:induction false} ViewMoves(c: Conn, t: Pipeline.Pipe)
    requires Counters(c) && ViewAgrees(c) && c.delivered < |c.snd.wire| && !c.rcv.chan.remoteClosed
    requires EgressRuns.PhaseOf(EgressRuns.Open, c.snd.wire) != EgressRuns.Broken
    requires !c.snd.wire[c.delivered].WClose? && TakenIn(c.rcv, t, c.snd.wire[c.delivered])
    ensures ViewAgrees(c.(rcv := t, delivered := c.delivered + 1))
  {
    NextPhase(c.snd.wire, c.delivered);
    NextBytes(c.snd.wire, c.delivered);
    CarriesSize(c.snd.wire[c.delivered]);
  }

  /** Every agreement survives a packet other than the CLOSE. */
  lemma {:induction false} PacketTaken(c: Conn, t: Pipeline.Pipe)
    requires EgressRuns.Flags(c.snd) && Agree(c) && c.delivered < |c.snd.wire| && !c.rcv.chan.remoteClosed
    requires !c.snd.wire[c.delivered].WClose? && TakenIn(c.rcv, t, c.snd.wire[c.delivered])
    ensures Agree(c.(rcv := t, delivered := c.delivered + 1))
  {
    NextBytes(c.snd.wire, c.delivered);
    CarriesSize(c.snd.wire[c.delivered]);
    ViewMoves(c, t);
    WindowMoves(c, t, c.delivered + 1, EgressMeter.Size(c.snd.wire[c.delivered]));
  }

  /** What the receiver looks like once the CLOSE is in. */
  ghost predicate ClosedBy(s: Pipeline.Pipe, t: Pipeline.Pipe) {
    && t.up && t.chan.remoteClosed && t.offered == s.offered && t.grants == s.grants
    && t.chan.localMaxPacket == s.chan.localMaxPacket && t.chan.remoteEof == s.chan.remoteEof
    && (s.chan.localClosed ==> t.chan.localClosed)
  }

  lemma CloseEffect(s: Pipeline.Pipe, swallowed: bool)
    requires s.up && s.tracked && !s.chan.remoteClosed && Possible(s.side, swallowed)
    ensures ClosedBy(s, Arrive(s, Egress.WClose, swallowed))
  {
  }

  lemma {:induction false} CloseWindow(c: Conn, t: Pipeline.Pipe, d: nat)
    requires Counters(c) && WindowAgrees(c) && d <= |c.snd.wire| && ClosedBy(c.rcv, t)
    ensures var c' := c.(rcv := t, delivered := d); Counters(c') && WindowAgrees(c')
  {
  }

  lemma {:induction false} CloseBytes(ws: seq<Egress.Wire>, k: nat)
    requires k < |ws| && ws[k].WClose?
    ensures Stdout(Egress.Shipped(ws[..k + 1])) == Stdout(Egress.Shipped(ws[..k]))
  {
    NextBytes(ws, k);
    CarriesSize(ws[k]);
  }

  lemma {:induction false} CloseView(c: Conn, t: Pipeline.Pipe)
    requires Counters(c) && ViewAgrees(c) && c.delivered < |c.snd.wire| && c.snd.wire[c.delivered].WClose?
    requires ClosedBy(c.rcv, t) && !c.rcv.chan.remoteClosed
    requires EgressRuns.PhaseOf(EgressRuns.Open, c.snd.wire) == EgressRuns.Stage(c.snd.chan)
    ensures ViewAgrees(c.(rcv := t, delivered := c.delivered + 1))
  {
    NextPhase(c.snd.wire, c.delivered);
    CloseBytes(c.snd.wire, c.delivered);
  }

  lemma {:induction false} PacketAgrees(c: Conn, swallowed: bool)
    requires Inv(c) && c.delivered < |c.snd.wire| && Possible(c.rcv.side, swallowed)
    ensures Agree(c.(rcv := Arrive(c.rcv, c.snd.wire[c.delivered], swallowed), delivered := c.delivered + 1))
  {
    var w := c.snd.wire[c.delivered];
    PacketAccepted(c);
    var t := Arrive(c.rcv, w, swallowed);
    if w.WClose? {
      CloseEffect(c.rcv, swallowed);
      CloseView(c, t);
      CloseWindow(c, t, c.delivered + 1);
    } else {
      ArriveGrants(c.rcv, w, swallowed);
      PacketTaken(c, t);
    }
  }

  lemma {:induction false} AdjustAgrees(c: Conn)
    requires Agree(c) && c.adjusted < |c.rcv.grants|
    ensures Agree(Next(c, DeliverAdjust))
  {
    var n := c.rcv.grants[c.adjusted];
    assert c.rcv.grants[c.adjusted..] == [n] + c.rcv.grants[c.adjusted + 1..];
    SumAppend([n], c.rcv.grants[c.adjusted + 1..]);
    assert Sum([n]) == n;
  }

  /** The receiver did something that is neither sent nor received. */
  lemma {:induction false} QuietAgrees(c: Conn, t: Pipeline.Pipe)
    requires Agree(c)
    requires Granted(c.rcv, t, 0) && t.offered == c.rcv.offered && t.chan.remoteEof == c.rcv.chan.remoteEof
    ensures Agree(c.(rcv := t))
  {
    WindowMoves(c, t, c.delivered, 0);
  }

  lemma {:induction false} QuietGrants(s: Pipeline.Pipe, step: Pipeline.Step)
    requires step.HandlerRead? || step.HandlerGone? || step.IdleClose? || step.LocalClose?
    ensures var t := Pipeline.Next(s, step);
            Granted(s, t, 0) && t.offered == s.offered && t.chan.remoteEof == s.chan.remoteEof
  {
  }

  lemma {:induction false} QuietStep(c: Conn, step: Pipeline.Step)
    requires Agree(c) && (step.HandlerRead? || step.HandlerGone? || step.IdleClose? || step.LocalClose?)
    ensures Agree(c.(rcv := Pipeline.Next(c.rcv, step)))
  {
    QuietGrants(c.rcv, step);
    QuietAgrees(c, Pipeline.Next(c.rcv, step));
  }

  lemma {:induction false} TickAgrees(c: Conn)
    requires Pipeline.Inv(c.rcv) && Agree(c)
    ensures Agree(Next(c, ReceiverTick))
  {
    TickGrants(c.rcv);
    QuietAgrees(c, Pipeline.OnTick(c.rcv));
  }

  lemma {:induction false} CloseHeard(c: Conn, swallowed: bool)
    requires EgressRuns.Inv(c.snd) && Agree(c) && c.rcv.chan.localClosed && c.adjusted == |c.rcv.grants|
    ensures Agree(c.(snd := Egress.Next(c.snd, CloseStep(swallowed)), heard := true))
  {
    SenderKeeps(c, CloseStep(swallowed));
  }

  lemma {:induction false} DeliveryAgrees(c: Conn, step: Step)
    requires Inv(c) && (step.Deliver? || step.DeliverAdjust? || step.DeliverClose?)
    ensures Agree(Next(c, step))
  {
    match step
    case Deliver(swallowed) =>
      if c.delivered < |c.snd.wire| && Possible(c.rcv.side, swallowed) { PacketAgrees(c, swallowed); }
    case DeliverAdjust => if c.adjusted < |c.rcv.grants| { AdjustAgrees(c); }
    case DeliverClose(swallowed) =>
      if c.rcv.chan.localClosed && c.adjusted == |c.rcv.grants| { CloseHeard(c, swallowed); }
  }

  lemma {:induction false} StepAgrees(c: Conn, step: Step)
    requires Inv(c)
    ensures Agree(Next(c, step))
  {
    match step
    case Sending(s) => if Own(s) { SenderKeeps(c, s); }
    case ReceiverTick => TickAgrees(c);
    case ReceiverRead(n) => QuietStep(c, Pipeline.HandlerRead(n));
    case ReceiverGone => QuietStep(c, Pipeline.HandlerGone);
    case ReceiverCloses(idle) => QuietStep(c, if idle then Pipeline.IdleClose else Pipeline.LocalClose);
    case _ => DeliveryAgrees(c, step);
  }

  /** Each end keeps its own invariant whatever reaches it. */
  lemma {:induction false} EndsKeep(c: Conn, step: Step)
    requires EgressRuns.Inv(c.snd) && Pipeline.Inv(c.rcv)
    ensures EgressRuns.Inv(Next(c, step).snd) && Pipeline.Inv(Next(c, step).rcv)
  {
    match step
    case Sending(s) => EgressRuns.NextKeeps(c.snd, s);
    case Deliver(swallowed) =>
      if c.delivered < |c.snd.wire| { ArriveKeeps(c.rcv, c.snd.wire[c.delivered], swallowed); }
    case DeliverAdjust =>
      if c.adjusted < |c.rcv.grants| {
        EgressRuns.NextKeeps(c.snd, Egress.Adjust(Min(c.rcv.grants[c.adjusted], U32_MAX)));
      }
    case DeliverClose(swallowed) => EgressRuns.NextKeeps(c.snd, CloseStep(swallowed));
    case ReceiverTick => Pipeline.NextKeeps(c.rcv, Pipeline.Tick);
    case ReceiverRead(n) => Pipeline.NextKeeps(c.rcv, Pipeline.HandlerRead(n));
    case ReceiverGone => Pipeline.NextKeeps(c.rcv, Pipeline.HandlerGone);
    case ReceiverCloses(idle) => Pipeline.NextKeeps(c.rcv, if idle then Pipeline.IdleClose else Pipeline.LocalClose);
  }

  lemma {:induction false} ArriveKeeps(rcv: Pipeline.Pipe, w: Egress.Wire, swallowed: bool)
    requires Pipeline.Inv(rcv)
    ensures Pipeline.Inv(Arrive(rcv, w, swallowed))
  {
    match w
    case WData(b) => Pipeline.NextKeeps(rcv, if swallowed then Pipeline.SwallowData(b) else Pipeline.PeerData(b));
    case WStderr(b) =>
      Pipeline.NextKeeps(rcv, if swallowed then Pipeline.SwallowExtended(|b|) else Pipeline.PeerExtended(|b|));
    case WEof => Pipeline.NextKeeps(rcv, if swallowed then Pipeline.SwallowEof else Pipeline.PeerEof);
    case WClose => Pipeline.NextKeeps(rcv, if swallowed then Pipeline.SwallowClose else Pipeline.PeerClose);
    case _ =>
  }

  /** No step of either end, and no delivery, breaks the agreement. */
  lemma {:induction false} NextKeeps(c: Conn, step: Step)
    requires Inv(c)
    ensures Inv(Next(c, step))
  {
    EndsKeep(c, step);
    StepAgrees(c, step);
  }

  lemma {:induction false} RunKeeps(c: Conn, steps: seq<Step>)
    requires Inv(c)
    ensures Inv(Run(c, steps))
    decreases |steps|
  {
    if steps != [] {
      RunKeeps(c, steps[..|steps| - 1]);
      NextKeeps(Run(c, steps[..|steps| - 1]), steps[|steps| - 1]);
    }
  }

  ghost predicate Reachable(c: Conn) {
    exists sender, receiver, window: u32, maxPacket: u32, steps ::
      c == Run(Init(sender, receiver, window, maxPacket), steps)
  }

  lemma ReachableInv(c: Conn)
    requires Reachable(c)
    ensures Inv(c)
  {
    var sender, receiver, window: u32, maxPacket: u32, steps :|
      c == Run(Init(sender, receiver, window, maxPacket), steps);
    InitInv(sender, receiver, window, maxPacket);
    RunKeeps(Init(sender, receiver, window, maxPacket), steps);
  }

  lemma InitInv(sender: Side, receiver: Side, window: u32, maxPacket: u32)
    ensures Inv(Init(sender, receiver, window, maxPacket))
  {
    var c := Init(sender, receiver, window, maxPacket);
    assert Pipeline.Inv(c.rcv);
    assert EgressRuns.Inv(c.snd);
    assert InFlight(c) == [] && Arrived(c) == [];
  }

  // --- Theorems ------------------------------------------------------------------------------

  /**
   Two ends of this library never trip each other's protocol checks, at any window or packet size,
   whichever of them closes first and why, and whatever is swallowed: every packet finds its channel known
   and every check passed, and no adjustment follows a CLOSE.
   */
  lemma NoViolation(c: Conn)
    requires Reachable(c)
    ensures c.rcv.up
    ensures c.delivered < |c.snd.wire| ==> c.rcv.tracked && !c.rcv.chan.remoteClosed
    ensures c.delivered < |c.snd.wire| && (c.snd.wire[c.delivered].WData? || c.snd.wire[c.delivered].WStderr?) ==>
              OnData(c.rcv.chan, |c.snd.wire[c.delivered].bytes|).Ok?
    ensures c.heard ==> c.rcv.chan.localClosed && c.adjusted == |c.rcv.grants|
  {
    ReachableInv(c);
    if c.delivered < |c.snd.wire| { PacketAccepted(c); }
  }

  /**
   Once both ends have closed and everything the sender sent has arrived, the receiver has forgotten the
   channel; and a sender whose runtime was dropped has closed.
   */
  lemma CloseCompletes(c: Conn)
    requires Reachable(c)
    ensures c.rcv.chan.localClosed && c.snd.chan.localClosed && c.delivered == |c.snd.wire| ==>
              c.rcv.chan.remoteClosed && !c.rcv.tracked
    ensures !c.snd.fate.Held? ==> c.snd.chan.localClosed
  {
    ReachableInv(c);
    assert c.delivered == |c.snd.wire| ==> Arrived(c) == c.snd.wire;
  }

  /** What the writer's messages amount to on stdout. */
  function Written(c: Conn): seq<byte> {
    Stdout(EgressRuns.Outputs(c.snd.side, c.snd.pulled))
  }

  /**
   Taken in by the receiver, in flight, parked at the sender: in that order these are exactly the bytes
   pulled from the writer.
   */
  lemma OfferedEndToEnd(c: Conn)
    requires Inv(c) && c.snd.up
    ensures c.rcv.offered + Stdout(Egress.Shipped(InFlight(c))) + c.snd.out.pendingData == Written(c)
  {
    ShippedSplit(c.snd.wire, c.delivered);
    StdoutAppend(Egress.Shipped(Arrived(c)), Egress.Shipped(InFlight(c)));
    StdoutAppend(Egress.Shipped(c.snd.wire), EgressRuns.Waiting(c.snd.out));
    var o := c.snd.out;
    StdoutAppend(Egress.Tag(false, o.pendingData), Egress.Tag(true, o.pendingStderr));
    StdoutTag(false, o.pendingData);
    StdoutTag(true, o.pendingStderr);
    assert o.pendingData + [] == o.pendingData;
  }

  /**
   Read, held by the receiver, lost to a CLOSE, in flight, parked at the sender (or dropped there with its
   runtime): in that order these
   are exactly the bytes pulled from the writer, if and only if the receiver swallowed none; and as
   many are missing as were swallowed.
   */
  lemma BytesEndToEnd(c: Conn)
    requires Reachable(c) && c.snd.up && c.rcv.stream.queue.receiver && c.delivered <= |c.snd.wire|
    ensures var all := c.rcv.read + Pipeline.InTransit(c.rcv) + c.rcv.lost
                       + Stdout(Egress.Shipped(InFlight(c))) + c.snd.out.pendingData;
            && |all| + c.rcv.swallowed == |Written(c)|
            && (all == Written(c) <==> c.rcv.swallowed == 0)
  {
    ReachableInv(c);
    OfferedEndToEnd(c);
    assert c.rcv.read + Pipeline.InTransit(c.rcv) + c.rcv.lost == c.rcv.sent;
  }

  /**
   A reader that sees end of file on a live channel has every byte the writer had pulled, exactly if none was
   swallowed and none was parked when the server closed the channel idle.
   */
  lemma EofMeansAll(c: Conn)
    requires Reachable(c) && c.snd.up && c.rcv.stream.queue.receiver
    requires c.rcv.stream.rxEof && c.rcv.runtime
    ensures |c.rcv.read| + c.rcv.swallowed + |c.snd.out.pendingData| == |Written(c)|
    ensures c.rcv.read == Written(c) <==> c.rcv.swallowed == 0 && c.snd.out.pendingData == []
    ensures c.snd.out.pendingData != [] ==> c.snd.fate.Idled?
  {
    ReachableInv(c);
    OfferedEndToEnd(c);
    EofMeansSent(c);
    assert c.rcv.read + [] + [] == c.rcv.read;
    assert c.rcv.offered + [] == c.rcv.offered;
    if c.snd.out.pendingData == [] { assert c.rcv.offered + [] + [] == c.rcv.offered; }
  }

  lemma {:induction false} EofMeansSent(c: Conn)
    requires c.delivered <= |c.snd.wire| && ViewAgrees(c) && EgressRuns.Flags(c.snd) && c.rcv.chan.remoteEof
    ensures Egress.Shipped(InFlight(c)) == [] && c.snd.chan.localEof
  {
    assert c.snd.wire == Arrived(c) + InFlight(c);
    EgressRuns.PhaseAppend(EgressRuns.Open, Arrived(c), InFlight(c));
    EgressRuns.GrammarMeans(EgressRuns.PhaseOf(EgressRuns.Open, Arrived(c)), InFlight(c));
    NoPayload(InFlight(c));
    if !c.rcv.chan.remoteClosed { EgressRuns.AfterEofMeans(InFlight(c)); }
  }

  lemma {:induction false} NoPayload(ws: seq<Egress.Wire>)
    requires forall w | w in ws :: !w.WData? && !w.WStderr?
    ensures Egress.Shipped(ws) == []
  {
    if ws != [] {
      assert ws[0] in ws;
      NoPayload(ws[1..]);
    }
  }
}
