/** What every run of the sending half puts on the wire. */
module EgressRuns {
  import opened Prelude
  import opened Channels
  import opened Egress

  // --- The grammar of a channel's packets ----------------------------------------------------

  datatype Phase = Open | AfterEof | Closed | Cut | Broken

  function Advance(p: Phase, w: Wire): Phase {
    match p
    case Open => if w.WEof? then AfterEof else if w.WClose? then Cut else Open
    case AfterEof => if w.WExit? then AfterEof else if w.WClose? then Closed else Broken
    case _ => Broken
  }

  /**
   Output and exit statuses; one EOF; then exit statuses at most; one CLOSE, and nothing after it.  `Cut`: the
   CLOSE came without an EOF.
   */
  function PhaseOf(p: Phase, ws: seq<Wire>): Phase
    decreases |ws|
  {
    if ws == [] then p else PhaseOf(Advance(p, ws[0]), ws[1..])
  }

  lemma {:induction false} PhaseAppend(p: Phase, a: seq<Wire>, b: seq<Wire>)
    ensures PhaseOf(p, a + b) == PhaseOf(PhaseOf(p, a), b)
    decreases |a|
  {
    if a == [] {
      assert a + b == b;
    } else {
      assert (a + b)[1..] == a[1..] + b;
      PhaseAppend(Advance(p, a[0]), a[1..], b);
    }
  }

  lemma {:induction false} PhasePayload(ws: seq<Wire>)
    requires AllPayload(ws)
    ensures PhaseOf(Open, ws) == Open && WireExit(ws) == None
  {
    if ws != [] {
      assert ws[0] in ws;
      PhasePayload(ws[1..]);
    }
  }

  /** The exit status the peer ends up with. */
  function WireExit(ws: seq<Wire>): Option<u32> {
    if ws == [] then None
    else
      var later := WireExit(ws[1..]);
      if later.None? && ws[0].WExit? then Some(ws[0].code) else later
  }

  lemma {:induction false} WireExitAppend(a: seq<Wire>, b: seq<Wire>)
    ensures WireExit(a + b) == if WireExit(b).Some? then WireExit(b) else WireExit(a)
  {
    if a == [] {
      assert a + b == b;
    } else {
      assert (a + b)[1..] == a[1..] + b;
      WireExitAppend(a[1..], b);
    }
  }

  // --- What the handler asked for ------------------------------------------------------------

  function Output(side: Side, p: Pulled): seq<Tagged> {
    match p.m
    case Data(b) => Tag(false, b)
    case Stderr(b) => if side.Client? then [] else Tag(true, b)
    case Datagram(b) => if p.fits then Tag(false, b) else []
    case _ => []
  }

  function Outputs(side: Side, ps: seq<Pulled>): seq<Tagged> {
    if ps == [] then [] else Output(side, ps[0]) + Outputs(side, ps[1..])
  }

  lemma {:induction false} OutputsSnoc(side: Side, ps: seq<Pulled>, p: Pulled)
    ensures Outputs(side, ps + [p]) == Outputs(side, ps) + Output(side, p)
  {
    if ps == [] {
      assert ps + [p] == [p];
    } else {
      assert (ps + [p])[1..] == ps[1..] + [p];
      OutputsSnoc(side, ps[1..], p);
    }
  }

  function LastExit(side: Side, ps: seq<Pulled>): Option<u32> {
    if ps == [] then None
    else
      var later := LastExit(side, ps[1..]);
      if later.None? && side.Server? && ps[0].m.ExitStatus? then Some(ps[0].m.code) else later
  }

  lemma {:induction false} LastExitSnoc(side: Side, ps: seq<Pulled>, p: Pulled)
    ensures LastExit(side, ps + [p]) ==
            if side.Server? && p.m.ExitStatus? then Some(p.m.code) else LastExit(side, ps)
  {
    if ps == [] {
      assert ps + [p] == [p];
    } else {
      assert (ps + [p])[1..] == ps[1..] + [p];
      LastExitSnoc(side, ps[1..], p);
    }
  }

  // --- The invariant -------------------------------------------------------------------------

  function Waiting(o: Out): seq<Tagged> {
    Tag(false, o.pendingData) + Tag(true, o.pendingStderr)
  }

  /** What has left, by the connection layer's own flags. */
  function Stage(chan: ChannelState): Phase {
    if chan.localClosed then if chan.localEof then Closed else Cut
    else if chan.localEof then AfterEof else Open
  }

  ghost predicate Flags(s: Sender) {
    && (s.fate.Held? ==> s.chan.localEof == s.out.eofSent && s.chan.localClosed == s.out.closeSent)
    && (!s.fate.Held? ==> s.chan.localClosed && (s.out.eofSent ==> s.chan.localEof))
    && (s.fate.Held? && s.chan.remoteClosed ==> s.side.Server?)
    && (s.out.closeSent ==> s.out.eofSent && s.out.pendingExit.None?)
    && (s.out.pendingData == [] || s.out.pendingStderr == [])
    && (s.out.eofSent ==> !Blocked(s.out))
    && (s.fate == Answered(true) <==> s.chan.localClosed && !s.chan.localEof)
    && (s.fate.Answered? ==> s.chan.remoteClosed) && (s.fate.Idled? ==> s.side.Server?)
    && (Blocked(s.out) && s.chan.localEof ==> s.fate.Idled?)
    && PhaseOf(Open, s.wire) == Stage(s.chan)
  }

  ghost predicate Faithful(s: Sender) {
    && (s.up ==> Shipped(s.wire) + Waiting(s.out) == Outputs(s.side, s.pulled))
    && Shipped(s.wire) <= Outputs(s.side, s.pulled)
    && LastExit(s.side, s.pulled) == if s.out.pendingExit.Some? then s.out.pendingExit else WireExit(s.wire)
  }

  ghost predicate Inv(s: Sender) {
    Flags(s) && Faithful(s)
  }

  lemma WaitingNone(o: Out)
    requires !Blocked(o)
    ensures Waiting(o) == []
  {
  }

  /** Emitting with nothing parked: the bytes are on the wire or parked, in place. */
  lemma {:induction false} EmitIntoAdds(s: Sender, extended: bool, bytes: seq<byte>)
    requires Flags(s) && !Blocked(s.out) && s.up
    ensures var r := EmitInto(s, extended, bytes);
            && Flags(r)
            && (!r.up ==> r == s.(up := false))
            && (r.up ==> Shipped(r.wire) + Waiting(r.out) == Shipped(s.wire) + Tag(extended, bytes))
            && r.pulled == s.pulled && r.queue == s.queue && r.side == s.side
            && WireExit(r.wire) == WireExit(s.wire) && r.out.pendingExit == s.out.pendingExit
            && (r.up <==> bytes == [] || CanSendData(s.chan))
            && r.chan == s.chan.(remoteWindow := r.chan.remoteWindow)
  {
    EmitChannel(s.chan, extended, bytes);
    var e := Emit(s.chan, extended, bytes);
    if e.Ok? {
      EmitSplits(s.chan, extended, bytes);
      PhasePayload(e.value.msgs);
      PhaseAppend(Open, s.wire, e.value.msgs);
      WireExitAppend(s.wire, e.value.msgs);
      ShippedAppend(s.wire, e.value.msgs);
      Assoc(Shipped(s.wire), Shipped(e.value.msgs), Tag(extended, e.value.rest));
      assert [] + e.value.rest == e.value.rest;
      assert Waiting(EmitInto(s, extended, bytes).out) == Tag(extended, e.value.rest);
    }
  }

  lemma {:induction false} RetryKeeps(s: Sender)
    requires Inv(s) && s.up && s.fate.Held?
    ensures Retry(s).fate.Held?
    ensures Inv(Retry(s)) && Retry(s).side == s.side
    ensures Retry(s).chan == s.chan.(remoteWindow := Retry(s).chan.remoteWindow)
    ensures Retry(s).up <==> !Blocked(s.out) || CanSendData(s.chan)
    ensures Retry(s).pulled == s.pulled && Retry(s).queue == s.queue && WireExit(Retry(s).wire) == WireExit(s.wire)
  {
    var o := s.out;
    if o.pendingData != [] {
      EmitIntoAdds(s.(out := o.(pendingData := [])), false, o.pendingData);
      Moved(Shipped(s.wire), Tag(false, o.pendingData), []);
    } else if o.pendingStderr != [] {
      EmitIntoAdds(s.(out := o.(pendingStderr := [])), true, o.pendingStderr);
      Moved(Shipped(s.wire), [], Tag(true, o.pendingStderr));
    }
  }

  lemma Moved(a: seq<Tagged>, b: seq<Tagged>, c: seq<Tagged>)
    requires b == [] || c == []
    ensures a + (b + c) == if b == [] then a + c else a + b
  {
    assert b == [] ==> b + c == c;
    assert c == [] ==> b + c == b;
  }

  /** Ready to pull: nothing parked, not closed. */
  ghost predicate Ready(s: Sender) {
    Inv(s) && s.up && s.fate.Held? && !Blocked(s.out) && !s.out.closeSent
  }

  /** What pulling `p` changes in the two histories `Faithful` compares. */
  lemma {:induction false} PulledOne(s: Sender, p: Pulled)
    requires Ready(s)
    ensures Shipped(s.wire) == Outputs(s.side, s.pulled)
    ensures Outputs(s.side, s.pulled + [p]) == Shipped(s.wire) + Output(s.side, p)
    ensures LastExit(s.side, s.pulled + [p]) ==
            if s.side.Server? && p.m.ExitStatus? then Some(p.m.code) else LastExit(s.side, s.pulled)
  {
    OutputsSnoc(s.side, s.pulled, p);
    LastExitSnoc(s.side, s.pulled, p);
    WaitingNone(s.out);
    assert Shipped(s.wire) + [] == Shipped(s.wire);
  }

  lemma {:induction false} HandleOutput(s: Sender, extended: bool, b: seq<byte>)
    requires Ready(s) && s.queue != [] && !s.queue[0].ExitStatus?
    requires Output(s.side, Pulled(s.queue[0], true)) == Tag(extended, b)
    ensures var r := EmitInto(Take(s, true), extended, b);
            && Inv(r) && (!r.up <==> !CanSendData(s.chan) && b != [])
            && r.chan == s.chan.(remoteWindow := r.chan.remoteWindow) && r.out.pendingExit == s.out.pendingExit
            && r.out.eofSent == s.out.eofSent && r.out.closeSent == s.out.closeSent
            && r.side == s.side && r.queue == s.queue[1..] && WireExit(r.wire) == WireExit(s.wire)
  {
    PulledOne(s, Pulled(s.queue[0], true));
    EmitIntoAdds(Take(s, true), extended, b);
  }

  lemma {:induction false} HandleDatagram(s: Sender)
    requires Ready(s) && s.queue != [] && s.queue[0].Datagram?
    ensures Inv(Handle(s)) && (!Handle(s).up <==> !CanSendData(s.chan)) && WireExit(Handle(s).wire) == WireExit(s.wire)
  {
    var b := s.queue[0].bytes;
    var p := Pulled(s.queue[0], !CanSendData(s.chan) || |b| <= Capacity(s.chan, false));
    PulledOne(s, p);
    ShippedAppend(s.wire, [WData(b)]);
    ShippedOne(WData(b));
    PhaseAppend(Open, s.wire, [WData(b)]);
    WireExitAppend(s.wire, [WData(b)]);
    assert Handle(s).pulled == s.pulled + [p];
    WaitingNone(s.out);
    assert forall x: seq<Tagged> :: x + [] == x;
  }

  lemma {:induction false} HandleKeeps(s: Sender)
    requires Ready(s) && s.queue != []
    ensures Inv(Handle(s)) && WireExit(Handle(s).wire) == WireExit(s.wire)
    ensures !Handle(s).up <==> !CanSendData(s.chan) && Refused(s.side, s.queue[0])
  {
    match s.queue[0]
    case Data(b) => HandleOutput(s, false, b);
    case Stderr(b) => if s.side.Server? { HandleOutput(s, true, b); } else { HandleControl(s); }
    case Datagram(b) => HandleDatagram(s);
    case _ => HandleControl(s);
  }

  /** What handling output leaves alone. */
  ghost predicate Framed(s: Sender, r: Sender) {
    && r.side == s.side && r.fate == s.fate && r.chan == s.chan.(remoteWindow := r.chan.remoteWindow)
    && r.out.eofSent == s.out.eofSent && r.out.closeSent == s.out.closeSent
  }

  lemma {:induction false} EmitIntoFrame(s: Sender, extended: bool, bytes: seq<byte>)
    ensures var r := EmitInto(s, extended, bytes);
            Framed(s, r) && r.queue == s.queue && r.out.pendingExit == s.out.pendingExit
  {
    EmitChannel(s.chan, extended, bytes);
  }

  lemma {:induction false} HandleFrame(s: Sender)
    requires s.queue != []
    ensures Framed(s, Handle(s)) && Handle(s).queue == s.queue[1..]
    ensures Handle(s).out.pendingExit.Some? <==> s.out.pendingExit.Some? || (s.side.Server? && s.queue[0].ExitStatus?)
  {
    var t := Take(s, true);
    assert Framed(s, t) && t.queue == s.queue[1..];
    match s.queue[0]
    case Data(b) => EmitIntoFrame(t, false, b);
    case Stderr(b) => EmitIntoFrame(t, true, b);
    case _ =>
  }

  lemma {:induction false} HandleControl(s: Sender)
    requires Ready(s) && s.queue != []
    requires Output(s.side, Pulled(s.queue[0], true)) == []
    requires !s.queue[0].Data? && !s.queue[0].Datagram? && (s.queue[0].Stderr? ==> s.side.Client?)
    ensures Inv(Handle(s)) && Handle(s).up
  {
    ControlPulled(s, Handle(s), Pulled(s.queue[0], true));
  }

  /** A message without output sets at most what is still to be announced. */
  lemma {:induction false} ControlPulled(s: Sender, t: Sender, p: Pulled)
    requires Ready(s) && Output(s.side, p) == []
    requires t == s.(queue := t.queue, pulled := s.pulled + [p], out := t.out)
    requires t.out == s.out.(pendingExit := t.out.pendingExit, pendingEof := t.out.pendingEof,
                             pendingClose := t.out.pendingClose)
    requires t.out.pendingExit == if s.side.Server? && p.m.ExitStatus? then Some(p.m.code) else s.out.pendingExit
    ensures Inv(t)
  {
    PulledOne(s, p);
    WaitingNone(t.out);
    assert Shipped(s.wire) + [] == Shipped(s.wire);
  }

  /** Output a channel refuses once our EOF is out or the peer has closed. */
  predicate Refused(side: Side, m: Message) {
    || (m.Data? && m.bytes != [])
    || (m.Stderr? && m.bytes != [] && side.Server?)
    || m.Datagram?
  }

  /** Refused output is reached before the next marker in the queue. */
  predicate RefusedAhead(side: Side, queue: seq<Message>) {
    && queue != [] && !queue[0].Eof? && !queue[0].Close?
    && (Refused(side, queue[0]) || RefusedAhead(side, queue[1..]))
  }

  lemma {:induction false} PullKeeps(s: Sender)
    requires Ready(s)
    ensures Inv(Pull(s)) && Pull(s).side == s.side && Pull(s).fate.Held? && WireExit(Pull(s).wire) == WireExit(s.wire)
    ensures !Pull(s).up <==> !CanSendData(s.chan) && RefusedAhead(s.side, s.queue)
    ensures Pull(s).out.eofSent == s.out.eofSent && Pull(s).out.closeSent == s.out.closeSent
    ensures Pull(s).chan == s.chan.(remoteWindow := Pull(s).chan.remoteWindow)
    decreases |s.queue|
  {
    if s.queue != [] {
      HandleKeeps(s);
      HandleFrame(s);
      var h := Handle(s);
      if !s.queue[0].Eof? && !s.queue[0].Close? && h.up && !Blocked(h.out) {
        PullKeeps(h);
      }
    }
  }

  /** An exit status is reached before the next marker in the queue. */
  predicate ExitAhead(side: Side, queue: seq<Message>) {
    && queue != [] && !queue[0].Eof? && !queue[0].Close?
    && ((side.Server? && queue[0].ExitStatus?) || ExitAhead(side, queue[1..]))
  }

  /** With the peer gone nothing parks, so pulling gets to every exit status ahead of the next marker. */
  lemma {:induction false} PullExit(s: Sender)
    requires Ready(s) && s.chan.remoteClosed && Pull(s).up
    ensures !Blocked(Pull(s).out)
    ensures Pull(s).out.pendingExit.Some? <==> s.out.pendingExit.Some? || ExitAhead(s.side, s.queue)
    decreases |s.queue|
  {
    if s.queue != [] {
      HandleKeeps(s);
      HandleFrame(s);
      HandleClosed(s);
      var h := Handle(s);
      if !s.queue[0].Eof? && !s.queue[0].Close? { PullExit(h); }
    }
  }

  lemma {:induction false} HandleClosed(s: Sender)
    requires Ready(s) && s.chan.remoteClosed && s.queue != [] && Handle(s).up
    ensures !Blocked(Handle(s).out)
  {
    match s.queue[0]
    case Data(b) => EmitChannel(s.chan, false, b);
    case Stderr(b) => EmitChannel(s.chan, true, b);
    case _ =>
  }

  /** A control packet leaves: the output histories are untouched. */
  lemma {:induction false} MarkerSent(wire: seq<Wire>, w: Wire)
    requires !w.WData? && !w.WStderr?
    ensures Shipped(wire + [w]) == Shipped(wire)
    ensures PhaseOf(Open, wire + [w]) == Advance(PhaseOf(Open, wire), w)
    ensures WireExit(wire + [w]) == if w.WExit? then Some(w.code) else WireExit(wire)
  {
    ShippedAppend(wire, [w]);
    ShippedOne(w);
    assert Shipped(wire) + [] == Shipped(wire);
    PhaseAppend(Open, wire, [w]);
    WireExitAppend(wire, [w]);
    assert WireExit([w]) == if w.WExit? then Some(w.code) else None;
  }

  lemma {:induction false} SendExitKeeps(s: Sender)
    requires Ready(s) && (s.chan.remoteClosed ==> s.out.pendingExit.None?)
    ensures Ready(SendExit(s)) && SendExit(s).out == s.out.(pendingExit := None)
  {
    if s.out.pendingExit.Some? { MarkerSent(s.wire, WExit(s.out.pendingExit.value)); }
  }

  lemma {:induction false} SendEofKeeps(s: Sender, wanted: bool)
    requires Ready(s)
    ensures var r := SendEofOnce(s, wanted);
            Ready(r) && r.out == s.out.(eofSent := s.out.eofSent || wanted)
  {
    MarkerSent(s.wire, WEof);
  }

  lemma {:induction false} SendCloseKeeps(s: Sender)
    requires Ready(s) && (s.out.pendingClose ==> s.out.eofSent) && s.out.pendingExit.None?
    ensures Inv(SendCloseOnce(s)) && SendCloseOnce(s).up
    ensures SendCloseOnce(s).out == s.out.(closeSent := s.out.pendingClose)
  {
    MarkerSent(s.wire, WClose);
  }

  lemma {:induction false} FinishKeeps(s: Sender)
    requires Ready(s) && (s.chan.remoteClosed ==> s.out.pendingExit.None?)
    ensures Inv(Finish(s)) && Finish(s).up && Finish(s).side == s.side && !Blocked(Finish(s).out)
    ensures Finish(s).out.closeSent == s.out.pendingClose && Finish(s).out.pendingExit.None?
  {
    var a := SendExit(s);
    SendExitKeeps(s);
    var b := SendEofOnce(a, s.out.pendingEof);
    SendEofKeeps(a, s.out.pendingEof);
    SendEofKeeps(b, s.out.pendingClose);
    SendCloseKeeps(SendEofOnce(b, s.out.pendingClose));
  }

  /** The next tick meets something this channel no longer takes. */
  predicate Doomed(s: Sender) {
    && s.fate.Held? && !s.out.closeSent
    && (|| ((s.out.eofSent || s.chan.remoteClosed) && (Blocked(s.out) || RefusedAhead(s.side, s.queue)))
        || (s.chan.remoteClosed && (s.out.pendingExit.Some? || ExitAhead(s.side, s.queue))))
  }

  /** A tick keeps the invariant, and ends the connection exactly when it is doomed to. */
  lemma {:induction false} TickKeeps(s: Sender)
    requires Inv(s)
    ensures Inv(Tick(s)) && Tick(s).side == s.side
    ensures s.up ==> (!Tick(s).up <==> Doomed(s))
    ensures Blocked(Tick(s).out) ==> WireExit(Tick(s).wire) == WireExit(s.wire)
    ensures s.up && s.fate.Held? && Tick(s).up && Tick(s).out.pendingExit.Some? ==> Blocked(Tick(s).out)
  {
    if s.up && s.fate.Held? && !s.out.closeSent {
      RetryKeeps(s);
      RetryFlags(s);
      var a := Retry(s);
      if a.up && !Blocked(a.out) { PullFinish(a); }
    }
  }

  lemma {:induction false} PullFinish(s: Sender)
    requires Ready(s)
    ensures var r := Finish(Pull(s));
            && Inv(r) && r.side == s.side
            && (!r.up <==> (|| (!CanSendData(s.chan) && RefusedAhead(s.side, s.queue))
                            || (s.chan.remoteClosed && (s.out.pendingExit.Some? || ExitAhead(s.side, s.queue)))))
            && (Blocked(r.out) ==> WireExit(r.wire) == WireExit(s.wire))
            && (r.up && r.out.pendingExit.Some? ==> Blocked(r.out))
  {
    PullKeeps(s);
    var p := Pull(s);
    if p.up && s.chan.remoteClosed {
      PullExit(s);
      if p.out.pendingExit.None? { FinishKeeps(p); }
    } else if p.up && !Blocked(p.out) {
      FinishKeeps(p);
    }
  }

  lemma {:induction false} RetryFlags(s: Sender)
    requires Inv(s) && s.up
    ensures Retry(s).out.eofSent == s.out.eofSent && Retry(s).out.closeSent == s.out.closeSent
    ensures Retry(s).out.pendingExit == s.out.pendingExit
    ensures !Blocked(s.out) ==> Retry(s) == s
  {
  }

  // --- Every run -----------------------------------------------------------------------------

  lemma {:induction false} NextKeeps(s: Sender, step: Step)
    requires Inv(s)
    ensures Inv(Next(s, step)) && Next(s, step).side == s.side
  {
    match step
    case Drain => TickKeeps(s);
    case PeerClose => ClosesKeep(s);
    case IdleClose => ClosesKeep(s);
    case _ =>
  }

  lemma {:induction false} ClosesKeep(s: Sender)
    requires Inv(s)
    ensures Inv(OnPeerClose(s)) && Inv(OnIdleClose(s))
  {
    MarkerSent(s.wire, WClose);
    MarkerSent(s.wire, WEof);
    MarkerSent(s.wire + [WEof], WClose);
    assert s.wire + [WEof, WClose] == (s.wire + [WEof]) + [WClose];
  }

  lemma {:induction false} RunKeeps(s: Sender, steps: seq<Step>)
    requires Inv(s)
    ensures Inv(Run(s, steps)) && Run(s, steps).side == s.side
    decreases |steps|
  {
    if steps != [] {
      RunKeeps(s, steps[..|steps| - 1]);
      NextKeeps(Run(s, steps[..|steps| - 1]), steps[|steps| - 1]);
    }
  }

  ghost predicate Reachable(s: Sender) {
    exists side, window: u32, maxPacket: u32, steps :: s == Run(Init(side, window, maxPacket), steps)
  }

  lemma ReachableInv(s: Sender)
    requires Reachable(s)
    ensures Inv(s)
  {
    var side, window: u32, maxPacket: u32, steps :| s == Run(Init(side, window, maxPacket), steps);
    assert Inv(Init(side, window, maxPacket));
    RunKeeps(Init(side, window, maxPacket), steps);
  }

  // --- Theorems ------------------------------------------------------------------------------

  /**
   What has left, followed by what is parked, is what was pulled, stdout and stderr in their original
   interleaving; even a connection that ended early sent a prefix of it.
   */
  lemma OutputInOrder(s: Sender)
    requires Reachable(s)
    ensures s.up ==> Shipped(s.wire) + Waiting(s.out) == Outputs(s.side, s.pulled)
    ensures Shipped(s.wire) <= Outputs(s.side, s.pulled)
    ensures s.out.pendingData == [] || s.out.pendingStderr == []
  {
    ReachableInv(s);
  }

  /** No payload behind an EOF; CLOSE last; each of the two at most once. */
  ghost predicate WellOrdered(ws: seq<Wire>) {
    && (forall i, j | 0 <= i < j < |ws| && ws[i] == WEof :: ws[j].WExit? || ws[j].WClose?)
    && (forall i | 0 <= i < |ws| && ws[i] == WClose :: i == |ws| - 1)
  }

  lemma {:induction false} GrammarMeans(p: Phase, ws: seq<Wire>)
    requires PhaseOf(p, ws) != Broken
    ensures p == AfterEof ==> forall j | 0 <= j < |ws| :: ws[j].WExit? || (ws[j].WClose? && j == |ws| - 1)
    ensures p != Broken && (p == Closed || p == Cut ==> ws == [])
    ensures p == Open ==> WellOrdered(ws)
    decreases |ws|
  {
    if ws != [] {
      GrammarMeans(Advance(p, ws[0]), ws[1..]);
      forall i | 0 <= i < |ws| && ws[i] == WClose && p == Open
        ensures i == |ws| - 1
      {
        if i > 0 { assert ws[1..][i - 1] == WClose; }
      }
    }
  }

  /** The phase says which of the two markers have left. */
  lemma {:induction false} GrammarMarks(p: Phase, ws: seq<Wire>)
    requires PhaseOf(p, ws) != Broken
    ensures p == Open ==> (WEof in ws <==> PhaseOf(p, ws) in {AfterEof, Closed})
    ensures p == Open || p == AfterEof ==> (WClose in ws <==> PhaseOf(p, ws) in {Closed, Cut})
    ensures p != Open ==> WEof !in ws
    decreases |ws|
  {
    GrammarMeans(p, ws);
    if ws != [] {
      var q := Advance(p, ws[0]);
      GrammarMarks(q, ws[1..]);
      assert ws == [ws[0]] + ws[1..];
      assert WEof in ws <==> ws[0] == WEof || WEof in ws[1..];
      assert WClose in ws <==> ws[0] == WClose || WClose in ws[1..];
      if q == Closed || q == Cut { GrammarMeans(q, ws[1..]); }
      if q == AfterEof { AfterEofMeans(ws[1..]); }
    }
  }

  lemma {:induction false} AfterEofMeans(ws: seq<Wire>)
    requires PhaseOf(AfterEof, ws) != Broken
    ensures PhaseOf(AfterEof, ws) in {AfterEof, Closed}
    decreases |ws|
  {
    if ws != [] {
      GrammarMeans(Advance(AfterEof, ws[0]), ws[1..]);
      if ws[0].WExit? { AfterEofMeans(ws[1..]); }
    }
  }

  /**
   In every run EOF and CLOSE keep their places, whatever the handler sends in whatever order and whoever
   closes.  A CLOSE is behind an EOF exactly if it does not answer a CLOSE that came before our EOF.
   */
  lemma WireWellOrdered(s: Sender)
    requires Reachable(s)
    ensures WellOrdered(s.wire)
    ensures WClose in s.wire ==> (WEof in s.wire <==> s.fate != Answered(true))
    ensures s.fate == Answered(true) ==> WClose in s.wire && s.chan.remoteClosed
  {
    ReachableInv(s);
    GrammarMeans(Open, s.wire);
    GrammarMarks(Open, s.wire);
  }

  /** The shortest run that ends in a CLOSE without an EOF. */
  lemma PeerCloseWitness(side: Side, window: u32, maxPacket: u32)
    ensures var s := Run(Init(side, window, maxPacket), [PeerClose]); s.up && s.wire == [WClose]
  {
    var s := Init(side, window, maxPacket);
    assert [PeerClose][..0] == [];
    assert Run(s, [PeerClose]) == Next(Run(s, []), PeerClose);
  }

  /**
   Once EOF is out all pulled output is out, exactly if none was parked; and some was only if the server
   closed an idle channel over it.  Once CLOSE is out so is the last exit status, unless one was pending
   when the runtime was dropped.
   */
  lemma CloseIsComplete(s: Sender)
    requires Reachable(s)
    ensures s.up && s.chan.localEof ==> (Shipped(s.wire) == Outputs(s.side, s.pulled) <==> !Blocked(s.out))
    ensures s.chan.localEof && Blocked(s.out) ==> s.fate.Idled? && s.side.Server?
    ensures LastExit(s.side, s.pulled) == if s.out.pendingExit.Some? then s.out.pendingExit else WireExit(s.wire)
    ensures s.chan.localClosed && s.out.pendingExit.Some? ==> !s.fate.Held?
  {
    ReachableInv(s);
    WaitingBytes(s.out);
    assert |Shipped(s.wire) + Waiting(s.out)| == |Shipped(s.wire)| + |Waiting(s.out)|;
    if !Blocked(s.out) { assert Shipped(s.wire) + [] == Shipped(s.wire); }
  }

  lemma WaitingBytes(o: Out)
    ensures Waiting(o) == [] <==> !Blocked(o)
  {
  }

  /** Output parked for want of window, then an idle close: EOF and CLOSE go out, the output never does. */
  lemma {:induction false} IdleCloseWitness(maxPacket: u32, b: byte)
    ensures var s := Run(Init(Server, 0, maxPacket), [Enqueue(Data([b])), Drain, IdleClose]);
            s.up && s.wire == [WEof, WClose] && Outputs(Server, s.pulled) == [(false, b)]
  {
    var s0 := Init(Server, 0, maxPacket);
    RunThree(s0, Enqueue(Data([b])), Drain, IdleClose);
    assert Inv(s0);
    var s1 := Next(s0, Enqueue(Data([b])));
    StuckTick(s1, b);
    var s2 := Next(s1, Drain);
    assert Inv(s2) by { NextKeeps(s1, Drain); }
    assert [] + [WEof, WClose] == [WEof, WClose];
  }

  lemma {:induction false} StuckTick(s: Sender, b: byte)
    requires Ready(s) && s.queue == [Data([b])] && s.chan.remoteWindow == 0 && CanSendData(s.chan)
    requires s.wire == [] && s.pulled == []
    ensures var t := Next(s, Drain);
            && t == s.(queue := [], pulled := t.pulled, out := t.out) && Outputs(s.side, t.pulled) == [(false, b)]
  {
    var t := Take(s, true);
    assert Emit(s.chan, false, [b]) == Ok(Emitted(s.chan, [], [b]));
    var e := EmitInto(t, false, [b]);
    assert s.wire + [] == s.wire && s.out.pendingData + [b] == [b];
    assert Retry(s) == s && Handle(s) == e && Pull(e) == e && Pull(s) == e;
    assert e.pulled == [Pulled(Data([b]), true)];
    assert Tag(false, [b]) == [(false, b)];
  }

  lemma {:induction false} NothingAfterClose(s: Sender, steps: seq<Step>)
    requires Inv(s) && s.chan.localClosed
    ensures Run(s, steps).wire == s.wire && Run(s, steps).out == s.out && Run(s, steps).chan.localClosed
    decreases |steps|
  {
    if steps != [] {
      NothingAfterClose(s, steps[..|steps| - 1]);
      RunKeeps(s, steps[..|steps| - 1]);
      ClosedStays(Run(s, steps[..|steps| - 1]), steps[|steps| - 1]);
    }
  }

  lemma {:induction false} ClosedStays(s: Sender, step: Step)
    requires Flags(s) && s.chan.localClosed
    ensures Next(s, step).wire == s.wire && Next(s, step).out == s.out && Next(s, step).chan.localClosed
  {
  }

  /** An exit status leaves in the first tick that parks nothing, and never past parked output. */
  lemma ExitWaitsForOutput(s: Sender)
    requires Reachable(s) && s.up && Tick(s).up
    ensures Tick(s).out.pendingExit.Some? ==> Blocked(Tick(s).out) || !s.fate.Held?
    ensures Blocked(Tick(s).out) ==> WireExit(Tick(s).wire) == WireExit(s.wire)
  {
    ReachableInv(s);
    TickKeeps(s);
  }

  function Messages(ps: seq<Pulled>): seq<Message> {
    if ps == [] then [] else [ps[0].m] + Messages(ps[1..])
  }

  lemma {:induction false} MessagesSnoc(ps: seq<Pulled>, p: Pulled)
    ensures Messages(ps + [p]) == Messages(ps) + [p.m]
  {
    if ps == [] {
      assert ps + [p] == [p];
    } else {
      assert (ps + [p])[1..] == ps[1..] + [p];
      MessagesSnoc(ps[1..], p);
    }
  }

  /** Everything the handler has sent: pulled or still queued. */
  function Mail(s: Sender): seq<Message> {
    Messages(s.pulled) + s.queue
  }

  lemma {:induction false} PullMail(s: Sender)
    ensures Mail(Pull(s)) == Mail(s)
    decreases |s.queue|
  {
    if s.up && !Blocked(s.out) && s.queue != [] {
      var h := Handle(s);
      assert h.queue == s.queue[1..] && h.pulled == s.pulled + [h.pulled[|s.pulled|]];
      MessagesSnoc(s.pulled, h.pulled[|s.pulled|]);
      assert Mail(h) == Mail(s);
      if !s.queue[0].Eof? && !s.queue[0].Close? { PullMail(h); }
    }
  }

  /** Ticks neither lose nor reorder the handler's messages. */
  lemma {:induction false} TickMail(s: Sender)
    ensures Mail(Tick(s)) == Mail(s)
  {
    RetryMail(s);
    PullMail(Retry(s));
    FinishMail(Pull(Retry(s)));
  }

  lemma RetryMail(s: Sender)
    ensures Retry(s).pulled == s.pulled && Retry(s).queue == s.queue
  {
  }

  lemma FinishMail(s: Sender)
    ensures Finish(s).pulled == s.pulled && Finish(s).queue == s.queue
  {
    var a := SendExit(s);
    assert a.pulled == s.pulled && a.queue == s.queue;
    var b := SendEofOnce(a, s.out.pendingEof);
    assert b.pulled == s.pulled && b.queue == s.queue;
    var c := SendEofOnce(b, s.out.pendingClose);
    assert c.pulled == s.pulled && c.queue == s.queue;
  }

  /**
   The stream's documentation says writes after an explicit EOF still succeed.  They do until the
   dispatcher gets to them: the next tick ends the whole connection.  So it does when a CLOSE of the
   peer's was swallowed and output or an exit status is parked or comes ahead of the next marker, and
   in no other case.
   */
  lemma WritesAfterEofEndConnection(s: Sender)
    requires Reachable(s) && s.up
    ensures !Tick(s).up <==>
            && s.fate.Held? && !s.out.closeSent
            && (|| ((s.out.eofSent || s.chan.remoteClosed) && (Blocked(s.out) || RefusedAhead(s.side, s.queue)))
                || (s.chan.remoteClosed && (s.out.pendingExit.Some? || ExitAhead(s.side, s.queue))))
    ensures s.fate.Held? && s.chan.remoteClosed ==> s.side.Server?
  {
    ReachableInv(s);
    TickKeeps(s);
  }

  /** After a swallowed CLOSE, output and exit statuses alike cost the server its connection. */
  lemma SwallowedCloseWitness(window: u32, maxPacket: u32, m: Message)
    requires Refused(Server, m) || m.ExitStatus?
    ensures !Run(Init(Server, window, maxPacket), [CloseSwallowed, Enqueue(m), Drain]).up
  {
    var s := Init(Server, window, maxPacket);
    RunThree(s, CloseSwallowed, Enqueue(m), Drain);
    ClosedTick(Next(Next(s, CloseSwallowed), Enqueue(m)), m);
  }

  lemma ClosedTick(s: Sender, m: Message)
    requires Inv(s) && s.up && s.fate.Held? && s.side.Server? && s.chan.remoteClosed && !s.out.closeSent
    requires s.queue == [m]
    requires Refused(Server, m) || m.ExitStatus?
    ensures !Next(s, Drain).up
  {
    TickKeeps(s);
  }

  lemma RunThree(s: Sender, a: Step, b: Step, c: Step)
    ensures Run(s, [a, b, c]) == Next(Next(Next(s, a), b), c)
  {
    var all := [a, b, c];
    assert all[..2] == [a, b] && all[..2][..1] == [a] && [a][..0] == [];
    assert Run(s, [a]) == Next(Run(s, []), a);
    assert Run(s, [a, b]) == Next(Run(s, [a]), b);
  }

  lemma WriteAfterEofWitness(side: Side, window: u32, maxPacket: u32)
    ensures !Run(Init(side, window, maxPacket), [Enqueue(Eof), Drain, Enqueue(Data([1])), Drain]).up
  {
    var all := [Enqueue(Eof), Drain, Enqueue(Data([1])), Drain];
    var s0 := Init(side, window, maxPacket);
    assert Ready(Next(s0, all[0]));
    EofThenData(Next(s0, all[0]), [1]);
    RunThree(s0, all[0], all[1], all[2]);
    assert all[..3] == [all[0], all[1], all[2]];
  }

  lemma EofThenData(s: Sender, bytes: seq<byte>)
    requires Ready(s) && s.handler && s.queue == [Eof] && bytes != []
    requires s.out.pendingExit.None? && !s.out.pendingClose && !s.out.eofSent
    ensures !Next(Next(Next(s, Drain), Enqueue(Data(bytes))), Drain).up
  {
    EofTick(s);
    DataTick(Next(s, Drain), bytes);
  }

  lemma DataTick(s: Sender, bytes: seq<byte>)
    requires Inv(s) && s.up && s.fate.Held? && s.handler && s.queue == [] && s.out.eofSent && !s.out.closeSent
    requires bytes != []
    ensures !Next(Next(s, Enqueue(Data(bytes))), Drain).up
  {
    var t := Next(s, Enqueue(Data(bytes)));
    assert RefusedAhead(t.side, t.queue);
    TickKeeps(t);
  }

  lemma EofTick(s: Sender)
    requires Ready(s) && s.queue == [Eof] && s.out.pendingExit.None? && !s.out.pendingClose && !s.out.eofSent
    ensures var r := Next(s, Drain);
            && Inv(r) && r.up && r.fate.Held? && r.out.eofSent && !r.out.closeSent && r.queue == []
            && r.handler == s.handler
  {
    TickKeeps(s);
    var h := Handle(s);
    assert Retry(s) == s && Pull(s) == h && SendExit(h) == h;
  }
}
