/**
 Every interleaving of one channel's receiving half: what the peer sends, dispatcher ticks, our own
 close, handler reads and handler departure, on either side.  On the server a buffered command running
 on another channel may read this channel's packets and drop them: such packets are swallowed.
 */
module Pipeline {
  import opened Prelude
  import opened Channels
  import opened Ingress

  /**
   `tracked`: the id is still in the connection's channel map.  `runtime`: the dispatcher still holds
   the runtime (and with it the sending end of the queue).  `up`: no protocol error ended the loop.
   The rest are histories: `offered` what the connection layer accepted from the peer, `sent` the part of
   it that was dispatched, `swallowed` and `eaten` how many bytes of data and of extended data were not,
   `read` what the handler was given, `lost` what was thrown away with the runtime, `moved` the bytes
   handed over (to the queue, or for a departed handler), `uncredited` how many of those were not credited,
   `extra` the extended bytes that were, `discarded` the bytes a departed handler cost without credit,
   `grants` the adjustments sent.
   */
  datatype Pipe = Pipe(
    side: Side, chan: ChannelState, tracked: bool, runtime: bool, up: bool,
    backlog: seq<Chunk>, stream: Stream,
    sent: seq<byte>, read: seq<byte>, lost: seq<byte>, moved: nat, discarded: nat, grants: seq<nat>,
    offered: seq<byte>, swallowed: nat, eaten: nat, uncredited: nat, extra: nat)

  datatype Step =
    | PeerData(data: seq<byte>)
    | PeerExtended(len: nat)
    | PeerEof
    | PeerClose
    | Tick
    | LocalClose
    | IdleClose
    | SwallowData(data: seq<byte>)
    | SwallowExtended(len: nat)
    | SwallowEof
    | SwallowClose
    | HandlerRead(n: nat)
    | HandlerGone
    | Teardown

  /** `SERVE_INGRESS_BACKLOG` and `SUBSYSTEM_INGRESS_BACKLOG`, in chunks. */
  function QueueCap(side: Side): nat {
    if side.Client? then 32 else 64
  }

  /** A freshly opened channel. */
  function Init(side: Side, window: u32, maxPacket: u32): Pipe {
    var chan := ChannelState(window, 0, maxPacket, 0, false, false, false, false, window, 0);
    var queue := Queue([], QueueCap(side), true, true);
    Pipe(side, chan, true, true, true, [], Stream(queue, [], false), [], [], [], 0, 0, [], [], 0, 0, 0, 0)
  }

  /** Drop the runtime: the backlog goes with it, and the handler's queue loses its sender. */
  function DropRuntime(s: Pipe): Pipe {
    s.(runtime := false, backlog := [], lost := s.lost + Payload(s.backlog),
       stream := s.stream.(queue := s.stream.queue.(sender := false)))
  }

  function Fail(s: Pipe): Pipe {
    DropRuntime(s.(up := false))
  }

  /** Credit `n` consumed bytes; a channel that is gone or closed by us is skipped. */
  function Credit(s: Pipe, n: nat): Pipe {
    if !s.tracked then s
    else
      var (chan, adjust) := Replenish(s.chan, Min(n, U32_MAX));
      s.(chan := chan, grants := if adjust.Some? then s.grants + [adjust.value] else s.grants)
  }

  /** Record what `offer` / `flush` did with the backlog plus `arrived` new bytes. */
  function Store(s: Pipe, p: Parked, arrived: nat): Pipe {
    var before := |Payload(s.backlog)| + arrived;
    var after := p.moved + |Payload(p.backlog)|;
    s.(backlog := p.backlog, stream := s.stream.(queue := p.queue), moved := s.moved + p.moved,
       discarded := s.discarded + if before > after then before - after else 0)
  }

  predicate Creditable(s: Pipe) {
    s.tracked && !s.chan.localClosed
  }

  /** Hand over without credit. */
  function Release(s: Pipe, p: Parked, arrived: nat): Pipe {
    Store(s, p, arrived).(uncredited := s.uncredited + p.moved)
  }

  function Absorb(s: Pipe, p: Parked, arrived: nat): Pipe {
    if Creditable(s) then Credit(Store(s, p, arrived), p.moved) else Release(s, p, arrived)
  }

  function OnPeerData(s: Pipe, data: seq<byte>): Pipe {
    var checked := OnData(s.chan, |data|);
    if !s.tracked || checked.Err? then Fail(s)
    else
      var s1 := s.(chan := checked.value, sent := s.sent + data, offered := s.offered + data);
      if s.runtime then Absorb(s1, Offer(s.side, s.backlog, s.stream.queue, Some(data)), |data|)
      else Credit(s1.(lost := s.lost + data), |data|)
  }

  function OnPeerClose(s: Pipe): Pipe {
    if !s.tracked then Fail(s)
    else DropRuntime(s.(chan := s.chan.(remoteClosed := true, localClosed := true), tracked := false))
  }

  function OnTick(s: Pipe): Pipe {
    if !s.runtime || s.backlog == [] || s.chan.localClosed then s
    else Absorb(s, Flush(s.side, s.backlog, s.stream.queue), 0)
  }

  /** Our own CLOSE goes out.  The client reaps the runtime at once, the server on the peer's CLOSE. */
  function OnLocalClose(s: Pipe): Pipe {
    if !s.tracked || s.chan.localClosed then s
    else
      var s1 := s.(chan := s.chan.(localClosed := true), tracked := !s.chan.remoteClosed);
      if s.side.Client? then DropRuntime(s1) else s1
  }

  /** `close_idle_channels`: the runtime goes at once, then EOF and CLOSE are sent. */
  function OnIdleClose(s: Pipe): Pipe {
    if s.side.Client? || !s.tracked || s.chan.localClosed || s.chan.remoteClosed then s
    else DropRuntime(s.(chan := s.chan.(localClosed := true)))
  }

  /** Read while a buffered command waits for window: the connection layer sees the packet, nobody else. */
  function OnSwallowed(s: Pipe, step: Step): Pipe {
    if s.side.Client? then s
    else if !s.tracked then Fail(s)
    else
      match step
      case SwallowData(data) =>
        var checked := OnData(s.chan, |data|);
        if checked.Err? then Fail(s)
        else s.(chan := checked.value, offered := s.offered + data, swallowed := s.swallowed + |data|)
      case SwallowExtended(len) =>
        var checked := OnData(s.chan, len);
        if checked.Err? then Fail(s) else s.(chan := checked.value, eaten := s.eaten + len)
      case SwallowEof => s.(chan := s.chan.(remoteEof := true))
      case SwallowClose => s.(chan := s.chan.(remoteClosed := true), tracked := !s.chan.localClosed)
      case _ => s
  }

  function Took(s: Pipe, stream: Stream, got: Got): Pipe {
    s.(stream := stream, read := s.read + if got.Delivered? then got.bytes else [])
  }

  function Next(s: Pipe, step: Step): Pipe {
    match step
    case HandlerRead(n) =>
      if !s.stream.queue.receiver then s
      else
        var (stream, got) := Read(s.stream, n);
        Took(s, stream, got)
    case HandlerGone =>
      s.(stream := Stream(s.stream.queue.(items := [], receiver := false), [], s.stream.rxEof))
    case _ => if s.up then Dispatch(s, step) else s
  }

  function Dispatch(s: Pipe, step: Step): Pipe {
    match step
    case PeerData(data) => OnPeerData(s, data)
    case PeerExtended(len) =>
      var checked := OnData(s.chan, len);
      if !s.tracked || checked.Err? then Fail(s)
      else Credit(s.(chan := checked.value, extra := s.extra + if Creditable(s) then len else 0), len)
    case PeerEof =>      // what the marker pushes into the queue is not credited
      if !s.tracked then Fail(s)
      else
        var s1 := s.(chan := s.chan.(remoteEof := true));
        if s.runtime then Release(s1, Offer(s.side, s.backlog, s.stream.queue, None), 0) else s1
    case PeerClose => OnPeerClose(s)
    case Tick => OnTick(s)
    case LocalClose => OnLocalClose(s)
    case IdleClose => OnIdleClose(s)
    case SwallowData(_) => OnSwallowed(s, step)
    case SwallowExtended(_) => OnSwallowed(s, step)
    case SwallowEof => OnSwallowed(s, step)
    case SwallowClose => OnSwallowed(s, step)
    case Teardown => Fail(s)
    case _ => s
  }

  function Run(s: Pipe, steps: seq<Step>): Pipe
    decreases |steps|
  {
    if steps == [] then s else Next(Run(s, steps[..|steps| - 1]), steps[|steps| - 1])
  }

  // --- What every step keeps -----------------------------------------------------------------

  /** The bytes still on their way to a live handler. */
  function InTransit(s: Pipe): seq<byte> {
    s.stream.buf + Payload(s.stream.queue.items) + Payload(s.backlog)
  }

  ghost predicate Ends(s: Pipe) {
    && s.stream.queue.sender == s.runtime
    && s.stream.queue.cap == QueueCap(s.side)
    && (s.runtime ==> s.up && s.lost == [])
    && (!s.runtime ==> s.backlog == [])
    && (!s.stream.queue.receiver ==> s.stream.queue.items == [] && s.stream.buf == [])
    && (s.up && !s.chan.localClosed ==> s.tracked && s.runtime) && (s.up && !s.chan.remoteClosed ==> s.tracked)
    && (s.tracked ==> !(s.chan.localClosed && s.chan.remoteClosed))
    && (s.side.Client? ==> (s.runtime ==> s.tracked) && (s.tracked ==> !s.chan.remoteClosed))
  }

  ghost predicate Order(s: Pipe) {
    && (s.stream.queue.receiver ==> s.read + InTransit(s) + s.lost == s.sent)
    && (s.stream.queue.receiver && s.stream.rxEof ==>
          InTransit(s) == [] && (s.runtime ==> s.chan.remoteEof))
  }

  ghost predicate Accounts(s: Pipe) {
    && |s.sent| == s.moved + |Payload(s.backlog)| + s.discarded + |s.lost|
    && (s.discarded > 0 ==> s.side.Client? && !s.stream.queue.receiver)
    && |s.sent| + s.swallowed == |s.offered| && (s.swallowed == 0 ==> s.sent == s.offered)
    && (s.side.Client? ==> s.swallowed == 0 && s.eaten == 0)
  }

  /** What was handed over has been granted back or is saved up, but for the uncredited part. */
  ghost predicate Credits(s: Pipe) {
    && Sum(s.grants) + s.chan.pendingReplenish + s.uncredited == s.moved + s.extra
    && s.uncredited <= s.moved
    && (s.uncredited > 0 ==> s.chan.localClosed || (s.side.Server? && s.chan.remoteEof))
  }

  ghost predicate Window(s: Pipe) {
    var outstanding := s.chan.localWindow + s.chan.pendingReplenish + |Payload(s.backlog)| + s.discarded
                       + s.swallowed + s.eaten + s.uncredited;
    && outstanding <= s.chan.initialLocalWindow
    && (s.up && !s.chan.localClosed ==> outstanding == s.chan.initialLocalWindow)
    && s.chan.pendingReplenish < Threshold(s.chan)
  }

  ghost predicate Bounded(s: Pipe) {
    && |s.stream.queue.items| <= s.stream.queue.cap
    && |s.stream.buf| <= s.chan.localMaxPacket
    && Legal(s.stream.queue.items + s.backlog, s.chan.remoteEof, s.chan.localMaxPacket)
  }

  ghost predicate Inv(s: Pipe) {
    Ends(s) && Order(s) && Accounts(s) && Credits(s) && Window(s) && Bounded(s)
  }

  /** What a state has between changing the channel's flags and dropping the runtime. */
  ghost predicate Closing(s: Pipe) {
    && (!s.up || s.chan.localClosed) && (s.up && !s.chan.remoteClosed ==> s.tracked)
    && s.stream.queue.cap == QueueCap(s.side)
    && (s.runtime ==> s.lost == []) && (!s.runtime ==> s.backlog == [])
    && (!s.stream.queue.receiver ==> s.stream.queue.items == [] && s.stream.buf == [])
    && (s.tracked ==> !(s.chan.localClosed && s.chan.remoteClosed))
    && (s.side.Client? ==> s.tracked ==> !s.chan.remoteClosed)
  }

  lemma DropMoves(read: seq<byte>, front: seq<byte>, back: seq<byte>, lost: seq<byte>)
    requires back == [] || lost == []
    ensures read + (front + back) + lost == read + (front + []) + (lost + back)
  {
    assert front + [] == front;
    if back == [] {
      assert lost + back == lost;
    } else {
      assert read + (front + back) + lost == read + front + back;
      assert lost + back == back;
    }
  }

  lemma {:induction false} DropRuntimeOrder(s: Pipe)
    requires Closing(s) && Order(s) && Bounded(s)
    ensures Order(DropRuntime(s)) && Bounded(DropRuntime(s))
  {
    var t := DropRuntime(s);
    LegalSplit(s.stream.queue.items, s.backlog, s.chan.remoteEof, s.chan.localMaxPacket);
    assert t.stream.queue.items + t.backlog == s.stream.queue.items;
    DropMoves(s.read, s.stream.buf + Payload(s.stream.queue.items), Payload(s.backlog), s.lost);
  }

  /** Dropping the runtime of a channel we closed, or at the end of the connection. */
  lemma {:induction false} DropRuntimeKeeps(s: Pipe)
    requires Closing(s) && Order(s) && Accounts(s) && Credits(s) && Window(s) && Bounded(s)
    ensures Inv(DropRuntime(s))
  {
    DropRuntimeOrder(s);
  }

  lemma {:induction false} CreditKeeps(s: Pipe, n: nat)
    requires Ends(s) && Order(s) && Accounts(s) && Bounded(s)
    requires s.chan.pendingReplenish < Threshold(s.chan)
    requires s.uncredited <= s.moved
    requires s.uncredited > 0 ==> s.chan.localClosed || (s.side.Server? && s.chan.remoteEof)
    requires var due := if Creditable(s) then n else 0;
             && Sum(s.grants) + s.chan.pendingReplenish + s.uncredited + due == s.moved + s.extra
             && Window(s.(uncredited := s.uncredited + due))
    ensures Inv(Credit(s, n))
    ensures Sum(Credit(s, n).grants) - Sum(s.grants) == Credit(s, n).chan.localWindow - s.chan.localWindow
    ensures s.grants <= Credit(s, n).grants
  {
    if Creditable(s) {
      ReplenishConserves(s.chan, n);
      var (chan, adjust) := Replenish(s.chan, n);
      if adjust.Some? {
        SumAppend(s.grants, [adjust.value]);
      }
    }
  }

  /** `s` with new chunks `cs` checked in by the connection layer but not yet offered. */
  function Arrived(s: Pipe, cs: seq<Chunk>, eof: bool): Pipe
    requires |Payload(cs)| <= s.chan.localWindow
  {
    s.(chan := s.chan.(localWindow := s.chan.localWindow - |Payload(cs)|, remoteEof := eof),
       sent := s.sent + Payload(cs), offered := s.offered + Payload(cs))
  }

  ghost predicate Acceptable(s: Pipe, cs: seq<Chunk>, eof: bool) {
    && s.runtime
    && |Payload(cs)| <= s.chan.localWindow
    && (s.chan.remoteEof ==> eof && Payload(cs) == [])
    && Legal(s.stream.queue.items + (s.backlog + cs), eof, s.chan.localMaxPacket)
  }

  function Stored(s: Pipe, cs: seq<Chunk>, eof: bool, p: Parked): Pipe
    requires |Payload(cs)| <= s.chan.localWindow
  {
    Store(Arrived(s, cs, eof), p, |Payload(cs)|)
  }

  lemma {:induction false} StoredOrder(s: Pipe, cs: seq<Chunk>, eof: bool, p: Parked)
    requires Ends(s) && Order(s) && Acceptable(s, cs, eof)
    requires Handed(s.side, s.backlog + cs, s.stream.queue, p)
    ensures Order(Stored(s, cs, eof, p))
  {
    var t := Stored(s, cs, eof, p);
    var q := s.stream.queue;
    if q.receiver {
      TransitAppend(s.stream.buf, q.items, s.backlog, cs, p.queue.items, p.backlog);
      assert t.read + InTransit(t) + t.lost == (s.read + InTransit(s) + s.lost) + Payload(cs);
    }
  }

  lemma {:induction false} TransitAppend(buf: seq<byte>, items: seq<Chunk>, backlog: seq<Chunk>, cs: seq<Chunk>,
                      items': seq<Chunk>, backlog': seq<Chunk>)
    requires items' + backlog' == items + (backlog + cs)
    ensures buf + Payload(items') + Payload(backlog') == buf + Payload(items) + Payload(backlog) + Payload(cs)
  {
    PayloadAppend(items', backlog');
    PayloadAppend(items, backlog + cs);
    PayloadAppend(backlog, cs);
    Reassociate(buf, Payload(items'), Payload(backlog'), Payload(items), Payload(backlog), Payload(cs));
  }

  lemma Reassociate(x: seq<byte>, a: seq<byte>, b: seq<byte>, c: seq<byte>, d: seq<byte>, e: seq<byte>)
    requires a + b == c + (d + e)
    ensures x + a + b == x + c + d + e
  {
    assert x + a + b == x + (a + b);
    assert x + c + d + e == x + (c + (d + e));
  }

  lemma {:induction false} StoredBounded(s: Pipe, cs: seq<Chunk>, eof: bool, p: Parked)
    requires Ends(s) && Bounded(s) && Acceptable(s, cs, eof)
    requires Handed(s.side, s.backlog + cs, s.stream.queue, p)
    ensures Bounded(Stored(s, cs, eof, p))
  {
    if !s.stream.queue.receiver {
      assert s.stream.queue.items + (s.backlog + cs) == s.backlog + cs;
      assert p.queue.items + p.backlog == p.backlog;
    }
  }

  /** Handing over without credit is safe once nothing more is granted, or nothing more will come. */
  lemma {:induction false} ReleaseKeeps(s: Pipe, cs: seq<Chunk>, eof: bool, p: Parked)
    requires Inv(s) && Acceptable(s, cs, eof)
    requires Handed(s.side, s.backlog + cs, s.stream.queue, p)
    requires p.moved > 0 ==> s.chan.localClosed || (s.side.Server? && eof)
    ensures Inv(Release(Arrived(s, cs, eof), p, |Payload(cs)|))
  {
    StoredOrder(s, cs, eof, p);
    StoredBounded(s, cs, eof, p);
    PayloadAppend(s.backlog, cs);
  }

  /** Accepting new chunks, or retrying old ones, keeps every account in balance. */
  lemma {:induction false} AbsorbKeeps(s: Pipe, cs: seq<Chunk>, eof: bool, p: Parked)
    requires Inv(s) && Acceptable(s, cs, eof)
    requires Handed(s.side, s.backlog + cs, s.stream.queue, p)
    ensures Inv(Absorb(Arrived(s, cs, eof), p, |Payload(cs)|))
  {
    if Creditable(s) {
      CreditedKeeps(s, cs, eof, p);
    } else {
      ReleaseKeeps(s, cs, eof, p);
    }
  }

  lemma {:induction false} CreditedKeeps(s: Pipe, cs: seq<Chunk>, eof: bool, p: Parked)
    requires Inv(s) && Acceptable(s, cs, eof) && Creditable(s)
    requires Handed(s.side, s.backlog + cs, s.stream.queue, p)
    ensures Inv(Credit(Stored(s, cs, eof, p), p.moved))
  {
    StoredOrder(s, cs, eof, p);
    StoredBounded(s, cs, eof, p);
    PayloadAppend(s.backlog, cs);
    CreditKeeps(Stored(s, cs, eof, p), p.moved);
  }

  lemma {:induction false} DataOffered(s: Pipe, data: seq<byte>)
    requires Inv(s) && s.runtime && OnData(s.chan, |data|).Ok?
    ensures Payload([Some(data)]) == data
    ensures Inv(Absorb(Arrived(s, [Some(data)], false), Offer(s.side, s.backlog, s.stream.queue, Some(data)), |data|))
  {
    ChunkFits(s, Some(data), false);
    OfferHands(s.side, s.backlog, s.stream.queue, Some(data));
    AbsorbKeeps(s, [Some(data)], false, Offer(s.side, s.backlog, s.stream.queue, Some(data)));
  }

  lemma {:induction false} ChunkFits(s: Pipe, c: Chunk, eof: bool)
    requires Bounded(s) && s.runtime
    requires |Bytes(c)| <= s.chan.localWindow && |Bytes(c)| <= s.chan.localMaxPacket
    requires if c.Some? then !s.chan.remoteEof && !eof else eof
    ensures Payload([c]) == Bytes(c) && Acceptable(s, [c], eof)
  {
    assert s.stream.queue.items + (s.backlog + [c]) == (s.stream.queue.items + s.backlog) + [c];
    LegalSnoc(s.stream.queue.items + s.backlog, c, s.chan.remoteEof, eof, s.chan.localMaxPacket);
    assert Payload([c]) == Bytes(c);
  }

  lemma FailKeeps(s: Pipe)
    requires Inv(s)
    ensures Inv(Fail(s))
  {
    DropRuntimeKeeps(s.(up := false));
  }

  lemma {:induction false} PeerDataKeeps(s: Pipe, data: seq<byte>)
    requires Inv(s) && s.up
    ensures Inv(OnPeerData(s, data))
  {
    var checked := OnData(s.chan, |data|);
    if !s.tracked || checked.Err? {
      FailKeeps(s);
    } else if s.runtime {
      DataOffered(s, data);
      assert Arrived(s, [Some(data)], false)
          == s.(chan := checked.value, sent := s.sent + data, offered := s.offered + data);
    } else {
      DroppedKeeps(s, data);
    }
  }

  /** Data for a channel whose runtime is gone is dropped, and credited while there is a window. */
  lemma {:induction false} DroppedKeeps(s: Pipe, data: seq<byte>)
    requires Inv(s) && s.up && !s.runtime && OnData(s.chan, |data|).Ok?
    ensures var s1 := s.(chan := OnData(s.chan, |data|).value, sent := s.sent + data, offered := s.offered + data);
            Inv(Credit(s1.(lost := s.lost + data), |data|))
  {
    var s1 := s.(chan := OnData(s.chan, |data|).value, sent := s.sent + data, offered := s.offered + data,
                 lost := s.lost + data);
    assert s1.read + InTransit(s1) + s1.lost == (s.read + InTransit(s) + s.lost) + data;
    CreditKeeps(s1, |data|);
  }

  lemma {:induction false} PeerEofKeeps(s: Pipe)
    requires Inv(s) && s.up
    ensures Inv(Dispatch(s, PeerEof))
  {
    if s.tracked && s.runtime {
      MarkerKeeps(s);
    } else if s.tracked {
      EofNoted(s);
    } else {
      FailKeeps(s);
    }
  }

  lemma {:induction false} MarkerKeeps(s: Pipe)
    requires Inv(s) && s.runtime
    ensures var s1 := s.(chan := s.chan.(remoteEof := true));
            Inv(Release(s1, Offer(s.side, s.backlog, s.stream.queue, None), 0))
  {
    ChunkFits(s, None, true);
    OfferHands(s.side, s.backlog, s.stream.queue, None);
    ReleaseKeeps(s, [None], true, Offer(s.side, s.backlog, s.stream.queue, None));
    assert s.sent + [] == s.sent && s.offered + [] == s.offered;
    assert Arrived(s, [None], true) == s.(chan := s.chan.(remoteEof := true));
  }

  lemma PeerExtendedKeeps(s: Pipe, len: nat)
    requires Inv(s) && s.up
    ensures Inv(Dispatch(s, PeerExtended(len)))
  {
    if s.tracked && OnData(s.chan, len).Ok? {
      ExtendedCredited(s, len);
    } else {
      FailKeeps(s);
    }
  }

  lemma {:induction false} ExtendedCredited(s: Pipe, len: nat)
    requires Inv(s) && s.up && OnData(s.chan, len).Ok?
    ensures Inv(Credit(s.(chan := OnData(s.chan, len).value, extra := s.extra + if Creditable(s) then len else 0), len))
  {
    CreditKeeps(s.(chan := OnData(s.chan, len).value, extra := s.extra + if Creditable(s) then len else 0), len);
  }

  lemma {:induction false} TickKeeps(s: Pipe)
    requires Inv(s)
    ensures Inv(OnTick(s))
  {
    if s.runtime && s.backlog != [] && !s.chan.localClosed {
      FlushHands(s.side, s.backlog, s.stream.queue);
      RetryKeeps(s, Flush(s.side, s.backlog, s.stream.queue));
    }
  }

  lemma {:induction false} RetryKeeps(s: Pipe, p: Parked)
    requires Inv(s) && s.runtime && !s.chan.localClosed && Handed(s.side, s.backlog, s.stream.queue, p)
    ensures Inv(Absorb(s, p, 0))
  {
    assert s.backlog + [] == s.backlog;
    assert Arrived(s, [], s.chan.remoteEof) == s;
    AbsorbKeeps(s, [], s.chan.remoteEof, p);
  }

  lemma CloseKeeps(s: Pipe)
    requires Inv(s) && s.up
    ensures Inv(OnPeerClose(s)) && Inv(OnLocalClose(s))
  {
    PeerCloseKeeps(s);
    LocalCloseKeeps(s);
  }

  lemma PeerCloseKeeps(s: Pipe)
    requires Inv(s) && s.up
    ensures Inv(OnPeerClose(s))
  {
    if s.tracked {
      DropRuntimeKeeps(s.(chan := s.chan.(remoteClosed := true, localClosed := true), tracked := false));
    } else {
      FailKeeps(s);
    }
  }

  lemma LocalCloseKeeps(s: Pipe)
    requires Inv(s) && s.up
    ensures Inv(OnLocalClose(s))
  {
    if s.tracked && !s.chan.localClosed && s.side.Client? {
      DropRuntimeKeeps(s.(chan := s.chan.(localClosed := true)));
    }
  }

  lemma IdleKeeps(s: Pipe)
    requires Inv(s) && s.up
    ensures Inv(OnIdleClose(s))
  {
    if s.side.Server? && s.tracked && !s.chan.localClosed && !s.chan.remoteClosed {
      DropRuntimeKeeps(s.(chan := s.chan.(localClosed := true)));
    }
  }

  lemma {:induction false} SwallowKeeps(s: Pipe, step: Step)
    requires Inv(s) && s.up
    ensures Inv(OnSwallowed(s, step))
  {
    var t := OnSwallowed(s, step);
    if t == Fail(s) {
      FailKeeps(s);
    } else if t != s {
      match step
      case SwallowData(data) => SwallowBytes(s, data, |data|);
      case SwallowExtended(len) => SwallowBytes(s, [], len);
      case SwallowEof => EofNoted(s);
      case _ => CloseNoted(s);
    }
  }

  lemma CloseNoted(s: Pipe)
    requires Inv(s) && s.side.Server? && s.tracked
    ensures Inv(s.(chan := s.chan.(remoteClosed := true), tracked := !s.chan.localClosed))
  {
  }

  lemma {:induction false} SwallowBytes(s: Pipe, data: seq<byte>, len: nat)
    requires Inv(s) && s.up && (data == [] || len == |data|)
    ensures s.side.Server? && OnData(s.chan, len).Ok? ==>
              var t := s.(chan := OnData(s.chan, len).value);
              && Inv(t.(eaten := s.eaten + len))
              && (len == |data| ==> Inv(t.(offered := s.offered + data, swallowed := s.swallowed + len)))
  {
  }

  /** The flag alone, without a marker for the handler. */
  lemma {:induction false} EofNoted(s: Pipe)
    requires Inv(s)
    ensures Inv(s.(chan := s.chan.(remoteEof := true)))
  {
    LegalAfterEof(s.stream.queue.items + s.backlog, s.chan.remoteEof, s.chan.localMaxPacket);
  }

  lemma {:induction false} DispatchKeeps(s: Pipe, step: Step)
    requires Inv(s) && s.up
    ensures Inv(Dispatch(s, step))
  {
    match step
    case PeerData(data) => PeerDataKeeps(s, data);
    case PeerExtended(len) => PeerExtendedKeeps(s, len);
    case PeerEof => PeerEofKeeps(s);
    case HandlerRead(_) =>
    case HandlerGone =>
    case SwallowData(_) => SwallowKeeps(s, step);
    case SwallowExtended(_) => SwallowKeeps(s, step);
    case SwallowEof => SwallowKeeps(s, step);
    case SwallowClose => SwallowKeeps(s, step);
    case _ => OwnKeeps(s, step);
  }

  /** Closes, ticks and the end of the connection. */
  lemma {:induction false} OwnKeeps(s: Pipe, step: Step)
    requires Inv(s) && s.up
    requires step.PeerClose? || step.LocalClose? || step.IdleClose? || step.Tick? || step.Teardown?
    ensures Inv(Dispatch(s, step))
  {
    match step
    case PeerClose => CloseKeeps(s);
    case LocalClose => CloseKeeps(s);
    case IdleClose => IdleKeeps(s);
    case Tick => TickKeeps(s);
    case _ => FailKeeps(s);
  }

  lemma {:induction false} HandlerGoneKeeps(s: Pipe)
    requires Inv(s)
    ensures Inv(Next(s, HandlerGone))
  {
    var t := Next(s, HandlerGone);
    GoneBounded(s, t);
    assert t == s.(stream := t.stream) && !t.stream.queue.receiver;
    assert Ends(t) && Order(t) && Accounts(t) && Credits(t) && Window(t);
  }

  lemma {:induction false} GoneBounded(s: Pipe, t: Pipe)
    requires Bounded(s) && t == s.(stream := t.stream) && t.stream.buf == []
    requires t.stream.queue == s.stream.queue.(items := [], receiver := false)
    ensures Bounded(t)
  {
    assert [] + s.backlog == s.backlog;
    LegalSplit(s.stream.queue.items, s.backlog, s.chan.remoteEof, s.chan.localMaxPacket);
  }

  /** No step, by whichever party, breaks the invariant. */
  lemma {:induction false} NextKeeps(s: Pipe, step: Step)
    requires Inv(s)
    ensures Inv(Next(s, step))
  {
    match step
    case HandlerRead(n) => if s.stream.queue.receiver { ReadKeeps(s, n); }
    case HandlerGone => HandlerGoneKeeps(s);
    case _ => if s.up { DispatchKeeps(s, step); }
  }

  lemma {:induction false} ReadKeeps(s: Pipe, n: nat)
    requires Inv(s) && s.stream.queue.receiver
    ensures Inv(Next(s, HandlerRead(n)))
  {
    var (stream, got) := Read(s.stream, n);
    assert TookFront(s.stream, stream, got) by { ReadTakesFront(s.stream, n); }
    BufferFits(s.stream, s.backlog, n, s.chan.remoteEof, s.chan.localMaxPacket);
    TookKeeps(s, stream, got);
  }

  lemma {:induction false} BufferFits(st: Stream, backlog: seq<Chunk>, n: nat, eof: bool, limit: nat)
    requires |st.buf| <= limit && Legal(st.queue.items + backlog, eof, limit)
    ensures |Read(st, n).0.buf| <= limit
  {
    LegalSplit(st.queue.items, backlog, eof, limit);
    ReadFits(st, n, eof, limit);
  }

  lemma {:induction false} TookKeeps(s: Pipe, stream: Stream, got: Got)
    requires Inv(s) && s.stream.queue.receiver
    requires TookFront(s.stream, stream, got) && |stream.buf| <= s.chan.localMaxPacket
    ensures Inv(Took(s, stream, got))
  {
    TookOrder(s, stream, got);
    TookShape(s, stream, got);
  }

  lemma {:induction false} TookShape(s: Pipe, stream: Stream, got: Got)
    requires Legal(s.stream.queue.items + s.backlog, s.chan.remoteEof, s.chan.localMaxPacket)
    requires TookFront(s.stream, stream, got)
    ensures Legal(stream.queue.items + s.backlog, s.chan.remoteEof, s.chan.localMaxPacket)
    ensures stream.rxEof && !s.stream.rxEof ==>
              || (Payload(stream.queue.items + s.backlog) == [] && s.chan.remoteEof)
              || (stream.queue.items == [] && !s.stream.queue.sender)
  {
    var (items, rest) := (s.stream.queue.items, stream.queue.items);
    var skipped := items[..|items| - |rest|];
    assert items + s.backlog == skipped + (rest + s.backlog);
    LegalSplit(skipped, rest + s.backlog, s.chan.remoteEof, s.chan.localMaxPacket);
  }

  lemma {:induction false} TookOrder(s: Pipe, stream: Stream, got: Got)
    requires Ends(s) && Order(s) && Bounded(s) && s.stream.queue.receiver
    requires TookFront(s.stream, stream, got)
    ensures Order(Took(s, stream, got))
  {
    TookShape(s, stream, got);
    PayloadAppend(stream.queue.items, s.backlog);
    assert s.stream.rxEof ==> s.stream.buf + Payload(s.stream.queue.items) == [];
    Shuffle(s.read, if got.Delivered? then got.bytes else [], stream.buf, Payload(stream.queue.items),
            Payload(s.backlog), s.stream.buf, Payload(s.stream.queue.items));
  }

  lemma Shuffle(read: seq<byte>, out: seq<byte>, a: seq<byte>, b: seq<byte>, c: seq<byte>, x: seq<byte>, y: seq<byte>)
    requires out + a + b == x + y
    ensures (read + out) + (a + b + c) == read + (x + y + c)
  {
    assert (read + out) + (a + b + c) == read + ((out + a + b) + c);
  }

  lemma {:induction false} RunKeeps(s: Pipe, steps: seq<Step>)
    requires Inv(s)
    ensures Inv(Run(s, steps))
    decreases |steps|
  {
    if steps != [] {
      RunKeeps(s, steps[..|steps| - 1]);
      NextKeeps(Run(s, steps[..|steps| - 1]), steps[|steps| - 1]);
    }
  }

  ghost predicate Reachable(s: Pipe) {
    exists side, window: u32, maxPacket: u32, steps :: s == Run(Init(side, window, maxPacket), steps)
  }

  lemma ReachableInv(s: Pipe)
    requires Reachable(s)
    ensures Inv(s)
  {
    var side, window: u32, maxPacket: u32, steps :| s == Run(Init(side, window, maxPacket), steps);
    assert Inv(Init(side, window, maxPacket));
    RunKeeps(Init(side, window, maxPacket), steps);
  }

  // --- Theorems ------------------------------------------------------------------------------

  /**
   In order, nothing missing, nothing twice, and end of file only behind all of it: exactly when nothing of
   this channel was swallowed.  What was dispatched is in order in any case.
   */
  lemma InOrder(s: Pipe)
    requires Reachable(s) && s.stream.queue.receiver && s.runtime
    ensures s.read + InTransit(s) == s.sent
    ensures s.read + InTransit(s) == s.offered <==> s.swallowed == 0
    ensures s.stream.rxEof ==> s.read == s.sent && s.chan.remoteEof && (s.read == s.offered <==> s.swallowed == 0)
  {
    ReachableInv(s);
    assert s.read + InTransit(s) + s.lost == s.read + InTransit(s);
    assert s.stream.rxEof ==> s.read + [] == s.read;
  }

  /**
   Every byte the peer sent is handed over, parked, given up, lost with the runtime or swallowed, once.
   Those handed over were granted back or are saved up, except the uncredited ones: of those there are
   none before our own CLOSE and the peer's EOF.  So, while the runtime is there, every byte is credited or
   parked exactly when none was swallowed and none is uncredited; the server never gives up any.
   */
  lemma BytesConserved(s: Pipe)
    requires Reachable(s)
    ensures |s.offered| == s.moved + |Payload(s.backlog)| + s.discarded + |s.lost| + s.swallowed
    ensures Sum(s.grants) + s.chan.pendingReplenish == s.moved - s.uncredited + s.extra
    ensures s.uncredited > 0 ==> s.chan.localClosed || (s.side.Server? && s.chan.remoteEof)
    ensures s.runtime && (s.side.Server? || s.stream.queue.receiver) ==>
              (|s.offered| == s.moved - s.uncredited + |Payload(s.backlog)| <==> s.swallowed == 0 && s.uncredited == 0)
    ensures s.side.Client? ==> s.swallowed == 0 && s.eaten == 0
  {
    ReachableInv(s);
  }

  lemma {:induction false} PayloadWithin(cs: seq<Chunk>, eof: bool, limit: nat)
    requires Legal(cs, eof, limit)
    ensures |Payload(cs)| <= |cs| * limit
  {
    if cs != [] {
      PayloadWithin(cs[1..], eof, limit);
      assert |cs| * limit == (|cs| - 1) * limit + limit;
    }
  }

  /** The documented memory bound: one window, plus the queue, plus one chunk, whatever the peer sends. */
  lemma {:induction false} MemoryBound(s: Pipe)
    requires Reachable(s)
    ensures |Payload(s.backlog)| <= s.chan.initialLocalWindow
    ensures |InTransit(s)| <= s.chan.initialLocalWindow + (s.stream.queue.cap + 1) * s.chan.localMaxPacket
  {
    ReachableInv(s);
    LegalSplit(s.stream.queue.items, s.backlog, s.chan.remoteEof, s.chan.localMaxPacket);
    PayloadWithin(s.stream.queue.items, s.chan.remoteEof, s.chan.localMaxPacket);
    QueueAndChunk(|s.stream.queue.items|, s.stream.queue.cap, s.chan.localMaxPacket);
  }

  lemma QueueAndChunk(n: nat, cap: nat, m: nat)
    requires n <= cap
    ensures n * m + m <= (cap + 1) * m
  {
    assert (cap + 1) * m == (n + 1) * m + (cap - n) * m;
  }

  /**
   Withheld credit cannot wedge the channel: with nothing parked the whole window is open or about to be
   granted back, and at least half of it is open, less what was swallowed and what the peer's EOF pushed on
   uncredited.  Before that EOF there is no such byte, and after it no more data comes.
   */
  lemma NeverWedged(s: Pipe)
    requires Reachable(s) && s.up && !s.chan.localClosed && s.stream.queue.receiver
    requires Payload(s.backlog) == [] && s.chan.initialLocalWindow > 0
    ensures s.chan.localWindow + s.chan.pendingReplenish == s.chan.initialLocalWindow <==> Missing(s) == 0
    ensures Missing(s) == 0 ==> s.chan.localWindow > 0 && 2 * s.chan.localWindow >= s.chan.initialLocalWindow
    ensures 2 * (s.chan.localWindow + Missing(s)) >= s.chan.initialLocalWindow
    ensures !s.chan.remoteEof ==> Missing(s) == s.swallowed + s.eaten
  {
    ReachableInv(s);
    HalfOpen(s.chan);
  }

  /** Window that will never be granted back. */
  function Missing(s: Pipe): nat {
    s.swallowed + s.eaten + s.uncredited
  }

  /** The peer's EOF is its last word: whatever happens later, no more data is taken in. */
  lemma {:induction false} EofIsLast(s: Pipe, steps: seq<Step>)
    requires s.chan.remoteEof
    ensures Run(s, steps).chan.remoteEof && Run(s, steps).offered == s.offered && Run(s, steps).eaten == s.eaten
    decreases |steps|
  {
    if steps != [] {
      EofIsLast(s, steps[..|steps| - 1]);
      NextAfterEof(Run(s, steps[..|steps| - 1]), steps[|steps| - 1]);
    }
  }

  lemma NextAfterEof(s: Pipe, step: Step)
    requires s.chan.remoteEof
    ensures Next(s, step).chan.remoteEof && Next(s, step).offered == s.offered && Next(s, step).eaten == s.eaten
  {
    match step
    case PeerData(data) => assert OnPeerData(s, data) == Fail(s);
    case _ =>
  }

  lemma HalfOpen(ch: ChannelState)
    requires ch.pendingReplenish < Threshold(ch) && ch.initialLocalWindow > 0
    ensures ch.initialLocalWindow - ch.pendingReplenish > 0
    ensures 2 * (ch.initialLocalWindow - ch.pendingReplenish) >= ch.initialLocalWindow
  {
  }

  // --- Swallowed packets ---------------------------------------------------------------------

  ghost predicate Remembers(s: Pipe, t: Pipe) {
    && t.chan.initialLocalWindow == s.chan.initialLocalWindow
    && t.swallowed >= s.swallowed && t.eaten >= s.eaten && t.uncredited >= s.uncredited
  }

  lemma NextRemembers(s: Pipe, step: Step)
    ensures Remembers(s, Next(s, step))
  {
    match step
    case PeerData(data) => DataRemembers(s, data);
    case SwallowData(_) => assert Remembers(s, OnSwallowed(s, step));
    case SwallowExtended(_) => assert Remembers(s, OnSwallowed(s, step));
    case PeerEof =>
    case _ =>
  }

  lemma DataRemembers(s: Pipe, data: seq<byte>)
    ensures Remembers(s, OnPeerData(s, data))
  {
  }

  /** A swallowed or uncredited byte takes its byte of window with it for good, whatever happens later. */
  lemma {:induction false} ShrinksForGood(s: Pipe, steps: seq<Step>)
    requires Inv(s)
    ensures var t := Run(s, steps);
            && t.chan.initialLocalWindow == s.chan.initialLocalWindow
            && Missing(t) >= Missing(s) && t.chan.localWindow + Missing(s) <= s.chan.initialLocalWindow
            && Remembers(s, t)
    decreases |steps|
  {
    RunKeeps(s, steps);
    if steps != [] {
      ShrinksForGood(s, steps[..|steps| - 1]);
      NextRemembers(Run(s, steps[..|steps| - 1]), steps[|steps| - 1]);
    }
  }

  lemma DataQueues(s: Pipe, data: seq<byte>)
    requires s.side.Server? && s.up && s.tracked && s.runtime && s.backlog == [] && OnData(s.chan, |data|).Ok?
    requires s.stream.queue.receiver && |s.stream.queue.items| < s.stream.queue.cap
    ensures var t := Next(s, PeerData(data));
            && t.stream == s.stream.(queue := s.stream.queue.(items := s.stream.queue.items + [Some(data)]))
            && t == s.(chan := t.chan, stream := t.stream, sent := s.sent + data, offered := s.offered + data,
                       moved := t.moved, grants := t.grants, discarded := t.discarded, uncredited := t.uncredited)
  {
    OneQueued(s.side, s.stream.queue, Some(data));
  }

  lemma EofQueues(s: Pipe)
    requires s.side.Server? && s.up && s.tracked && s.runtime && s.backlog == []
    requires s.stream.queue.receiver && |s.stream.queue.items| < s.stream.queue.cap
    ensures var t := Next(s, PeerEof);
            && t.stream == s.stream.(queue := s.stream.queue.(items := s.stream.queue.items + [None]))
            && t == s.(chan := t.chan, stream := t.stream, moved := t.moved, grants := t.grants,
                       discarded := t.discarded, uncredited := t.uncredited)
  {
    OneQueued(s.side, s.stream.queue, None);
  }

  lemma ReadsBoth(s: Pipe, b: seq<byte>)
    requires s.stream.queue.receiver && s.stream.queue.items == [Some(b), None] && s.stream.buf == [] && |b| == 1
    requires !s.stream.rxEof
    ensures var t := Next(Next(s, HandlerRead(1)), HandlerRead(1));
            t == s.(stream := t.stream, read := s.read + b) && t.stream.rxEof && t.stream.queue.receiver
  {
    var m := s.stream.(queue := s.stream.queue.(items := [None]), buf := b);
    assert s.stream.queue.items[1..] == [None];
    assert Read(s.stream, 1) == Read(m, 1);
    assert b[..1] == b && b[1..] == [];
    var e := m.(buf := []);
    assert Read(m, 1) == (e, Delivered(b));
    assert Read(e, 1) == (e.(queue := e.queue.(items := e.queue.items[1..]), rxEof := true), EndOfFile);
    assert (s.read + b) + [] == s.read + b;
  }

  lemma OneQueued(side: Side, q: Queue, c: Chunk)
    requires side.Server? && q.receiver && |q.items| < q.cap
    ensures Offer(side, [], q, c) == Parked([], q.(items := q.items + [c]), |Bytes(c)|)
  {
    assert [] + [c] == [c] && [c][1..] == [];
    assert Flush(side, [c][1..], TrySend(q, c).0) == Parked([], TrySend(q, c).0, 0);
  }
}
