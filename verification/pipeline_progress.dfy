/**
 What becomes of bytes that are parked: they can always still be read, unless the peer closes first.
 */
module PipelineProgress {
  import opened Prelude
  import opened Channels
  import opened Ingress
  import opened Pipeline

  lemma {:induction false} RunAppend(s: Pipe, a: seq<Step>, b: seq<Step>)
    ensures Run(s, a + b) == Run(Run(s, a), b)
    decreases |b|
  {
    if b == [] {
      assert a + b == a;
    } else {
      var m := |b| - 1;
      assert (a + b)[..|a| + m] == a + b[..m];
      RunAppend(s, a, b[..m]);
    }
  }

  lemma RunSnoc(s: Pipe, a: seq<Step>, b: Step)
    ensures Run(s, a + [b]) == Next(Run(s, a), b)
  {
    assert (a + [b])[..|a|] == a;
  }

  lemma RunStep(s: Pipe, a: Step, b: seq<Step>)
    ensures Run(s, [a] + b) == Run(Next(s, a), b)
  {
    RunAppend(s, [a], b);
    assert Run(s, [a]) == Next(Run(s, []), a);
  }

  lemma {:induction false} ReadReturnsBytes(st: Stream, n: nat)
    requires n > 0
    ensures Read(st, n).1.Delivered? ==> Read(st, n).1.bytes != []
    decreases |st.queue.items|
  {
    if st.buf == [] && !st.rxEof && st.queue.items != [] && st.queue.items[0].Some? {
      ReadReturnsBytes(st.(queue := st.queue.(items := st.queue.items[1..]), buf := st.queue.items[0].value), n);
    }
  }

  function InStream(st: Stream): seq<byte> {
    st.buf + Payload(st.queue.items)
  }

  function Held(s: Pipe): seq<byte> {
    InStream(s.stream)
  }

  /** One read of a stream: bytes come off, or there are none and it waits or ends. */
  lemma {:induction false} StreamReadOnce(st: Stream)
    ensures var (t, got) := Read(st, 1);
            && t.queue == st.queue.(items := t.queue.items)
            && (if InStream(st) == []
                then InStream(t) == [] && !(got.Delivered? && got.bytes != []) && (t.rxEof || t.queue.items == [])
                else t.rxEof || |InStream(t)| < |InStream(st)|)
            && (!st.queue.sender && InStream(st) == [] ==> t.rxEof)
  {
    ReadTakesFront(st, 1);
    ReadReturnsBytes(st, 1);
    var (t, got) := Read(st, 1);
    var b := if got.Delivered? then got.bytes else [];
    assert |b| + |InStream(t)| == |InStream(st)| by {
      assert b + t.buf + Payload(t.queue.items) == st.buf + Payload(st.queue.items);
    }
  }

  /** The same for a live channel, where an ended stream holds nothing. */
  lemma {:induction false} ReadOnce(s: Pipe)
    requires Inv(s) && s.stream.queue.receiver
    ensures var t := Next(s, HandlerRead(1));
            && Inv(t) && t == s.(stream := t.stream, read := t.read)
            && t.stream.queue == s.stream.queue.(items := t.stream.queue.items)
            && (if Held(s) == []
                then Held(t) == [] && t.read == s.read && (t.stream.rxEof || t.stream.queue.items == [])
                else |Held(t)| < |Held(s)|)
            && (!s.runtime && Held(s) == [] ==> t.stream.rxEof)
  {
    ReadKeeps(s, 1);
    StreamReadOnce(s.stream);
    var t := Next(s, HandlerRead(1));
    if t.stream.rxEof { EndedIsEmpty(t); }
  }

  lemma EndedIsEmpty(s: Pipe)
    requires Order(s) && s.stream.queue.receiver && s.stream.rxEof
    ensures Held(s) == [] && Payload(s.backlog) == []
  {
  }

  lemma AllRead(s: Pipe)
    requires Ends(s) && Order(s) && s.stream.queue.receiver && s.runtime && Held(s) == [] && Payload(s.backlog) == []
    ensures s.read == s.sent
  {
    assert s.read + InTransit(s) + s.lost == s.read;
  }

  /** A stream whose sender is gone can be read to its end. */
  lemma {:induction false} ReadsToEnd(s: Pipe) returns (steps: seq<Step>)
    requires Inv(s) && s.stream.queue.receiver && !s.runtime
    ensures var t := Run(s, steps);
            t.stream.rxEof && t.stream.queue.receiver && t == s.(stream := t.stream, read := t.read)
    decreases |Held(s)|
  {
    var t := Next(s, HandlerRead(1));
    ReadOnce(s);
    var more := [];
    if !t.stream.rxEof {
      more := ReadsToEnd(t);
    }
    steps := [HandlerRead(1)] + more;
    RunStep(s, HandlerRead(1), more);
  }

  ghost predicate Draining(s: Pipe) {
    Inv(s) && s.stream.queue.receiver && s.runtime && !s.chan.localClosed
  }

  /** With an empty queue, a tick hands over at least one parked chunk. */
  lemma {:induction false} TickMoves(s: Pipe)
    requires Draining(s) && s.stream.queue.items == [] && s.backlog != []
    ensures var t := Next(s, Tick);
            && Draining(t) && t.sent == s.sent && t.read == s.read
            && |t.backlog| < |s.backlog|
  {
    TickKeeps(s);
    FlushHands(s.side, s.backlog, s.stream.queue);
    ReplenishConserves(s.chan, Flush(s.side, s.backlog, s.stream.queue).moved);
  }

  /** While something is left, a read, or a read and a tick, gets on. */
  lemma {:induction false} GetsOn(s: Pipe) returns (steps: seq<Step>, t: Pipe)
    requires Draining(s) && !(Held(s) == [] && Payload(s.backlog) == [])
    ensures t == Run(s, steps) && forall step | step in steps :: step.HandlerRead? || step.Tick?
    ensures Draining(t) && t.sent == s.sent
    ensures |t.backlog| < |s.backlog| || (|t.backlog| == |s.backlog| && |Held(t)| < |Held(s)|)
  {
    var u := Next(s, HandlerRead(1));
    ReadOnce(s);
    RunStep(s, HandlerRead(1), []);
    if Held(s) != [] {
      steps, t := [HandlerRead(1)] + [], u;
    } else {
      assert !u.stream.rxEof by { if u.stream.rxEof { EndedIsEmpty(u); } }
      t := Next(u, Tick);
      TickMoves(u);
      steps := [HandlerRead(1)] + ([Tick] + []);
      RunStep(s, HandlerRead(1), [Tick] + []);
      RunStep(u, Tick, []);
    }
  }

  /** Whatever has been dispatched can be read by reading and ticking alone, without the peer's help. */
  lemma {:induction false} NothingStuck(s: Pipe) returns (steps: seq<Step>)
    requires Draining(s)
    ensures forall step | step in steps :: step.HandlerRead? || step.Tick?
    ensures Run(s, steps).read == s.sent == Run(s, steps).sent
    decreases |s.backlog|, |Held(s)|
  {
    if Held(s) == [] && Payload(s.backlog) == [] {
      steps := [];
      AllRead(s);
    } else {
      var first, t := GetsOn(s);
      var more := NothingStuck(t);
      steps := first + more;
      RunAppend(s, first, more);
    }
  }

  // --- The peer closes -----------------------------------------------------------------------

  /** A forgotten channel takes nothing in and loses nothing more. */
  ghost predicate SettledFrom(s: Pipe, t: Pipe) {
    && !t.runtime && !t.tracked && t.sent == s.sent && t.offered == s.offered && t.swallowed == s.swallowed
    && (s.backlog == [] ==> t.lost == s.lost && t.backlog == [])
  }

  lemma SettledNext(s: Pipe, step: Step)
    requires !s.runtime && !s.tracked
    ensures SettledFrom(s, Next(s, step))
  {
    match step
    case PeerData(data) => assert OnPeerData(s, data) == Fail(s);
    case LocalClose =>
    case _ =>
  }

  lemma {:induction false} SettledStays(s: Pipe, steps: seq<Step>)
    requires !s.runtime && !s.tracked
    ensures SettledFrom(s, Run(s, steps))
    decreases |steps|
  {
    if steps != [] {
      SettledStays(s, steps[..|steps| - 1]);
      SettledNext(Run(s, steps[..|steps| - 1]), steps[|steps| - 1]);
    }
  }

  lemma {:induction false} AfterClose(s: Pipe, later: seq<Step>, r: Pipe)
    requires Inv(s) && s.runtime && r == Run(Next(s, PeerClose), later)
    ensures Inv(r) && r.lost == Payload(s.backlog) && r.sent == s.sent
    ensures r.offered == s.offered && r.swallowed == s.swallowed
    ensures r.stream.queue.receiver && r.stream.rxEof ==> r.read + Payload(s.backlog) == r.sent
  {
    var c := Next(s, PeerClose);
    NextKeeps(s, PeerClose);
    RunKeeps(c, later);
    SettledStays(c, later);
    assert [] + Payload(s.backlog) == Payload(s.backlog);
    if r.stream.queue.receiver && r.stream.rxEof { ReadAll(r); }
  }

  lemma ReadAll(r: Pipe)
    requires Order(r) && r.stream.queue.receiver && r.stream.rxEof
    ensures r.read + r.lost == r.sent
  {
    assert r.read + [] + r.lost == r.read + r.lost;
  }

  /**
   A handler that reads to end of file after the peer's CLOSE has everything the peer sent if and
   only if no byte was parked when the CLOSE was dispatched and none had been swallowed.
   */
  lemma {:induction false} CloseDeliversAll(s: Pipe, later: seq<Step>, r: Pipe)
    requires Reachable(s) && s.runtime && r == Run(Next(s, PeerClose), later)
    requires r.stream.queue.receiver && r.stream.rxEof
    ensures r.read == r.offered <==> Payload(s.backlog) == [] && s.swallowed == 0
  {
    ReachableInv(s);
    AfterClose(s, later, r);
    assert |r.read| + |Payload(s.backlog)| == |r.sent|;
  }

  /** The first byte is swallowed, the second and the EOF are not: the handler sees the end without the first. */
  lemma {:induction false} SwallowedIsLost(window: u32, maxPacket: u32) returns (steps: seq<Step>)
    requires window >= 2 && maxPacket >= 1
    ensures var s := Run(Init(Server, window, maxPacket), steps);
            && s.up && s.runtime && s.stream.queue.receiver && s.stream.rxEof
            && s.read == [8] && s.offered == [7, 8]
  {
    var s0 := Init(Server, window, maxPacket);
    var s1 := Next(s0, SwallowData([7]));
    assert s0.offered + [7] == [7] && s1.offered + [8] == [7, 8];
    var s2 := Next(s1, PeerData([8]));
    DataQueues(s1, [8]);
    var s3 := Next(s2, PeerEof);
    EofQueues(s2);
    ReadsBoth(s3, [8]);
    var two := [HandlerRead(1)] + [HandlerRead(1)];
    RunSnoc(s3, [HandlerRead(1)], HandlerRead(1));
    RunSnoc(s3, [], HandlerRead(1));
    assert [] + [HandlerRead(1)] == [HandlerRead(1)];
    steps := [SwallowData([7])] + ([PeerData([8])] + ([PeerEof] + two));
    RunStep(s0, SwallowData([7]), [PeerData([8])] + ([PeerEof] + two));
    RunStep(s1, PeerData([8]), [PeerEof] + two);
    RunStep(s2, PeerEof, two);
  }

  /** A window's worth swallowed: nothing is parked, and the peer may never send again. */
  lemma {:induction false} SwallowedWedges(window: u32, data: seq<byte>, later: seq<Step>)
    requires |data| == window
    ensures var s := Next(Init(Server, window, window), SwallowData(data));
            s.up && s.runtime && s.backlog == [] && Run(s, later).chan.localWindow == 0
  {
    var s0 := Init(Server, window, window);
    assert Inv(s0);
    NextKeeps(s0, SwallowData(data));
    ShrinksForGood(Next(s0, SwallowData(data)), later);
  }

  function Flood(k: nat): seq<Step> {
    if k == 0 then [] else Flood(k - 1) + [PeerData([7])]
  }

  /** `k` one-byte chunks have arrived, all are queued, and nobody has read or closed anything. */
  ghost predicate Filled(s: Pipe, k: nat) {
    && Inv(s) && s.runtime && s.stream.queue.receiver && !s.chan.remoteEof && !s.chan.localClosed
    && !s.chan.remoteClosed && s.swallowed == 0 && s.eaten == 0
    && |s.stream.queue.items| == k && s.backlog == [] && s.uncredited == 0
    && s.stream.buf == [] && !s.stream.rxEof && (forall c | c in s.stream.queue.items :: c == Some([7]))
    && s.chan.localMaxPacket > 0 && s.chan.initialLocalWindow > 0
  }

  lemma OfferOne(side: Side, q: Queue, c: Chunk)
    requires q.receiver
    ensures |q.items| < q.cap ==> Offer(side, [], q, c) == Parked([], q.(items := q.items + [c]), |Bytes(c)|)
    ensures |q.items| >= q.cap ==> Offer(side, [], q, c) == Parked([c], q, 0)
  {
    assert [] + [c] == [c];
    assert [c][1..] == [];
    var (q', _) := TrySend(q, c);
    assert Flush(side, [c][1..], q') == Parked([], q', 0);
  }

  /** One more one-byte chunk: queued while there is room, parked when there is not. */
  lemma {:induction false} OneMore(s: Pipe, k: nat)
    requires Filled(s, k)
    ensures var t := Next(s, PeerData([7]));
            && t.side == s.side && t.chan.initialLocalWindow == s.chan.initialLocalWindow
            && t.chan.localMaxPacket == s.chan.localMaxPacket
            && Inv(t) && t.runtime && t.stream.queue.receiver && !t.chan.remoteEof && !t.chan.localClosed
            && (k < s.stream.queue.cap ==> Filled(t, k + 1))
            && (k == s.stream.queue.cap ==> t.backlog == [Some([7])] && t.stream.queue == s.stream.queue)
  {
    NextKeeps(s, PeerData([7]));
    OfferOne(s.side, s.stream.queue, Some([7]));
    ReplenishConserves(OnData(s.chan, 1).value, Offer(s.side, [], s.stream.queue, Some([7])).moved);
  }

  lemma {:induction false} FloodFills(side: Side, window: u32, maxPacket: u32, k: nat)
    requires window > 0 && maxPacket > 0 && k <= QueueCap(side)
    ensures Filled(Run(Init(side, window, maxPacket), Flood(k)), k)
    ensures var s := Run(Init(side, window, maxPacket), Flood(k));
            s.side == side && s.chan.initialLocalWindow == window && s.chan.localMaxPacket == maxPacket
  {
    var s0 := Init(side, window, maxPacket);
    if k == 0 {
      assert Run(s0, []) == s0 && Inv(s0);
    } else {
      FloodFills(side, window, maxPacket, k - 1);
      RunSnoc(s0, Flood(k - 1), PeerData([7]));
      OneMore(Run(s0, Flood(k - 1)), k - 1);
    }
  }

  lemma {:induction false} EofParksBehind(s: Pipe)
    requires Inv(s) && s.tracked && s.runtime && s.stream.queue.receiver
    requires s.backlog == [Some([7])] && |s.stream.queue.items| == s.stream.queue.cap
    ensures var t := Next(s, PeerEof);
            && Inv(t) && t.tracked && t.runtime && t.stream.queue.receiver && t.chan.remoteEof
            && Payload(t.backlog) == [7]
  {
    NextKeeps(s, PeerEof);
    var both: seq<Chunk> := [Some([7]), None];
    assert s.backlog + [None] == both;
    assert both[1..] == [None] && Payload(both) == [7] + Payload(both[1..]);
    ReplenishConserves(s.chan, 0);
  }

  lemma {:induction false} ParkedIsLost(s: Pipe) returns (tail: seq<Step>)
    requires Inv(s) && s.tracked && s.runtime && s.stream.queue.receiver && s.chan.remoteEof && Payload(s.backlog) != []
    ensures var r := Run(s, tail);
            r.up && r.chan.remoteEof && r.stream.queue.receiver && r.stream.rxEof && r.read != r.sent
  {
    var c := Next(s, PeerClose);
    NextKeeps(s, PeerClose);
    var more := ReadsToEnd(c);
    AfterClose(s, more, Run(c, more));
    tail := [PeerClose] + more;
    RunStep(s, PeerClose, more);
  }

  /** On either side: data, EOF and CLOSE in that order, and the handler sees EOF without all the data. */
  lemma {:induction false} CloseLosesData(side: Side, window: u32, maxPacket: u32) returns (steps: seq<Step>)
    requires window > 0 && maxPacket > 0
    ensures var r := Run(Init(side, window, maxPacket), steps);
            r.up && r.chan.remoteEof && r.stream.queue.receiver && r.stream.rxEof && r.read != r.sent
  {
    var s0 := Init(side, window, maxPacket);
    var flood := Flood(QueueCap(side));
    FloodFills(side, window, maxPacket, QueueCap(side));
    var full := Run(s0, flood);
    OneMore(full, QueueCap(side));
    var parked := Next(full, PeerData([7]));
    EofParksBehind(parked);
    var tail := ParkedIsLost(Next(parked, PeerEof));
    RunStep(parked, PeerEof, tail);
    RunStep(full, PeerData([7]), [PeerEof] + tail);
    steps := flood + ([PeerData([7])] + ([PeerEof] + tail));
    RunAppend(s0, flood, [PeerData([7])] + ([PeerEof] + tail));
  }

  // --- The peer's EOF ------------------------------------------------------------------------

  /** On a full queue, data that takes up the whole open window is parked. */
  lemma {:induction false} ParksAll(s: Pipe, data: seq<byte>)
    requires Filled(s, s.stream.queue.cap) && s.side.Server? && |data| == s.chan.localWindow
    requires s.chan.localWindow <= s.chan.localMaxPacket
    ensures var t := Next(s, PeerData(data));
            && t.chan == s.chan.(localWindow := 0) && t.backlog == [Some(data)] && t.stream == s.stream
            && t.tracked && t.runtime && t.up && t.side == s.side
            && t.swallowed == 0 && t.eaten == 0 && t.uncredited == 0
  {
    OfferOne(s.side, s.stream.queue, Some(data));
  }

  /** A read takes the first chunk of one byte off a queue. */
  lemma {:induction false} FreesOne(s: Pipe)
    requires s.stream.queue.receiver && s.stream.buf == [] && !s.stream.rxEof
    requires s.stream.queue.items != [] && s.stream.queue.items[0] == Some([7])
    ensures var t := Next(s, HandlerRead(1));
            && t == s.(stream := t.stream, read := t.read)
            && t.stream.queue == s.stream.queue.(items := s.stream.queue.items[1..])
  {
    var m := s.stream.(queue := s.stream.queue.(items := s.stream.queue.items[1..]), buf := [7]);
    assert Read(s.stream, 1) == Read(m, 1);
  }

  /** With room for one chunk, the EOF marker pushes the parked one into the queue and waits itself. */
  lemma {:induction false} MarkerPushes(s: Pipe, data: seq<byte>)
    requires s.side.Server? && s.up && s.tracked && s.runtime && s.stream.queue.receiver
    requires s.backlog == [Some(data)] && |s.stream.queue.items| + 1 == s.stream.queue.cap
    ensures var t := Next(s, PeerEof);
            && t.chan == s.chan.(remoteEof := true) && t.backlog == [None] && t.uncredited == s.uncredited + |data|
            && t.up && t.runtime && t.stream.queue.receiver && t.swallowed == s.swallowed && t.eaten == s.eaten
  {
    var q := s.stream.queue;
    var both: seq<Chunk> := [Some(data), None];
    assert s.backlog + [None] == both && both[1..] == [None];
    var full := q.(items := q.items + [Some(data)]);
    assert Flush(Server, [None], full) == Parked([None], full, 0);
    assert Flush(Server, both, q) == Parked([None], full, |data|);
  }

  lemma {:induction false} FullThenEof(s: Pipe, data: seq<byte>) returns (t: Pipe)
    requires Filled(s, s.stream.queue.cap) && s.stream.queue.cap > 0 && s.side.Server?
    requires |data| == s.chan.localWindow <= s.chan.localMaxPacket
    ensures t == Run(s, [PeerData(data), HandlerRead(1), PeerEof])
    ensures t.up && t.runtime && t.stream.queue.receiver && !t.chan.localClosed && t.backlog == [None]
    ensures t.swallowed == 0 && t.eaten == 0 && t.uncredited == |data| && t.chan.localWindow == 0
  {
    var parked := Next(s, PeerData(data));
    ParksAll(s, data);
    var freed := Next(parked, HandlerRead(1));
    assert s.stream.queue.items[0] in s.stream.queue.items;
    FreesOne(parked);
    t := Next(freed, PeerEof);
    MarkerPushes(freed, data);
    RunThree(s, PeerData(data), HandlerRead(1), PeerEof);
  }

  lemma RunThree(s: Pipe, a: Step, b: Step, c: Step)
    ensures Run(s, [a, b, c]) == Next(Next(Next(s, a), b), c)
  {
    var all := [a, b, c];
    assert all[..2] == [a, b] && all[..2][..1] == [a] && [a][..0] == [];
    assert Run(s, [a]) == Next(Run(s, []), a);
    assert Run(s, [a, b]) == Next(Run(s, [a]), b);
  }

  /**
   A run on the server with nothing swallowed: data is parked behind a full queue, the handler reads, the
   peer sends EOF before the next tick.  Nothing is parked any more, and the window stays shut.
   */
  lemma {:induction false} EofTakesWindow(window: u32) returns (steps: seq<Step>)
    requires window > 0
    ensures var t := Run(Init(Server, window, window), steps);
            && t.up && t.runtime && t.stream.queue.receiver && !t.chan.localClosed && Payload(t.backlog) == []
            && t.swallowed == 0 && t.eaten == 0 && t.uncredited > 0 && t.chan.localWindow == 0
  {
    var s0 := Init(Server, window, window);
    var flood := Flood(QueueCap(Server));
    FloodFills(Server, window, window, QueueCap(Server));
    var full := Run(s0, flood);
    var data := Sevens(full.chan.localWindow);
    HalfOpen(full.chan);
    var t := FullThenEof(full, data);
    RunAppend(s0, flood, [PeerData(data), HandlerRead(1), PeerEof]);
    steps := flood + [PeerData(data), HandlerRead(1), PeerEof];
  }

  function Sevens(n: nat): (b: seq<byte>)
    ensures |b| == n
  {
    if n == 0 then [] else [7] + Sevens(n - 1)
  }
}
