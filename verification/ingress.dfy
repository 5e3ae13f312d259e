/**
 The receiving half of a channel: peer window, dispatcher backlog, bounded queue, stream buffer and
 handler.  `Client` is the runtime of `Client::serve`, `Server` the one behind subsystems and
 forwarded channels; they differ in when a chunk is retried and in what a departed handler costs.
 */
module Ingress {
  import opened Prelude
  import opened Channels

  /** A chunk of peer data, or `None` for the end-of-file marker. */
  type Chunk = Option<seq<byte>>

  /** A bounded mpsc queue and which of its ends still exist. */
  datatype Queue = Queue(items: seq<Chunk>, cap: nat, receiver: bool, sender: bool)

  datatype Push = Accepted | Full | Disconnected

  function TrySend(q: Queue, c: Chunk): (Queue, Push) {
    if !q.receiver then (q, Disconnected)
    else if |q.items| >= q.cap then (q, Full)
    else (q.(items := q.items + [c]), Accepted)
  }

  function Bytes(c: Chunk): seq<byte> {
    if c.Some? then c.value else []
  }

  /** The data bytes of a run of chunks, in order. */
  function Payload(cs: seq<Chunk>): seq<byte> {
    if cs == [] then [] else Bytes(cs[0]) + Payload(cs[1..])
  }

  lemma {:induction false} PayloadAppend(a: seq<Chunk>, b: seq<Chunk>)
    ensures Payload(a + b) == Payload(a) + Payload(b)
  {
    if a == [] {
      assert a + b == b;
    } else {
      assert (a + b)[1..] == a[1..] + b;
      PayloadAppend(a[1..], b);
    }
  }

  /** The backlog and queue after some chunks were handed over, and the bytes that may be credited. */
  datatype Parked = Parked(backlog: seq<Chunk>, queue: Queue, moved: nat)

  /** `flush_ingress` of either runtime. */
  function Flush(side: Side, backlog: seq<Chunk>, q: Queue): Parked {
    if backlog == [] then Parked(backlog, q, 0)
    else
      var (q', push) := TrySend(q, backlog[0]);
      match push
      case Full => Parked(backlog, q, 0)
      case Disconnected =>
        if side.Client? then Parked([], q, 0)
        else
          var rest := Flush(side, backlog[1..], q);
          rest.(moved := |Bytes(backlog[0])| + rest.moved)
      case Accepted =>
        var rest := Flush(side, backlog[1..], q');
        rest.(moved := |Bytes(backlog[0])| + rest.moved)
  }

  /** `offer_ingress` of the client, `push_ingress` of the server. */
  function Offer(side: Side, backlog: seq<Chunk>, q: Queue, c: Chunk): Parked {
    if side.Server? then Flush(side, backlog + [c], q)
    else if backlog != [] then Parked(backlog + [c], q, 0)
    else
      var (q', push) := TrySend(q, c);
      match push
      case Accepted => Parked(backlog, q', |Bytes(c)|)
      case Full => Parked(backlog + [c], q, 0)
      case Disconnected => Parked([], q, 0)
  }

  /** What became of `all` chunks that were waiting or just arrived, in front of queue `q`. */
  ghost predicate Handed(side: Side, all: seq<Chunk>, q: Queue, r: Parked) {
    && r.queue == q.(items := r.queue.items)
    && (q.receiver ==> r.queue.items + r.backlog == q.items + all && q.items <= r.queue.items
                       && r.moved + |Payload(r.backlog)| == |Payload(all)|)
    && (!q.receiver ==> r.queue == q
                        && (side.Client? ==> r.moved == 0 && (r.backlog == [] || r.backlog == all))
                        && (side.Server? ==> r.backlog == [] && r.moved == |Payload(all)|))
    && (|q.items| <= q.cap ==> |r.queue.items| <= q.cap)
  }

  /** With the handler there, flushing loses, repeats and reorders nothing, and stops only when full. */
  lemma {:induction false} FlushHands(side: Side, backlog: seq<Chunk>, q: Queue)
    ensures var r := Flush(side, backlog, q);
            && Handed(side, backlog, q, r)
            && (r.backlog != [] ==> q.receiver && |r.queue.items| >= q.cap)
  {
    if backlog != [] {
      var (q', push) := TrySend(q, backlog[0]);
      assert backlog == [backlog[0]] + backlog[1..];
      if !push.Full? {
        FlushHands(side, backlog[1..], q');
        assert q.items + backlog == (q.items + [backlog[0]]) + backlog[1..];
      }
    }
  }

  lemma OfferHands(side: Side, backlog: seq<Chunk>, q: Queue, c: Chunk)
    ensures Handed(side, backlog + [c], q, Offer(side, backlog, q, c))
  {
    FlushHands(side, backlog + [c], q);
    PayloadAppend(backlog, [c]);
    assert Payload([c]) == Bytes(c);
  }

  // --- The handler's end ---------------------------------------------------------------------

  datatype Stream = Stream(queue: Queue, buf: seq<byte>, rxEof: bool)

  datatype Got = MustWait | Delivered(bytes: seq<byte>) | EndOfFile

  /** `ChannelStream::read` into `n` bytes.  `MustWait`: the call waits, having skipped empty chunks. */
  function Read(st: Stream, n: nat): (Stream, Got)
    decreases |st.queue.items|
  {
    if st.buf != [] then
      var k := Min(n, |st.buf|);
      (st.(buf := st.buf[k..]), Delivered(st.buf[..k]))
    else if st.rxEof then (st, EndOfFile)
    else if st.queue.items == [] then
      if st.queue.sender then (st, MustWait) else (st.(rxEof := true), EndOfFile)
    else
      var rest := st.queue.(items := st.queue.items[1..]);
      match st.queue.items[0]
      case None => (st.(queue := rest, rxEof := true), EndOfFile)
      case Some(chunk) => Read(st.(queue := rest, buf := chunk), n)
  }

  /** A read took `got` off the front, consuming some chunks; end of file needs a marker or no sender. */
  ghost predicate TookFront(st: Stream, st': Stream, got: Got) {
    var taken := |st.queue.items| - |st'.queue.items|;
    && taken >= 0
    && st'.queue == st.queue.(items := st.queue.items[taken..])
    && (if got.Delivered? then got.bytes else []) + st'.buf + Payload(st'.queue.items)
       == st.buf + Payload(st.queue.items)
    && (got.EndOfFile? ==> st'.rxEof && st'.buf == [])
    && (st'.rxEof && !st.rxEof ==>
          && got.EndOfFile?
          && ((taken > 0 && st.queue.items[taken - 1] == None) || (st'.queue.items == [] && !st.queue.sender)))
    && (got.MustWait? ==> st'.buf == [] && st'.queue.items == [] && st.queue.sender && !st'.rxEof)
    && (st.rxEof ==> st'.rxEof)
  }

  lemma {:induction false} ReadTakesFront(st: Stream, n: nat)
    ensures TookFront(st, Read(st, n).0, Read(st, n).1)
    decreases |st.queue.items|
  {
    if st.buf == [] && !st.rxEof && st.queue.items != [] && st.queue.items[0].Some? {
      var mid := st.(queue := st.queue.(items := st.queue.items[1..]), buf := st.queue.items[0].value);
      ReadTakesFront(mid, n);
    }
  }

  /** No chunk over `limit`; a marker only if `eof`, and no data behind it. */
  ghost predicate Legal(cs: seq<Chunk>, eof: bool, limit: nat) {
    cs == [] ||
    (&& |Bytes(cs[0])| <= limit
     && (cs[0] == None ==> eof && Payload(cs[1..]) == [])
     && Legal(cs[1..], eof, limit))
  }

  lemma {:induction false} LegalSplit(a: seq<Chunk>, b: seq<Chunk>, eof: bool, limit: nat)
    requires Legal(a + b, eof, limit)
    ensures Legal(a, eof, limit) && Legal(b, eof, limit)
    ensures None in a ==> eof && Payload(b) == []
  {
    if a == [] {
      assert a + b == b;
    } else {
      assert (a + b)[1..] == a[1..] + b;
      LegalSplit(a[1..], b, eof, limit);
      PayloadAppend(a[1..], b);
    }
  }

  lemma {:induction false} LegalAfterEof(cs: seq<Chunk>, eof: bool, limit: nat)
    requires Legal(cs, eof, limit)
    ensures Legal(cs, true, limit)
  {
    if cs != [] { LegalAfterEof(cs[1..], eof, limit); }
  }

  lemma {:induction false} LegalSnoc(a: seq<Chunk>, c: Chunk, was: bool, eof: bool, limit: nat)
    requires Legal(a, was, limit) && |Bytes(c)| <= limit
    requires if c == None then eof else was == eof == false
    ensures Legal(a + [c], eof, limit)
  {
    if a != [] {
      assert (a + [c])[1..] == a[1..] + [c];
      LegalSnoc(a[1..], c, was, eof, limit);
      PayloadAppend(a[1..], [c]);
    }
  }

  lemma {:induction false} ReadFits(st: Stream, n: nat, eof: bool, limit: nat)
    requires |st.buf| <= limit && Legal(st.queue.items, eof, limit)
    ensures |Read(st, n).0.buf| <= limit
    decreases |st.queue.items|
  {
    if st.buf == [] && !st.rxEof && st.queue.items != [] && st.queue.items[0].Some? {
      ReadFits(st.(queue := st.queue.(items := st.queue.items[1..]), buf := st.queue.items[0].value), n, eof, limit);
    }
  }
}
