/**
 The dispatcher's per-channel objects and the handler's stream, updated in place, each method proved
 to do what `Ingress` and `Egress` say.
 */
module Runtimes {
  import opened Prelude
  import opened Channels
  import Ingress
  import Egress

  /** One `sync_channel` of inbound chunks, shared by a runtime and a stream. */
  class Mailbox {
    var items: seq<Ingress.Chunk>
    var receiver: bool
    var sender: bool
    const cap: nat

    constructor (cap: nat)
      ensures View() == Ingress.Queue([], cap, true, true)
    {
      this.cap := cap;
      items, receiver, sender := [], true, true;
    }

    function View(): Ingress.Queue
      reads this
    {
      Ingress.Queue(items, cap, receiver, sender)
    }

    method TrySend(c: Ingress.Chunk) returns (push: Ingress.Push)
      modifies this`items
      ensures (View(), push) == Ingress.TrySend(old(View()), c)
    {
      if !receiver {
        push := Ingress.Disconnected;
      } else if |items| >= cap {
        push := Ingress.Full;
      } else {
        items := items + [c];
        push := Ingress.Accepted;
      }
    }
  }

  /** The handler's end of a channel. */
  class ChannelStream {
    const rx: Mailbox
    const tx: Outbox
    var buf: seq<byte>
    var rxEof: bool

    constructor (rx: Mailbox, tx: Outbox)
      ensures this.rx == rx && this.tx == tx && buf == [] && !rxEof
    {
      this.rx, this.tx := rx, tx;
      buf, rxEof := [], false;
    }

    function View(): Ingress.Stream
      reads this, rx
    {
      Ingress.Stream(rx.View(), buf, rxEof)
    }

    /** `MustWait` stands for a call that blocks in `recv`. */
    method Read(n: nat) returns (got: Ingress.Got)
      modifies this, rx`items
      ensures (View(), got) == Ingress.Read(old(View()), n)
      decreases |rx.items|
    {
      if buf != [] {
        var k := Min(n, |buf|);
        got := Ingress.Delivered(buf[..k]);
        buf := buf[k..];
      } else if rxEof {
        got := Ingress.EndOfFile;
      } else if rx.items == [] {
        if rx.sender {
          got := Ingress.MustWait;
        } else {
          rxEof := true;
          got := Ingress.EndOfFile;
        }
      } else {
        var c := rx.items[0];
        rx.items := rx.items[1..];
        if c.Some? {
          buf := c.value;
          got := Read(n);
        } else {
          rxEof := true;
          got := Ingress.EndOfFile;
        }
      }
    }

    /** `send` on the queue, which waits while it is full. */
    method Send(m: Egress.Message) returns (o: Sent)
      modifies tx`items
      ensures o.BrokenPipe? <==> !tx.receiver
      ensures o.Waits? <==> tx.receiver && |old(tx.items)| >= Egress.QUEUE_CAP
      ensures tx.items == old(tx.items) + if o.Queued? then [m] else []
    {
      if !tx.receiver {
        return BrokenPipe;
      }
      if |tx.items| >= Egress.QUEUE_CAP {
        return Waits;
      }
      tx.items := tx.items + [m];
      o := Queued;
    }

    /** Queue up to 32 KiB of `data` and say how much that was. */
    method Write(data: seq<byte>) returns (o: Sent, taken: nat)
      modifies tx`items
      ensures taken == Min(|data|, 32 * 1024)
      ensures o.BrokenPipe? <==> !tx.receiver
      ensures o.Waits? <==> tx.receiver && |old(tx.items)| >= Egress.QUEUE_CAP
      ensures tx.items == old(tx.items) + if o.Queued? then [Egress.Data(data[..taken])] else []
    {
      taken := Min(|data|, 32 * 1024);
      o := Send(Egress.Data(data[..taken]));
    }

    /**
     Dropping the stream announces EOF and then CLOSE, waiting for room for each; `left` is what still
     waits.  Once nothing does, both queues lose this end.
     */
    method Drop() returns (left: seq<Egress.Message>)
      modifies tx, rx
      ensures tx.receiver == old(tx.receiver)
      ensures tx.receiver ==> tx.items + left == old(tx.items) + [Egress.Eof, Egress.Close]
      ensures !tx.receiver ==> tx.items == old(tx.items) && left == []
      ensures left != [] ==> |tx.items| >= Egress.QUEUE_CAP && tx.sender == old(tx.sender)
      ensures left != [] ==> rx.View() == old(rx.View())
      ensures left == [] ==> !tx.sender && rx.View() == old(rx.View()).(items := [], receiver := false)
    {
      var o := Send(Egress.Eof);
      if o.Waits? {
        return [Egress.Eof, Egress.Close];
      }
      o := Send(Egress.Close);
      if o.Waits? {
        return [Egress.Close];
      }
      tx.sender := false;
      rx.items, rx.receiver := [], false;
      left := [];
    }
  }

  /** How a blocking send stands. */
  datatype Sent = Queued | Waits | BrokenPipe

  /** One `sync_channel` of outbound messages. */
  class Outbox {
    var items: seq<Egress.Message>
    var receiver: bool
    var sender: bool

    constructor ()
      ensures items == [] && receiver && sender
    {
      items, receiver, sender := [], true, true;
    }
  }

  /** The connection layer and transport as one channel sees them. */
  class Link {
    var chan: ChannelState
    var wire: seq<Egress.Wire>

    constructor (chan: ChannelState)
      ensures this.chan == chan && wire == []
    {
      this.chan, wire := chan, [];
    }

    /** The loop every emitter runs: what did not fit is returned.  `None`: the channel refused. */
    method Send(extended: bool, bytes: seq<byte>) returns (rest: Option<seq<byte>>)
      modifies this
      ensures match Egress.Emit(old(chan), extended, bytes)
              case Err(_) => rest.None? && chan == old(chan) && wire == old(wire)
              case Ok(e) => rest == Some(e.rest) && chan == e.chan && wire == old(wire) + e.msgs
    {
      var left := bytes;
      ghost var sent: seq<Egress.Wire> := [];
      ghost var all := Egress.Emit(chan, extended, bytes);
      assert all.Ok? ==> [] + all.value.msgs == all.value.msgs;
      while left != []
        invariant wire == old(wire) + sent
        invariant if sent == [] then chan == old(chan) else CanSendData(chan)
        invariant all == Egress.Behind(sent, Egress.Emit(chan, extended, left))
        decreases |left|
      {
        var r := SendData(chan, extended, |left|);
        if r.Err? {
          return None;
        }
        Egress.EmitTurn(sent, chan, extended, left);
        var (next, taken) := r.value;
        if taken == 0 {
          return Some(left);
        }
        var packet := Egress.Packet(extended, left[..taken]);
        chan, wire := next, wire + [packet];
        sent := sent + [packet];
        left := left[taken..];
      }
      rest := Some([]);
    }
  }

  /** The client's runtime for a served channel: inbound side. */
  class ServeRuntime {
    const ingressTx: Mailbox
    var ingressBacklog: seq<Ingress.Chunk>

    constructor (ingressTx: Mailbox)
      ensures this.ingressTx == ingressTx && ingressBacklog == []
    {
      this.ingressTx := ingressTx;
      ingressBacklog := [];
    }

    method OfferIngress(item: Ingress.Chunk) returns (delivered: nat)
      modifies this, ingressTx`items
      ensures Ingress.Parked(ingressBacklog, ingressTx.View(), delivered)
              == Ingress.Offer(Client, old(ingressBacklog), old(ingressTx.View()), item)
    {
      if ingressBacklog != [] {
        ingressBacklog := ingressBacklog + [item];
        return 0;
      }
      var push := ingressTx.TrySend(item);
      match push
      case Accepted =>
        delivered := |Ingress.Bytes(item)|;
      case Full =>
        ingressBacklog := ingressBacklog + [item];
        delivered := 0;
      case Disconnected =>
        ingressBacklog := [];
        delivered := 0;
    }

    method FlushIngress() returns (delivered: nat)
      modifies this, ingressTx`items
      ensures Ingress.Parked(ingressBacklog, ingressTx.View(), delivered)
              == Ingress.Flush(Client, old(ingressBacklog), old(ingressTx.View()))
    {
      delivered := 0;
      while ingressBacklog != []
        invariant var r := Ingress.Flush(Client, ingressBacklog, ingressTx.View());
                  Ingress.Flush(Client, old(ingressBacklog), old(ingressTx.View())) == r.(moved := delivered + r.moved)
        decreases |ingressBacklog|
      {
        var item := ingressBacklog[0];
        var push := ingressTx.TrySend(item);
        match push
        case Accepted =>
          ingressBacklog := ingressBacklog[1..];
          delivered := delivered + |Ingress.Bytes(item)|;
        case Full =>
          return;
        case Disconnected =>
          ingressBacklog := [];
          return;
      }
    }
  }

  /** The server's runtime behind a subsystem or forwarded channel. */
  class SubsystemRuntime {
    const ingressTx: Mailbox
    const egressRx: Outbox
    var pendingIngress: seq<Ingress.Chunk>
    var pendingData: seq<byte>
    var pendingStderr: seq<byte>
    var pendingExit: Option<u32>
    var pendingEof: bool
    var pendingClose: bool
    var eofSent: bool
    var closeSent: bool
    ghost var pulled: seq<Egress.Pulled>

    constructor (ingressTx: Mailbox, egressRx: Outbox)
      ensures this.ingressTx == ingressTx && this.egressRx == egressRx && pendingIngress == [] && pulled == []
      ensures Out() == Egress.Out([], [], None, false, false, false, false)
    {
      this.ingressTx, this.egressRx := ingressTx, egressRx;
      pendingIngress, pendingData, pendingStderr, pendingExit := [], [], [], None;
      pendingEof, pendingClose, eofSent, closeSent := false, false, false, false;
      pulled := [];
    }

    method PushIngress(item: Ingress.Chunk) returns (moved: nat)
      modifies this`pendingIngress, ingressTx`items
      ensures Ingress.Parked(pendingIngress, ingressTx.View(), moved)
              == Ingress.Offer(Server, old(pendingIngress), old(ingressTx.View()), item)
    {
      pendingIngress := pendingIngress + [item];
      moved := FlushIngress();
    }

    method FlushIngress() returns (moved: nat)
      modifies this`pendingIngress, ingressTx`items
      ensures Ingress.Parked(pendingIngress, ingressTx.View(), moved)
              == Ingress.Flush(Server, old(pendingIngress), old(ingressTx.View()))
    {
      moved := 0;
      while pendingIngress != []
        invariant var r := Ingress.Flush(Server, pendingIngress, ingressTx.View());
                  Ingress.Flush(Server, old(pendingIngress), old(ingressTx.View())) == r.(moved := moved + r.moved)
        decreases |pendingIngress|
      {
        var item := pendingIngress[0];
        var push := ingressTx.TrySend(item);
        if push.Full? {
          return;
        }
        pendingIngress := pendingIngress[1..];
        moved := moved + |Ingress.Bytes(item)|;
      }
    }

    function Out(): Egress.Out
      reads this
    {
      Egress.Out(pendingData, pendingStderr, pendingExit, pendingEof, pendingClose, eofSent, closeSent)
    }

    ghost function View(link: Link, up: bool): Egress.Sender
      reads this, link, egressRx
    {
      Egress.Sender(Server, link.chan, Out(), up, egressRx.items, egressRx.sender, link.wire, pulled, Egress.Held)
    }

    /** Ship `bytes`, parking what the window does not take.  `false`: the channel refused. */
    method Emit(link: Link, extended: bool, bytes: seq<byte>) returns (ok: bool)
      modifies this`pendingData, this`pendingStderr, link
      ensures View(link, ok) == Egress.EmitInto(old(View(link, true)), extended, bytes)
    {
      var rest := link.Send(extended, bytes);
      if rest.None? {
        return false;
      }
      if extended {
        pendingStderr := pendingStderr + rest.value;
      } else {
        pendingData := pendingData + rest.value;
      }
      ok := true;
    }

    /** Re-attempt what was parked. */
    method Retry(link: Link) returns (ok: bool)
      modifies this`pendingData, this`pendingStderr, link
      ensures View(link, ok) == Egress.Retry(old(View(link, true)))
    {
      ok := true;
      if pendingData != [] {
        var leftover := pendingData;
        pendingData := [];
        ok := Emit(link, false, leftover);
        if !ok || pendingData != [] {
          return;
        }
      }
      if pendingStderr != [] {
        var leftover := pendingStderr;
        pendingStderr := [];
        ok := Emit(link, true, leftover);
      }
    }

    /** Act on the next message in the handler's queue. */
    method HandleNext(link: Link) returns (ok: bool)
      requires egressRx.items != []
      modifies this, link, egressRx
      ensures pendingIngress == old(pendingIngress)
      ensures View(link, ok) == Egress.Handle(old(View(link, true)))
    {
      var m := egressRx.items[0];
      egressRx.items := egressRx.items[1..];
      ghost var fits := !m.Datagram? || !CanSendData(link.chan) || |m.bytes| <= Capacity(link.chan, false);
      pulled := pulled + [Egress.Pulled(m, fits)];
      ok := true;
      match m
      case Data(bytes) =>
        ok := Emit(link, false, bytes);
      case Stderr(bytes) =>
        ok := Emit(link, true, bytes);
      case ExitStatus(code) =>
        pendingExit := Some(code);
      case Datagram(bytes) =>
        var r := SendDatagram(link.chan, |bytes|);
        if r.Err? {
          ok := false;
        } else if r.value.Some? {
          link.chan, link.wire := r.value.value, link.wire + [Egress.WData(bytes)];
        }
      case Eof =>
        pendingEof := true;
      case Close =>
        pendingClose := true;
    }

    /** One turn of the pulling loop; `done` when it was the last. */
    method PullOne(link: Link) returns (ok: bool, done: bool)
      requires pendingData == [] && pendingStderr == []
      modifies this, link, egressRx
      ensures pendingIngress == old(pendingIngress)
      ensures done ==> View(link, ok) == Egress.Pull(old(View(link, true)))
      ensures !done ==> Egress.Pull(View(link, ok)) == Egress.Pull(old(View(link, true)))
      ensures !done ==> |egressRx.items| < |old(egressRx.items)|
    {
      if egressRx.items == [] {
        if !egressRx.sender {
          pendingClose := true;
        }
        return true, true;
      }
      done := egressRx.items[0].Eof? || egressRx.items[0].Close?;
      ok := HandleNext(link);
    }

    /** Pull messages until one parks, a marker is met, or there are none. */
    method Pull(link: Link) returns (ok: bool)
      modifies this, link, egressRx
      ensures pendingIngress == old(pendingIngress)
      ensures View(link, ok) == Egress.Pull(old(View(link, true)))
    {
      ok := true;
      var done := false;
      while !done && ok && pendingData == [] && pendingStderr == []
        invariant pendingIngress == old(pendingIngress)
        invariant done ==> View(link, ok) == Egress.Pull(old(View(link, true)))
        invariant !done ==> Egress.Pull(View(link, ok)) == Egress.Pull(old(View(link, true)))
        decreases !done, |egressRx.items|
      {
        ok, done := PullOne(link);
      }
    }

    /** Exit status, EOF and CLOSE, once all output has left. */
    method Finish(link: Link) returns (ok: bool)
      modifies this`pendingExit, this`eofSent, this`closeSent, link
      ensures View(link, ok) == Egress.Finish(old(View(link, true)))
    {
      ok := true;
      if pendingData != [] || pendingStderr != [] {
        return;
      }
      if pendingExit.Some? {
        if !Sendable(link.chan) {
          return false;
        }
        link.wire := link.wire + [Egress.WExit(pendingExit.value)];
        pendingExit := None;
      }
      if (pendingEof || pendingClose) && !eofSent {
        var r := SendEof(link.chan);
        if r.Err? {
          return false;
        }
        link.chan, link.wire := r.value, link.wire + [Egress.WEof];
        eofSent := true;
      }
      if pendingClose && !closeSent {
        var r := SendClose(link.chan);
        if r.Err? {
          return false;
        }
        link.chan, link.wire := r.value, link.wire + [Egress.WClose];
        closeSent := true;
      }
    }

    /** The egress part of one tick. */
    method Drain(link: Link) returns (ok: bool)
      modifies this, link, egressRx
      ensures pendingIngress == old(pendingIngress)
      ensures View(link, ok) == Egress.Tick(old(View(link, true)))
    {
      if closeSent {
        return true;
      }
      ok := Retry(link);
      if pendingData != [] || pendingStderr != [] || !ok {
        return;
      }
      ok := Pull(link);
      if ok {
        ok := Finish(link);
      }
    }
  }
}
