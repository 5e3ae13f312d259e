/**
 A shell session's output: bytes read from the process, what the window let through, what is held
 over, and the announcement of the exit.
 */
module Shells {
  import opened Prelude
  import opened Channels
  import opened Egress
  import Runtimes

  /** `SHELL_EGRESS_BACKLOG`, the read buffer and the most read in one tick. */
  const BACKLOG := 4 * 1024 * 1024
  const BUFFER := 8 * 1024
  const PER_TICK := 64 * 1024

  datatype Status = Exited(code: u32) | Signalled(name: string, coreDumped: bool, message: string)

  /** The process behind the session: output it has written and we have not read, and its end. */
  datatype Process = Process(unread: seq<byte>, exit: Option<Status>)

  /** One answer of the session's `read`: at most `n` bytes, none meaning "nothing right now". */
  datatype Answer = Got(n: nat) | Failed

  /**
   `held`: the dispatcher still has the runtime; `live`: and in it the session.  Once the runtime is dropped
   `pending` is what went with it.  `wire`, `got` and `written` are histories.
   */
  datatype Shell = Shell(
    chan: ChannelState, held: bool, live: bool, exited: Option<Status>, exitSent: bool, pending: seq<byte>, up: bool,
    process: Process, wire: seq<Wire>, got: seq<byte>, written: seq<byte>)

  // --- One tick ------------------------------------------------------------------------------

  /** `emit_channel_data`. */
  function EmitOut(s: Shell, bytes: seq<byte>): Shell {
    match Emit(s.chan, false, bytes)
    case Err(_) => s.(up := false)
    case Ok(e) => s.(chan := e.chan, wire := s.wire + e.msgs, pending := s.pending + e.rest)
  }

  function Flush(s: Shell): Shell {
    if s.pending == [] then s else EmitOut(s.(pending := []), s.pending)
  }

  /** Bytes a read returns. */
  function Chunk(s: Shell, n: nat): (b: seq<byte>)
    ensures b <= s.process.unread && |b| <= BUFFER
  {
    s.process.unread[..Min(Min(n, BUFFER), |s.process.unread|)]
  }

  function Fetch(s: Shell, n: nat): Shell {
    s.(process := s.process.(unread := s.process.unread[|Chunk(s, n)|..]), got := s.got + Chunk(s, n))
  }

  function Turn(s: Shell, n: nat): Shell {
    EmitOut(Fetch(s, n), Chunk(s, n))
  }

  /** Read and emit until the backlog, the tick's allowance or the process says stop. */
  function PullFresh(s: Shell, answers: seq<Answer>, pulled: nat): Shell
    decreases |answers|
  {
    if !s.up || |s.pending| >= BACKLOG || pulled >= PER_TICK || answers == [] then s
    else
      match answers[0]
      case Failed => s.(up := false)
      case Got(n) =>
        if Chunk(s, n) == [] then s
        else PullFresh(Turn(s, n), answers[1..], pulled + |Chunk(s, n)|)
  }

  function Poll(s: Shell): Shell {
    if s.up && s.exited.None? then s.(exited := s.process.exit) else s
  }

  /** `drain_shells` for one channel; `answers` is how the process answers, then "nothing". */
  function DrainTick(s: Shell, answers: seq<Answer>): Shell {
    if !s.up || !s.live then s else Poll(PullFresh(Flush(s), answers, 0))
  }

  function Announcement(st: Status): Wire {
    match st
    case Exited(code) => WExit(code)
    case Signalled(name, core, message) => WSignal(name, core, message)
  }

  /** `finalize_exited_shells` for one channel. */
  function Finalize(s: Shell): Shell {
    if !s.up || !s.held || s.exitSent || s.pending != [] || s.exited.None? then s
    else if !Sendable(s.chan) then s.(exited := None, up := false)
    else
      s.(chan := s.chan.(localEof := true, localClosed := true), exited := None, exitSent := true, live := false,
         wire := s.wire + [Announcement(s.exited.value), WEof, WClose])
  }

  /** The peer's CLOSE is dispatched: ours answers it, unless it is out already, and the runtime goes. */
  function OnPeerClose(s: Shell): Shell {
    if s.chan.localClosed && s.chan.remoteClosed then s
    else
      s.(chan := s.chan.(remoteClosed := true, localClosed := true), held := false, live := false,
         wire := if s.chan.localClosed then s.wire else s.wire + [WClose])
  }

  /** `close_idle_channels`. */
  function OnIdleClose(s: Shell): Shell {
    if !Sendable(s.chan) then s
    else
      s.(chan := s.chan.(localEof := true, localClosed := true), held := false, live := false,
         wire := s.wire + if s.chan.localEof then [WClose] else [WEof, WClose])
  }

  // --- Runs ----------------------------------------------------------------------------------

  /** `Swallowed` is `CloseSwallowed` of `Egress`: the peer's CLOSE reached the connection layer and no one else. */
  datatype Step =
    | Writes(b: seq<byte>)
    | Exits(st: Status)
    | Adjust(n: u32)
    | Swallowed
    | PeerCloses
    | IdleCloses
    | Draining(answers: seq<Answer>)
    | Finalizing

  function Next(s: Shell, step: Step): Shell {
    match step
    case Writes(b) => s.(process := s.process.(unread := s.process.unread + b), written := s.written + b)
    case Exits(st) => if s.process.exit.Some? then s else s.(process := s.process.(exit := Some(st)))
    case Adjust(n) => s.(chan := OnWindowAdjust(s.chan, n))
    case Swallowed => if s.up then s.(chan := s.chan.(remoteClosed := true)) else s
    case PeerCloses => if s.up then OnPeerClose(s) else s
    case IdleCloses => if s.up then OnIdleClose(s) else s
    case Draining(answers) => DrainTick(s, answers)
    case Finalizing => Finalize(s)
  }

  function Run(s: Shell, steps: seq<Step>): Shell
    decreases |steps|
  {
    if steps == [] then s else Next(Run(s, steps[..|steps| - 1]), steps[|steps| - 1])
  }

  function Init(window: u32, maxPacket: u32): Shell {
    Shell(ChannelState(0, window, 0, maxPacket, false, false, false, false, 0, 0),
          true, true, None, false, [], true, Process([], None), [], [], [])
  }

  // --- What every run keeps ------------------------------------------------------------------

  /** Bytes sent, then bytes held over, are the bytes read; those read, then those unread, all there were. */
  ghost predicate InOrder(s: Shell) {
    && (s.up || !s.chan.remoteClosed ==> Shipped(s.wire) + Tag(false, s.pending) == Tag(false, s.got))
    && Shipped(s.wire) <= Tag(false, s.got)
    && s.got + s.process.unread == s.written
  }

  ghost predicate Ended(s: Shell, packets: seq<Wire>, st: Status) {
    s.wire == packets + [Announcement(st), WEof, WClose] && AllPayload(packets) && s.process.exit == Some(st)
  }

  /** The channel was closed before any exit was announced: with an EOF if it was closed idle. */
  ghost predicate CutShort(s: Shell, packets: seq<Wire>) {
    s.wire == packets + (if s.chan.localEof then [WEof, WClose] else [WClose]) && AllPayload(packets)
  }

  /** Data packets only, until one announcement of the process's exit closes the channel, or something else does. */
  ghost predicate Lifecycle(s: Shell) {
    && s.chan.localClosed == (s.exitSent || !s.held) && (s.held ==> s.chan.localEof == s.exitSent)
    && s.live == (s.held && !s.exitSent)
    && (s.chan.localClosed ==> s.up) && (s.exitSent ==> s.chan.localEof)
    && (s.exited.Some? ==> s.exited == s.process.exit)
    && (!s.chan.localClosed ==> AllPayload(s.wire))
    && (s.exitSent ==> s.pending == [] && s.exited.None? && exists packets, st :: Ended(s, packets, st))
    && (!s.exitSent && !s.held ==> exists packets :: CutShort(s, packets))
  }

  ghost predicate Inv(s: Shell) {
    InOrder(s) && Lifecycle(s) && |s.pending| < BACKLOG + BUFFER
  }

  /** Held-over bytes mean the window is spent, so newer bytes cannot overtake them. */
  ghost predicate Stalled(s: Shell) {
    s.pending != [] ==> Capacity(s.chan, false) == 0
  }

  lemma NoRoom(chan: ChannelState, bytes: seq<byte>)
    requires CanSendData(chan) && Capacity(chan, false) == 0
    ensures Emit(chan, false, bytes) == Ok(Emitted(chan, [], bytes))
  {
  }

  lemma EmitStaysOpen(s: Shell, bytes: seq<byte>)
    requires s.up && CanSendData(s.chan) && Stalled(s)
    ensures var t := EmitOut(s, bytes);
            && t == s.(chan := t.chan, wire := t.wire, pending := t.pending)
            && t.chan == s.chan.(remoteWindow := t.chan.remoteWindow)
            && Stalled(t) && |t.pending| <= |s.pending| + |bytes|
  {
    EmitChannel(s.chan, false, bytes);
    if s.pending != [] { NoRoom(s.chan, bytes); }
  }

  lemma {:induction false} EmitInOrder(s: Shell, bytes: seq<byte>)
    requires s.up && CanSendData(s.chan) && Stalled(s) && AllPayload(s.wire)
    ensures var t := EmitOut(s, bytes);
            && AllPayload(t.wire)
            && Shipped(t.wire) + Tag(false, t.pending)
               == (Shipped(s.wire) + Tag(false, s.pending)) + Tag(false, bytes)
  {
    if s.pending != [] {
      NoRoom(s.chan, bytes);
      assert s.wire + [] == s.wire;
      TagAppend(false, s.pending, bytes);
      Assoc(Shipped(s.wire), Tag(false, s.pending), Tag(false, bytes));
    } else {
      EmitChannel(s.chan, false, bytes);
      EmitSplits(s.chan, false, bytes);
      var e := Emit(s.chan, false, bytes).value;
      ShippedAppend(s.wire, e.msgs);
      assert [] + e.rest == e.rest;
      Assoc(Shipped(s.wire), Shipped(e.msgs), Tag(false, e.rest));
      assert Shipped(s.wire) + [] == Shipped(s.wire);
    }
  }

  /** The middle of a drain: still open, nothing lost, nothing out of order. */
  ghost predicate Draws(s: Shell) {
    && s.live && CanSendData(s.chan) && Stalled(s) && AllPayload(s.wire)
    && |s.pending| < BACKLOG + BUFFER && InOrder(s)
  }

  lemma {:induction false} FlushDraws(s: Shell)
    requires Inv(s) && s.up && s.live && !s.chan.remoteClosed
    ensures Draws(Flush(s)) && Flush(s).up && Same(s, Flush(s))
  {
    if s.pending != [] {
      var bare := s.(pending := []);
      EmitStaysOpen(bare, s.pending);
      EmitInOrder(bare, s.pending);
      assert Shipped(s.wire) + Tag(false, []) == Shipped(s.wire);
    }
  }

  /** The fields a drain leaves alone while the connection is up. */
  ghost predicate Same(s: Shell, t: Shell) {
    && t.live == s.live && t.held == s.held && t.exited == s.exited && t.exitSent == s.exitSent
    && t.process.exit == s.process.exit && t.written == s.written
    && t.chan == s.chan.(remoteWindow := t.chan.remoteWindow)
  }

  lemma {:induction false} FetchDraws(s: Shell, n: nat)
    requires Draws(s) && s.up && |s.pending| < BACKLOG
    ensures Draws(Turn(s, n)) && Turn(s, n).up && Same(s, Turn(s, n))
  {
    EmitStaysOpen(Fetch(s, n), Chunk(s, n));
    EmitInOrder(Fetch(s, n), Chunk(s, n));
    FetchInOrder(s, n);
  }

  /** A read moves bytes from the front of what is unread to the back of what was got. */
  lemma FetchInOrder(s: Shell, n: nat)
    ensures Fetch(s, n).got + Fetch(s, n).process.unread == s.got + s.process.unread
    ensures Tag(false, Fetch(s, n).got) == Tag(false, s.got) + Tag(false, Chunk(s, n))
  {
    var b := Chunk(s, n);
    TagAppend(false, s.got, b);
    assert s.process.unread == b + s.process.unread[|b|..];
    assert (s.got + b) + s.process.unread[|b|..] == s.got + s.process.unread;
  }

  predicate Continues(s: Shell, answers: seq<Answer>, pulled: nat) {
    && s.up && |s.pending| < BACKLOG && pulled < PER_TICK && answers != []
    && answers[0].Got? && Chunk(s, answers[0].n) != []
  }

  /** How many reads a tick makes. */
  function Asked(s: Shell, answers: seq<Answer>, pulled: nat): (k: nat)
    ensures k <= |answers|
    decreases |answers|
  {
    if !s.up || |s.pending| >= BACKLOG || pulled >= PER_TICK || answers == [] then 0
    else if Continues(s, answers, pulled) then
      1 + Asked(Turn(s, answers[0].n), answers[1..], pulled + |Chunk(s, answers[0].n)|)
    else 1
  }

  lemma {:induction false} PullDraws(s: Shell, answers: seq<Answer>, pulled: nat)
    requires Draws(s) && s.up
    ensures Same(s, PullFresh(s, answers, pulled)) && Draws(PullFresh(s, answers, pulled))
    decreases |answers|
  {
    if Continues(s, answers, pulled) {
      FetchDraws(s, answers[0].n);
      PullDraws(Turn(s, answers[0].n), answers[1..], pulled + |Chunk(s, answers[0].n)|);
    }
  }

  /** On an open channel only a failing read ends the connection. */
  lemma {:induction false} PullFails(s: Shell, answers: seq<Answer>, pulled: nat)
    requires Ready(s)
    ensures !PullFresh(s, answers, pulled).up <==> Failed in answers[..Asked(s, answers, pulled)]
    decreases |answers|
  {
    if Continues(s, answers, pulled) {
      var (t, more) := (Turn(s, answers[0].n), pulled + |Chunk(s, answers[0].n)|);
      TurnReady(s, answers[0].n);
      PullFails(t, answers[1..], more);
      FailsLater(answers, Asked(t, answers[1..], more));
      assert PullFresh(s, answers, pulled) == PullFresh(t, answers[1..], more);
      assert Asked(s, answers, pulled) == 1 + Asked(t, answers[1..], more);
    }
  }

  lemma FailsLater(answers: seq<Answer>, k: nat)
    requires answers != [] && answers[0].Got? && k < |answers|
    ensures Failed in answers[..1 + k] <==> Failed in answers[1..][..k]
  {
    assert answers[..1 + k] == [answers[0]] + answers[1..][..k];
  }

  /** With the peer's CLOSE swallowed, a drain survives only if it has nothing to send. */
  predicate CutOff(s: Shell, answers: seq<Answer>) {
    s.pending != [] || (answers != [] && (answers[0].Failed? || Chunk(s, answers[0].n) != []))
  }

  /** What such a drain comes to: held-over output, or the first output read, is lost with the connection. */
  function ClosedTick(s: Shell, answers: seq<Answer>): Shell {
    if s.pending != [] then s.(pending := [], up := false)
    else if !CutOff(s, answers) then Poll(s)
    else if answers[0].Failed? then s.(up := false)
    else Fetch(s, answers[0].n).(up := false)
  }

  lemma {:induction false} ClosedDrainIs(s: Shell, answers: seq<Answer>)
    requires s.up && s.live && s.chan.remoteClosed
    ensures DrainTick(s, answers) == ClosedTick(s, answers)
  {
    EmitChannel(s.chan, false, s.pending);
    if s.pending == [] && answers != [] && answers[0].Got? {
      var n := answers[0].n;
      EmitChannel(s.chan, false, Chunk(s, n));
      if Chunk(s, n) != [] {
        var t := Turn(s, n);
        assert t == Fetch(s, n).(up := false);
        assert PullFresh(t, answers[1..], |Chunk(s, n)|) == t;
        assert PullFresh(s, answers, 0) == t;
      }
    }
  }

  lemma {:induction false} ClosedDrain(s: Shell, answers: seq<Answer>)
    requires Inv(s) && s.up && s.live && s.chan.remoteClosed
    ensures Inv(DrainTick(s, answers)) && (!DrainTick(s, answers).up <==> CutOff(s, answers))
  {
    ClosedDrainIs(s, answers);
    if s.pending == [] && answers != [] && answers[0].Got? { FetchInOrder(s, answers[0].n); }
  }

  /** Which steps end the connection. */
  predicate Ends(s: Shell, step: Step) {
    match step
    case Draining(answers) =>
      && s.live
      && if s.chan.remoteClosed then CutOff(s, answers) else Failed in answers[..Asked(Flush(s), answers, 0)]
    case Finalizing => s.held && !s.exitSent && s.pending == [] && s.exited.Some? && s.chan.remoteClosed
    case _ => false
  }

  lemma {:induction false} DrainKeeps(s: Shell, answers: seq<Answer>)
    requires Inv(s)
    ensures Inv(DrainTick(s, answers))
    ensures s.up ==> (!DrainTick(s, answers).up <==> Ends(s, Draining(answers)))
  {
    if s.up && s.live {
      if s.chan.remoteClosed {
        ClosedDrain(s, answers);
      } else {
        FlushDraws(s);
        PullDraws(Flush(s), answers, 0);
        PullFails(Flush(s), answers, 0);
      }
    }
  }

  lemma {:induction false} NoPayload(ws: seq<Wire>)
    requires forall w | w in ws :: Carries(w) == []
    ensures Shipped(ws) == []
  {
    if ws != [] {
      assert ws[0] in ws;
      NoPayload(ws[1..]);
    }
  }

  lemma {:induction false} FinalizeKeeps(s: Shell)
    requires Inv(s)
    ensures Inv(Finalize(s))
    ensures s.up ==> (!Finalize(s).up <==> Ends(s, Finalizing))
  {
    var t := Finalize(s);
    if t.exitSent && !s.exitSent {
      var st := s.exited.value;
      var last := [Announcement(st), WEof, WClose];
      ShippedAppend(s.wire, last);
      NoPayload(last);
      assert Shipped(s.wire) + [] == Shipped(s.wire);
      assert Ended(t, s.wire, st);
    }
  }

  lemma WritesKeeps(s: Shell, b: seq<byte>)
    requires Inv(s)
    ensures Inv(Next(s, Writes(b)))
  {
    var t := Next(s, Writes(b));
    assert s.got + (s.process.unread + b) == (s.got + s.process.unread) + b;
    Carried(s, t);
  }

  lemma Carried(s: Shell, t: Shell)
    requires Lifecycle(s) && t.wire == s.wire && t.exited == s.exited && t.exitSent == s.exitSent
    requires t.live == s.live && t.held == s.held && t.pending == s.pending && t.up == s.up
    requires t.chan == s.chan.(remoteWindow := t.chan.remoteWindow, remoteClosed := t.chan.remoteClosed)
    requires s.process.exit.None? || t.process.exit == s.process.exit
    ensures Lifecycle(t)
  {
    if s.exitSent {
      var packets, st :| Ended(s, packets, st);
      assert Ended(t, packets, st);
    } else if !s.held {
      var packets :| CutShort(s, packets);
      assert CutShort(t, packets);
    }
  }

  /** Closing, for whatever reason, sends what it sends and leaves the rest where it is. */
  lemma {:induction false} ClosesKeep(s: Shell)
    requires Inv(s) && s.up
    ensures Inv(OnPeerClose(s)) && Inv(OnIdleClose(s))
  {
    if s.chan.localClosed {
      CloseAgain(s);
    } else {
      CloseNow(s, OnPeerClose(s), [WClose]);
      if Sendable(s.chan) { CloseNow(s, OnIdleClose(s), [WEof, WClose]); }
    }
  }

  lemma CloseAgain(s: Shell)
    requires Inv(s) && s.up && s.chan.localClosed
    ensures Inv(OnPeerClose(s))
  {
    var t := OnPeerClose(s);
    if s.exitSent {
      var packets, st :| Ended(s, packets, st);
      assert Ended(t, packets, st);
    } else {
      var packets :| CutShort(s, packets);
      assert CutShort(t, packets);
    }
  }

  lemma {:induction false} CloseNow(s: Shell, t: Shell, last: seq<Wire>)
    requires Inv(s) && s.up && !s.chan.localClosed && last == if t.chan.localEof then [WEof, WClose] else [WClose]
    requires t == s.(chan := t.chan, held := false, live := false, wire := s.wire + last) && t.chan.localClosed
    ensures Inv(t)
  {
    NoPayload(last);
    ShippedAppend(s.wire, last);
    assert Shipped(s.wire) + [] == Shipped(s.wire);
    assert CutShort(t, s.wire);
  }

  lemma {:induction false} NextKeeps(s: Shell, step: Step)
    requires Inv(s)
    ensures Inv(Next(s, step))
    ensures s.up ==> (!Next(s, step).up <==> Ends(s, step))
  {
    match step
    case Writes(b) => WritesKeeps(s, b);
    case Draining(answers) => DrainKeeps(s, answers);
    case Finalizing => FinalizeKeeps(s);
    case PeerCloses => if s.up { ClosesKeep(s); }
    case IdleCloses => if s.up { ClosesKeep(s); }
    case _ => Carried(s, Next(s, step));
  }

  lemma {:induction false} RunKeeps(s: Shell, steps: seq<Step>)
    requires Inv(s)
    ensures Inv(Run(s, steps))
    decreases |steps|
  {
    if steps != [] {
      RunKeeps(s, steps[..|steps| - 1]);
      NextKeeps(Run(s, steps[..|steps| - 1]), steps[|steps| - 1]);
    }
  }

  ghost predicate Reachable(s: Shell) {
    exists window, maxPacket, steps :: s == Run(Init(window, maxPacket), steps)
  }

  lemma {:induction false} ReachableInv(s: Shell)
    requires Reachable(s)
    ensures Inv(s)
  {
    var window, maxPacket, steps :| s == Run(Init(window, maxPacket), steps);
    RunKeeps(Init(window, maxPacket), steps);
  }

  // --- Main results --------------------------------------------------------------------------

  /**
   In every run: sent, then held over, is what was read, unless output was thrown away with the
   connection over a swallowed CLOSE; even then a prefix was sent.  And little is ever held over.
   */
  lemma OutputInOrder(s: Shell)
    requires Reachable(s)
    ensures s.up || !s.chan.remoteClosed ==> Shipped(s.wire) + Tag(false, s.pending) == Tag(false, s.got)
    ensures Shipped(s.wire) <= Tag(false, s.got)
    ensures s.got <= s.written
    ensures |s.pending| < BACKLOG + BUFFER
  {
    ReachableInv(s);
  }

  /** The exit goes out once, whole, with the process's own status, after every byte read; then silence. */
  lemma ExitIsLast(s: Shell, step: Step)
    requires Reachable(s) && s.exitSent
    ensures exists packets, st :: Ended(s, packets, st) && Shipped(packets) == Tag(false, s.got)
    ensures Next(s, step).wire == s.wire && Next(s, step).got == s.got
  {
    ReachableInv(s);
    var packets, st :| Ended(s, packets, st);
    var last := [Announcement(st), WEof, WClose];
    NoPayload(last);
    ShippedAppend(packets, last);
    assert Shipped(packets) + [] == Shipped(packets);
    assert Tag(false, s.pending) == [];
    assert Shipped(s.wire) + [] == Shipped(s.wire);
  }

  /**
   Before that, only data, exactly as long as nothing else closed the channel; so an exit, an EOF or a CLOSE
   on the wire is part of the one announcement, or the EOF and CLOSE of an idle channel, or the CLOSE that
   answers the peer's.
   */
  lemma OnlyDataBefore(s: Shell)
    requires Reachable(s) && !s.exitSent
    ensures AllPayload(s.wire) <==> s.held
    ensures !s.held ==> exists packets :: CutShort(s, packets)
  {
    ReachableInv(s);
    if !s.held {
      var packets :| CutShort(s, packets);
      assert s.wire[|s.wire| - 1] == WClose;
      assert WClose in s.wire;
    }
  }

  /** A channel closed before the exit was announced stays as it is: the exit never is. */
  lemma {:induction false} NeverAnnounced(s: Shell, steps: seq<Step>)
    requires Inv(s) && !s.held && !s.exitSent
    ensures var t := Run(s, steps); !t.held && !t.exitSent && t.wire == s.wire && t.got == s.got
    decreases |steps|
  {
    if steps != [] {
      NeverAnnounced(s, steps[..|steps| - 1]);
      RunKeeps(s, steps[..|steps| - 1]);
      DroppedStays(Run(s, steps[..|steps| - 1]), steps[|steps| - 1]);
    }
  }

  lemma DroppedStays(s: Shell, step: Step)
    requires Lifecycle(s) && !s.held && !s.exitSent
    ensures var t := Next(s, step); !t.held && !t.exitSent && t.wire == s.wire && t.got == s.got
  {
  }

  /** The process has written and ended; the channel is closed first, by the peer or for idleness. */
  lemma {:induction false} ClosedBeforeExit(window: u32, maxPacket: u32, b: seq<byte>, st: Status, idle: bool)
    ensures var s := Run(Init(window, maxPacket), [Writes(b), Exits(st), if idle then IdleCloses else PeerCloses]);
            s.up && s.wire == if idle then [WEof, WClose] else [WClose]
  {
    RunThree(Init(window, maxPacket), Writes(b), Exits(st), if idle then IdleCloses else PeerCloses);
    assert [] + [WEof, WClose] == [WEof, WClose] && [] + [WClose] == [WClose];
  }

  /** Step `i` of a run is one that ends the connection. */
  ghost predicate Fatal(s: Shell, steps: seq<Step>, i: nat)
    requires i < |steps|
  {
    Ends(Run(s, steps[..i]), steps[i])
  }

  ghost predicate AnyFatal(s: Shell, steps: seq<Step>) {
    exists i | 0 <= i < |steps| :: Fatal(s, steps, i)
  }

  /** A run survives exactly when none of its steps ends the connection. */
  lemma {:induction false} StaysUp(s: Shell, steps: seq<Step>)
    requires Inv(s) && s.up
    ensures Run(s, steps).up <==> !AnyFatal(s, steps)
    decreases |steps|
  {
    if steps != [] {
      StaysUp(s, steps[..|steps| - 1]);
      LastStep(s, steps);
      OneOrEarlier(s, steps);
    }
  }

  lemma {:induction false} OneOrEarlier(s: Shell, steps: seq<Step>)
    requires steps != []
    ensures var n := |steps| - 1; AnyFatal(s, steps) <==> AnyFatal(s, steps[..n]) || Fatal(s, steps, n)
  {
    var n := |steps| - 1;
    forall i: nat | i < n
      ensures Fatal(s, steps[..n], i) == Fatal(s, steps, i)
    {
      Earlier(s, steps, i);
    }
  }

  lemma {:induction false} LastStep(s: Shell, steps: seq<Step>)
    requires Inv(s) && s.up && steps != []
    ensures var n := |steps| - 1; Run(s, steps).up <==> Run(s, steps[..n]).up && !Fatal(s, steps, n)
  {
    var n := |steps| - 1;
    RunKeeps(s, steps[..n]);
    NextKeeps(Run(s, steps[..n]), steps[n]);
    DownStays(Run(s, steps[..n]), steps[n]);
  }

  lemma Earlier(s: Shell, steps: seq<Step>, i: nat)
    requires i < |steps| - 1
    ensures Fatal(s, steps[..|steps| - 1], i) == Fatal(s, steps, i)
  {
    assert steps[..|steps| - 1][..i] == steps[..i];
  }

  lemma DownStays(s: Shell, step: Step)
    ensures !s.up ==> !Next(s, step).up
  {
  }

  predicate Harmless(step: Step) {
    !step.Swallowed? && (step.Draining? ==> Failed !in step.answers)
  }

  /** In particular when no read fails and no CLOSE is swallowed, whoever closes. */
  lemma {:induction false} HarmlessRun(s: Shell, steps: seq<Step>)
    requires Inv(s) && s.up && (s.chan.remoteClosed ==> !s.live) && forall step | step in steps :: Harmless(step)
    ensures Run(s, steps).up && (Run(s, steps).chan.remoteClosed ==> !Run(s, steps).live)
    decreases |steps|
  {
    if steps != [] {
      var (before, last) := (steps[..|steps| - 1], steps[|steps| - 1]);
      assert forall step | step in before :: step in steps;
      assert last in steps;
      HarmlessRun(s, before);
      RunKeeps(s, before);
      NextKeeps(Run(s, before), last);
      NextPeer(Run(s, before), last);
    }
  }

  lemma {:induction false} NextPeer(s: Shell, step: Step)
    requires Inv(s) && (s.chan.remoteClosed ==> !s.live) && !step.Swallowed?
    ensures Next(s, step).chan.remoteClosed ==> !Next(s, step).live
  {
    if step.Draining? && s.up && s.live {
      FlushDraws(s);
      PullDraws(Flush(s), step.answers, 0);
    }
  }

  /** After a swallowed CLOSE, the first output costs the connection. */
  lemma {:induction false} OutputAfterSwallowed(window: u32, maxPacket: u32, x: byte)
    ensures !Run(Init(window, maxPacket), [Swallowed, Writes([x]), Draining([Got(1)])]).up
  {
    var i := Init(window, maxPacket);
    var s := Next(Next(i, Swallowed), Writes([x]));
    RunThree(i, Swallowed, Writes([x]), Draining([Got(1)]));
    assert s.process.unread == [x];
    ClosedDrainIs(s, [Got(1)]);
  }

  /** And so does the exit of the process. */
  lemma {:induction false} ExitAfterSwallowed(window: u32, maxPacket: u32, st: Status)
    ensures !Run(Init(window, maxPacket), [Swallowed, Exits(st), Draining([]), Finalizing]).up
  {
    var i := Init(window, maxPacket);
    var s := Next(Next(i, Swallowed), Exits(st));
    var all := [Swallowed, Exits(st), Draining([]), Finalizing];
    assert all[..3] == [all[0], all[1], all[2]];
    RunThree(i, all[0], all[1], all[2]);
    ClosedDrainIs(s, []);
  }

  lemma RunThree(s: Shell, a: Step, b: Step, c: Step)
    ensures Run(s, [a, b, c]) == Next(Next(Next(s, a), b), c)
  {
    var all := [a, b, c];
    assert all[..2] == [a, b] && all[..2][..1] == [a] && [a][..0] == [];
    assert Run(s, [a]) == Next(Run(s, []), a);
    assert Run(s, [a, b]) == Next(Run(s, [a]), b);
  }

  // --- Output still unread at the exit -------------------------------------------------------

  /** The first `times` reads return whatever there is. */
  predicate Willing(answers: seq<Answer>, times: nat) {
    times > 0 ==> answers != [] && answers[0].Got? && answers[0].n >= BUFFER && Willing(answers[1..], times - 1)
  }

  ghost predicate Ready(s: Shell) {
    s.up && CanSendData(s.chan) && Stalled(s)
  }

  lemma TurnReady(s: Shell, n: nat)
    requires Ready(s)
    ensures Ready(Turn(s, n)) && Turn(s, n).process.unread == s.process.unread[|Chunk(s, n)|..]
    ensures s.pending != [] ==> Turn(s, n).pending != []
  {
    EmitStaysOpen(Fetch(s, n), Chunk(s, n));
    if s.pending != [] { NoRoom(s.chan, Chunk(s, n)); }
  }

  /** A turn of the loop, when nothing is parked at the end. */
  lemma {:induction false} OneTurn(s: Shell, answers: seq<Answer>, pulled: nat, k: nat)
    requires Ready(s) && s.pending == [] && Continues(s, answers, pulled) && PullFresh(s, answers, pulled).pending == []
    requires k == |Chunk(s, answers[0].n)|
    ensures var t := Turn(s, answers[0].n);
            && Ready(t) && t.pending == [] && t.process.unread == s.process.unread[k..]
            && PullFresh(s, answers, pulled) == PullFresh(t, answers[1..], pulled + k)
  {
    TurnReady(s, answers[0].n);
    if Turn(s, answers[0].n).pending != [] {
      PendingStays(Turn(s, answers[0].n), answers[1..], pulled + k);
    }
  }

  /** Bytes a tick reads of `left`, when the window holds nothing back. */
  function Taken(left: nat, answers: seq<Answer>, pulled: nat): (k: nat)
    ensures k <= left
    decreases |answers|
  {
    if pulled >= PER_TICK || answers == [] || answers[0].Failed? then 0
    else
      var k := Min(Min(answers[0].n, BUFFER), left);
      if k == 0 then 0 else k + Taken(left - k, answers[1..], pulled + k)
  }

  /** Never as much as a buffer over the allowance. */
  lemma {:induction false} TakenAtMost(left: nat, answers: seq<Answer>, pulled: nat)
    ensures Taken(left, answers, pulled) == 0 || pulled + Taken(left, answers, pulled) < PER_TICK + BUFFER
    decreases |answers|
  {
    if Taken(left, answers, pulled) > 0 {
      var k := Min(Min(answers[0].n, BUFFER), left);
      TakenAtMost(left - k, answers[1..], pulled + k);
    }
  }

  /** The first `times` reads return something as long as there is something. */
  predicate Eager(answers: seq<Answer>, times: nat) {
    times > 0 ==> answers != [] && answers[0].Got? && answers[0].n > 0 && Eager(answers[1..], times - 1)
  }

  lemma {:induction false} EagerFewer(answers: seq<Answer>, times: nat, fewer: nat)
    requires Eager(answers, times) && fewer <= times
    ensures Eager(answers, fewer)
    decreases fewer
  {
    if fewer > 0 { EagerFewer(answers[1..], times - 1, fewer - 1); }
  }

  /** However short the reads, the whole allowance is used or everything is read. */
  lemma {:induction false} TakenAtLeast(left: nat, answers: seq<Answer>, pulled: nat)
    requires pulled < PER_TICK && Eager(answers, Min(left, PER_TICK - pulled))
    ensures Taken(left, answers, pulled) >= Min(left, PER_TICK - pulled)
    decreases |answers|
  {
    if left > 0 {
      var k := Min(Min(answers[0].n, BUFFER), left);
      if pulled + k < PER_TICK {
        EagerFewer(answers[1..], Min(left, PER_TICK - pulled) - 1, Min(left - k, PER_TICK - pulled - k));
        TakenAtLeast(left - k, answers[1..], pulled + k);
      }
    }
  }

  /** The bytes `turns` buffers hold. */
  function RoomFor(turns: nat): nat {
    if turns == 0 then 0 else BUFFER + RoomFor(turns - 1)
  }

  /** Full reads use the allowance exactly. */
  lemma {:induction false} TakenFull(left: nat, answers: seq<Answer>, turns: nat, pulled: nat)
    requires Willing(answers, turns) && pulled + RoomFor(turns) == PER_TICK
    ensures Taken(left, answers, pulled) == Min(left, RoomFor(turns))
    decreases turns
  {
    if turns > 0 {
      if left < BUFFER {
        assert Taken(0, answers[1..], pulled + left) == 0;
      } else {
        TakenFull(left - BUFFER, answers[1..], turns - 1, pulled + BUFFER);
      }
    }
  }

  /** When nothing is parked at the end, that is what the tick read. */
  lemma {:induction false} PullsTaken(s: Shell, answers: seq<Answer>, pulled: nat)
    requires Ready(s) && s.pending == [] && PullFresh(s, answers, pulled).pending == []
    ensures var t := PullFresh(s, answers, pulled);
            t.process.unread == s.process.unread[Taken(|s.process.unread|, answers, pulled)..]
    decreases |answers|
  {
    if Continues(s, answers, pulled) {
      var k := |Chunk(s, answers[0].n)|;
      OneTurn(s, answers, pulled, k);
      PullsTaken(Turn(s, answers[0].n), answers[1..], pulled + k);
      TakesMore(s, answers, pulled, k);
    } else {
      TakesNone(s, answers, pulled);
    }
  }

  lemma TakesMore(s: Shell, answers: seq<Answer>, pulled: nat, k: nat)
    requires Continues(s, answers, pulled) && k == |Chunk(s, answers[0].n)|
    ensures var (n, m) := (|s.process.unread|, Taken(|s.process.unread| - k, answers[1..], pulled + k));
            Taken(n, answers, pulled) == k + m && s.process.unread[k..][m..] == s.process.unread[k + m..]
  {
    Dropped(s.process.unread, k, Taken(|s.process.unread| - k, answers[1..], pulled + k));
  }

  lemma TakesNone(s: Shell, answers: seq<Answer>, pulled: nat)
    requires s.up && s.pending == [] && !Continues(s, answers, pulled)
    ensures PullFresh(s, answers, pulled).process == s.process && Taken(|s.process.unread|, answers, pulled) == 0
  {
  }

  lemma Dropped(bytes: seq<byte>, k: nat, m: nat)
    requires k + m <= |bytes|
    ensures bytes[k..][m..] == bytes[k + m..]
  {
  }

  lemma {:induction false} PendingStays(s: Shell, answers: seq<Answer>, pulled: nat)
    requires Ready(s) && s.pending != []
    ensures PullFresh(s, answers, pulled).pending != []
    decreases |answers|
  {
    if Continues(s, answers, pulled) {
      TurnReady(s, answers[0].n);
      PendingStays(Turn(s, answers[0].n), answers[1..], pulled + |Chunk(s, answers[0].n)|);
    }
  }

  lemma {:induction false} TagLength(bytes: seq<byte>)
    ensures |Tag(false, bytes)| == |bytes|
  {
    if bytes != [] { TagLength(bytes[1..]); }
  }

  /**
   Everything the process wrote reaches the peer exactly when the tick that announces the exit read
   all that was left.  That tick stops once it has 64 KiB: reads that keep returning something lose
   nothing up to there, full reads lose something as soon as there is more, and 72 KiB are always too
   many.
   */
  lemma {:induction false} ExitLosesUnread(s: Shell, answers: seq<Answer>)
    requires Inv(s) && s.up && s.live && Finalize(DrainTick(s, answers)).exitSent
    ensures var (n, t) := (|s.process.unread|, Finalize(DrainTick(s, answers)));
            && (Shipped(t.wire) == Tag(false, t.written) <==> Taken(n, answers, 0) == n)
            && (n <= PER_TICK && Eager(answers, n) ==> Shipped(t.wire) == Tag(false, t.written))
            && (n >= PER_TICK + BUFFER ==> Shipped(t.wire) != Tag(false, t.written))
            && (Willing(answers, 8) ==> (Shipped(t.wire) == Tag(false, t.written) <==> n <= PER_TICK))
  {
    var n := |s.process.unread|;
    ExitLeaves(s, answers);
    TakenAtMost(n, answers, 0);
    if n <= PER_TICK && Eager(answers, n) { TakenAtLeast(n, answers, 0); }
    assert RoomFor(8) == PER_TICK;
    if Willing(answers, 8) { TakenFull(n, answers, 8, 0); }
  }

  lemma {:induction false} ExitLeaves(s: Shell, answers: seq<Answer>)
    requires Inv(s) && s.up && s.live && Finalize(DrainTick(s, answers)).exitSent
    ensures var (n, t) := (|s.process.unread|, Finalize(DrainTick(s, answers)));
            Shipped(t.wire) == Tag(false, t.written) <==> Taken(n, answers, 0) == n
  {
    DrainKeeps(s, answers);
    FinalizeKeeps(DrainTick(s, answers));
    if s.chan.remoteClosed { ClosedStays(s, answers); }
    FlushDraws(s);
    var f := Flush(s);
    PullDraws(f, answers, 0);
    if f.pending != [] { PendingStays(f, answers, 0); }
    PullsTaken(f, answers, 0);
    AllOrSome(Finalize(DrainTick(s, answers)));
  }

  lemma ClosedStays(s: Shell, answers: seq<Answer>)
    requires Inv(s) && s.up && s.live && s.chan.remoteClosed
    ensures !Finalize(DrainTick(s, answers)).exitSent
  {
    ClosedDrainIs(s, answers);
  }

  lemma {:induction false} AllOrSome(t: Shell)
    requires Inv(t) && t.exitSent
    ensures Shipped(t.wire) == Tag(false, t.written) <==> t.process.unread == []
  {
    assert Shipped(t.wire) + [] == Shipped(t.wire);
    TagLength(t.got);
    TagLength(t.written);
    if t.process.unread == [] { assert t.got + [] == t.got; }
  }

  // --- The exit does go out ------------------------------------------------------------------

  /** Room for everything the process has written so far, and packets that can carry payload. */
  predicate Roomy(s: Shell) {
    s.chan.remoteWindow > |s.pending| + |s.process.unread| && s.chan.remoteMaxPacket > 9
  }

  lemma RoomyEmit(s: Shell, bytes: seq<byte>)
    requires s.up && CanSendData(s.chan) && s.pending == [] && s.chan.remoteMaxPacket > 9
    requires s.chan.remoteWindow > |bytes|
    ensures var t := EmitOut(s, bytes);
            t == s.(chan := s.chan.(remoteWindow := s.chan.remoteWindow - |bytes|), wire := t.wire)
  {
    EmitChannel(s.chan, false, bytes);
  }

  lemma {:induction false} RoomyPull(s: Shell, answers: seq<Answer>, pulled: nat)
    requires s.up && CanSendData(s.chan) && s.pending == [] && Roomy(s) && Failed !in answers
    ensures var t := PullFresh(s, answers, pulled); t.up && t.pending == [] && CanSendData(t.chan)
    ensures Same(s, PullFresh(s, answers, pulled))
    decreases |answers|
  {
    if Continues(s, answers, pulled) {
      RoomyEmit(Fetch(s, answers[0].n), Chunk(s, answers[0].n));
      RoomyPull(Turn(s, answers[0].n), answers[1..], pulled + |Chunk(s, answers[0].n)|);
    } else if answers != [] {
      assert answers[0] in answers;
    }
  }

  /**
   Once the process has ended, a tick with room for its output announces the exit, unless a CLOSE of
   the peer's was swallowed.
   */
  lemma {:induction false} ExitGoesOut(s: Shell, answers: seq<Answer>)
    requires Inv(s) && s.up && s.live && s.process.exit.Some? && Roomy(s) && Failed !in answers
    ensures Finalize(DrainTick(s, answers)).exitSent <==> !s.chan.remoteClosed
  {
    if s.chan.remoteClosed {
      ClosedStays(s, answers);
      return;
    }
    if s.pending != [] { RoomyEmit(s.(pending := []), s.pending); }
    RoomyPull(Flush(s), answers, 0);
  }

  function Zeros(n: nat): (b: seq<byte>)
    ensures |b| == n
  {
    if n == 0 then [] else [0] + Zeros(n - 1)
  }

  /** A process that leaves one byte more than a tick reads: its exit is announced, its last byte is not sent. */
  lemma {:induction false} ExitLosesUnreadWitness(answers: seq<Answer>)
    requires Willing(answers, 8) && Failed !in answers
    ensures var s := Run(Init(U32_MAX, U32_MAX), [Writes(Zeros(PER_TICK + 1)), Exits(Exited(0))]);
            var t := Finalize(DrainTick(s, answers));
            t.exitSent && Shipped(t.wire) != Tag(false, t.written)
  {
    var b := Zeros(PER_TICK + 1);
    var steps := [Writes(b), Exits(Exited(0))];
    var i := Init(U32_MAX, U32_MAX);
    var s := i.(process := Process(b, Some(Exited(0))), written := b);
    assert s == Run(i, steps) by {
      assert steps[..1] == [Writes(b)] && [Writes(b)][..0] == [];
      assert Run(i, []) == i;
      assert [] + b == b;
      assert Run(i, [Writes(b)]) == i.(process := Process(b, None), written := b);
    }
    RunKeeps(i, steps);
    ExitGoesOut(s, answers);
    ExitLosesUnread(s, answers);
  }

  // --- The runtime itself --------------------------------------------------------------------

  /** The backend's session object. */
  class Session {
    var process: Process

    constructor ()
      ensures process == Process([], None)
    {
      process := Process([], None);
    }

    /** Up to 8 KiB; `None` for an error, `[]` for nothing right now. */
    method Read(answer: Answer) returns (b: Option<seq<byte>>)
      modifies this
      ensures answer.Failed? ==> b.None? && process == old(process)
      ensures answer.Got? ==>
                && b == Some(old(process).unread[..Min(Min(answer.n, BUFFER), |old(process).unread|)])
                && process == old(process).(unread := old(process).unread[|b.value|..])
    {
      if answer.Failed? {
        return None;
      }
      var k := Min(Min(answer.n, BUFFER), |process.unread|);
      b := Some(process.unread[..k]);
      process := process.(unread := process.unread[k..]);
    }
  }

  class ShellRuntime {
    const backend: Session
    var live: bool
    var exited: Option<Status>
    var exitSent: bool
    var pendingStdout: seq<byte>
    ghost var got: seq<byte>

    constructor (backend: Session)
      ensures this.backend == backend && live && exited.None? && !exitSent && pendingStdout == [] && got == []
    {
      this.backend, live, exited, exitSent, pendingStdout := backend, true, None, false, [];
      got := [];
    }

    ghost function View(link: Runtimes.Link, up: bool, written: seq<byte>): Shell
      reads this, backend, link
    {
      Shell(link.chan, true, live, exited, exitSent, pendingStdout, up, backend.process, link.wire, got, written)
    }

    method EmitChannelData(link: Runtimes.Link, bytes: seq<byte>, ghost written: seq<byte>) returns (ok: bool)
      modifies this`pendingStdout, link
      ensures View(link, ok, written) == EmitOut(old(View(link, true, written)), bytes)
    {
      var rest := link.Send(false, bytes);
      if rest.None? {
        return false;
      }
      pendingStdout := pendingStdout + rest.value;
      ok := true;
    }

    /** One read and, unless it brought nothing, one emission. */
    method PullOne(link: Runtimes.Link, answer: Answer, ghost written: seq<byte>) returns (ok: bool, n: nat)
      modifies this`pendingStdout, this`got, backend, link
      ensures answer.Failed? ==> !ok && View(link, true, written) == old(View(link, true, written))
      ensures answer.Got? ==> n == |Chunk(old(View(link, true, written)), answer.n)|
      ensures answer.Got? && n == 0 ==> ok && View(link, true, written) == old(View(link, true, written))
      ensures answer.Got? && n > 0 ==> View(link, ok, written) == Turn(old(View(link, true, written)), answer.n)
    {
      var b := backend.Read(answer);
      if b.None? {
        return false, 0;
      }
      ok, n := true, |b.value|;
      if n > 0 {
        got := got + b.value;
        ok := EmitChannelData(link, b.value, written);
      }
    }

    method Pull(link: Runtimes.Link, answers: seq<Answer>, ghost written: seq<byte>) returns (ok: bool)
      modifies this`pendingStdout, this`got, backend, link
      ensures View(link, ok, written) == PullFresh(old(View(link, true, written)), answers, 0)
    {
      var pulled: nat, left := 0, answers;
      ok := true;
      while ok && |pendingStdout| < BACKLOG && pulled < PER_TICK && left != []
        invariant PullFresh(View(link, ok, written), left, pulled)
                  == PullFresh(old(View(link, true, written)), answers, 0)
        decreases |left|
      {
        var n;
        ok, n := PullOne(link, left[0], written);
        if left[0].Failed? || n == 0 {
          return;
        }
        pulled, left := pulled + n, left[1..];
      }
    }

    method DrainShell(link: Runtimes.Link, answers: seq<Answer>, ghost written: seq<byte>) returns (ok: bool)
      modifies this, backend, link
      ensures View(link, ok, written) == DrainTick(old(View(link, true, written)), answers)
    {
      if !live {
        return true;
      }
      if pendingStdout != [] {
        var leftover := pendingStdout;
        pendingStdout := [];
        ok := EmitChannelData(link, leftover, written);
        if !ok {
          return;
        }
      }
      ok := Pull(link, answers, written);
      if ok && exited.None? {
        exited := backend.process.exit;
      }
    }

    method FinalizeExited(link: Runtimes.Link, ghost written: seq<byte>) returns (ok: bool)
      modifies this`live, this`exited, this`exitSent, link
      ensures View(link, ok, written) == Finalize(old(View(link, true, written)))
    {
      if exitSent || pendingStdout != [] || exited.None? {
        return true;
      }
      var status := exited.value;
      exited := None;
      if !Sendable(link.chan) {
        return false;
      }
      link.wire := link.wire + [Announcement(status)];
      var r := SendEof(link.chan);
      link.chan, link.wire := r.value, link.wire + [WEof];
      r := SendClose(link.chan);
      link.chan, link.wire := r.value, link.wire + [WClose];
      exitSent, live := true, false;
      ok := true;
    }
  }
}
