/** The event-driven client: its phases, the events it hands out, and its output buffer. */
module Mio {
  import opened Prelude
  import Userauth

  /** `Phase`; an exec carries its channel and what has been sent and seen on it. */
  datatype Phase =
    | Handshaking
    | Ready
    | Authenticating
    | Authenticated
    | Exec(channel: u32, remoteClosed: bool, closeSent: bool, eofSent: bool)
    | Failed
    | Done

  /** Everything of note that happens, in order: events handed out, execs accepted, EOF and CLOSE sent. */
  datatype Mark =
    | HandshakeComplete
    | LoggedIn
    | AuthFailed
    | Data(stderr: bool, bytes: seq<byte>)
    | ExitStatus(code: u32)
    | ExecClosed
    | Disconnected
    | ExecAccepted
    | SentEof
    | SentClose

  /** What a packet means to an exec; `channel` is the one it is about. */
  datatype ChannelEvent =
    | OpenConfirmed(channel: u32)
    | OpenFailed(channel: u32)
    | RequestFailed(channel: u32)
    | Output(channel: u32, stderr: bool, bytes: seq<byte>)
    | Status(channel: u32, code: u32)
    | RemoteEof(channel: u32)
    | RemoteClose(channel: u32)
    | Other
    | Malformed

  /** An application packet, as either consumer would read it; `sends` is whether replies can be queued. */
  datatype Packet = Packet(auth: Userauth.ClientStep, event: ChannelEvent, sends: bool)

  datatype DriverEvent = Handshake | AppData(p: Packet)

  datatype Machine = Machine(phase: Phase, mismatched: bool, inbox: seq<DriverEvent>, trace: seq<Mark>)

  // --- Packets -------------------------------------------------------------------------------

  function Log(c: Machine, m: Mark): Machine {
    c.(trace := c.trace + [m])
  }

  /** A failing reply leaves the phase as `on_app_data` parked it. */
  function Sending(c: Machine, ok: bool, sent: Machine): (Machine, bool) {
    if ok then (sent, true) else (c.(phase := Done), false)
  }

  function OnAuth(c: Machine, p: Packet): (Machine, bool) {
    match p.auth
    case Send(payload) =>
      if c.mismatched && Userauth.Blocked(payload) then (c.(phase := Failed), false) else Sending(c, p.sends, c)
    case Success => (Log(c.(phase := Authenticated), LoggedIn), true)
    case Failed => (Log(c.(phase := Phase.Failed), AuthFailed), true)
    case Fault => (c.(phase := Done), false)
    case _ => (c, true)
  }

  function Finish(c: Machine): Machine
    requires c.phase.Exec?
  {
    if c.phase.remoteClosed && c.phase.closeSent then Log(c.(phase := Authenticated), ExecClosed) else c
  }

  /** `handle_exec_packet`, then the check for the end. */
  function OnExec(c: Machine, p: Packet): (Machine, bool)
    requires c.phase.Exec?
  {
    var mine := (p.event.Other? || p.event.Malformed?) || p.event.channel == c.phase.channel;
    if p.event.Malformed? || (p.event.RequestFailed? && mine) then (c.(phase := Done), false)
    else if !mine then Sending(c, p.sends, c)
    else
      match p.event
      case OpenFailed(_) => (Finish(c.(phase := c.phase.(remoteClosed := true, closeSent := true))), true)
      case Output(_, stderr, bytes) =>
        var t := Log(c, Data(stderr, bytes));
        Sending(t, p.sends, t)
      case Status(_, code) =>
        var t := Log(c, ExitStatus(code));
        Sending(t, p.sends, t)
      case RemoteEof(_) =>
        if c.phase.eofSent then Sending(c, p.sends, c)
        else Sending(c, p.sends, Log(c.(phase := c.phase.(eofSent := true)), SentEof))
      case RemoteClose(_) =>
        if c.phase.closeSent then (Finish(c.(phase := c.phase.(remoteClosed := true))), true)
        else Sending(c, p.sends, Finish(Log(c.(phase := c.phase.(remoteClosed := true, closeSent := true)), SentClose)))
      case _ => Sending(c, p.sends, c)
  }

  function OnDriverEvent(c: Machine, e: DriverEvent): (Machine, bool) {
    match e
    case Handshake => (if c.phase.Handshaking? then Log(c.(phase := Ready), HandshakeComplete) else c, true)
    case AppData(p) =>
      if c.phase.Authenticating? then OnAuth(c, p)
      else if c.phase.Exec? then OnExec(c, p)
      else if c.phase.Authenticated? then Sending(c, p.sends, c)
      else (c, true)
  }

  /** `process_driver_events`: until there are none or one fails. */
  function Process(c: Machine): (Machine, bool)
    decreases |c.inbox|
  {
    if c.inbox == [] then (c, true)
    else
      var (t, ok) := OnDriverEvent(c.(inbox := c.inbox[1..]), c.inbox[0]);
      if ok && |t.inbox| < |c.inbox| then Process(t) else (t, ok)
  }

  /** One `read`: input the driver turned into events, end of file, nothing for now, or an error. */
  datatype Read = Bytes(events: seq<DriverEvent>) | EndOfFile | WouldBlock | Interrupted | ReadError

  /** `pump_readable`; end of file is reported at once, before events from the same call. */
  function Pump(c: Machine, answers: seq<Read>): (Machine, bool)
    decreases |answers|
  {
    if answers == [] then Process(c)
    else
      match answers[0]
      case EndOfFile => (Log(c.(phase := Done), Disconnected), true)
      case Bytes(events) => Pump(c.(inbox := c.inbox + events), answers[1..])
      case WouldBlock => Process(c)
      case Interrupted => Pump(c, answers[1..])
      case ReadError => (c, false)
  }

  // --- Calls ---------------------------------------------------------------------------------

  /** `usable`: a credential is left after filtering; `queued`: the first packet was taken. */
  function Authenticate(c: Machine, usable: bool, queued: bool): Machine {
    if !c.phase.Ready? || (c.mismatched && !usable) || !queued then c else c.(phase := Authenticating)
  }

  function StartExec(c: Machine, channel: u32, queued: bool): Machine {
    if !c.phase.Authenticated? || !queued then c
    else Log(c.(phase := Exec(channel, false, false, false)), ExecAccepted)
  }

  datatype Step =
    | CallAuthenticate(usable: bool, queued: bool)
    | CallExec(channel: u32, queued: bool)
    | CallPump(answers: seq<Read>)

  function Next(c: Machine, step: Step): Machine {
    match step
    case CallAuthenticate(usable, queued) => Authenticate(c, usable, queued)
    case CallExec(channel, queued) => StartExec(c, channel, queued)
    case CallPump(answers) => Pump(c, answers).0
  }

  function Run(c: Machine, steps: seq<Step>): Machine
    decreases |steps|
  {
    if steps == [] then c else Next(Run(c, steps[..|steps| - 1]), steps[|steps| - 1])
  }

  function Init(mismatched: bool): Machine {
    Machine(Handshaking, mismatched, [], [])
  }

  // --- The grammar ---------------------------------------------------------------------------

  /** Where a trace stands. */
  datatype Place = Start | Connected | Refused | Idle | Running(eof: bool, closed: bool) | Gone | Broken

  function Advance(g: Place, m: Mark): Place {
    if m.Disconnected? then if g.Broken? then Broken else Gone
    else
      match g
      case Start => if m.HandshakeComplete? then Connected else Broken
      case Connected => if m.LoggedIn? then Idle else if m.AuthFailed? then Refused else Broken
      case Idle => if m.ExecAccepted? then Running(false, false) else Broken
      case Running(eof, closed) =>
        (match m
         case Data(_, _) => g
         case ExitStatus(_) => g
         case SentEof => if eof then Broken else Running(true, closed)
         case SentClose => if closed then Broken else Running(eof, true)
         case ExecClosed => Idle
         case _ => Broken)
      case _ => Broken
  }

  function PlaceOf(g: Place, trace: seq<Mark>): Place
    decreases |trace|
  {
    if trace == [] then g else PlaceOf(Advance(g, trace[0]), trace[1..])
  }

  lemma {:induction false} PlaceSnoc(g: Place, trace: seq<Mark>, m: Mark)
    ensures PlaceOf(g, trace + [m]) == Advance(PlaceOf(g, trace), m)
    decreases |trace|
  {
    if trace == [] {
      assert trace + [m] == [m] && [m][1..] == [];
    } else {
      assert (trace + [m])[1..] == trace[1..] + [m];
      PlaceSnoc(Advance(g, trace[0]), trace[1..], m);
    }
  }

  predicate Fits(phase: Phase, g: Place) {
    match phase
    case Handshaking => g == Start
    case Ready => g == Connected
    case Authenticating => g == Connected
    case Authenticated => g == Idle
    case Exec(_, remoteClosed, closeSent, eofSent) => g == Running(eofSent, closeSent) && !(remoteClosed && closeSent)
    case Failed => g == Connected || g == Refused
    case Done => g != Broken
  }

  ghost predicate Inv(c: Machine) {
    Fits(c.phase, PlaceOf(Start, c.trace))
  }

  lemma LogKeeps(c: Machine, m: Mark)
    ensures PlaceOf(Start, Log(c, m).trace) == Advance(PlaceOf(Start, c.trace), m)
  {
    PlaceSnoc(Start, c.trace, m);
  }

  lemma {:induction false} AuthKeeps(c: Machine, p: Packet)
    requires Inv(c) && c.phase.Authenticating?
    ensures Inv(OnAuth(c, p).0)
  {
    LogKeeps(c, LoggedIn);
    LogKeeps(c, AuthFailed);
  }

  lemma {:induction false} ExecKeeps(c: Machine, p: Packet)
    requires Inv(c) && c.phase.Exec?
    ensures Inv(OnExec(c, p).0)
  {
    match p.event
    case Output(_, stderr, bytes) => OutputKeeps(c, p, Data(stderr, bytes));
    case Status(_, code) => OutputKeeps(c, p, ExitStatus(code));
    case RemoteEof(_) => LogKeeps(c, SentEof);
    case OpenFailed(_) => LogKeeps(c, ExecClosed);
    case RemoteClose(_) => CloseKeeps(c, p);
    case _ =>
  }

  lemma {:induction false} OutputKeeps(c: Machine, p: Packet, m: Mark)
    requires Inv(c) && c.phase.Exec?
    requires || (p.event.Output? && m == Data(p.event.stderr, p.event.bytes))
             || (p.event.Status? && m == ExitStatus(p.event.code))
    ensures Inv(OnExec(c, p).0)
  {
    LogKeeps(c, m);
  }

  lemma {:induction false} CloseKeeps(c: Machine, p: Packet)
    requires Inv(c) && c.phase.Exec? && p.event.RemoteClose?
    ensures Inv(OnExec(c, p).0)
  {
    LogKeeps(c, ExecClosed);
    LogKeeps(c, SentClose);
    LogKeeps(Log(c, SentClose), ExecClosed);
  }

  lemma {:induction false} EventKeeps(c: Machine, e: DriverEvent)
    requires Inv(c)
    ensures Inv(OnDriverEvent(c, e).0) && OnDriverEvent(c, e).0.inbox == c.inbox
  {
    LogKeeps(c, HandshakeComplete);
    if e.AppData? && c.phase.Authenticating? { AuthKeeps(c, e.p); }
    if e.AppData? && c.phase.Exec? { ExecKeeps(c, e.p); }
  }

  lemma {:induction false} ProcessKeeps(c: Machine)
    requires Inv(c)
    ensures Inv(Process(c).0) && (Process(c).1 ==> Process(c).0.inbox == [])
    decreases |c.inbox|
  {
    if c.inbox != [] {
      var b := c.(inbox := c.inbox[1..]);
      EventKeeps(b, c.inbox[0]);
      if OnDriverEvent(b, c.inbox[0]).1 { ProcessKeeps(OnDriverEvent(b, c.inbox[0]).0); }
    }
  }

  lemma {:induction false} PumpKeeps(c: Machine, answers: seq<Read>)
    requires Inv(c)
    ensures Inv(Pump(c, answers).0)
    decreases |answers|
  {
    if answers == [] || answers[0].WouldBlock? {
      ProcessKeeps(c);
    } else {
      LogKeeps(c, Disconnected);
      match answers[0]
      case Bytes(events) => PumpKeeps(c.(inbox := c.inbox + events), answers[1..]);
      case Interrupted => PumpKeeps(c, answers[1..]);
      case _ =>
    }
  }

  lemma {:induction false} RunKeeps(mismatched: bool, steps: seq<Step>)
    ensures Inv(Run(Init(mismatched), steps))
    decreases |steps|
  {
    if steps != [] {
      var c := Run(Init(mismatched), steps[..|steps| - 1]);
      RunKeeps(mismatched, steps[..|steps| - 1]);
      LogKeeps(c, ExecAccepted);
      var step := steps[|steps| - 1];
      if step.CallPump? { PumpKeeps(c, step.answers); }
    }
  }

  // --- Main results --------------------------------------------------------------------------

  /** Every run produces a trace of the grammar. */
  lemma TraceInGrammar(mismatched: bool, steps: seq<Step>)
    ensures PlaceOf(Start, Run(Init(mismatched), steps).trace) != Broken
  {
    RunKeeps(mismatched, steps);
  }

  lemma {:induction false} PlaceSplit(g: Place, trace: seq<Mark>, i: nat)
    requires i <= |trace|
    ensures PlaceOf(g, trace) == PlaceOf(PlaceOf(g, trace[..i]), trace[i..])
    decreases i
  {
    if i == 0 {
      assert trace[..0] == [] && trace[0..] == trace;
    } else {
      PlaceSplit(Advance(g, trace[0]), trace[1..], i - 1);
      assert trace[1..][..i - 1] == trace[..i][1..] && trace[1..][i - 1..] == trace[i..];
    }
  }

  lemma {:induction false} BrokenStays(trace: seq<Mark>)
    ensures PlaceOf(Broken, trace) == Broken
  {
    if trace != [] { BrokenStays(trace[1..]); }
  }

  /** The mark cannot come before another exec is accepted. */
  predicate NeedsExec(g: Place, m: Mark) {
    && (m.Data? || m.ExitStatus? || m.ExecClosed? || m.SentEof? || m.SentClose?)
    && (!g.Running? || (m.SentEof? && g.eof) || (m.SentClose? && g.closed))
  }

  lemma {:induction false} ExecFirst(g: Place, trace: seq<Mark>, j: nat)
    requires j < |trace| && NeedsExec(g, trace[j]) && PlaceOf(g, trace) != Broken
    ensures exists k :: 0 <= k < j && trace[k] == ExecAccepted
    decreases j
  {
    BrokenStays(trace[1..]);
    if j > 0 && trace[0] != ExecAccepted {
      ExecFirst(Advance(g, trace[0]), trace[1..], j - 1);
      var k :| 0 <= k < j - 1 && trace[1..][k] == ExecAccepted;
      assert trace[k + 1] == ExecAccepted;
    }
  }

  /** The same, counted from just after position `i`. */
  lemma {:induction false} ExecBetween(trace: seq<Mark>, i: nat, j: nat)
    requires i < j < |trace| && PlaceOf(Start, trace) != Broken
    requires NeedsExec(Advance(PlaceOf(Start, trace[..i]), trace[i]), trace[j])
    ensures exists k :: i < k < j && trace[k] == ExecAccepted
  {
    var g := Advance(PlaceOf(Start, trace[..i]), trace[i]);
    PlaceSplit(Start, trace, i + 1);
    PlaceSnoc(Start, trace[..i], trace[i]);
    assert trace[..i + 1] == trace[..i] + [trace[i]];
    ExecFirst(g, trace[i + 1..], j - i - 1);
    var k :| 0 <= k < j - i - 1 && trace[i + 1..][k] == ExecAccepted;
    assert trace[i + 1 + k] == ExecAccepted;
  }

  /** Output, exit status and end come only inside an accepted exec, each exec has its own. */
  lemma {:induction false} OutputInsideExec(mismatched: bool, steps: seq<Step>, j: nat)
    requires j < |Run(Init(mismatched), steps).trace| && NeedsExec(Idle, Run(Init(mismatched), steps).trace[j])
    ensures var t := Run(Init(mismatched), steps).trace;
            && (exists k :: 0 <= k < j && t[k] == ExecAccepted)
            && (forall i | 0 <= i < j && t[i] == ExecClosed :: exists k :: i < k < j && t[k] == ExecAccepted)
  {
    RunKeeps(mismatched, steps);
    var t := Run(Init(mismatched), steps).trace;
    ExecFirst(Start, t, j);
    forall i | 0 <= i < j && t[i] == ExecClosed ensures exists k :: i < k < j && t[k] == ExecAccepted {
      PrefixFine(t, i);
      ExecBetween(t, i, j);
    }
  }

  lemma {:induction false} PrefixFine(trace: seq<Mark>, i: nat)
    requires i < |trace| && PlaceOf(Start, trace) != Broken
    ensures Advance(PlaceOf(Start, trace[..i]), trace[i]) != Broken
  {
    PlaceSplit(Start, trace, i + 1);
    PlaceSnoc(Start, trace[..i], trace[i]);
    assert trace[..i + 1] == trace[..i] + [trace[i]];
    BrokenStays(trace[i + 1..]);
  }

  /** At most one EOF and one CLOSE go out per exec. */
  lemma {:induction false} OneEofOneClose(mismatched: bool, steps: seq<Step>, i: nat, j: nat)
    requires i < j < |Run(Init(mismatched), steps).trace|
    requires var t := Run(Init(mismatched), steps).trace; t[i] == t[j] && (t[i] == SentEof || t[i] == SentClose)
    ensures var t := Run(Init(mismatched), steps).trace; exists k :: i < k < j && t[k] == ExecAccepted
  {
    RunKeeps(mismatched, steps);
    var t := Run(Init(mismatched), steps).trace;
    PrefixFine(t, i);
    ExecBetween(t, i, j);
  }

  /** The handshake is the first mark, the outcome of authentication the second; after the end, nothing but the end. */
  lemma {:induction false} OnceInOrder(mismatched: bool, steps: seq<Step>, j: nat)
    requires j < |Run(Init(mismatched), steps).trace|
    ensures var t := Run(Init(mismatched), steps).trace;
            && (t[j] == HandshakeComplete ==> j == 0)
            && (t[j] == LoggedIn || t[j] == AuthFailed ==> j == 1 && t[0] == HandshakeComplete)
            && (t[j] == Disconnected ==> forall k | j < k < |t| :: t[k] == Disconnected)
  {
    RunKeeps(mismatched, steps);
    var t := Run(Init(mismatched), steps).trace;
    PrefixFine(t, j);
    StartsOnce(t, j);
    if t[j] == Disconnected {
      forall k | j < k < |t| ensures t[k] == Disconnected {
        PrefixFine(t, k);
        GoneStays(t, j, k);
      }
    }
  }

  lemma {:induction false} GoneStays(trace: seq<Mark>, j: nat, k: nat)
    requires j < k < |trace| && trace[j] == Disconnected && PlaceOf(Start, trace) != Broken
    ensures PlaceOf(Start, trace[..k]) == Gone
    decreases k
  {
    PrefixFine(trace, k - 1);
    PlaceSnoc(Start, trace[..k - 1], trace[k - 1]);
    assert trace[..k] == trace[..k - 1] + [trace[k - 1]];
    if j < k - 1 { GoneStays(trace, j, k - 1); }
  }

  lemma {:induction false} StartsOnce(trace: seq<Mark>, j: nat)
    requires j < |trace| && PlaceOf(Start, trace) != Broken
    ensures PlaceOf(Start, trace[..j]) == Start ==> j == 0
    ensures PlaceOf(Start, trace[..j]) == Connected ==> j == 1 && trace[0] == HandshakeComplete
    decreases j
  {
    if j > 0 {
      StartsOnce(trace, j - 1);
      PlaceSnoc(Start, trace[..j - 1], trace[j - 1]);
      assert trace[..j] == trace[..j - 1] + [trace[j - 1]];
    }
  }

  // --- As it runs ----------------------------------------------------------------------------

  class MioClient {
    var phase: Phase
    var mismatched: bool
    var inbox: seq<DriverEvent>
    var events: seq<Mark>
    ghost var trace: seq<Mark>

    constructor ()
      ensures View() == Init(false) && events == []
    {
      phase, mismatched, inbox, events := Handshaking, false, [], [];
      trace := [];
    }

    ghost function View(): Machine
      reads this
    {
      Machine(phase, mismatched, inbox, trace)
    }

    /** Queue an event for the caller. */
    method PushEvent(m: Mark)
      modifies this`events, this`trace
      ensures View() == Log(old(View()), m)
    {
      events := events + [m];
      trace := trace + [m];
    }

    /** The replies a packet is owed; on failure the phase stays as it was parked. */
    method HandleExecPacket(p: Packet) returns (ok: bool)
      requires phase.Exec?
      modifies this
      ensures (View(), ok) == OnExec(old(View()), p)
    {
      var st := phase;
      phase := Done;
      var mine := (p.event.Other? || p.event.Malformed?) || p.event.channel == st.channel;
      if p.event.Malformed? || (p.event.RequestFailed? && mine) {
        return false;
      }
      if mine {
        match p.event {
          case OpenFailed(_) =>
            st := st.(remoteClosed := true, closeSent := true);
            phase := st;
            Conclude();
            return true;
          case Output(_, stderr, bytes) =>
            PushEvent(Data(stderr, bytes));
          case Status(_, code) =>
            PushEvent(ExitStatus(code));
          case RemoteEof(_) =>
            if p.sends && !st.eofSent {
              st := st.(eofSent := true);
              trace := trace + [SentEof];
            }
          case RemoteClose(_) =>
            if !st.closeSent && !p.sends {
              return false;
            }
            if !st.closeSent {
              trace := trace + [SentClose];
            }
            phase := st.(remoteClosed := true, closeSent := true);
            Conclude();
            return true;
          case _ =>
        }
      }
      ok := p.sends;
      if ok {
        phase := st;
      }
    }

    method Conclude()
      requires phase.Exec?
      modifies this
      ensures View() == Finish(old(View()))
    {
      if phase.remoteClosed && phase.closeSent {
        phase := Authenticated;
        PushEvent(ExecClosed);
      }
    }

    method HandleAuthPacket(p: Packet) returns (ok: bool)
      requires phase.Authenticating?
      modifies this
      ensures (View(), ok) == OnAuth(old(View()), p)
    {
      phase := Done;
      match p.auth
      case Send(payload) =>
        if mismatched && Userauth.Blocked(payload) {
          phase := Failed;
          return false;
        }
        ok := p.sends;
        if ok {
          phase := Authenticating;
        }
      case Success =>
        phase := Authenticated;
        PushEvent(LoggedIn);
        ok := true;
      case Failed =>
        phase := Failed;
        PushEvent(AuthFailed);
        ok := true;
      case Fault =>
        ok := false;
      case _ =>
        phase := Authenticating;
        ok := true;
    }

    method OnEvent(e: DriverEvent) returns (ok: bool)
      modifies this
      ensures (View(), ok) == OnDriverEvent(old(View()), e)
    {
      ok := true;
      match e
      case Handshake =>
        if phase.Handshaking? {
          phase := Ready;
          PushEvent(HandshakeComplete);
        }
      case AppData(p) =>
        if phase.Authenticating? {
          ok := HandleAuthPacket(p);
        } else if phase.Exec? {
          ok := HandleExecPacket(p);
        } else if phase.Authenticated? && !p.sends {
          phase := Done;
          ok := false;
        }
    }

    method ProcessDriverEvents() returns (ok: bool)
      requires Inv(View())
      modifies this
      ensures (View(), ok) == Process(old(View())) && Inv(View())
    {
      ProcessKeeps(View());
      ok := true;
      while ok && inbox != []
        invariant Inv(View())
        invariant if ok then Process(View()) == Process(old(View())) else (View(), false) == Process(old(View()))
        decreases |inbox|, ok
      {
        var e := inbox[0];
        inbox := inbox[1..];
        EventKeeps(View(), e);
        ok := OnEvent(e);
      }
    }

    method PumpReadable(answers: seq<Read>) returns (ok: bool)
      requires Inv(View())
      modifies this
      ensures (View(), ok) == Pump(old(View()), answers) && Inv(View())
    {
      PumpKeeps(View(), answers);
      var left := answers;
      while left != [] && !left[0].WouldBlock?
        invariant Inv(View()) && Pump(View(), left) == Pump(old(View()), answers)
        decreases |left|
      {
        match left[0] {
          case EndOfFile =>
            PushEvent(Disconnected);
            phase := Done;
            return true;
          case ReadError =>
            return false;
          case Bytes(more) =>
            inbox := inbox + more;
          case Interrupted =>
        }
        left := left[1..];
      }
      ok := ProcessDriverEvents();
    }
  }

  // --- The output buffer ---------------------------------------------------------------------

  datatype Write = Wrote(n: nat) | Full | Retry | WriteError

  function Concat(frames: seq<seq<byte>>): seq<byte> {
    if frames == [] then [] else frames[0] + Concat(frames[1..])
  }

  /** `outbuf` and `out_pos`, with what the driver produced and what the socket took. */
  class OutBuffer {
    var outbuf: seq<byte>
    var outPos: nat
    ghost var drained: seq<byte>
    ghost var taken: seq<byte>

    ghost predicate Valid()
      reads this
    {
      outPos <= |outbuf| && taken + outbuf[outPos..] == drained
    }

    constructor ()
      ensures Valid() && drained == [] && taken == []
    {
      outbuf, outPos := [], 0;
      drained, taken := [], [];
    }

    method DrainTransmit(frames: seq<seq<byte>>)
      requires Valid()
      modifies this`outbuf, this`drained
      ensures Valid() && drained == old(drained) + Concat(frames)
    {
      var left := frames;
      while left != []
        invariant Valid() && drained + Concat(left) == old(drained) + Concat(frames)
        decreases |left|
      {
        Append(drained, left, outbuf, outPos, taken);
        outbuf := outbuf + left[0];
        drained := drained + left[0];
        left := left[1..];
      }
    }

    /** `writes` is how the socket answers, then "full".  No frame byte is lost, repeated or reordered. */
    method Flush(frames: seq<seq<byte>>, writes: seq<Write>) returns (ok: bool)
      requires Valid()
      modifies this
      ensures Valid() && drained == old(drained) + Concat(frames) && old(taken) <= taken
      ensures outPos == |outbuf| ==> taken == drained && (ok ==> outbuf == [])
    {
      DrainTransmit(frames);
      ok := true;
      var left := writes;
      while ok && outPos < |outbuf| && left != [] && !left[0].Full?
        invariant Valid() && drained == old(drained) + Concat(frames) && old(taken) <= taken
        decreases |left|
      {
        match left[0] {
          case Wrote(n) =>
            var k := Min(n, |outbuf| - outPos);
            ok := k > 0;
            Advanced(taken, outbuf, outPos, k);
            taken := taken + outbuf[outPos..outPos + k];
            outPos := outPos + k;
          case WriteError =>
            ok := false;
          case Retry =>
        }
        left := left[1..];
      }
      if ok && outPos == |outbuf| && outbuf != [] {
        outbuf, outPos := [], 0;
      }
    }
  }

  lemma Append(drained: seq<byte>, frames: seq<seq<byte>>, outbuf: seq<byte>, outPos: nat, taken: seq<byte>)
    requires frames != [] && outPos <= |outbuf| && taken + outbuf[outPos..] == drained
    ensures taken + (outbuf + frames[0])[outPos..] == drained + frames[0]
    ensures (drained + frames[0]) + Concat(frames[1..]) == drained + Concat(frames)
  {
    assert (outbuf + frames[0])[outPos..] == outbuf[outPos..] + frames[0];
    Regroup(taken, outbuf[outPos..], frames[0]);
    Regroup(drained, frames[0], Concat(frames[1..]));
  }

  lemma Regroup(a: seq<byte>, b: seq<byte>, c: seq<byte>)
    ensures (a + b) + c == a + (b + c)
  {
  }

  lemma Advanced(taken: seq<byte>, outbuf: seq<byte>, outPos: nat, k: nat)
    requires outPos + k <= |outbuf|
    ensures (taken + outbuf[outPos..outPos + k]) + outbuf[outPos + k..] == taken + outbuf[outPos..]
  {
    assert outbuf[outPos..] == outbuf[outPos..outPos + k] + outbuf[outPos + k..];
  }
}
