/**
 The server's connection loop: the channel table of the connection layer beside the dispatcher's own
 maps, and every packet, tick and timeout that moves them.
 */
module Dispatch {
  import opened Prelude
  import opened Opens

  /** A tracked channel.  `serial` tells successive channels under one id apart. */
  datatype Channel = Channel(serial: nat, ours: bool, confirmed: bool, localClosed: bool, remoteClosed: bool)

  /** `ShellRuntime`, as far as the dispatcher cares: a terminal asked for, a session running. */
  datatype Shell = Shell(pty: bool, live: bool)

  /** `saidNoMore`, `programs` and `accepted` are histories: what the peer asked, what was started, let in. */
  datatype State = State(
    chans: map<Id, Channel>, nextSerial: nat,
    sessions: set<Id>, shells: map<Id, Shell>, subsystems: set<Id>, envs: set<Id>,
    agents: set<Id>, displays: set<Id>, noMore: bool, book: Book, up: bool,
    saidNoMore: bool, programs: multiset<nat>)

  datatype Limits = Limits(maxSessions: Option<nat>, maxChannels: nat)

  // --- Packets -------------------------------------------------------------------------------

  datatype Spawn = Spawned | Unsupported | SpawnFailed

  /**
   What configuration and handlers answer when a program is asked for, and the packets that arrive
   while a buffered command's output is being written.
   */
  datatype World = World(
    forced: Option<bool>,          // ForceCommand; `true` for internal-sftp
    shellHandler: bool, spawnCommand: Spawn, spawnShell: bool,
    claims: bool,                  // the stream handler takes the command
    claimsLogin: bool,             // ... or the login shell
    subsystemHandler: bool, serves: bool,
    command: Option<bool>,         // Subsystem command; `true` if served in process
    during: seq<Packet>,           // read while a buffered command waits for window
    converges: bool)               // within the limit on waiting

  datatype Wanted =
    | Exec(w: World)
    | ShellReq(w: World)
    | Subsystem(w: World)
    | Pty(granted: bool)
    | Env
    | AgentReq(granted: bool)
    | X11Req(granted: bool)
    | Elsewhere                    // meaningful on any channel

  /** An inbound packet; `id` of an open is the one the allocator picks for it. */
  datatype Packet =
    | OpenSession(id: Id)
    | OpenOther(id: Id, granted: bool)
    | OpenConfirmed(id: Id)
    | OpenFailed(id: Id)
    | Requested(id: Id, wanted: Wanted)
    | Traffic(id: Id)
    | Close(id: Id)
    | NoMoreSessions

  /** `session_only_request`. */
  function SessionOnly(wanted: Wanted): Option<bool> {
    match wanted
    case Exec(_) => Some(true)
    case ShellReq(_) => Some(true)
    case Subsystem(_) => Some(true)
    case Elsewhere => None
    case _ => Some(false)
  }

  // --- The connection layer ------------------------------------------------------------------

  /** `on_packet`: the channel table after the packet, or a protocol error. */
  function Arrive(limits: Limits, chans: map<Id, Channel>, serial: nat, p: Packet): Option<map<Id, Channel>> {
    match p
    case OpenSession(id) => Some(Admit(limits, chans, serial, id))
    case OpenOther(id, _) => Some(Admit(limits, chans, serial, id))
    case OpenConfirmed(id) =>
      if id in chans && chans[id].ours && !chans[id].confirmed
      then Some(chans[id := chans[id].(confirmed := true)]) else None
    case OpenFailed(id) =>
      if id in chans && chans[id].ours && !chans[id].confirmed then Some(chans - {id}) else None
    case Close(id) =>
      if id !in chans || !chans[id].confirmed then None
      else if chans[id].localClosed then Some(chans - {id})
      else Some(chans[id := chans[id].(remoteClosed := true)])
    case NoMoreSessions => Some(chans)
    case Requested(id, _) => if id in chans && chans[id].confirmed then Some(chans) else None
    case Traffic(id) => if id in chans && chans[id].confirmed then Some(chans) else None
  }

  /** The allocator never hands out an id in use, and the table has a limit. */
  predicate Admitted(limits: Limits, chans: map<Id, Channel>, id: Id) {
    |chans| < limits.maxChannels && id !in chans
  }

  function Admit(limits: Limits, chans: map<Id, Channel>, serial: nat, id: Id): map<Id, Channel> {
    if Admitted(limits, chans, id) then chans[id := Channel(serial, false, false, false, false)] else chans
  }

  /** `send_close`: forgotten once both sides have closed. */
  function Closed(chans: map<Id, Channel>, id: Id): map<Id, Channel>
    requires id in chans
  {
    if chans[id].remoteClosed then chans - {id} else chans[id := chans[id].(localClosed := true)]
  }

  // --- Starting a program --------------------------------------------------------------------

  function Started(s: State, id: Id): State
    requires id in s.chans
  {
    s.(programs := s.programs + multiset{s.chans[id].serial})
  }

  function StartStream(s: State, id: Id): State
    requires id in s.chans
  {
    Started(s.(subsystems := s.subsystems + {id}), id)
  }

  /** `spawn_command_on_pty` and `reply_spawned`; `None` leaves the command to the plain path. */
  function SpawnOnPty(s: State, id: Id, w: World): Option<State>
    requires id in s.chans
  {
    if !w.shellHandler || id !in s.shells || !s.shells[id].pty then None
    else
      match w.spawnCommand
      case Spawned => Some(Started(s.(shells := s.shells[id := Shell(false, true)]), id))
      case Unsupported => None
      case SpawnFailed => Some(s.(shells := s.shells - {id}))
  }

  /** The packets read while output waits for the window reach the channel table and nothing else. */
  function Swallow(limits: Limits, s: State, id: Id, during: seq<Packet>): State
    decreases |during|
  {
    if during == [] || !s.up then s
    else
      var p := during[0];
      match Arrive(limits, s.chans, s.nextSerial, p)
      case None => s.(up := false)
      case Some(chans) =>
        var t := Noted(s, chans, p);
        if p == Close(id) then t.(up := false) else Swallow(limits, t, id, during[1..])
  }

  /** `run_exec_command`: a stream handler, or a buffered command that runs, answers and closes. */
  function RunExec(limits: Limits, s: State, id: Id, w: World): State
    requires id in s.chans
  {
    if w.claims then StartStream(s, id)
    else if s.chans[id].remoteClosed then Started(s, id).(up := false)
    else
      var t := Swallow(limits, s, id, w.during).(programs := Started(s, id).programs);
      if !t.up || !w.converges || id !in t.chans then t.(up := false) else t.(chans := Closed(t.chans, id))
  }

  function RouteSftp(s: State, id: Id, w: World): State
    requires id in s.chans
  {
    if w.subsystemHandler then StartStream(s, id) else s
  }

  function OnPtyOrExec(limits: Limits, s: State, id: Id, w: World): State
    requires id in s.chans
  {
    match SpawnOnPty(s, id, w)
    case Some(t) => t
    case None => RunExec(limits, s, id, w)
  }

  function StartExec(limits: Limits, s: State, id: Id, w: World): State
    requires id in s.chans
  {
    if w.forced == Some(true) then RouteSftp(s, id, w) else OnPtyOrExec(limits, s, id, w)
  }

  function StartShell(limits: Limits, s: State, id: Id, w: World): State
    requires id in s.chans
  {
    if w.forced == Some(true) then RouteSftp(s, id, w)
    else if w.forced == Some(false) then OnPtyOrExec(limits, s, id, w)
    else if (id !in s.shells || !s.shells[id].pty) && w.claimsLogin then
      StartStream(s.(shells := s.shells - {id}), id)
    else if !w.shellHandler then s
    else if w.spawnShell then Started(s.(shells := s.shells[id := Shell(false, true)]), id)
    else s.(shells := s.shells - {id})
  }

  function StartSubsystem(limits: Limits, s: State, id: Id, w: World): State
    requires id in s.chans
  {
    if w.forced == Some(true) then RouteSftp(s, id, w)
    else if w.forced == Some(false) then RunExec(limits, s, id, w)
    else if w.command.Some? then
      if w.command.value && w.subsystemHandler then RouteSftp(s, id, w) else OnPtyOrExec(limits, s, id, w)
    else if w.subsystemHandler && w.serves then StartStream(s, id)
    else s
  }

  /** Something already runs, or ran, on the channel. */
  predicate Busy(s: State, id: Id) {
    (id in s.shells && s.shells[id].live) || id in s.subsystems || id !in s.chans || s.chans[id].localClosed
  }

  /** The requests that prepare a session. */
  function SetUp(s: State, id: Id, wanted: Wanted): State {
    match wanted
    case Pty(granted) =>
      if granted then s.(shells := s.shells[id := Shell(true, id in s.shells && s.shells[id].live)]) else s
    case AgentReq(granted) => if granted then s.(agents := s.agents + {id}) else s
    case X11Req(granted) => if granted then s.(displays := s.displays + {id}) else s
    case _ => s
  }

  /** `handle_channel_request`. */
  function OnRequest(limits: Limits, s: State, id: Id, wanted: Wanted): State
    requires id in s.chans
  {
    if SessionOnly(wanted).Some? && (id !in s.sessions || (SessionOnly(wanted).value && Busy(s, id))) then s
    else
      var s := s.(envs := s.envs + {id});
      match wanted
      case Exec(w) => StartExec(limits, s, id, w)
      case ShellReq(w) => StartShell(limits, s, id, w)
      case Subsystem(w) => StartSubsystem(limits, s, id, w)
      case _ => SetUp(s, id, wanted)
  }

  // --- Dispatch ------------------------------------------------------------------------------

  function Confirm(s: State, id: Id): State {
    match Find(s.book, id)
    case None => s
    case Some(key) => s.(book := Resolve(s.book, key, Opened), subsystems := s.subsystems + {id})
  }

  function Fail(s: State, id: Id): State {
    match Find(s.book, id)
    case None => s
    case Some(key) => s.(book := Resolve(s.book, key, Rejected))
  }

  function OnOpenSession(limits: Limits, s: State, id: Id): State
    requires id in s.chans
  {
    if s.noMore then s.(up := false)
    else if limits.maxSessions.Some? && |s.sessions| >= limits.maxSessions.value then s.(chans := s.chans - {id})
    else
      s.(chans := s.chans[id := s.chans[id].(confirmed := true)], sessions := s.sessions + {id}, envs := s.envs + {id})
  }

  function OnOpenOther(s: State, id: Id, granted: bool): State
    requires id in s.chans
  {
    if granted then s.(chans := s.chans[id := s.chans[id].(confirmed := true)], subsystems := s.subsystems + {id})
    else s.(chans := s.chans - {id})
  }

  function Forget(s: State, id: Id): State {
    s.(shells := s.shells - {id}, subsystems := s.subsystems - {id}, envs := s.envs - {id},
       sessions := s.sessions - {id}, agents := s.agents - {id}, displays := s.displays - {id})
  }

  function OnClose(s: State, id: Id): State {
    Forget(if id in s.chans && !s.chans[id].localClosed then s.(chans := Closed(s.chans, id)) else s, id)
  }

  /** The state once the connection layer has taken packet `p`. */
  function Noted(s: State, chans: map<Id, Channel>, p: Packet): State {
    s.(chans := chans, nextSerial := s.nextSerial + 1, saidNoMore := s.saidNoMore || p.NoMoreSessions?)
  }

  /** `dispatch_app_packet`, after the connection layer has seen the packet. */
  function React(limits: Limits, before: map<Id, Channel>, s: State, p: Packet): State {
    match p
    case OpenSession(id) => if Admitted(limits, before, id) && id in s.chans then OnOpenSession(limits, s, id) else s
    case OpenOther(id, granted) =>
      if Admitted(limits, before, id) && id in s.chans then OnOpenOther(s, id, granted) else s
    case OpenConfirmed(id) => Confirm(s, id)
    case OpenFailed(id) => Fail(s, id)
    case Requested(id, wanted) => if id in s.chans then OnRequest(limits, s, id, wanted) else s
    case Traffic(_) => s
    case Close(id) => OnClose(s, id)
    case NoMoreSessions => s.(noMore := true)
  }

  function Receive(limits: Limits, s: State, p: Packet): State {
    match Arrive(limits, s.chans, s.nextSerial, p)
    case None => s.(up := false)
    case Some(chans) => React(limits, s.chans, Noted(s, chans, p), p)
  }

  // --- Ticks ---------------------------------------------------------------------------------

  /** `finalize_exited_shells`: the session ends and the channel is closed. */
  function ShellExits(s: State, id: Id): State {
    if id !in s.shells || !s.shells[id].live then s
    else if id !in s.chans || s.chans[id].localClosed || s.chans[id].remoteClosed then s.(up := false)
    else s.(shells := s.shells[id := s.shells[id].(live := false)], chans := Closed(s.chans, id))
  }

  /** `drain_subsystems` reaching the handler's CLOSE. */
  function StreamEnds(s: State, id: Id): State {
    if id !in s.subsystems || (id in s.chans && s.chans[id].localClosed) then s
    else if id !in s.chans then s.(up := false)
    else s.(chans := Closed(s.chans, id))
  }

  /** `close_idle_channels` on one expired channel. */
  function IdleClose(s: State, id: Id): State {
    if id !in s.chans || !s.chans[id].confirmed || s.chans[id].localClosed || s.chans[id].remoteClosed then s
    else s.(shells := s.shells - {id}, subsystems := s.subsystems - {id}, chans := Closed(s.chans, id))
  }

  /** `drain_pending`: put one queued open on the wire; `sent` is whether the write worked. */
  function OpenNext(s: State, i: nat, id: Id, sent: bool): State {
    if i >= |s.book.queue| || id in s.chans then s
    else
      var t := s.(chans := s.chans[id := Channel(s.nextSerial, true, false, false, false)],
                  nextSerial := s.nextSerial + 1);
      if sent then t.(book := Begin(s.book, i, id)) else t.(book := Lose(s.book, i), up := false)
  }

  datatype Step =
    | Inbound(p: Packet)
    | Submit(kind: Kind)
    | Opening(i: nat, id: Id, sent: bool)
    | Exiting(id: Id)
    | Ending(id: Id)
    | Idle(id: Id)

  function Next(limits: Limits, s: State, step: Step): State {
    if step.Submit? then s.(book := Issue(s.book, step.kind))
    else if !s.up then s
    else
      match step
      case Inbound(p) => Receive(limits, s, p)
      case Opening(i, id, sent) => OpenNext(s, i, id, sent)
      case Exiting(id) => ShellExits(s, id)
      case Ending(id) => StreamEnds(s, id)
      case Idle(id) => IdleClose(s, id)
      case Submit(_) => s
  }

  function Run(limits: Limits, s: State, steps: seq<Step>): State
    decreases |steps|
  {
    if steps == [] then s else Next(limits, Run(limits, s, steps[..|steps| - 1]), steps[|steps| - 1])
  }

  const INIT: State :=
    State(map[], 0, {}, map[], {}, {}, {}, {}, false, EMPTY, true, false, multiset{})
}
