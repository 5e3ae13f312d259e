/** The dispatcher as it runs: maps updated in place, one packet at a time. */
module Dispatcher {
  import opened Prelude
  import opened Opens
  import D = Dispatch
  import Runs = DispatchRuns
  import Books = DispatchBooks

  class Connection {
    const limits: D.Limits
    const ledger: Ledger
    var chans: map<Id, D.Channel>
    var nextSerial: nat
    var sessions: set<Id>
    var shells: map<Id, D.Shell>
    var subsystems: set<Id>
    var envs: set<Id>
    var agents: set<Id>
    var displays: set<Id>
    var noMore: bool
    ghost var saidNoMore: bool
    ghost var programs: multiset<nat>

    constructor (limits: D.Limits)
      ensures this.limits == limits && fresh(ledger) && View(true) == D.INIT && Valid(true)
    {
      this.limits := limits;
      ledger := new Ledger();
      chans, nextSerial, sessions, shells, subsystems := map[], 0, {}, map[], {};
      envs, agents, displays, noMore := {}, {}, {}, false;
      saidNoMore, programs := false, multiset{};
    }

    ghost function View(up: bool): D.State
      reads this, ledger
    {
      D.State(chans, nextSerial, sessions, shells, subsystems, envs, agents, displays, noMore, ledger.View(), up,
              saidNoMore, programs)
    }

    /**
     What holds between any two things the loop does: at most one program per channel, running shells on
     open channels with no stream beside them, sessions within their cap, and every open in its place.
     */
    ghost predicate Valid(up: bool)
      reads this, ledger
    {
      Runs.Always(limits, View(up)) && Sound(ledger.View())
    }

    /** `ConnectionState::on_packet`. */
    method OnPacket(p: D.Packet) returns (ok: bool)
      modifies this`chans, this`nextSerial, this`saidNoMore
      ensures match D.Arrive(limits, old(chans), old(nextSerial), p)
              case None => !ok && View(true) == old(View(true))
              case Some(after) => ok && View(true) == D.Noted(old(View(true)), after, p)
    {
      var r := D.Arrive(limits, chans, nextSerial, p);
      if r.None? {
        return false;
      }
      chans, nextSerial := r.value, nextSerial + 1;
      saidNoMore := saidNoMore || p.NoMoreSessions?;
      ok := true;
    }

    /**
     `drain_send` waiting for the window: packets are read, and dropped unless they close the channel;
     `converges` is off when the limit on waiting is met after them.
     */
    method DrainSend(id: Id, during: seq<D.Packet>, converges: bool) returns (ok: bool)
      modifies this`chans, this`nextSerial, this`saidNoMore
      ensures var t := D.Swallow(limits, old(View(true)), id, during);
              View(ok) == t.(up := t.up && converges)
    {
      var left := during;
      while left != []
        invariant D.Swallow(limits, View(true), id, left) == D.Swallow(limits, old(View(true)), id, during)
        decreases |left|
      {
        ok := OnPacket(left[0]);
        if !ok || left[0] == D.Close(id) {
          return false;
        }
        left := left[1..];
      }
      ok := converges;
    }

    ghost method Launched(id: Id)
      requires id in chans
      modifies this`programs
      ensures View(true) == D.Started(old(View(true)), id)
    {
      programs := programs + multiset{chans[id].serial};
    }

    method StartStreamHandler(id: Id)
      requires id in chans
      modifies this`subsystems, this`programs
      ensures View(true) == D.StartStream(old(View(true)), id)
    {
      subsystems := subsystems + {id};
      Launched(id);
    }

    method RunExecCommand(id: Id, w: D.World) returns (ok: bool)
      requires id in chans
      modifies this
      ensures View(ok) == D.RunExec(limits, old(View(true)), id, w)
    {
      if w.claims {
        StartStreamHandler(id);
        return true;
      }
      if chans[id].remoteClosed {
        Launched(id);
        return false;
      }
      ghost var serial := chans[id].serial;
      ok := DrainSend(id, w.during, w.converges);
      programs := programs + multiset{serial};
      if !ok || id !in chans {
        return false;
      }
      chans := D.Closed(chans, id);
    }

    /** `None`: no terminal was asked for, or the handler cannot run commands on one. */
    method SpawnCommandOnPty(id: Id, w: D.World) returns (handled: bool)
      requires id in chans
      modifies this`shells, this`programs
      ensures match D.SpawnOnPty(old(View(true)), id, w)
              case None => !handled && View(true) == old(View(true))
              case Some(t) => handled && View(true) == t
    {
      if !w.shellHandler || id !in shells || !shells[id].pty || w.spawnCommand.Unsupported? {
        return false;
      }
      if w.spawnCommand.Spawned? {
        shells := shells[id := D.Shell(false, true)];
        Launched(id);
      } else {
        shells := shells - {id};
      }
      handled := true;
    }

    method OnPtyOrExec(id: Id, w: D.World) returns (ok: bool)
      requires id in chans
      modifies this
      ensures View(ok) == D.OnPtyOrExec(limits, old(View(true)), id, w)
    {
      var handled := SpawnCommandOnPty(id, w);
      if handled {
        return true;
      }
      ok := RunExecCommand(id, w);
    }

    method RouteInternalSftp(id: Id, w: D.World)
      requires id in chans
      modifies this`subsystems, this`programs
      ensures View(true) == D.RouteSftp(old(View(true)), id, w)
    {
      if w.subsystemHandler {
        StartStreamHandler(id);
      }
    }

    method StartShell(id: Id, w: D.World) returns (ok: bool)
      requires id in chans
      modifies this
      ensures View(ok) == D.StartShell(limits, old(View(true)), id, w)
    {
      ok := true;
      if w.forced.Some? {
        if w.forced.value {
          RouteInternalSftp(id, w);
        } else {
          ok := OnPtyOrExec(id, w);
        }
      } else if (id !in shells || !shells[id].pty) && w.claimsLogin {
        shells := shells - {id};
        StartStreamHandler(id);
      } else if w.shellHandler {
        if w.spawnShell {
          shells := shells[id := D.Shell(false, true)];
          Launched(id);
        } else {
          shells := shells - {id};
        }
      }
    }

    method StartSubsystem(id: Id, w: D.World) returns (ok: bool)
      requires id in chans
      modifies this
      ensures View(ok) == D.StartSubsystem(limits, old(View(true)), id, w)
    {
      ok := true;
      if w.forced.Some? {
        if w.forced.value {
          RouteInternalSftp(id, w);
        } else {
          ok := RunExecCommand(id, w);
        }
      } else if w.command.Some? {
        if w.command.value && w.subsystemHandler {
          RouteInternalSftp(id, w);
        } else {
          ok := OnPtyOrExec(id, w);
        }
      } else if w.subsystemHandler && w.serves {
        StartStreamHandler(id);
      }
    }

    method HandleChannelRequest(id: Id, wanted: D.Wanted) returns (ok: bool)
      requires id in chans
      modifies this
      ensures View(ok) == D.OnRequest(limits, old(View(true)), id, wanted)
    {
      ok := true;
      var only := D.SessionOnly(wanted);
      if only.Some? {
        var started := only.value && ((id in shells && shells[id].live) || id in subsystems || chans[id].localClosed);
        if id !in sessions || started {
          return;
        }
      }
      envs := envs + {id};
      match wanted
      case Exec(w) =>
        if w.forced == Some(true) {
          RouteInternalSftp(id, w);
        } else {
          ok := OnPtyOrExec(id, w);
        }
      case ShellReq(w) =>
        ok := StartShell(id, w);
      case Subsystem(w) =>
        ok := StartSubsystem(id, w);
      case _ =>
        SetUp(id, wanted);
    }

    method SetUp(id: Id, wanted: D.Wanted)
      modifies this`shells, this`agents, this`displays
      ensures View(true) == D.SetUp(old(View(true)), id, wanted)
    {
      match wanted
      case Pty(granted) =>
        if granted {
          shells := shells[id := D.Shell(true, id in shells && shells[id].live)];
        }
      case AgentReq(granted) =>
        if granted {
          agents := agents + {id};
        }
      case X11Req(granted) =>
        if granted {
          displays := displays + {id};
        }
      case _ =>
    }

    method OpenAnswered(id: Id, confirmed: bool)
      modifies this`subsystems, ledger
      ensures View(true) == if confirmed then D.Confirm(old(View(true)), id) else D.Fail(old(View(true)), id)
    {
      var key := Lookup(ledger.pending, id);
      if key.Some? {
        ledger.Reply(key.value, if confirmed then Opened else Rejected);
        if confirmed {
          subsystems := subsystems + {id};
        }
      }
    }

    method OpenSession(id: Id) returns (ok: bool)
      requires id in chans
      modifies this
      ensures View(ok) == D.OnOpenSession(limits, old(View(true)), id)
    {
      if noMore {
        return false;
      }
      if limits.maxSessions.Some? && |sessions| >= limits.maxSessions.value {
        chans := chans - {id};
      } else {
        chans := chans[id := chans[id].(confirmed := true)];
        sessions, envs := sessions + {id}, envs + {id};
      }
      ok := true;
    }

    method OpenOther(id: Id, granted: bool)
      requires id in chans
      modifies this`chans, this`subsystems
      ensures View(true) == D.OnOpenOther(old(View(true)), id, granted)
    {
      if granted {
        chans, subsystems := chans[id := chans[id].(confirmed := true)], subsystems + {id};
      } else {
        chans := chans - {id};
      }
    }

    method PeerClosed(id: Id)
      modifies this`chans, this`shells, this`subsystems, this`envs, this`sessions, this`agents, this`displays
      ensures View(true) == D.OnClose(old(View(true)), id)
    {
      if id in chans && !chans[id].localClosed {
        chans := D.Closed(chans, id);
      }
      Forget(id);
    }

    method Forget(id: Id)
      modifies this`shells, this`subsystems, this`envs, this`sessions, this`agents, this`displays
      ensures View(true) == D.Forget(old(View(true)), id)
    {
      shells, subsystems, envs := shells - {id}, subsystems - {id}, envs - {id};
      sessions, agents, displays := sessions - {id}, agents - {id}, displays - {id};
    }

    /** `dispatch_app_packet`. */
    method Dispatch(p: D.Packet) returns (ok: bool)
      requires Valid(true)
      modifies this, ledger
      ensures View(ok) == D.Receive(limits, old(View(true)), p) && Valid(ok)
    {
      Runs.ReceiveKeeps(limits, View(true), p);
      Books.PacketBook(limits, View(true), p);
      ok := React(p);
    }

    method React(p: D.Packet) returns (ok: bool)
      modifies this, ledger
      ensures View(ok) == D.Receive(limits, old(View(true)), p)
    {
      var before := chans;
      ok := OnPacket(p);
      if !ok {
        return;
      }
      match p
      case OpenSession(id) =>
        if D.Admitted(limits, before, id) {
          ok := OpenSession(id);
        }
      case OpenOther(id, granted) =>
        if D.Admitted(limits, before, id) {
          OpenOther(id, granted);
        }
      case OpenConfirmed(id) =>
        OpenAnswered(id, true);
      case OpenFailed(id) =>
        OpenAnswered(id, false);
      case Requested(id, wanted) =>
        ok := HandleChannelRequest(id, wanted);
      case Traffic(_) =>
      case Close(id) =>
        PeerClosed(id);
      case NoMoreSessions =>
        noMore := true;
    }

    /** `drain_pending` for one queued open. */
    method OpenPending(i: nat, id: Id, sent: bool) returns (ok: bool)
      modifies this`chans, this`nextSerial, ledger
      ensures View(ok) == D.OpenNext(old(View(true)), i, id, sent)
    {
      if i >= |ledger.queue| || id in chans {
        return true;
      }
      chans := chans[id := D.Channel(nextSerial, true, false, false, false)];
      nextSerial := nextSerial + 1;
      if sent {
        ledger.Start(i, id);
      } else {
        ledger.Forfeit(i);
      }
      ok := sent;
    }

    /** `finalize_exited_shells`, the end of a stream in `drain_subsystems`, and `close_idle_channels`. */
    method CloseOne(id: Id, step: D.Step) returns (ok: bool)
      requires step == D.Exiting(id) || step == D.Ending(id) || step == D.Idle(id)
      modifies this`chans, this`shells, this`subsystems
      ensures View(ok) == D.Next(limits, old(View(true)), step)
    {
      ok := true;
      if step.Exiting? {
        if id in shells && shells[id].live {
          if id !in chans || chans[id].localClosed || chans[id].remoteClosed {
            return false;
          }
          shells := shells[id := shells[id].(live := false)];
          chans := D.Closed(chans, id);
        }
      } else if step.Ending? {
        if id in subsystems && !(id in chans && chans[id].localClosed) {
          if id !in chans {
            return false;
          }
          chans := D.Closed(chans, id);
        }
      } else if id in chans && chans[id].confirmed && !chans[id].localClosed && !chans[id].remoteClosed {
        shells, subsystems := shells - {id}, subsystems - {id};
        chans := D.Closed(chans, id);
      }
    }

    /** Whatever the loop does next keeps the connection valid. */
    method Perform(step: D.Step) returns (ok: bool)
      requires Valid(true)
      modifies this, ledger
      ensures View(ok) == D.Next(limits, old(View(true)), step) && Valid(ok)
    {
      Runs.NextKeeps(limits, View(true), step);
      Books.BookKept(limits, View(true), step);
      ok := true;
      match step
      case Inbound(p) =>
        ok := React(p);
      case Submit(kind) =>
        ledger.Submit(kind);
      case Opening(i, id, sent) =>
        ok := OpenPending(i, id, sent);
      case Exiting(id) =>
        ok := CloseOne(id, step);
      case Ending(id) =>
        ok := CloseOne(id, step);
      case Idle(id) =>
        ok := CloseOne(id, step);
    }

    /** Teardown, whatever happened before: no listener handle is left and nobody waits for an open. */
    method EndConnection(ghost up: bool)
      requires Valid(up)
      modifies ledger, this`agents, this`displays
      ensures Settled(ledger.View()) && Sound(ledger.View())
      ensures agents == {} && displays == {}
      ensures ledger.places.Keys == old(ledger.places).Keys && Moved(old(ledger.places), ledger.places)
    {
      agents, displays := {}, {};
      ledger.TearDown();
    }

    /**
     `do_connection_phase`: the loop until it fails or there is nothing more, then teardown.  Every open
     ever asked for has had exactly one answer or lost its slot, in every run.
     */
    method ConnectionPhase(steps: seq<D.Step>) returns (ok: bool)
      requires Valid(true)
      modifies this, ledger
      ensures Settled(ledger.View()) && agents == {} && displays == {}
      ensures forall r | r in old(ledger.places) :: r in ledger.places
      ensures forall g :: programs[g] <= 1
    {
      ok := true;
      var i := 0;
      while ok && i < |steps|
        invariant Valid(ok) && 0 <= i <= |steps|
        invariant forall r | r in old(ledger.places) :: r in ledger.places
      {
        Books.NoneForgotten(limits, View(true), steps[i]);
        ok := Perform(steps[i]);
        i := i + 1;
      }
      EndConnection(ok);
    }
  }
}
