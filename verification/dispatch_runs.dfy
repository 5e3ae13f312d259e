/** What every run of the server's dispatcher keeps. */
module DispatchRuns {
  import opened Prelude
  import opened Opens
  import opened Dispatch

  // --- One program per session ---------------------------------------------------------------

  ghost predicate Serials(s: State) {
    && (forall id | id in s.chans :: s.chans[id].serial < s.nextSerial)
    && (forall i, j | i in s.chans && j in s.chans && i != j :: s.chans[i].serial != s.chans[j].serial)
    && (forall g | g in s.programs :: g < s.nextSerial && s.programs[g] == 1)
  }

  /** A channel that has had its program shows it. */
  ghost predicate Marked(s: State) {
    forall id | id in s.chans && s.chans[id].serial in s.programs :: Busy(s, id)
  }

  /** A running shell sits on an open channel, and nothing else runs there. */
  ghost predicate Shelled(s: State) {
    forall id | id in s.shells && s.shells[id].live ::
      && id in s.chans && s.chans[id].confirmed && !s.chans[id].localClosed
      && id !in s.subsystems
  }

  ghost predicate Capped(limits: Limits, s: State) {
    limits.maxSessions.Some? ==> |s.sessions| <= limits.maxSessions.value
  }

  ghost predicate Always(limits: Limits, s: State) {
    Serials(s) && Shelled(s) && Capped(limits, s) && (s.up ==> Marked(s))
  }

  /** Channels elsewhere are the same; the one at `id` kept its serial number or has the next one. */
  ghost predicate Only(before: map<Id, Channel>, after: map<Id, Channel>, serial: nat, id: Id) {
    && after.Keys <= before.Keys + {id}
    && (forall j | j in after && j != id :: j in before && after[j] == before[j])
    && (id in after ==> (id in before && after[id].serial == before[id].serial) || after[id].serial == serial)
  }

  function About(p: Packet): Id {
    if p.NoMoreSessions? then 0 else p.id
  }

  lemma ArriveOnly(limits: Limits, chans: map<Id, Channel>, serial: nat, p: Packet)
    ensures var r := Arrive(limits, chans, serial, p); r.Some? ==> Only(chans, r.value, serial, About(p))
  {
  }

  lemma Touched(s: State, t: State, id: Id)
    requires Serials(s) && t.programs == s.programs && t.nextSerial > s.nextSerial
    requires Only(s.chans, t.chans, s.nextSerial, id)
    ensures Serials(t)
  {
  }

  lemma ArriveSerials(limits: Limits, s: State, p: Packet)
    requires Serials(s)
    ensures var r := Arrive(limits, s.chans, s.nextSerial, p); r.Some? ==> Serials(Noted(s, r.value, p))
  {
    var r := Arrive(limits, s.chans, s.nextSerial, p);
    ArriveOnly(limits, s.chans, s.nextSerial, p);
    if r.Some? { Touched(s, Noted(s, r.value, p), About(p)); }
  }

  lemma ArriveShelled(limits: Limits, s: State, p: Packet)
    requires Shelled(s)
    ensures var r := Arrive(limits, s.chans, s.nextSerial, p); r.Some? ==> Shelled(Noted(s, r.value, p))
  {
  }

  lemma ArriveMarked(limits: Limits, s: State, p: Packet)
    requires Serials(s) && Marked(s)
    ensures var r := Arrive(limits, s.chans, s.nextSerial, p); r.Some? ==> Marked(Noted(s, r.value, p))
  {
    var r := Arrive(limits, s.chans, s.nextSerial, p);
    if r.Some? {
      var t := Noted(s, r.value, p);
      forall id | id in t.chans && t.chans[id].serial in t.programs ensures Busy(t, id) {
        assert id in s.chans && s.chans[id].serial == t.chans[id].serial;
      }
    }
  }

  lemma {:induction false} SwallowKeeps(limits: Limits, s: State, id: Id, during: seq<Packet>)
    requires Serials(s) && Shelled(s) && Marked(s)
    ensures var t := Swallow(limits, s, id, during);
            Serials(t) && Shelled(t) && Marked(t) && t.sessions == s.sessions
    decreases |during|
  {
    if during != [] && s.up {
      var r := Arrive(limits, s.chans, s.nextSerial, during[0]);
      if r.Some? {
        ArriveSerials(limits, s, during[0]);
        ArriveShelled(limits, s, during[0]);
        ArriveMarked(limits, s, during[0]);
        if during[0] != Close(id) {
          SwallowKeeps(limits, Noted(s, r.value, during[0]), id, during[1..]);
        }
      }
    }
  }

  /** Swallowing touches the channel table only. */
  lemma {:induction false} SwallowSame(limits: Limits, s: State, id: Id, during: seq<Packet>)
    ensures var t := Swallow(limits, s, id, during);
            && t == s.(chans := t.chans, nextSerial := t.nextSerial, saidNoMore := t.saidNoMore, up := t.up)
            && t.nextSerial >= s.nextSerial && (t.up ==> s.up)
    decreases |during|
  {
    if during != [] && s.up {
      var r := Arrive(limits, s.chans, s.nextSerial, during[0]);
      if r.Some? && during[0] != Close(id) {
        SwallowSame(limits, Noted(s, r.value, during[0]), id, during[1..]);
      }
    }
  }

  /** ... and leaves the channel itself alone. */
  lemma {:induction false} SwallowSpares(limits: Limits, s: State, id: Id, during: seq<Packet>)
    requires id in s.chans && s.chans[id].confirmed
    ensures var t := Swallow(limits, s, id, during); t.up ==> id in t.chans && t.chans[id] == s.chans[id]
    decreases |during|
  {
    if during != [] && s.up {
      var r := Arrive(limits, s.chans, s.nextSerial, during[0]);
      if r.Some? && during[0] != Close(id) {
        SwallowSpares(limits, Noted(s, r.value, during[0]), id, during[1..]);
      }
    }
  }

  /** The channel is free for a program. */
  ghost predicate Free(s: State, id: Id) {
    s.up && id in s.chans && s.chans[id].confirmed && !Busy(s, id)
  }

  lemma NotYet(s: State, id: Id)
    requires Free(s, id) && Marked(s)
    ensures s.chans[id].serial !in s.programs
  {
  }

  lemma StreamKeeps(limits: Limits, s: State, id: Id)
    requires Always(limits, s) && Free(s, id)
    ensures Always(limits, StartStream(s, id))
  {
    NotYet(s, id);
    var t := StartStream(s, id);
    forall j | j in t.chans && t.chans[j].serial in t.programs ensures Busy(t, j) {
      if j != id { assert Busy(s, j); }
    }
  }

  lemma ShellKeeps(limits: Limits, s: State, id: Id)
    requires Always(limits, s) && Free(s, id)
    ensures Always(limits, Started(s.(shells := s.shells[id := Dispatch.Shell(false, true)]), id))
  {
    NotYet(s, id);
    var t := Started(s.(shells := s.shells[id := Dispatch.Shell(false, true)]), id);
    forall j | j in t.chans && t.chans[j].serial in t.programs ensures Busy(t, j) {
      if j != id { assert Busy(s, j); }
    }
  }

  /** A shell entry with nothing running may be dropped. */
  lemma UnshellKeeps(limits: Limits, s: State, id: Id)
    requires Always(limits, s) && Free(s, id)
    ensures Always(limits, s.(shells := s.shells - {id})) && Free(s.(shells := s.shells - {id}), id)
  {
    var t := s.(shells := s.shells - {id});
    forall j | j in t.chans && t.chans[j].serial in t.programs ensures Busy(t, j) {
      assert Busy(s, j);
    }
  }

  lemma {:induction false} ExecKeeps(limits: Limits, s: State, id: Id, w: World)
    requires Always(limits, s) && Free(s, id)
    ensures Always(limits, RunExec(limits, s, id, w))
  {
    NotYet(s, id);
    if w.claims {
      StreamKeeps(limits, s, id);
    } else if !s.chans[id].remoteClosed {
      var programs := s.programs + multiset{s.chans[id].serial};
      SwallowKeeps(limits, s, id, w.during);
      SwallowSame(limits, s, id, w.during);
      SwallowSpares(limits, s, id, w.during);
      var t := Swallow(limits, s, id, w.during);
      if t.up { ClosedMarks(t, id, programs); } else { ProgramsGrow(t, s.chans[id].serial); }
    }
  }

  lemma ProgramsGrow(s: State, serial: nat)
    requires Serials(s) && Shelled(s) && serial < s.nextSerial && serial !in s.programs
    ensures var t := s.(programs := s.programs + multiset{serial}, up := false); Serials(t) && Shelled(t)
  {
  }

  lemma ClosedMarks(t: State, id: Id, programs: multiset<nat>)
    requires Serials(t) && Shelled(t) && Marked(t) && id in t.chans
    requires !(id in t.shells && t.shells[id].live)
    requires t.chans[id].serial !in t.programs && programs == t.programs + multiset{t.chans[id].serial}
    ensures var u := t.(programs := programs, chans := Closed(t.chans, id)); Serials(u) && Shelled(u) && Marked(u)
  {
    var u := t.(programs := programs, chans := Closed(t.chans, id));
    ClosedSerials(t, id);
    forall j | j in u.chans && u.chans[j].serial in u.programs ensures Busy(u, j) {
      if j != id {
        OthersUnmarked(t, id, j);
        assert Busy(t, j);
      }
    }
  }

  lemma ClosedSerials(s: State, id: Id)
    requires Serials(s) && id in s.chans
    ensures Serials(s.(chans := Closed(s.chans, id)))
  {
  }

  lemma OthersUnmarked(t: State, id: Id, j: Id)
    requires Serials(t) && id in t.chans && j in t.chans && j != id
    ensures t.chans[j].serial in t.programs + multiset{t.chans[id].serial} <==> t.chans[j].serial in t.programs
  {
  }

  lemma {:induction false} SpawnKeeps(limits: Limits, s: State, id: Id, w: World)
    requires Always(limits, s) && Free(s, id)
    ensures Always(limits, OnPtyOrExec(limits, s, id, w))
  {
    ExecKeeps(limits, s, id, w);
    ShellKeeps(limits, s, id);
    UnshellKeeps(limits, s, id);
  }

  lemma {:induction false} StartExecKeeps(limits: Limits, s: State, id: Id, w: World)
    requires Always(limits, s) && Free(s, id)
    ensures Always(limits, StartExec(limits, s, id, w))
  {
    SpawnKeeps(limits, s, id, w);
    StreamKeeps(limits, s, id);
  }

  lemma {:induction false} StartSubsystemKeeps(limits: Limits, s: State, id: Id, w: World)
    requires Always(limits, s) && Free(s, id)
    ensures Always(limits, StartSubsystem(limits, s, id, w))
  {
    if w.forced.Some? && !w.forced.value {
      ExecKeeps(limits, s, id, w);
    } else {
      StreamKeeps(limits, s, id);
      if w.forced.None? && w.command.Some? { SpawnKeeps(limits, s, id, w); }
    }
  }

  lemma {:induction false} StartShellKeeps(limits: Limits, s: State, id: Id, w: World)
    requires Always(limits, s) && Free(s, id)
    ensures Always(limits, StartShell(limits, s, id, w))
  {
    if w.forced.Some? && w.forced.value {
      StreamKeeps(limits, s, id);
    } else if w.forced.Some? {
      SpawnKeeps(limits, s, id, w);
    } else {
      UnforcedShellKeeps(limits, s, id, w);
    }
  }

  lemma UnforcedShellKeeps(limits: Limits, s: State, id: Id, w: World)
    requires Always(limits, s) && Free(s, id) && w.forced.None?
    ensures Always(limits, StartShell(limits, s, id, w))
  {
    UnshellKeeps(limits, s, id);
    if (id !in s.shells || !s.shells[id].pty) && w.claimsLogin {
      StreamKeeps(limits, s.(shells := s.shells - {id}), id);
    } else if w.shellHandler && w.spawnShell {
      ShellKeeps(limits, s, id);
    }
  }

  lemma {:induction false} RequestKeeps(limits: Limits, s: State, id: Id, wanted: Wanted)
    requires Always(limits, s) && s.up && id in s.chans && s.chans[id].confirmed
    ensures Always(limits, OnRequest(limits, s, id, wanted))
  {
    var t := s.(envs := s.envs + {id});
    EntriesOnly(limits, s, t);
    if !Busy(s, id) {
      match wanted
      case Exec(w) => StartExecKeeps(limits, t, id, w);
      case ShellReq(w) => StartShellKeeps(limits, t, id, w);
      case Subsystem(w) => StartSubsystemKeeps(limits, t, id, w);
      case _ => SetUpKeeps(limits, t, id, wanted);
    } else if SessionOnly(wanted) != Some(true) {
      SetUpKeeps(limits, t, id, wanted);
    }
  }

  lemma SetUpKeeps(limits: Limits, s: State, id: Id, wanted: Wanted)
    requires Always(limits, s)
    ensures Always(limits, SetUp(s, id, wanted))
  {
    EntriesOnly(limits, s, SetUp(s, id, wanted));
  }

  /** Nothing that matters here changed: same channels, same programs, shells live where they were. */
  lemma EntriesOnly(limits: Limits, s: State, t: State)
    requires Always(limits, s) && t.chans == s.chans && t.nextSerial >= s.nextSerial && t.programs == s.programs
    requires t.subsystems == s.subsystems && t.up == s.up && t.sessions == s.sessions
    requires forall id :: (id in t.shells && t.shells[id].live) == (id in s.shells && s.shells[id].live)
    ensures Always(limits, t)
  {
    if t.up {
      forall id | id in t.chans && t.chans[id].serial in t.programs ensures Busy(t, id) {
        assert Busy(s, id);
      }
    }
  }

  /** A stream takes over a channel on which no shell runs. */
  lemma AttachKeeps(limits: Limits, s: State, id: Id)
    requires Always(limits, s) && !(id in s.shells && s.shells[id].live)
    ensures Always(limits, s.(subsystems := s.subsystems + {id}))
  {
    var t := s.(subsystems := s.subsystems + {id});
    if t.up {
      forall j | j in t.chans && t.chans[j].serial in t.programs ensures Busy(t, j) {
        assert Busy(s, j);
      }
    }
  }

  /** The two states agree about every channel but `id`. */
  ghost predicate Elsewhere(s: State, t: State, id: Id) {
    forall j | j != id ::
      && (j in t.chans <==> j in s.chans) && (j in t.chans ==> t.chans[j] == s.chans[j])
      && (j in t.shells <==> j in s.shells) && (j in t.shells ==> t.shells[j] == s.shells[j])
      && (j in t.subsystems <==> j in s.subsystems)
  }

  predicate Live(s: State, id: Id) {
    id in s.shells && s.shells[id].live
  }

  /** A change at one channel that starts nothing and does not make a busy channel look free. */
  lemma LocalChange(limits: Limits, s: State, t: State, id: Id)
    requires Always(limits, s) && Elsewhere(s, t, id) && Capped(limits, t) && (t.up ==> s.up)
    requires t.programs == s.programs && t.nextSerial == s.nextSerial
    requires id in t.chans ==>
               id in s.chans && t.chans[id].serial == s.chans[id].serial && (Busy(s, id) ==> Busy(t, id))
    requires Live(t, id) ==> id in t.chans && t.chans[id].confirmed && !t.chans[id].localClosed && id !in t.subsystems
    ensures Always(limits, t)
  {
    assert Serials(t);
    assert Shelled(t);
    if t.up {
      forall j | j in t.chans && t.chans[j].serial in t.programs ensures Busy(t, j) {
        assert Busy(s, j);
      }
    }
  }

  lemma OpenSessionKeeps(limits: Limits, s: State, id: Id)
    requires Always(limits, s) && s.up && id in s.chans && !s.chans[id].confirmed
    ensures Always(limits, OnOpenSession(limits, s, id))
  {
    LocalChange(limits, s, OnOpenSession(limits, s, id), id);
  }

  lemma SmallerSet(a: set<Id>, b: set<Id>)
    requires a <= b
    ensures |a| <= |b|
  {
    assert b == a + (b - a);
  }

  lemma OpenOtherKeeps(limits: Limits, s: State, id: Id, granted: bool)
    requires Always(limits, s) && s.up && id in s.chans && !s.chans[id].confirmed
    ensures Always(limits, OnOpenOther(s, id, granted))
  {
    LocalChange(limits, s, OnOpenOther(s, id, granted), id);
  }

  lemma CloseKeeps(limits: Limits, s: State, id: Id)
    requires Always(limits, s) && s.up && (id in s.chans ==> s.chans[id].remoteClosed && !s.chans[id].localClosed)
    ensures Always(limits, OnClose(s, id)) && id !in OnClose(s, id).chans
  {
    SmallerSet(OnClose(s, id).sessions, s.sessions);
    LocalChange(limits, s, OnClose(s, id), id);
  }

  lemma NotedKeeps(limits: Limits, s: State, p: Packet)
    requires Always(limits, s) && s.up && Arrive(limits, s.chans, s.nextSerial, p).Some?
    ensures Always(limits, Noted(s, Arrive(limits, s.chans, s.nextSerial, p).value, p))
  {
    ArriveSerials(limits, s, p);
    ArriveShelled(limits, s, p);
    ArriveMarked(limits, s, p);
  }

  lemma ConfirmKeeps(limits: Limits, s: State, id: Id)
    requires Always(limits, s) && !(id in s.shells && s.shells[id].live)
    ensures Always(limits, Confirm(s, id)) && Always(limits, Fail(s, id))
  {
    AttachKeeps(limits, s, id);
    BookOnly(limits, s, Fail(s, id));
    if Find(s.book, id).Some? { BookOnly(limits, s.(subsystems := s.subsystems + {id}), Confirm(s, id)); }
  }

  lemma {:induction false} ReactKeeps(limits: Limits, before: map<Id, Channel>, s: State, serial: nat, p: Packet)
    requires Always(limits, s) && s.up && Arrive(limits, before, serial, p) == Some(s.chans)
    requires p.OpenConfirmed? || p.OpenFailed? ==> !(p.id in s.shells && s.shells[p.id].live)
    ensures Always(limits, React(limits, before, s, p))
  {
    match p
    case OpenSession(id) => if Admitted(limits, before, id) { OpenSessionKeeps(limits, s, id); }
    case OpenOther(id, granted) => if Admitted(limits, before, id) { OpenOtherKeeps(limits, s, id, granted); }
    case OpenConfirmed(id) => ConfirmKeeps(limits, s, id);
    case OpenFailed(id) => ConfirmKeeps(limits, s, id);
    case Requested(id, wanted) => RequestKeeps(limits, s, id, wanted);
    case Close(id) => CloseKeeps(limits, s, id);
    case NoMoreSessions => EntriesOnly(limits, s, s.(noMore := true));
    case Traffic(_) =>
  }

  lemma {:induction false} ReceiveKeeps(limits: Limits, s: State, p: Packet)
    requires Always(limits, s) && s.up
    ensures Always(limits, Receive(limits, s, p))
  {
    var r := Arrive(limits, s.chans, s.nextSerial, p);
    if r.Some? {
      NotedKeeps(limits, s, p);
      ReactKeeps(limits, s.chans, Noted(s, r.value, p), s.nextSerial, p);
    }
  }

  lemma BookOnly(limits: Limits, s: State, t: State)
    requires Always(limits, s) && t == s.(book := t.book)
    ensures Always(limits, t)
  {
    EntriesOnly(limits, s, t);
  }

  // --- Every step, every run -----------------------------------------------------------------

  lemma ExitKeeps(limits: Limits, s: State, id: Id)
    requires Always(limits, s) && s.up
    ensures Always(limits, ShellExits(s, id))
  {
    LocalChange(limits, s, ShellExits(s, id), id);
  }

  lemma EndKeeps(limits: Limits, s: State, id: Id)
    requires Always(limits, s) && s.up
    ensures Always(limits, StreamEnds(s, id))
  {
    LocalChange(limits, s, StreamEnds(s, id), id);
  }

  lemma IdleKeeps(limits: Limits, s: State, id: Id)
    requires Always(limits, s) && s.up
    ensures Always(limits, IdleClose(s, id))
  {
    LocalChange(limits, s, IdleClose(s, id), id);
  }

  lemma OpeningKeeps(limits: Limits, s: State, i: nat, id: Id, sent: bool)
    requires Always(limits, s) && s.up
    ensures Always(limits, OpenNext(s, i, id, sent))
  {
    var t := OpenNext(s, i, id, sent);
    if i < |s.book.queue| && id !in s.chans {
      Touched(s, t, id);
      if t.up {
        forall j | j in t.chans && t.chans[j].serial in t.programs ensures Busy(t, j) {
          assert j in s.chans && Busy(s, j);
        }
      }
    }
  }

  lemma {:induction false} NextKeeps(limits: Limits, s: State, step: Step)
    requires Always(limits, s)
    ensures Always(limits, Next(limits, s, step))
  {
    if step.Submit? {
      BookOnly(limits, s, Next(limits, s, step));
    } else if s.up {
      match step
      case Inbound(p) => ReceiveKeeps(limits, s, p);
      case Opening(i, id, sent) => OpeningKeeps(limits, s, i, id, sent);
      case Exiting(id) => ExitKeeps(limits, s, id);
      case Ending(id) => EndKeeps(limits, s, id);
      case Idle(id) => IdleKeeps(limits, s, id);
    }
  }

  lemma {:induction false} RunKeeps(limits: Limits, steps: seq<Step>)
    ensures Always(limits, Run(limits, INIT, steps))
    decreases |steps|
  {
    if steps != [] {
      RunKeeps(limits, steps[..|steps| - 1]);
      NextKeeps(limits, Run(limits, INIT, steps[..|steps| - 1]), steps[|steps| - 1]);
    }
  }

  // --- Main results --------------------------------------------------------------------------

  /** Whatever the peer and the handlers do, a channel has at most one program in its whole life. */
  lemma OneProgram(limits: Limits, steps: seq<Step>, serial: nat)
    ensures Run(limits, INIT, steps).programs[serial] <= 1
  {
    RunKeeps(limits, steps);
  }

  /** ... never a running shell and a stream at once, and the shell's channel is open. */
  lemma NeverBoth(limits: Limits, steps: seq<Step>, id: Id)
    ensures var s := Run(limits, INIT, steps);
            id in s.shells && s.shells[id].live ==>
              id !in s.subsystems && id in s.chans && s.chans[id].confirmed && !s.chans[id].localClosed
  {
    RunKeeps(limits, steps);
  }

  lemma SessionsCapped(limits: Limits, steps: seq<Step>)
    requires limits.maxSessions.Some?
    ensures |Run(limits, INIT, steps).sessions| <= limits.maxSessions.value
  {
    RunKeeps(limits, steps);
  }

  /** Once the dispatcher has seen no-more-sessions no session is ever let in again. */
  lemma {:induction false} NoLateSessions(limits: Limits, s: State, steps: seq<Step>)
    requires s.noMore
    ensures Run(limits, s, steps).sessions <= s.sessions && Run(limits, s, steps).noMore
    decreases |steps|
  {
    if steps != [] {
      NoLateSessions(limits, s, steps[..|steps| - 1]);
      NoLateSession(limits, Run(limits, s, steps[..|steps| - 1]), steps[|steps| - 1]);
    }
  }

  lemma {:induction false} NoLateSession(limits: Limits, s: State, step: Step)
    requires s.noMore
    ensures Next(limits, s, step).sessions <= s.sessions && Next(limits, s, step).noMore
  {
    if step.Inbound? { NoLateOpen(limits, s, step.p); }
  }

  lemma {:induction false} NoLateOpen(limits: Limits, s: State, p: Packet)
    requires s.noMore
    ensures Receive(limits, s, p).sessions <= s.sessions && Receive(limits, s, p).noMore
  {
    if p.Requested? && p.id in s.chans {
      RequestFrame(limits, Noted(s, s.chans, p), p.id, p.wanted);
    }
  }

  /** The parts of the state no request for a program touches. */
  ghost predicate Framed(s: State, t: State) {
    && t.sessions == s.sessions && t.noMore == s.noMore && t.book == s.book
    && t.agents == s.agents && t.displays == s.displays
  }

  lemma {:induction false} ExecFrame(limits: Limits, s: State, id: Id, w: World)
    requires id in s.chans
    ensures Framed(s, RunExec(limits, s, id, w)) && RunExec(limits, s, id, w).envs == s.envs
    ensures RunExec(limits, s, id, w).shells == s.shells
  {
    SwallowSame(limits, s, id, w.during);
  }

  lemma {:induction false} SpawnFrame(limits: Limits, s: State, id: Id, w: World)
    requires id in s.chans
    ensures Framed(s, OnPtyOrExec(limits, s, id, w))
  {
    if SpawnOnPty(s, id, w).None? { ExecFrame(limits, s, id, w); }
  }

  lemma {:induction false} StartExecFrame(limits: Limits, s: State, id: Id, w: World)
    requires id in s.chans
    ensures Framed(s, StartExec(limits, s, id, w))
  {
    SpawnFrame(limits, s, id, w);
  }

  lemma {:induction false} StartSubsystemFrame(limits: Limits, s: State, id: Id, w: World)
    requires id in s.chans
    ensures Framed(s, StartSubsystem(limits, s, id, w))
  {
    if w.forced.Some? { ExecFrame(limits, s, id, w); } else { SpawnFrame(limits, s, id, w); }
  }

  lemma {:induction false} StartShellFrame(limits: Limits, s: State, id: Id, w: World)
    requires id in s.chans
    ensures Framed(s, StartShell(limits, s, id, w))
  {
    if w.forced.Some? { SpawnFrame(limits, s, id, w); }
  }

  lemma {:induction false} RequestFrame(limits: Limits, s: State, id: Id, wanted: Wanted)
    requires id in s.chans
    ensures var t := OnRequest(limits, s, id, wanted);
            t.sessions == s.sessions && t.noMore == s.noMore && t.book == s.book
  {
    var t := s.(envs := s.envs + {id});
    match wanted
    case Exec(w) => StartExecFrame(limits, t, id, w);
    case Subsystem(w) => StartSubsystemFrame(limits, t, id, w);
    case ShellReq(w) => StartShellFrame(limits, t, id, w);
    case _ =>
  }
}
