/**
 Whether the dispatcher's maps agree with the channel table.  They do as long as every packet is
 dispatched; a buffered command swallows the packets that arrive while its output waits, and the exact
 ones that matter are named here.
 */
module DispatchBooks {
  import opened Prelude
  import opened Opens
  import opened Dispatch
  import opened DispatchRuns

  /** Every id the dispatcher holds something for. */
  function Tracked(s: State): set<Id> {
    s.sessions + s.shells.Keys + s.subsystems + s.envs + s.agents + s.displays
  }

  /** Our open of this channel is still unanswered. */
  predicate Unanswered(s: State, id: Id) {
    id in s.chans && s.chans[id].ours && !s.chans[id].confirmed
  }

  /**
   The maps agree about one id: the peer's open was answered and its CLOSE acted on, entries stand for
   an open channel, shells, agents and displays for a session of the peer's, and an open is in flight
   exactly while ours is unanswered.
   */
  ghost predicate Tidy(s: State, id: Id) {
    && (id in s.chans ==> !s.chans[id].remoteClosed && (s.chans[id].ours || s.chans[id].confirmed))
    && (id in Tracked(s) ==> id in s.chans && s.chans[id].confirmed)
    && (id in s.sessions ==> id in s.chans && !s.chans[id].ours)
    && (id in s.shells || id in s.agents || id in s.displays ==> id in s.sessions)
    && (Find(s.book, id).Some? <==> Unanswered(s, id))
  }

  ghost predicate InStep(s: State) {
    && (forall id :: Tidy(s, id))
    && OneMapEach(s.book) && s.noMore == s.saidNoMore
  }

  // --- Swallowed packets ---------------------------------------------------------------------

  /** A swallowed packet that costs the dispatcher nothing. */
  predicate Harmless(limits: Limits, s: State, p: Packet) {
    match p
    case OpenSession(id) => !Admitted(limits, s.chans, id)
    case OpenOther(id, _) => !Admitted(limits, s.chans, id)
    case OpenConfirmed(_) => false
    case OpenFailed(_) => false
    case Close(id) => id in s.chans && s.chans[id].localClosed && id !in Tracked(s)
    case NoMoreSessions => s.noMore
    case _ => true
  }

  predicate HarmlessRun(limits: Limits, s: State, during: seq<Packet>)
    decreases |during|
  {
    during == [] ||
    match Arrive(limits, s.chans, s.nextSerial, during[0])
    case None => true
    case Some(chans) =>
      Harmless(limits, s, during[0]) && HarmlessRun(limits, Noted(s, chans, during[0]), during[1..])
  }

  /** A disagreement about channel `id` that no later packet can mend. */
  predicate Stuck(s: State, id: Id) {
    || (id in s.chans && !s.chans[id].ours && !s.chans[id].confirmed)
    || (id in s.chans && s.chans[id].confirmed && s.chans[id].remoteClosed && !s.chans[id].localClosed)
    || (id in Tracked(s) && id !in s.chans)
    || (Find(s.book, id).Some? && !Unanswered(s, id))
    || s.noMore != s.saidNoMore
  }

  lemma StuckMeans(s: State, id: Id)
    requires Stuck(s, id)
    ensures !InStep(s)
  {
    assert !Tidy(s, id) || s.noMore != s.saidNoMore;
  }

  lemma StuckStays(limits: Limits, s: State, id: Id, p: Packet)
    requires Stuck(s, id) && (s.noMore ==> s.saidNoMore)
    ensures var r := Arrive(limits, s.chans, s.nextSerial, p); r.Some? ==> Stuck(Noted(s, r.value, p), id)
  {
  }

  lemma HarmfulSticks(limits: Limits, s: State, p: Packet)
    requires InStep(s) && !Harmless(limits, s, p)
    ensures var r := Arrive(limits, s.chans, s.nextSerial, p); r.Some? ==> Stuck(Noted(s, r.value, p), About(p))
  {
    assert Tidy(s, About(p));
  }

  /** The two states agree about every id but `id`. */
  ghost predicate AllElsewhere(s: State, t: State, id: Id) {
    forall j | j != id ::
      && (j in t.chans <==> j in s.chans) && (j in t.chans ==> t.chans[j] == s.chans[j])
      && (j in t.sessions <==> j in s.sessions) && (j in t.shells <==> j in s.shells)
      && (j in t.subsystems <==> j in s.subsystems) && (j in t.envs <==> j in s.envs)
      && (j in t.agents <==> j in s.agents) && (j in t.displays <==> j in s.displays)
      && Find(t.book, j) == Find(s.book, j)
  }

  lemma ChangeAt(s: State, t: State, id: Id)
    requires InStep(s) && AllElsewhere(s, t, id) && Tidy(t, id)
    requires OneMapEach(t.book) && t.noMore == t.saidNoMore
    ensures InStep(t)
  {
    forall j ensures Tidy(t, j) {
      assert Tidy(s, j);
    }
  }

  /** A confirmed channel nothing is held for may go. */
  lemma DropUntracked(s: State, id: Id)
    requires InStep(s) && id in s.chans && s.chans[id].confirmed && id !in Tracked(s)
    ensures InStep(s.(chans := s.chans - {id}))
  {
    assert Tidy(s, id);
    ChangeAt(s, s.(chans := s.chans - {id}), id);
  }

  lemma SameBooks(s: State, t: State)
    requires InStep(s) && t == s.(nextSerial := t.nextSerial, programs := t.programs, up := t.up)
    ensures InStep(t)
  {
    forall j ensures Tidy(t, j) {
      assert Tidy(s, j);
    }
  }

  lemma HarmlessKeeps(limits: Limits, s: State, p: Packet)
    requires InStep(s) && Harmless(limits, s, p)
    ensures var r := Arrive(limits, s.chans, s.nextSerial, p); r.Some? ==> InStep(Noted(s, r.value, p))
  {
    var r := Arrive(limits, s.chans, s.nextSerial, p);
    if r.Some? {
      if p.Close? {
        DropUntracked(s, p.id);
        SameBooks(s.(chans := r.value), Noted(s, r.value, p));
      } else {
        SameBooks(s, Noted(s, r.value, p));
      }
    }
  }

  lemma {:induction false} StuckThrough(limits: Limits, s: State, id: Id, during: seq<Packet>, at: Id)
    requires Stuck(s, at) && (s.noMore ==> s.saidNoMore)
    ensures Stuck(Swallow(limits, s, id, during), at)
    decreases |during|
  {
    if during != [] && s.up {
      var r := Arrive(limits, s.chans, s.nextSerial, during[0]);
      StuckStays(limits, s, at, during[0]);
      if r.Some? && during[0] != Close(id) {
        StuckThrough(limits, Noted(s, r.value, during[0]), id, during[1..], at);
      }
    }
  }

  /** Swallowing keeps the books exactly when each swallowed packet is harmless. */
  lemma {:induction false} SwallowExact(limits: Limits, s: State, id: Id, during: seq<Packet>)
    requires InStep(s) && Swallow(limits, s, id, during).up
    ensures InStep(Swallow(limits, s, id, during)) <==> HarmlessRun(limits, s, during)
    ensures !HarmlessRun(limits, s, during) ==> exists at :: Stuck(Swallow(limits, s, id, during), at)
    decreases |during|
  {
    if during != [] {
      if s.up {
        var r := Arrive(limits, s.chans, s.nextSerial, during[0]);
        var t := Noted(s, r.value, during[0]);
        if Harmless(limits, s, during[0]) {
          HarmlessKeeps(limits, s, during[0]);
          SwallowExact(limits, t, id, during[1..]);
        } else {
          HarmfulSticks(limits, s, during[0]);
          StuckThrough(limits, t, id, during[1..], About(during[0]));
          StuckMeans(Swallow(limits, s, id, during), About(during[0]));
        }
      }
    }
  }

  /** A buffered command leaves the books right exactly when what it swallowed was harmless. */
  lemma {:induction false} BufferedExact(limits: Limits, s: State, id: Id, w: World)
    requires InStep(s) && s.up && id in s.chans && s.chans[id].confirmed && !s.chans[id].localClosed && !w.claims
    requires RunExec(limits, s, id, w).up
    ensures InStep(RunExec(limits, s, id, w)) <==> HarmlessRun(limits, s, w.during)
  {
    var t := Swallow(limits, s, id, w.during);
    assert Tidy(s, id);
    SwallowExact(limits, s, id, w.during);
    SwallowSpares(limits, s, id, w.during);
    var u := t.(programs := Started(s, id).programs);
    if HarmlessRun(limits, s, w.during) {
      SameBooks(t, u);
      CloseLocally(u, id);
    } else {
      var at :| Stuck(t, at);
      StuckMeans(u.(chans := Closed(u.chans, id)), at);
    }
  }

  // --- Dispatched packets --------------------------------------------------------------------

  /** Our own CLOSE goes out on an open channel. */
  lemma CloseLocally(s: State, id: Id)
    requires InStep(s) && id in s.chans && s.chans[id].confirmed
    ensures InStep(s.(chans := Closed(s.chans, id)))
  {
    assert Tidy(s, id);
    ChangeAt(s, s.(chans := Closed(s.chans, id)), id);
  }

  lemma ResolveFinds(b: Book, key: Key, a: Answer, j: Id)
    requires key in b.pending && OneMapEach(b)
    ensures Find(Resolve(b, key, a), j) == if j == key.id then None else Find(b, j)
  {
    FindFinds(b, j);
    FindFinds(Resolve(b, key, a), j);
  }

  lemma BeginFinds(b: Book, i: nat, id: Id, j: Id)
    requires i < |b.queue| && Find(b, id).None?
    ensures Find(Begin(b, i, id), j) == if j == id then Some(Key(b.queue[i].kind, id)) else Find(b, j)
  {
    FindFinds(b, id);
    var t := Begin(b, i, id);
    FindFinds(t, j);
    if j == id {
      match b.queue[i].kind
      case ForwardedTcpip => assert Find(t, id) == Some(Key(ForwardedTcpip, id));
      case AuthAgent => assert Find(t, id) == Some(Key(AuthAgent, id));
      case X11 => assert Find(t, id) == Some(Key(X11, id));
      case ForwardedStreamlocal => assert Find(t, id) == Some(Key(ForwardedStreamlocal, id));
      case Direct => assert Find(t, id) == Some(Key(Direct, id));
    }
  }

  /** An open let in: the channel is confirmed and has its entries, whichever they are. */
  lemma LetIn(s: State, t: State, id: Id)
    requires InStep(s) && id !in s.chans && AllElsewhere(s, t, id) && t.book == s.book
    requires id in t.chans && t.chans[id].confirmed && !t.chans[id].ours && !t.chans[id].remoteClosed
    requires t.shells == s.shells && t.agents == s.agents && t.displays == s.displays
    requires t.noMore == t.saidNoMore
    ensures InStep(t)
  {
    assert Tidy(s, id);
    ChangeAt(s, t, id);
  }

  lemma SessionOpens(limits: Limits, s: State, id: Id)
    requires InStep(s) && Admitted(limits, s.chans, id)
    ensures var t := Receive(limits, s, OpenSession(id)); t.up ==> InStep(t)
  {
    var c := Channel(s.nextSerial, false, false, false, false);
    var n := Noted(s, s.chans[id := c], OpenSession(id));
    assert Receive(limits, s, OpenSession(id)) == OnOpenSession(limits, n, id);
    SessionDecided(limits, s, n, id);
  }

  lemma SessionDecided(limits: Limits, s: State, n: State, id: Id)
    requires InStep(s) && id !in s.chans
    requires n == s.(chans := n.chans, nextSerial := n.nextSerial)
    requires n.chans == s.chans[id := Channel(s.nextSerial, false, false, false, false)]
    ensures OnOpenSession(limits, n, id).up ==> InStep(OnOpenSession(limits, n, id))
  {
    var t := OnOpenSession(limits, n, id);
    if limits.maxSessions.Some? && |s.sessions| >= limits.maxSessions.value {
      assert n.chans - {id} == s.chans;
      SameBooks(s, s.(nextSerial := n.nextSerial));
    } else if t.up {
      LetIn(s, t, id);
    }
  }

  lemma OtherOpens(limits: Limits, s: State, id: Id, granted: bool)
    requires InStep(s) && Admitted(limits, s.chans, id)
    ensures InStep(Receive(limits, s, OpenOther(id, granted)))
  {
    var c := Channel(s.nextSerial, false, false, false, false);
    var t := Receive(limits, s, OpenOther(id, granted));
    if granted {
      assert t.chans == s.chans[id := c.(confirmed := true)];
      LetIn(s, t, id);
    } else {
      assert s.chans[id := c] - {id} == s.chans;
      SameBooks(s, t);
    }
  }

  lemma OpenAnswered(limits: Limits, s: State, p: Packet)
    requires InStep(s) && (p.OpenConfirmed? || p.OpenFailed?)
    ensures var t := Receive(limits, s, p); s.up && t.up ==> InStep(t)
  {
    assert Tidy(s, p.id);
    var t := Receive(limits, s, p);
    if s.up && t.up {
      FindFinds(s.book, p.id);
      var key := Find(s.book, p.id).value;
      var a := if p.OpenConfirmed? then Opened else Rejected;
      assert t.book == Resolve(s.book, key, a);
      forall j ensures Find(t.book, j) == if j == p.id then None else Find(s.book, j) {
        ResolveFinds(s.book, key, a, j);
      }
      ChangeAt(s, t, p.id);
    }
  }

  lemma ClosePasses(limits: Limits, s: State, id: Id)
    requires InStep(s)
    ensures var t := Receive(limits, s, Close(id)); s.up && t.up ==> InStep(t) && id !in Tracked(t) && id !in t.chans
  {
    assert Tidy(s, id);
    var t := Receive(limits, s, Close(id));
    if s.up && t.up { ChangeAt(s, t, id); }
  }

  lemma OpeningKept(s: State, i: nat, id: Id, sent: bool)
    requires InStep(s)
    ensures var t := OpenNext(s, i, id, sent); s.up && t.up ==> InStep(t)
  {
    assert Tidy(s, id);
    var t := OpenNext(s, i, id, sent);
    if s.up && t.up && i < |s.book.queue| && id !in s.chans {
      FindFinds(s.book, id);
      forall j ensures Find(t.book, j) == if j == id then Some(Key(s.book.queue[i].kind, id)) else Find(s.book, j) {
        BeginFinds(s.book, i, id, j);
      }
      ChangeAt(s, t, id);
    }
  }

  lemma ExitKept(s: State, id: Id)
    requires InStep(s) && s.up && ShellExits(s, id).up
    ensures InStep(ShellExits(s, id))
  {
    assert Tidy(s, id);
    ChangeAt(s, ShellExits(s, id), id);
  }

  lemma EndKept(s: State, id: Id)
    requires InStep(s)
    ensures InStep(StreamEnds(s, id)) && StreamEnds(s, id).up == s.up
  {
    assert Tidy(s, id);
    ChangeAt(s, StreamEnds(s, id), id);
  }

  lemma IdleKept(s: State, id: Id)
    requires InStep(s)
    ensures InStep(IdleClose(s, id))
  {
    assert Tidy(s, id);
    ChangeAt(s, IdleClose(s, id), id);
  }

  // --- Requests ------------------------------------------------------------------------------

  /** On a session channel, entries may come and go. */
  lemma EntryChange(s: State, t: State, id: Id)
    requires InStep(s) && id in s.sessions && AllElsewhere(s, t, id)
    requires t.chans == s.chans && t.sessions == s.sessions && t.book == s.book
    requires t.noMore == s.noMore && t.saidNoMore == s.saidNoMore
    ensures InStep(t)
  {
    assert Tidy(s, id);
    ChangeAt(s, t, id);
  }

  lemma EnvKept(s: State, id: Id)
    requires InStep(s) && id in s.chans && s.chans[id].confirmed
    ensures InStep(s.(envs := s.envs + {id}))
  {
    assert Tidy(s, id);
    ChangeAt(s, s.(envs := s.envs + {id}), id);
  }

  /** A session channel with room for a program, and nothing harmful while a buffered one runs. */
  ghost predicate Quiet(limits: Limits, s: State, id: Id, w: World) {
    && InStep(s) && s.up && id in s.chans && s.chans[id].confirmed && !s.chans[id].localClosed && id in s.sessions
    && HarmlessRun(limits, s, w.during)
  }

  lemma {:induction false} ExecKept(limits: Limits, s: State, id: Id, w: World)
    requires Quiet(limits, s, id, w)
    ensures RunExec(limits, s, id, w).up ==> InStep(RunExec(limits, s, id, w))
  {
    if w.claims {
      EntryChange(s, StartStream(s, id), id);
    } else if RunExec(limits, s, id, w).up {
      BufferedExact(limits, s, id, w);
    }
  }

  lemma {:induction false} SpawnKept(limits: Limits, s: State, id: Id, w: World)
    requires Quiet(limits, s, id, w)
    ensures OnPtyOrExec(limits, s, id, w).up ==> InStep(OnPtyOrExec(limits, s, id, w))
  {
    if SpawnOnPty(s, id, w).None? {
      ExecKept(limits, s, id, w);
    } else {
      EntryChange(s, OnPtyOrExec(limits, s, id, w), id);
    }
  }

  lemma {:induction false} StartExecKept(limits: Limits, s: State, id: Id, w: World)
    requires Quiet(limits, s, id, w)
    ensures StartExec(limits, s, id, w).up ==> InStep(StartExec(limits, s, id, w))
  {
    if w.forced == Some(true) {
      EntryChange(s, RouteSftp(s, id, w), id);
    } else {
      SpawnKept(limits, s, id, w);
    }
  }

  lemma {:induction false} StartShellKept(limits: Limits, s: State, id: Id, w: World)
    requires Quiet(limits, s, id, w)
    ensures StartShell(limits, s, id, w).up ==> InStep(StartShell(limits, s, id, w))
  {
    if w.forced.Some? && !w.forced.value {
      SpawnKept(limits, s, id, w);
    } else {
      EntryChange(s, StartShell(limits, s, id, w), id);
    }
  }

  lemma {:induction false} StartSubsystemKept(limits: Limits, s: State, id: Id, w: World)
    requires Quiet(limits, s, id, w)
    ensures StartSubsystem(limits, s, id, w).up ==> InStep(StartSubsystem(limits, s, id, w))
  {
    EntryChange(s, StartStream(s, id), id);
    if w.forced.Some? && !w.forced.value {
      ExecKept(limits, s, id, w);
    } else if w.forced.None? && w.command.Some? {
      SpawnKept(limits, s, id, w);
    }
  }

  /** Packets swallowed by a buffered command, if this request should lead to one, are harmless. */
  ghost predicate QuietRequest(limits: Limits, s: State, id: Id, wanted: Wanted) {
    SessionOnly(wanted) == Some(true) ==> HarmlessRun(limits, s.(envs := s.envs + {id}), wanted.w.during)
  }

  lemma {:induction false} RequestKept(limits: Limits, s: State, id: Id, wanted: Wanted)
    requires InStep(s) && s.up && id in s.chans && s.chans[id].confirmed && QuietRequest(limits, s, id, wanted)
    ensures OnRequest(limits, s, id, wanted).up ==> InStep(OnRequest(limits, s, id, wanted))
  {
    var t := s.(envs := s.envs + {id});
    EnvKept(s, id);
    if SessionOnly(wanted).Some? && id in s.sessions {
      if !SessionOnly(wanted).value {
        EntryChange(t, SetUp(t, id, wanted), id);
      } else if !Busy(s, id) {
        match wanted
        case Exec(w) => StartExecKept(limits, t, id, w);
        case ShellReq(w) => StartShellKept(limits, t, id, w);
        case Subsystem(w) => StartSubsystemKept(limits, t, id, w);
      }
    }
  }

  // --- Every step, every run -----------------------------------------------------------------

  ghost predicate QuietStep(limits: Limits, s: State, step: Step) {
    step.Inbound? && step.p.Requested? ==> QuietRequest(limits, Noted(s, s.chans, step.p), step.p.id, step.p.wanted)
  }

  lemma {:induction false} ReceiveKept(limits: Limits, s: State, p: Packet)
    requires InStep(s) && s.up && QuietStep(limits, s, Inbound(p))
    ensures Receive(limits, s, p).up ==> InStep(Receive(limits, s, p))
  {
    match p
    case OpenSession(id) =>
      if Admitted(limits, s.chans, id) { SessionOpens(limits, s, id); } else { Ignored(limits, s, p); }
    case OpenOther(id, granted) =>
      if Admitted(limits, s.chans, id) { OtherOpens(limits, s, id, granted); } else { Ignored(limits, s, p); }
    case OpenConfirmed(_) => OpenAnswered(limits, s, p);
    case OpenFailed(_) => OpenAnswered(limits, s, p);
    case Close(id) => ClosePasses(limits, s, id);
    case Requested(id, wanted) =>
      var t := Noted(s, s.chans, p);
      SameBooks(s, t);
      if id in s.chans && s.chans[id].confirmed { RequestKept(limits, t, id, wanted); }
    case _ => Ignored(limits, s, p);
  }

  lemma Ignored(limits: Limits, s: State, p: Packet)
    requires InStep(s)
    requires p.Traffic? || p.NoMoreSessions? || ((p.OpenSession? || p.OpenOther?) && !Admitted(limits, s.chans, p.id))
    ensures Receive(limits, s, p).up ==> InStep(Receive(limits, s, p))
  {
    var t := Receive(limits, s, p);
    if t.up {
      forall j ensures Tidy(t, j) {
        assert Tidy(s, j);
      }
    }
  }

  ghost predicate Inv(s: State) {
    Sound(s.book) && (s.up ==> InStep(s))
  }

  /** The book stays sound whatever happens, swallowed packets included. */
  lemma {:induction false} BookKept(limits: Limits, s: State, step: Step)
    requires Sound(s.book)
    ensures Sound(Next(limits, s, step).book)
  {
    if step.Submit? {
      IssueKeeps(s.book, step.kind);
    } else if s.up {
      match step
      case Opening(i, id, sent) =>
        if i < |s.book.queue| && id !in s.chans {
          BeginKeeps(s.book, i, id);
          LoseKeeps(s.book, i);
        }
      case Inbound(p) => PacketBook(limits, s, p);
      case _ =>
    }
  }

  lemma {:induction false} PacketBook(limits: Limits, s: State, p: Packet)
    requires Sound(s.book)
    ensures Sound(Receive(limits, s, p).book)
  {
    match p
    case OpenConfirmed(id) =>
      FindFinds(s.book, id);
      if Find(s.book, id).Some? { ResolveKeeps(s.book, Find(s.book, id).value, Opened); }
    case OpenFailed(id) =>
      FindFinds(s.book, id);
      if Find(s.book, id).Some? { ResolveKeeps(s.book, Find(s.book, id).value, Rejected); }
    case Requested(id, wanted) =>
      if id in s.chans { RequestFrame(limits, Noted(s, s.chans, p), id, wanted); }
    case _ =>
  }

  /** No step forgets a request. */
  lemma {:induction false} NoneForgotten(limits: Limits, s: State, step: Step)
    ensures forall r | r in s.book.places :: r in Next(limits, s, step).book.places
  {
    if step.Inbound? { NoneForgottenBy(limits, s, step.p); }
  }

  lemma {:induction false} NoneForgottenBy(limits: Limits, s: State, p: Packet)
    ensures forall r | r in s.book.places :: r in Receive(limits, s, p).book.places
  {
    if p.Requested? && p.id in s.chans {
      RequestFrame(limits, Noted(s, s.chans, p), p.id, p.wanted);
    }
  }

  lemma {:induction false} BookAlways(limits: Limits, steps: seq<Step>)
    ensures Sound(Run(limits, INIT, steps).book)
    decreases |steps|
  {
    if steps != [] {
      BookAlways(limits, steps[..|steps| - 1]);
      BookKept(limits, Run(limits, INIT, steps[..|steps| - 1]), steps[|steps| - 1]);
    }
  }

  lemma {:induction false} NextKept(limits: Limits, s: State, step: Step)
    requires Inv(s) && QuietStep(limits, s, step)
    ensures Inv(Next(limits, s, step))
  {
    BookKept(limits, s, step);
    if step.Submit? {
      if s.up { SubmitKept(s, step.kind); }
    } else if s.up {
      match step
      case Inbound(p) => ReceiveKept(limits, s, p);
      case Opening(i, id, sent) => OpeningKept(s, i, id, sent);
      case Exiting(id) => if ShellExits(s, id).up { ExitKept(s, id); }
      case Ending(id) => EndKept(s, id);
      case Idle(id) => IdleKept(s, id);
    }
  }

  lemma SubmitKept(s: State, kind: Kind)
    requires InStep(s)
    ensures InStep(s.(book := Issue(s.book, kind)))
  {
    var t := s.(book := Issue(s.book, kind));
    forall j ensures Tidy(t, j) {
      assert Tidy(s, j);
    }
  }

  /** Nothing harmful was swallowed along the way. */
  ghost predicate QuietRun(limits: Limits, steps: seq<Step>)
    decreases |steps|
  {
    steps == [] ||
    var before := steps[..|steps| - 1];
    QuietRun(limits, before) && QuietStep(limits, Run(limits, INIT, before), steps[|steps| - 1])
  }

  lemma {:induction false} RunKept(limits: Limits, steps: seq<Step>)
    requires QuietRun(limits, steps)
    ensures Inv(Run(limits, INIT, steps))
    decreases |steps|
  {
    if steps == [] {
      forall id ensures Tidy(INIT, id) {
      }
    } else {
      RunKept(limits, steps[..|steps| - 1]);
      NextKept(limits, Run(limits, INIT, steps[..|steps| - 1]), steps[|steps| - 1]);
    }
  }

  // --- Main results --------------------------------------------------------------------------

  /** While nothing harmful is swallowed, entries exist only for channels the peer has not closed. */
  lemma EntriesAreOpen(limits: Limits, steps: seq<Step>, id: Id)
    requires QuietRun(limits, steps) && Run(limits, INIT, steps).up
    ensures var s := Run(limits, INIT, steps);
            && (id in s.shells || id in s.agents || id in s.displays ==> id in s.sessions)
            && (id in s.sessions ==> id in s.chans && !s.chans[id].ours)
            && (id in Tracked(s) ==> id in s.chans && s.chans[id].confirmed && !s.chans[id].remoteClosed)
  {
    RunKept(limits, steps);
    assert Tidy(Run(limits, INIT, steps), id);
  }

  /** ... and an open is in flight exactly while the peer owes an answer, in exactly one of the maps. */
  lemma OpensInFlight(limits: Limits, steps: seq<Step>, id: Id)
    requires QuietRun(limits, steps) && Run(limits, INIT, steps).up
    ensures var s := Run(limits, INIT, steps);
            && (Find(s.book, id).Some? <==> Unanswered(s, id))
            && (forall j, k | j in s.book.pending && k in s.book.pending && j.id == k.id :: j == k)
  {
    RunKept(limits, steps);
    assert Tidy(Run(limits, INIT, steps), id);
  }

  /** ... and a no-more-sessions the peer has sent is one the dispatcher acts on. */
  lemma NoMoreIsHeard(limits: Limits, steps: seq<Step>)
    requires QuietRun(limits, steps) && Run(limits, INIT, steps).up
    ensures Run(limits, INIT, steps).noMore == Run(limits, INIT, steps).saidNoMore
  {
    RunKept(limits, steps);
  }

  /**
   In every run, quiet or not, a request is answered at most once and is where the book says: queued, in
   flight, answered, or with its slot dropped.  Teardown settles what is left.
   */
  lemma OpensSettle(limits: Limits, steps: seq<Step>, r: Request)
    ensures var b := Run(limits, INIT, steps).book;
            && Sound(b) && b.replies[r] <= 1
            && (b.replies[r] == 1 ==> r !in b.queue && forall key | key in b.pending :: b.pending[key] != r)
  {
    BookAlways(limits, steps);
    AnsweredOnce(Run(limits, INIT, steps).book, r);
  }

  const LOUD: World := World(None, false, Unsupported, false, false, false, false, false, None, [Close(2)], true)
  const ROOM: Limits := Limits(None, 8)

  /**
   A buffered command on one session swallows the CLOSE of another: the dispatcher still counts that
   session, and never closes its side.
   */
  lemma {:induction false} SwallowedClose()
    ensures var s := Run(ROOM, INIT, [Inbound(OpenSession(1)), Inbound(OpenSession(2)),
                                      Inbound(Requested(1, Exec(LOUD)))]);
            && s.up && !InStep(s)
            && 2 in s.sessions && 2 in s.chans && s.chans[2].remoteClosed && !s.chans[2].localClosed
  {
    var steps := [Inbound(OpenSession(1)), Inbound(OpenSession(2)), Inbound(Requested(1, Exec(LOUD)))];
    assert steps[..2] == [Inbound(OpenSession(1)), Inbound(OpenSession(2))];
    TwoSessions();
    var two := WithSession(WithSession(INIT, 1), 2);
    assert Run(ROOM, INIT, steps) == Receive(ROOM, two, Requested(1, Exec(LOUD)));
    LoudCommand(two);
    StuckMeans(Receive(ROOM, two, Requested(1, Exec(LOUD))), 2);
  }

  lemma {:induction false} TwoSessions()
    ensures |WithSession(INIT, 1).chans| == 1
    ensures Run(ROOM, INIT, [Inbound(OpenSession(1)), Inbound(OpenSession(2))]) == WithSession(WithSession(INIT, 1), 2)
  {
    var steps := [Inbound(OpenSession(1)), Inbound(OpenSession(2))];
    assert steps[..1] == [Inbound(OpenSession(1))] && steps[..1][..0] == [];
    assert Run(ROOM, INIT, []) == INIT;
    assert Run(ROOM, INIT, steps[..1]) == WithSession(INIT, 1);
  }

  lemma {:induction false} LoudCommand(s: State)
    requires s.up && 1 in s.sessions && !Busy(s, 1) && 1 in s.chans && s.chans[1].confirmed && !s.chans[1].remoteClosed
    requires 2 in s.chans && s.chans[2].confirmed && !s.chans[2].localClosed && 2 in s.sessions && 1 !in s.shells
    ensures var t := Receive(ROOM, s, Requested(1, Exec(LOUD)));
            && t.up && t.sessions == s.sessions
            && 2 in t.chans && t.chans[2].confirmed && t.chans[2].remoteClosed && !t.chans[2].localClosed
  {
    var t := Noted(s, s.chans, Requested(1, Exec(LOUD)));
    var u := t.(envs := t.envs + {1});
    SwallowOne(ROOM, u, 1, Close(2));
    assert Receive(ROOM, s, Requested(1, Exec(LOUD))) == RunExec(ROOM, u, 1, LOUD);
  }

  /** A session open let in under `id`. */
  function WithSession(s: State, id: Id): (t: State)
    requires s.up && !s.noMore && Admitted(ROOM, s.chans, id)
    ensures t == Receive(ROOM, s, OpenSession(id))
  {
    s.(chans := s.chans[id := Channel(s.nextSerial, false, true, false, false)], nextSerial := s.nextSerial + 1,
       sessions := s.sessions + {id}, envs := s.envs + {id})
  }

  lemma SwallowOne(limits: Limits, s: State, id: Id, p: Packet)
    requires s.up && p != Close(id) && Arrive(limits, s.chans, s.nextSerial, p).Some?
    ensures Swallow(limits, s, id, [p]) == Noted(s, Arrive(limits, s.chans, s.nextSerial, p).value, p)
  {
  }
}
