/**
 The client's `serve` loop: opens asked for by other threads, channels the peer opens, and the
 conditions under which the loop ends.
 */
module Serve {
  import opened Prelude
  import opened Opens
  import opened Dispatch
  import Books = DispatchBooks

  /** `finished`: how the loop ended, if it has (`true` for `Ok`). */
  datatype Loop = Loop(
    chans: map<Id, Channel>, runtimes: set<Id>, book: Book, mismatched: bool, stop: bool, finished: Option<bool>)

  datatype Event =
    | Ask                                      // another thread queues an open
    | TakeCommand(id: Id, sent: bool)          // the loop drains one; `id` from the allocator
    | Confirmed(id: Id, listening: bool)       // `listening`: the asker still waits for the reply
    | Refused(id: Id)
    | PeerOpens(id: Id, granted: bool)
    | PeerCloses(id: Id)
    | RuntimeCloses(id: Id)
    | StopAsked
    | CheckStop
    | Failure                                  // any read, write or protocol error

  const FRESH: Channel := Channel(0, true, false, false, false)

  function Take(l: Loop, id: Id, sent: bool): Loop {
    if l.book.queue == [] then l
    else if l.mismatched then l.(book := Refuse(l.book, 0))
    else if id in l.chans then l
    else if sent then l.(book := Begin(l.book, 0, id), chans := l.chans[id := FRESH])
    else l.(book := Lose(l.book, 0), chans := l.chans[id := FRESH], finished := Some(false))
  }

  function Confirm(l: Loop, id: Id, listening: bool): Loop {
    if id !in l.chans || !l.chans[id].ours || l.chans[id].confirmed then l.(finished := Some(false))
    else
      var t := l.(chans := l.chans[id := l.chans[id].(confirmed := true)]);
      match Find(l.book, id)
      case None => t
      case Some(key) =>
        if listening then t.(book := Resolve(l.book, key, Opened), runtimes := l.runtimes + {id})
        else t.(book := Resolve(l.book, key, Opened), chans := Closed(t.chans, id))
  }

  function Refusal(l: Loop, id: Id): Loop {
    if id !in l.chans || !l.chans[id].ours || l.chans[id].confirmed then l.(finished := Some(false))
    else
      var t := l.(chans := l.chans - {id});
      match Find(l.book, id)
      case None => t
      case Some(key) => t.(book := Resolve(l.book, key, Rejected))
  }

  function Next(l: Loop, e: Event): Loop {
    if e.Ask? then l.(book := Issue(l.book, Direct))
    else if l.finished.Some? then l
    else
      match e
      case TakeCommand(id, sent) => Take(l, id, sent)
      case Confirmed(id, listening) => Confirm(l, id, listening)
      case Refused(id) => Refusal(l, id)
      case PeerOpens(id, granted) =>
        if id in l.chans || !granted || l.mismatched then l
        else l.(chans := l.chans[id := Channel(0, false, true, false, false)], runtimes := l.runtimes + {id})
      case PeerCloses(id) =>
        if id !in l.chans || !l.chans[id].confirmed then l.(finished := Some(false))
        else l.(chans := l.chans - {id}, runtimes := l.runtimes - {id})
      case RuntimeCloses(id) =>
        if id !in l.runtimes then l
        else if id !in l.chans || l.chans[id].localClosed then l.(finished := Some(false))
        else l.(chans := Closed(l.chans, id), runtimes := l.runtimes - {id})
      case StopAsked => l.(stop := true)
      case CheckStop => if l.stop && l.runtimes == {} && l.book.pending == map[] then l.(finished := Some(true)) else l
      case Failure => l.(finished := Some(false))
      case Ask => l
  }

  function Run(l: Loop, events: seq<Event>): Loop
    decreases |events|
  {
    if events == [] then l else Next(Run(l, events[..|events| - 1]), events[|events| - 1])
  }

  function Init(mismatched: bool): Loop {
    Loop(map[], {}, EMPTY, mismatched, false, None)
  }

  // --- What every run keeps ------------------------------------------------------------------

  predicate Unanswered(l: Loop, id: Id) {
    id in l.chans && l.chans[id].ours && !l.chans[id].confirmed
  }

  /** While the loop runs: an open in flight is an unanswered channel, a runtime sits on an open one. */
  ghost predicate Agrees(l: Loop, id: Id) {
    && (Find(l.book, id).Some? <==> Unanswered(l, id))
    && (id in l.runtimes ==> id in l.chans && l.chans[id].confirmed && !l.chans[id].localClosed)
    && (id in l.chans ==> !l.chans[id].remoteClosed && (l.chans[id].localClosed ==> l.chans[id].confirmed))
  }

  ghost predicate InStep(l: Loop) {
    (forall id :: Agrees(l, id)) && OneMapEach(l.book)
  }

  /** No open fails for want of an answer while the loop runs; over a changed key none is even begun. */
  ghost predicate Honest(l: Loop) {
    forall r | r in l.book.places ::
      && l.book.places[r] != Answered(TornDown) && (l.finished != Some(false) ==> l.book.places[r] != Dropped)
      && (l.mismatched ==> !l.book.places[r].Waiting? && l.book.places[r] != Answered(Opened))
  }

  ghost predicate Inv(l: Loop) {
    && Sound(l.book) && Honest(l) && (l.mismatched ==> l.runtimes == {})
    && (l.finished.None? ==> InStep(l))
    && (l.finished == Some(true) ==> l.stop && l.runtimes == {} && l.book.pending == map[])
  }

  lemma ChangeAt(l: Loop, t: Loop, id: Id)
    requires InStep(l) && Agrees(t, id) && OneMapEach(t.book)
    requires forall j | j != id ::
               && (j in t.chans <==> j in l.chans) && (j in t.chans ==> t.chans[j] == l.chans[j])
               && (j in t.runtimes <==> j in l.runtimes) && Find(t.book, j) == Find(l.book, j)
    ensures InStep(t)
  {
    forall j ensures Agrees(t, j) {
      assert Agrees(l, j);
    }
  }

  lemma {:induction false} SoundKeeps(l: Loop, e: Event)
    requires Sound(l.book)
    ensures Sound(Next(l, e).book)
  {
    if e.Ask? {
      IssueKeeps(l.book, Direct);
    } else if l.finished.None? {
      match e
      case TakeCommand(id, sent) => TakeSound(l, id, sent);
      case Confirmed(id, _) => AnswerSound(l, id);
      case Refused(id) => AnswerSound(l, id);
      case _ =>
    }
  }

  lemma TakeSound(l: Loop, id: Id, sent: bool)
    requires Sound(l.book)
    ensures Sound(Take(l, id, sent).book)
  {
    if l.book.queue != [] {
      RefuseKeeps(l.book, 0);
      LoseKeeps(l.book, 0);
      BeginKeeps(l.book, 0, id);
    }
  }

  lemma AnswerSound(l: Loop, id: Id)
    requires Sound(l.book)
    ensures Find(l.book, id).Some? ==>
              && Find(l.book, id).value in l.book.pending
              && Sound(Resolve(l.book, Find(l.book, id).value, Opened))
              && Sound(Resolve(l.book, Find(l.book, id).value, Rejected))
  {
    FindFinds(l.book, id);
    if Find(l.book, id).Some? {
      ResolveKeeps(l.book, Find(l.book, id).value, Opened);
      ResolveKeeps(l.book, Find(l.book, id).value, Rejected);
    }
  }

  lemma HonestKeeps(l: Loop, e: Event)
    requires Honest(l) && PendingSound(l.book) && (l.finished.None? ==> InStep(l))
    ensures Honest(Next(l, e)) && Next(l, e).mismatched == l.mismatched
  {
    match e
    case TakeCommand(id, _) =>
      if l.finished.None? {
        assert Agrees(l, id);
        FindFinds(l.book, id);
      }
    case Confirmed(id, listening) => HonestAnswer(l, id, listening);
    case Refused(id) => HonestAnswer(l, id, false);
    case _ =>
  }

  lemma HonestAnswer(l: Loop, id: Id, listening: bool)
    requires Honest(l) && PendingSound(l.book)
    ensures Honest(Confirm(l, id, listening)) && Honest(Refusal(l, id))
  {
    FindFinds(l.book, id);
  }

  lemma TakeInStep(l: Loop, id: Id, sent: bool)
    requires InStep(l) && l.finished.None? && Take(l, id, sent).finished.None?
    ensures InStep(Take(l, id, sent))
  {
    assert Agrees(l, id);
    var t := Take(l, id, sent);
    if l.book.queue != [] && !l.mismatched && id !in l.chans {
      FindFinds(l.book, id);
      forall j ensures Find(t.book, j) == if j == id then Some(Key(l.book.queue[0].kind, id)) else Find(l.book, j) {
        Books.BeginFinds(l.book, 0, id, j);
      }
      ChangeAt(l, t, id);
    } else {
      ChangeAt(l, t, id);
    }
  }

  lemma AnswerInStep(l: Loop, t: Loop, id: Id, a: Answer)
    requires InStep(l) && Unanswered(l, id)
    requires t == if a == Opened then Confirm(l, id, true) else Refusal(l, id)
    ensures InStep(t)
  {
    assert Agrees(l, id);
    FindFinds(l.book, id);
    var key := Find(l.book, id).value;
    var a := if a == Opened then Opened else Rejected;
    forall j ensures Find(t.book, j) == if j == id then None else Find(l.book, j) {
      Books.ResolveFinds(l.book, key, a, j);
    }
    ChangeAt(l, t, id);
  }

  /** The asker hung up: the channel is closed again at once. */
  lemma HungUpInStep(l: Loop, id: Id)
    requires InStep(l) && Unanswered(l, id)
    ensures InStep(Confirm(l, id, false))
  {
    AnswerInStep(l, Confirm(l, id, true), id, Opened);
    assert Agrees(l, id);
    assert Agrees(Confirm(l, id, true), id);
    ChangeAt(Confirm(l, id, true), Confirm(l, id, false), id);
  }

  lemma Untouched(l: Loop, t: Loop)
    requires InStep(l) && t.chans == l.chans && t.runtimes == l.runtimes && t.book.pending == l.book.pending
    ensures InStep(t)
  {
    forall j ensures Agrees(t, j) {
      assert Agrees(l, j);
    }
  }

  lemma {:induction false} StepKeeps(l: Loop, e: Event)
    requires InStep(l) && l.finished.None? && Next(l, e).finished.None?
    ensures InStep(Next(l, e))
  {
    match e
    case TakeCommand(id, sent) => TakeInStep(l, id, sent);
    case Confirmed(id, listening) =>
      if listening { AnswerInStep(l, Next(l, e), id, Opened); } else { HungUpInStep(l, id); }
    case Refused(id) => AnswerInStep(l, Next(l, e), id, Rejected);
    case PeerOpens(id, _) => assert Agrees(l, id); ChangeAt(l, Next(l, e), id);
    case PeerCloses(id) => assert Agrees(l, id); ChangeAt(l, Next(l, e), id);
    case RuntimeCloses(id) => assert Agrees(l, id); ChangeAt(l, Next(l, e), id);
    case Ask => Untouched(l, Next(l, e));
    case StopAsked => Untouched(l, Next(l, e));
    case CheckStop => Untouched(l, Next(l, e));
    case Failure =>
  }

  /** Over a changed key nothing is in flight to be confirmed, and what the peer opens is refused. */
  lemma NoneRuns(l: Loop, e: Event)
    requires l.mismatched && l.runtimes == {} && Honest(l) && PendingSound(l.book)
    ensures Next(l, e).runtimes == {}
  {
    if e.Confirmed? { FindFinds(l.book, e.id); }
  }

  lemma {:induction false} NextKeeps(l: Loop, e: Event)
    requires Inv(l)
    ensures Inv(Next(l, e)) && Next(l, e).mismatched == l.mismatched
  {
    SoundKeeps(l, e);
    HonestKeeps(l, e);
    if l.mismatched { NoneRuns(l, e); }
    if Next(l, e).finished.None? { StepKeeps(l, e); }
  }

  lemma {:induction false} RunKeeps(mismatched: bool, events: seq<Event>)
    ensures Inv(Run(Init(mismatched), events)) && Run(Init(mismatched), events).mismatched == mismatched
    decreases |events|
  {
    if events != [] {
      RunKeeps(mismatched, events[..|events| - 1]);
      NextKeeps(Run(Init(mismatched), events[..|events| - 1]), events[|events| - 1]);
    }
  }

  // --- Main results --------------------------------------------------------------------------

  /** `serve` returns `Ok` only with nothing live, and then every open is answered or was not begun. */
  lemma OkMeansQuiet(mismatched: bool, events: seq<Event>)
    ensures var l := Run(Init(mismatched), events);
            l.finished == Some(true) ==>
              && l.stop && l.runtimes == {} && l.book.pending == map[]
              && forall r | r in l.book.places :: l.book.places[r] in {Queued, Answered(Opened), Answered(Rejected)}
  {
    RunKeeps(mismatched, events);
    var l := Run(Init(mismatched), events);
    if l.finished == Some(true) {
      forall r | r in l.book.places ensures l.book.places[r] in {Queued, Answered(Opened), Answered(Rejected)} {
        QuietPlace(l, r);
      }
    }
  }

  lemma QuietPlace(l: Loop, r: Request)
    requires Inv(l) && l.finished == Some(true) && r in l.book.places
    ensures l.book.places[r] in {Queued, Answered(Opened), Answered(Rejected)}
  {
    match l.book.places[r]
    case Answered(a) => assert a != TornDown;
    case _ =>
  }

  /** However it ends, the final clean-up leaves nobody waiting, answers nobody twice and changes no answer. */
  lemma CleanUpSettles(mismatched: bool, events: seq<Event>, r: Request)
    ensures var b := Run(Init(mismatched), events).book;
            var t := CleanUp(b);
            && Sound(t) && Settled(t) && t.replies[r] <= 1
            && (r in b.places ==> t.places[r] == Final(b.places[r]))
            && (b.replies[r] == 1 ==> t.places[r] == b.places[r])
  {
    RunKeeps(mismatched, events);
    Opens.CleanUpSettles(Run(Init(mismatched), events).book);
    AnsweredOnce(CleanUp(Run(Init(mismatched), events).book), r);
  }

  /** Over a changed host key no forward is ever opened, in either direction, and no channel is served. */
  lemma NoForwardOverMismatch(events: seq<Event>, r: Request)
    ensures var b := Run(Init(true), events).book;
            r in b.places ==> !b.places[r].Waiting? && b.places[r] != Answered(Opened)
    ensures Run(Init(true), events).runtimes == {}
  {
    RunKeeps(true, events);
  }
}
