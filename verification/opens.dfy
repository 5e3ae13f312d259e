/**
 Channel opens we ask the peer for on behalf of other threads: each request carries a reply slot,
 waits in a queue, then under the id of the channel being opened, and is answered from there.
 */
module Opens {
  import opened Prelude

  type Id = u32

  /** The four kinds a server opens, and the client's direct opens. */
  datatype Kind = ForwardedTcpip | AuthAgent | X11 | ForwardedStreamlocal | Direct

  datatype Request = Request(kind: Kind, serial: nat)

  datatype Answer = Opened | Rejected | TornDown

  /** Where a request is.  `Dropped`: its reply slot was discarded, which its owner also notices. */
  datatype Place = Queued | Waiting(id: Id) | Answered(a: Answer) | Dropped

  datatype Key = Key(kind: Kind, id: Id)

  /** `pending` is the per-kind `pending_opens` maps; `places` and `replies` are histories. */
  datatype Book = Book(
    next: nat, queue: seq<Request>, pending: map<Key, Request>,
    places: map<Request, Place>, replies: multiset<Request>)

  const EMPTY: Book := Book(0, [], map[], map[], multiset{})

  // --- Operations ----------------------------------------------------------------------------

  function Without(q: seq<Request>, i: nat): seq<Request>
    requires i < |q|
  {
    q[..i] + q[i + 1..]
  }

  function Issue(b: Book, kind: Kind): Book {
    var r := Request(kind, b.next);
    b.(next := b.next + 1, queue := b.queue + [r], places := b.places[r := Queued])
  }

  /** A request still waiting under `key` loses its slot to whatever is put there. */
  function Displaced(b: Book, key: Key): map<Request, Place> {
    if key in b.pending then b.places[b.pending[key] := Dropped] else b.places
  }

  /** The open went out under channel `id`. */
  function Begin(b: Book, i: nat, id: Id): Book
    requires i < |b.queue|
  {
    var r := b.queue[i];
    var key := Key(r.kind, id);
    b.(queue := Without(b.queue, i), pending := b.pending[key := r], places := Displaced(b, key)[r := Waiting(id)])
  }

  /** The open could not be written: the request goes down with the connection. */
  function Lose(b: Book, i: nat): Book
    requires i < |b.queue|
  {
    b.(queue := Without(b.queue, i), places := b.places[b.queue[i] := Dropped])
  }

  /** Refused without asking the peer. */
  function Refuse(b: Book, i: nat): Book
    requires i < |b.queue|
  {
    var r := b.queue[i];
    b.(queue := Without(b.queue, i), places := b.places[r := Answered(Rejected)], replies := b.replies + multiset{r})
  }

  function Resolve(b: Book, key: Key, a: Answer): Book
    requires key in b.pending
  {
    var r := b.pending[key];
    b.(pending := b.pending - {key}, places := b.places[r := Answered(a)], replies := b.replies + multiset{r})
  }

  /** The maps are asked in this order. */
  function Lookup(pending: map<Key, Request>, id: Id): Option<Key> {
    if Key(ForwardedTcpip, id) in pending then Some(Key(ForwardedTcpip, id))
    else if Key(AuthAgent, id) in pending then Some(Key(AuthAgent, id))
    else if Key(X11, id) in pending then Some(Key(X11, id))
    else if Key(ForwardedStreamlocal, id) in pending then Some(Key(ForwardedStreamlocal, id))
    else if Key(Direct, id) in pending then Some(Key(Direct, id))
    else None
  }

  function Find(b: Book, id: Id): Option<Key> {
    Lookup(b.pending, id)
  }

  lemma FindFinds(b: Book, id: Id)
    ensures Find(b, id).None? <==> forall key | key in b.pending :: key.id != id
    ensures Find(b, id).Some? ==> Find(b, id).value in b.pending && Find(b, id).value.id == id
  {
    if Find(b, id).None? {
      forall key | key in b.pending ensures key.id != id {
        match key.kind
        case ForwardedTcpip => assert key == Key(ForwardedTcpip, key.id);
        case AuthAgent => assert key == Key(AuthAgent, key.id);
        case X11 => assert key == Key(X11, key.id);
        case ForwardedStreamlocal => assert key == Key(ForwardedStreamlocal, key.id);
        case Direct => assert key == Key(Direct, key.id);
      }
    }
  }

  // --- What the operations keep --------------------------------------------------------------

  ghost predicate QueueSound(b: Book) {
    && (forall r | r in b.queue :: r in b.places && b.places[r] == Queued)
    && (forall i, j | 0 <= i < j < |b.queue| :: b.queue[i] != b.queue[j])
  }

  ghost predicate PendingSound(b: Book) {
    forall key | key in b.pending ::
      var r := b.pending[key]; r.kind == key.kind && r in b.places && b.places[r] == Waiting(key.id)
  }

  /** Every request ever issued is where its place says. */
  ghost predicate PlacesSound(b: Book) {
    forall r | r in b.places ::
      && r.serial < b.next
      && (b.places[r] == Queued ==> r in b.queue)
      && (b.places[r].Waiting? ==>
            var key := Key(r.kind, b.places[r].id); key in b.pending && b.pending[key] == r)
  }

  ghost predicate RepliesSound(b: Book) {
    forall r :: b.replies[r] == if r in b.places && b.places[r].Answered? then 1 else 0
  }

  ghost predicate Sound(b: Book) {
    QueueSound(b) && PendingSound(b) && PlacesSound(b) && RepliesSound(b)
  }

  /** A channel id waits in at most one of the maps. */
  ghost predicate OneMapEach(b: Book) {
    forall j, k | j in b.pending && k in b.pending && j.id == k.id :: j == k
  }

  lemma IssueKeeps(b: Book, kind: Kind)
    requires Sound(b)
    ensures Sound(Issue(b, kind))
  {
    assert Request(kind, b.next) !in b.places;
  }

  lemma WithoutKeeps(q: seq<Request>, i: nat)
    requires i < |q| && forall j, k | 0 <= j < k < |q| :: q[j] != q[k]
    ensures forall j, k | 0 <= j < k < |q| - 1 :: Without(q, i)[j] != Without(q, i)[k]
    ensures forall r :: r in Without(q, i) <==> r in q && r != q[i]
  {
    forall r ensures r in Without(q, i) <==> r in q && r != q[i] {
      if r in q && r != q[i] {
        var j :| 0 <= j < |q| && q[j] == r;
        assert Without(q, i)[if j < i then j else j - 1] == r;
      }
    }
  }

  lemma BeginKeeps(b: Book, i: nat, id: Id)
    requires Sound(b) && i < |b.queue|
    ensures Sound(Begin(b, i, id))
  {
    BeginQueue(b, i, id);
    BeginPending(b, i, id);
  }

  lemma BeginQueue(b: Book, i: nat, id: Id)
    requires QueueSound(b) && PendingSound(b) && RepliesSound(b) && i < |b.queue|
    ensures QueueSound(Begin(b, i, id)) && RepliesSound(Begin(b, i, id))
  {
    WithoutKeeps(b.queue, i);
  }

  lemma BeginPending(b: Book, i: nat, id: Id)
    requires QueueSound(b) && PendingSound(b) && PlacesSound(b) && i < |b.queue|
    ensures PendingSound(Begin(b, i, id)) && PlacesSound(Begin(b, i, id))
  {
    WithoutKeeps(b.queue, i);
  }

  lemma LoseKeeps(b: Book, i: nat)
    requires Sound(b) && i < |b.queue|
    ensures Sound(Lose(b, i))
  {
    WithoutKeeps(b.queue, i);
  }

  lemma RefuseKeeps(b: Book, i: nat)
    requires Sound(b) && i < |b.queue|
    ensures Sound(Refuse(b, i))
  {
    WithoutKeeps(b.queue, i);
  }

  lemma ResolveKeeps(b: Book, key: Key, a: Answer)
    requires Sound(b) && key in b.pending
    ensures Sound(Resolve(b, key, a))
  {
    assert key == Key(key.kind, key.id);
  }

  /** At most one answer each, ever. */
  lemma AnsweredOnce(b: Book, r: Request)
    requires Sound(b)
    ensures b.replies[r] <= 1
    ensures b.replies[r] == 1 ==> r !in b.queue && forall key | key in b.pending :: b.pending[key] != r
  {
  }

  // --- The end of the connection -------------------------------------------------------------

  /** Nobody is left waiting: every request was answered once or had its slot discarded. */
  ghost predicate Settled(b: Book) {
    && b.queue == [] && b.pending == map[]
    && forall r | r in b.places :: b.places[r] == Dropped || (b.places[r].Answered? && b.replies[r] == 1)
  }

  /** What the end of the connection may do to a request: fail it if in flight, discard it if queued. */
  ghost predicate Moved(before: map<Request, Place>, after: map<Request, Place>) {
    forall r | r in before ::
      && r in after
      && (after[r] != before[r] ==>
            after[r] == Final(before[r]))
  }

  /** Where the end of the connection leaves a request. */
  function Final(p: Place): Place {
    if p.Queued? then Dropped else if p.Waiting? then Answered(TornDown) else p
  }

  /** Opens in flight are failed, queued ones discarded. */
  function CleanUp(b: Book): Book {
    b.(queue := [], pending := map[], places := map r | r in b.places :: Final(b.places[r]),
       replies := b.replies + multiset(b.pending.Values))
  }

  lemma CleanUpSettles(b: Book)
    requires Sound(b)
    ensures Sound(CleanUp(b)) && Settled(CleanUp(b))
  {
    forall r ensures r in b.pending.Values <==> r in b.places && b.places[r].Waiting? {
      if r in b.places && b.places[r].Waiting? {
        var key := Key(r.kind, b.places[r].id);
        assert key in b.pending && b.pending[key] == r;
      }
    }
  }

  /** Sound and settled, with every request where the end leaves it: that is the cleaned-up book. */
  lemma CleanUpIs(b: Book, t: Book)
    requires Sound(b) && Sound(t) && Settled(t) && t.next == b.next
    requires t.places.Keys == b.places.Keys && Moved(b.places, t.places)
    ensures t == CleanUp(b)
  {
    CleanUpSettles(b);
    assert t.places == CleanUp(b).places;
    assert forall r :: t.replies[r] == CleanUp(b).replies[r];
    assert t.replies == CleanUp(b).replies;
  }

  lemma ResolveMoves(before: map<Request, Place>, b: Book, key: Key)
    requires Moved(before, b.places) && before.Keys == b.places.Keys && PendingSound(b) && key in b.pending
    ensures Moved(before, Resolve(b, key, TornDown).places) && before.Keys == Resolve(b, key, TornDown).places.Keys
  {
  }

  /** The book as the connection holds it. */
  class Ledger {
    var next: nat
    var queue: seq<Request>
    var pending: map<Key, Request>
    ghost var places: map<Request, Place>
    ghost var replies: multiset<Request>

    constructor ()
      ensures View() == EMPTY
    {
      next, queue, pending := 0, [], map[];
      places, replies := map[], multiset{};
    }

    ghost function View(): Book
      reads this
    {
      Book(next, queue, pending, places, replies)
    }

    method Submit(kind: Kind)
      modifies this
      ensures View() == Issue(old(View()), kind)
    {
      var r := Request(kind, next);
      next, queue := next + 1, queue + [r];
      places := places[r := Queued];
    }

    method Start(i: nat, id: Id)
      requires i < |queue|
      modifies this
      ensures View() == Begin(old(View()), i, id)
    {
      var r := queue[i];
      var key := Key(r.kind, id);
      places := Displaced(View(), key)[r := Waiting(id)];
      queue, pending := Without(queue, i), pending[key := r];
    }

    /** The open could not be written. */
    method Forfeit(i: nat)
      requires i < |queue|
      modifies this`queue, this`places
      ensures View() == Lose(old(View()), i)
    {
      places := places[queue[i] := Dropped];
      queue := Without(queue, i);
    }

    /** Send the answer down the slot and forget it. */
    method Reply(key: Key, a: Answer)
      requires key in pending
      modifies this`pending, this`places, this`replies
      ensures View() == Resolve(old(View()), key, a)
    {
      ghost var r := pending[key];
      pending := pending - {key};
      places := places[r := Answered(a)];
      replies := replies + multiset{r};
    }

    method FailPending()
      requires Sound(View())
      modifies this`pending, this`places, this`replies
      ensures Sound(View()) && pending == map[] && places.Keys == old(places).Keys
      ensures Moved(old(places), places) && forall r | r in places :: !places[r].Waiting?
    {
      while pending != map[]
        invariant Sound(View())
        invariant old(places).Keys == places.Keys && Moved(old(places), places)
        decreases |pending|
      {
        FailOne(old(places));
      }
    }

    method FailOne(ghost before: map<Request, Place>)
      requires Sound(View()) && pending != map[] && before.Keys == places.Keys && Moved(before, places)
      modifies this`pending, this`places, this`replies
      ensures Sound(View()) && before.Keys == places.Keys && Moved(before, places) && |pending| < |old(pending)|
    {
      var key :| key in pending;
      ResolveKeeps(View(), key, TornDown);
      ResolveMoves(before, View(), key);
      Reply(key, TornDown);
    }

    method DropQueue()
      requires Sound(View())
      modifies this`queue, this`places
      ensures Sound(View()) && queue == [] && places.Keys == old(places).Keys
      ensures Moved(old(places), places) && forall r | r in places :: !places[r].Queued?
    {
      while queue != []
        invariant Sound(View()) && places.Keys == old(places).Keys && Moved(old(places), places)
        decreases |queue|
      {
        LoseKeeps(View(), 0);
        var r := queue[0];
        queue := Without(queue, 0);
        places := places[r := Dropped];
      }
    }

    /** Fail every open still in flight, then let the queues go. */
    method TearDown()
      requires Sound(View())
      modifies this
      ensures Sound(View()) && Settled(View()) && View() == CleanUp(old(View()))
      ensures places.Keys == old(places).Keys && Moved(old(places), places)
    {
      ghost var before := View();
      FailPending();
      DropQueue();
      CleanUpIs(before, View());
    }
  }
}
