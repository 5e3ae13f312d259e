/** The two stashing readers under the client's transport. */
module SplitReader {
  import opened Prelude

  /** What the source says to one read: bytes, end, a timeout (or interruption), or an error. */
  datatype Answer = Bytes(b: seq<byte>) | End | NotNow | Fault

  datatype Outcome = Got(b: seq<byte>) | WouldBlock | Error

  /** `taken` and `delivered` are what came from the source and what went to the client. */
  datatype Split = Split(pending: seq<byte>, eof: bool, taken: seq<byte>, delivered: seq<byte>)

  /** The source's read into a buffer of `n` bytes; an empty one can only yield nothing. */
  function Sourced(a: Answer, n: nat): Outcome {
    match a
    case Bytes(b) => Got(b[..Min(n, |b|)])
    case End => Got([])
    case NotNow => WouldBlock
    case Fault => Error
  }

  const FILL := 64 * 1024

  function Fill(s: Split, a: Answer): Split {
    if s.pending != [] || s.eof then s
    else
      match Sourced(a, FILL)
      case Got(b) => if b == [] then s.(eof := true) else s.(pending := b, taken := s.taken + b)
      case _ => s
  }

  function Read(s: Split, n: nat, stashedOnly: bool, a: Answer): (Split, Outcome) {
    if s.pending != [] then
      var k := Min(n, |s.pending|);
      (s.(pending := s.pending[k..], delivered := s.delivered + s.pending[..k]), Got(s.pending[..k]))
    else if s.eof then (s, Got([]))
    else if stashedOnly then (s, WouldBlock)
    else
      match Sourced(a, n)
      case Got(b) => (s.(taken := s.taken + b, delivered := s.delivered + b), Got(b))
      case o => (s, o)
  }

  datatype Step = Filling(a: Answer) | Reading(n: nat, stashedOnly: bool, a: Answer)

  function Next(s: Split, step: Step): Split {
    match step
    case Filling(a) => Fill(s, a)
    case Reading(n, stashedOnly, a) => Read(s, n, stashedOnly, a).0
  }

  function Run(s: Split, steps: seq<Step>): Split
    decreases |steps|
  {
    if steps == [] then s else Next(Run(s, steps[..|steps| - 1]), steps[|steps| - 1])
  }

  const FRESH: Split := Split([], false, [], [])

  ghost predicate Inv(s: Split) {
    s.delivered + s.pending == s.taken && (s.eof ==> s.pending == [])
  }

  lemma NextKeeps(s: Split, step: Step)
    requires Inv(s)
    ensures Inv(Next(s, step)) && (s.eof ==> Next(s, step) == s)
  {
    if step.Reading? && s.pending != [] {
      var k := Min(step.n, |s.pending|);
      assert s.pending == s.pending[..k] + s.pending[k..];
      assert (s.delivered + s.pending[..k]) + s.pending[k..] == s.delivered + s.pending;
    }
  }

  lemma {:induction false} RunKeeps(s: Split, steps: seq<Step>)
    requires Inv(s)
    ensures Inv(Run(s, steps)) && (s.eof ==> Run(s, steps) == s)
    decreases |steps|
  {
    if steps != [] {
      RunKeeps(s, steps[..|steps| - 1]);
      NextKeeps(Run(s, steps[..|steps| - 1]), steps[|steps| - 1]);
    }
  }

  /** Any interleaving of filling and reading: delivered, then stashed, is what the source gave, in order. */
  lemma NothingLost(steps: seq<Step>)
    ensures var s := Run(FRESH, steps); s.delivered + s.pending == s.taken
  {
    RunKeeps(FRESH, steps);
  }

  /** A read with room that reports the end does so only with everything delivered. */
  lemma EndMeansAll(steps: seq<Step>, n: nat, stashedOnly: bool, a: Answer)
    requires n > 0 && Read(Run(FRESH, steps), n, stashedOnly, a).1 == Got([])
    ensures var s := Run(FRESH, steps); s.delivered == s.taken && (s.eof || a == End || a == Bytes([]))
  {
    RunKeeps(FRESH, steps);
    var s := Run(FRESH, steps);
    assert s.delivered + [] == s.delivered;
  }

  /**
   The end, once reported, stays reported whatever the source says next, exactly when it was noticed
   while filling.  An end met by a direct read is not remembered: the next read asks the source again.
   */
  lemma EndStaysExact(s: Split, n: nat, a: Answer)
    requires Inv(s) && n > 0 && Read(s, n, false, a).1 == Got([])
    ensures AlwaysEnded(Read(s, n, false, a).0) <==> s.eof
  {
    var t := Read(s, n, false, a).0;
    if s.eof {
      forall later: seq<Step>, m: nat, b: Answer ensures Read(Run(t, later), m, false, b).1 == Got([]) {
        RunKeeps(t, later);
      }
    } else {
      var zero: seq<byte> := [0];
      assert Run(t, []) == t;
      assert zero[..Min(1, 1)] == zero;
      assert Read(Run(t, []), 1, false, Bytes(zero)).1 != Got([]);
    }
  }

  /** Whatever happens next, a read reports the end. */
  ghost predicate AlwaysEnded(s: Split) {
    forall later: seq<Step>, m: nat, b: Answer :: Read(Run(s, later), m, false, b).1 == Got([])
  }

  /** The shared state behind the lock. */
  class Reader {
    var pending: seq<byte>
    var eof: bool
    ghost var taken: seq<byte>
    ghost var delivered: seq<byte>

    constructor ()
      ensures View() == FRESH
    {
      pending, eof := [], false;
      taken, delivered := [], [];
    }

    ghost function View(): Split
      reads this
    {
      Split(pending, eof, taken, delivered)
    }

    method FillStash(a: Answer) returns (ok: bool)
      modifies this
      ensures View() == Fill(old(View()), a)
      ensures !ok ==> a.Fault?
    {
      ok := true;
      if pending != [] || eof {
        return;
      }
      var o := Sourced(a, FILL);
      match o
      case Got(b) =>
        if b == [] {
          eof := true;
        } else {
          pending := pending + b;
          assert [] + b == b;
          taken := taken + b;
        }
      case WouldBlock =>
      case Error =>
        ok := false;
    }

    method ReadInto(buf: array<byte>, stashedOnly: bool, a: Answer) returns (o: Outcome)
      modifies this, buf
      ensures (View(), o) == Read(old(View()), buf.Length, stashedOnly, a)
      ensures o.Got? ==> |o.b| <= buf.Length && buf[..|o.b|] == o.b && buf[|o.b|..] == old(buf[|o.b|..])
    {
      if pending != [] {
        var n := Min(|pending|, buf.Length);
        Copy(buf, pending[..n]);
        o := Got(pending[..n]);
        delivered := delivered + pending[..n];
        pending := pending[n..];
        return;
      }
      if eof {
        return Got([]);
      }
      if stashedOnly {
        return WouldBlock;
      }
      o := Sourced(a, buf.Length);
      if o.Got? {
        Copy(buf, o.b);
        taken, delivered := taken + o.b, delivered + o.b;
      }
    }
  }

  method Copy(buf: array<byte>, b: seq<byte>)
    requires |b| <= buf.Length
    modifies buf
    ensures buf[..|b|] == b && buf[|b|..] == old(buf[|b|..])
  {
    var i := 0;
    while i < |b|
      invariant 0 <= i <= |b| && buf[..i] == b[..i] && buf[|b|..] == old(buf[|b|..])
    {
      buf[i] := b[i];
      i := i + 1;
    }
  }
}

/** The reader over a helper process: a thread reads ahead into a bounded queue. */
module PipeReader {
  import opened Prelude

  datatype Item = Chunk(b: seq<byte>) | Last | Failure

  const READ_AHEAD := 8
  const CHUNK := 16 * 1024

  /** `held`: an item the thread is waiting to put in the queue.  `over`: the thread has read its last. */
  datatype Pipe = Pipe(
    rx: seq<Item>, held: Option<Item>, over: bool, chunk: seq<byte>, pos: nat, eof: bool,
    produced: seq<byte>, delivered: seq<byte>)

  datatype Outcome = Got(b: seq<byte>) | WouldBlock | Error

  // --- The thread ----------------------------------------------------------------------------

  /** What the pipe gives one read of the thread. */
  function ThreadReads(p: Pipe, i: Item): Pipe {
    if p.held.Some? || p.over then p
    else
      match i
      case Chunk(b) =>
        var c := b[..Min(CHUNK, |b|)];
        if c == [] then p.(held := Some(Last), over := true)
        else p.(held := Some(Chunk(c)), produced := p.produced + c)
      case _ => p.(held := Some(i), over := true)
  }

  function ThreadSends(p: Pipe): Pipe {
    if p.held.None? || |p.rx| >= READ_AHEAD then p else p.(rx := p.rx + [p.held.value], held := None)
  }

  // --- The client ----------------------------------------------------------------------------

  function Deliver(p: Pipe, n: nat): (Pipe, Outcome)
    requires p.pos <= |p.chunk|
  {
    var k := Min(n, |p.chunk| - p.pos);
    var b := p.chunk[p.pos..p.pos + k];
    (p.(pos := p.pos + k, delivered := p.delivered + b), Got(b))
  }

  /** `read_within`: an empty queue is a timeout while the thread lives. */
  function Read(p: Pipe, n: nat): (Pipe, Outcome)
    requires p.pos <= |p.chunk|
  {
    if p.pos < |p.chunk| then Deliver(p, n)
    else if p.eof then (p, Got([]))
    else if p.rx == [] then if p.over && p.held.None? then (p.(eof := true), Got([])) else (p, WouldBlock)
    else
      var q := p.(rx := p.rx[1..]);
      match p.rx[0]
      case Chunk(b) => if b == [] then (q.(eof := true), Got([])) else Deliver(q.(chunk := b, pos := 0), n)
      case Last => (q.(eof := true), Got([]))
      case Failure => (q.(eof := true), Error)
  }

  datatype Step = Producing(i: Item) | Sending | Reading(n: nat)

  function Next(p: Pipe, step: Step): Pipe {
    match step
    case Producing(i) => ThreadReads(p, i)
    case Sending => ThreadSends(p)
    case Reading(n) => if p.pos <= |p.chunk| then Read(p, n).0 else p
  }

  function Run(p: Pipe, steps: seq<Step>): Pipe
    decreases |steps|
  {
    if steps == [] then p else Next(Run(p, steps[..|steps| - 1]), steps[|steps| - 1])
  }

  const FRESH: Pipe := Pipe([], None, false, [], 0, false, [], [])

  // --- What every run keeps ------------------------------------------------------------------

  /** Everything read and not yet looked at by the client, in order. */
  function Line(p: Pipe): seq<Item> {
    p.rx + (if p.held.Some? then [p.held.value] else [])
  }

  function Content(items: seq<Item>): seq<byte> {
    if items == [] then [] else (if items[0].Chunk? then items[0].b else []) + Content(items[1..])
  }

  /** Chunks of a bounded size; an end or a failure only at the back, once the thread is done. */
  predicate Orderly(items: seq<Item>, over: bool) {
    items != [] ==>
      if items[0].Chunk? then 0 < |items[0].b| <= CHUNK && Orderly(items[1..], over) else |items| == 1 && over
  }

  ghost predicate Inv(p: Pipe) {
    && p.pos <= |p.chunk| <= CHUNK && |p.rx| <= READ_AHEAD
    && Orderly(Line(p), p.over)
    && (p.delivered + p.chunk[p.pos..]) + Content(Line(p)) == p.produced
    && (p.eof ==> p.pos == |p.chunk| && Line(p) == [] && p.over)
  }

  lemma {:induction false} ContentSnoc(items: seq<Item>, i: Item)
    ensures Content(items + [i]) == Content(items) + (if i.Chunk? then i.b else [])
  {
    if items == [] {
      assert items + [i] == [i] && [i][1..] == [];
      assert Content([i]) == (if i.Chunk? then i.b else []) + Content([]);
    } else {
      assert (items + [i])[1..] == items[1..] + [i];
      ContentSnoc(items[1..], i);
      assert ((if items[0].Chunk? then items[0].b else []) + Content(items[1..])) + (if i.Chunk? then i.b else [])
          == (if items[0].Chunk? then items[0].b else []) + (Content(items[1..]) + (if i.Chunk? then i.b else []));
    }
  }

  lemma {:induction false} OrderlySnoc(items: seq<Item>, i: Item, over: bool)
    requires Orderly(items, false) && if i.Chunk? then 0 < |i.b| <= CHUNK else over
    ensures Orderly(items + [i], over)
  {
    if items == [] {
      assert items + [i] == [i] && [i][1..] == [];
    } else {
      assert (items + [i])[1..] == items[1..] + [i];
      OrderlySnoc(items[1..], i, over);
    }
  }

  lemma {:induction false} ProducingKeeps(p: Pipe, i: Item)
    requires Inv(p)
    ensures Inv(ThreadReads(p, i))
  {
    if p.held.None? && !p.over {
      var t := ThreadReads(p, i);
      var item := t.held.value;
      assert Line(p) == p.rx && Line(t) == p.rx + [item];
      OrderlySnoc(p.rx, item, t.over);
      ContentSnoc(p.rx, item);
      var before := p.delivered + p.chunk[p.pos..];
      assert (before + Content(p.rx)) + (if item.Chunk? then item.b else [])
          == before + (Content(p.rx) + (if item.Chunk? then item.b else []));
    }
  }

  lemma SendingKeeps(p: Pipe)
    requires Inv(p)
    ensures Inv(ThreadSends(p))
  {
    assert Line(ThreadSends(p)) == Line(p);
  }

  lemma Delivers(p: Pipe, n: nat)
    requires p.pos <= |p.chunk|
    ensures var (t, o) := Deliver(p, n);
            && t.pos <= |t.chunk| && t == p.(pos := t.pos, delivered := t.delivered)
            && t.delivered + t.chunk[t.pos..] == p.delivered + p.chunk[p.pos..]
  {
    var k := Min(n, |p.chunk| - p.pos);
    assert p.chunk[p.pos..] == p.chunk[p.pos..p.pos + k] + p.chunk[p.pos + k..];
    assert (p.delivered + p.chunk[p.pos..p.pos + k]) + p.chunk[p.pos + k..]
        == p.delivered + (p.chunk[p.pos..p.pos + k] + p.chunk[p.pos + k..]);
  }

  lemma {:induction false} ReadingKeeps(p: Pipe, n: nat)
    requires Inv(p)
    ensures Inv(Read(p, n).0)
  {
    if p.pos < |p.chunk| {
      Delivers(p, n);
    } else if !p.eof && p.rx != [] {
      var q := p.(rx := p.rx[1..]);
      assert Line(p)[1..] == Line(q) && Line(p)[0] == p.rx[0];
      if p.rx[0].Chunk? {
        NextChunk(p, q);
        Delivers(q.(chunk := p.rx[0].b, pos := 0), n);
      }
    }
  }

  /** The next chunk takes the place of the one used up. */
  lemma {:induction false} NextChunk(p: Pipe, q: Pipe)
    requires p.rx != [] && p.rx[0].Chunk? && q == p.(rx := p.rx[1..]) && p.pos == |p.chunk|
    requires Line(p)[1..] == Line(q) && Line(p)[0] == p.rx[0]
    ensures (p.delivered + p.rx[0].b[0..]) + Content(Line(q)) == (p.delivered + p.chunk[p.pos..]) + Content(Line(p))
  {
    var b := p.rx[0].b;
    assert p.chunk[p.pos..] == [] && b[0..] == b;
    assert p.delivered + [] == p.delivered;
    assert Content(Line(p)) == b + Content(Line(q));
    assert p.delivered + (b + Content(Line(q))) == (p.delivered + b) + Content(Line(q));
  }

  lemma {:induction false} RunKeeps(steps: seq<Step>)
    ensures Inv(Run(FRESH, steps))
    decreases |steps|
  {
    if steps != [] {
      var p := Run(FRESH, steps[..|steps| - 1]);
      RunKeeps(steps[..|steps| - 1]);
      match steps[|steps| - 1]
      case Producing(i) => ProducingKeeps(p, i);
      case Sending => SendingKeeps(p);
      case Reading(n) => ReadingKeeps(p, n);
    }
  }

  // --- Main results --------------------------------------------------------------------------

  /** Any interleaving of thread and client: delivered, then held anywhere, is what the helper wrote. */
  lemma NothingLost(steps: seq<Step>)
    ensures var p := Run(FRESH, steps);
            p.pos <= |p.chunk| && (p.delivered + p.chunk[p.pos..]) + Content(Line(p)) == p.produced
  {
    RunKeeps(steps);
  }

  /** The end is reported only with every byte delivered, and then for ever. */
  lemma {:induction false} EndIsFinal(steps: seq<Step>, more: seq<Step>)
    requires Run(FRESH, steps).eof
    ensures Run(FRESH, steps).delivered == Run(FRESH, steps).produced
    ensures Run(Run(FRESH, steps), more) == Run(FRESH, steps)
    ensures var p := Run(FRESH, steps); p.pos <= |p.chunk| && forall n :: Read(p, n).1 == Got([])
    decreases |more|
  {
    RunKeeps(steps);
    var p := Run(FRESH, steps);
    assert p.chunk[p.pos..] == [] && p.delivered + [] == p.delivered;
    assert p.held.None? && p.rx == [];
    if more != [] { EndIsFinal(steps, more[..|more| - 1]); }
  }

  /** A read with room returns no bytes only at that end. */
  lemma EmptyMeansEnd(steps: seq<Step>, n: nat)
    requires n > 0 && Run(FRESH, steps).pos <= |Run(FRESH, steps).chunk| && Read(Run(FRESH, steps), n).1 == Got([])
    ensures Read(Run(FRESH, steps), n).0.eof
  {
    RunKeeps(steps);
    var p := Run(FRESH, steps);
    assert p.rx != [] ==> Line(p)[0] == p.rx[0];
  }

  lemma {:induction false} ContentBound(items: seq<Item>, over: bool)
    requires Orderly(items, over)
    ensures |Content(items)| <= CHUNK * |items|
  {
    if items != [] && items[0].Chunk? { ContentBound(items[1..], over); }
  }

  lemma Sized(p: Pipe, rest: seq<byte>)
    requires p.pos <= |p.chunk| && (p.delivered + p.chunk[p.pos..]) + rest == p.produced
    ensures |p.produced| - |p.delivered| == |p.chunk| - p.pos + |rest|
  {
    assert |p.delivered + p.chunk[p.pos..]| == |p.delivered| + (|p.chunk| - p.pos);
  }

  lemma Bounded(p: Pipe)
    requires Inv(p)
    ensures |p.produced| - |p.delivered| <= CHUNK * (READ_AHEAD + 2)
  {
    ContentBound(Line(p), p.over);
    Sized(p, Content(Line(p)));
  }

  /** The read-ahead is bounded: ten chunks at most between the helper and the client. */
  lemma ReadAheadBounded(steps: seq<Step>)
    ensures var p := Run(FRESH, steps); |p.produced| - |p.delivered| <= CHUNK * (READ_AHEAD + 2)
  {
    RunKeeps(steps);
    Bounded(Run(FRESH, steps));
  }

  /** The client's end. */
  class Reader {
    var rx: seq<Item>
    var chunk: seq<byte>
    var pos: nat
    var eof: bool

    constructor ()
      ensures rx == [] && chunk == [] && pos == 0 && !eof
    {
      rx, chunk, pos, eof := [], [], 0, false;
    }

    ghost function View(p: Pipe): Pipe
      reads this
    {
      p.(rx := rx, chunk := chunk, pos := pos, eof := eof)
    }

    /** `gone`: the thread has ended and its end of the queue with it. */
    method ReadWithin(n: nat, gone: bool, ghost p: Pipe) returns (o: Outcome)
      requires p == View(p) && pos <= |chunk| && gone == (p.over && p.held.None?)
      modifies this
      ensures var (t, r) := Read(p, n); View(p) == t.(delivered := p.delivered) && o == r
    {
      if pos == |chunk| {
        if eof {
          return Got([]);
        }
        if rx == [] {
          if !gone {
            return WouldBlock;
          }
          eof := true;
          return Got([]);
        }
        var next := rx[0];
        rx := rx[1..];
        match next {
          case Chunk(b) =>
            if b == [] {
              eof := true;
              return Got([]);
            }
            chunk, pos := b, 0;
          case Last =>
            eof := true;
            return Got([]);
          case Failure =>
            eof := true;
            return Error;
        }
      }
      var k := Min(|chunk| - pos, n);
      o := Got(chunk[pos..pos + k]);
      pos := pos + k;
    }
  }
}
