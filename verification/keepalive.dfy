/** The two keepalive timers: the client's, which restarts one clock, and the server's, which keeps two. */
module Keepalive {
  import opened Prelude

  datatype Config = Config(interval: nat, countMax: nat)

  /** Histories: when the peer was last heard and when its last dispatched packet came, or the start. */
  datatype Timer = Timer(lastActivity: nat, probes: nat, dead: bool, lastInbound: nat, lastSeen: nat, now: nat)

  /**
   `Buffered`: dispatching a packet made the server wait, reading and dropping packets of which the
   last came at `heard`.  A client never does that.
   */
  datatype Event = Packet(at: nat) | Buffered(at: nat, heard: nat) | Tick(at: nat, kexing: bool)

  /** When the loop is back for the next event. */
  function End(e: Event): nat {
    if e.Buffered? then e.heard else e.at
  }

  /** Time does not run backwards. */
  predicate Timely(now: nat, e: Event) {
    now <= e.at <= End(e)
  }

  function ClientNext(c: Config, t: Timer, e: Event): Timer {
    if t.dead then t
    else
      match e
      case Packet(at) => t.(lastActivity := at, probes := 0, lastInbound := at, lastSeen := at, now := at)
      case Buffered(at, heard) =>
        t.(lastActivity := at, probes := 0, lastInbound := heard, lastSeen := at, now := heard)
      case Tick(at, kexing) =>
        if kexing || at - t.lastActivity < c.interval then t.(now := at)
        else if t.probes >= c.countMax then t.(dead := true, now := at)
        else t.(probes := t.probes + 1, lastActivity := at, now := at)
  }

  function ClientRun(c: Config, t: Timer, events: seq<Event>): Timer
    decreases |events|
  {
    if events == [] then t else ClientNext(c, ClientRun(c, t, events[..|events| - 1]), events[|events| - 1])
  }

  predicate Ordered(now: nat, events: seq<Event>)
    decreases |events|
  {
    events != [] ==> Timely(now, events[0]) && Ordered(End(events[0]), events[1..])
  }

  function ClientStart(at: nat): Timer {
    Timer(at, 0, false, at, at, at)
  }

  // --- Not too early -------------------------------------------------------------------------

  ghost predicate Patient(c: Config, t: Timer) {
    && t.lastSeen <= t.lastInbound <= t.now && t.lastActivity <= t.now && t.probes <= c.countMax
    && t.lastSeen + t.probes * c.interval <= t.lastActivity
    && (t.probes > 0 ==> t.lastInbound + (t.probes - 1) * c.interval <= t.lastActivity)
    && (t.dead ==> && t.probes == c.countMax
                   && t.now >= t.lastSeen + (c.countMax + 1) * c.interval
                   && t.now >= t.lastInbound + c.countMax * c.interval)
  }

  lemma OneMore(k: nat, x: nat)
    ensures (k + 1) * x == k * x + x
  {
  }

  lemma PatientKeeps(c: Config, t: Timer, e: Event)
    requires Patient(c, t) && Timely(t.now, e)
    ensures Patient(c, ClientNext(c, t, e)) && (ClientNext(c, t, e).dead || ClientNext(c, t, e).now == End(e))
  {
    OneMore(t.probes, c.interval);
    if t.probes > 0 { OneMore(t.probes - 1, c.interval); }
  }

  // --- Not too late --------------------------------------------------------------------------

  /** Events come at most `gap` apart and none is lost to a key exchange. */
  predicate Steady(now: nat, gap: nat, events: seq<Event>)
    decreases |events|
  {
    events != [] ==> Soon(now, gap, events[0]) && Steady(End(events[0]), gap, events[1..])
  }

  predicate Soon(now: nat, gap: nat, e: Event) {
    Timely(now, e) && e.at <= now + gap && (e.Tick? ==> !e.kexing)
  }

  ghost predicate Prompt(c: Config, gap: nat, t: Timer) {
    && t.lastActivity <= t.lastInbound + t.probes * (c.interval + gap)
    && (!t.dead ==> t.now <= t.lastInbound + t.probes * (c.interval + gap) + c.interval && t.probes <= c.countMax)
  }

  lemma PromptKeeps(c: Config, gap: nat, t: Timer, e: Event)
    requires Prompt(c, gap, t) && Soon(t.now, gap, e)
    ensures Prompt(c, gap, ClientNext(c, t, e)) && (ClientNext(c, t, e).dead || ClientNext(c, t, e).now == End(e))
  {
    OneMore(t.probes, c.interval + gap);
  }

  // --- Runs ----------------------------------------------------------------------------------

  lemma {:induction false} SteadySplit(now: nat, gap: nat, events: seq<Event>)
    requires Steady(now, gap, events) && events != []
    ensures Steady(now, gap, events[..|events| - 1])
    ensures Soon(Last(now, events[..|events| - 1]), gap, events[|events| - 1])
    decreases |events|
  {
    if |events| > 1 {
      SteadySplit(End(events[0]), gap, events[1..]);
      assert events[1..][..|events| - 2] == events[..|events| - 1][1..];
    }
  }

  lemma {:induction false} OrderedSplit(now: nat, events: seq<Event>)
    requires Ordered(now, events) && events != []
    ensures Ordered(now, events[..|events| - 1])
    ensures Timely(Last(now, events[..|events| - 1]), events[|events| - 1])
    decreases |events|
  {
    if |events| > 1 {
      OrderedSplit(End(events[0]), events[1..]);
      assert events[1..][..|events| - 2] == events[..|events| - 1][1..];
    }
  }

  function Last(start: nat, events: seq<Event>): nat {
    if events == [] then start else End(events[|events| - 1])
  }

  lemma {:induction false} PatientRun(c: Config, start: nat, events: seq<Event>)
    requires Ordered(start, events)
    ensures var t := ClientRun(c, ClientStart(start), events);
            Patient(c, t) && (t.dead || t.now == Last(start, events))
    decreases |events|
  {
    if events != [] {
      var before := events[..|events| - 1];
      OrderedSplit(start, events);
      PatientRun(c, start, before);
      var t := ClientRun(c, ClientStart(start), before);
      if !t.dead { PatientKeeps(c, t, events[|events| - 1]); }
    }
  }

  lemma {:induction false} PromptRun(c: Config, gap: nat, start: nat, events: seq<Event>)
    requires Steady(start, gap, events)
    ensures var t := ClientRun(c, ClientStart(start), events);
            Prompt(c, gap, t) && (t.dead || t.now == Last(start, events))
    decreases |events|
  {
    if events != [] {
      var before := events[..|events| - 1];
      SteadySplit(start, gap, events);
      PromptRun(c, gap, start, before);
      var t := ClientRun(c, ClientStart(start), before);
      if !t.dead { PromptKeeps(c, gap, t, events[|events| - 1]); }
    }
  }

  /**
   A keepalive teardown comes after exactly `countMax` unanswered probes and one interval more than
   that of silence since the last packet dispatched; so since the last packet heard, if that was it.
   */
  lemma NotTooEarly(c: Config, start: nat, events: seq<Event>)
    requires Ordered(start, events)
    ensures var t := ClientRun(c, ClientStart(start), events);
            t.dead ==> && t.probes == c.countMax
                       && t.now - t.lastSeen >= (c.countMax + 1) * c.interval
                       && t.now - t.lastInbound >= c.countMax * c.interval
                       && (NoneDropped(events) ==> t.now - t.lastInbound >= (c.countMax + 1) * c.interval)
  {
    PatientRun(c, start, events);
    if NoneDropped(events) { SeenIsHeard(c, start, events); }
  }

  /** Every packet was dispatched when it came. */
  predicate NoneDropped(events: seq<Event>) {
    forall e | e in events :: End(e) == e.at
  }

  lemma {:induction false} SeenIsHeard(c: Config, start: nat, events: seq<Event>)
    requires NoneDropped(events)
    ensures var t := ClientRun(c, ClientStart(start), events); t.lastSeen == t.lastInbound
    decreases |events|
  {
    if events != [] {
      var before := events[..|events| - 1];
      assert forall e | e in before :: e in events;
      SeenIsHeard(c, start, before);
      assert events[|events| - 1] in events;
    }
  }

  /** Ticks an interval apart. */
  function Ticks(first: nat, interval: nat, n: nat): (es: seq<Event>)
    ensures |es| == n + 1
  {
    if n == 0 then [Tick(first, false)] else Ticks(first, interval, n - 1) + [Tick(first + n * interval, false)]
  }

  /** Packets were dropped until `heard`; from `first` on the loop ticks every interval. */
  lemma {:induction false} DropsAfterTicks(c: Config, at: nat, heard: nat, first: nat, n: nat)
    requires at <= heard <= first && at + c.interval <= first && n <= c.countMax
    ensures var t := ClientRun(c, ClientStart(at), [Buffered(at, heard)] + Ticks(first, c.interval, n));
            && t.lastInbound == heard && t.now == first + n * c.interval && t.dead == (n == c.countMax)
            && (!t.dead ==> t.probes == n + 1 && t.lastActivity == t.now)
    decreases n
  {
    var es := [Buffered(at, heard)] + Ticks(first, c.interval, n);
    if n == 0 {
      assert es[..1] == [Buffered(at, heard)] && es[..1][..0] == [];
      assert ClientRun(c, ClientStart(at), es[..1])
          == ClientNext(c, ClientRun(c, ClientStart(at), []), Buffered(at, heard));
    } else {
      assert es[..n + 1] == [Buffered(at, heard)] + Ticks(first, c.interval, n - 1);
      DropsAfterTicks(c, at, heard, first, n - 1);
      OneMore(n - 1, c.interval);
    }
  }

  /**
   It needs that condition: for every packet during whose dispatch later ones were dropped there is a
   run that gives up before the peer has been silent for `countMax` probes and one interval more.
   */
  lemma {:induction false} TooEarlyAfterDropping(c: Config, at: nat, heard: nat)
    requires at < heard && c.interval > 0
    ensures var es := [Buffered(at, heard)] + Ticks(Max(at + c.interval, heard), c.interval, c.countMax);
            var t := ClientRun(c, ClientStart(at), es);
            Ordered(at, es) && t.dead && t.lastInbound == heard && t.now - heard < (c.countMax + 1) * c.interval
  {
    var first := Max(at + c.interval, heard);
    DropsAfterTicks(c, at, heard, first, c.countMax);
    OneMore(c.countMax, c.interval);
    var ticks := Ticks(first, c.interval, c.countMax);
    TicksOrdered(heard, first, c.interval, c.countMax);
    assert ([Buffered(at, heard)] + ticks)[1..] == ticks;
  }

  lemma {:induction false} TicksOrdered(now: nat, first: nat, interval: nat, n: nat)
    requires now <= first
    ensures Ordered(now, Ticks(first, interval, n)) && Last(now, Ticks(first, interval, n)) == first + n * interval
    decreases n
  {
    if n > 0 {
      TicksOrdered(now, first, interval, n - 1);
      OneMore(n - 1, interval);
      OrderedSnoc(now, Ticks(first, interval, n - 1), Tick(first + n * interval, false));
    }
  }

  lemma {:induction false} OrderedSnoc(now: nat, events: seq<Event>, e: Event)
    requires Ordered(now, events) && Timely(Last(now, events), e)
    ensures Ordered(now, events + [e])
    decreases |events|
  {
    if events != [] {
      assert (events + [e])[1..] == events[1..] + [e];
      OrderedSnoc(End(events[0]), events[1..], e);
    }
  }

  /** A silent peer is dropped in time: a live connection has been silent for no longer than this. */
  lemma NotTooLate(c: Config, gap: nat, start: nat, events: seq<Event>)
    requires Steady(start, gap, events)
    ensures var t := ClientRun(c, ClientStart(start), events);
            !t.dead ==> t.now == Last(start, events)
                        && t.now - t.lastInbound <= (c.countMax + 1) * (c.interval + gap)
  {
    PromptRun(c, gap, start, events);
    var t := ClientRun(c, ClientStart(start), events);
    if !t.dead {
      OneMore(c.countMax, c.interval + gap);
      Monotone(t.probes, c.countMax, c.interval + gap);
    }
  }

  lemma Monotone(a: nat, b: nat, x: nat)
    requires a <= b
    ensures a * x <= b * x
  {
    assert b * x - a * x == (b - a) * x;
  }

  // --- The server's two clocks ---------------------------------------------------------------

  datatype ServerTimer = ServerTimer(
    lastActivity: nat, lastKeepalive: nat, missed: nat, dead: bool, lastInbound: nat, lastSeen: nat, now: nat)

  function ServerNext(c: Config, t: ServerTimer, e: Event): ServerTimer {
    if t.dead then t
    else
      match e
      case Packet(at) => t.(lastActivity := at, missed := 0, lastInbound := at, lastSeen := at, now := at)
      case Buffered(at, heard) =>
        t.(lastActivity := at, missed := 0, lastInbound := heard, lastSeen := at, now := heard)
      case Tick(at, kexing) =>
        if kexing || at - t.lastActivity < c.interval || at - t.lastKeepalive < c.interval then t.(now := at)
        else if t.missed >= c.countMax then t.(dead := true, now := at)
        else t.(lastKeepalive := at, missed := t.missed + 1, now := at)
  }

  function ServerRun(c: Config, t: ServerTimer, events: seq<Event>): ServerTimer
    decreases |events|
  {
    if events == [] then t else ServerNext(c, ServerRun(c, t, events[..|events| - 1]), events[|events| - 1])
  }

  function ServerStart(at: nat): ServerTimer {
    ServerTimer(at, at, 0, false, at, at, at)
  }

  /** The client's one clock is the later of the server's two. */
  ghost predicate Alike(s: ServerTimer, t: Timer) {
    && s.missed == t.probes && s.dead == t.dead && s.lastInbound == t.lastInbound && s.lastSeen == t.lastSeen
    && s.now == t.now
    && s.lastActivity <= s.now && s.lastKeepalive <= s.now
    && t.lastActivity == Max(s.lastActivity, s.lastKeepalive)
  }

  lemma AlikeKeeps(c: Config, s: ServerTimer, t: Timer, e: Event)
    requires Alike(s, t) && Timely(s.now, e)
    ensures Alike(ServerNext(c, s, e), ClientNext(c, t, e))
  {
  }

  /** On the same inputs the two schemes probe and give up at the same moments. */
  lemma {:induction false} SameTimer(c: Config, start: nat, events: seq<Event>)
    requires Ordered(start, events)
    ensures Alike(ServerRun(c, ServerStart(start), events), ClientRun(c, ClientStart(start), events))
    decreases |events|
  {
    if events != [] {
      var before := events[..|events| - 1];
      OrderedSplit(start, events);
      SameTimer(c, start, before);
      PatientRun(c, start, before);
      if !ServerRun(c, ServerStart(start), before).dead {
        AlikeKeeps(c, ServerRun(c, ServerStart(start), before), ClientRun(c, ClientStart(start), before),
                   events[|events| - 1]);
      }
    }
  }

  lemma {:induction false} SteadyOrdered(now: nat, gap: nat, events: seq<Event>)
    requires Steady(now, gap, events)
    ensures Ordered(now, events)
    decreases |events|
  {
    if events != [] { SteadyOrdered(End(events[0]), gap, events[1..]); }
  }

  /** So the server keeps the client's bounds, both ways, packets dropped or not. */
  lemma ServerBounds(c: Config, gap: nat, start: nat, events: seq<Event>)
    requires Ordered(start, events)
    ensures var s := ServerRun(c, ServerStart(start), events);
            && (s.dead ==> && s.missed == c.countMax
                           && s.now - s.lastSeen >= (c.countMax + 1) * c.interval
                           && s.now - s.lastInbound >= c.countMax * c.interval
                           && (NoneDropped(events) ==> s.now - s.lastInbound >= (c.countMax + 1) * c.interval))
            && (Steady(start, gap, events) && !s.dead ==>
                  s.now == Last(start, events) && s.now - s.lastInbound <= (c.countMax + 1) * (c.interval + gap))
  {
    SameTimer(c, start, events);
    NotTooEarly(c, start, events);
    if Steady(start, gap, events) { NotTooLate(c, gap, start, events); }
  }

  /** A server that dropped packets may give up on a peer it heard less than the promised time ago. */
  lemma ServerTooEarly(c: Config, at: nat, heard: nat)
    requires at < heard && c.interval > 0
    ensures var es := [Buffered(at, heard)] + Ticks(Max(at + c.interval, heard), c.interval, c.countMax);
            var s := ServerRun(c, ServerStart(at), es);
            Ordered(at, es) && s.dead && s.lastInbound == heard && s.now - heard < (c.countMax + 1) * c.interval
  {
    TooEarlyAfterDropping(c, at, heard);
    SameTimer(c, at, [Buffered(at, heard)] + Ticks(Max(at + c.interval, heard), c.interval, c.countMax));
  }

  // --- As they run ---------------------------------------------------------------------------

  /** The client's loop variables. */
  class ClientKeepalive {
    const interval: nat
    const countMax: nat
    var lastActivity: nat
    var probesPending: nat
    ghost var lastInbound: nat
    ghost var lastSeen: nat

    constructor (interval: nat, countMax: nat, now: nat)
      ensures this.interval == interval && this.countMax == countMax
      ensures View(now, false) == ClientStart(now)
    {
      this.interval, this.countMax, lastActivity, probesPending := interval, countMax, now, 0;
      lastInbound, lastSeen := now, now;
    }

    ghost function View(now: nat, dead: bool): Timer
      reads this
    {
      Timer(lastActivity, probesPending, dead, lastInbound, lastSeen, now)
    }

    /** Top of the loop: probe, or give up. */
    method OnTick(at: nat, kexing: bool, ghost now: nat) returns (ok: bool, probe: bool)
      requires now <= at
      modifies this
      ensures View(at, !ok) == ClientNext(Config(interval, countMax), old(View(now, false)), Tick(at, kexing))
      ensures probe <==> probesPending == old(probesPending) + 1
    {
      ok, probe := true, false;
      if !kexing && at - lastActivity >= interval {
        if probesPending >= countMax {
          ok := false;
          return;
        }
        probe := true;
        probesPending, lastActivity := probesPending + 1, at;
      }
    }

    method OnPacket(at: nat, ghost now: nat)
      modifies this
      ensures View(at, false) == ClientNext(Config(interval, countMax), old(View(now, false)), Packet(at))
    {
      probesPending, lastActivity := 0, at;
      lastInbound, lastSeen := at, at;
    }
  }

  class ServerKeepalive {
    const interval: nat
    const countMax: nat
    var lastActivity: nat
    var lastKeepalive: nat
    var missedKeepalives: nat
    ghost var lastInbound: nat
    ghost var lastSeen: nat

    constructor (interval: nat, countMax: nat, now: nat)
      ensures this.interval == interval && this.countMax == countMax
      ensures View(now, false) == ServerStart(now)
    {
      this.interval, this.countMax, lastActivity, lastKeepalive := interval, countMax, now, now;
      missedKeepalives := 0;
      lastInbound, lastSeen := now, now;
    }

    ghost function View(now: nat, dead: bool): ServerTimer
      reads this
    {
      ServerTimer(lastActivity, lastKeepalive, missedKeepalives, dead, lastInbound, lastSeen, now)
    }

    method OnTick(at: nat, kexing: bool, ghost now: nat) returns (ok: bool)
      requires now <= at
      modifies this
      ensures View(at, !ok) == ServerNext(Config(interval, countMax), old(View(now, false)), Tick(at, kexing))
    {
      if !kexing && at - lastActivity >= interval && at - lastKeepalive >= interval {
        if missedKeepalives >= countMax {
          return false;
        }
        lastKeepalive, missedKeepalives := at, missedKeepalives + 1;
      }
      ok := true;
    }

    /** The clock is set before the packet is dispatched, whatever is dropped meanwhile. */
    method OnPacket(at: nat, ghost heard: nat, ghost now: nat)
      modifies this
      ensures View(heard, false) == ServerNext(Config(interval, countMax), old(View(now, false)), Buffered(at, heard))
      ensures heard == at ==>
                View(at, false) == ServerNext(Config(interval, countMax), old(View(now, false)), Packet(at))
    {
      lastActivity, missedKeepalives := at, 0;
      lastInbound, lastSeen := heard, at;
    }
  }
}
