/**
 Remote-forward listeners: one process-wide handler shared by every connection, and each connection's
 own list of what it made the handler bind.
 */
module Bindings {
  import opened Prelude

  datatype Listener = Tcp(address: string, port: u16) | Unix(path: string)

  /** Who made the handler bind it; the handler itself remembers only the user. */
  datatype Holder = Holder(conn: nat, user: string)

  datatype Conn = Conn(user: string, tcp: seq<Listener>, unix: seq<Listener>)

  datatype World = World(bound: map<Listener, Holder>, conns: map<nat, Conn>)

  datatype Gateway = No | Yes | ClientSpecified

  /** `v6` says which address strings are IPv6 literals. */
  datatype Config = Config(cap: Option<nat>, gateway: Gateway, v6: string -> bool, tcpHandler: bool, unixHandler: bool)

  // --- The handler ---------------------------------------------------------------------------

  /** `answer` is the port the system gives; a listener that exists is never replaced. */
  function Bind(bound: map<Listener, Holder>, address: string, port: u16, answer: Option<u16>): Option<Listener> {
    if answer.None? || (port != 0 && answer.value != port) || Tcp(address, answer.value) in bound then None
    else Some(Tcp(address, answer.value))
  }

  /** Refused for another user's listener and for one that does not exist. */
  predicate MayUnbind(bound: map<Listener, Holder>, user: string, l: Listener) {
    l in bound && bound[l].user == user
  }

  /** `apply_gateway_ports`. */
  function Rewrite(cfg: Config, address: string): string {
    match cfg.gateway
    case ClientSpecified => address
    case No => if cfg.v6(address) then "::1" else "127.0.0.1"
    case Yes => if address in {"", "127.0.0.1", "localhost"} then "0.0.0.0" else address
  }

  // --- Requests ------------------------------------------------------------------------------

  function Owned(c: Conn): seq<Listener> {
    c.tcp + c.unix
  }

  predicate BelowCap(cfg: Config, c: Conn) {
    cfg.cap.None? || |c.tcp| + |c.unix| < cfg.cap.value
  }

  function Put(w: World, k: nat, c: Conn): World {
    w.(conns := w.conns[k := c])
  }

  /** Every occurrence goes. */
  function Retain(q: seq<Listener>, l: Listener): seq<Listener> {
    if q == [] then [] else (if q[0] == l then [] else [q[0]]) + Retain(q[1..], l)
  }

  datatype Request =
    | Forward(address: string, port: u32, permitted: bool, answer: Option<u16>)
    | Cancel(address: string, port: u32)
    | ForwardUnix(path: string, permitted: bool, answered: bool)
    | CancelUnix(path: string)

  function Made(w: World, k: nat, l: Listener): World
    requires k in w.conns
  {
    var c := w.conns[k];
    var c' := if l.Tcp? then c.(tcp := c.tcp + [l]) else c.(unix := c.unix + [l]);
    Put(w, k, c').(bound := w.bound[l := Holder(k, c.user)])
  }

  function Released(w: World, k: nat, l: Listener): World
    requires k in w.conns
  {
    var c := w.conns[k];
    if MayUnbind(w.bound, c.user, l)
    then Put(w, k, Conn(c.user, Retain(c.tcp, l), Retain(c.unix, l))).(bound := w.bound - {l})
    else w
  }

  /** The listener a request makes, if it makes one. */
  function Binds(cfg: Config, w: World, k: nat, r: Request): Option<Listener>
    requires k in w.conns
  {
    match r
    case Forward(address, port, permitted, answer) =>
      if !permitted || !BelowCap(cfg, w.conns[k]) || port > 0xFFFF || !cfg.tcpHandler then None
      else Bind(w.bound, Rewrite(cfg, address), port, answer)
    case ForwardUnix(path, permitted, answered) =>
      if !permitted || !BelowCap(cfg, w.conns[k]) || !cfg.unixHandler || !answered || Unix(path) in w.bound then None
      else Some(Unix(path))
    case _ => None
  }

  /** The listener the handler is asked to unbind, if it is asked. */
  function Asks(cfg: Config, w: World, k: nat, r: Request): Option<Listener>
    requires k in w.conns
  {
    match r
    case Cancel(address, port) =>
      if port > 0xFFFF || Tcp(Rewrite(cfg, address), port) !in w.conns[k].tcp || !cfg.tcpHandler then None
      else Some(Tcp(Rewrite(cfg, address), port))
    case CancelUnix(path) =>
      if Unix(path) !in w.conns[k].unix || !cfg.unixHandler then None else Some(Unix(path))
    case _ => None
  }

  /** `handle_global_request`, for the four forwarding requests. */
  function Handle(cfg: Config, w: World, k: nat, r: Request): World
    requires k in w.conns
  {
    if Binds(cfg, w, k, r).Some? then Made(w, k, Binds(cfg, w, k, r).value)
    else if Asks(cfg, w, k, r).Some? then Released(w, k, Asks(cfg, w, k, r).value)
    else w
  }

  /** Unbinding the listed listeners one by one. */
  function ReleaseAll(w: World, k: nat, ls: seq<Listener>): World
    requires k in w.conns
    ensures k in ReleaseAll(w, k, ls).conns
    decreases |ls|
  {
    if ls == [] then w else ReleaseAll(Released(w, k, ls[0]), k, ls[1..])
  }

  function TearDown(w: World, k: nat): World
    requires k in w.conns
  {
    var t := ReleaseAll(w, k, Owned(w.conns[k]));
    t.(conns := t.conns - {k})
  }

  datatype Step = Connect(k: nat, user: string) | Asked(k: nat, r: Request) | Disconnect(k: nat)

  function Next(cfg: Config, w: World, step: Step): World {
    match step
    case Connect(k, user) => if k in w.conns then w else Put(w, k, Conn(user, [], []))
    case Asked(k, r) => if k in w.conns then Handle(cfg, w, k, r) else w
    case Disconnect(k) => if k in w.conns then TearDown(w, k) else w
  }

  function Run(cfg: Config, w: World, steps: seq<Step>): World
    decreases |steps|
  {
    if steps == [] then w else Next(cfg, Run(cfg, w, steps[..|steps| - 1]), steps[|steps| - 1])
  }

  const NOBODY: World := World(map[], map[])

  // --- What every run keeps ------------------------------------------------------------------

  predicate Distinct(q: seq<Listener>) {
    q != [] ==> q[0] !in q[1..] && Distinct(q[1..])
  }

  lemma {:induction false} DistinctAppend(a: seq<Listener>, b: seq<Listener>)
    requires Distinct(a) && Distinct(b) && forall l | l in a :: l !in b
    ensures Distinct(a + b)
  {
    if a == [] {
      assert a + b == b;
    } else {
      assert (a + b)[1..] == a[1..] + b;
      assert a[0] in a && forall l | l in a[1..] :: l in a;
      DistinctAppend(a[1..], b);
    }
  }

  /** The owned lists are exactly the listeners this connection made the handler bind. */
  ghost predicate ListsExact(w: World, k: nat)
    requires k in w.conns
  {
    var c := w.conns[k];
    && Distinct(c.tcp) && Distinct(c.unix)
    && (forall l :: l in c.tcp <==> l.Tcp? && l in w.bound && w.bound[l].conn == k)
    && (forall l :: l in c.unix <==> l.Unix? && l in w.bound && w.bound[l].conn == k)
  }

  ghost predicate WithinCap(cfg: Config, c: Conn) {
    cfg.cap.Some? ==> |c.tcp| + |c.unix| <= cfg.cap.value
  }

  /** Every listener belongs to a connection that is still there. */
  ghost predicate HoldersExist(w: World) {
    forall l | l in w.bound :: w.bound[l].conn in w.conns && w.conns[w.bound[l].conn].user == w.bound[l].user
  }

  ghost predicate Inv(cfg: Config, w: World) {
    HoldersExist(w) && forall k | k in w.conns :: ListsExact(w, k) && WithinCap(cfg, w.conns[k])
  }

  lemma {:induction false} RetainRemoves(q: seq<Listener>, l: Listener)
    requires Distinct(q)
    ensures Distinct(Retain(q, l)) && |Retain(q, l)| <= |q|
    ensures forall m :: m in Retain(q, l) <==> m in q && m != l
  {
    if q != [] {
      RetainRemoves(q[1..], l);
      assert q == [q[0]] + q[1..];
      if q[0] == l {
        assert Retain(q, l) == Retain(q[1..], l);
      } else {
        assert Retain(q, l)[1..] == Retain(q[1..], l);
      }
    }
  }

  lemma MadeKeeps(cfg: Config, w: World, k: nat, l: Listener)
    requires Inv(cfg, w) && k in w.conns && l !in w.bound && BelowCap(cfg, w.conns[k])
    ensures Inv(cfg, Made(w, k, l))
  {
    var t := Made(w, k, l);
    assert ListsExact(w, k);
    DistinctAppend(w.conns[k].tcp, [l]);
    DistinctAppend(w.conns[k].unix, [l]);
    assert ListsExact(t, k);
    forall j | j in t.conns && j != k ensures ListsExact(t, j) && WithinCap(cfg, t.conns[j]) {
      assert ListsExact(w, j);
    }
  }

  lemma ReleasedKeeps(cfg: Config, w: World, k: nat, l: Listener)
    requires Inv(cfg, w) && k in w.conns && l in w.bound && w.bound[l].conn == k
    ensures Inv(cfg, Released(w, k, l)) && Released(w, k, l).bound == w.bound - {l}
  {
    var t := Released(w, k, l);
    ReleasedOwn(cfg, w, k, l);
    forall j | j in t.conns && j != k ensures ListsExact(t, j) && WithinCap(cfg, t.conns[j]) {
      assert ListsExact(w, j);
    }
  }

  lemma ReleasedOwn(cfg: Config, w: World, k: nat, l: Listener)
    requires k in w.conns && ListsExact(w, k) && WithinCap(cfg, w.conns[k])
    requires l in w.bound && w.bound[l] == Holder(k, w.conns[k].user)
    ensures var t := Released(w, k, l); ListsExact(t, k) && WithinCap(cfg, t.conns[k])
  {
    RetainRemoves(w.conns[k].tcp, l);
    RetainRemoves(w.conns[k].unix, l);
  }

  lemma {:induction false} HandleKeeps(cfg: Config, w: World, k: nat, r: Request)
    requires Inv(cfg, w) && k in w.conns
    ensures Inv(cfg, Handle(cfg, w, k, r))
  {
    if Binds(cfg, w, k, r).Some? {
      MadeKeeps(cfg, w, k, Binds(cfg, w, k, r).value);
    } else if Asks(cfg, w, k, r).Some? {
      assert ListsExact(w, k);
      ReleasedKeeps(cfg, w, k, Asks(cfg, w, k, r).value);
    }
  }

  /** What is left once `k` has given up `ls`. */
  ghost predicate Minus(before: map<Listener, Holder>, after: map<Listener, Holder>, ls: seq<Listener>) {
    && (forall l :: l in after <==> l in before && l !in ls)
    && (forall l | l in after :: after[l] == before[l])
  }

  lemma {:induction false} ReleaseAllReleases(cfg: Config, w: World, k: nat, ls: seq<Listener>)
    requires Inv(cfg, w) && k in w.conns && Distinct(ls)
    requires forall l | l in ls :: l in w.bound && w.bound[l].conn == k
    ensures var t := ReleaseAll(w, k, ls);
            Inv(cfg, t) && t.conns.Keys == w.conns.Keys && Minus(w.bound, t.bound, ls)
    decreases |ls|
  {
    if ls != [] {
      assert ls[0] in ls;
      ReleasedKeeps(cfg, w, k, ls[0]);
      var t := Released(w, k, ls[0]);
      forall l | l in ls[1..] ensures l in t.bound && t.bound[l].conn == k {
        assert l in ls;
      }
      ReleaseAllReleases(cfg, t, k, ls[1..]);
      MinusOne(w.bound, ReleaseAll(t, k, ls[1..]).bound, ls);
    }
  }

  lemma MinusOne(before: map<Listener, Holder>, after: map<Listener, Holder>, ls: seq<Listener>)
    requires ls != [] && Minus(before - {ls[0]}, after, ls[1..])
    ensures Minus(before, after, ls)
  {
    assert ls == [ls[0]] + ls[1..];
  }

  /** Disconnecting releases everything the connection owns and nothing else. */
  lemma {:induction false} TearDownReleases(cfg: Config, w: World, k: nat)
    requires Inv(cfg, w) && k in w.conns
    ensures var t := TearDown(w, k);
            && Inv(cfg, t)
            && (forall l :: l in t.bound <==> l in w.bound && w.bound[l].conn != k)
            && (forall l | l in t.bound :: t.bound[l] == w.bound[l])
  {
    var c := w.conns[k];
    assert ListsExact(w, k);
    DistinctAppend(c.tcp, c.unix);
    ReleaseAllReleases(cfg, w, k, Owned(c));
    var r := ReleaseAll(w, k, Owned(c));
    var t := TearDown(w, k);
    assert ListsExact(r, k);
    forall j | j in t.conns ensures ListsExact(t, j) && WithinCap(cfg, t.conns[j]) {
      assert ListsExact(r, j);
    }
  }

  lemma {:induction false} NextKeeps(cfg: Config, w: World, step: Step)
    requires Inv(cfg, w)
    ensures Inv(cfg, Next(cfg, w, step))
  {
    match step
    case Connect(k, user) => if k !in w.conns { ConnectKeeps(cfg, w, k, user); }
    case Asked(k, r) => if k in w.conns { HandleKeeps(cfg, w, k, r); }
    case Disconnect(k) => if k in w.conns { TearDownReleases(cfg, w, k); }
  }

  lemma ConnectKeeps(cfg: Config, w: World, k: nat, user: string)
    requires Inv(cfg, w) && k !in w.conns
    ensures Inv(cfg, Put(w, k, Conn(user, [], [])))
  {
    var t := Put(w, k, Conn(user, [], []));
    assert ListsExact(t, k);
    forall j | j in t.conns && j != k ensures ListsExact(t, j) && WithinCap(cfg, t.conns[j]) {
      assert ListsExact(w, j);
    }
  }

  lemma {:induction false} RunKeeps(cfg: Config, steps: seq<Step>)
    ensures Inv(cfg, Run(cfg, NOBODY, steps))
    decreases |steps|
  {
    if steps != [] {
      RunKeeps(cfg, steps[..|steps| - 1]);
      NextKeeps(cfg, Run(cfg, NOBODY, steps[..|steps| - 1]), steps[|steps| - 1]);
    }
  }

  // --- Main results --------------------------------------------------------------------------

  /** In every interleaving of connections: within the cap, and the lists tell exactly who bound what. */
  lemma OwnedAreBound(cfg: Config, steps: seq<Step>, k: nat, l: Listener)
    requires k in Run(cfg, NOBODY, steps).conns
    ensures var w := Run(cfg, NOBODY, steps);
            && (l in Owned(w.conns[k]) <==> l in w.bound && w.bound[l].conn == k)
            && Distinct(Owned(w.conns[k]))
            && (cfg.cap.Some? ==> |Owned(w.conns[k])| <= cfg.cap.value)
  {
    RunKeeps(cfg, steps);
    var w := Run(cfg, NOBODY, steps);
    assert ListsExact(w, k);
    DistinctAppend(w.conns[k].tcp, w.conns[k].unix);
  }

  /** A cancel reaches the handler only for a listener of the connection's own, and then succeeds. */
  lemma CancelIsOwn(cfg: Config, steps: seq<Step>, k: nat, r: Request)
    requires k in Run(cfg, NOBODY, steps).conns && Asks(cfg, Run(cfg, NOBODY, steps), k, r).Some?
    ensures var w := Run(cfg, NOBODY, steps);
            var l := Asks(cfg, w, k, r).value;
            && l in w.bound && w.bound[l].conn == k && MayUnbind(w.bound, w.conns[k].user, l)
            && Handle(cfg, w, k, r).bound == w.bound - {l}
  {
    RunKeeps(cfg, steps);
    var w := Run(cfg, NOBODY, steps);
    assert ListsExact(w, k);
    ReleasedKeeps(cfg, w, k, Asks(cfg, w, k, r).value);
  }

  /** Whatever one connection does, or its end, leaves every other connection's listeners alone. */
  lemma {:induction false} OthersUntouched(cfg: Config, w: World, step: Step, l: Listener)
    requires Inv(cfg, w) && l in w.bound && w.bound[l].conn != step.k
    ensures l in Next(cfg, w, step).bound && Next(cfg, w, step).bound[l] == w.bound[l]
  {
    match step
    case Connect(_, _) =>
    case Asked(k, r) =>
      if k in w.conns && Binds(cfg, w, k, r).None? && Asks(cfg, w, k, r).Some? {
        assert ListsExact(w, k);
        ReleasedKeeps(cfg, w, k, Asks(cfg, w, k, r).value);
      }
    case Disconnect(k) => if k in w.conns { TearDownReleases(cfg, w, k); }
  }

  /**
   A cancel undoes the forward it names, whatever the address was rewritten to: by the port asked for,
   or by the one the reply gave if the system was left to choose.
   */
  lemma CancelUndoes(cfg: Config, w: World, k: nat, address: string, port: u32, answer: Option<u16>)
    requires Inv(cfg, w) && k in w.conns && Binds(cfg, w, k, Forward(address, port, true, answer)).Some?
    ensures var t := Handle(cfg, w, k, Forward(address, port, true, answer));
            var given := answer.value;
            && (port != 0 ==> given == port)
            && k in t.conns && Handle(cfg, t, k, Cancel(address, given)).bound == w.bound
  {
    var l := Binds(cfg, w, k, Forward(address, port, true, answer)).value;
    var t := Made(w, k, l);
    assert t.conns[k].tcp[|w.conns[k].tcp|] == l;
    assert Asks(cfg, t, k, Cancel(address, answer.value)) == Some(l);
    ReleaseMade(w, k, l);
  }

  lemma ReleaseMade(w: World, k: nat, l: Listener)
    requires k in w.conns && l !in w.bound
    ensures Released(Made(w, k, l), k, l).bound == w.bound
  {
    assert w.bound[l := Holder(k, w.conns[k].user)] - {l} == w.bound;
  }

  // --- As it runs ----------------------------------------------------------------------------

  /** The shared handler. */
  class Handler {
    var bound: map<Listener, Holder>

    constructor ()
      ensures bound == map[]
    {
      bound := map[];
    }

    method Add(l: Listener, holder: Holder) returns (ok: bool)
      modifies this
      ensures ok == (l !in old(bound))
      ensures bound == if ok then old(bound)[l := holder] else old(bound)
    {
      ok := l !in bound;
      if ok {
        bound := bound[l := holder];
      }
    }

    method Unbind(user: string, l: Listener) returns (ok: bool)
      modifies this
      ensures ok == MayUnbind(old(bound), user, l)
      ensures bound == if ok then old(bound) - {l} else old(bound)
    {
      ok := l in bound && bound[l].user == user;
      if ok {
        bound := bound - {l};
      }
    }
  }

  /** One connection's forwarding state. */
  class ForwardConn {
    const handler: Handler
    const k: nat
    const user: string
    var tcp: seq<Listener>
    var unix: seq<Listener>

    constructor (handler: Handler, k: nat, user: string)
      ensures this.handler == handler && this.k == k && this.user == user && tcp == [] && unix == []
    {
      this.handler, this.k, this.user, tcp, unix := handler, k, user, [], [];
    }

    /** This connection in the world of the others. */
    ghost function View(others: map<nat, Conn>): World
      reads this, handler
    {
      World(handler.bound, others[k := Conn(user, tcp, unix)])
    }

    method TcpipForward(cfg: Config, address: string, port: u32, permitted: bool, answer: Option<u16>,
                        ghost others: map<nat, Conn>) returns (bound: Option<u16>)
      modifies this`tcp, handler
      ensures View(others) == Handle(cfg, old(View(others)), k, Forward(address, port, permitted, answer))
      ensures bound.Some? <==> Binds(cfg, old(View(others)), k, Forward(address, port, permitted, answer)).Some?
      ensures bound.Some? ==> (port != 0 ==> bound.value == port) && Tcp(Rewrite(cfg, address), bound.value) in tcp
    {
      var below := cfg.cap.None? || |tcp| + |unix| < cfg.cap.value;
      if !permitted || !below || port > 0xFFFF || !cfg.tcpHandler {
        return None;
      }
      if answer.None? || (port != 0 && answer.value != port) {
        return None;
      }
      var l := Tcp(Rewrite(cfg, address), answer.value);
      var ok := handler.Add(l, Holder(k, user));
      if !ok {
        return None;
      }
      tcp := tcp + [l];
      bound := answer;
    }

    method CancelTcpipForward(cfg: Config, address: string, port: u32, ghost others: map<nat, Conn>) returns (ok: bool)
      requires forall l | l in unix :: l.Unix?
      modifies this`tcp, handler
      ensures View(others) == Handle(cfg, old(View(others)), k, Cancel(address, port))
    {
      if port > 0xFFFF || !cfg.tcpHandler || Tcp(Rewrite(cfg, address), port) !in tcp {
        return false;
      }
      var l := Tcp(Rewrite(cfg, address), port);
      ok := handler.Unbind(user, l);
      if ok {
        RetainNothing(unix, l);
        tcp := Retain(tcp, l);
      }
    }

    /** Teardown: every owned listener goes back to the handler. */
    method Release(ghost others: map<nat, Conn>, ghost cfg: Config)
      requires Inv(cfg, View(others))
      modifies this, handler
      ensures tcp == [] && unix == []
      ensures forall l :: l in handler.bound <==> l in old(handler.bound) && old(handler.bound)[l].conn != k
    {
      ghost var w := View(others);
      TearDownReleases(cfg, w, k);
      var left := tcp + unix;
      ghost var now := w;
      while left != []
        invariant k in now.conns && now.bound == handler.bound && now.conns[k].user == user
        invariant ReleaseAll(now, k, left) == ReleaseAll(w, k, Owned(w.conns[k]))
        decreases |left|
      {
        var ok := handler.Unbind(user, left[0]);
        now := Released(now, k, left[0]);
        left := left[1..];
      }
      tcp, unix := [], [];
    }
  }

  lemma {:induction false} RetainNothing(q: seq<Listener>, l: Listener)
    requires l !in q
    ensures Retain(q, l) == q
  {
    if q != [] { RetainNothing(q[1..], l); }
  }
}
