/** User authentication over a connection whose host key may have changed. */
module Userauth {
  import opened Prelude
  import T = Trust

  // --- Packets -------------------------------------------------------------------------------

  const USERAUTH_REQUEST: byte := 50
  const INFO_RESPONSE: byte := 61
  const SERVICE_REQUEST: byte := 5

  /** "password" and "keyboard-interactive". */
  const PASSWORD: seq<byte> := [112, 97, 115, 115, 119, 111, 114, 100]
  const KEYBOARD: seq<byte> :=
    [107, 101, 121, 98, 111, 97, 114, 100, 45, 105, 110, 116, 101, 114, 97, 99, 116, 105, 118, 101]

  /** An SSH string and what follows it. */
  function ReadString(b: seq<byte>): Option<(seq<byte>, seq<byte>)> {
    if |b| < 4 || |b| < 4 + U32(b[..4]) then None
    else Some((b[4..4 + U32(b[..4])], b[4 + U32(b[..4])..]))
  }

  function WriteString(s: seq<byte>): seq<byte>
    requires |s| <= U32_MAX
  {
    Be32(|s|) + s
  }

  lemma StringRoundTrip(s: seq<byte>, rest: seq<byte>)
    requires |s| <= U32_MAX
    ensures ReadString(WriteString(s) + rest) == Some((s, rest))
  {
    var b := WriteString(s) + rest;
    assert b[..4] == Be32(|s|);
    assert b[4..4 + |s|] == s && b[4 + |s|..] == rest;
  }

  /** The third string: user, service, method. */
  function MethodOf(b: seq<byte>): Option<seq<byte>> {
    match ReadString(b)
    case None => None
    case Some((_, b1)) =>
      match ReadString(b1)
      case None => None
      case Some((_, b2)) =>
        match ReadString(b2)
        case None => None
        case Some((m, _)) => Some(m)
  }

  /** `auth_packet_blocked_after_mismatch`. */
  predicate Blocked(p: seq<byte>) {
    && p != []
    && (p[0] == INFO_RESPONSE
        || (p[0] == USERAUTH_REQUEST && (MethodOf(p[1..]) == Some(PASSWORD) || MethodOf(p[1..]) == Some(KEYBOARD))))
  }

  function UserauthRequest(user: seq<byte>, service: seq<byte>, name: seq<byte>, fields: seq<byte>): seq<byte>
    requires |user| <= U32_MAX && |service| <= U32_MAX && |name| <= U32_MAX
  {
    [USERAUTH_REQUEST] + (WriteString(user) + (WriteString(service) + (WriteString(name) + fields)))
  }

  /** Whatever the user, service and fields, a request is held back exactly for the two methods. */
  lemma BlockedExact(user: seq<byte>, service: seq<byte>, name: seq<byte>, fields: seq<byte>)
    requires |user| <= U32_MAX && |service| <= U32_MAX && |name| <= U32_MAX
    ensures Blocked(UserauthRequest(user, service, name, fields)) <==> name == PASSWORD || name == KEYBOARD
  {
    var p := UserauthRequest(user, service, name, fields);
    assert p[1..] == WriteString(user) + (WriteString(service) + (WriteString(name) + fields));
    StringRoundTrip(user, WriteString(service) + (WriteString(name) + fields));
    StringRoundTrip(service, WriteString(name) + fields);
    StringRoundTrip(name, fields);
  }

  // --- Credentials ---------------------------------------------------------------------------

  datatype Credential = NoCredential | Password | PasswordPrompt | PublicKey(id: nat) | KeyboardInteractive

  predicate Usable(c: Credential) {
    c.NoCredential? || c.PublicKey?
  }

  function Kept(cs: seq<Credential>): seq<Credential> {
    if cs == [] then [] else Only(cs[0]) + Kept(cs[1..])
  }

  function Only(c: Credential): seq<Credential> {
    if Usable(c) then [c] else []
  }

  lemma {:induction false} KeptAppend(a: seq<Credential>, c: Credential)
    ensures Kept(a + [c]) == Kept(a) + Only(c)
  {
    if a == [] {
      assert a + [c] == [c] && [c][1..] == [];
      assert Only(c) + [] == Only(c) == [] + Only(c);
    } else {
      assert (a + [c])[1..] == a[1..] + [c];
      KeptAppend(a[1..], c);
      assert Only(a[0]) + (Kept(a[1..]) + Only(c)) == (Only(a[0]) + Kept(a[1..])) + Only(c);
    }
  }

  lemma {:induction false} KeptIn(cs: seq<Credential>, c: Credential)
    ensures c in Kept(cs) <==> c in cs && Usable(c)
  {
    if cs != [] {
      KeptIn(cs[1..], c);
      assert cs == [cs[0]] + cs[1..];
    }
  }

  /** `filter_credentials_after_mismatch`: the usable ones in order, or nothing if no key is among them. */
  method FilterCredentials(cs: seq<Credential>) returns (r: Option<seq<Credential>>)
    ensures r.Some? <==> exists c | c in cs :: c.PublicKey?
    ensures r.Some? ==> r.value == Kept(cs) && forall c | c in r.value :: Usable(c)
  {
    var kept := [];
    var i := 0;
    while i < |cs|
      invariant 0 <= i <= |cs| && kept == Kept(cs[..i])
    {
      KeptAppend(cs[..i], cs[i]);
      assert cs[..i + 1] == cs[..i] + [cs[i]];
      if Usable(cs[i]) {
        kept := kept + [cs[i]];
      }
      i := i + 1;
    }
    assert cs[..i] == cs;
    forall c ensures c in kept <==> c in cs && Usable(c) {
      KeptIn(cs, c);
    }
    if forall c | c in kept :: c.NoCredential? {
      assert forall c | c in cs :: c.PublicKey? ==> c in kept;
      return None;
    }
    r := Some(kept);
  }

  // --- The exchange --------------------------------------------------------------------------

  datatype ClientStep = Send(p: seq<byte>) | Success | Failed | Banner | Idle | Fault

  /** One turn of the loop: re-keys while waiting for a packet, and what the auth driver makes of it. */
  datatype Turn = Turn(rekeys: seq<T.Offer>, step: ClientStep)

  datatype Outcome = Authenticated | AuthFailed | Disabled | Broken | TooManySteps

  datatype Result = Result(trust: T.State, sent: seq<seq<byte>>, outcome: Outcome)

  const MAX_AUTH_STEPS := 64

  function Drive(policy: T.Policy, s: T.State, guard: bool, turns: seq<Turn>, left: nat): Result
    decreases left
  {
    if left == 0 then Result(s, [], TooManySteps)
    else if turns == [] then Result(s, [], Broken)
    else
      var t := T.Run(policy, s, turns[0].rekeys);
      if !t.up then Result(t, [], Broken)
      else
        match turns[0].step
        case Send(p) =>
          if guard && Blocked(p) then Result(t, [], Disabled)
          else
            var more := Drive(policy, t, guard, turns[1..], left - 1);
            more.(sent := [p] + more.sent)
        case Success => Result(t, [], Authenticated)
        case Failed => Result(t, [], AuthFailed)
        case Fault => Result(t, [], Broken)
        case _ => Drive(policy, t, guard, turns[1..], left - 1)
  }

  /** `run_auth`: the service request, then the loop under the flag as it stood. */
  function RunAuth(policy: T.Policy, s: T.State, start: seq<byte>, turns: seq<Turn>): Result {
    var r := Drive(policy, s, s.mismatched, turns, MAX_AUTH_STEPS);
    r.(sent := [start] + r.sent)
  }

  lemma {:induction false} DriveGuards(policy: T.Policy, s: T.State, guard: bool, turns: seq<Turn>, left: nat)
    requires T.Pinned(s) && s.pinned.Some?
    ensures var r := Drive(policy, s, guard, turns, left);
            && r.trust.mismatched == s.mismatched && r.trust.store == s.store && r.trust.pinned == s.pinned
            && (guard ==> forall p | p in r.sent :: !Blocked(p))
            && (r.outcome == Disabled ==> guard)
    decreases left
  {
    if left > 0 && turns != [] {
      T.RunPinned(policy, s, turns[0].rekeys);
      var t := T.Run(policy, s, turns[0].rekeys);
      if t.up && (turns[0].step.Send? || turns[0].step.Banner? || turns[0].step.Idle?) {
        DriveGuards(policy, t, guard, turns[1..], left - 1);
      }
    }
  }

  /**
   With a changed host key let through, no password and no keyboard-interactive answer ever leaves,
   whatever the auth driver produces and however many re-keys happen meanwhile.
   */
  lemma NoSecretsOverMismatch(policy: T.Policy, s: T.State, start: seq<byte>, turns: seq<Turn>, p: seq<byte>)
    requires T.Pinned(s) && s.pinned.Some? && start != [] && start[0] == SERVICE_REQUEST
    requires p in RunAuth(policy, s, start, turns).sent && RunAuth(policy, s, start, turns).trust.mismatched
    ensures p != [] ==> p[0] != INFO_RESPONSE
    ensures forall user: seq<byte>, service: seq<byte>, fields: seq<byte> ::
              |user| <= U32_MAX && |service| <= U32_MAX ==>
                && p != UserauthRequest(user, service, PASSWORD, fields)
                && p != UserauthRequest(user, service, KEYBOARD, fields)
  {
    DriveGuards(policy, s, s.mismatched, turns, MAX_AUTH_STEPS);
    assert !Blocked(p);
    forall user: seq<byte>, service: seq<byte>, fields: seq<byte> | |user| <= U32_MAX && |service| <= U32_MAX
      ensures && p != UserauthRequest(user, service, PASSWORD, fields)
              && p != UserauthRequest(user, service, KEYBOARD, fields)
    {
      BlockedExact(user, service, PASSWORD, fields);
      BlockedExact(user, service, KEYBOARD, fields);
    }
  }

  /** Over a verified key nothing is held back. */
  lemma NothingHeldBack(policy: T.Policy, s: T.State, start: seq<byte>, turns: seq<Turn>)
    requires T.Pinned(s) && s.pinned.Some? && !s.mismatched
    ensures RunAuth(policy, s, start, turns).outcome != Disabled
  {
    DriveGuards(policy, s, false, turns, MAX_AUTH_STEPS);
  }

  /** The loop itself, on the client's own state. */
  method Authenticate(policy: T.Policy, trust: T.HostTrust, start: seq<byte>, turns: seq<Turn>)
    returns (sent: seq<seq<byte>>, outcome: Outcome)
    requires trust.up
    modifies trust
    ensures Result(trust.View(), sent, outcome) == RunAuth(policy, old(trust.View()), start, turns)
  {
    sent := [start];
    var mismatched := trust.mismatched;
    var left, budget: nat := turns, MAX_AUTH_STEPS;
    ghost var all := RunAuth(policy, trust.View(), start, turns);
    while budget > 0
      invariant trust.up && budget <= MAX_AUTH_STEPS
      invariant Ahead(sent, Drive(policy, trust.View(), mismatched, left, budget)) == all
      decreases budget
    {
      if left == [] {
        outcome := Broken;
        return;
      }
      Rekey(policy, trust, left[0].rekeys);
      if !trust.up {
        outcome := Broken;
        return;
      }
      match left[0].step {
        case Send(p) =>
          if mismatched && Blocked(p) {
            outcome := Disabled;
            return;
          }
          AheadOne(sent, p, Drive(policy, trust.View(), mismatched, left[1..], budget - 1));
          sent := sent + [p];
        case Success =>
          outcome := Authenticated;
          return;
        case Failed =>
          outcome := AuthFailed;
          return;
        case Fault =>
          outcome := Broken;
          return;
        case Banner =>
        case Idle =>
      }
      left, budget := left[1..], budget - 1;
    }
    outcome := TooManySteps;
  }

  /** `r` with packets `sent` already out. */
  function Ahead(sent: seq<seq<byte>>, r: Result): Result {
    r.(sent := sent + r.sent)
  }

  lemma AheadOne(sent: seq<seq<byte>>, p: seq<byte>, r: Result)
    ensures Ahead(sent, r.(sent := [p] + r.sent)) == Ahead(sent + [p], r)
  {
    assert sent + ([p] + r.sent) == (sent + [p]) + r.sent;
  }

  method Rekey(policy: T.Policy, trust: T.HostTrust, offers: seq<T.Offer>)
    modifies trust
    ensures trust.View() == T.Run(policy, old(trust.View()), offers)
  {
    var i := 0;
    while i < |offers|
      invariant 0 <= i <= |offers| && trust.View() == T.Run(policy, old(trust.View()), offers[..i])
    {
      assert offers[..i + 1][..i] == offers[..i];
      if trust.up {
        trust.KeyExchange(policy, offers[i]);
      }
      i := i + 1;
    }
    assert offers[..i] == offers;
  }
}
