/**
 The client's decision about the server's host key: the first key exchange asks the policy, every
 later one must bring the same key.
 */
module Trust {
  import opened Prelude
  import K = KnownHosts

  /** `TofuAction`; a prompt carries the user's answer. */
  datatype Action = Reject | Accept | AcceptWithWarning | Prompt(yes: bool)

  datatype Policy =
    | AcceptAny
    | AcceptFingerprint(pin: seq<byte>, digest: K.Key -> seq<byte>)
    | Checked(known: Known)

  datatype PreCheck = Absent | NoOpinion | Says(yes: bool)

  datatype Known = Known(
    target: K.Host, alias: Option<string>,
    address: Option<K.Host>,        // CheckHostIP
    globals: seq<K.Store>,
    command: K.Key -> Option<K.Store>,   // KnownHostsCommand, asked about a blob
    revoked: set<K.Key>,            // RevokedHostKeys
    preCheck: PreCheck,
    onUnknown: Action, onMismatch: Action, onAddress: Action,
    saves: bool,                    // a save path other than /dev/null
    hashes: bool,                   // HashKnownHosts
    recordable: bool,               // the name and the key type fit a known_hosts line
    addressRecordable: bool)        // so does the address

  /**
   A host certificate: the key it certifies, the authority that signed it, whether RevokedHostKeys lists it
   by serial or id, whether its own constraints hold (type, dates, known options), and whether it is `valid`
   for a host that trusts the authority (also no critical option, a good signature, the host named).
   */
  datatype Certificate = Certificate(embedded: K.Key, authority: K.Key, listed: bool, sound: bool, valid: bool)

  /** One exchange: the reply, whether its key parses as negotiated, its type, and whether the signature is good. */
  datatype Offer = Offer(
    reply: seq<byte>, wellFormed: bool, keyType: string, typeAgrees: bool, cert: Option<Certificate>, signed: bool)

  datatype State = State(
    store: K.Store, mismatched: bool, pinned: Option<K.Key>, up: bool, accepted: seq<K.Key>)

  /** The verifier's answer with the store and the flag as it leaves them. */
  datatype Verified = Verified(ok: bool, store: K.Store, mismatched: bool)

  // --- The reply -----------------------------------------------------------------------------

  /** The host key blob: a length-prefixed string after the message number. */
  function HostKey(reply: seq<byte>): Option<K.Key> {
    if |reply| < 5 || |reply| < 5 + U32(reply[1..5]) then None else Some(reply[5..5 + U32(reply[1..5])])
  }

  // --- The decision --------------------------------------------------------------------------

  /** The name looked up: `HostKeyAlias` stands for name and port. */
  function Subject(k: Known): K.Host {
    if k.alias.Some? then K.Host(k.alias.value, 22) else k.target
  }

  /** The global files, then what the command prints about `blob`. */
  function Others(k: Known, blob: K.Key): seq<K.Store> {
    k.globals + (if k.command(blob).Some? then [k.command(blob).value] else [])
  }

  function Consulted(k: Known, store: K.Store, blob: K.Key): seq<K.Store> {
    [store] + Others(k, blob)
  }

  function HostLookup(k: Known, store: K.Store, keyType: string, key: K.Key): K.Lookup {
    K.Fold(K.Find(store, Subject(k), keyType, key), Finds(Others(k, key), Subject(k), keyType, key))
  }

  function AddressLookup(k: Known, store: K.Store, h: K.Host, keyType: string, key: K.Key): K.Lookup {
    K.Fold(K.Find(store, h, keyType, key), Finds(k.globals, h, keyType, key))
  }

  function Finds(stores: seq<K.Store>, h: K.Host, keyType: string, key: K.Key): seq<K.Lookup> {
    if stores == [] then [] else [K.Find(stores[0], h, keyType, key)] + Finds(stores[1..], h, keyType, key)
  }

  predicate Agrees(a: Action) {
    match a
    case Reject => false
    case Prompt(yes) => yes
    case _ => true
  }

  /** The address is new, so it is recorded beside the name. */
  predicate NewAddress(k: Known, byAddress: bool, store: K.Store, keyType: string, key: K.Key) {
    k.address.Some? && byAddress && AddressLookup(k, store, k.address.value, keyType, key).Unknown?
  }

  /** The known_hosts policy; `byAddress` is off for the key of an unlisted certificate. */
  function Decide(k: Known, s: State, keyType: string, key: K.Key, byAddress: bool): Verified {
    var refuse := Verified(false, s.store, s.mismatched);
    match HostLookup(k, s.store, keyType, key)
    case RevokedKey => refuse
    case Match =>
      var store := if NewAddress(k, byAddress, s.store, keyType, key) && k.saves && k.addressRecordable
                   then K.Add(s.store, k.address.value, keyType, key) else s.store;
      AddressGate(k, s.store, keyType, key, byAddress, Verified(true, store, s.mismatched))
    case Mismatch(_) =>
      if !Agrees(k.onMismatch) then refuse
      else if k.onMismatch.AcceptWithWarning? then Verified(true, s.store, true)
      else if !k.recordable then refuse.(store := K.RemoveExact(s.store, Subject(k)))
      else Verified(true, K.Add(K.RemoveExact(s.store, Subject(k)), Subject(k), keyType, key), s.mismatched)
    case Unknown =>
      var named := K.Add(s.store, Subject(k), keyType, key);
      if !Agrees(k.onUnknown) || !k.recordable then refuse
      else if NewAddress(k, byAddress, s.store, keyType, key) && !k.addressRecordable
      then refuse.(store := if k.hashes then named else s.store)
      else
        var store := if !NewAddress(k, byAddress, s.store, keyType, key) then named
                     else if k.hashes then K.Add(named, k.address.value, keyType, key)
                     else K.AddPair(s.store, Subject(k), k.address.value, keyType, key);
        AddressGate(k, s.store, keyType, key, byAddress, Verified(true, store, s.mismatched))
  }

  /** A trusted host at an address recorded with another key. */
  function AddressGate(k: Known, before: K.Store, keyType: string, key: K.Key, byAddress: bool, v: Verified): Verified {
    if k.address.Some? && byAddress && AddressLookup(k, before, k.address.value, keyType, key).Mismatch?
       && !Agrees(k.onAddress)
    then v.(ok := false) else v
  }

  /** The key behind the blob: a certificate's embedded one. */
  function Plain(o: Offer, key: K.Key): K.Key {
    if o.cert.Some? then o.cert.value.embedded else key
  }

  /** RevokedHostKeys has the certificate, its key or its authority's. */
  predicate Filed(k: Known, c: Certificate) {
    c.embedded in k.revoked || c.authority in k.revoked || c.listed
  }

  predicate Barred(k: Known, o: Offer, key: K.Key) {
    (o.cert.Some? && Filed(k, o.cert.value)) || Plain(o, key) in k.revoked
  }

  predicate AnyRevokes(stores: seq<K.Store>, h: K.Host, c: Certificate) {
    exists st | st in stores :: K.RevokesCert(st, h, c.embedded, c.authority)
  }

  predicate AnyAuthority(stores: seq<K.Store>, h: K.Host, c: Certificate) {
    exists st | st in stores :: K.HasAuthority(st, h, c.authority)
  }

  /** A certificate of an authority some store lists for the host; any other is checked as its plain key. */
  predicate Certified(k: Known, store: K.Store, o: Offer, key: K.Key) {
    o.cert.Some? && AnyAuthority(Consulted(k, store, key), Subject(k), o.cert.value)
  }

  predicate CertRefused(k: Known, store: K.Store, o: Offer, key: K.Key) {
    && o.cert.Some?
    && (|| Filed(k, o.cert.value)
        || AnyRevokes(Consulted(k, store, key), Subject(k), o.cert.value)
        || (Certified(k, store, o, key) && !o.cert.value.valid))
  }

  /** `build_verifier` on the first exchange. */
  function First(policy: Policy, s: State, o: Offer, key: K.Key): Verified {
    var refuse, pass := Verified(false, s.store, s.mismatched), Verified(true, s.store, s.mismatched);
    if policy.Checked? && (policy.known.target.name == "" || policy.known.target.port == 0) then refuse
    else if !o.wellFormed then refuse
    else
      match policy
      case AcceptAny => if o.cert.Some? && !o.cert.value.sound then refuse else pass
      case AcceptFingerprint(pin, digest) =>
        if digest(key) != pin || (o.cert.Some? && !o.cert.value.sound) then refuse else pass
      case Checked(k) =>
        if !k.preCheck.Absent? && Barred(k, o, key) then refuse
        else if k.preCheck.Says? then if k.preCheck.yes then pass else refuse
        else if CertRefused(k, s.store, o, key) then refuse
        else if Certified(k, s.store, o, key) then pass
        else if !o.typeAgrees || Plain(o, key) in k.revoked then refuse
        else Decide(k, s, o.keyType, Plain(o, key), o.cert.None?)
  }

  function Verify(policy: Policy, s: State, o: Offer): Verified {
    match HostKey(o.reply)
    case None => Verified(false, s.store, s.mismatched)
    case Some(key) =>
      if s.pinned.Some? then Verified(key == s.pinned.value && o.wellFormed, s.store, s.mismatched)
      else First(policy, s, o, key)
  }

  /** A whole exchange: the verdict, then the signature; either failing ends the connection. */
  function Exchange(policy: Policy, s: State, o: Offer): State {
    if !s.up then s
    else
      var v := Verify(policy, s, o);
      var t := s.(store := v.store, mismatched := v.mismatched);
      if !v.ok || !o.signed then t.(up := false)
      else
        var key := HostKey(o.reply).value;
        t.(pinned := if s.pinned.Some? then s.pinned else Some(key), accepted := s.accepted + [key])
  }

  function Run(policy: Policy, s: State, offers: seq<Offer>): State
    decreases |offers|
  {
    if offers == [] then s else Exchange(policy, Run(policy, s, offers[..|offers| - 1]), offers[|offers| - 1])
  }

  function Init(store: K.Store): State {
    State(store, false, None, true, [])
  }

  // --- Every run -----------------------------------------------------------------------------

  /** The accepted keys are all the pinned one; nothing is accepted before there is a pin. */
  ghost predicate Pinned(s: State) {
    (s.accepted != [] ==> s.pinned.Some?) && forall key | key in s.accepted :: s.pinned == Some(key)
  }

  lemma ExchangePinned(policy: Policy, s: State, o: Offer)
    requires Pinned(s)
    ensures Pinned(Exchange(policy, s, o))
    ensures s.pinned.Some? ==>
              var t := Exchange(policy, s, o);
              t.pinned == s.pinned && t.store == s.store && t.mismatched == s.mismatched
  {
  }

  lemma {:induction false} RunPinned(policy: Policy, s: State, offers: seq<Offer>)
    requires Pinned(s)
    ensures Pinned(Run(policy, s, offers))
    ensures s.pinned.Some? ==>
              var t := Run(policy, s, offers);
              t.pinned == s.pinned && t.store == s.store && t.mismatched == s.mismatched
    decreases |offers|
  {
    if offers != [] {
      RunPinned(policy, s, offers[..|offers| - 1]);
      ExchangePinned(policy, Run(policy, s, offers[..|offers| - 1]), offers[|offers| - 1]);
    }
  }

  /** Over any sequence of exchanges every accepted host key equals the first. */
  lemma OneKey(policy: Policy, store: K.Store, offers: seq<Offer>, i: nat, j: nat)
    requires i < |Run(policy, Init(store), offers).accepted| && j < |Run(policy, Init(store), offers).accepted|
    ensures Run(policy, Init(store), offers).accepted[i] == Run(policy, Init(store), offers).accepted[j]
  {
    var t := Run(policy, Init(store), offers);
    RunPinned(policy, Init(store), offers);
    assert t.accepted[i] in t.accepted && t.accepted[j] in t.accepted;
  }

  /** After the first exchange the store and the flag never change again, whatever is offered. */
  lemma SettledByFirst(policy: Policy, store: K.Store, first: Offer, later: seq<Offer>)
    ensures var s := Exchange(policy, Init(store), first);
            var t := Run(policy, s, later);
            t.store == s.store && t.mismatched == s.mismatched
  {
    var s := Exchange(policy, Init(store), first);
    ExchangePinned(policy, Init(store), first);
    if s.pinned.Some? {
      RunPinned(policy, s, later);
    } else {
      StaysDown(policy, s, later);
    }
  }

  lemma {:induction false} StaysDown(policy: Policy, s: State, offers: seq<Offer>)
    requires !s.up
    ensures Run(policy, s, offers) == s
    decreases |offers|
  {
    if offers != [] { StaysDown(policy, s, offers[..|offers| - 1]); }
  }

  // --- What the decision means ---------------------------------------------------------------

  /**
   A store revokes what was offered: the user's or a global one marks the key (of a certificate, the
   certified one), one that is consulted about a certificate marks its key or its authority's, or the
   command does for a key that is checked as such.
   */
  ghost predicate RevokedSomewhere(k: Known, store: K.Store, o: Offer, key: K.Key) {
    var h, plain := Subject(k), Plain(o, key);
    || (exists st | st in [store] + k.globals :: K.Find(st, h, o.keyType, plain) == K.RevokedKey)
    || (o.cert.Some? && AnyRevokes(Consulted(k, store, key), h, o.cert.value))
    || (!Certified(k, store, o, key) && k.command(plain).Some?
        && K.Find(k.command(plain).value, h, o.keyType, plain) == K.RevokedKey)
  }

  lemma RevokedFound(k: Known, store: K.Store, keyType: string, key: K.Key, st: K.Store)
    requires st in Consulted(k, store, key) && K.Find(st, Subject(k), keyType, key) == K.RevokedKey
    ensures HostLookup(k, store, keyType, key) == K.RevokedKey
  {
    var first := K.Find(store, Subject(k), keyType, key);
    FoldFacts(first, Finds(Others(k, key), Subject(k), keyType, key));
    if first != K.RevokedKey { FindsHas(Others(k, key), st, Subject(k), keyType, key); }
  }

  /** A line that revokes the certified key revokes the certificate. */
  lemma RevokesCertificate(k: Known, store: K.Store, o: Offer, key: K.Key, st: K.Store)
    requires o.cert.Some? && st in [store] + k.globals
    requires K.Find(st, Subject(k), o.keyType, o.cert.value.embedded) == K.RevokedKey
    ensures AnyRevokes(Consulted(k, store, key), Subject(k), o.cert.value)
  {
    var e :| e in st && K.Names?(e, K.Revoked, Subject(k)) && e.key == o.cert.value.embedded;
    assert K.Marked(st, K.Revoked, Subject(k), o.cert.value.embedded);
    assert st in Consulted(k, store, key);
  }

  predicate Configured(k: Known) {
    k.target.name != "" && k.target.port != 0
  }

  /** The known_hosts policy decides, rather than a pre-check or a certificate. */
  predicate Decided(k: Known, store: K.Store, o: Offer, key: K.Key) {
    !k.preCheck.Says? && !Certified(k, store, o, key)
  }

  /**
   What a store revokes is refused by the first exchange, plain key or certificate, trusted authority or
   not, whatever the policy's settings, and the store is left alone.  The only way past is a pre-check that
   says yes, which comes before the stores; and that only if RevokedHostKeys does not bar the key.
   */
  lemma RevokedNeverPasses(k: Known, s: State, o: Offer, key: K.Key)
    requires s.pinned.None? && HostKey(o.reply) == Some(key) && RevokedSomewhere(k, s.store, o, key)
    ensures var v := Verify(Checked(k), s, o);
            && v.store == s.store && v.mismatched == s.mismatched
            && (v.ok <==> Configured(k) && o.wellFormed && k.preCheck == Says(true) && !Barred(k, o, key))
  {
    if !k.preCheck.Says? && !CertRefused(k, s.store, o, key) { RevokedIsFound(k, s.store, o, key); }
  }

  lemma RevokedIsFound(k: Known, store: K.Store, o: Offer, key: K.Key)
    requires RevokedSomewhere(k, store, o, key) && !CertRefused(k, store, o, key)
    ensures !Certified(k, store, o, key) && HostLookup(k, store, o.keyType, Plain(o, key)) == K.RevokedKey
  {
    var h, plain := Subject(k), Plain(o, key);
    if st :| st in [store] + k.globals && K.Find(st, h, o.keyType, plain) == K.RevokedKey {
      if o.cert.Some? { RevokesCertificate(k, store, o, key, st); }
      assert st in Consulted(k, store, plain);
      RevokedFound(k, store, o.keyType, plain, st);
    } else {
      var st := k.command(plain).value;
      assert Others(k, plain)[|k.globals|] == st;
      RevokedFound(k, store, o.keyType, plain, st);
    }
  }

  const REVOKED: K.Entry := K.Entry(K.Revoked, K.One(K.Host("h", 22)), "ssh-ed25519", [2])
  const CHECKED: Known := STRICT.(address := None, preCheck := Says(true))
  const REPLY: seq<byte> := [31, 0, 0, 0, 1, 2]
  const OFFER: Offer := Offer(REPLY, true, "ssh-ed25519", true, None, true)

  lemma ReplyHoldsKey()
    ensures HostKey(REPLY) == Some([2])
  {
    assert REPLY[1..5] == [0, 0, 0, 1];
    assert U32([0, 0, 0, 1]) == 1;
    assert REPLY[5..6] == [2];
  }

  /** Such a key: marked revoked in the user's store, and accepted on the pre-check's word. */
  lemma PreCheckOverridesRevocation()
    ensures RevokedSomewhere(CHECKED, [REVOKED], OFFER, [2])
    ensures Verify(Checked(CHECKED), Init([REVOKED]), OFFER).ok
  {
    assert [REVOKED][0] in [REVOKED];
    assert K.Lists([REVOKED], K.Revoked, K.Host("h", 22), "ssh-ed25519", [2]);
    assert K.Find([REVOKED], Subject(CHECKED), OFFER.keyType, Plain(OFFER, [2])) == K.RevokedKey;
    assert ([[REVOKED]] + CHECKED.globals)[0] == [REVOKED];
    assert [REVOKED] in [[REVOKED]] + CHECKED.globals;
    ReplyHoldsKey();
  }

  lemma {:induction false} FindsHas(stores: seq<K.Store>, g: K.Store, h: K.Host, keyType: string, key: K.Key)
    requires g in stores
    ensures K.Find(g, h, keyType, key) in Finds(stores, h, keyType, key)
  {
    if stores[0] != g { FindsHas(stores[1..], g, h, keyType, key); }
  }

  /** The flag goes up exactly for a changed key let through with a warning, and then the store is left alone. */
  lemma WarningExact(k: Known, s: State, keyType: string, key: K.Key, byAddress: bool)
    requires !s.mismatched
    ensures var v := Decide(k, s, keyType, key, byAddress);
            && (v.mismatched <==> HostLookup(k, s.store, keyType, key).Mismatch? && k.onMismatch == AcceptWithWarning)
            && (v.mismatched ==> v.ok && v.store == s.store)
  {
  }

  /** Over the whole first exchange: a warned connection has the store it started with. */
  lemma WarnedLeavesStore(policy: Policy, store: K.Store, offers: seq<Offer>)
    ensures Run(policy, Init(store), offers).mismatched ==> Run(policy, Init(store), offers).store == store
  {
    RunWarned(policy, store, offers);
  }

  lemma {:induction false} RunWarned(policy: Policy, store: K.Store, offers: seq<Offer>)
    ensures var t := Run(policy, Init(store), offers);
            (t.mismatched ==> t.store == store) && (t.up && t.pinned.None? ==> t == Init(store))
    decreases |offers|
  {
    if offers != [] {
      var s := Run(policy, Init(store), offers[..|offers| - 1]);
      RunWarned(policy, store, offers[..|offers| - 1]);
      RunPinned(policy, Init(store), offers[..|offers| - 1]);
      FirstWarned(policy, s, offers[|offers| - 1]);
    }
  }

  lemma FirstWarned(policy: Policy, s: State, o: Offer)
    requires s.up && s.pinned.None? ==> !s.mismatched
    requires Pinned(s)
    ensures var t := Exchange(policy, s, o);
            (t.mismatched ==> t.store == s.store) && (s.up && t.up ==> t.pinned.Some?)
  {
    if s.up && s.pinned.None? && HostKey(o.reply).Some? && policy.Checked? {
      var key := HostKey(o.reply).value;
      WarningExact(policy.known, s, o.keyType, Plain(o, key), o.cert.None?);
    }
  }

  /**
   After the known_hosts policy accepted a key, the next connection finds a match, unless it was let
   through with a warning.  Accepted any other way it is found exactly if it was already there.
   */
  lemma AcceptedIsKnown(k: Known, s: State, o: Offer, key: K.Key)
    requires s.pinned.None? && !s.mismatched && HostKey(o.reply) == Some(key) && Verify(Checked(k), s, o).ok
    ensures var v := Verify(Checked(k), s, o);
            HostLookup(k, v.store, o.keyType, Plain(o, key)).Match? <==>
            if Decided(k, s.store, o, key) then !v.mismatched
            else HostLookup(k, s.store, o.keyType, Plain(o, key)).Match?
  {
    if Decided(k, s.store, o, key) { DecidedIsKnown(k, s, o.keyType, Plain(o, key), o.cert.None?); }
  }

  lemma DecidedIsKnown(k: Known, s: State, keyType: string, key: K.Key, byAddress: bool)
    requires Decide(k, s, keyType, key, byAddress).ok && !s.mismatched
    ensures var v := Decide(k, s, keyType, key, byAddress);
            HostLookup(k, v.store, keyType, key).Match? <==> !v.mismatched
  {
    var h := Subject(k);
    var rest := Finds(Others(k, key), h, keyType, key);
    var first := K.Find(s.store, h, keyType, key);
    var v := Decide(k, s, keyType, key, byAddress);
    var after := K.Find(v.store, h, keyType, key);
    FoldFacts(first, rest);
    FoldFacts(after, rest);
    match HostLookup(k, s.store, keyType, key)
    case Mismatch(_) => K.RotationTrusts(s.store, h, keyType, key);
    case Unknown => UnknownIsAdded(k, s, keyType, key, byAddress);
    case Match => StillTrusts(s.store, h, k, keyType, key);
  }

  lemma UnknownIsAdded(k: Known, s: State, keyType: string, key: K.Key, byAddress: bool)
    requires HostLookup(k, s.store, keyType, key).Unknown? && Decide(k, s, keyType, key, byAddress).ok
    requires !K.Lists(s.store, K.Revoked, Subject(k), keyType, key)
    ensures K.Find(Decide(k, s, keyType, key, byAddress).store, Subject(k), keyType, key) == K.Match
  {
    var h := Subject(k);
    K.AddTrusts(s.store, h, keyType, key);
    StillTrusts(K.Add(s.store, h, keyType, key), h, k, keyType, key);
    if k.address.Some? { K.PairTrusts(s.store, h, k.address.value, keyType, key); }
  }

  /** When a fold is a revocation, and when it is a match. */
  lemma FoldFacts(l: K.Lookup, rest: seq<K.Lookup>)
    ensures K.Fold(l, rest) == K.RevokedKey <==> l == K.RevokedKey || K.RevokedKey in rest
    ensures K.Fold(l, rest) == K.Match <==>
            (l == K.Match || K.Match in rest) && l != K.RevokedKey && K.RevokedKey !in rest
  {
    K.FoldIsVerdict(l, rest);
    assert ([l] + rest)[0] == l && ([l] + rest)[1..] == rest;
  }

  /** Recording the same key for an address as well does not lose the host's match, nor revoke it. */
  lemma StillTrusts(store: K.Store, h: K.Host, k: Known, keyType: string, key: K.Key)
    ensures k.address.Some? ==>
              var t := K.Add(store, k.address.value, keyType, key);
              && (K.Find(store, h, keyType, key) == K.Match ==> K.Find(t, h, keyType, key) == K.Match)
              && (K.Find(store, h, keyType, key) != K.RevokedKey ==> K.Find(t, h, keyType, key) != K.RevokedKey)
  {
    if k.address.Some? {
      var t := K.Add(store, k.address.value, keyType, key);
      assert forall e | e in store :: e in t;
      K.RecordedGrows(store, k.address.value, h, keyType, key);
    }
  }

  /** An unknown host that was agreed to gets as far as a line in the store. */
  predicate Recorded(k: Known, s: State, keyType: string, key: K.Key, byAddress: bool) {
    && HostLookup(k, s.store, keyType, key).Unknown? && Agrees(k.onUnknown) && k.recordable
    && (NewAddress(k, byAddress, s.store, keyType, key) ==> k.addressRecordable || k.hashes)
  }

  /**
   A refusal changes nothing, with three exceptions: an unknown host that was agreed to stays in the
   store when it is then turned down because its address is recorded with another key, or because its
   name is written hashed and its new address cannot be written; and a changed host that was agreed to
   but cannot be written down has lost its old lines.
   */
  lemma RefusalExact(k: Known, s: State, keyType: string, key: K.Key, byAddress: bool)
    requires !Decide(k, s, keyType, key, byAddress).ok
    ensures Decide(k, s, keyType, key, byAddress).store == s.store
            <==>
            && !Recorded(k, s, keyType, key, byAddress)
            && !(HostLookup(k, s.store, keyType, key).Mismatch? && Agrees(k.onMismatch)
                 && exists e | e in s.store :: e.marker == K.Plain && e.names == K.One(Subject(k)))
  {
    var v := Decide(k, s, keyType, key, byAddress);
    K.RemovesSomething(s.store, Subject(k));
    if Recorded(k, s, keyType, key, byAddress) {
      assert |v.store| > |s.store|;
    }
  }

  const OLD: K.Entry := K.Entry(K.Plain, K.One(K.Host("10.0.0.1", 22)), "ssh-ed25519", [1])
  const STRICT: Known :=
    Known(K.Host("h", 22), None, Some(K.Host("10.0.0.1", 22)), [], _ => None, {}, Absent, Accept, Reject, Reject,
          true, false, true, true)

  /** Such a host: refused, and recorded all the same. */
  lemma RefusedYetRecorded()
    ensures var v := Decide(STRICT, Init([OLD]), "ssh-ed25519", [2], true);
            !v.ok && K.Find(v.store, STRICT.target, "ssh-ed25519", [2]) == K.Match
  {
    var s := Init([OLD]);
    var key: K.Key := [2];
    assert [OLD][1..] == [];
    assert K.Recorded([OLD], K.Host("h", 22)) == [];
    assert K.Recorded([OLD], K.Host("10.0.0.1", 22)) == [("ssh-ed25519", [1])];
    assert HostLookup(STRICT, s.store, "ssh-ed25519", key) == K.Unknown;
    assert AddressLookup(STRICT, s.store, STRICT.address.value, "ssh-ed25519", key).Mismatch?;
    K.AddTrusts(s.store, STRICT.target, "ssh-ed25519", key);
  }

  /** What an acceptance by the known_hosts policy writes into the store. */
  predicate Writes(k: Known, s: State, keyType: string, key: K.Key, byAddress: bool) {
    match HostLookup(k, s.store, keyType, key)
    case Unknown => true
    case Mismatch(_) => !k.onMismatch.AcceptWithWarning?
    case Match => NewAddress(k, byAddress, s.store, keyType, key) && k.saves && k.addressRecordable
    case RevokedKey => false
  }

  lemma AcceptanceWrites(k: Known, s: State, keyType: string, key: K.Key, byAddress: bool)
    requires Decide(k, s, keyType, key, byAddress).ok
    ensures Decide(k, s, keyType, key, byAddress).store != s.store <==> Writes(k, s, keyType, key, byAddress)
  {
    var v := Decide(k, s, keyType, key, byAddress);
    if HostLookup(k, s.store, keyType, key).Mismatch? && Writes(k, s, keyType, key, byAddress) {
      var e := K.Entry(K.Plain, K.One(Subject(k)), keyType, key);
      FoldFacts(K.Find(s.store, Subject(k), keyType, key), Finds(Others(k, key), Subject(k), keyType, key));
      assert e in s.store ==> K.Lists(s.store, K.Plain, Subject(k), keyType, key);
      assert v.store[|v.store| - 1] == e;
    } else if Writes(k, s, keyType, key, byAddress) {
      assert |v.store| > |s.store|;
    }
  }

  /**
   The store is written before the signature is checked.  A first exchange refused for its signature alone
   has changed the store exactly if the known_hosts policy decided and its acceptance writes; and then the
   key is a match for the next connection.
   */
  lemma UnsignedExact(k: Known, s: State, o: Offer, key: K.Key)
    requires s.up && s.pinned.None? && !s.mismatched && HostKey(o.reply) == Some(key)
    requires Verify(Checked(k), s, o).ok && !o.signed
    ensures var t := Exchange(Checked(k), s, o);
            var plain := Plain(o, key);
            && !t.up && t.pinned.None? && t.accepted == s.accepted
            && (t.store != s.store <==>
                  Decided(k, s.store, o, key) && Writes(k, s, o.keyType, plain, o.cert.None?))
            && (t.store != s.store ==> HostLookup(k, t.store, o.keyType, plain).Match?)
  {
    if Decided(k, s.store, o, key) {
      AcceptanceWrites(k, s, o.keyType, Plain(o, key), o.cert.None?);
      DecidedIsKnown(k, s, o.keyType, Plain(o, key), o.cert.None?);
    }
  }

  /** Such an exchange: the host was unknown, the signature is bad, and the key is known from now on. */
  lemma UnsignedYetRecorded()
    ensures var t := Exchange(Checked(STRICT), Init([]), OFFER.(signed := false));
            !t.up && K.Find(t.store, STRICT.target, "ssh-ed25519", [2]) == K.Match
  {
    ReplyHoldsKey();
    var v := Decide(STRICT, Init([]), "ssh-ed25519", [2], true);
    K.PairTrusts([], STRICT.target, STRICT.address.value, "ssh-ed25519", [2]);
    assert HostLookup(STRICT, [], "ssh-ed25519", [2]) == K.Unknown;
    assert AddressLookup(STRICT, [], STRICT.address.value, "ssh-ed25519", [2]) == K.Unknown;
  }

  // --- As it runs ----------------------------------------------------------------------------

  /** The parts of a client the verifier updates in place. */
  class HostTrust {
    var store: K.Store
    var mismatched: bool
    var pinned: Option<K.Key>
    var up: bool
    ghost var accepted: seq<K.Key>

    constructor (store: K.Store)
      ensures View() == Init(store)
    {
      this.store, mismatched, pinned, up := store, false, None, true;
      accepted := [];
    }

    ghost function View(): State
      reads this
    {
      State(store, mismatched, pinned, up, accepted)
    }

    method LookupHost(k: Known, keyType: string, key: K.Key) returns (r: K.Lookup)
      ensures r == HostLookup(k, store, keyType, key)
    {
      var others := Others(k, key);
      r := K.CombineAll(K.Find(store, Subject(k), keyType, key), Finds(others, Subject(k), keyType, key));
      K.FoldIsVerdict(K.Find(store, Subject(k), keyType, key), Finds(others, Subject(k), keyType, key));
    }

    method LookupAddress(k: Known, keyType: string, key: K.Key, byAddress: bool) returns (r: Option<K.Lookup>)
      ensures r == if k.address.Some? && byAddress
                   then Some(AddressLookup(k, store, k.address.value, keyType, key)) else None
    {
      if k.address.None? || !byAddress {
        return None;
      }
      var ip := k.address.value;
      var l := K.CombineAll(K.Find(store, ip, keyType, key), Finds(k.globals, ip, keyType, key));
      K.FoldIsVerdict(K.Find(store, ip, keyType, key), Finds(k.globals, ip, keyType, key));
      r := Some(l);
    }

    method CheckKnownHosts(k: Known, keyType: string, key: K.Key, byAddress: bool) returns (ok: bool)
      modifies this`store, this`mismatched
      ensures Verified(ok, store, mismatched) == Decide(k, old(View()), keyType, key, byAddress)
    {
      var found := LookupHost(k, keyType, key);
      var byIp := LookupAddress(k, keyType, key, byAddress);
      match found {
        case RevokedKey =>
          return false;
        case Match =>
          if byIp == Some(K.Unknown) && k.saves && k.addressRecordable {
            store := K.Add(store, k.address.value, keyType, key);
          }
        case Mismatch(_) =>
          if !Agrees(k.onMismatch) {
            return false;
          }
          if k.onMismatch.AcceptWithWarning? {
            mismatched := true;
          } else {
            store := K.RemoveExact(store, Subject(k));
            if !k.recordable {
              return false;
            }
            store := K.Add(store, Subject(k), keyType, key);
          }
          return true;
        case Unknown =>
          if !Agrees(k.onUnknown) || !k.recordable {
            return false;
          }
          if byIp == Some(K.Unknown) && !k.hashes {
            if !k.addressRecordable {
              return false;
            }
            store := K.AddPair(store, Subject(k), k.address.value, keyType, key);
          } else {
            store := K.Add(store, Subject(k), keyType, key);
            if byIp == Some(K.Unknown) {
              if !k.addressRecordable {
                return false;
              }
              store := K.Add(store, k.address.value, keyType, key);
            }
          }
      }
      ok := !(byIp.Some? && byIp.value.Mismatch?) || Agrees(k.onAddress);
    }

    /** What the known_hosts files say of a certificate: refused, trusted, or neither. */
    method CheckCertificate(k: Known, o: Offer, key: K.Key) returns (refused: bool, certified: bool)
      requires o.cert.Some?
      ensures refused == CertRefused(k, store, o, key)
      ensures !refused ==> certified == Certified(k, store, o, key)
    {
      var c, stores := o.cert.value, Consulted(k, store, key);
      if Filed(k, c) {
        return true, false;
      }
      certified := false;
      var i := 0;
      while i < |stores|
        invariant 0 <= i <= |stores|
        invariant forall j | 0 <= j < i :: !K.RevokesCert(stores[j], Subject(k), c.embedded, c.authority)
        invariant certified <==> exists j | 0 <= j < i :: K.HasAuthority(stores[j], Subject(k), c.authority)
      {
        if K.RevokesCert(stores[i], Subject(k), c.embedded, c.authority) {
          assert stores[i] in stores;
          return true, false;
        }
        certified := certified || K.HasAuthority(stores[i], Subject(k), c.authority);
        i := i + 1;
      }
      refused := certified && !c.valid;
    }

    method BuildVerifier(policy: Policy, o: Offer) returns (ok: bool)
      modifies this`store, this`mismatched
      ensures Verified(ok, store, mismatched) == Verify(policy, old(View()), o)
    {
      var key := HostKey(o.reply);
      if key.None? {
        return false;
      }
      if pinned.Some? {
        return key == pinned && o.wellFormed;
      }
      if policy.Checked? && (policy.known.target.name == "" || policy.known.target.port == 0) {
        return false;
      }
      if !o.wellFormed {
        return false;
      }
      match policy
      case AcceptAny =>
        ok := o.cert.None? || o.cert.value.sound;
      case AcceptFingerprint(pin, digest) =>
        ok := digest(key.value) == pin && (o.cert.None? || o.cert.value.sound);
      case Checked(k) =>
        if !k.preCheck.Absent? && Barred(k, o, key.value) {
          return false;
        }
        if k.preCheck.Says? {
          return k.preCheck.yes;
        }
        if o.cert.Some? {
          var refused, certified := CheckCertificate(k, o, key.value);
          if refused || certified {
            return !refused;
          }
        }
        if !o.typeAgrees || Plain(o, key.value) in k.revoked {
          return false;
        }
        ok := CheckKnownHosts(k, o.keyType, Plain(o, key.value), o.cert.None?);
    }

    method KeyExchange(policy: Policy, o: Offer)
      requires up
      modifies this
      ensures View() == Exchange(policy, old(View()), o)
    {
      var ok := BuildVerifier(policy, o);
      if !ok || !o.signed {
        up := false;
        return;
      }
      var key := HostKey(o.reply).value;
      if pinned.None? {
        pinned := Some(key);
      }
      accepted := accepted + [key];
    }
  }
}
