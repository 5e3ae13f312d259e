/** The known_hosts store as the client uses it, and the combination of several stores. */
module KnownHosts {
  import opened Prelude

  type Key = seq<byte>

  datatype Host = Host(name: string, port: u16)

  /** One name (plain or hashed), or a pattern covering several. */
  datatype Names = One(host: Host) | Several(hosts: set<Host>)

  datatype Marker = Plain | Revoked | Authority

  datatype Entry = Entry(marker: Marker, names: Names, keyType: string, key: Key)

  type Store = seq<Entry>

  datatype Lookup = Match | Mismatch(expected: seq<(string, Key)>) | RevokedKey | Unknown

  predicate Covers(names: Names, h: Host) {
    match names
    case One(one) => one == h
    case Several(hosts) => h in hosts
  }

  predicate Names?(e: Entry, m: Marker, h: Host) {
    e.marker == m && Covers(e.names, h)
  }

  predicate Lists(s: Store, m: Marker, h: Host, keyType: string, key: Key) {
    exists e | e in s :: Names?(e, m, h) && e.keyType == keyType && e.key == key
  }

  /** A line with marker `m` for `h` has this key, whatever its type. */
  predicate Marked(s: Store, m: Marker, h: Host, key: Key) {
    exists e | e in s :: Names?(e, m, h) && e.key == key
  }

  /** `revokes_cert`: a `@revoked` line names the certified key or the authority's. */
  predicate RevokesCert(s: Store, h: Host, embedded: Key, authority: Key) {
    Marked(s, Revoked, h, embedded) || Marked(s, Revoked, h, authority)
  }

  /** `has_ca_for`, with the fallback to the bare host. */
  predicate HasAuthority(s: Store, h: Host, authority: Key) {
    Marked(s, Authority, h, authority) || (h.port != 22 && Marked(s, Authority, Host(h.name, 22), authority))
  }

  /** The plain keys recorded for `h`, in file order. */
  function Recorded(s: Store, h: Host): seq<(string, Key)> {
    if s == [] then []
    else (if Names?(s[0], Plain, h) then [(s[0].keyType, s[0].key)] else []) + Recorded(s[1..], h)
  }

  /** `lookup`, including the fallback from an unlisted `host:port` to the bare host. */
  function Find(s: Store, h: Host, keyType: string, key: Key): Lookup {
    if Lists(s, Revoked, h, keyType, key) then RevokedKey
    else if Lists(s, Plain, h, keyType, key) then Match
    else if Recorded(s, h) != [] then Mismatch(Recorded(s, h))
    else if h.port != 22 && Lists(s, Plain, Host(h.name, 22), keyType, key) then Match
    else Unknown
  }

  /** Only plain lines naming exactly this host go; patterns and markers stay. */
  function RemoveExact(s: Store, h: Host): Store {
    if s == [] then []
    else (if s[0].marker == Plain && s[0].names == One(h) then [] else [s[0]]) + RemoveExact(s[1..], h)
  }

  function Add(s: Store, h: Host, keyType: string, key: Key): Store {
    s + [Entry(Plain, One(h), keyType, key)]
  }

  /** One line naming a host and its address. */
  function AddPair(s: Store, h: Host, address: Host, keyType: string, key: Key): Store {
    s + [Entry(Plain, Several({h, address}), keyType, key)]
  }

  lemma {:induction false} RemovedIn(s: Store, h: Host, e: Entry)
    ensures e in RemoveExact(s, h) <==> e in s && !(e.marker == Plain && e.names == One(h))
  {
    if s != [] {
      RemovedIn(s[1..], h, e);
      assert s == [s[0]] + s[1..];
    }
  }

  lemma {:induction false} RemovesSomething(s: Store, h: Host)
    ensures RemoveExact(s, h) == s <==> !exists e | e in s :: e.marker == Plain && e.names == One(h)
  {
    if exists e | e in s :: e.marker == Plain && e.names == One(h) {
      var e :| e in s && e.marker == Plain && e.names == One(h);
      RemovedIn(s, h, e);
    } else if s != [] {
      assert s[0] in s;
      RemovesSomething(s[1..], h);
    }
  }

  /** After rotating a host's key the store knows the new one, unless it is revoked. */
  lemma RotationTrusts(s: Store, h: Host, keyType: string, key: Key)
    requires !Lists(s, Revoked, h, keyType, key)
    ensures Find(Add(RemoveExact(s, h), h, keyType, key), h, keyType, key) == Match
  {
    var t := RemoveExact(s, h);
    forall e | e in t ensures e in s { RemovedIn(s, h, e); }
    AddTrusts(t, h, keyType, key);
  }

  lemma AddTrusts(s: Store, h: Host, keyType: string, key: Key)
    requires !Lists(s, Revoked, h, keyType, key)
    ensures Find(Add(s, h, keyType, key), h, keyType, key) == Match
  {
    var t := Add(s, h, keyType, key);
    assert t[|s|] in t;
    assert Lists(t, Plain, h, keyType, key);
  }

  lemma PairTrusts(s: Store, h: Host, address: Host, keyType: string, key: Key)
    requires !Lists(s, Revoked, h, keyType, key)
    ensures Find(AddPair(s, h, address, keyType, key), h, keyType, key) == Match
  {
    var t := AddPair(s, h, address, keyType, key);
    assert t[|s|] in t;
    assert Lists(t, Plain, h, keyType, key);
  }

  lemma {:induction false} RecordedGrows(s: Store, a: Host, h: Host, keyType: string, key: Key)
    ensures Recorded(Add(s, a, keyType, key), h) == Recorded(s, h) + (if a == h then [(keyType, key)] else [])
  {
    if s == [] {
      assert Add(s, a, keyType, key)[1..] == [];
    } else {
      assert Add(s, a, keyType, key)[1..] == Add(s[1..], a, keyType, key);
      RecordedGrows(s[1..], a, h, keyType, key);
    }
  }

  lemma {:induction false} RecordedElsewhere(s: Store, h: Host, g: Host)
    requires g != h
    ensures Recorded(RemoveExact(s, h), g) == Recorded(s, g)
  {
    if s != [] {
      RecordedElsewhere(s[1..], h, g);
      var rest := RemoveExact(s[1..], h);
      if RemoveExact(s, h) != rest { assert RemoveExact(s, h)[0] == s[0] && RemoveExact(s, h)[1..] == rest; }
    }
  }

  lemma ListedElsewhere(s: Store, h: Host, g: Host, keyType: string, key: Key, m: Marker, t: string, k: Key)
    requires g != h
    ensures Lists(Add(RemoveExact(s, h), h, keyType, key), m, g, t, k) <==> Lists(s, m, g, t, k)
  {
    var after := Add(RemoveExact(s, h), h, keyType, key);
    if Lists(s, m, g, t, k) {
      var e :| e in s && Names?(e, m, g) && e.keyType == t && e.key == k;
      RemovedIn(s, h, e);
      assert e in after;
    }
    if Lists(after, m, g, t, k) {
      var e :| e in after && Names?(e, m, g) && e.keyType == t && e.key == k;
      RemovedIn(s, h, e);
    }
  }

  /** `g` itself is not in the store, and `h` is the bare host it falls back to. */
  predicate FallsBack(s: Store, g: Host, h: Host, t: string, k: Key) {
    g.port != 22 && h == Host(g.name, 22) && Recorded(s, g) == [] && !Lists(s, Revoked, g, t, k)
  }

  /**
   Rotation changes the answer for another host exactly where that host falls back to the rotated one
   and the key asked about came or went there; patterns, markers and everything else stay.
   */
  lemma {:induction false} RotationIsLocal(s: Store, h: Host, g: Host, keyType: string, key: Key, t: string, k: Key)
    requires g != h
    ensures var after := Add(RemoveExact(s, h), h, keyType, key);
            && (forall m: Marker :: Lists(after, m, g, t, k) <==> Lists(s, m, g, t, k))
            && (Find(after, g, t, k) != Find(s, g, t, k) <==>
                  FallsBack(s, g, h, t, k) && Lists(after, Plain, h, t, k) != Lists(s, Plain, h, t, k))
  {
    var after := Add(RemoveExact(s, h), h, keyType, key);
    forall m: Marker ensures Lists(after, m, g, t, k) <==> Lists(s, m, g, t, k) {
      ListedElsewhere(s, h, g, keyType, key, m, t, k);
    }
    RecordedElsewhere(s, h, g);
    RecordedGrows(RemoveExact(s, h), h, g, keyType, key);
    var bare := Host(g.name, 22);
    if bare != h { ListedElsewhere(s, h, bare, keyType, key, Plain, t, k); }
    if Lists(s, Plain, g, t, k) { ListedIsRecorded(s, g, t, k); }
  }

  lemma {:induction false} ListedIsRecorded(s: Store, g: Host, t: string, k: Key)
    requires Lists(s, Plain, g, t, k)
    ensures Recorded(s, g) != []
  {
    if !Names?(s[0], Plain, g) {
      var e :| e in s && Names?(e, Plain, g) && e.keyType == t && e.key == k;
      assert e in s[1..];
      ListedIsRecorded(s[1..], g, t, k);
    }
  }

  // --- Several stores ------------------------------------------------------------------------

  /** `combine_lookups`. */
  function Combine(a: Lookup, b: Lookup): Lookup {
    match (a, b)
    case (RevokedKey, _) => RevokedKey
    case (_, RevokedKey) => RevokedKey
    case (Match, _) => Match
    case (_, Match) => Match
    case (Mismatch(x), Mismatch(y)) => Mismatch(x + y)
    case (Mismatch(_), _) => a
    case (_, Mismatch(_)) => b
    case _ => Unknown
  }

  /** The left fold over the files, in order. */
  function Fold(first: Lookup, rest: seq<Lookup>): Lookup
    decreases |rest|
  {
    if rest == [] then first else Fold(Combine(first, rest[0]), rest[1..])
  }

  /** Every expected key, in file order. */
  function Expected(ls: seq<Lookup>): seq<(string, Key)> {
    if ls == [] then [] else Own(ls[0]) + Expected(ls[1..])
  }

  function Own(l: Lookup): seq<(string, Key)> {
    if l.Mismatch? then l.expected else []
  }

  /** The answer without folding. */
  function Verdict(ls: seq<Lookup>): Lookup {
    if RevokedKey in ls then RevokedKey
    else if Match in ls then Match
    else if Differs(ls) then Mismatch(Expected(ls))
    else Unknown
  }

  /** Some file knows the host under another key. */
  predicate Differs(ls: seq<Lookup>) {
    ls != [] && (ls[0].Mismatch? || Differs(ls[1..]))
  }

  lemma CombineAssociative(a: Lookup, b: Lookup, c: Lookup)
    ensures Combine(Combine(a, b), c) == Combine(a, Combine(b, c))
  {
    if a.Mismatch? && b.Mismatch? && c.Mismatch? {
      assert (a.expected + b.expected) + c.expected == a.expected + (b.expected + c.expected);
    }
  }

  lemma UnknownIsIdentity(a: Lookup)
    ensures Combine(Unknown, a) == a && Combine(a, Unknown) == a
  {
  }

  lemma VerdictTwo(a: Lookup, b: Lookup, rest: seq<Lookup>)
    ensures Verdict([Combine(a, b)] + rest) == Verdict([a, b] + rest)
  {
    InTwo(a, b, rest, RevokedKey);
    InTwo(a, b, rest, Match);
    if a != RevokedKey && b != RevokedKey && a != Match && b != Match { ExpectedTwo(a, b, rest); }
  }

  /** Between files that at most know other keys, the expected ones line up. */
  lemma ExpectedTwo(a: Lookup, b: Lookup, rest: seq<Lookup>)
    requires (a.Mismatch? || a.Unknown?) && (b.Mismatch? || b.Unknown?)
    ensures Expected([Combine(a, b)] + rest) == Expected([a, b] + rest)
    ensures Differs([Combine(a, b)] + rest) == Differs([a, b] + rest)
  {
    var one, two := [Combine(a, b)] + rest, [a, b] + rest;
    assert one[1..] == rest && two[1..] == [b] + rest && two[1..][1..] == rest;
    assert Expected(two) == Own(a) + (Own(b) + Expected(rest));
    assert Own(Combine(a, b)) == Own(a) + Own(b);
  }

  lemma InTwo(a: Lookup, b: Lookup, rest: seq<Lookup>, l: Lookup)
    ensures l in [a, b] + rest <==> l == a || l == b || l in rest
    ensures l in [Combine(a, b)] + rest <==> l == Combine(a, b) || l in rest
  {
    var one, two := [Combine(a, b)] + rest, [a, b] + rest;
    assert two[0] == a && two[1] == b && two[2..] == rest && one[0] == Combine(a, b) && one[1..] == rest;
  }

  lemma VerdictOne(l: Lookup)
    ensures Verdict([l]) == l
  {
    assert [l][0] == l && [l][1..] == [];
    match l
    case Mismatch(x) => assert Expected([l]) == x + Expected([]) == x;
    case Unknown => assert !Differs([l]);
    case _ => assert l in [l];
  }

  /** Folding any number of files gives exactly the declarative answer. */
  lemma {:induction false} FoldIsVerdict(first: Lookup, rest: seq<Lookup>)
    ensures Fold(first, rest) == Verdict([first] + rest)
    decreases |rest|
  {
    if rest == [] {
      assert [first] + rest == [first];
      VerdictOne(first);
    } else {
      FoldIsVerdict(Combine(first, rest[0]), rest[1..]);
      VerdictTwo(first, rest[0], rest[1..]);
      assert [first, rest[0]] + rest[1..] == [first] + rest;
    }
  }

  /** The loop over the global files. */
  method CombineAll(first: Lookup, rest: seq<Lookup>) returns (r: Lookup)
    ensures r == Verdict([first] + rest)
  {
    r := first;
    var left := rest;
    while left != []
      invariant Fold(r, left) == Fold(first, rest)
      decreases |left|
    {
      r := Combine(r, left[0]);
      left := left[1..];
    }
    FoldIsVerdict(first, rest);
  }
}
