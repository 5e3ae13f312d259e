/** The environment a client may set on a session channel, and its limits. */
module EnvBudget {
  import opened Prelude

  type Text = seq<byte>
  type Bag = map<Text, Text>

  /** `MAX_ENV_PER_CHANNEL` and `MAX_ENV_BYTES_PER_CHANNEL`. */
  const MAX_NAMES := 64
  const MAX_BYTES := 16 * 1024

  /** Names and values together. */
  ghost function Total(bag: Bag): nat
    decreases |bag|
  {
    if bag == map[] then 0
    else
      var k :| k in bag;
      |k| + |bag[k]| + Total(bag - {k})
  }

  /** Any entry may be counted first. */
  lemma {:induction false} TotalWithout(bag: Bag, k: Text)
    requires k in bag
    ensures Total(bag) == |k| + |bag[k]| + Total(bag - {k})
    decreases |bag|
  {
    var j :| j in bag && Total(bag) == |j| + |bag[j]| + Total(bag - {j});
    if j != k {
      TotalWithout(bag - {j}, k);
      TotalWithout(bag - {k}, j);
      assert bag - {j} - {k} == bag - {k} - {j};
    }
  }

  /** The totals after setting a name, whether it is new or replaced. */
  lemma TotalAfter(bag: Bag, name: Text, value: Text)
    ensures Total(bag[name := value])
            == if name in bag then Total(bag) - |bag[name]| + |value| else Total(bag) + |name| + |value|
    ensures |bag[name := value]| == if name in bag then |bag| else |bag| + 1
  {
    TotalWithout(bag[name := value], name);
    SameWithout(bag, name, value);
    if name in bag { TotalWithout(bag, name); }
    CountAfter(bag, name, value);
  }

  lemma SameWithout(bag: Bag, name: Text, value: Text)
    ensures bag[name := value] - {name} == bag - {name}
    ensures name !in bag ==> bag - {name} == bag
  {
  }

  lemma CountAfter(bag: Bag, name: Text, value: Text)
    ensures |bag[name := value]| == if name in bag then |bag| else |bag| + 1
  {
    assert bag[name := value].Keys == bag.Keys + {name};
  }

  predicate Fits(count: nat, bytes: nat) {
    count <= MAX_NAMES && bytes <= MAX_BYTES
  }

  ghost predicate WithinBudget(bag: Bag) {
    Fits(|bag|, Total(bag))
  }

  /** `wanted`: the name passes the allow-list. */
  datatype Request = Request(name: Text, value: Text, wanted: bool)

  /** A request is taken exactly when the bag it would make is within budget. */
  ghost function Next(bag: Bag, r: Request): Bag {
    if r.wanted && WithinBudget(bag[r.name := r.value]) then bag[r.name := r.value] else bag
  }

  ghost function Run(bag: Bag, rs: seq<Request>): Bag
    decreases |rs|
  {
    if rs == [] then bag else Next(Run(bag, rs[..|rs| - 1]), rs[|rs| - 1])
  }

  /** Client requests alone never take the bag over its limits, from a new session or any bag within them. */
  lemma {:induction false} RequestsStayWithin(bag: Bag, rs: seq<Request>)
    requires WithinBudget(bag)
    ensures WithinBudget(Run(bag, rs))
    decreases |rs|
  {
    if rs != [] { RequestsStayWithin(bag, rs[..|rs| - 1]); }
  }

  /** A variable the server sets itself is not checked: the limits survive it exactly when they have room for it. */
  lemma InjectionExact(bag: Bag, name: Text, value: Text)
    ensures WithinBudget(bag[name := value]) <==>
            && |bag| + (if name in bag then 0 else 1) <= MAX_NAMES
            && Total(bag) - (if name in bag then |bag[name]| else 0) + (if name in bag then 0 else |name|) + |value|
               <= MAX_BYTES
  {
    TotalAfter(bag, name, value);
  }

  /** The bag. */
  class SessionEnv {
    var vars: Bag

    constructor ()
      ensures vars == map[]
    {
      vars := map[];
    }

    /** `insert`: what the server uses for its own variables. */
    method Insert(name: Text, value: Text)
      modifies this
      ensures vars == old(vars)[name := value]
    {
      vars := vars[name := value];
    }

    method CurrentBytes() returns (n: nat)
      ensures n == Total(vars)
    {
      n := 0;
      var left := vars;
      while left != map[]
        invariant n + Total(left) == Total(vars)
        decreases |left|
      {
        var k :| k in left;
        TotalWithout(left, k);
        n := n + |k| + |left[k]|;
        left := left - {k};
      }
    }

    /** An `env` request: project the new totals, then insert or refuse.  A refusal changes nothing. */
    method OnEnvRequest(name: Text, value: Text, wanted: bool) returns (ok: bool)
      modifies this
      ensures vars == Next(old(vars), Request(name, value, wanted))
      ensures ok <==> wanted && WithinBudget(old(vars)[name := value])
      ensures !ok ==> vars == old(vars)
    {
      if !wanted {
        return false;
      }
      TotalAfter(vars, name, value);
      var replacing := if name in vars then Some(|vars[name]|) else None;
      var newCount := if replacing.Some? then |vars| else |vars| + 1;
      var currentBytes := CurrentBytes();
      if replacing.Some? { TotalWithout(vars, name); }
      var newBytes := if replacing.Some? then currentBytes - replacing.value + |value|
                      else currentBytes + |name| + |value|;
      if newCount > MAX_NAMES || newBytes > MAX_BYTES {
        return false;
      }
      vars := vars[name := value];
      ok := true;
    }
  }
}
