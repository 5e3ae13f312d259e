/** `AcceptEnv` patterns: `*` for any run of bytes, `?` for one, anything else for itself. */
module Glob {
  import opened Prelude

  const STAR: byte := 42
  const ANY: byte := 63

  // --- The language of a pattern -------------------------------------------------------------

  /** One pattern byte stands for this run of bytes. */
  predicate Stands(c: byte, piece: seq<byte>) {
    if c == STAR then true else if c == ANY then |piece| == 1 else piece == [c]
  }

  function Joined(pieces: seq<seq<byte>>): seq<byte> {
    if pieces == [] then [] else pieces[0] + Joined(pieces[1..])
  }

  predicate Explains(p: seq<byte>, pieces: seq<seq<byte>>) {
    |pieces| == |p| && forall i | 0 <= i < |p| :: Stands(p[i], pieces[i])
  }

  /** A name is in the language when it splits into runs, one for each byte of the pattern. */
  ghost predicate InLanguage(p: seq<byte>, n: seq<byte>) {
    exists pieces: seq<seq<byte>> :: Explains(p, pieces) && Joined(pieces) == n
  }

  // --- Matching from the front ---------------------------------------------------------------

  ghost predicate Matches(p: seq<byte>, n: seq<byte>)
    decreases |p|, 0
  {
    if p == [] then n == []
    else if p[0] == STAR then Skipping(p[1..], n)
    else n != [] && (p[0] == ANY || p[0] == n[0]) && Matches(p[1..], n[1..])
  }

  /** `p` matches what is left after some prefix of `n`. */
  ghost predicate Skipping(p: seq<byte>, n: seq<byte>)
    decreases |p|, 1
  {
    exists k :: 0 <= k <= |n| && Matches(p, n[k..])
  }

  lemma {:induction false} Splits(p: seq<byte>, n: seq<byte>)
    requires Matches(p, n)
    ensures InLanguage(p, n)
    decreases |p|
  {
    if p == [] {
      assert Explains(p, []) && Joined([]) == n;
    } else {
      var k := 1;
      if p[0] == STAR { k :| 0 <= k <= |n| && Matches(p[1..], n[k..]); }
      Splits(p[1..], n[k..]);
      var rest :| Explains(p[1..], rest) && Joined(rest) == n[k..];
      var pieces := [n[..k]] + rest;
      assert pieces[1..] == rest;
      assert Explains(p, pieces) by {
        forall i | 0 <= i < |p| ensures Stands(p[i], pieces[i]) {
          if i > 0 { assert p[i] == p[1..][i - 1] && pieces[i] == rest[i - 1]; }
        }
      }
      assert n == n[..k] + n[k..];
    }
  }

  lemma {:induction false} Joins(p: seq<byte>, pieces: seq<seq<byte>>)
    requires Explains(p, pieces)
    ensures Matches(p, Joined(pieces))
    decreases |p|
  {
    if p != [] {
      var n := Joined(pieces);
      forall i | 0 <= i < |p| - 1 ensures Stands(p[1..][i], pieces[1..][i]) {
        assert Stands(p[i + 1], pieces[i + 1]);
      }
      Joins(p[1..], pieces[1..]);
      assert Stands(p[0], pieces[0]);
      assert n[|pieces[0]|..] == Joined(pieces[1..]);
    }
  }

  lemma MatchingIsLanguage(p: seq<byte>, n: seq<byte>)
    ensures Matches(p, n) <==> InLanguage(p, n)
  {
    if Matches(p, n) { Splits(p, n); }
    if InLanguage(p, n) {
      var pieces :| Explains(p, pieces) && Joined(pieces) == n;
      Joins(p, pieces);
    }
  }

  /** A run of stars is one star. */
  lemma StarsCollapse(p: seq<byte>, n: seq<byte>)
    requires p != [] && p[0] == STAR
    ensures Skipping(p, n) <==> Skipping(p[1..], n)
  {
    if Skipping(p, n) {
      var k :| 0 <= k <= |n| && Matches(p, n[k..]);
      assert Skipping(p[1..], n[k..]);
      var j :| 0 <= j <= |n[k..]| && Matches(p[1..], n[k..][j..]);
      assert n[k..][j..] == n[k + j..];
    }
    if Skipping(p[1..], n) {
      assert n[0..] == n;
      assert Matches(p, n[0..]);
    }
  }

  // --- The matcher ---------------------------------------------------------------------------

  /** `env_glob_match`: true for exactly the names in the pattern's language. */
  method Match(p: seq<byte>, n: seq<byte>) returns (r: bool)
    ensures r <==> InLanguage(p, n)
  {
    MatchingIsLanguage(p, n);
    r := Rec(p, n);
  }

  method Rec(p: seq<byte>, n: seq<byte>) returns (r: bool)
    ensures r <==> Matches(p, n)
    decreases |p|, 1
  {
    var pi, ni := 0, 0;
    assert p[0..] == p && n[0..] == n;
    while pi < |p|
      invariant 0 <= pi <= |p| && 0 <= ni <= |n|
      invariant Matches(p, n) <==> Matches(p[pi..], n[ni..])
    {
      if p[pi] == STAR {
        r := Star(p[pi..], n[ni..]);
        return;
      }
      if ni >= |n| || (p[pi] != ANY && n[ni] != p[pi]) {
        return false;
      }
      assert p[pi..][1..] == p[pi + 1..] && n[ni..][1..] == n[ni + 1..];
      pi, ni := pi + 1, ni + 1;
    }
    assert p[pi..] == [];
    r := ni == |n|;
  }

  /** The rest of the pattern from a star on. */
  method Star(p: seq<byte>, n: seq<byte>) returns (r: bool)
    requires p != [] && p[0] == STAR
    ensures r <==> Matches(p, n)
    decreases |p|, 0
  {
    var pi := 1;
    while pi < |p| && p[pi] == STAR
      invariant 1 <= pi <= |p|
      invariant Matches(p, n) <==> Skipping(p[pi..], n)
    {
      StarsCollapse(p[pi..], n);
      assert p[pi..][1..] == p[pi + 1..];
      pi := pi + 1;
    }
    if pi == |p| {
      assert p[pi..] == [] && n[|n|..] == [];
      assert Matches([], n[|n|..]);
      return true;
    }
    r := Anywhere(p[pi..], n);
  }

  /** Try every suffix of the name. */
  method Anywhere(p: seq<byte>, n: seq<byte>) returns (r: bool)
    ensures r <==> Skipping(p, n)
    decreases |p|, 2
  {
    var ni := 0;
    while ni <= |n|
      invariant 0 <= ni <= |n| + 1
      invariant forall k | 0 <= k < ni :: !Matches(p, n[k..])
    {
      var here := Rec(p, n[ni..]);
      if here {
        return true;
      }
      ni := ni + 1;
    }
    r := false;
  }

  // --- Names ---------------------------------------------------------------------------------

  /** `HARD_BLOCKED_ENV_NAMES`. */
  const BLOCKED: seq<string> := [
    "LD_PRELOAD", "LD_LIBRARY_PATH", "LD_AUDIT", "LD_BIND_NOT", "DYLD_INSERT_LIBRARIES", "DYLD_LIBRARY_PATH",
    "BASH_ENV", "ENV", "IFS", "PATH", "SHELL", "HOME", "USER", "LOGNAME"]

  /** The bytes of a name written one char to a byte. */
  function Bytes(s: string): seq<byte> {
    if s == "" then [] else [s[0] as int % 256] + Bytes(s[1..])
  }

  /** `env_name_accepted`: never a blocked name, whatever the patterns; otherwise any pattern will do. */
  method Accepted(name: string, patterns: seq<seq<byte>>) returns (r: bool)
    ensures r <==> name !in BLOCKED && exists p | p in patterns :: InLanguage(p, Bytes(name))
  {
    if name in BLOCKED {
      return false;
    }
    var i := 0;
    while i < |patterns|
      invariant 0 <= i <= |patterns| && forall j | 0 <= j < i :: !InLanguage(patterns[j], Bytes(name))
    {
      r := Match(patterns[i], Bytes(name));
      if r {
        assert patterns[i] in patterns;
        return;
      }
      i := i + 1;
    }
    r := false;
  }
}
