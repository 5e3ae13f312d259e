/** `%`-token expansion for proxy commands. */
module Tokens {
  import opened Prelude

  /** Where a character of the expansion comes from. */
  datatype Origin = Text | FromHost | FromPort | FromUser

  datatype Values = Values(host: string, port: u16, user: string)

  function Tagged(s: string, o: Origin): seq<(char, Origin)> {
    if s == "" then [] else [(s[0], o)] + Tagged(s[1..], o)
  }

  function Decimal(n: nat): string {
    if n < 10 then [('0' as int + n) as char] else Decimal(n / 10) + [('0' as int + n % 10) as char]
  }

  /** What `%c` becomes. */
  function Token(c: char, v: Values): string {
    if c == 'h' then v.host
    else if c == 'p' then Decimal(v.port)
    else if c == 'r' then v.user
    else if c == '%' then "%"
    else ['%', c]
  }

  /** `expand_tokens`: a final lone `%` stays. */
  function Expand(s: string, v: Values): string
    decreases |s|
  {
    if s == "" then ""
    else if s[0] != '%' then [s[0]] + Expand(s[1..], v)
    else if |s| == 1 then "%"
    else Token(s[1], v) + Expand(s[2..], v)
  }

  /** `uses_token`, which skips over escapes the same way. */
  predicate Uses(s: string, tok: char)
    decreases |s|
  {
    s != "" &&
    if s[0] != '%' then Uses(s[1..], tok)
    else |s| > 1 && (s[1] == tok || Uses(s[2..], tok))
  }

  // --- Which values matter -------------------------------------------------------------------

  /** `len` for every `%tok`. */
  function Share(s: string, tok: char, len: nat): nat
    decreases |s|
  {
    if s == "" then 0
    else if s[0] != '%' then Share(s[1..], tok, len)
    else if |s| == 1 then 0
    else (if s[1] == tok then len else 0) + Share(s[2..], tok, len)
  }

  lemma {:induction false} ShareGrows(s: string, tok: char, a: nat, b: nat)
    requires a <= b
    ensures Share(s, tok, a) <= Share(s, tok, b)
    decreases |s|
  {
    if s != "" {
      if s[0] != '%' { ShareGrows(s[1..], tok, a, b); }
      else if |s| > 1 { ShareGrows(s[2..], tok, a, b); }
    }
  }

  /** The same values, except perhaps for the one `%tok` stands for. */
  predicate SameBut(tok: char, v: Values, w: Values) {
    (tok == 'h' || v.host == w.host) && (tok == 'p' || v.port == w.port) && (tok == 'r' || v.user == w.user)
  }

  /** Outside their shares the two expansions are equally long. */
  lemma {:induction false} LengthGap(s: string, v: Values, w: Values, tok: char)
    requires tok in "hpr" && SameBut(tok, v, w)
    ensures |Expand(s, v)| + Share(s, tok, |Token(tok, w)|) == |Expand(s, w)| + Share(s, tok, |Token(tok, v)|)
    decreases |s|
  {
    if s != "" {
      if s[0] != '%' { LengthGap(s[1..], v, w, tok); }
      else if |s| > 1 { LengthGap(s[2..], v, w, tok); }
    }
  }

  /** Only the values whose tokens the scan finds matter. */
  lemma {:induction false} Unused(s: string, v: Values, w: Values)
    requires (v.host == w.host || !Uses(s, 'h')) && (v.port == w.port || !Uses(s, 'p'))
    requires v.user == w.user || !Uses(s, 'r')
    ensures Expand(s, v) == Expand(s, w)
    decreases |s|
  {
    if s != "" {
      if s[0] != '%' { Unused(s[1..], v, w); }
      else if |s| > 1 { Unused(s[2..], v, w); }
    }
  }

  lemma {:induction false} Telling(s: string, v: Values, w: Values, tok: char)
    requires tok in "hpr" && SameBut(tok, v, w) && Uses(s, tok) && Expand(s, v) == Expand(s, w)
    ensures Token(tok, v) == Token(tok, w)
    decreases |s|
  {
    var e, f := Expand(s, v), Expand(s, w);
    if s[0] != '%' {
      assert e[1..] == Expand(s[1..], v) && f[1..] == Expand(s[1..], w);
      Telling(s[1..], v, w, tok);
    } else if s[1] == tok {
      var x, y := Token(tok, v), Token(tok, w);
      LengthGap(s[2..], v, w, tok);
      if |x| <= |y| { ShareGrows(s[2..], tok, |x|, |y|); } else { ShareGrows(s[2..], tok, |y|, |x|); }
      assert x == e[..|x|] && y == f[..|y|];
    } else {
      var t := Token(s[1], v);
      assert t == Token(s[1], w);
      assert e[|t|..] == Expand(s[2..], v) && f[|t|..] == Expand(s[2..], w);
      Telling(s[2..], v, w, tok);
    }
  }

  lemma {:induction false} DecimalTells(a: nat, b: nat)
    requires Decimal(a) == Decimal(b)
    ensures a == b
  {
    DecimalEnds(a);
    DecimalEnds(b);
    if a >= 10 && b >= 10 { DecimalTells(a / 10, b / 10); }
  }

  /** The last digit, and what is before it. */
  lemma DecimalEnds(n: nat)
    ensures var d := Decimal(n);
            && |d| >= 1 && d[|d| - 1] == ('0' as int + n % 10) as char
            && (if n < 10 then |d| == 1 else |d| > 1 && d[..|d| - 1] == Decimal(n / 10))
  {
    assert n >= 10 ==> |Decimal(n / 10)| >= 1;
  }

  /** For each of the three tokens: the expansion depends on its value exactly when the scan finds it. */
  lemma ValuesMatterExactly(s: string, v: Values, w: Values, tok: char)
    requires tok in "hpr" && SameBut(tok, v, w)
    ensures Expand(s, v) == Expand(s, w) <==> v == w || !Uses(s, tok)
  {
    if !Uses(s, tok) {
      Unused(s, v, w);
    } else if Expand(s, v) == Expand(s, w) {
      Telling(s, v, w, tok);
      if tok == 'p' { DecimalTells(v.port, w.port); }
    }
  }

  // --- Escaping ------------------------------------------------------------------------------

  function Doubled(s: string): string {
    if s == "" then "" else (if s[0] == '%' then "%%" else [s[0]]) + Doubled(s[1..])
  }

  /** Doubling every `%` makes expansion the identity, and no token is seen. */
  lemma {:induction false} DoublingEscapes(s: string, v: Values)
    ensures Expand(Doubled(s), v) == s
    ensures !Uses(Doubled(s), 'h') && !Uses(Doubled(s), 'r') && !Uses(Doubled(s), 'p')
    decreases |s|
  {
    if s != "" {
      var d := Doubled(s);
      DoublingEscapes(s[1..], v);
      if s[0] == '%' {
        assert d[2..] == Doubled(s[1..]);
      } else {
        assert d[1..] == Doubled(s[1..]);
      }
    }
  }

  // --- The checked form ----------------------------------------------------------------------

  predicate AsciiAlnum(c: char) {
    '0' <= c <= '9' || 'A' <= c <= 'Z' || 'a' <= c <= 'z'
  }

  predicate HostChar(c: char) {
    AsciiAlnum(c) || c in ".-_:[]%"
  }

  /** `valid_hostname`. */
  predicate ValidHost(host: string) {
    host != "" && host[0] != '-' && forall i | 0 <= i < |host| :: HostChar(host[i])
  }

  /** The Unicode white space and control characters. */
  predicate Blank(c: char) {
    var n := c as int;
    || 0x09 <= n <= 0x0D || n == 0x20 || n == 0x85 || n == 0xA0 || n == 0x1680 || 0x2000 <= n <= 0x200A
    || n in {0x2028, 0x2029, 0x202F, 0x205F, 0x3000}
  }

  predicate Control(c: char) {
    var n := c as int; n <= 0x1F || 0x7F <= n <= 0x9F
  }

  predicate UserChar(c: char) {
    !Blank(c) && !Control(c) && c !in "'`\\\";&|(){}<>$"
  }

  /** `valid_ruser`. */
  predicate ValidUser(user: string) {
    (user == "" || user[0] != '-') && forall i | 0 <= i < |user| :: UserChar(user[i])
  }

  /** Where what `%c` becomes comes from. */
  function Source(c: char): Origin {
    if c == 'h' then FromHost else if c == 'p' then FromPort else if c == 'r' then FromUser else Text
  }

  /** The expansion with each character's origin. */
  function Traced(s: string, v: Values): seq<(char, Origin)>
    decreases |s|
  {
    if s == "" then []
    else if s[0] != '%' then [(s[0], Text)] + Traced(s[1..], v)
    else if |s| == 1 then [('%', Text)]
    else
      Tagged(Token(s[1], v), Source(s[1])) + Traced(s[2..], v)
  }

  function Erased(t: seq<(char, Origin)>): string {
    if t == [] then "" else [t[0].0] + Erased(t[1..])
  }

  lemma {:induction false} ErasedAppend(a: seq<(char, Origin)>, b: seq<(char, Origin)>)
    ensures Erased(a + b) == Erased(a) + Erased(b)
  {
    if a == [] {
      assert a + b == b;
    } else {
      assert (a + b)[1..] == a[1..] + b;
      ErasedAppend(a[1..], b);
    }
  }

  lemma {:induction false} ErasedTagged(s: string, o: Origin)
    ensures Erased(Tagged(s, o)) == s
  {
    if s != "" {
      ErasedTagged(s[1..], o);
      assert Tagged(s, o)[1..] == Tagged(s[1..], o);
    }
  }

  lemma {:induction false} TracedIsExpansion(s: string, v: Values)
    ensures Erased(Traced(s, v)) == Expand(s, v)
    decreases |s|
  {
    if s != "" {
      if s[0] != '%' {
        TracedIsExpansion(s[1..], v);
        assert Traced(s, v)[1..] == Traced(s[1..], v);
      } else if |s| == 1 {
        assert Erased([('%', Text)]) == "%" + Erased([]);
      } else {
        var o := Source(s[1]);
        TracedIsExpansion(s[2..], v);
        ErasedTagged(Token(s[1], v), o);
        ErasedAppend(Tagged(Token(s[1], v), o), Traced(s[2..], v));
      }
    }
  }

  lemma {:induction false} TaggedFrom(s: string, o: Origin, x: (char, Origin))
    requires x in Tagged(s, o)
    ensures x.1 == o && x.0 in s
  {
    if x != Tagged(s, o)[0] {
      assert Tagged(s, o)[1..] == Tagged(s[1..], o);
      TaggedFrom(s[1..], o, x);
    }
  }

  /** A spliced character comes from a value whose token the scan saw. */
  lemma {:induction false} Spliced(s: string, v: Values, x: (char, Origin))
    requires x in Traced(s, v)
    ensures x.1 == FromHost ==> x.0 in v.host && Uses(s, 'h')
    ensures x.1 == FromUser ==> x.0 in v.user && Uses(s, 'r')
    decreases |s|
  {
    var t := Traced(s, v);
    if s[0] != '%' {
      if x != t[0] {
        assert t[1..] == Traced(s[1..], v);
        Spliced(s[1..], v, x);
      }
    } else if |s| > 1 {
      var o := Source(s[1]);
      var front := Tagged(Token(s[1], v), o);
      if x in front {
        TaggedFrom(Token(s[1], v), o, x);
      } else {
        Spliced(s[2..], v, x);
      }
    }
  }

  /** `expand_tokens_checked`. */
  function Checked(s: string, v: Values): Option<string> {
    if Uses(s, 'h') && !ValidHost(v.host) then None
    else if Uses(s, 'r') && !ValidUser(v.user) then None
    else Some(Expand(s, v))
  }

  /** When the checked form succeeds, every character spliced in for the host or the user is a permitted one. */
  lemma {:induction false} CheckedIsSafe(s: string, v: Values, x: (char, Origin))
    requires Checked(s, v).Some? && x in Traced(s, v)
    ensures Checked(s, v).value == Erased(Traced(s, v))
    ensures x.1 == FromHost ==> HostChar(x.0)
    ensures x.1 == FromUser ==> UserChar(x.0)
  {
    TracedIsExpansion(s, v);
    Spliced(s, v, x);
  }

  // --- The loops -----------------------------------------------------------------------------

  method UsesToken(s: string, tok: char) returns (r: bool)
    ensures r == Uses(s, tok)
  {
    var chars := s;
    while chars != ""
      invariant Uses(chars, tok) == Uses(s, tok)
      decreases |chars|
    {
      var c := chars[0];
      chars := chars[1..];
      if c == '%' {
        if chars == "" {
          return false;
        }
        var next := chars[0];
        chars := chars[1..];
        if next == tok {
          return true;
        }
      }
    }
    r := false;
  }

  method ExpandTokens(s: string, v: Values) returns (out: string)
    ensures out == Expand(s, v)
  {
    out := "";
    var chars := s;
    while chars != ""
      invariant out + Expand(chars, v) == Expand(s, v)
      decreases |chars|
    {
      var c, rest := chars[0], chars[1..];
      if c != '%' {
        assert out + ([c] + Expand(rest, v)) == (out + [c]) + Expand(rest, v);
        out, chars := out + [c], rest;
      } else if rest == "" {
        out, chars := out + "%", rest;
      } else {
        assert chars[2..] == rest[1..];
        var t := Token(rest[0], v);
        assert out + (t + Expand(rest[1..], v)) == (out + t) + Expand(rest[1..], v);
        out, chars := out + t, rest[1..];
      }
    }
  }
}
