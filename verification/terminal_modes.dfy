/** Encoded terminal modes, section 8 of RFC 4254. */
module TerminalModes {
  import opened Prelude

  datatype Mode = Mode(op: byte, value: u32)

  const END: byte := 0

  /** The opcodes that carry a 32-bit argument. */
  predicate Defined(op: byte) {
    1 <= op < 160
  }

  function Encode(ms: seq<Mode>): seq<byte> {
    if ms == [] then [] else ([ms[0].op] + Be32(ms[0].value)) + Encode(ms[1..])
  }

  /** Up to the end marker, an undefined opcode or a short argument. */
  function Decode(b: seq<byte>): seq<Mode>
    decreases |b|
  {
    if |b| < 5 || !Defined(b[0]) then [] else [Mode(b[0], U32(b[1..5]))] + Decode(b[5..])
  }

  /** Decoding gives back any encoded list, whatever follows the end marker. */
  lemma {:induction false} RoundTrip(ms: seq<Mode>, junk: seq<byte>)
    requires forall m | m in ms :: Defined(m.op)
    ensures Decode(Encode(ms) + [END] + junk) == ms
    decreases |ms|
  {
    var b := Encode(ms) + [END] + junk;
    if ms == [] {
      assert b[0] == END;
    } else {
      assert ms[0] in ms;
      RoundTrip(ms[1..], junk);
      assert b[0] == ms[0].op && b[1..5] == Be32(ms[0].value);
      assert b[5..] == Encode(ms[1..]) + [END] + junk;
    }
  }

  /** Whatever is decoded was there: re-encoding gives a prefix of the input, of defined opcodes only. */
  lemma {:induction false} DecodedIsPrefix(b: seq<byte>)
    ensures Encode(Decode(b)) <= b && forall m | m in Decode(b) :: Defined(m.op)
    ensures var rest := b[|Encode(Decode(b))|..]; |rest| < 5 || !Defined(rest[0])
    decreases |b|
  {
    if |b| >= 5 && Defined(b[0]) {
      DecodedIsPrefix(b[5..]);
      var ms := Decode(b);
      assert ms[1..] == Decode(b[5..]);
      Be32Inverts(b[1..5]);
      assert b == ([b[0]] + b[1..5]) + b[5..];
      assert b[|Encode(ms)|..] == b[5..][|Encode(ms[1..])|..];
    }
  }

  lemma {:induction false} EncodeSnoc(ms: seq<Mode>, m: Mode)
    ensures Encode(ms + [m]) == Encode(ms) + ([m.op] + Be32(m.value))
  {
    if ms == [] {
      assert ms + [m] == [m] && [m][1..] == [];
      assert Encode([m]) == ([m.op] + Be32(m.value)) + Encode([]);
    } else {
      assert (ms + [m])[1..] == ms[1..] + [m];
      EncodeSnoc(ms[1..], m);
      var h, t, l := [ms[0].op] + Be32(ms[0].value), Encode(ms[1..]), [m.op] + Be32(m.value);
      assert h + (t + l) == (h + t) + l;
    }
  }

  /** The client's side: push each mode, then the end marker. */
  method EncodeModes(ms: seq<Mode>) returns (out: seq<byte>)
    requires forall m | m in ms :: Defined(m.op)
    ensures out == Encode(ms) + [END] && Decode(out) == ms
  {
    out := [];
    var i := 0;
    while i < |ms|
      invariant 0 <= i <= |ms| && out == Encode(ms[..i])
    {
      EncodeSnoc(ms[..i], ms[i]);
      assert ms[..i + 1] == ms[..i] + [ms[i]];
      out := out + ([ms[i].op] + Be32(ms[i].value));
      i := i + 1;
    }
    assert ms[..i] == ms;
    out := out + [END];
    RoundTrip(ms, []);
    assert out + [] == out;
  }

  /** The server's side. */
  method DecodeModes(modes: seq<byte>) returns (out: seq<Mode>)
    ensures out == Decode(modes)
  {
    out := [];
    var rest := modes;
    while rest != []
      invariant out + Decode(rest) == Decode(modes)
      decreases |rest|
    {
      var op, tail := rest[0], rest[1..];
      if op == 0 || op >= 160 {
        break;
      }
      if |tail| < 4 {
        break;
      }
      assert rest[1..5] == tail[..4] && rest[5..] == tail[4..];
      var m := Mode(op, U32(tail[..4]));
      assert out + ([m] + Decode(tail[4..])) == (out + [m]) + Decode(tail[4..]);
      out := out + [m];
      rest := tail[4..];
    }
  }
}
