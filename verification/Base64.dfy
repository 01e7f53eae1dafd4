/** Base64 as in section 4 of RFC 4648, and a decoder that skips what is not in the alphabet. */
module Base64 {
  import opened Prelude

  type digit = d: int | 0 <= d < 64

  const PAD: byte := 61

  function Symbol(d: digit): byte {
    if d < 26 then 65 + d
    else if d < 52 then 97 + (d - 26)
    else if d < 62 then 48 + (d - 52)
    else if d == 62 then 43
    else 47
  }

  /** The value of an alphabet character, or -1; '-' and '_' are read as '+' and '/'. */
  function Value(b: byte): (v: int)
    ensures -1 <= v < 64
  {
    if 65 <= b <= 90 then b - 65
    else if 97 <= b <= 122 then b - 97 + 26
    else if 48 <= b <= 57 then b - 48 + 52
    else if b == 43 || b == 45 then 62
    else if b == 47 || b == 95 then 63
    else -1
  }

  lemma SymbolValue(d: digit)
    ensures Value(Symbol(d)) == d && Symbol(d) != PAD && Symbol(d) > 32
  {
  }

  /** Nothing but the alphabet and its two variants has a value. */
  lemma ValueIsSymbol(b: byte)
    ensures Value(b) >= 0 <==> (exists d: digit :: b == Symbol(d)) || b == '-' as byte || b == '_' as byte
    ensures Value(b) >= 0 ==> b == Symbol(Value(b)) || (b == '-' as byte && Value(b) == 62) || (b == '_' as byte && Value(b) == 63)
  {
    forall d: digit ensures Value(Symbol(d)) == d {
      SymbolValue(d);
    }
    if Value(b) >= 0 && b != '-' as byte && b != '_' as byte {
      var d: digit := Value(b);
      assert b == Symbol(d);
    }
  }

  // The four digits of three bytes, and the three bytes of four digits.

  function D1(x: byte): digit { x as int / 4 }
  function D2(x: byte, y: byte): digit { x as int % 4 * 16 + y as int / 16 }
  function D3(y: byte, z: byte): digit { y as int % 16 * 4 + z as int / 64 }
  function D4(z: byte): digit { z as int % 64 }

  function B1(a: digit, b: digit): byte { a as int * 4 + b as int / 16 }
  function B2(b: digit, c: digit): byte { b as int % 16 * 16 + c as int / 4 }
  function B3(c: digit, d: digit): byte { c as int % 4 * 64 + d as int }

  lemma Regroup(x: byte, y: byte, z: byte)
    ensures B1(D1(x), D2(x, y)) == x && B2(D2(x, y), D3(y, z)) == y && B3(D3(y, z), D4(z)) == z
  {
  }

  function Encode(s: Bytes): Bytes {
    if s == [] then []
    else if |s| == 1 then [Symbol(D1(s[0])), Symbol(D2(s[0], 0)), PAD, PAD]
    else if |s| == 2 then [Symbol(D1(s[0])), Symbol(D2(s[0], s[1])), Symbol(D3(s[1], 0)), PAD]
    else [Symbol(D1(s[0])), Symbol(D2(s[0], s[1])), Symbol(D3(s[1], s[2])), Symbol(D4(s[2]))] + Encode(s[3..])
  }

  /** The digits up to the first padding character, everything outside the alphabet skipped. */
  function Digits(s: Bytes): seq<digit> {
    if s == [] || s[0] == PAD then []
    else if Value(s[0]) < 0 then Digits(s[1..])
    else [Value(s[0])] + Digits(s[1..])
  }

  /** Six bits at a time into bytes; bits left over at the end are dropped. */
  function Assemble(ds: seq<digit>): Bytes {
    if |ds| < 2 then []
    else if |ds| == 2 then [B1(ds[0], ds[1])]
    else if |ds| == 3 then [B1(ds[0], ds[1]), B2(ds[1], ds[2])]
    else [B1(ds[0], ds[1]), B2(ds[1], ds[2]), B3(ds[2], ds[3])] + Assemble(ds[4..])
  }

  function Decode(s: Bytes): Bytes {
    Assemble(Digits(s))
  }

  lemma DigitsPrefix(a: digit, b: digit, rest: Bytes)
    ensures Digits([Symbol(a), Symbol(b)] + rest) == [a, b] + Digits(rest)
  {
    SymbolValue(a);
    SymbolValue(b);
    var s := [Symbol(a), Symbol(b)] + rest;
    assert s[1..] == [Symbol(b)] + rest;
    assert s[1..][1..] == rest;
  }

  lemma {:induction false} RoundTrip(s: Bytes)
    ensures Decode(Encode(s)) == s
  {
    hide Symbol, D1, D2, D3, D4, B1, B2, B3;
    if s == [] {
    } else if |s| == 1 {
      DigitsPrefix(D1(s[0]), D2(s[0], 0), [PAD, PAD]);
      Regroup(s[0], 0, 0);
      assert Encode(s) == [Symbol(D1(s[0])), Symbol(D2(s[0], 0))] + [PAD, PAD];
    } else if |s| == 2 {
      var a, b, c := D1(s[0]), D2(s[0], s[1]), D3(s[1], 0);
      DigitsPrefix(a, b, [Symbol(c), PAD]);
      SymbolValue(c);
      assert [Symbol(c), PAD][1..] == [PAD];
      assert Encode(s) == [Symbol(a), Symbol(b)] + [Symbol(c), PAD];
      assert Digits(Encode(s)) == [a, b, c];
      Regroup(s[0], s[1], 0);
    } else {
      RoundTrip(s[3..]);
      RoundTripStep(s[0], s[1], s[2], s[3..]);
      assert s == [s[0], s[1], s[2]] + s[3..];
    }
  }

  lemma FourDigits(a: digit, b: digit, c: digit, d: digit, rest: Bytes)
    ensures Digits([Symbol(a), Symbol(b), Symbol(c), Symbol(d)] + rest) == [a, b, c, d] + Digits(rest)
  {
    hide Symbol;
    DigitsPrefix(c, d, rest);
    DigitsPrefix(a, b, [Symbol(c), Symbol(d)] + rest);
    assert [Symbol(a), Symbol(b), Symbol(c), Symbol(d)] + rest == [Symbol(a), Symbol(b)] + ([Symbol(c), Symbol(d)] + rest);
  }

  lemma AssembleFour(a: digit, b: digit, c: digit, d: digit, rest: seq<digit>)
    ensures Assemble([a, b, c, d] + rest) == [B1(a, b), B2(b, c), B3(c, d)] + Assemble(rest)
  {
    assert ([a, b, c, d] + rest)[4..] == rest;
  }

  lemma RoundTripStep(x: byte, y: byte, z: byte, t: Bytes)
    requires Decode(Encode(t)) == t
    ensures Decode(Encode([x, y, z] + t)) == [x, y, z] + t
  {
    hide Assemble, Digits, Symbol, D1, D2, D3, D4, B1, B2, B3;
    assert ([x, y, z] + t)[3..] == t;
    FourDigits(D1(x), D2(x, y), D3(y, z), D4(z), Encode(t));
    AssembleFour(D1(x), D2(x, y), D3(y, z), D4(z), Digits(Encode(t)));
    Regroup(x, y, z);
  }

  /** Everything the encoder writes is a printable character. */
  lemma {:induction false} EncodeIsPrintable(s: Bytes)
    ensures forall b :: b in Encode(s) ==> b > 32 && b < 127
  {
    if |s| > 2 {
      EncodeIsPrintable(s[3..]);
    }
  }
}
