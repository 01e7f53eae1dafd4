/**
  The deterministic USTAR writer and reader of a configuration bundle. The format is that of the
  "ustar Interchange Format" section of the pax utility in POSIX.1. Paths are UTF-8 byte strings.
*/
module Ustar {
  import opened Prelude

  /** One file; a missing mode means 0644. */
  datatype TarEntry = TarEntry(path: Bytes, content: Bytes, mode: Option<nat>)

  const BLOCK := 512
  const SLASH: byte := 47
  const ZERO: byte := 48
  const SPACE: byte := 32

  function Zeros(n: nat): (z: Bytes)
    ensures |z| == n && forall i :: 0 <= i < n ==> z[i] == 0
  {
    seq(n, i => 0)
  }

  function Min(a: int, b: int): int { if a <= b then a else b }

  // ---------------------------------------------------------------------------
  // Octal fields

  function Octal(n: nat): (s: Bytes)
    ensures |s| >= 1 && forall i :: 0 <= i < |s| ==> 48 <= s[i] < 56
  {
    if n < 8 then [48 + n] else Octal(n / 8) + [48 + n % 8]
  }

  function Pow8(k: nat): nat {
    if k == 0 then 1 else 8 * Pow8(k - 1)
  }

  /** `n` in octal, left-padded with zero digits. */
  function Padded(n: nat, digits: nat): (s: Bytes)
    ensures |s| >= digits && forall i :: 0 <= i < |s| ==> 48 <= s[i] < 56
  {
    var s := Octal(n);
    if |s| >= digits then s else seq(digits - |s|, i => ZERO) + s
  }

  /** The number that a run of octal digits stands for. */
  function OctalValue(s: Bytes): int {
    if s == [] then 0 else 8 * OctalValue(s[..|s| - 1]) + (s[|s| - 1] as int - 48)
  }

  lemma {:induction false} OctalRoundTrip(n: nat)
    ensures OctalValue(Octal(n)) == n
  {
    if n >= 8 {
      OctalRoundTrip(n / 8);
      var s := Octal(n);
      assert s[..|s| - 1] == Octal(n / 8);
    } else {
      assert [48 + n][..0] == [];
    }
  }

  lemma {:induction false} OctalFits(n: nat, digits: nat)
    requires n < Pow8(digits) && digits >= 1
    ensures |Octal(n)| <= digits
  {
    if n >= 8 {
      assert digits >= 2 by {
        assert Pow8(1) == 8 * Pow8(0);
      }
      OctalFits(n / 8, digits - 1);
    }
  }

  lemma {:induction false} LeadingZeros(k: nat, s: Bytes)
    ensures OctalValue(seq(k, i => ZERO) + s) == OctalValue(s)
    decreases k + |s|
  {
    var z := seq(k, i => ZERO);
    if s == [] {
      if k > 0 {
        assert (z + s)[..k - 1] == seq(k - 1, i => ZERO) + s;
        LeadingZeros(k - 1, s);
      } else {
        assert z + s == s;
      }
    } else {
      assert (z + s)[..|z + s| - 1] == z + s[..|s| - 1];
      LeadingZeros(k, s[..|s| - 1]);
    }
  }

  lemma PaddedRoundTrip(n: nat, digits: nat)
    requires n < Pow8(digits) && digits >= 1
    ensures |Padded(n, digits)| == digits && OctalValue(Padded(n, digits)) == n
  {
    OctalFits(n, digits);
    OctalRoundTrip(n);
    LeadingZeros(digits - |Octal(n)|, Octal(n));
  }

  // ---------------------------------------------------------------------------
  // Splitting a path

  datatype Split = Split(name: Bytes, prefix: Bytes)

  /** A slash at `i` that leaves at most 155 bytes before it and 100 after. */
  predicate SplitsAt(p: Bytes, i: int) {
    0 <= i < |p| && p[i] == SLASH && i <= 155 && |p| - i - 1 <= 100
  }

  function FirstSplit(p: Bytes, i: nat): (k: Option<nat>)
    requires i <= |p|
    ensures k.Some? ==> SplitsAt(p, k.value)
    decreases |p| - i
  {
    if i == |p| then None else if SplitsAt(p, i) then Some(i) else FirstSplit(p, i + 1)
  }

  lemma {:induction false} FirstSplitIsFirst(p: Bytes, i: nat)
    requires i <= |p|
    ensures FirstSplit(p, i).None? <==> forall j :: i <= j ==> !SplitsAt(p, j)
    ensures FirstSplit(p, i).Some? ==> i <= FirstSplit(p, i).value && SplitsAt(p, FirstSplit(p, i).value)
    ensures FirstSplit(p, i).Some? ==> forall j :: i <= j < FirstSplit(p, i).value ==> !SplitsAt(p, j)
    decreases |p| - i
  {
    if i < |p| && !SplitsAt(p, i) {
      FirstSplitIsFirst(p, i + 1);
    }
  }

  function SplitPath(p: Bytes): Result<Split> {
    if |p| <= 100 then Ok(Split(p, []))
    else match FirstSplit(p, 0)
      case Some(i) => Ok(Split(p[i + 1..], p[..i]))
      case None => Err("path too long for USTAR")
  }

  lemma SplitBounds(p: Bytes)
    ensures SplitPath(p).Ok? ==> |SplitPath(p).value.name| <= 100 && |SplitPath(p).value.prefix| <= 155
    ensures SplitPath(p).Ok? <==> |p| <= 100 || exists i :: SplitsAt(p, i)
  {
    FirstSplitIsFirst(p, 0);
  }

  /** The search as the source runs it, from slash to slash. */
  method SplitUstarPath(p: Bytes) returns (r: Result<Split>)
    ensures r == SplitPath(p)
  {
    if |p| <= 100 {
      return Ok(Split(p, []));
    }
    var i := 0;
    while i < |p|
      invariant 0 <= i <= |p| && FirstSplit(p, 0) == FirstSplit(p, i)
    {
      if p[i] == SLASH {
        var prefix, name := p[..i], p[i + 1..];
        if |prefix| <= 155 && |name| <= 100 {
          return Ok(Split(name, prefix));
        }
      }
      i := i + 1;
    }
    return Err("path too long for USTAR");
  }

  // ---------------------------------------------------------------------------
  // The header block

  /** Overwrite `buf` at `off` with at most `len` bytes of `s`. */
  function Put(buf: Bytes, off: nat, len: nat, s: Bytes): (r: Bytes)
    requires off + len <= |buf|
    ensures |r| == |buf|
    ensures forall i :: 0 <= i < |r| ==> r[i] == if off <= i < off + Min(|s|, len) then s[i - off] else buf[i]
  {
    var m := Min(|s|, len);
    buf[..off] + s[..m] + buf[off + m..]
  }

  function OctalField(n: nat, len: nat): Bytes
    requires len >= 1
  {
    Padded(n, len - 1) + [0]
  }

  const SPACES: Bytes := [SPACE, SPACE, SPACE, SPACE, SPACE, SPACE, SPACE, SPACE]
  const MAGIC: Bytes := [117, 115, 116, 97, 114, 0]

  function Mode(e: TarEntry): nat {
    if e.mode.Some? then e.mode.value else 420
  }

  /** The header with its checksum field still blank. */
  function Blank(s: Split, size: nat, mode: nat): (h: Bytes)
    ensures |h| == BLOCK
  {
    var h := Put(Zeros(BLOCK), 0, 100, s.name);
    var h := Put(h, 100, 8, OctalField(mode % 4096, 8));
    var h := Put(h, 108, 8, OctalField(0, 8));
    var h := Put(h, 116, 8, OctalField(0, 8));
    var h := Put(h, 124, 12, OctalField(size, 12));
    var h := Put(h, 136, 12, OctalField(0, 12));
    var h := Put(h, 148, 8, SPACES);
    var h := Put(h, 156, 1, [ZERO]);
    var h := Put(h, 257, 6, MAGIC);
    var h := Put(h, 263, 2, [ZERO, ZERO]);
    Put(h, 345, 155, s.prefix)
  }

  function Sum(b: Bytes): nat {
    if b == [] then 0 else Sum(b[..|b| - 1]) + b[|b| - 1]
  }

  function Header(s: Split, size: nat, mode: nat): (h: Bytes)
    ensures |h| == BLOCK
  {
    var h := Blank(s, size, mode);
    Put(h, 148, 8, Padded(Sum(h), 6) + [0, SPACE])
  }

  method PutAt(b: array<byte>, off: nat, len: nat, s: Bytes)
    requires off + len <= b.Length
    modifies b
    ensures b[..] == Put(old(b[..]), off, len, s)
  {
    var m := Min(|s|, len);
    forall i | 0 <= i < m {
      b[off + i] := s[i];
    }
  }

  method WriteOctal(b: array<byte>, n: nat, off: nat, len: nat)
    requires off + len <= b.Length && len >= 1
    modifies b
    ensures b[..] == Put(old(b[..]), off, len, OctalField(n, len))
  {
    PutAt(b, off, len, Padded(n, len - 1) + [0]);
  }

  method SumBytes(h: array<byte>) returns (sum: nat)
    ensures sum == Sum(h[..])
  {
    sum := 0;
    for i := 0 to h.Length
      invariant sum == Sum(h[..i])
    {
      assert h[..i + 1][..i] == h[..i];
      sum := sum + h[i];
    }
    assert h[..h.Length] == h[..];
  }

  method FillBlank(h: array<byte>, s: Split, size: nat, mode: nat)
    requires h[..] == Zeros(BLOCK)
    modifies h
    ensures h[..] == Blank(s, size, mode)
  {
    hide Put;
    PutAt(h, 0, 100, s.name);
    WriteOctal(h, mode % 4096, 100, 8);
    WriteOctal(h, 0, 108, 8);
    WriteOctal(h, 0, 116, 8);
    WriteOctal(h, size, 124, 12);
    WriteOctal(h, 0, 136, 12);
    PutAt(h, 148, 8, SPACES);
    PutAt(h, 156, 1, [ZERO]);
    PutAt(h, 257, 6, MAGIC);
    PutAt(h, 263, 2, [ZERO, ZERO]);
    PutAt(h, 345, 155, s.prefix);
  }

  /** The header as the source fills it, field by field in one buffer, the checksum last. */
  method WriteHeader(path: Bytes, size: nat, mode: nat) returns (r: Result<Bytes>)
    ensures r == match SplitPath(path) case Ok(s) => Ok(Header(s, size, mode)) case Err(e) => Err(e)
  {
    hide Put;
    hide Blank;
    var split := SplitUstarPath(path);
    if split.Err? {
      return Err(split.reason);
    }
    var h := new byte[BLOCK](i => 0);
    assert h[..] == Zeros(BLOCK);
    FillBlank(h, split.value, size, mode);
    var sum := SumBytes(h);
    PutAt(h, 148, 8, Padded(sum, 6) + [0, SPACE]);
    r := Ok(h[..]);
  }

  function Field(h: Bytes, off: nat, len: nat): Bytes
    requires off + len <= |h|
  {
    h[off..off + len]
  }

  /** The fields of a header block, at their places in the ustar format. */
  lemma HeaderNames(s: Split, size: nat, mode: nat)
    requires |s.name| <= 100 && |s.prefix| <= 155
    ensures Field(Header(s, size, mode), 0, 100) == s.name + Zeros(100 - |s.name|)
    ensures Field(Header(s, size, mode), 345, 155) == s.prefix + Zeros(155 - |s.prefix|)
  {
    hide Put;
  }

  lemma HeaderNumbers(s: Split, size: nat, mode: nat)
    requires size < Pow8(11)
    ensures Field(Header(s, size, mode), 100, 8) == Padded(mode % 4096, 7) + [0]
    ensures Field(Header(s, size, mode), 124, 12) == Padded(size, 11) + [0]
    ensures Header(s, size, mode)[156] == ZERO
    ensures Field(Header(s, size, mode), 257, 8) == MAGIC + [ZERO, ZERO]
  {
    hide Put;
    PaddedRoundTrip(size, 11);
    assert Pow8(7) == 2097152;
    PaddedRoundTrip(mode % 4096, 7);
  }

  /** Owner, group and modification time are zero, and so is every byte outside the fields. */
  lemma HeaderZeros(s: Split, size: nat, mode: nat)
    requires size < Pow8(11)
    ensures Field(Header(s, size, mode), 108, 8) == Field(Header(s, size, mode), 116, 8) == Padded(0, 7) + [0]
    ensures Field(Header(s, size, mode), 136, 12) == Padded(0, 11) + [0]
    ensures |Header(s, size, mode)| == 512
    ensures forall i :: 157 <= i < 257 || 265 <= i < 345 || 500 <= i < 512 ==> Header(s, size, mode)[i] == 0
  {
    hide Put, Sum;
    PaddedRoundTrip(size, 11);
    PaddedRoundTrip(0, 11);
    PaddedRoundTrip(0, 7);
  }

  lemma {:induction false} SumBound(b: Bytes)
    ensures Sum(b) <= 255 * |b|
  {
    if b != [] {
      SumBound(b[..|b| - 1]);
    }
  }

  /**
    The checksum field always holds six octal digits, a NUL and a space, and their value is the sum of
    the header's bytes taken with that field blank.
  */
  lemma ChecksumField(s: Split, size: nat, mode: nat)
    ensures var h, blank := Header(s, size, mode), Blank(s, size, mode);
      && Sum(blank) < Pow8(6)
      && Field(h, 148, 8) == Padded(Sum(blank), 6) + [0, SPACE]
      && OctalValue(Field(h, 148, 6)) == Sum(blank)
      && blank == Put(h, 148, 8, SPACES)
  {
    var h, blank := Header(s, size, mode), Blank(s, size, mode);
    SumBound(blank);
    assert Pow8(6) == 262144;
    PaddedRoundTrip(Sum(blank), 6);
    BlankKeepsSpaces(s, size, mode);
    hide Blank, Sum, Padded, Pow8, OctalValue;
    Checksummed(blank, Padded(Sum(blank), 6));
  }

  lemma Checksummed(b: Bytes, digits: Bytes)
    requires |b| == BLOCK && |digits| == 6 && Field(b, 148, 8) == SPACES
    ensures var h := Put(b, 148, 8, digits + [0, SPACE]);
      Field(h, 148, 8) == digits + [0, SPACE] && Field(h, 148, 6) == digits && Put(h, 148, 8, SPACES) == b
  {
    hide Put;
    assert forall i :: 148 <= i < 156 ==> b[i] == Field(b, 148, 8)[i - 148];
  }

  lemma BlankKeepsSpaces(s: Split, size: nat, mode: nat)
    ensures Field(Blank(s, size, mode), 148, 8) == SPACES
  {
    hide Put;
  }

  // ---------------------------------------------------------------------------
  // Reading a header

  /** The bytes before the first NUL. */
  function UpToNul(s: Bytes): Bytes {
    if s == [] || s[0] == 0 then [] else [s[0]] + UpToNul(s[1..])
  }

  predicate NulFree(s: Bytes) {
    forall i :: 0 <= i < |s| ==> s[i] != 0
  }

  lemma {:induction false} UpToNulStops(s: Bytes, rest: Bytes)
    requires NulFree(s) && (rest == [] || rest[0] == 0)
    ensures UpToNul(s + rest) == s
  {
    if s == [] {
      assert s + rest == rest;
    } else {
      assert (s + rest)[1..] == s[1..] + rest;
      UpToNulStops(s[1..], rest);
    }
  }

  lemma {:induction false} UpToNulPadded(s: Bytes, n: nat)
    ensures UpToNul(s + Zeros(n)) == UpToNul(s) && NulFree(UpToNul(s))
    ensures NulFree(s) ==> UpToNul(s) == s
  {
    if s == [] {
      assert s + Zeros(n) == Zeros(n);
    } else {
      assert (s + Zeros(n))[1..] == s[1..] + Zeros(n);
      UpToNulPadded(s[1..], n);
      assert s == [s[0]] + s[1..];
    }
  }

  predicate IsSpace(b: byte) {
    b == 32 || 9 <= b <= 13
  }

  function TrimLeft(s: Bytes): Bytes {
    if s != [] && IsSpace(s[0]) then TrimLeft(s[1..]) else s
  }

  /** The leading run of octal digits. */
  function DigitRun(s: Bytes): Bytes {
    if s != [] && 48 <= s[0] < 56 then [s[0]] + DigitRun(s[1..]) else []
  }

  lemma {:induction false} DigitRunAll(s: Bytes)
    requires forall i :: 0 <= i < |s| ==> 48 <= s[i] < 56
    ensures DigitRun(s) == s
  {
    if s != [] {
      DigitRunAll(s[1..]);
      assert s == [s[0]] + s[1..];
    }
  }

  lemma {:induction false} OctalValueNat(s: Bytes)
    ensures OctalValue(DigitRun(s)) >= 0
  {
    DigitsAreNat(s);
    DigitsAreNat(DigitRun(s));
  }

  lemma {:induction false} DigitsAreNat(s: Bytes)
    ensures (forall i :: 0 <= i < |s| ==> 48 <= s[i]) ==> OctalValue(s) >= 0
    ensures forall i :: 0 <= i < |DigitRun(s)| ==> 48 <= DigitRun(s)[i]
  {
    if s != [] {
      DigitsAreNat(s[..|s| - 1]);
      DigitsAreNat(s[1..]);
    }
  }

  /** A numeric field: blank means zero; anything else must start with an octal digit. */
  function Number(field: Bytes): Result<nat> {
    var s := TrimLeft(UpToNul(field));
    OctalValueNat(s);
    if s == [] then Ok(0) else if DigitRun(s) == [] then Err("not a number") else Ok(OctalValue(DigitRun(s)))
  }

  lemma NumberRoundTrip(n: nat, digits: nat)
    requires n < Pow8(digits) && digits >= 1
    ensures Number(Padded(n, digits) + [0]) == Ok(n)
  {
    PaddedRoundTrip(n, digits);
    var s := Padded(n, digits);
    UpToNulStops(s, [0]);
    DigitRunAll(s);
    OctalValueNat(s);
  }

  /** What a header says about its entry; `regular` is false for anything but a plain file. */
  datatype Info = Info(path: Bytes, mode: nat, size: nat, regular: bool)

  function ReadPath(name: Bytes, prefix: Bytes): Bytes {
    if prefix == [] then name else prefix + [SLASH] + name
  }

  function ReadHeader(h: Bytes): Result<Info>
    requires |h| == BLOCK
  {
    var mode :- Number(Field(h, 100, 8));
    var size :- Number(Field(h, 124, 12));
    Ok(Info(ReadPath(UpToNul(Field(h, 0, 100)), UpToNul(Field(h, 345, 155))), mode, size, h[156] == ZERO || h[156] == 0))
  }

  /** The path that comes back for `p`. */
  function Reread(s: Split): Bytes {
    ReadPath(UpToNul(s.name), UpToNul(s.prefix))
  }

  lemma HeaderRoundTrip(s: Split, size: nat, mode: nat)
    requires |s.name| <= 100 && |s.prefix| <= 155 && size < Pow8(11)
    ensures ReadHeader(Header(s, size, mode)) == Ok(Info(Reread(s), mode % 4096, size, true))
  {
    hide Header;
    hide Number;
    hide Padded;
    HeaderNames(s, size, mode);
    HeaderNumbers(s, size, mode);
    UpToNulPadded(s.name, 100 - |s.name|);
    UpToNulPadded(s.prefix, 155 - |s.prefix|);
    NumberRoundTrip(size, 11);
    assert Pow8(7) == 2097152;
    NumberRoundTrip(mode % 4096, 7);
  }

  /** Bytes that a path can lose: those after a NUL, and a leading slash that became an empty prefix. */
  predicate Survives(p: Bytes) {
    NulFree(p) && !(|p| == 101 && p[0] == SLASH)
  }

  /** Where a long path is cut, and that the cut loses only the slash. */
  lemma LongSplit(p: Bytes)
    requires |p| > 100 && SplitPath(p).Ok?
    ensures var s := SplitPath(p).value;
      p == s.prefix + [SLASH] + s.name && (s.prefix == [] <==> |p| == 101 && p[0] == SLASH)
  {
    FirstSplitIsFirst(p, 0);
    var i := FirstSplit(p, 0).value;
    assert SplitsAt(p, i);
    assert p == p[..i] + [p[i]] + p[i + 1..];
    assert |p| == 101 && p[0] == SLASH ==> SplitsAt(p, 0);
  }

  /** A path comes back as it was exactly when it has no NUL and is not 101 bytes behind a leading slash. */
  lemma PathRoundTripIff(p: Bytes)
    requires SplitPath(p).Ok?
    ensures Reread(SplitPath(p).value) == p <==> Survives(p)
  {
    hide FirstSplit, SplitsAt, UpToNul;
    var s := SplitPath(p).value;
    UpToNulPadded(s.name, 0);
    UpToNulPadded(s.prefix, 0);
    if |p| > 100 {
      LongSplit(p);
      if NulFree(p) {
        assert forall i :: 0 <= i < |s.prefix| ==> s.prefix[i] == p[i];
        assert forall i :: 0 <= i < |s.name| ==> s.name[i] == p[|s.prefix| + 1 + i];
        assert NulFree(s.name) && NulFree(s.prefix);
      }
    }
    if !NulFree(p) {
      assert NulFree(Reread(s));
    }
  }
}
