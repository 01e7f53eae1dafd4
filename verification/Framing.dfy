/**
  The framed output of the persistent shell in a sandbox: each command's output is base64 between
  two markers that carry the command's nonce, and a parser is fed the stream in arbitrary chunks.
*/
module Framing {
  import opened Prelude
  import B = Base64

  const SOH: byte := 1
  const LF: byte := 10
  const SP: byte := 32
  const MINUS: byte := 45

  datatype Frame = Frame(nonce: Bytes, stdout: Bytes, exitCode: int)

  /** White space among the bytes 0 to 255. */
  predicate IsSpace(b: byte) {
    9 <= b <= 13 || b == 32 || b == 160
  }

  predicate IsDigit(b: byte) {
    48 <= b <= 57
  }

  // ---------------------------------------------------------------------------
  // The markers

  /** A begin marker at `i` whose nonce ends at the newline at `e`. */
  ghost predicate Begin(text: Bytes, i: int, e: int) {
    && 0 <= i && i + 2 < e < |text|
    && text[i] == SOH && text[i + 1] == 66
    && (forall k :: i + 2 <= k < e ==> !IsSpace(text[k]))
    && text[e] == LF
  }

  /** The first white space at or after `k`, or the end. */
  function RunEnd(text: Bytes, k: nat): (e: nat)
    requires k <= |text|
    ensures k <= e <= |text|
    ensures forall j :: k <= j < e ==> !IsSpace(text[j])
    ensures e < |text| ==> IsSpace(text[e])
    decreases |text| - k
  {
    if k == |text| || IsSpace(text[k]) then k else RunEnd(text, k + 1)
  }

  function BeginAt(text: Bytes, i: nat): (e: Option<nat>)
    ensures e.Some? ==> Begin(text, i, e.value)
    ensures e.None? ==> forall k :: !Begin(text, i, k)
  {
    if i + 2 >= |text| || text[i] != SOH || text[i + 1] != 66 then None else
    var e := RunEnd(text, i + 2);
    if e > i + 2 && e < |text| && text[e] == LF then Some(e) else None
  }

  /** The leftmost begin marker at or after `i`. */
  function FindBegin(text: Bytes, i: nat): (r: Option<(nat, nat)>)
    requires i <= |text|
    ensures r.Some? ==> r.value.0 + 2 < r.value.1 < |text|
    ensures r.Some? ==> i <= r.value.0 && Begin(text, r.value.0, r.value.1)
    ensures r.Some? ==> forall j, k :: i <= j < r.value.0 ==> !Begin(text, j, k)
    ensures r.None? ==> forall j, k :: i <= j ==> !Begin(text, j, k)
    decreases |text| - i
  {
    if i == |text| then None
    else match BeginAt(text, i)
      case Some(e) => Some((i, e))
      case None => FindBegin(text, i + 1)
  }

  predicate IsNumber(s: Bytes) {
    && s != [] && (IsDigit(s[0]) || (s[0] == MINUS && |s| > 1))
    && forall k :: 1 <= k < |s| ==> IsDigit(s[k])
  }

  /** An end marker at `j` for this nonce, whose exit code ends at the newline at `e`. */
  ghost predicate End(text: Bytes, nonce: Bytes, j: int, e: int) {
    && 0 <= j && j + 3 + |nonce| < e < |text|
    && text[j] == SOH && text[j + 1] == 69
    && text[j + 2..j + 2 + |nonce|] == nonce
    && text[j + 2 + |nonce|] == SP
    && IsNumber(text[j + 3 + |nonce|..e])
    && text[e] == LF
  }

  function EndAt(text: Bytes, nonce: Bytes, j: nat): (e: Option<nat>)
    ensures e.Some? ==> End(text, nonce, j, e.value)
    ensures e.None? ==> forall k :: !End(text, nonce, j, k)
  {
    var m := j + 3 + |nonce|;
    if m >= |text| || text[j] != SOH || text[j + 1] != 69 || text[j + 2..m - 1] != nonce || text[m - 1] != SP then None else
    var e := RunEnd(text, m);
    assert forall k :: End(text, nonce, j, k) ==> k == e by {
      forall k | End(text, nonce, j, k) ensures k == e {
        NumberHasNoSpace(text, m, k);
      }
    }
    if m < e < |text| && text[e] == LF && IsNumber(text[m..e]) then Some(e) else None
  }

  lemma NumberHasNoSpace(text: Bytes, m: nat, e: nat)
    requires m <= e <= |text| && IsNumber(text[m..e])
    ensures forall i :: m <= i < e ==> !IsSpace(text[i])
  {
    var s := text[m..e];
    forall i | m <= i < e ensures !IsSpace(text[i]) {
      assert text[i] == s[i - m];
    }
  }

  function FindEnd(text: Bytes, nonce: Bytes, j: nat): (r: Option<(nat, nat)>)
    requires j <= |text|
    ensures r.Some? ==> r.value.0 + 3 + |nonce| < r.value.1 < |text|
    ensures r.Some? ==> j <= r.value.0 && End(text, nonce, r.value.0, r.value.1)
    ensures r.Some? ==> forall i, k :: j <= i < r.value.0 ==> !End(text, nonce, i, k)
    ensures r.None? ==> forall i, k :: j <= i ==> !End(text, nonce, i, k)
    decreases |text| - j
  {
    if j == |text| then None
    else match EndAt(text, nonce, j)
      case Some(e) => Some((j, e))
      case None => FindEnd(text, nonce, j + 1)
  }

  // ---------------------------------------------------------------------------
  // The parser

  function DecimalValue(s: Bytes): int {
    if s == [] then 0 else 10 * DecimalValue(s[..|s| - 1]) + (s[|s| - 1] as int - 48)
  }

  function ParseInt(s: Bytes): int {
    if s != [] && s[0] == MINUS then -DecimalValue(s[1..]) else DecimalValue(s)
  }

  function StripSpace(s: Bytes): Bytes {
    if s == [] then [] else (if IsSpace(s[0]) then [] else [s[0]]) + StripSpace(s[1..])
  }

  /** The first complete frame of the buffer, and how many bytes it used up. */
  function ParseOne(buf: Bytes): (r: Option<(Frame, nat)>)
    ensures r.Some? ==> 0 < r.value.1 <= |buf|
  {
    match FindBegin(buf, 0)
    case None => None
    case Some((i, e)) =>
      match ParseBody(buf[i + 2..e], buf[e + 1..])
      case None => None
      case Some((f, n)) => Some((f, e + 1 + n))
  }

  /** The frame whose begin marker has been read, and how many bytes of `after` it takes. */
  function ParseBody(nonce: Bytes, after: Bytes): (r: Option<(Frame, nat)>)
    ensures r.Some? ==> 0 < r.value.1 <= |after|
  {
    match FindEnd(after, nonce, 0)
    case None => None
    case Some((j, k)) =>
      Some((Frame(nonce, B.Decode(StripSpace(after[..j])), ParseInt(after[j + 3 + |nonce|..k])), k + 1))
  }

  /** All complete frames of the buffer, and what is left over. */
  function Drain(buf: Bytes): (seq<Frame>, Bytes)
    decreases |buf|
  {
    match ParseOne(buf)
    case None => ([], buf)
    case Some((f, n)) => var (fs, rest) := Drain(buf[n..]); ([f] + fs, rest)
  }

  class FrameParser {
    var buf: Bytes

    constructor ()
      ensures buf == []
    {
      buf := [];
    }

    method Push(chunk: Bytes) returns (frames: seq<Frame>)
      modifies this
      ensures (frames, buf) == Drain(old(buf) + chunk)
    {
      hide FindBegin, FindEnd, StripSpace, ParseInt, Begin, End, Drain;
      buf := buf + chunk;
      ghost var all := buf;
      frames := [];
      assert frames + Drain(all).0 == Drain(all).0;
      while true
        invariant Drain(all) == (frames + Drain(buf).0, Drain(buf).1)
        decreases |buf|
      {
        var begin := FindBegin(buf, 0);
        if begin.None? {
          break;
        }
        var (i, e) := begin.value;
        var nonce := buf[i + 2..e];
        var bodyStart := e + 1;
        var after := buf[bodyStart..];
        var end := FindEnd(after, nonce, 0);
        if end.None? {
          break;
        }
        var (j, k) := end.value;
        var frame := Frame(nonce, B.Decode(StripSpace(after[..j])), ParseInt(after[j + 3 + |nonce|..k]));
        var n := bodyStart + k + 1;
        assert ParseOne(buf) == Some((frame, n));
        DrainTakes(frames, buf, frame, n);
        frames := frames + [frame];
        buf := buf[n..];
      }
      DrainStops(frames, buf);
    }
  }

  lemma DrainTakes(before: seq<Frame>, buf: Bytes, f: Frame, n: nat)
    requires ParseOne(buf) == Some((f, n))
    ensures n <= |buf| && before + Drain(buf).0 == before + [f] + Drain(buf[n..]).0 && Drain(buf).1 == Drain(buf[n..]).1
  {
    hide ParseOne;
    var tail := Drain(buf[n..]);
    assert Drain(buf) == ([f] + tail.0, tail.1);
    hide Drain;
    assert before + ([f] + tail.0) == before + [f] + tail.0;
  }

  lemma DrainStops(before: seq<Frame>, buf: Bytes)
    requires ParseOne(buf) == None
    ensures (before + Drain(buf).0, Drain(buf).1) == (before, buf)
  {
    hide ParseOne;
    assert before + [] == before;
  }

  // ---------------------------------------------------------------------------
  // Chunks do not matter

  /** A leftmost begin marker stays leftmost, whatever arrives later. */
  lemma BeginIsStable(buf: Bytes, more: Bytes)
    requires FindBegin(buf, 0).Some?
    ensures FindBegin(buf + more, 0) == FindBegin(buf, 0)
  {
    hide FindBegin;
    var (i, e) := FindBegin(buf, 0).value;
    var text := buf + more;
    assert Begin(text, i, e);
    assert FindBegin(text, 0).Some?;
    var (i', e') := FindBegin(text, 0).value;
    if i' < i {
      assert IsSpace(text[e]);
      assert e' <= e;
      BeginRestricts(buf, more, i', e');
    }
    assert i' == i;
    assert IsSpace(text[e]) && IsSpace(text[e']);
    assert e' == e;
  }

  lemma BeginRestricts(buf: Bytes, more: Bytes, i: int, e: int)
    requires Begin(buf + more, i, e) && e < |buf|
    ensures Begin(buf, i, e)
  {
    assert forall k :: 0 <= k < |buf| ==> buf[k] == (buf + more)[k];
  }

  lemma EndIsStable(buf: Bytes, nonce: Bytes, more: Bytes)
    requires FindEnd(buf, nonce, 0).Some?
    ensures FindEnd(buf + more, nonce, 0) == FindEnd(buf, nonce, 0)
  {
    hide FindEnd;
    var (j, e) := FindEnd(buf, nonce, 0).value;
    var text := buf + more;
    EndExtends(buf, nonce, more, j, e);
    assert FindEnd(text, nonce, 0).Some?;
    var (j', e') := FindEnd(text, nonce, 0).value;
    EndUnique(text, nonce, j, e, j', e');
    if j' < j {
      EndRestricts(buf, nonce, more, j', e');
    }
  }

  lemma EndExtends(buf: Bytes, nonce: Bytes, more: Bytes, j: int, e: int)
    requires End(buf, nonce, j, e)
    ensures End(buf + more, nonce, j, e)
  {
    var text := buf + more;
    assert text[j + 2..j + 2 + |nonce|] == buf[j + 2..j + 2 + |nonce|];
    assert text[j + 3 + |nonce|..e] == buf[j + 3 + |nonce|..e];
  }

  lemma EndRestricts(buf: Bytes, nonce: Bytes, more: Bytes, j: int, e: int)
    requires End(buf + more, nonce, j, e) && e < |buf|
    ensures End(buf, nonce, j, e)
  {
    var text := buf + more;
    assert text[j + 2..j + 2 + |nonce|] == buf[j + 2..j + 2 + |nonce|];
    assert text[j + 3 + |nonce|..e] == buf[j + 3 + |nonce|..e];
  }

  /** An end marker that starts no later also ends no later. */
  lemma EndUnique(text: Bytes, nonce: Bytes, j: int, e: int, j': int, e': int)
    requires End(text, nonce, j, e) && End(text, nonce, j', e')
    ensures j' <= j ==> e' <= e
    ensures j <= j' ==> e <= e'
  {
    NumberHasNoSpace(text, j + 3 + |nonce|, e);
    NumberHasNoSpace(text, j' + 3 + |nonce|, e');
    assert IsSpace(text[e]) && IsSpace(text[e']);
  }

  lemma ParseOneIsStable(buf: Bytes, more: Bytes)
    requires ParseOne(buf).Some?
    ensures ParseOne(buf + more) == ParseOne(buf)
  {
    hide FindBegin, ParseBody;
    BeginIsStable(buf, more);
    var (i, e) := FindBegin(buf, 0).value;
    var text := buf + more;
    var nonce, after := buf[i + 2..e], buf[e + 1..];
    assert text[i + 2..e] == nonce && text[e + 1..] == after + more;
    ParseBodyIsStable(nonce, after, more);
  }

  lemma ParseBodyIsStable(nonce: Bytes, after: Bytes, more: Bytes)
    requires ParseBody(nonce, after).Some?
    ensures ParseBody(nonce, after + more) == ParseBody(nonce, after)
  {
    hide FindEnd, StripSpace, ParseInt;
    EndIsStable(after, nonce, more);
    var (j, k) := FindEnd(after, nonce, 0).value;
    assert (after + more)[..j] == after[..j];
    assert (after + more)[j + 3 + |nonce|..k] == after[j + 3 + |nonce|..k];
  }

  /** Parsing a stream is parsing its first part, then the left-over with the rest. */
  lemma {:induction false} DrainConcat(a: Bytes, b: Bytes)
    ensures Drain(a + b) == (Drain(a).0 + Drain(Drain(a).1 + b).0, Drain(Drain(a).1 + b).1)
    decreases |a|
  {
    hide ParseOne;
    if ParseOne(a).Some? {
      var (f, n) := ParseOne(a).value;
      ParseOneIsStable(a, b);
      assert (a + b)[n..] == a[n..] + b;
      DrainConcat(a[n..], b);
      var tail := Drain(a[n..]);
      assert [f] + (tail.0 + Drain(tail.1 + b).0) == [f] + tail.0 + Drain(tail.1 + b).0;
    } else {
      assert [] + Drain(a + b).0 == Drain(a + b).0;
    }
  }

  function Concat(chunks: seq<Bytes>): Bytes {
    if chunks == [] then [] else Concat(chunks[..|chunks| - 1]) + chunks[|chunks| - 1]
  }

  /** The frames and the buffer after pushing the chunks one by one. */
  function PushAll(chunks: seq<Bytes>): (seq<Frame>, Bytes) {
    if chunks == [] then ([], []) else
    var (fs, buf) := PushAll(chunks[..|chunks| - 1]);
    var (more, rest) := Drain(buf + chunks[|chunks| - 1]);
    (fs + more, rest)
  }

  /** For every byte stream and every way of cutting it, the frames are those of one push of it all. */
  lemma {:induction false} ChunkingIsIrrelevant(chunks: seq<Bytes>)
    ensures PushAll(chunks) == Drain(Concat(chunks))
  {
    if chunks == [] {
    } else {
      ChunkingIsIrrelevant(chunks[..|chunks| - 1]);
      DrainConcat(Concat(chunks[..|chunks| - 1]), chunks[|chunks| - 1]);
    }
  }

  // ---------------------------------------------------------------------------
  // Well-formed streams

  function Digits(n: nat): (s: Bytes)
    ensures s != [] && forall k :: 0 <= k < |s| ==> IsDigit(s[k])
  {
    if n < 10 then [48 + n] else Digits(n / 10) + [48 + n % 10]
  }

  function Decimal(n: int): Bytes {
    if n < 0 then [MINUS] + Digits(-n) else Digits(n)
  }

  lemma {:induction false} DigitsValue(n: nat)
    ensures DecimalValue(Digits(n)) == n
  {
    if n >= 10 {
      DigitsValue(n / 10);
      var s := Digits(n);
      assert s[..|s| - 1] == Digits(n / 10);
    } else {
      assert [48 + n][..0] == [];
    }
  }

  lemma DigitsSnoc(v: nat, d: nat)
    requires v > 0 && d < 10
    ensures Digits(10 * v + d) == Digits(v) + [48 + d]
  {
    assert (10 * v + d) / 10 == v && (10 * v + d) % 10 == d;
  }

  lemma {:induction false} ValueDigits(s: Bytes)
    requires s != [] && (forall k :: 0 <= k < |s| ==> IsDigit(s[k])) && (s[0] == 48 ==> |s| == 1)
    ensures DecimalValue(s) >= 0 && (s[0] != 48 ==> DecimalValue(s) > 0) && Digits(DecimalValue(s)) == s
  {
    var n := |s| - 1;
    if n == 0 {
      assert s[..0] == [] && s == [s[0]];
    } else {
      hide Digits;
      ValueDigits(s[..n]);
      DigitsSnoc(DecimalValue(s[..n]), s[n] as int - 48);
      assert s == s[..n] + [s[n]];
    }
  }

  /** A number without leading zeros is printed as it was read. */
  lemma NumberRoundTrip(s: Bytes)
    requires IsNumber(s) && (s[0] == 48 ==> |s| == 1) && (s[0] == MINUS ==> s[1] != 48)
    ensures Decimal(ParseInt(s)) == s
  {
    if s[0] == MINUS {
      ValueDigits(s[1..]);
      assert s == [s[0]] + s[1..];
    } else {
      ValueDigits(s);
    }
  }

  lemma DecimalRoundTrip(n: int)
    ensures IsNumber(Decimal(n)) && ParseInt(Decimal(n)) == n
  {
    DigitsValue(if n < 0 then -n else n);
    hide Digits, DecimalValue;
    if n < 0 {
      assert Decimal(n)[1..] == Digits(-n);
    }
  }

  predicate NoSoh(s: Bytes) {
    forall i :: 0 <= i < |s| ==> s[i] != SOH
  }

  predicate GoodNonce(s: Bytes) {
    s != [] && forall i :: 0 <= i < |s| ==> !IsSpace(s[i])
  }

  /** One command on the stream: stray bytes, the begin marker, the wrapped base64, the end marker. */
  datatype Chunk = Chunk(noise: Bytes, frame: Frame, body: Bytes)

  /** The body is the output in base64, broken into lines in any way. */
  predicate WellFormed(c: Chunk) {
    NoSoh(c.noise) && GoodNonce(c.frame.nonce) && StripSpace(c.body) == B.Encode(c.frame.stdout)
  }

  /** Lines, each ended by a newline. */
  function Lines(lines: seq<Bytes>): Bytes {
    if lines == [] then [] else lines[0] + [LF] + Lines(lines[1..])
  }

  function Joined(lines: seq<Bytes>): Bytes {
    if lines == [] then [] else lines[0] + Joined(lines[1..])
  }

  lemma {:induction false} StripConcat(a: Bytes, b: Bytes)
    ensures StripSpace(a + b) == StripSpace(a) + StripSpace(b)
  {
    if a == [] {
      assert a + b == b;
    } else {
      assert (a + b)[1..] == a[1..] + b;
      StripConcat(a[1..], b);
    }
  }

  lemma {:induction false} StripNothing(s: Bytes)
    requires forall i :: 0 <= i < |s| ==> !IsSpace(s[i])
    ensures StripSpace(s) == s
  {
    if s != [] {
      StripNothing(s[1..]);
    }
  }

  lemma {:induction false} StripLines(lines: seq<Bytes>)
    ensures StripSpace(Lines(lines)) == StripSpace(Joined(lines))
  {
    if lines != [] {
      StripLines(lines[1..]);
      StripConcat(lines[0] + [LF], Lines(lines[1..]));
      StripConcat(lines[0], [LF]);
      StripConcat(lines[0], Joined(lines[1..]));
      assert StripSpace([LF]) == [];
    }
  }

  /** The encoded output, cut into lines of any lengths, is a well-formed body. */
  lemma WrappedIsWellFormed(noise: Bytes, frame: Frame, lines: seq<Bytes>)
    requires NoSoh(noise) && GoodNonce(frame.nonce) && Joined(lines) == B.Encode(frame.stdout)
    ensures WellFormed(Chunk(noise, frame, Lines(lines)))
  {
    StripLines(lines);
    B.EncodeIsPrintable(frame.stdout);
    var body := B.Encode(frame.stdout);
    assert forall i :: 0 <= i < |body| ==> body[i] in body;
    StripNothing(body);
  }

  /** Base64 cannot be mistaken for a marker, however it is wrapped. */
  lemma BodyHasNoSoh(body: Bytes, output: Bytes)
    requires StripSpace(body) == B.Encode(output)
    ensures NoSoh(body)
  {
    B.EncodeIsPrintable(output);
    StripKeeps(body);
    assert forall i :: 0 <= i < |body| && !IsSpace(body[i]) ==> body[i] in B.Encode(output);
  }

  lemma {:induction false} StripKeeps(s: Bytes)
    ensures forall i :: 0 <= i < |s| && !IsSpace(s[i]) ==> s[i] in StripSpace(s)
  {
    if s != [] {
      StripKeeps(s[1..]);
      assert forall i :: 1 <= i < |s| ==> s[i] == s[1..][i - 1];
    }
  }

  function BeginMark(nonce: Bytes): Bytes {
    [SOH, 66] + nonce + [LF]
  }

  function EndMark(nonce: Bytes, code: int): Bytes {
    [SOH, 69] + nonce + [SP] + Decimal(code) + [LF]
  }

  function Wire(c: Chunk): Bytes {
    c.noise + BeginMark(c.frame.nonce) + (c.body + EndMark(c.frame.nonce, c.frame.exitCode))
  }

  function WireAll(cs: seq<Chunk>): Bytes {
    if cs == [] then [] else Wire(cs[0]) + WireAll(cs[1..])
  }

  lemma FindsBegin(noise: Bytes, nonce: Bytes, rest: Bytes)
    requires NoSoh(noise) && GoodNonce(nonce)
    ensures FindBegin(noise + BeginMark(nonce) + rest, 0) == Some((|noise|, |noise| + 2 + |nonce|))
  {
    hide FindBegin;
    var text := noise + BeginMark(nonce) + rest;
    var i, e := |noise|, |noise| + 2 + |nonce|;
    assert forall k :: 0 <= k < |nonce| ==> text[i + 2 + k] == nonce[k];
    assert forall k :: i + 2 <= k < e ==> text[k] == nonce[k - i - 2];
    assert Begin(text, i, e);
    assert forall j :: 0 <= j < i ==> text[j] == noise[j];
    var (i', e') := FindBegin(text, 0).value;
    assert i' == i;
    assert IsSpace(text[e']) && IsSpace(text[e]);
  }

  lemma MarkIsEnd(nonce: Bytes, code: int)
    ensures End(EndMark(nonce, code), nonce, 0, 3 + |nonce| + |Decimal(code)|)
  {
    hide Decimal, IsNumber;
    var mark := EndMark(nonce, code);
    DecimalRoundTrip(code);
    assert mark[2..2 + |nonce|] == nonce;
    assert mark[3 + |nonce|..3 + |nonce| + |Decimal(code)|] == Decimal(code);
    assert |Decimal(code)| > 0 by {
      NumberIsSome(Decimal(code));
    }
  }

  lemma NumberIsSome(s: Bytes)
    requires IsNumber(s)
    ensures s != []
  {
  }

  lemma EndShifts(before: Bytes, text: Bytes, nonce: Bytes, j: int, e: int)
    requires End(text, nonce, j, e)
    ensures End(before + text, nonce, |before| + j, |before| + e)
  {
    hide IsNumber;
    var all, i, m := before + text, |before| + j, j + 3 + |nonce|;
    assert all[i + 2..i + 2 + |nonce|] == text[j + 2..j + 2 + |nonce|];
    assert all[|before| + m..|before| + e] == text[m..e];
  }

  lemma FindsEnd(body: Bytes, nonce: Bytes, code: int, rest: Bytes)
    requires NoSoh(body)
    ensures FindEnd(body + EndMark(nonce, code) + rest, nonce, 0) ==
      Some((|body|, |body| + 3 + |nonce| + |Decimal(code)|))
  {
    hide FindEnd, Decimal, EndMark;
    var text := body + EndMark(nonce, code) + rest;
    var j, e := |body|, |body| + 3 + |nonce| + |Decimal(code)|;
    MarkIsEnd(nonce, code);
    EndShifts(body, EndMark(nonce, code), nonce, 0, 3 + |nonce| + |Decimal(code)|);
    EndExtends(body + EndMark(nonce, code), nonce, rest, j, e);
    assert forall i :: 0 <= i < j ==> text[i] == body[i];
    var (j', e') := FindEnd(text, nonce, 0).value;
    assert j' == j;
    EndUnique(text, nonce, j, e, j', e');
  }

  /** One well-formed command at the front of a stream parses to its frame and uses up its bytes. */
  lemma ParsesOne(c: Chunk, rest: Bytes)
    requires WellFormed(c)
    ensures ParseOne(Wire(c) + rest) == Some((c.frame, |Wire(c)|))
  {
    hide FindBegin, ParseBody, EndMark, BeginMark, StripSpace;
    var nonce := c.frame.nonce;
    var sent := c.body + EndMark(nonce, c.frame.exitCode);
    var tail := sent + rest;
    assert Wire(c) + rest == c.noise + BeginMark(nonce) + tail;
    FindsBegin(c.noise, nonce, tail);
    SplitsAtBegin(c.noise, nonce, tail);
    ParsesBody(c, rest);
  }

  lemma SplitsAtBegin(noise: Bytes, nonce: Bytes, tail: Bytes)
    ensures |BeginMark(nonce)| == 3 + |nonce|
    ensures (noise + BeginMark(nonce) + tail)[|noise| + 2..|noise| + 2 + |nonce|] == nonce
    ensures (noise + BeginMark(nonce) + tail)[|noise| + 2 + |nonce| + 1..] == tail
  {
  }

  lemma ParsesBody(c: Chunk, rest: Bytes)
    requires WellFormed(c)
    ensures ParseBody(c.frame.nonce, c.body + EndMark(c.frame.nonce, c.frame.exitCode) + rest) ==
      Some((c.frame, |c.body + EndMark(c.frame.nonce, c.frame.exitCode)|))
  {
    hide FindEnd, Decimal, ParseInt, StripSpace, IsNumber;
    var nonce, code := c.frame.nonce, c.frame.exitCode;
    var tail := c.body + EndMark(nonce, code) + rest;
    BodyHasNoSoh(c.body, c.frame.stdout);
    FindsEnd(c.body, nonce, code, rest);
    assert tail[..|c.body|] == c.body;
    var m := |c.body| + 3 + |nonce|;
    assert tail[m..m + |Decimal(code)|] == Decimal(code);
    DecimalRoundTrip(code);
    B.RoundTrip(c.frame.stdout);
  }

  function Frames(cs: seq<Chunk>): seq<Frame> {
    if cs == [] then [] else [cs[0].frame] + Frames(cs[1..])
  }

  /** A stream of well-formed commands, cut in any way, yields exactly their nonces, outputs and exit codes. */
  lemma StreamRoundTrip(cs: seq<Chunk>, chunks: seq<Bytes>)
    requires (forall c :: c in cs ==> WellFormed(c)) && Concat(chunks) == WireAll(cs)
    ensures PushAll(chunks) == (Frames(cs), [])
  {
    ChunkingIsIrrelevant(chunks);
    DrainAll(cs);
  }

  lemma {:induction false} DrainAll(cs: seq<Chunk>)
    requires forall c :: c in cs ==> WellFormed(c)
    ensures Drain(WireAll(cs)) == (Frames(cs), [])
  {
    hide ParseOne, WellFormed, Wire;
    if cs == [] {
      EmptyParsesNone();
    } else {
      assert cs[0] in cs;
      ParsesOne(cs[0], WireAll(cs[1..]));
      assert WireAll(cs)[|Wire(cs[0])|..] == WireAll(cs[1..]);
      DrainAll(cs[1..]);
    }
  }

  lemma EmptyParsesNone()
    ensures ParseOne([]) == None
  {
  }
}
