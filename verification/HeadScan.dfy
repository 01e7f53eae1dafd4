/** Reading just enough of a connection to route it: an incremental scan for the end of the head. */
module HeadScan {
  import opened Prelude

  const TERMINATOR: seq<byte> := [13, 10, 13, 10]

  /** Index just past the first CRLFCRLF, or -1. */
  function HeaderBlockEnd(buf: seq<byte>): int {
    if |buf| < 4 then -1
    else if buf[..4] == TERMINATOR then 4
    else if HeaderBlockEnd(buf[1..]) == -1 then -1
    else HeaderBlockEnd(buf[1..]) + 1
  }

  ghost predicate TerminatorAt(buf: seq<byte>, i: int) {
    0 <= i <= |buf| - 4 && buf[i] == 13 && buf[i + 1] == 10 && buf[i + 2] == 13 && buf[i + 3] == 10
  }

  lemma FirstFour(buf: seq<byte>)
    requires |buf| >= 4
    ensures buf[..4] == TERMINATOR <==> TerminatorAt(buf, 0)
  {
    var four := buf[..4];
    assert four == [four[0], four[1], four[2], four[3]];
  }

  predicate Contains(buf: seq<byte>) {
    HeaderBlockEnd(buf) != -1
  }

  /** It is found exactly where it first occurs, and missed only where it does not occur. */
  lemma {:induction false} HeaderBlockEndIsFirst(buf: seq<byte>)
    ensures Contains(buf) ==> TerminatorAt(buf, HeaderBlockEnd(buf) - 4)
    ensures forall i :: TerminatorAt(buf, i) ==> Contains(buf) && HeaderBlockEnd(buf) - 4 <= i
  {
    if |buf| >= 4 && buf[..4] != TERMINATOR {
      HeaderBlockEndIsFirst(buf[1..]);
      FirstFour(buf);
      forall i | TerminatorAt(buf, i) ensures TerminatorAt(buf[1..], i - 1) {
      }
    }
  }

  function Concat(chunks: seq<seq<byte>>): seq<byte> {
    if chunks == [] then [] else Concat(chunks[..|chunks| - 1]) + chunks[|chunks| - 1]
  }

  /** The last `n` bytes, or all of them. */
  function Tail(buf: seq<byte>, n: nat): seq<byte> {
    buf[if |buf| <= n then 0 else |buf| - n..]
  }

  /** A terminator in the new whole is one in the old, or shows in the carry and the new chunk. */
  lemma CarrySuffices(seen: seq<byte>, chunk: seq<byte>)
    requires !Contains(seen)
    ensures Contains(seen + chunk) <==> Contains(Tail(seen, 3) + chunk)
  {
    var whole, probe := seen + chunk, Tail(seen, 3) + chunk;
    var skip := |whole| - |probe|;
    assert probe == whole[skip..];
    HeaderBlockEndIsFirst(seen);
    HeaderBlockEndIsFirst(whole);
    HeaderBlockEndIsFirst(probe);
    if Contains(whole) {
      var i := HeaderBlockEnd(whole) - 4;
      assert i + 4 <= |seen| ==> TerminatorAt(seen, i);
      assert TerminatorAt(probe, i - skip);
    }
    if Contains(probe) {
      assert TerminatorAt(whole, HeaderBlockEnd(probe) - 4 + skip);
    }
  }

  datatype Outcome = Complete | Cap | Ended

  /** Reading stops after `k` chunks by the naive rule: re-scan everything received so far. */
  predicate StopsAt(chunks: seq<seq<byte>>, k: nat, maxBytes: nat)
    requires k <= |chunks|
  {
    Contains(Concat(chunks[..k])) || |Concat(chunks[..k])| >= maxBytes
  }

  /**
    Only the new chunk and the three bytes before it are scanned. The scan stops at exactly the
    chunk at which re-scanning everything would: `Complete` if the head has ended by then, else
    `Cap`; it returns every byte it consumed, and `Ended` only if no chunk was enough.
  */
  method ReadHead(chunks: seq<seq<byte>>, maxBytes: nat) returns (bytes: seq<byte>, used: nat, outcome: Outcome)
    ensures used <= |chunks| && bytes == Concat(chunks[..used])
    ensures forall k :: 1 <= k < used ==> !StopsAt(chunks, k, maxBytes)
    ensures !outcome.Ended? ==> used >= 1 && StopsAt(chunks, used, maxBytes)
    ensures outcome.Complete? <==> used >= 1 && Contains(bytes)
    ensures outcome.Cap? <==> used >= 1 && !Contains(bytes) && |bytes| >= maxBytes
    ensures outcome.Ended? ==> used == |chunks| && (used >= 1 ==> !StopsAt(chunks, used, maxBytes))
  {
    var kept: seq<seq<byte>> := [];
    var total := 0;
    var carry: seq<byte> := [];
    used := 0;
    while used < |chunks|
      invariant used <= |chunks| && kept == chunks[..used]
      invariant total == |Concat(kept)| && carry == Tail(Concat(kept), 3)
      invariant !Contains(Concat(kept))
      invariant forall k :: 1 <= k <= used ==> !StopsAt(chunks, k, maxBytes)
    {
      var chunk := chunks[used];
      ghost var seen := Concat(kept);
      assert chunks[..used + 1] == kept + [chunk] && (kept + [chunk])[..used] == kept;
      kept := kept + [chunk];
      total := total + |chunk|;
      used := used + 1;
      CarrySuffices(seen, chunk);
      var probe := carry + chunk;
      if Contains(probe) {
        return Concat(kept), used, Complete;
      }
      carry := Tail(probe, 3);
      assert carry == Tail(seen + chunk, 3);
      if total >= maxBytes {
        return Concat(kept), used, Cap;
      }
    }
    return Concat(kept), used, Ended;
  }
}
