/** Whole archives: canonical order, packing, reading back, and the round trip between them. */
module UstarArchive {
  import opened Prelude
  import opened Ustar

  // ---------------------------------------------------------------------------
  // Canonical order

  /** Byte-wise order of paths. */
  predicate Below(a: Bytes, b: Bytes)
    decreases |a|
  {
    if b == [] then false
    else if a == [] then true
    else if a[0] != b[0] then a[0] < b[0]
    else Below(a[1..], b[1..])
  }

  lemma {:induction false} BelowTotal(a: Bytes, b: Bytes)
    ensures a != b <==> Below(a, b) || Below(b, a)
    ensures !(Below(a, b) && Below(b, a))
    decreases |a|
  {
    if a != [] && b != [] && a[0] == b[0] {
      BelowTotal(a[1..], b[1..]);
      assert a == [a[0]] + a[1..] && b == [b[0]] + b[1..];
    }
  }

  /** Of two paths that part at `i`, the one that ends there comes first, or else the one with the smaller byte. */
  lemma {:induction false} BelowAt(a: Bytes, b: Bytes, i: nat)
    requires i <= |a| && i <= |b| && a[..i] == b[..i] && (i < |a| && i < |b| ==> a[i] != b[i])
    ensures Below(a, b) <==> i < |b| && (i == |a| || a[i] < b[i])
    decreases i
  {
    if i > 0 {
      assert a[0] == a[..i][0] == b[..i][0] == b[0];
      assert a[1..][..i - 1] == a[..i][1..] == b[..i][1..] == b[1..][..i - 1];
      BelowAt(a[1..], b[1..], i - 1);
    }
  }

  lemma {:induction false} BelowTransitive(a: Bytes, b: Bytes, c: Bytes)
    requires !Below(b, a) && !Below(c, b)
    ensures !Below(c, a)
    decreases |a|
  {
    if a != [] && b != [] && c != [] && a[0] == b[0] == c[0] {
      BelowTransitive(a[1..], b[1..], c[1..]);
    }
  }

  ghost predicate Sorted(es: seq<TarEntry>) {
    forall i, j :: 0 <= i < j < |es| ==> !Below(es[j].path, es[i].path)
  }

  /** Insert after every entry whose path is not greater. */
  function Insert(es: seq<TarEntry>, e: TarEntry): seq<TarEntry> {
    if es == [] then [e]
    else if Below(e.path, es[0].path) then [e] + es
    else [es[0]] + Insert(es[1..], e)
  }

  /** The stable sort by path. */
  function Sort(es: seq<TarEntry>): seq<TarEntry> {
    if es == [] then [] else Insert(Sort(es[..|es| - 1]), es[|es| - 1])
  }

  lemma Prepend(e: TarEntry, es: seq<TarEntry>)
    requires Sorted(es) && (es != [] ==> !Below(es[0].path, e.path))
    ensures Sorted([e] + es)
  {
    var all := [e] + es;
    forall i, j | 0 <= i < j < |all| ensures !Below(all[j].path, all[i].path) {
      if i == 0 && j > 1 {
        BelowTransitive(e.path, es[0].path, es[j - 1].path);
      }
    }
  }

  lemma {:induction false} InsertSorts(es: seq<TarEntry>, e: TarEntry)
    requires Sorted(es)
    ensures Sorted(Insert(es, e)) && multiset(Insert(es, e)) == multiset(es) + multiset{e}
    ensures Insert(es, e)[0] == e || (es != [] && Insert(es, e)[0] == es[0])
  {
    if es == [] {
    } else if Below(e.path, es[0].path) {
      BelowTotal(e.path, es[0].path);
      Prepend(e, es);
    } else {
      assert es == [es[0]] + es[1..];
      InsertSorts(es[1..], e);
      Prepend(es[0], Insert(es[1..], e));
    }
  }

  lemma {:induction false} SortSorts(es: seq<TarEntry>)
    ensures Sorted(Sort(es)) && multiset(Sort(es)) == multiset(es)
  {
    if es != [] {
      var n := |es| - 1;
      SortSorts(es[..n]);
      InsertSorts(Sort(es[..n]), es[n]);
      assert es == es[..n] + [es[n]];
    }
  }

  lemma {:induction false} InsertLast(es: seq<TarEntry>, e: TarEntry)
    requires Sorted(es + [e])
    ensures Insert(es, e) == es + [e]
  {
    if es != [] {
      var all := es + [e];
      assert all[0] == es[0] && all[|es|] == e;
      assert all[1..] == es[1..] + [e];
      assert Sorted(all[1..]);
      InsertLast(es[1..], e);
      assert es == [es[0]] + es[1..];
    }
  }

  /** A sorted list is its own sort. */
  lemma {:induction false} SortOfSorted(es: seq<TarEntry>)
    requires Sorted(es)
    ensures Sort(es) == es
  {
    if es != [] {
      var n := |es| - 1;
      SortOfSorted(es[..n]);
      assert es == es[..n] + [es[n]];
      InsertLast(es[..n], es[n]);
    }
  }

  ghost predicate DistinctPaths(es: seq<TarEntry>) {
    forall i, j :: 0 <= i < j < |es| ==> es[i].path != es[j].path
  }

  lemma SameHead(a: seq<TarEntry>, b: seq<TarEntry>)
    requires a != [] && b != [] && Sorted(a) && Sorted(b) && DistinctPaths(a) && multiset(a) == multiset(b)
    ensures a[0] == b[0]
  {
    assert a[0] in multiset(b) && b[0] in multiset(a);
    var i :| 0 <= i < |a| && a[i] == b[0];
    var j :| 0 <= j < |b| && b[j] == a[0];
    BelowTotal(a[0].path, b[0].path);
  }

  /** With distinct paths, a sorted arrangement is unique. */
  lemma {:induction false} SortedIsUnique(a: seq<TarEntry>, b: seq<TarEntry>)
    requires Sorted(a) && Sorted(b) && DistinctPaths(a) && multiset(a) == multiset(b)
    ensures a == b
  {
    hide Sorted, DistinctPaths;
    assert |a| == |multiset(a)| == |b|;
    if a != [] {
      SameHead(a, b);
      TailOf(a);
      TailOf(b);
      SortedIsUnique(a[1..], b[1..]);
      assert a == [a[0]] + a[1..] && b == [b[0]] + b[1..];
    }
  }

  lemma TailOf(a: seq<TarEntry>)
    requires a != [] && Sorted(a)
    ensures Sorted(a[1..]) && (DistinctPaths(a) ==> DistinctPaths(a[1..]))
    ensures multiset(a[1..]) == multiset(a) - multiset{a[0]}
  {
    hide Below;
    assert a == [a[0]] + a[1..];
    assert forall i :: 0 <= i < |a| - 1 ==> a[1..][i] == a[i + 1];
  }

  // ---------------------------------------------------------------------------
  // Packing

  function Padding(n: nat): nat {
    (BLOCK - n % BLOCK) % BLOCK
  }

  /** The archive of entries already in order. */
  function Pack(es: seq<TarEntry>): Result<Bytes> {
    if es == [] then Ok(Zeros(2 * BLOCK)) else
    var e := es[0];
    var s :- SplitPath(e.path);
    var rest :- Pack(es[1..]);
    Ok(Header(s, |e.content|, Mode(e)) + e.content + Zeros(Padding(|e.content|)) + rest)
  }

  function CanonicalTar(es: seq<TarEntry>): Result<Bytes> {
    Pack(Sort(es))
  }

  /** The writer as a loop that collects parts. */
  method WriteCanonicalTar(es: seq<TarEntry>) returns (r: Result<Bytes>)
    ensures r.Ok? <==> CanonicalTar(es).Ok?
    ensures r.Ok? ==> r == CanonicalTar(es)
  {
    hide Header;
    var sorted := Sort(es);
    var out: Bytes := [];
    assert sorted[0..] == sorted;
    assert Pack(sorted).Ok? ==> out + Pack(sorted).value == Pack(sorted).value;
    for i := 0 to |sorted|
      invariant CanonicalTar(es).Ok? <==> Pack(sorted[i..]).Ok?
      invariant Pack(sorted[i..]).Ok? ==> CanonicalTar(es) == Ok(out + Pack(sorted[i..]).value)
    {
      var e := sorted[i];
      assert sorted[i..][0] == e && sorted[i..][1..] == sorted[i + 1..];
      var h := WriteHeader(e.path, |e.content|, Mode(e));
      if h.Err? {
        return Err(h.reason);
      }
      ghost var before := out;
      out := out + h.value + e.content;
      var pad := Padding(|e.content|);
      if pad > 0 {
        out := out + Zeros(pad);
      }
      assert out == before + (h.value + e.content + Zeros(pad));
      if Pack(sorted[i + 1..]).Ok? {
        ghost var rest := Pack(sorted[i + 1..]).value;
        assert out + rest == before + (h.value + e.content + Zeros(pad) + rest);
      }
    }
    assert sorted[|sorted|..] == [];
    return Ok(out + Zeros(2 * BLOCK));
  }

  // ---------------------------------------------------------------------------
  // Reading

  predicate AllZero(b: Bytes) {
    forall i :: 0 <= i < |b| ==> b[i] == 0
  }

  function Blocks(size: nat): nat {
    (size + BLOCK - 1) / BLOCK * BLOCK
  }

  function Entry(info: Info, body: Bytes): TarEntry {
    TarEntry(info.path, body[..Min(info.size, |body|)], Some(info.mode))
  }

  /** Read entries until an all-zero block or the end; anything but a regular file is skipped. */
  function Untar(tar: Bytes): Result<seq<TarEntry>>
    decreases |tar|
  {
    if |tar| < BLOCK || AllZero(tar[..BLOCK]) then Ok([]) else
    var info :- ReadHeader(tar[..BLOCK]);
    var body := tar[BLOCK..];
    var rest :- Untar(body[Min(Blocks(info.size), |body|)..]);
    Ok((if info.regular then [Entry(info, body)] else []) + rest)
  }

  /** The offset after the entry whose header is at `off`. */
  function Next(off: nat, info: Info): nat {
    off + BLOCK + Blocks(info.size)
  }

  function EntryAt(tar: Bytes, off: nat, info: Info): seq<TarEntry>
    requires off + BLOCK <= |tar|
  {
    if info.regular then
      [TarEntry(info.path, tar[off + BLOCK..Min(off + BLOCK + info.size, |tar|)], Some(info.mode))]
    else []
  }

  function Rest(tar: Bytes, off: nat): Bytes {
    tar[Min(off, |tar|)..]
  }

  lemma UntarStops(tar: Bytes, off: nat)
    requires off + BLOCK > |tar| || AllZero(tar[off..off + BLOCK])
    ensures Untar(Rest(tar, off)) == Ok([])
  {
    if off + BLOCK <= |tar| {
      assert Rest(tar, off)[..BLOCK] == tar[off..off + BLOCK];
    }
  }

  lemma UntarStep(tar: Bytes, off: nat)
    requires off + BLOCK <= |tar| && !AllZero(tar[off..off + BLOCK])
    ensures var info := ReadHeader(tar[off..off + BLOCK]);
      if info.Err? then Untar(Rest(tar, off)).Err?
      else match Untar(Rest(tar, Next(off, info.value)))
        case Ok(es) => Untar(Rest(tar, off)) == Ok(EntryAt(tar, off, info.value) + es)
        case Err(_) => Untar(Rest(tar, off)).Err?
  {
    hide ReadHeader;
    hide Blocks;
    var here := Rest(tar, off);
    assert here[..BLOCK] == tar[off..off + BLOCK];
    if ReadHeader(here[..BLOCK]).Ok? {
      var info := ReadHeader(here[..BLOCK]).value;
      var body := here[BLOCK..];
      assert body == tar[off + BLOCK..];
      assert body[..Min(info.size, |body|)] == tar[off + BLOCK..Min(off + BLOCK + info.size, |tar|)];
      assert body[Min(Blocks(info.size), |body|)..] == Rest(tar, Next(off, info));
    }
  }

  /** The reader as a loop over an offset. */
  method ReadTar(tar: Bytes) returns (r: Result<seq<TarEntry>>)
    ensures r.Ok? <==> Untar(tar).Ok?
    ensures r.Ok? ==> r == Untar(tar)
  {
    hide ReadHeader;
    hide Untar;
    hide AllZero;
    var out: seq<TarEntry> := [];
    var off := 0;
    assert Rest(tar, 0) == tar;
    while off + BLOCK <= |tar|
      invariant Untar(tar).Ok? <==> Untar(Rest(tar, off)).Ok?
      invariant Untar(tar).Ok? ==> Untar(tar).value == out + Untar(Rest(tar, off)).value
      decreases |tar| - off
    {
      var h := tar[off..off + BLOCK];
      if AllZero(h) {
        break;
      }
      UntarStep(tar, off);
      var parsed := ReadHeader(h);
      if parsed.Err? {
        return Err(parsed.reason);
      }
      var info := parsed.value;
      out := out + EntryAt(tar, off, info);
      off := off + BLOCK + (info.size + BLOCK - 1) / BLOCK * BLOCK;
    }
    UntarStops(tar, off);
    assert out + [] == out;
    return Ok(out);
  }

  // ---------------------------------------------------------------------------
  // Round trip

  /** The entry that comes back. */
  function ReadBack(e: TarEntry): TarEntry {
    match SplitPath(e.path)
    case Ok(s) => TarEntry(Reread(s), e.content, Some(Mode(e) % 4096))
    case Err(_) => e
  }

  function ReadBackAll(es: seq<TarEntry>): (r: seq<TarEntry>)
    ensures |r| == |es| && forall i :: 0 <= i < |es| ==> r[i] == ReadBack(es[i])
  {
    if es == [] then [] else [ReadBack(es[0])] + ReadBackAll(es[1..])
  }

  ghost predicate SizesFit(es: seq<TarEntry>) {
    forall i :: 0 <= i < |es| ==> |es[i].content| < Pow8(11)
  }

  lemma HeaderNotZero(s: Split, size: nat, mode: nat)
    requires size < Pow8(11)
    ensures !AllZero(Header(s, size, mode))
  {
    HeaderNumbers(s, size, mode);
    assert Header(s, size, mode)[156] == ZERO;
  }

  lemma PaddingIsBlocks(n: nat)
    ensures n + Padding(n) == Blocks(n)
  {
  }

  /** One packed entry at the front of an archive is read back, and the rest is read on. */
  lemma UntarOne(s: Split, e: TarEntry, rest: Bytes)
    requires |s.name| <= 100 && |s.prefix| <= 155 && |e.content| < Pow8(11)
    ensures var tar := Header(s, |e.content|, Mode(e)) + e.content + Zeros(Padding(|e.content|)) + rest;
      && (Untar(tar).Ok? <==> Untar(rest).Ok?)
      && (Untar(rest).Ok? ==>
            Untar(tar).value == [TarEntry(Reread(s), e.content, Some(Mode(e) % 4096))] + Untar(rest).value)
  {
    hide Header;
    hide ReadHeader;
    hide Padding;
    hide Blocks;
    var n := |e.content|;
    var h := Header(s, n, Mode(e));
    var tar := h + e.content + Zeros(Padding(n)) + rest;
    HeaderNotZero(s, n, Mode(e));
    HeaderRoundTrip(s, n, Mode(e));
    PaddingIsBlocks(n);
    assert tar[..BLOCK] == h;
    var body := tar[BLOCK..];
    assert body == e.content + Zeros(Padding(n)) + rest;
    assert body[..Min(n, |body|)] == e.content;
    assert body[Min(Blocks(n), |body|)..] == rest;
  }

  lemma {:induction false} UntarPack(es: seq<TarEntry>)
    requires SizesFit(es) && Pack(es).Ok?
    ensures Untar(Pack(es).value) == Ok(ReadBackAll(es))
  {
    hide Header;
    if es == [] {
      assert AllZero(Zeros(2 * BLOCK)[..BLOCK]);
    } else {
      var e := es[0];
      SplitBounds(e.path);
      UntarPack(es[1..]);
      UntarOne(SplitPath(e.path).value, e, Pack(es[1..]).value);
    }
  }

  /** For sizes below 8^11, reading an archive gives the sorted entries, each as `ReadBack` says. */
  lemma TarRoundTrip(es: seq<TarEntry>)
    requires SizesFit(es) && CanonicalTar(es).Ok?
    ensures Untar(CanonicalTar(es).value) == Ok(ReadBackAll(Sort(es)))
  {
    SortSorts(es);
    var sorted := Sort(es);
    forall i | 0 <= i < |sorted| ensures |sorted[i].content| < Pow8(11) {
      assert sorted[i] in multiset(es);
    }
    UntarPack(sorted);
  }

  /** The entry with its default mode filled in. */
  function Filled(e: TarEntry): TarEntry {
    e.(mode := Some(Mode(e)))
  }

  function FilledAll(es: seq<TarEntry>): (r: seq<TarEntry>)
    ensures |r| == |es| && forall i :: 0 <= i < |es| ==> r[i] == Filled(es[i])
  {
    if es == [] then [] else [Filled(es[0])] + FilledAll(es[1..])
  }

  ghost predicate AllSurvive(es: seq<TarEntry>) {
    forall e :: e in es ==> Survives(e.path) && Mode(e) < 4096
  }

  lemma {:induction false} PackSplits(es: seq<TarEntry>)
    ensures Pack(es).Ok? <==> forall e :: e in es ==> SplitPath(e.path).Ok?
  {
    hide Header;
    hide SplitPath;
    if es != [] {
      PackSplits(es[1..]);
      assert es == [es[0]] + es[1..];
    }
  }

  lemma ReadBackIsFilledIff(e: TarEntry)
    requires SplitPath(e.path).Ok?
    ensures ReadBack(e) == Filled(e) <==> Survives(e.path) && Mode(e) < 4096
  {
    PathRoundTripIff(e.path);
  }

  lemma SortHolds(es: seq<TarEntry>, e: TarEntry)
    ensures e in es <==> e in Sort(es)
  {
    SortSorts(es);
    assert e in es <==> e in multiset(es);
    assert e in Sort(es) <==> e in multiset(Sort(es));
  }

  /**
    The archive reads back as its entries, sorted and with default modes filled in, exactly when every
    path survives the split and every mode is below 8^4.
  */
  lemma TarRoundTripIff(es: seq<TarEntry>)
    requires SizesFit(es) && CanonicalTar(es).Ok?
    ensures Untar(CanonicalTar(es).value) == Ok(FilledAll(Sort(es))) <==> AllSurvive(es)
  {
    hide Survives, ReadBackAll, FilledAll, AllSurvive, Untar, Pack, Sort, SplitPath;
    TarRoundTrip(es);
    PackSplits(Sort(es));
    SurviveSorted(es);
    ReadBackAllIff(Sort(es));
  }

  lemma SurviveSorted(es: seq<TarEntry>)
    ensures AllSurvive(Sort(es)) <==> AllSurvive(es)
  {
    hide Survives, Sort;
    forall e ensures e in es <==> e in Sort(es) {
      SortHolds(es, e);
    }
  }

  lemma ReadBackAllIff(es: seq<TarEntry>)
    requires forall e :: e in es ==> SplitPath(e.path).Ok?
    ensures ReadBackAll(es) == FilledAll(es) <==> AllSurvive(es)
  {
    hide Survives, ReadBack, Filled, SplitPath;
    var back, filled := ReadBackAll(es), FilledAll(es);
    forall i | 0 <= i < |es| ensures back[i] == filled[i] <==> Survives(es[i].path) && Mode(es[i]) < 4096 {
      assert es[i] in es;
      ReadBackIsFilledIff(es[i]);
    }
    if back == filled {
      forall e | e in es ensures Survives(e.path) && Mode(e) < 4096 {
        var i :| 0 <= i < |es| && es[i] == e;
        assert back[i] == filled[i];
      }
    }
  }

  /** With distinct paths the archive does not depend on the order of the entries. */
  lemma TarOfPermutation(a: seq<TarEntry>, b: seq<TarEntry>)
    requires DistinctPaths(a) && multiset(a) == multiset(b)
    ensures CanonicalTar(a) == CanonicalTar(b)
  {
    SortSorts(a);
    SortSorts(b);
    SortKeepsDistinct(a);
    SortedIsUnique(Sort(a), Sort(b));
  }

  lemma SortKeepsDistinct(es: seq<TarEntry>)
    requires DistinctPaths(es)
    ensures DistinctPaths(Sort(es))
    decreases |es|
  {
    if es != [] {
      var n := |es| - 1;
      SortKeepsDistinct(es[..n]);
      SortSorts(es[..n]);
      forall e | e in Sort(es[..n]) ensures e.path != es[n].path {
        assert e in multiset(es[..n]);
      }
      InsertKeepsDistinct(Sort(es[..n]), es[n]);
    }
  }

  lemma {:induction false} InsertKeepsDistinct(es: seq<TarEntry>, e: TarEntry)
    requires DistinctPaths(es) && forall d :: d in es ==> d.path != e.path
    ensures DistinctPaths(Insert(es, e))
    ensures forall d :: d in Insert(es, e) <==> d in es || d == e
  {
    if es == [] {
    } else if Below(e.path, es[0].path) {
      PrependDistinct(e, es);
    } else {
      assert es == [es[0]] + es[1..];
      InsertKeepsDistinct(es[1..], e);
      forall d | d in es[1..] ensures d.path != es[0].path {
      }
      PrependDistinct(es[0], Insert(es[1..], e));
    }
  }

  lemma PrependDistinct(e: TarEntry, es: seq<TarEntry>)
    requires DistinctPaths(es) && forall d :: d in es ==> d.path != e.path
    ensures DistinctPaths([e] + es)
  {
  }

  /** Two lists of entries that pack to the same bytes hold the same files. */
  lemma TarIsInjective(a: seq<TarEntry>, b: seq<TarEntry>)
    requires SizesFit(a) && SizesFit(b) && AllSurvive(a) && AllSurvive(b)
    requires CanonicalTar(a).Ok? && CanonicalTar(a) == CanonicalTar(b)
    ensures FilledAll(Sort(a)) == FilledAll(Sort(b))
  {
    TarRoundTripIff(a);
    TarRoundTripIff(b);
  }
}
