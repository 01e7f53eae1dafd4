/**
  Content identity of a configuration bundle: the digest of its archive without the lockfile, and
  the content-addressed store that checks it on the way in and on the way out. The hash is any
  function of the archive's bytes; compression in the store is left out.
*/
module ConfigBundle {
  import opened Prelude
  import opened Ustar
  import opened UstarArchive

  type Digest = string

  /** "lockfile.json" */
  const LOCKFILE: Bytes := [108, 111, 99, 107, 102, 105, 108, 101, 46, 106, 115, 111, 110]

  function WithoutLockfile(es: seq<TarEntry>): seq<TarEntry> {
    if es == [] then [] else
    var rest := WithoutLockfile(es[..|es| - 1]);
    if es[|es| - 1].path == LOCKFILE then rest else rest + [es[|es| - 1]]
  }

  function ContentDigest(hash: Bytes -> Digest, es: seq<TarEntry>): Result<Digest> {
    var tar :- CanonicalTar(WithoutLockfile(es));
    Ok(hash(tar))
  }

  /** The digest of an archive's own content. */
  function DigestOfTar(hash: Bytes -> Digest, tar: Bytes): Result<Digest> {
    var es :- Untar(tar);
    ContentDigest(hash, es)
  }

  /** The packed bundle: the entries and a lockfile that records their digest. */
  function BundleTar(es: seq<TarEntry>, lockfile: Bytes): Result<Bytes> {
    CanonicalTar(es + [TarEntry(LOCKFILE, lockfile, None)])
  }

  // ---------------------------------------------------------------------------
  // The digest survives packing and reading

  lemma {:induction false} WithoutHolds(es: seq<TarEntry>)
    ensures forall e :: e in WithoutLockfile(es) <==> e in es && e.path != LOCKFILE
  {
    if es != [] {
      WithoutHolds(es[..|es| - 1]);
      assert es == es[..|es| - 1] + [es[|es| - 1]];
    }
  }

  lemma {:induction false} WithoutConcat(a: seq<TarEntry>, b: seq<TarEntry>)
    ensures WithoutLockfile(a + b) == WithoutLockfile(a) + WithoutLockfile(b)
  {
    if b == [] {
      assert a + b == a;
    } else {
      WithoutConcat(a, b[..|b| - 1]);
      assert (a + b)[..|a + b| - 1] == a + b[..|b| - 1];
    }
  }

  lemma WithoutOne(e: TarEntry)
    ensures WithoutLockfile([e]) == if e.path == LOCKFILE then [] else [e]
  {
    assert [e][..0] == [];
  }

  /** An entry below all of a sorted list is inserted at its front. */
  lemma InsertFront(es: seq<TarEntry>, e: TarEntry)
    requires es != [] ==> Below(e.path, es[0].path)
    ensures Insert(es, e) == [e] + es
  {
  }

  /** In a sorted list whose head is above `e`, everything is above `e`. */
  lemma AllAbove(es: seq<TarEntry>, e: TarEntry)
    requires es != [] && Sorted(es) && Below(e.path, es[0].path)
    ensures forall d :: d in es ==> Below(e.path, d.path)
  {
    forall d | d in es ensures Below(e.path, d.path) {
      var i :| 0 <= i < |es| && es[i] == d;
      BelowTotal(e.path, es[0].path);
      BelowTotal(e.path, d.path);
      if i > 0 && !Below(e.path, d.path) {
        BelowTransitive(es[0].path, d.path, e.path);
      }
    }
  }

  lemma {:induction false} WithoutInsert(es: seq<TarEntry>, e: TarEntry)
    requires Sorted(es)
    ensures WithoutLockfile(Insert(es, e)) ==
      if e.path == LOCKFILE then WithoutLockfile(es) else Insert(WithoutLockfile(es), e)
  {
    WithoutOne(e);
    if es == [] {
      assert WithoutLockfile([]) == [];
    } else if Below(e.path, es[0].path) {
      WithoutConcat([e], es);
      AllAbove(es, e);
      WithoutHolds(es);
      var kept := WithoutLockfile(es);
      assert kept != [] ==> kept[0] in kept;
      InsertFront(kept, e);
    } else {
      var x, tail := es[0], es[1..];
      assert es == [x] + tail;
      WithoutInsert(tail, e);
      WithoutConcat([x], Insert(tail, e));
      WithoutConcat([x], tail);
      WithoutOne(x);
      if x.path == LOCKFILE {
        assert [] + WithoutLockfile(tail) == WithoutLockfile(tail);
        assert [] + WithoutLockfile(Insert(tail, e)) == WithoutLockfile(Insert(tail, e));
      } else {
        assert ([x] + WithoutLockfile(tail))[1..] == WithoutLockfile(tail);
      }
    }
  }

  /** Dropping the lockfile and sorting commute. */
  lemma {:induction false} WithoutSort(es: seq<TarEntry>)
    ensures WithoutLockfile(Sort(es)) == Sort(WithoutLockfile(es))
  {
    if es != [] {
      var n := |es| - 1;
      WithoutSort(es[..n]);
      SortSorts(es[..n]);
      WithoutInsert(Sort(es[..n]), es[n]);
      var kept := WithoutLockfile(es[..n]);
      if es[n].path != LOCKFILE {
        assert (kept + [es[n]])[..|kept|] == kept;
      }
    }
  }

  lemma {:induction false} WithoutReadBack(es: seq<TarEntry>)
    requires forall e :: e in es ==> ReadBack(e).path == e.path
    ensures WithoutLockfile(ReadBackAll(es)) == ReadBackAll(WithoutLockfile(es))
  {
    if es != [] {
      var n := |es| - 1;
      WithoutReadBack(es[..n]);
      var back := ReadBackAll(es);
      assert back[..n] == ReadBackAll(es[..n]);
      assert es[n] in es && back[n] == ReadBack(es[n]);
      var kept := WithoutLockfile(es[..n]);
      assert ReadBackAll(kept + [es[n]]) == ReadBackAll(kept) + [back[n]];
    }
  }

  /** Packing depends on a mode only through its low twelve bits. */
  lemma {:induction false} PackReadBack(es: seq<TarEntry>)
    requires forall e :: e in es ==> SplitPath(e.path).Ok? && ReadBack(e).path == e.path
    ensures Pack(ReadBackAll(es)) == Pack(es)
  {
    hide SplitPath, Header, Zeros;
    if es != [] {
      PackReadBack(es[1..]);
      var e, b := es[0], ReadBack(es[0]);
      assert e in es;
      assert ReadBackAll(es)[1..] == ReadBackAll(es[1..]);
      assert Mode(b) % 4096 == Mode(e) % 4096;
      HeaderByMode(SplitPath(e.path).value, |e.content|, Mode(b), Mode(e));
    }
  }

  lemma HeaderByMode(s: Split, size: nat, m: nat, n: nat)
    requires m % 4096 == n % 4096
    ensures Header(s, size, m) == Header(s, size, n)
  {
    hide Put;
  }

  ghost predicate Bundleable(es: seq<TarEntry>) {
    forall e :: e in es ==> SplitPath(e.path).Ok? && Survives(e.path) && |e.content| < Pow8(11)
  }

  lemma ReadBackKeepsPath(e: TarEntry)
    requires SplitPath(e.path).Ok? && Survives(e.path)
    ensures ReadBack(e).path == e.path
  {
    PathRoundTripIff(e.path);
  }

  lemma BundleTarOk(es: seq<TarEntry>, lockfile: Bytes)
    requires Bundleable(es)
    ensures BundleTar(es, lockfile).Ok?
  {
    var all := es + [TarEntry(LOCKFILE, lockfile, None)];
    forall e | e in Sort(all) ensures SplitPath(e.path).Ok? {
      SortHolds(all, e);
    }
    PackSplits(Sort(all));
  }

  /** Read-back entries pack as the originals do, once sorted. */
  lemma RepackSorted(es: seq<TarEntry>)
    requires Bundleable(es)
    ensures CanonicalTar(ReadBackAll(Sort(es))) == CanonicalTar(es)
  {
    var sorted := Sort(es);
    SortSorts(es);
    forall e | e in sorted ensures SplitPath(e.path).Ok? && ReadBack(e).path == e.path {
      SortHolds(es, e);
      ReadBackKeepsPath(e);
    }
    var back := ReadBackAll(sorted);
    assert Sorted(back) by {
      forall i, j | 0 <= i < j < |back| ensures !Below(back[j].path, back[i].path) {
        assert sorted[i] in sorted && sorted[j] in sorted;
      }
    }
    SortOfSorted(back);
    PackReadBack(sorted);
  }

  /** Of a bundle read back, all but the lockfile is the sorted content read back. */
  lemma ContentOfBundle(es: seq<TarEntry>, lock: TarEntry)
    requires Bundleable(es + [lock]) && lock.path == LOCKFILE
    ensures WithoutLockfile(ReadBackAll(Sort(es + [lock]))) == ReadBackAll(Sort(WithoutLockfile(es)))
  {
    hide SplitPath;
    hide Survives;
    var all := es + [lock];
    assert all[..|es|] == es;
    assert WithoutLockfile(all) == WithoutLockfile(es);
    WithoutSort(all);
    forall e | e in Sort(all) ensures ReadBack(e).path == e.path {
      SortHolds(all, e);
      ReadBackKeepsPath(e);
    }
    WithoutReadBack(Sort(all));
  }

  lemma ContentPacks(es: seq<TarEntry>)
    requires Bundleable(es)
    ensures Bundleable(WithoutLockfile(es)) && CanonicalTar(WithoutLockfile(es)).Ok?
  {
    hide SplitPath;
    hide Survives;
    WithoutHolds(es);
    var content := WithoutLockfile(es);
    forall e | e in Sort(content) ensures SplitPath(e.path).Ok? {
      SortHolds(content, e);
    }
    PackSplits(Sort(content));
  }

  /**
    A packed bundle, read back, has the same content digest as the entries had before the lockfile
    was added, whatever the lockfile says.
  */
  lemma DigestSurvivesPacking(hash: Bytes -> Digest, es: seq<TarEntry>, lockfile: Bytes)
    requires Bundleable(es) && |lockfile| < Pow8(11)
    ensures BundleTar(es, lockfile).Ok? && ContentDigest(hash, es).Ok?
    ensures DigestOfTar(hash, BundleTar(es, lockfile).value) == ContentDigest(hash, es)
  {
    hide SplitPath;
    hide Untar;
    hide Pack;
    hide Sort;
    hide WithoutLockfile;
    var lock := TarEntry(LOCKFILE, lockfile, None);
    BundleTarOk(es, lockfile);
    LockfileIsBundleable();
    assert SizesFit(es + [lock]);
    TarRoundTrip(es + [lock]);
    ContentOfBundle(es, lock);
    ContentPacks(es);
    RepackSorted(WithoutLockfile(es));
  }

  lemma LockfileIsBundleable()
    ensures SplitPath(LOCKFILE).Ok? && Survives(LOCKFILE)
  {
  }

  // ---------------------------------------------------------------------------
  // The store

  datatype PutOutcome = Mismatch | Present | Uploaded
  datatype GetOutcome = NotFound | Corrupt | Found(tar: Bytes)

  class BundleStore {
    const hash: Bytes -> Digest
    var bundles: map<Digest, Bytes>

    /** Everything stored hashes to its key. */
    ghost predicate Valid()
      reads this
    {
      forall d :: d in bundles ==> DigestOfTar(hash, bundles[d]) == Ok(d)
    }

    constructor (hash: Bytes -> Digest)
      ensures Valid() && bundles == map[] && this.hash == hash
    {
      this.hash := hash;
      bundles := map[];
    }

    method TarDigest(tar: Bytes) returns (r: Result<Digest>)
      ensures r.Ok? <==> DigestOfTar(hash, tar).Ok?
      ensures r.Ok? ==> r == DigestOfTar(hash, tar)
    {
      var es := ReadTar(tar);
      if es.Err? {
        return Err(es.reason);
      }
      var content := WriteCanonicalTar(WithoutLockfile(es.value));
      if content.Err? {
        return Err(content.reason);
      }
      return Ok(hash(content.value));
    }

    /** Verify first; then an existing key is left alone and a new one is written. */
    method PutBundle(d: Digest, tar: Bytes) returns (r: PutOutcome)
      requires Valid()
      modifies this
      ensures Valid()
      ensures r.Mismatch? <==> DigestOfTar(hash, tar) != Ok(d)
      ensures r.Mismatch? ==> bundles == old(bundles)
      ensures r.Present? ==> d in old(bundles) && bundles == old(bundles)
      ensures r.Uploaded? ==> d !in old(bundles) && bundles == old(bundles)[d := tar]
    {
      var actual := TarDigest(tar);
      if actual.Err? || actual.value != d {
        return Mismatch;
      }
      if d in bundles {
        return Present;
      }
      bundles := bundles[d := tar];
      return Uploaded;
    }

    method GetBundle(d: Digest) returns (r: GetOutcome)
      ensures r.NotFound? <==> d !in bundles
      ensures r.Found? ==> r.tar == bundles[d] && DigestOfTar(hash, r.tar) == Ok(d)
      ensures Valid() && d in bundles ==> r.Found?
    {
      if d !in bundles {
        return NotFound;
      }
      var tar := bundles[d];
      var actual := TarDigest(tar);
      if actual.Err? || actual.value != d {
        return Corrupt;
      }
      return Found(tar);
    }

    /**
      Promote a built bundle and fetch it: it is always accepted, and what comes back has its digest.
      A bundle not seen before comes back byte for byte; otherwise the first archive stored under
      that digest does, with the lockfile it had.
    */
    method PromoteAndFetch(es: seq<TarEntry>, lockfile: Bytes) returns (d: Digest, tar: Bytes)
      requires Valid() && Bundleable(es) && |lockfile| < Pow8(11)
      modifies this
      ensures Valid()
      ensures ContentDigest(hash, es) == Ok(d) && DigestOfTar(hash, tar) == Ok(d)
      ensures d !in old(bundles) ==> Ok(tar) == BundleTar(es, lockfile) && bundles == old(bundles)[d := tar]
      ensures d in old(bundles) ==> tar == old(bundles)[d] && bundles == old(bundles)
    {
      DigestSurvivesPacking(hash, es, lockfile);
      var packed := WriteCanonicalTar(es + [TarEntry(LOCKFILE, lockfile, None)]);
      var content := WriteCanonicalTar(WithoutLockfile(es));
      d := hash(content.value);
      var put := PutBundle(d, packed.value);
      var got := GetBundle(d);
      tar := got.tar;
    }
  }

  /** If the hash tells the two archives apart, an equal digest means equal files. */
  lemma DigestIdentifiesContent(hash: Bytes -> Digest, a: seq<TarEntry>, b: seq<TarEntry>)
    requires Bundleable(a) && Bundleable(b) && AllSurvive(a) && AllSurvive(b)
    requires ContentDigest(hash, a).Ok? && ContentDigest(hash, a) == ContentDigest(hash, b)
    requires var x, y := CanonicalTar(WithoutLockfile(a)), CanonicalTar(WithoutLockfile(b));
      x.Ok? && y.Ok? && hash(x.value) == hash(y.value) ==> x == y
    ensures FilledAll(Sort(WithoutLockfile(a))) == FilledAll(Sort(WithoutLockfile(b)))
  {
    WithoutHolds(a);
    WithoutHolds(b);
    assert hash(CanonicalTar(WithoutLockfile(a)).value) == hash(CanonicalTar(WithoutLockfile(b)).value);
    TarIsInjective(WithoutLockfile(a), WithoutLockfile(b));
  }
}
