/** The one-edit test behind the detection of a misspelt tenancy switch. */
module OneEdit {

  function Min(a: nat, b: nat): nat { if a <= b then a else b }

  /** Levenshtein distance: insertions, deletions and substitutions of one character. */
  function Distance(a: string, b: string): nat
    decreases |a| + |b|
  {
    if a == [] then |b|
    else if b == [] then |a|
    else
      Min(Distance(a[1..], b) + 1,
      Min(Distance(a, b[1..]) + 1,
          Distance(a[1..], b[1..]) + if a[0] == b[0] then 0 else 1))
  }

  /** Dropping one character changes the distance by at most one. */
  lemma {:induction false} DropOne(a: string, b: string)
    ensures a != [] ==> Distance(a[1..], b) <= Distance(a, b) + 1
    ensures b != [] ==> Distance(a, b[1..]) <= Distance(a, b) + 1
    decreases |a| + |b|
  {
    if a != [] && b != [] {
      DropOne(a[1..], b);
      DropOne(a, b[1..]);
      DropOne(a[1..], b[1..]);
    }
  }

  /** A common first character never costs anything. */
  lemma SameHead(a: string, b: string)
    requires a != [] && b != [] && a[0] == b[0]
    ensures Distance(a, b) == Distance(a[1..], b[1..])
  {
    DropOne(a[1..], b);
    DropOne(a, b[1..]);
  }

  lemma {:induction false} ZeroIsEqual(a: string, b: string)
    ensures Distance(a, b) == 0 <==> a == b
    ensures Distance(a, b) >= |a| - |b| && Distance(a, b) >= |b| - |a|
    decreases |a| + |b|
  {
    if a != [] && b != [] {
      ZeroIsEqual(a[1..], b);
      ZeroIsEqual(a, b[1..]);
      ZeroIsEqual(a[1..], b[1..]);
      assert a == [a[0]] + a[1..] && b == [b[0]] + b[1..];
    }
  }

  /** At the first difference the lengths decide which single edit can still work. */
  lemma FirstDifference(a: string, b: string)
    requires a != [] && b != [] && a[0] != b[0]
    ensures |a| > |b| ==> (Distance(a, b) <= 1 <==> a[1..] == b)
    ensures |a| < |b| ==> (Distance(a, b) <= 1 <==> a == b[1..])
    ensures |a| == |b| ==> (Distance(a, b) <= 1 <==> a[1..] == b[1..])
  {
    ZeroIsEqual(a[1..], b);
    ZeroIsEqual(a, b[1..]);
    ZeroIsEqual(a[1..], b[1..]);
  }

  /** Two pointers and a count of edits decide, for all strings, whether the distance is at most one. */
  method EditDistanceAtMostOne(a: string, b: string) returns (r: bool)
    ensures r <==> Distance(a, b) <= 1
  {
    ZeroIsEqual(a, b);
    if |a| - |b| > 1 || |b| - |a| > 1 {
      return false;
    }
    var i, j, edits := 0, 0, 0;
    while i < |a| && j < |b|
      invariant 0 <= i <= |a| && 0 <= j <= |b| && 0 <= edits <= 1
      invariant edits == 0 ==> i == j && Distance(a, b) == Distance(a[i..], b[j..])
      invariant edits == 1 ==> |a| - i == |b| - j && (Distance(a, b) <= 1 <==> a[i..] == b[j..])
      decreases |a| - i + |b| - j
    {
      var x, y := a[i..], b[j..];
      assert x[1..] == a[i + 1..] && y[1..] == b[j + 1..];
      assert x == [a[i]] + x[1..] && y == [b[j]] + y[1..];
      if a[i] == b[j] {
        SameHead(x, y);
        i, j := i + 1, j + 1;
        continue;
      }
      edits := edits + 1;
      if edits > 1 {
        return false;
      }
      FirstDifference(x, y);
      if |a| > |b| {
        i := i + 1;
      } else if |a| < |b| {
        j := j + 1;
      } else {
        i, j := i + 1, j + 1;
      }
    }
    return edits + (|a| - i) + (|b| - j) <= 1;
  }
}
