/**
  Listing a subject's sessions page by page, newest first: the control plane's sorted set and
  session hashes, its page of them, and the client that walks the pages.
*/
module Ownership {
  import opened Prelude

  /** A member of the owner's sorted set; a session's score is its creation time. */
  datatype Member = Member(sid: string, score: int)

  /** The owner's sorted set, highest score first, and the sessions whose hash still exists. */
  datatype Index = Index(members: seq<Member>, live: set<string>)

  const DEFAULT_PAGE_SIZE := 50
  const MAX_PAGE_SIZE := 200

  predicate Sorted(ms: seq<Member>) {
    forall i, j :: 0 <= i < j < |ms| ==> ms[i].score >= ms[j].score
  }

  predicate Distinct(ms: seq<Member>) {
    forall i, j :: 0 <= i < j < |ms| ==> ms[i] != ms[j]
  }

  predicate Valid(ix: Index) {
    Sorted(ix.members) && Distinct(ix.members)
  }

  /** The page size a request gets. */
  function PageSize(requested: Option<real>): (limit: nat)
    ensures limit <= MAX_PAGE_SIZE
    ensures limit == 0 <==> requested.Some? && 0.0 < requested.value < 1.0
    ensures requested.None? || requested.value <= 0.0 ==> limit == 50
    ensures requested.Some? && 1.0 <= requested.value < 201.0 ==> limit as real <= requested.value < limit as real + 1.0
    ensures requested.Some? && requested.value >= 200.0 ==> limit == 200
  {
    if requested.None? || requested.value <= 0.0 then DEFAULT_PAGE_SIZE
    else if requested.value.Floor < MAX_PAGE_SIZE then requested.value.Floor
    else MAX_PAGE_SIZE
  }

  // ---------------------------------------------------------------------------
  // One page

  predicate Under(score: int, cursor: Option<int>) {
    cursor.Some? ==> score < cursor.value
  }

  /** The position of the first member under the cursor, which is exclusive. */
  function Skip(ms: seq<Member>, cursor: Option<int>, k: nat := 0): (r: nat)
    requires k <= |ms|
    ensures k <= r <= |ms|
    ensures forall i :: k <= i < r ==> !Under(ms[i].score, cursor)
    ensures r < |ms| ==> Under(ms[r].score, cursor)
    decreases |ms| - k
  {
    if k == |ms| || Under(ms[k].score, cursor) then k else Skip(ms, cursor, k + 1)
  }

  /** At most `limit` members from a position on. */
  function Range(ms: seq<Member>, k: nat, limit: nat): (r: seq<Member>)
    requires k <= |ms|
    ensures |r| == if k + limit <= |ms| then limit else |ms| - k
    ensures forall i :: 0 <= i < |r| ==> r[i] == ms[k + i]
  {
    if k + limit <= |ms| then ms[k..k + limit] else ms[k..]
  }

  function Surviving(ms: seq<Member>, live: set<string>): seq<Member> {
    if ms == [] then []
    else Surviving(ms[..|ms| - 1], live) + if ms[|ms| - 1].sid in live then [ms[|ms| - 1]] else []
  }

  datatype Page = Page(sessions: seq<Member>, next: Option<int>)

  function Last(ms: seq<Member>): int
    requires ms != []
  {
    ms[|ms| - 1].score
  }

  /** The page that starts at a position; `gone` says that its last member left the set before its score was read. */
  function PageAt(ix: Index, limit: nat, k: nat, gone: bool): Page
    requires limit > 0 && k <= |ix.members|
  {
    var ids := Range(ix.members, k, limit);
    var sessions := Surviving(ids, ix.live);
    Page(sessions,
         if |ids| < limit then None
         else if !gone then Some(Last(ids))
         else if sessions != [] then Some(Last(sessions))
         else None)
  }

  /** The page under a cursor. */
  function PageOf(ix: Index, limit: nat, cursor: Option<int>, gone: bool): Page
    requires limit > 0
  {
    PageAt(ix, limit, Skip(ix.members, cursor), gone)
  }

  lemma NoneSurvive(live: set<string>)
    ensures Surviving([], live) == []
  {
  }

  lemma SurvivingNext(ms: seq<Member>, i: nat, live: set<string>)
    requires i < |ms|
    ensures Surviving(ms[..i + 1], live) == Surviving(ms[..i], live) + if ms[i].sid in live then [ms[i]] else []
  {
    assert ms[..i + 1][..i] == ms[..i];
  }

  lemma {:induction false} SurvivingMembers(ms: seq<Member>, live: set<string>)
    ensures forall m :: m in Surviving(ms, live) <==> m in ms && m.sid in live
  {
    if ms != [] {
      SurvivingMembers(ms[..|ms| - 1], live);
      assert ms == ms[..|ms| - 1] + [ms[|ms| - 1]];
    }
  }

  lemma {:induction false} SurvivingOrder(ms: seq<Member>, live: set<string>)
    requires Sorted(ms) && Distinct(ms)
    ensures Sorted(Surviving(ms, live)) && Distinct(Surviving(ms, live))
  {
    if ms != [] {
      var init, last := ms[..|ms| - 1], ms[|ms| - 1];
      SurvivingOrder(init, live);
      SurvivingMembers(init, live);
      var r := Surviving(init, live);
      forall i | 0 <= i < |r| ensures r[i] != last && r[i].score >= last.score {
        assert r[i] in init;
        var j :| 0 <= j < |init| && init[j] == r[i];
        assert ms[j] == r[i];
      }
    }
  }

  lemma RangeOrder(ms: seq<Member>, k: nat, limit: nat)
    requires Sorted(ms) && Distinct(ms) && k <= |ms|
    ensures Sorted(Range(ms, k, limit)) && Distinct(Range(ms, k, limit))
  {
  }

  /** The members under a cursor are those from its position on. */
  lemma UnderIffAfter(ms: seq<Member>, cursor: Option<int>, i: nat)
    requires Sorted(ms) && i < |ms|
    ensures Under(ms[i].score, cursor) <==> i >= Skip(ms, cursor)
  {
    var k := Skip(ms, cursor);
    if i > k {
      assert ms[k].score >= ms[i].score;
    }
  }

  /** A page holds members under its cursor that exist, in order. */
  lemma PageHolds(ix: Index, limit: nat, cursor: Option<int>, gone: bool)
    requires Valid(ix) && limit > 0
    ensures var sessions := PageOf(ix, limit, cursor, gone).sessions;
      && Sorted(sessions) && Distinct(sessions)
      && forall m :: m in sessions ==> m in ix.members && m.sid in ix.live && Under(m.score, cursor)
  {
    var k := Skip(ix.members, cursor);
    var ids := Range(ix.members, k, limit);
    RangeOrder(ix.members, k, limit);
    SurvivingOrder(ids, ix.live);
    SurvivingMembers(ids, ix.live);
    forall m | m in ids ensures m in ix.members && Under(m.score, cursor) {
      var i :| 0 <= i < |ids| && ids[i] == m;
      UnderIffAfter(ix.members, cursor, k + i);
    }
  }

  /** A page's own cursor is a score under the one it was asked with, and no higher than any session on it. */
  lemma PageGoesDown(ix: Index, limit: nat, cursor: Option<int>, gone: bool)
    requires Valid(ix) && limit > 0 && PageOf(ix, limit, cursor, gone).next.Some?
    ensures var page := PageOf(ix, limit, cursor, gone);
      && Under(page.next.value, cursor)
      && (exists m :: m in ix.members && m.score == page.next.value)
      && forall m :: m in page.sessions ==> m.score >= page.next.value
  {
    var k := Skip(ix.members, cursor);
    var j := NextIsAScore(ix, limit, k, gone);
    UnderIffAfter(ix.members, cursor, k + j);
    NextIsLowest(ix, limit, k, gone);
  }

  /** A page's own cursor is the score of a member in its range. */
  lemma NextIsAScore(ix: Index, limit: nat, k: nat, gone: bool) returns (j: nat)
    requires limit > 0 && k <= |ix.members| && PageAt(ix, limit, k, gone).next.Some?
    ensures j < limit && k + limit <= |ix.members| && ix.members[k + j].score == PageAt(ix, limit, k, gone).next.value
  {
    var ids := Range(ix.members, k, limit);
    j := limit - 1;
    if gone {
      var sessions := PageAt(ix, limit, k, gone).sessions;
      SurvivingMembers(ids, ix.live);
      assert sessions[|sessions| - 1] in ids;
      j :| 0 <= j < |ids| && ids[j] == sessions[|sessions| - 1];
    }
    assert ids[j] == ix.members[k + j];
  }

  lemma NextIsLowest(ix: Index, limit: nat, k: nat, gone: bool)
    requires Valid(ix) && limit > 0 && k <= |ix.members| && PageAt(ix, limit, k, gone).next.Some?
    ensures var page := PageAt(ix, limit, k, gone); forall m :: m in page.sessions ==> m.score >= page.next.value
  {
    var ids := Range(ix.members, k, limit);
    RangeOrder(ix.members, k, limit);
    if gone {
      SurvivingOrder(ids, ix.live);
      LastIsLowest(PageAt(ix, limit, k, gone).sessions);
    } else {
      SurvivingMembers(ids, ix.live);
      LastIsLowest(ids);
    }
  }

  lemma LastIsLowest(ms: seq<Member>)
    requires Sorted(ms) && ms != []
    ensures forall m :: m in ms ==> m.score >= Last(ms)
  {
    forall m | m in ms ensures m.score >= Last(ms) {
      var i :| 0 <= i < |ms| && ms[i] == m;
    }
  }

  /** A member under the cursor is on the page if its hash exists, or is left for the next; only a shared score can lose it. */
  lemma PageLosesNone(ix: Index, limit: nat, cursor: Option<int>, gone: bool, m: Member)
    requires Valid(ix) && limit > 0 && Present(ix, m) && Under(m.score, cursor)
    ensures var page := PageOf(ix, limit, cursor, gone);
      m in page.sessions || (page.next.Some? && m.score < page.next.value) || (gone && page == Page([], None))
  {
    var ms, k := ix.members, Skip(ix.members, cursor);
    var ids := Range(ms, k, limit);
    var page := PageOf(ix, limit, cursor, gone);
    SurvivingMembers(ids, ix.live);
    var i :| 0 <= i < |ms| && ms[i] == m;
    UnderIffAfter(ms, cursor, i);
    if i < k + limit {
      assert ids[i - k] == m;
    } else if page.next.Some? {
      var j := NextIsAScore(ix, limit, k, gone);
      assert ms[k + j].score >= ms[i].score && ms[k + j] != ms[i] && ms[k + j] in ms;
    }
  }

  // ---------------------------------------------------------------------------
  // The server's page

  datatype Listing = Found(page: Page) | Unavailable

  /** A page as the server builds it. A size under one leaves no last member whose score it could ask for. */
  method ListByOwner(ix: Index, requested: Option<real>, cursor: Option<int>, gone: bool) returns (r: Listing)
    ensures r == if PageSize(requested) == 0 then Unavailable else Found(PageOf(ix, PageSize(requested), cursor, gone))
  {
    hide Surviving, Skip;
    var limit := PageSize(requested);
    NoneSurvive(ix.live);
    var ids := Range(ix.members, Skip(ix.members, cursor), limit);
    var sessions: seq<Member> := [];
    for i := 0 to |ids|
      invariant sessions == Surviving(ids[..i], ix.live)
    {
      SurvivingNext(ids, i, ix.live);
      if ids[i].sid in ix.live {
        sessions := sessions + [ids[i]];
      }
    }
    assert ids[..|ids|] == ids;
    var next := None;
    if |ids| == limit {
      if |ids| == 0 {
        return Unavailable;
      }
      if !gone {
        next := Some(Last(ids));
      } else if sessions != [] {
        next := Some(Last(sessions));
      }
    }
    return Found(Page(sessions, next));
  }

  // ---------------------------------------------------------------------------
  // The client's walk, while the index changes

  /** Scores are times, and a session keeps the one it was created with. */
  ghost predicate Steady(snap: nat -> Index) {
    && (forall p: nat :: Valid(snap(p)))
    && (forall p: nat, m :: m in snap(p).members ==> m.score >= 0)
    && (forall p: nat, q: nat, a, b :: a in snap(p).members && b in snap(q).members && a.sid == b.sid ==> a == b)
  }

  /** In the set, with an existing hash, and alone with its score. */
  predicate Present(ix: Index, m: Member) {
    m in ix.members && m.sid in ix.live && forall o :: o in ix.members && o.score == m.score ==> o == m
  }

  ghost predicate Stays(snap: nat -> Index, m: Member) {
    forall p: nat :: Present(snap(p), m)
  }

  /** A session that stays has been listed, or is still under the cursor. */
  ghost predicate Covered(snap: nat -> Index, sessions: seq<Member>, cursor: Option<int>) {
    forall m :: Stays(snap, m) ==> m in sessions || Under(m.score, cursor)
  }

  ghost predicate AllListed(snap: nat -> Index, sessions: seq<Member>) {
    forall m :: Stays(snap, m) ==> m in sessions
  }

  /** A page without a survivor whose last member left before its score was read: it carries no cursor. */
  predicate CutShort(ix: Index, cursor: Option<int>, gone: bool) {
    gone && PageOf(ix, 200, cursor, gone) == Page([], None)
  }

  /** What has been listed so far, at or above the cursor. */
  predicate Listed(sessions: seq<Member>, cursor: Option<int>) {
    && Sorted(sessions) && Distinct(sessions)
    && (cursor.None? ==> sessions == [])
    && (cursor.Some? ==> forall m :: m in sessions ==> m.score >= cursor.value)
  }

  datatype Walk = Sessions(sessions: seq<Member>) | RepeatedCursor | Refused

  function Top(ms: seq<Member>): int {
    if ms == [] then 0 else if Top(ms[1..]) > ms[0].score then Top(ms[1..]) else ms[0].score
  }

  lemma {:induction false} TopIsTop(ms: seq<Member>)
    ensures forall m :: m in ms ==> m.score <= Top(ms)
  {
    if ms != [] {
      TopIsTop(ms[1..]);
      assert forall m :: m in ms ==> m == ms[0] || m in ms[1..];
    }
  }

  /** The cursor that page `n` is asked under. */
  function CursorAt(snap: nat -> Index, gone: nat -> bool, n: nat): Option<int> {
    if n == 0 then None else PageOf(snap(n - 1), 200, CursorAt(snap, gone, n - 1), gone(n - 1)).next
  }

  /** The first `n` pages, one after the other. */
  function Collected(snap: nat -> Index, gone: nat -> bool, n: nat): seq<Member> {
    if n == 0 then [] else
    Collected(snap, gone, n - 1) + PageOf(snap(n - 1), 200, CursorAt(snap, gone, n - 1), gone(n - 1)).sessions
  }

  /**
    All sessions, page after page, where the index at page p is `snap(p)` and `gone(p)` says that
    page's last member left before its score was read. No cursor repeats, no session comes twice,
    and every session that stays for the whole walk is among them, unless the last page was cut
    short; then exactly those under its cursor are missing.
  */
  method AllSessions(snap: nat -> Index, gone: nat -> bool) returns (r: Walk, ghost last: nat, ghost under: Option<int>)
    requires Steady(snap)
    ensures r.Sessions? && Sorted(r.sessions) && Distinct(r.sessions)
    ensures r.sessions == Collected(snap, gone, last + 1) && under == CursorAt(snap, gone, last)
    ensures CursorAt(snap, gone, last + 1).None? && forall n :: 0 < n <= last ==> CursorAt(snap, gone, n).Some?
    ensures !CutShort(snap(last), under, gone(last)) ==> AllListed(snap, r.sessions)
    ensures CutShort(snap(last), under, gone(last)) ==>
      forall m :: Stays(snap, m) ==> (m in r.sessions <==> !Under(m.score, under))
  {
    hide PageOf, PageSize, Covered, AllListed, CutShort, Sorted, Distinct, Listed, Steady, Top, Under, Stays;
    var sessions: seq<Member> := [];
    var seen: set<int> := {};
    var cursor: Option<int> := None;
    var p: nat := 0;
    ghost var top := Top(snap(0).members) + 1;
    WalkBegins(snap);
    while true
      invariant Listed(sessions, cursor)
      invariant cursor.None? ==> p == 0 && seen == {}
      invariant cursor.Some? ==> cursor.value >= 0 && forall c :: c in seen ==> c >= cursor.value
      invariant Covered(snap, sessions, cursor)
      invariant sessions == Collected(snap, gone, p) && cursor == CursorAt(snap, gone, p)
      invariant forall n :: 0 < n <= p ==> CursorAt(snap, gone, n).Some?
      decreases if cursor.Some? then cursor.value else top
    {
      var listing := ListByOwner(snap(p), Some(200.0), cursor, gone(p));
      last, under := p, cursor;
      if listing.Unavailable? {
        return Refused, last, under;
      }
      var page := listing.page;
      WalkOrder(snap, sessions, cursor, p, gone(p));
      if CutShort(snap(p), cursor, gone(p)) {
        WalkCut(snap, sessions, cursor, p, gone(p));
      } else {
        WalkCovers(snap, sessions, cursor, p, gone(p));
      }
      sessions := sessions + page.sessions;
      if page.next.None? {
        return Sessions(sessions), last, under;
      }
      WalkGoesDown(snap, cursor, p, gone(p));
      if page.next.value in seen {
        return RepeatedCursor, last, under;
      }
      seen := seen + {page.next.value};
      cursor := page.next;
      p := p + 1;
    }
  }

  lemma WalkBegins(snap: nat -> Index)
    ensures PageSize(Some(200.0)) == 200 && Listed([], None) && Covered(snap, [], None)
  {
  }

  lemma AppendOrder(a: seq<Member>, b: seq<Member>)
    requires Sorted(a) && Distinct(a) && Sorted(b) && Distinct(b)
    requires forall x, y :: x in a && y in b ==> x.score > y.score
    ensures Sorted(a + b) && Distinct(a + b)
  {
    var c := a + b;
    forall i, j | 0 <= i < j < |c| ensures c[i].score >= c[j].score && c[i] != c[j] {
      if i < |a| <= j {
        assert c[i] in a && c[j] in b;
      }
    }
  }

  lemma WalkGoesDown(snap: nat -> Index, cursor: Option<int>, p: nat, gone: bool)
    requires Steady(snap) && PageOf(snap(p), 200, cursor, gone).next.Some?
    ensures var next := PageOf(snap(p), 200, cursor, gone).next.value;
      next >= 0 && (cursor.Some? ==> next < cursor.value) && (p == 0 ==> next <= Top(snap(0).members))
  {
    PageGoesDown(snap(p), 200, cursor, gone);
    TopIsTop(snap(p).members);
  }

  lemma WalkOrder(snap: nat -> Index, sessions: seq<Member>, cursor: Option<int>, p: nat, gone: bool)
    requires Steady(snap) && Listed(sessions, cursor)
    ensures var page := PageOf(snap(p), 200, cursor, gone);
      && Sorted(sessions + page.sessions) && Distinct(sessions + page.sessions)
      && (page.next.Some? ==> Listed(sessions + page.sessions, page.next))
  {
    var ix := snap(p);
    var page := PageOf(ix, 200, cursor, gone);
    hide PageOf, Sorted, Distinct;
    PageHolds(ix, 200, cursor, gone);
    AppendOrder(sessions, page.sessions);
    if page.next.Some? {
      PageGoesDown(ix, 200, cursor, gone);
    }
  }

  lemma WalkCovers(snap: nat -> Index, sessions: seq<Member>, cursor: Option<int>, p: nat, gone: bool)
    requires Steady(snap) && Covered(snap, sessions, cursor) && !CutShort(snap(p), cursor, gone)
    ensures var page := PageOf(snap(p), 200, cursor, gone);
      if page.next.Some? then Covered(snap, sessions + page.sessions, page.next) else AllListed(snap, sessions + page.sessions)
  {
    var page := PageOf(snap(p), 200, cursor, gone);
    hide PageOf;
    forall m | Stays(snap, m) && m !in sessions
      ensures m in page.sessions || (page.next.Some? && Under(m.score, page.next))
    {
      assert Present(snap(p), m);
      PageLosesNone(snap(p), 200, cursor, gone, m);
    }
  }

  lemma WalkCut(snap: nat -> Index, sessions: seq<Member>, cursor: Option<int>, p: nat, gone: bool)
    requires Listed(sessions, cursor) && Covered(snap, sessions, cursor) && CutShort(snap(p), cursor, gone)
    ensures var page := PageOf(snap(p), 200, cursor, gone);
      page.next.None? && forall m :: Stays(snap, m) ==> (m in sessions + page.sessions <==> !Under(m.score, cursor))
  {
    hide PageOf, Stays, Sorted, Distinct;
    assert sessions + [] == sessions;
  }

  /** A full page carries no cursor if and only if its last member left and none of its members survives. */
  lemma NoCursorIff(ix: Index, limit: nat, k: nat, gone: bool)
    requires limit > 0 && k + limit <= |ix.members|
    ensures PageAt(ix, limit, k, gone).next.None? <==>
      gone && forall m :: m in Range(ix.members, k, limit) ==> m.sid !in ix.live
  {
    var ids := Range(ix.members, k, limit);
    SurvivingMembers(ids, ix.live);
    if Surviving(ids, ix.live) != [] {
      assert Surviving(ids, ix.live)[0] in Surviving(ids, ix.live);
    }
  }

  /** A page without a surviving session whose last member leaves at that moment ends the listing early. */
  lemma GhostPageCutsShort()
    ensures var ix := Index([Member("ghost", 2), Member("alive", 1)], {"alive"});
      Valid(ix) && PageOf(ix, 1, None, true) == Page([], None) && PageOf(ix, 1, None, false).next == Some(2)
  {
    var ix := Index([Member("ghost", 2), Member("alive", 1)], {"alive"});
    var ids := Range(ix.members, Skip(ix.members, None), 1);
    assert ids == [Member("ghost", 2)];
    assert Surviving(ids, ix.live) == Surviving(ids[..0], ix.live) + [];
    assert ids[..0] == [];
  }

  // ---------------------------------------------------------------------------
  // The walk over an index at rest

  /** What the pages hold together, from a position on. */
  function Pages(ix: Index, limit: nat, k: nat): seq<Member>
    requires Valid(ix) && limit > 0 && k <= |ix.members|
    decreases |ix.members| - k
  {
    var page := PageAt(ix, limit, k, false);
    if page.next.None? then page.sessions else
    NextIsLater(ix.members, limit, k);
    page.sessions + Pages(ix, limit, Skip(ix.members, page.next))
  }

  /** The next page starts after this one, and right after it unless the boundary splits a shared score. */
  lemma NextIsLater(ms: seq<Member>, limit: nat, k: nat)
    requires Sorted(ms) && limit > 0 && k + limit <= |ms|
    ensures Skip(ms, Some(ms[k + limit - 1].score)) >= k + limit
    ensures Skip(ms, Some(ms[k + limit - 1].score)) == k + limit <==>
      k + limit == |ms| || ms[k + limit - 1].score != ms[k + limit].score
  {
    var c := Some(ms[k + limit - 1].score);
    UnderIffAfter(ms, c, k + limit - 1);
    if k + limit < |ms| {
      UnderIffAfter(ms, c, k + limit);
      assert ms[k + limit - 1].score >= ms[k + limit].score;
    }
  }

  /** No two neighbours on either side of a page boundary share a score. */
  predicate NoBoundaryTie(ms: seq<Member>, limit: nat, k: nat)
    requires limit > 0
    decreases |ms| - k
  {
    k + limit >= |ms| || (ms[k + limit - 1].score != ms[k + limit].score && NoBoundaryTie(ms, limit, k + limit))
  }

  lemma {:induction false} SurvivingConcat(a: seq<Member>, b: seq<Member>, live: set<string>)
    ensures Surviving(a + b, live) == Surviving(a, live) + Surviving(b, live)
  {
    if b == [] {
      assert a + b == a;
    } else {
      assert (a + b)[..|a + b| - 1] == a + b[..|b| - 1];
      SurvivingConcat(a, b[..|b| - 1], live);
    }
  }

  lemma {:induction false} PagesAreAll(ix: Index, limit: nat, k: nat)
    requires Valid(ix) && limit > 0 && k <= |ix.members| && NoBoundaryTie(ix.members, limit, k)
    ensures Pages(ix, limit, k) == Surviving(ix.members[k..], ix.live)
    decreases |ix.members| - k
  {
    hide Surviving, Sorted, Distinct;
    var ms := ix.members;
    if k + limit <= |ms| {
      NextIsLater(ms, limit, k);
      PagesAreAll(ix, limit, k + limit);
      assert ms[k..] == ms[k..k + limit] + ms[k + limit..];
      SurvivingConcat(ms[k..k + limit], ms[k + limit..], ix.live);
    }
  }

  /** With no score shared across a page boundary, the walk gives the sessions that exist, each once, newest first. */
  lemma WalkListsAll(ix: Index, limit: nat)
    requires Valid(ix) && limit > 0 && NoBoundaryTie(ix.members, limit, 0)
    ensures Pages(ix, limit, 0) == Surviving(ix.members, ix.live)
  {
    PagesAreAll(ix, limit, 0);
    assert ix.members[0..] == ix.members;
  }

  lemma {:induction false} AllSurvive(ms: seq<Member>, live: set<string>)
    requires forall m :: m in ms ==> m.sid in live
    ensures Surviving(ms, live) == ms
  {
    if ms != [] {
      var init, last := ms[..|ms| - 1], ms[|ms| - 1];
      assert last in ms;
      forall m | m in init ensures m.sid in live {
        assert m in ms;
      }
      AllSurvive(init, live);
      assert ms == init + [last];
    }
  }

  lemma {:induction false} PagesAreNoMore(ix: Index, limit: nat, k: nat)
    requires Valid(ix) && limit > 0 && k <= |ix.members| && forall m :: m in ix.members ==> m.sid in ix.live
    ensures |Pages(ix, limit, k)| <= |ix.members| - k
    ensures |Pages(ix, limit, k)| == |ix.members| - k ==> NoBoundaryTie(ix.members, limit, k)
    decreases |ix.members| - k
  {
    hide Surviving, Sorted, Distinct;
    var ms := ix.members;
    AllSurvive(Range(ms, k, limit), ix.live);
    if k + limit <= |ms| {
      NextIsLater(ms, limit, k);
      PagesAreNoMore(ix, limit, Skip(ms, Some(ms[k + limit - 1].score)));
    }
  }

  // With ghosts among the members, only what is skipped and exists is missed.

  /** At each page boundary, the members passed over for sharing the last one's score have no hash. */
  predicate NoLiveSkipped(ix: Index, limit: nat, k: nat)
    requires Valid(ix) && limit > 0 && k <= |ix.members|
    decreases |ix.members| - k
  {
    k + limit > |ix.members| ||
    var next := Skip(ix.members, Some(ix.members[k + limit - 1].score));
    NextIsLater(ix.members, limit, k);
    (forall i :: k + limit <= i < next ==> ix.members[i].sid !in ix.live) && NoLiveSkipped(ix, limit, next)
  }

  /** What survives from a position on: the page's, the skipped ones', and that of the next position on. */
  lemma SurvivingParts(ix: Index, limit: nat, k: nat, next: nat)
    requires k + limit <= next <= |ix.members|
    ensures var ms := ix.members;
      Surviving(ms[k..], ix.live) ==
      Surviving(ms[k..k + limit], ix.live) + (Surviving(ms[k + limit..next], ix.live) + Surviving(ms[next..], ix.live))
  {
    hide Surviving;
    var ms := ix.members;
    assert ms[k..] == ms[k..k + limit] + ms[k + limit..] && ms[k + limit..] == ms[k + limit..next] + ms[next..];
    SurvivingConcat(ms[k..k + limit], ms[k + limit..], ix.live);
    SurvivingConcat(ms[k + limit..next], ms[next..], ix.live);
  }

  lemma NoneLiveIff(ix: Index, from: nat, to: nat)
    requires from <= to <= |ix.members|
    ensures Surviving(ix.members[from..to], ix.live) == [] <==> forall i :: from <= i < to ==> ix.members[i].sid !in ix.live
  {
    var part := ix.members[from..to];
    SurvivingMembers(part, ix.live);
    if Surviving(part, ix.live) == [] {
      forall i | from <= i < to ensures ix.members[i].sid !in ix.live {
        assert part[i - from] in part;
      }
    } else {
      var m := Surviving(part, ix.live)[0];
      assert m in Surviving(part, ix.live);
      var j :| 0 <= j < |part| && part[j] == m;
      assert ix.members[from + j] == m;
    }
  }

  lemma {:induction false} PagesMissOnlySkipped(ix: Index, limit: nat, k: nat)
    requires Valid(ix) && limit > 0 && k <= |ix.members|
    ensures |Pages(ix, limit, k)| <= |Surviving(ix.members[k..], ix.live)|
    ensures Pages(ix, limit, k) == Surviving(ix.members[k..], ix.live) <==> NoLiveSkipped(ix, limit, k)
    decreases |ix.members| - k
  {
    hide Surviving, Sorted, Distinct, Pages, NoLiveSkipped, Skip, Range;
    var ms := ix.members;
    PagesUnfold(ix, limit, k);
    if k + limit <= |ms| {
      var next := Skip(ms, Some(ms[k + limit - 1].score));
      NextIsLater(ms, limit, k);
      PagesMissOnlySkipped(ix, limit, next);
      SurvivingParts(ix, limit, k, next);
      NoneLiveIff(ix, k + limit, next);
      var page, skipped := Surviving(ms[k..k + limit], ix.live), Surviving(ms[k + limit..next], ix.live);
      SplitEqual(page, Pages(ix, limit, next), skipped, Surviving(ms[next..], ix.live));
    }
  }

  lemma PagesUnfold(ix: Index, limit: nat, k: nat)
    requires Valid(ix) && limit > 0 && k <= |ix.members|
    ensures k + limit > |ix.members| ==> Pages(ix, limit, k) == Surviving(ix.members[k..], ix.live) && NoLiveSkipped(ix, limit, k)
    ensures k + limit <= |ix.members| ==>
      var next := Skip(ix.members, Some(ix.members[k + limit - 1].score));
      && k + limit <= next
      && Pages(ix, limit, k) == Surviving(ix.members[k..k + limit], ix.live) + Pages(ix, limit, next)
      && (NoLiveSkipped(ix, limit, k) <==>
            (forall i :: k + limit <= i < next ==> ix.members[i].sid !in ix.live) && NoLiveSkipped(ix, limit, next))
  {
    hide Surviving, Sorted, Distinct;
    if k + limit <= |ix.members| {
      NextIsLater(ix.members, limit, k);
    }
  }

  lemma SplitEqual<T>(page: seq<T>, got: seq<T>, skipped: seq<T>, rest: seq<T>)
    requires |got| <= |rest|
    ensures page + got == page + (skipped + rest) <==> skipped == [] && got == rest
  {
    if page + got == page + (skipped + rest) {
      assert |got| == |skipped + rest|;
      assert skipped == [];
      assert skipped + rest == rest;
      assert forall i :: 0 <= i < |got| ==> got[i] == (page + got)[|page| + i] == rest[i];
    }
    if skipped == [] {
      assert skipped + rest == rest;
    }
  }

  /** The walk over an index at rest lists exactly the sessions that exist if and only if none of them is skipped at a shared score. */
  lemma CompleteIff(ix: Index, limit: nat)
    requires Valid(ix) && limit > 0
    ensures Pages(ix, limit, 0) == Surviving(ix.members, ix.live) <==> NoLiveSkipped(ix, limit, 0)
  {
    PagesMissOnlySkipped(ix, limit, 0);
    assert ix.members[0..] == ix.members;
  }

  /** When every session exists, that is: if and only if no page boundary splits a shared score. */
  lemma CompleteWithoutGhostsIff(ix: Index, limit: nat)
    requires Valid(ix) && limit > 0 && forall m :: m in ix.members ==> m.sid in ix.live
    ensures Pages(ix, limit, 0) == ix.members <==> NoBoundaryTie(ix.members, limit, 0)
  {
    if NoBoundaryTie(ix.members, limit, 0) {
      WalkListsAll(ix, limit);
      AllSurvive(ix.members, ix.live);
    } else {
      PagesAreNoMore(ix, limit, 0);
    }
  }
}
