/** The dead letter table, its paged listing, and what a listing can read. */
module DeadLetters {
  import opened Domain

  /** A NULL column is None. */
  datatype DeadLetter = DeadLetter(
    id: nat,
    eventId: string,
    eventType: string,
    payload: string,
    failureReason: string,
    createdAt: int,
    processedAt: Option<int>,
    processingResult: Option<string>)

  ghost predicate Descending(s: seq<DeadLetter>) {
    forall j, k :: 0 <= j < k < |s| ==> s[j].createdAt >= s[k].createdAt
  }

  /** Any order SQL may return for "all rows, newest first": ties fall either way. */
  ghost predicate NewestFirst(rows: seq<DeadLetter>, listing: seq<DeadLetter>) {
    && multiset(listing) == multiset(rows)
    && Descending(listing)
  }

  function Min(a: nat, b: nat): nat { if a <= b then a else b }

  function Page(listing: seq<DeadLetter>, limit: nat, offset: nat): seq<DeadLetter> {
    var from := Min(offset, |listing|);
    listing[from..Min(from + limit, |listing|)]
  }

  /** A page is the letters from the offset on, up to the limit or the end. */
  lemma PageIsSlice(listing: seq<DeadLetter>, limit: nat, offset: nat)
    ensures
      |Page(listing, limit, offset)| ==
      if offset >= |listing| then 0 else if |listing| - offset < limit then |listing| - offset else limit
    ensures
      forall k :: 0 <= k < |Page(listing, limit, offset)| ==> Page(listing, limit, offset)[k] == listing[offset + k]
  {
  }

  /** The pages of one listing at offsets 0, L, 2L, ... */
  function Pages(listing: seq<DeadLetter>, limit: nat, n: nat): seq<seq<DeadLetter>> {
    seq(n, k requires 0 <= k < n => Page(listing, limit, k * limit))
  }

  /** What a caller sees of its pages, one after the other. */
  function Joined(pages: seq<seq<DeadLetter>>): seq<DeadLetter> {
    if pages == [] then [] else Joined(pages[..|pages| - 1]) + pages[|pages| - 1]
  }

  lemma PageExtends(listing: seq<DeadLetter>, limit: nat, offset: nat)
    ensures
      listing[..Min(offset, |listing|)] + Page(listing, limit, offset) == listing[..Min(offset + limit, |listing|)]
  {
  }

  lemma LastPage(listing: seq<DeadLetter>, limit: nat, n: nat)
    requires n > 0
    ensures
      Joined(Pages(listing, limit, n)) == Joined(Pages(listing, limit, n - 1)) + Page(listing, limit, (n - 1) * limit)
  {
    assert Pages(listing, limit, n)[..n - 1] == Pages(listing, limit, n - 1);
  }

  lemma {:induction false} PagesAreAPrefix(listing: seq<DeadLetter>, limit: nat, n: nat)
    ensures Joined(Pages(listing, limit, n)) == listing[..Min(n * limit, |listing|)]
  {
    if n > 0 {
      PagesAreAPrefix(listing, limit, n - 1);
      LastPage(listing, limit, n);
      PageExtends(listing, limit, (n - 1) * limit);
      assert (n - 1) * limit + limit == n * limit;
    }
  }

  lemma PagesJoin(listing: seq<DeadLetter>, limit: nat, n: nat)
    requires n * limit >= |listing|
    ensures Joined(Pages(listing, limit, n)) == listing
  {
    PagesAreAPrefix(listing, limit, n);
  }

  /** Reading on until an offset past the end yields every dead letter exactly
      once, newest first, as long as the order of ties stays the same. */
  lemma PagesCoverTheListing(rows: seq<DeadLetter>, listing: seq<DeadLetter>, limit: nat, n: nat)
    requires NewestFirst(rows, listing) && n * limit >= |listing|
    ensures Joined(Pages(listing, limit, n)) == listing && multiset(Joined(Pages(listing, limit, n))) == multiset(rows)
  {
    PagesJoin(listing, limit, n);
  }

  // ---- when the order of ties cannot matter ----

  ghost predicate DistinctTimes(rows: seq<DeadLetter>) {
    forall j, k :: 0 <= j < k < |rows| ==> rows[j].createdAt != rows[k].createdAt
  }

  ghost predicate DistinctIds(rows: seq<DeadLetter>) {
    forall j, k :: 0 <= j < k < |rows| ==> rows[j].id != rows[k].id
  }

  ghost predicate OneListing(rows: seq<DeadLetter>) {
    forall a, b :: NewestFirst(rows, a) && NewestFirst(rows, b) ==> a == b
  }

  lemma SameHead(a: seq<DeadLetter>, b: seq<DeadLetter>)
    requires multiset(a) == multiset(b) && a != [] && b != [] && DistinctTimes(a) && Descending(a) && Descending(b)
    ensures a[0] == b[0]
  {
    assert a[0] in multiset(b) && b[0] in multiset(a);
    var j :| 0 <= j < |b| && b[j] == a[0];
    var k :| 0 <= k < |a| && a[k] == b[0];
  }

  lemma SameTails(a: seq<DeadLetter>, b: seq<DeadLetter>)
    requires multiset(a) == multiset(b) && a != [] && b != [] && a[0] == b[0]
    ensures multiset(a[1..]) == multiset(b[1..])
  {
    assert a == [a[0]] + a[1..] && b == [b[0]] + b[1..];
    assert multiset(a[1..]) == multiset(a) - multiset{a[0]};
    assert multiset(b[1..]) == multiset(b) - multiset{b[0]};
  }

  lemma {:induction false} SameSortedListing(a: seq<DeadLetter>, b: seq<DeadLetter>)
    requires multiset(a) == multiset(b) && DistinctTimes(a) && Descending(a) && Descending(b)
    ensures a == b
    decreases |a|
  {
    assert |a| == |multiset(a)| == |multiset(b)| == |b|;
    if a != [] {
      SameHead(a, b);
      SameTails(a, b);
      SameSortedListing(a[1..], b[1..]);
      assert a == [a[0]] + a[1..] && b == [b[0]] + b[1..];
    }
  }

  /** An element at two positions is in the sequence twice, and the other way round. */
  lemma TwiceCounted(s: seq<DeadLetter>, p: nat, q: nat)
    requires p < q < |s| && s[p] == s[q]
    ensures multiset(s)[s[p]] >= 2
  {
    assert s == s[..q] + s[q..];
    assert s[p] == s[..q][p] && s[p] == s[q..][0];
    assert s[p] in multiset(s[..q]) && s[p] in multiset(s[q..]);
  }

  lemma TwiceFound(s: seq<DeadLetter>, x: DeadLetter) returns (p: nat, q: nat)
    requires multiset(s)[x] >= 2
    ensures p < q < |s| && s[p] == s[q] == x
  {
    assert x in multiset(s);
    p :| 0 <= p < |s| && s[p] == x;
    assert s == s[..p] + [x] + s[p + 1..];
    assert x in multiset(s[..p]) + multiset(s[p + 1..]);
    q :| 0 <= q < |s| && q != p && s[q] == x;
    if q < p { p, q := q, p; }
  }

  lemma TimesOfPermutation(a: seq<DeadLetter>, b: seq<DeadLetter>)
    requires multiset(a) == multiset(b) && DistinctTimes(a)
    ensures DistinctTimes(b)
  {
    forall j, k | 0 <= j < k < |b| ensures b[j].createdAt != b[k].createdAt {
      if b[j] == b[k] {
        TwiceCounted(b, j, k);
        var p, q := TwiceFound(a, b[j]);
      }
      assert b[j] in multiset(a) && b[k] in multiset(a);
      var p :| 0 <= p < |a| && a[p] == b[j];
      var q :| 0 <= q < |a| && a[q] == b[k];
    }
  }

  // ---- a listing exists ----

  function Placed(x: DeadLetter, sorted: seq<DeadLetter>): (placed: seq<DeadLetter>)
    ensures |placed| == |sorted| + 1
  {
    if sorted == [] || x.createdAt >= sorted[0].createdAt then [x] + sorted else [sorted[0]] + Placed(x, sorted[1..])
  }

  function Listing(rows: seq<DeadLetter>): (listing: seq<DeadLetter>)
    ensures |listing| == |rows|
  {
    if rows == [] then [] else Placed(rows[0], Listing(rows[1..]))
  }

  lemma {:induction false} PlacedOnce(x: DeadLetter, sorted: seq<DeadLetter>)
    ensures multiset(Placed(x, sorted)) == multiset{x} + multiset(sorted)
  {
    if sorted != [] && x.createdAt < sorted[0].createdAt {
      PlacedOnce(x, sorted[1..]);
      assert sorted == [sorted[0]] + sorted[1..];
    }
  }

  lemma {:induction false} PlacedInOrder(x: DeadLetter, sorted: seq<DeadLetter>)
    requires Descending(sorted)
    ensures Descending(Placed(x, sorted))
  {
    if sorted != [] && x.createdAt < sorted[0].createdAt {
      PlacedInOrder(x, sorted[1..]);
      PlacedOnce(x, sorted[1..]);
      var rest := Placed(x, sorted[1..]);
      forall k | 0 <= k < |rest| ensures sorted[0].createdAt >= rest[k].createdAt {
        assert rest[k] in multiset(rest);
        assert rest[k] == x || rest[k] in sorted[1..];
      }
    }
  }

  /** The listing is sorted and holds every row once. */
  lemma {:induction false} ListingIsNewestFirst(rows: seq<DeadLetter>)
    ensures NewestFirst(rows, Listing(rows))
  {
    if rows != [] {
      ListingIsNewestFirst(rows[1..]);
      PlacedInOrder(rows[0], Listing(rows[1..]));
      PlacedOnce(rows[0], Listing(rows[1..]));
      assert rows == [rows[0]] + rows[1..];
    }
  }

  lemma NeighbourTie(s: seq<DeadLetter>, p: nat, q: nat) returns (i: nat)
    requires Descending(s) && p < q < |s| && s[p].createdAt == s[q].createdAt
    ensures i + 1 < |s| && s[i].createdAt == s[i + 1].createdAt
  {
    assert s[p].createdAt >= s[p + 1].createdAt;
    if p + 1 < q { assert s[p + 1].createdAt >= s[q].createdAt; }
    i := p;
  }

  lemma SwapTie(rows: seq<DeadLetter>, a: seq<DeadLetter>, i: nat) returns (b: seq<DeadLetter>)
    requires NewestFirst(rows, a) && i + 1 < |a| && a[i].createdAt == a[i + 1].createdAt && a[i] != a[i + 1]
    ensures NewestFirst(rows, b) && b == a[i := a[i + 1]][i + 1 := a[i]] && b != a
  {
    b := a[i := a[i + 1]][i + 1 := a[i]];
    assert a == a[..i] + [a[i], a[i + 1]] + a[i + 2..];
    assert b == a[..i] + [a[i + 1], a[i]] + a[i + 2..];
    assert multiset{a[i], a[i + 1]} == multiset{a[i + 1], a[i]};
    assert b[i] != a[i];
  }

  lemma IdsOfPermutation(rows: seq<DeadLetter>, a: seq<DeadLetter>, i: nat)
    requires DistinctIds(rows) && multiset(a) == multiset(rows) && i + 1 < |a|
    ensures a[i] != a[i + 1]
  {
    if a[i] == a[i + 1] {
      TwiceCounted(a, i, i + 1);
      var p, q := TwiceFound(rows, a[i]);
    }
  }

  /** The query fixes its order exactly if no two dead letters have the same
      creation time; with a tie, successive pages may be cut from different orders. */
  lemma ListingFixedIffTimesDiffer(rows: seq<DeadLetter>)
    requires DistinctIds(rows)
    ensures OneListing(rows) <==> DistinctTimes(rows)
  {
    if DistinctTimes(rows) {
      forall a, b | NewestFirst(rows, a) && NewestFirst(rows, b) ensures a == b {
        TimesOfPermutation(rows, a);
        TimesOfPermutation(rows, b);
        SameSortedListing(a, b);
      }
    } else {
      var a := Listing(rows);
      ListingIsNewestFirst(rows);
      if DistinctTimes(a) { TimesOfPermutation(a, rows); }
      var p, q :| 0 <= p < q < |a| && a[p].createdAt == a[q].createdAt;
      var i := NeighbourTie(a, p, q);
      IdsOfPermutation(rows, a, i);
      var b := SwapTie(rows, a, i);
    }
  }

  // ---- pages cut from different orders ----

  /** A query's page, cut from some newest-first order of the rows. */
  ghost predicate IsPage(rows: seq<DeadLetter>, limit: nat, offset: nat, page: seq<DeadLetter>) {
    exists listing :: NewestFirst(rows, listing) && page == Page(listing, limit, offset)
  }

  /** What a caller may get by reading on until an offset past the end. Every query
      orders the ties anew. */
  ghost predicate PagedThrough(rows: seq<DeadLetter>, limit: nat, pages: seq<seq<DeadLetter>>) {
    && |pages| * limit >= |rows|
    && forall k :: 0 <= k < |pages| ==> IsPage(rows, limit, k * limit, pages[k])
  }

  /** However the queries order the ties, each letter is on exactly one page. */
  ghost predicate PagesFit(rows: seq<DeadLetter>, limit: nat) {
    forall pages :: PagedThrough(rows, limit, pages) ==> multiset(Joined(pages)) == multiset(rows)
  }

  predicate TieAt(listing: seq<DeadLetter>, p: nat) {
    0 < p < |listing| && listing[p - 1].createdAt == listing[p].createdAt
  }

  /** No page ends between two letters of the same creation time. */
  ghost predicate NoTieIsCut(rows: seq<DeadLetter>, limit: nat) {
    forall k: nat :: !TieAt(Listing(rows), k * limit)
  }

  lemma SameLength(a: seq<DeadLetter>, b: seq<DeadLetter>)
    requires multiset(a) == multiset(b)
    ensures |a| == |b|
  {
    assert |a| == |multiset(a)| == |multiset(b)| == |b|;
  }

  lemma NotLarger(a: multiset<DeadLetter>, b: multiset<DeadLetter>)
    requires a <= b
    ensures |a| <= |b|
  {
    assert b == a + (b - a);
  }

  /** Letters newer than the one at position `i` all stand before it. */
  lemma NewerStandBefore(x: seq<DeadLetter>, i: nat, d: DeadLetter)
    requires Descending(x) && i < |x| && d.createdAt > x[i].createdAt
    ensures multiset(x[..i])[d] == multiset(x)[d]
  {
    assert x == x[..i] + x[i..];
    assert d !in x[i..];
  }

  lemma NoLaterTime(rows: seq<DeadLetter>, x: seq<DeadLetter>, y: seq<DeadLetter>, i: nat)
    requires NewestFirst(rows, x) && NewestFirst(rows, y) && i < |x| && i < |y|
    ensures x[i].createdAt >= y[i].createdAt
  {
    if x[i].createdAt < y[i].createdAt {
      assert y == y[..i + 1] + y[i + 1..];
      forall d | d in y[..i + 1] ensures multiset(y[..i + 1])[d] <= multiset(x[..i])[d] {
        NewerStandBefore(x, i, d);
      }
      NotLarger(multiset(y[..i + 1]), multiset(x[..i]));
    }
  }

  /** The creation times come in one order whatever happens to the ties. */
  lemma TimesAreFixed(rows: seq<DeadLetter>, x: seq<DeadLetter>, y: seq<DeadLetter>, i: nat)
    requires NewestFirst(rows, x) && NewestFirst(rows, y) && i < |x| && i < |y|
    ensures x[i].createdAt == y[i].createdAt
  {
    NoLaterTime(rows, x, y, i);
    NoLaterTime(rows, y, x, i);
  }

  /** Before a position that cuts no tie stand exactly the newer letters. */
  lemma FrontIsTheNewer(x: seq<DeadLetter>, p: nat, d: DeadLetter)
    requires Descending(x) && 0 < p < |x| && x[p - 1].createdAt != x[p].createdAt
    ensures multiset(x[..p])[d] == if d.createdAt > x[p].createdAt then multiset(x)[d] else 0
  {
    if d.createdAt > x[p].createdAt {
      NewerStandBefore(x, p, d);
    } else {
      assert x[p - 1].createdAt > x[p].createdAt;
      assert d !in x[..p];
    }
  }

  /** What stands before a position that cuts no tie does not depend on the order. */
  lemma SameFront(rows: seq<DeadLetter>, x: seq<DeadLetter>, y: seq<DeadLetter>, p: nat)
    requires NewestFirst(rows, x) && NewestFirst(rows, y) && 0 < p < |x| && p < |y| && !TieAt(y, p)
    ensures multiset(x[..p]) == multiset(y[..p])
  {
    TimesAreFixed(rows, x, y, p);
    TimesAreFixed(rows, x, y, p - 1);
    forall d: DeadLetter ensures multiset(x[..p])[d] == multiset(y[..p])[d] {
      FrontIsTheNewer(x, p, d);
      FrontIsTheNewer(y, p, d);
    }
  }

  lemma SameFrontUpTo(rows: seq<DeadLetter>, x: seq<DeadLetter>, y: seq<DeadLetter>, n: nat)
    requires NewestFirst(rows, x) && NewestFirst(rows, y) && !TieAt(y, n)
    ensures |x| == |y| == |rows| && multiset(x[..Min(n, |rows|)]) == multiset(y[..Min(n, |rows|)])
  {
    SameLength(x, rows);
    SameLength(y, rows);
    if 0 < n < |rows| {
      SameFront(rows, x, y, n);
    } else if n >= |rows| {
      assert x[..|rows|] == x && y[..|rows|] == y;
    }
  }

  lemma PageIsDifference(x: seq<DeadLetter>, limit: nat, offset: nat)
    ensures
      multiset(x[..Min(offset + limit, |x|)]) ==
      multiset(x[..Min(offset, |x|)]) + multiset(Page(x, limit, offset))
  {
    PageExtends(x, limit, offset);
  }

  lemma Cancel(a: multiset<DeadLetter>, b: multiset<DeadLetter>, d: multiset<DeadLetter>)
    requires a + b == a + d
    ensures b == d
  {
    forall x: DeadLetter ensures b[x] == d[x] { assert (a + b)[x] == (a + d)[x]; }
  }

  /** A page that begins and ends at no tie holds the same letters in every order. */
  lemma SamePage(rows: seq<DeadLetter>, x: seq<DeadLetter>, y: seq<DeadLetter>, limit: nat, offset: nat)
    requires NewestFirst(rows, x) && NewestFirst(rows, y) && !TieAt(y, offset) && !TieAt(y, offset + limit)
    ensures multiset(Page(x, limit, offset)) == multiset(Page(y, limit, offset))
  {
    SameFrontUpTo(rows, x, y, offset);
    SameFrontUpTo(rows, x, y, offset + limit);
    PageIsDifference(x, limit, offset);
    PageIsDifference(y, limit, offset);
    Cancel(multiset(y[..Min(offset, |y|)]), multiset(Page(x, limit, offset)), multiset(Page(y, limit, offset)));
  }

  lemma NextOffset(k: nat, limit: nat)
    ensures 0 <= (k + 1) * limit == k * limit + limit
  {
  }

  lemma UncutPage(rows: seq<DeadLetter>, listing: seq<DeadLetter>, limit: nat, k: nat, page: seq<DeadLetter>)
    requires NewestFirst(rows, listing) && forall j: nat :: !TieAt(listing, j * limit)
    requires IsPage(rows, limit, k * limit, page)
    ensures multiset(page) == multiset(Page(listing, limit, k * limit))
  {
    NextOffset(k, limit);
    assert !TieAt(listing, k * limit) && !TieAt(listing, (k + 1) * limit);
    var x :| NewestFirst(rows, x) && page == Page(x, limit, k * limit);
    SamePage(rows, x, listing, limit, k * limit);
  }

  /** If no tie is cut, the pages hold together what those of one listing hold. */
  lemma {:induction false} PagesHoldTheSame(
    rows: seq<DeadLetter>, listing: seq<DeadLetter>, limit: nat, pages: seq<seq<DeadLetter>>)
    requires NewestFirst(rows, listing) && forall k: nat :: !TieAt(listing, k * limit)
    requires forall k :: 0 <= k < |pages| ==> IsPage(rows, limit, k * limit, pages[k])
    ensures multiset(Joined(pages)) == multiset(Joined(Pages(listing, limit, |pages|)))
  {
    if pages != [] {
      var k := |pages| - 1;
      PagesHoldTheSame(rows, listing, limit, pages[..k]);
      UncutPage(rows, listing, limit, k, pages[k]);
      LastPage(listing, limit, k + 1);
    }
  }

  lemma ReplacedDiffers(a: seq<DeadLetter>, i: nat, u: DeadLetter)
    requires i < |a| && a[i] != u
    ensures multiset(a[i := u]) != multiset(a)
  {
    assert a == a[..i] + [a[i]] + a[i + 1..];
    assert a[i := u] == a[..i] + [u] + a[i + 1..];
    assert multiset(a[i := u])[u] == multiset(a)[u] + 1;
  }

  lemma EnoughPages(n: nat, limit: nat)
    requires limit >= 1
    ensures n * limit >= n
  {
  }

  lemma PageOfSame(a: seq<DeadLetter>, b: seq<DeadLetter>, limit: nat, offset: nat)
    requires |a| == |b| && forall i :: offset <= i < offset + limit && i < |a| ==> a[i] == b[i]
    ensures Page(a, limit, offset) == Page(b, limit, offset)
  {
  }

  lemma OnePagePosition(j: nat, k: nat, limit: nat)
    requires j != k
    ensures !(j * limit <= k * limit < j * limit + limit)
  {
    if j < k { assert k * limit >= (j + 1) * limit; }
  }

  /** What may be seen if a page ends inside a tie at position `p`: the letter before
      it also stands in place of the one behind it. */
  function Repeated(listing: seq<DeadLetter>, p: nat): seq<DeadLetter>
    requires TieAt(listing, p)
  {
    listing[p := listing[p - 1]]
  }

  lemma RepeatedMisfits(rows: seq<DeadLetter>, listing: seq<DeadLetter>, p: nat)
    requires DistinctIds(rows) && NewestFirst(rows, listing) && TieAt(listing, p)
    ensures multiset(Repeated(listing, p)) != multiset(rows)
  {
    IdsOfPermutation(rows, listing, p - 1);
    ReplacedDiffers(listing, p, listing[p - 1]);
  }

  lemma RepeatedIsPage(rows: seq<DeadLetter>, listing: seq<DeadLetter>, p: nat, limit: nat, offset: nat)
    requires DistinctIds(rows) && NewestFirst(rows, listing) && TieAt(listing, p)
    requires offset == p || !(offset <= p < offset + limit)
    ensures IsPage(rows, limit, offset, Page(Repeated(listing, p), limit, offset))
  {
    if offset == p {
      IdsOfPermutation(rows, listing, p - 1);
      var swapped := SwapTie(rows, listing, p - 1);
      PageOfSame(swapped, Repeated(listing, p), limit, offset);
    } else {
      PageOfSame(listing, Repeated(listing, p), limit, offset);
    }
  }

  /** If a page ends inside a tie, the next page may repeat its last letter. */
  lemma CutTieMisfits(rows: seq<DeadLetter>, listing: seq<DeadLetter>, limit: nat, k: nat)
    returns (pages: seq<seq<DeadLetter>>)
    requires DistinctIds(rows) && limit >= 1 && NewestFirst(rows, listing) && TieAt(listing, k * limit)
    ensures PagedThrough(rows, limit, pages) && multiset(Joined(pages)) != multiset(rows)
  {
    var seen := Repeated(listing, k * limit);
    SameLength(listing, rows);
    pages := Pages(seen, limit, |rows|);
    EnoughPages(|rows|, limit);
    forall j | 0 <= j < |pages| ensures IsPage(rows, limit, j * limit, pages[j]) {
      if j != k { OnePagePosition(j, k, limit); }
      RepeatedIsPage(rows, listing, k * limit, limit, j * limit);
    }
    PagesJoin(seen, limit, |rows|);
    RepeatedMisfits(rows, listing, k * limit);
  }

  /** Paging shows every letter exactly once, however the queries order the ties, if
      and only if no page ends between two letters of the same creation time. */
  lemma PagesFitIffNoTieIsCut(rows: seq<DeadLetter>, limit: nat)
    requires DistinctIds(rows) && limit >= 1
    ensures PagesFit(rows, limit) <==> NoTieIsCut(rows, limit)
  {
    var listing := Listing(rows);
    ListingIsNewestFirst(rows);
    if NoTieIsCut(rows, limit) {
      forall pages | PagedThrough(rows, limit, pages) ensures multiset(Joined(pages)) == multiset(rows) {
        PagesHoldTheSame(rows, listing, limit, pages);
        PagesCoverTheListing(rows, listing, limit, |pages|);
      }
    } else {
      var k: nat :| TieAt(listing, k * limit);
      var pages := CutTieMisfits(rows, listing, limit, k);
    }
  }

  // ---- reading a page ----

  /** The driver cannot scan a NULL `processing_result` into a Go string. */
  predicate Readable(d: DeadLetter) { d.processingResult.Some? }

  predicate PageReadable(page: seq<DeadLetter>) {
    forall k :: 0 <= k < |page| ==> Readable(page[k])
  }

  predicate AllReadable(pages: seq<seq<DeadLetter>>) {
    forall k :: 0 <= k < |pages| ==> PageReadable(pages[k])
  }

  lemma ReadableParts(a: seq<DeadLetter>, b: seq<DeadLetter>)
    ensures PageReadable(a + b) <==> PageReadable(a) && PageReadable(b)
  {
    if PageReadable(a + b) {
      forall k | 0 <= k < |a| ensures Readable(a[k]) { assert (a + b)[k] == a[k]; }
      forall k | 0 <= k < |b| ensures Readable(b[k]) { assert (a + b)[|a| + k] == b[k]; }
    }
  }

  lemma {:induction false} JoinedReadable(pages: seq<seq<DeadLetter>>)
    ensures PageReadable(Joined(pages)) <==> AllReadable(pages)
  {
    if pages != [] {
      var front, last := pages[..|pages| - 1], pages[|pages| - 1];
      JoinedReadable(front);
      ReadableParts(Joined(front), last);
      assert AllReadable(pages) <==> AllReadable(front) && PageReadable(last);
    }
  }

  lemma ReadableOfPermutation(a: seq<DeadLetter>, b: seq<DeadLetter>)
    requires multiset(a) == multiset(b) && PageReadable(a)
    ensures PageReadable(b)
  {
    forall k | 0 <= k < |b| ensures Readable(b[k]) { assert b[k] in multiset(a); }
  }

  lemma PagesOfReadable(rows: seq<DeadLetter>, limit: nat, pages: seq<seq<DeadLetter>>)
    requires PageReadable(rows) && PagedThrough(rows, limit, pages)
    ensures AllReadable(pages)
  {
    forall k | 0 <= k < |pages| ensures PageReadable(pages[k]) {
      assert IsPage(rows, limit, k * limit, pages[k]);
      var x :| NewestFirst(rows, x) && pages[k] == Page(x, limit, k * limit);
      ReadableOfPermutation(rows, x);
    }
  }

  /** Paging through the queue is sure to succeed exactly if every letter in it has
      been processed. If no tie is cut, it even fails whenever one has not; with a
      tie cut the unprocessed letter may be the one that no page shows. */
  lemma ListingReadsIffAllProcessed(rows: seq<DeadLetter>, limit: nat)
    requires DistinctIds(rows) && limit >= 1
    ensures (forall pages :: PagedThrough(rows, limit, pages) ==> AllReadable(pages)) <==> PageReadable(rows)
    ensures
      NoTieIsCut(rows, limit) ==>
        forall pages :: PagedThrough(rows, limit, pages) ==> (AllReadable(pages) <==> PageReadable(rows))
  {
    forall pages | PagedThrough(rows, limit, pages) && PageReadable(rows) ensures AllReadable(pages) {
      PagesOfReadable(rows, limit, pages);
    }
    forall pages | PagedThrough(rows, limit, pages) && multiset(Joined(pages)) == multiset(rows) && AllReadable(pages)
      ensures PageReadable(rows)
    {
      JoinedReadable(pages);
      ReadableOfPermutation(Joined(pages), rows);
    }
    PagesFitIffNoTieIsCut(rows, limit);
    var fixed := Pages(Listing(rows), limit, |rows|);
    ListingIsNewestFirst(rows);
    EnoughPages(|rows|, limit);
    assert PagedThrough(rows, limit, fixed);
    PagesCoverTheListing(rows, Listing(rows), limit, |rows|);
  }

  /** Two letters of one creation time, read one to a page: the same letter can come
      twice and the other never, so that reading succeeds although one is unprocessed. */
  lemma TiedPagesCanMiss(a: DeadLetter, b: DeadLetter)
    requires a.createdAt == b.createdAt && a != b
    ensures PagedThrough([a, b], 1, [[a], [a]])
    ensures Readable(a) && !Readable(b) ==> AllReadable([[a], [a]]) && !PageReadable([a, b])
  {
    var pages := [[a], [a]];
    assert multiset([a, b]) == multiset{a, b} == multiset([b, a]);
    assert NewestFirst([a, b], [a, b]) && NewestFirst([a, b], [b, a]);
    assert pages[0] == Page([a, b], 1, 0) && pages[1] == Page([b, a], 1, 1);
    assert [a, b][1] == b;
  }

  // ---- the repository and the service ----

  /** What the caller of an INSERT with RETURNING hears: the id, nothing at all, or an
      error. Errors that only end the reading of the result are not looked at. */
  datatype Reply = IdRead | NothingRead | Error

  /** What became of the row and of the answer. An answer without an error does not
      prove that the row was stored. */
  datatype LetterFate = LetterFate(stored: bool, reply: Reply) {
    /** An error is reported exactly if the row was not stored. */
    predicate Honest() { stored == !reply.Error? }
  }

  function Processed(rows: seq<DeadLetter>, id: nat, now: int, result: string): seq<DeadLetter> {
    seq(|rows|, k requires 0 <= k < |rows| =>
      if rows[k].id == id then rows[k].(processedAt := Some(now), processingResult := Some(result)) else rows[k])
  }

  class DeadLetterRepository {
    var rows: seq<DeadLetter>

    /** Row ids are positions: the id a save hands back is the number of rows before it. */
    ghost predicate Valid()
      reads this
    {
      forall k :: 0 <= k < |rows| ==> rows[k].id == k
    }

    constructor ()
      ensures Valid() && rows == []
    {
      rows := [];
    }

    /** Inserts a row; the processing columns stay NULL. The entry gets the id only if
        it was read back. */
    method Save(eventId: string, eventType: string, payload: string, reason: string, now: int, fate: LetterFate)
      returns (err: bool, id: Option<nat>)
      requires Valid()
      modifies this
      ensures Valid() && err == fate.reply.Error?
      ensures id == if fate.reply.IdRead? then Some(old(|rows|)) else None
      ensures rows ==
                old(rows) +
                if fate.stored then [DeadLetter(old(|rows|), eventId, eventType, payload, reason, now, None, None)]
                else []
    {
      var next := |rows|;
      if fate.stored {
        rows := rows + [DeadLetter(next, eventId, eventType, payload, reason, now, None, None)];
      }
      err := fate.reply.Error?;
      id := if fate.reply.IdRead? then Some(next) else None;
    }

    /** One page of some newest-first order. A negative limit or offset is an SQL
        error, and so is a row of the page that cannot be scanned. */
    method FindEntries(limit: int, offset: int, fails: bool) returns (err: bool, page: seq<DeadLetter>)
      requires Valid()
      ensures fails || limit < 0 || offset < 0 ==> err
      ensures !err ==> IsPage(rows, limit, offset, page)
      ensures !err ==> forall k :: 0 <= k < |page| ==> page[k].processingResult.Some?
      ensures err && !fails && limit >= 0 && offset >= 0 ==>
                exists lost: seq<DeadLetter>, k: nat ::
                  IsPage(rows, limit, offset, lost) && k < |lost| && lost[k].processingResult.None?
    {
      page := [];
      err := fails || limit < 0 || offset < 0;
      if !err {
        var all := Listing(rows);
        ListingIsNewestFirst(rows);
        var selected := Page(all, limit, offset);
        assert IsPage(rows, limit, offset, selected);
        err := !PageReadable(selected);
        if !err { page := selected; }
      }
    }

    /** Sets the processing columns of the row with that id, if there is one, and
        touches no other row. */
    method MarkAsProcessed(id: nat, now: int, result: string, fate: Fate) returns (err: bool)
      requires Valid()
      modifies this
      ensures Valid() && err == !fate.Commits? && |rows| == old(|rows|)
      ensures
        forall k :: 0 <= k < |rows| ==>
          rows[k] ==
          if fate.Refuses? || old(rows)[k].id != id then old(rows)[k]
          else old(rows)[k].(processedAt := Some(now), processingResult := Some(result))
      ensures rows == if fate.Lands() then Processed(old(rows), id, now, result) else old(rows)
    {
      if fate.Lands() && id < |rows| {
        rows := rows[id := rows[id].(processedAt := Some(now), processingResult := Some(result))];
      }
      assert fate.Lands() ==> rows == Processed(old(rows), id, now, result);
      err := fate.Errs();
    }
  }

  class DeadLetterService {
    const repository: DeadLetterRepository
    const codec: Codec

    constructor (repository: DeadLetterRepository, codec: Codec)
      ensures this.repository == repository && this.codec == codec
    {
      this.repository, this.codec := repository, codec;
    }

    method SendToDeadLetterQueue(e: Event, reason: string, now: int, fate: LetterFate) returns (err: bool)
      requires repository.Valid()
      modifies repository
      ensures repository.Valid() && err == (codec.encode(e).None? || fate.reply.Error?)
      ensures repository.rows ==
                old(repository.rows) +
                if codec.encode(e).Some? && fate.stored
                then [DeadLetter(old(|repository.rows|), e.id, e.typ, codec.encode(e).value, reason, now, None, None)]
                else []
    {
      var payload := codec.encode(e);
      if payload.None? { return true; }
      var id;
      err, id := repository.Save(e.id, e.typ, payload.value, reason, now, fate);
    }

    method GetDeadLetterEntries(limit: int, offset: int, fails: bool) returns (err: bool, page: seq<DeadLetter>)
      requires repository.Valid()
      ensures fails || limit < 0 || offset < 0 ==> err
      ensures !err ==> IsPage(repository.rows, limit, offset, page)
      ensures !err ==> forall k :: 0 <= k < |page| ==> page[k].processingResult.Some?
      ensures err && !fails && limit >= 0 && offset >= 0 ==>
                exists lost: seq<DeadLetter>, k: nat ::
                  IsPage(repository.rows, limit, offset, lost) && k < |lost| && lost[k].processingResult.None?
    {
      err, page := repository.FindEntries(limit, offset, fails);
    }

    /** Only marks the row; the event is not processed again. */
    method ReprocessEntry(id: nat, now: int, fate: Fate) returns (err: bool)
      requires repository.Valid()
      modifies repository
      ensures repository.Valid() && err == !fate.Commits? && |repository.rows| == old(|repository.rows|)
      ensures
        forall k :: 0 <= k < |repository.rows| ==>
          repository.rows[k] ==
          if fate.Refuses? || old(repository.rows)[k].id != id then old(repository.rows)[k]
          else
            old(repository.rows)[k].(processedAt := Some(now), processingResult := Some("Manually reprocessed"))
      ensures repository.rows ==
                if fate.Lands() then Processed(old(repository.rows), id, now, "Manually reprocessed")
                else old(repository.rows)
    {
      err := repository.MarkAsProcessed(id, now, "Manually reprocessed", fate);
    }
  }

  // ---- whole histories of the table ----

  datatype Change = Sent(letter: DeadLetter) | Reprocessed(id: nat, now: int)

  function Changed(rows: seq<DeadLetter>, ch: Change): seq<DeadLetter> {
    match ch
    case Sent(letter) => rows + [letter]
    case Reprocessed(id, now) => Processed(rows, id, now, "Manually reprocessed")
  }

  function AllChanged(rows: seq<DeadLetter>, chs: seq<Change>): seq<DeadLetter>
    decreases |chs|
  {
    if chs == [] then rows else AllChanged(Changed(rows, chs[0]), chs[1..])
  }

  ghost predicate SameRecord(a: DeadLetter, b: DeadLetter) {
    a.id == b.id && a.eventId == b.eventId && a.eventType == b.eventType && a.payload == b.payload
    && a.failureReason == b.failureReason && a.createdAt == b.createdAt
  }

  /** No history of sends and reprocesses removes a letter, changes what it
      recorded, or makes a processed letter unprocessed. */
  lemma {:induction false} LettersAreKept(rows: seq<DeadLetter>, chs: seq<Change>, k: nat)
    requires k < |rows|
    ensures k < |AllChanged(rows, chs)| && SameRecord(rows[k], AllChanged(rows, chs)[k])
    ensures Readable(rows[k]) ==> Readable(AllChanged(rows, chs)[k])
    decreases |chs|
  {
    if chs != [] { LettersAreKept(Changed(rows, chs[0]), chs[1..], k); }
  }
}
