/**
 Paging through a store that does not change while it is read
 (crates/infra/src/projections/replay.rs, crates/infra/src/event_store/in_memory.rs).

 Each query sorts what the hash map lists anew, so tied events may change places between queries.
 */
module SteadyReplay {
  import opened Core
  import opened EventStore
  import opened Sorting
  import opened CursorProjection
  import opened Replay

  ghost predicate ListedAt<E(!new)>(streams: Streams<E>, tenant: TenantId, snapshots: Snapshots<E>, k: nat) {
    Lists(streams, tenant, NoFilter(), snapshots(k))
  }

  /** Every query sees some listing of one and the same store. */
  ghost predicate Listed<E(!new)>(streams: Streams<E>, tenant: TenantId, snapshots: Snapshots<E>) {
    forall k: nat :: ListedAt(streams, tenant, snapshots, k)
  }

  predicate Tied<E>(a: StoredEvent<E>, b: StoredEvent<E>) {
    TimeOrder(a, b) && TimeOrder(b, a)
  }

  predicate TiedAt<E>(list: seq<StoredEvent<E>>, n: nat)
    requires 1 <= n && PAGE_SIZE * n < |list|
  {
    Tied(list[PAGE_SIZE * n - 1], list[PAGE_SIZE * n])
  }

  /** No two tied events stand on the two sides of a page boundary. */
  ghost predicate CleanCuts<E(!new)>(list: seq<StoredEvent<E>>) {
    forall n: nat | 1 <= n && PAGE_SIZE * n < |list| :: !TiedAt(list, n)
  }

  // ---------------------------------------------------------------------------
  // Listings of one store
  // ---------------------------------------------------------------------------

  ghost predicate SameListing<E(!new)>(a: seq<StoredEvent<E>>, b: seq<StoredEvent<E>>) {
    Sorted(a, TimeOrder) && Sorted(b, TimeOrder) && Distinct(a) && Distinct(b) && forall e :: e in a <==> e in b
  }

  lemma ListingsMatch<E(!new)>(streams: Streams<E>, tenant: TenantId, a: seq<StoredEvent<E>>, b: seq<StoredEvent<E>>)
    requires Lists(streams, tenant, NoFilter(), a) && Lists(streams, tenant, NoFilter(), b)
    ensures SameListing(a, b) && |a| == |b|
  {
    hide InStore;
    DistinctFitsIn(a, b);
    DistinctFitsIn(b, a);
  }

  /** Two listings of one store may differ, but only by tied events: what stands at a place is tied. */
  lemma PlaceNotLater<E(!new)>(a: seq<StoredEvent<E>>, b: seq<StoredEvent<E>>, i: nat)
    requires SameListing(a, b) && i < |a| && i < |b|
    ensures TimeOrder(a[i], b[i])
  {
    if !TimeOrder(a[i], b[i]) {
      var early, before := b[..i + 1], a[..i];
      assert Distinct(early);
      forall x | x in early
        ensures x in before
      {
        var k :| 0 <= k < |early| && early[k] == x;
        assert k == i || TimeOrder(b[k], b[i]);
        assert b[k] in b && x in a;
        var m :| 0 <= m < |a| && a[m] == x;
        assert m < i;
      }
      DistinctFitsIn(early, before);
    }
  }

  lemma SamePlaces<E(!new)>(a: seq<StoredEvent<E>>, b: seq<StoredEvent<E>>, i: nat)
    requires SameListing(a, b) && i < |a| && i < |b|
    ensures Tied(a[i], b[i])
  {
    PlaceNotLater(a, b, i);
    PlaceNotLater(b, a, i);
  }

  /** An event that stands on different sides of a boundary in two listings makes the boundary tied. */
  lemma CrossingIsTied<E(!new)>(a: seq<StoredEvent<E>>, b: seq<StoredEvent<E>>, i: nat, j: nat, cut: nat)
    requires SameListing(a, b) && i < cut <= j < |b| == |a| && a[i] == b[j]
    ensures Tied(a[cut - 1], a[cut])
  {
    SamePlaces(a, b, cut);
    assert i == cut - 1 || TimeOrder(a[i], a[cut - 1]);
    assert j == cut || TimeOrder(b[cut], b[j]);
    assert TimeOrder(a[cut - 1], a[cut]);
  }

  /** With clean cuts an event stands on the same page in every listing. */
  lemma SamePage<E(!new)>(a: seq<StoredEvent<E>>, b: seq<StoredEvent<E>>, i: nat, j: nat)
    requires SameListing(a, b) && |a| == |b| && CleanCuts(a) && i < |a| && j < |b| && a[i] == b[j]
    ensures i / PAGE_SIZE == j / PAGE_SIZE
  {
    hide CleanCuts;
    if i / PAGE_SIZE < j / PAGE_SIZE {
      var n := j / PAGE_SIZE;
      CrossingIsTied(a, b, i, j, PAGE_SIZE * n);
      CutIsClean(a, n);
    } else if j / PAGE_SIZE < i / PAGE_SIZE {
      var n := i / PAGE_SIZE;
      var cut := PAGE_SIZE * n;
      CrossingIsTied(b, a, j, i, cut);
      SamePlaces(a, b, cut - 1);
      SamePlaces(a, b, cut);
      CutIsClean(a, n);
    }
  }

  lemma CutIsClean<E(!new)>(list: seq<StoredEvent<E>>, n: nat)
    requires CleanCuts(list) && 1 <= n && PAGE_SIZE * n < |list|
    ensures !Tied(list[PAGE_SIZE * n - 1], list[PAGE_SIZE * n])
  {
    assert !TiedAt(list, n);
  }

  // ---------------------------------------------------------------------------
  // When the loop stops
  // ---------------------------------------------------------------------------

  lemma ListedLength<E(!new)>(streams: Streams<E>, tenant: TenantId, list: seq<StoredEvent<E>>, snapshots: Snapshots<E>, k: nat)
    requires Lists(streams, tenant, NoFilter(), list) && Listed(streams, tenant, snapshots)
    ensures |snapshots(k)| == |list| && SameListing(list, snapshots(k))
  {
    hide Lists, SameListing;
    assert ListedAt(streams, tenant, snapshots, k);
    ListingsMatch(streams, tenant, list, snapshots(k));
  }

  /** On an unchanging store the loop ends exactly when the 32-bit offset can reach the total. */
  lemma StopsIff<E(!new)>(streams: Streams<E>, tenant: TenantId, list: seq<StoredEvent<E>>, snapshots: Snapshots<E>)
    requires Lists(streams, tenant, NoFilter(), list) && Listed(streams, tenant, snapshots)
    ensures (exists n: nat :: !More(snapshots(n), n)) <==> |list| <= U32_LIMIT - 8
  {
    hide Lists, Listed, SameListing;
    forall n: nat | !More(snapshots(n), n)
      ensures |list| <= U32_LIMIT - 8
    {
      ListedLength(streams, tenant, list, snapshots, n);
      OffsetBound(n + 1);
    }
    if |list| <= U32_LIMIT - 8 {
      ListedLength(streams, tenant, list, snapshots, 420_906_794);
      assert Offset(420_906_794 + 1) == U32_LIMIT - 8;
      assert !More(snapshots(420_906_794), 420_906_794);
    }
  }

  /** The number of pages whose offset is not wrapped. */
  const UNWRAPPED: nat := 4_294_968

  lemma PageIsReached<E(!new)>(total: nat, last: nat, i: nat)
    requires i < total <= Offset(last + 1)
    ensures i / PAGE_SIZE <= last && i / PAGE_SIZE < UNWRAPPED
  {
    OffsetAdvances(last + 1);
    OffsetBound(last + 1);
  }

  /** With clean cuts nothing is skipped, whatever listing each query sees. */
  lemma CleanCutsLoadAll<E(!new)>(
    streams: Streams<E>, tenant: TenantId, list: seq<StoredEvent<E>>, snapshots: Snapshots<E>, last: nat, e: StoredEvent<E>)
    requires Lists(streams, tenant, NoFilter(), list) && Listed(streams, tenant, snapshots)
    requires CleanCuts(list) && !More(snapshots(last), last) && e in list
    ensures e in Collected(snapshots, last + 1)
  {
    hide Lists, Listed, SameListing, CleanCuts, Collected, Page, Offset;
    ListedLength(streams, tenant, list, snapshots, last);
    var i :| 0 <= i < |list| && list[i] == e;
    var k := i / PAGE_SIZE;
    PageIsReached<E>(|list|, last, i);
    ListedLength(streams, tenant, list, snapshots, k);
    var j := PlaceIn(list, snapshots(k), e);
    SamePage(list, snapshots(k), i, j);
    OffsetAdvances(k);
    InPage(snapshots(k), k, j);
    CollectedHasPage(snapshots, k, last + 1, e);
  }

  lemma PlaceIn<E(!new)>(a: seq<StoredEvent<E>>, b: seq<StoredEvent<E>>, e: StoredEvent<E>) returns (j: nat)
    requires SameListing(a, b) && e in a
    ensures j < |b| && b[j] == e
  {
    assert e in b;
    j :| 0 <= j < |b| && b[j] == e;
  }

  // ---------------------------------------------------------------------------
  // Tied events on a boundary
  // ---------------------------------------------------------------------------

  function Exchanged<T>(list: seq<T>, cut: nat): (r: seq<T>)
    requires 1 <= cut < |list|
    ensures |r| == |list|
  {
    list[cut - 1 := list[cut]][cut := list[cut - 1]]
  }

  /** Exchanging tied neighbours gives another listing of the same store. */
  lemma ExchangedIsListing<E(!new)>(streams: Streams<E>, tenant: TenantId, list: seq<StoredEvent<E>>, cut: nat)
    requires Lists(streams, tenant, NoFilter(), list) && 1 <= cut < |list| && Tied(list[cut - 1], list[cut])
    ensures Lists(streams, tenant, NoFilter(), Exchanged(list, cut))
  {
    hide InStore;
    var other := Exchanged(list, cut);
    forall i, j | 0 <= i < j < |other|
      ensures TimeOrder(other[i], other[j])
    {
      assert i < cut - 1 ==> TimeOrder(list[i], list[cut - 1]);
      assert j > cut ==> TimeOrder(list[cut], list[j]);
      assert TimeOrder(list[i], list[j]);
    }
    assert other[cut - 1] == list[cut] && other[cut] == list[cut - 1];
    assert forall i | 0 <= i < |list| && i != cut && i != cut - 1 :: other[i] == list[i];
    forall e: StoredEvent<E>
      ensures e in other <==> e in list
    {
      if e in list {
        var i :| 0 <= i < |list| && list[i] == e;
        assert other[if i == cut then cut - 1 else if i == cut - 1 then cut else i] == e;
      }
    }
  }

  /** The listing, until the boundary has been read up to; the exchanged one from then on. */
  function Exchanging<E>(list: seq<StoredEvent<E>>, n: nat): Snapshots<E>
    requires 1 <= n && PAGE_SIZE * n < |list|
  {
    (k: nat) => if k < n then list else Exchanged(list, PAGE_SIZE * n)
  }

  lemma ExchangingIsListed<E(!new)>(streams: Streams<E>, tenant: TenantId, list: seq<StoredEvent<E>>, n: nat)
    requires Lists(streams, tenant, NoFilter(), list) && 1 <= n && PAGE_SIZE * n < |list| && TiedAt(list, n)
    ensures Listed(streams, tenant, Exchanging(list, n))
  {
    hide Lists, Exchanged;
    ExchangedIsListing(streams, tenant, list, PAGE_SIZE * n);
    forall k: nat
      ensures ListedAt(streams, tenant, Exchanging(list, n), k)
    {
    }
  }

  /** Then the event beyond the boundary is on no page: it moves back just when its page is read. */
  lemma ExchangingSkips<E(!new)>(list: seq<StoredEvent<E>>, n: nat, m: nat)
    requires Distinct(list) && 1 <= n && PAGE_SIZE * n < |list| && m <= UNWRAPPED
    ensures list[PAGE_SIZE * n] !in Collected(Exchanging(list, n), m)
  {
    hide Offset, Collected, Exchanging;
    var e := list[PAGE_SIZE * n];
    if e in Collected(Exchanging(list, n), m) {
      var k, i := CollectedFromPage(Exchanging(list, n), m, e);
      OffsetAdvances(k);
      ExchangingLength(list, n, k);
      NotOnPage(list, n, k, i);
    }
  }

  lemma ExchangingLength<E>(list: seq<StoredEvent<E>>, n: nat, k: nat)
    requires 1 <= n && PAGE_SIZE * n < |list|
    ensures |Exchanging(list, n)(k)| == |list|
    ensures Exchanging(list, n)(k) == if k < n then list else Exchanged(list, PAGE_SIZE * n)
  {
    hide Exchanged;
    assert k >= n ==> Exchanging(list, n)(k) == Exchanged(list, PAGE_SIZE * n);
  }

  lemma NotOnPage<E>(list: seq<StoredEvent<E>>, n: nat, k: nat, i: nat)
    requires Distinct(list) && 1 <= n && PAGE_SIZE * n < |list|
    requires PAGE_SIZE * k <= i < PAGE_SIZE * (k + 1) && i < |list| == |Exchanging(list, n)(k)|
    ensures Exchanging(list, n)(k)[i] != list[PAGE_SIZE * n]
  {
    var cut := PAGE_SIZE * n;
    ExchangingLength(list, n, k);
    assert list[cut - 1] != list[cut];
    if k < n {
      assert i < cut && list[i] != list[cut];
    } else {
      assert i > cut ==> list[cut] != list[i];
    }
  }

  lemma {:induction false} FirstStop<E>(snapshots: Snapshots<E>, bound: nat) returns (last: nat)
    requires !More(snapshots(bound), bound)
    ensures last <= bound && StopsAt(snapshots, last)
  {
    hide More;
    last := 0;
    while More(snapshots(last), last)
      invariant last <= bound
      invariant forall k: nat | k < last :: More(snapshots(k), k)
      decreases bound - last
    {
      last := last + 1;
    }
  }

  /** Whatever listing each query sees, the pages hold every event of the tenant. */
  ghost predicate LoadsAll<E(!new)>(streams: Streams<E>, tenant: TenantId) {
    forall snapshots: Snapshots<E>, last: nat, e: StoredEvent<E> |
      Listed(streams, tenant, snapshots) && StopsAt(snapshots, last) && InStore(streams, e) && e.key.tenant == tenant ::
      e in Collected(snapshots, last + 1)
  }

  lemma UncleanCutSkips<E(!new)>(streams: Streams<E>, tenant: TenantId, list: seq<StoredEvent<E>>, n: nat)
    requires Lists(streams, tenant, NoFilter(), list) && |list| <= PAGE_SIZE * (UNWRAPPED - 1)
    requires 1 <= n && PAGE_SIZE * n < |list| && TiedAt(list, n)
    ensures !LoadsAll(streams, tenant)
  {
    hide Collected, InStore, Exchanging, Listed, StopsAt;
    var snapshots := Exchanging(list, n);
    ExchangingIsListed(streams, tenant, list, n);
    forall k: nat
      ensures |snapshots(k)| == |list|
    {
      ExchangingLength(list, n, k);
    }
    var last := StopsUnwrapped(snapshots, |list|);
    ExchangingSkips(list, n, last + 1);
    var e := list[PAGE_SIZE * n];
    assert e in list;
    assert InStore(streams, e) && e.key.tenant == tenant;
  }

  lemma StopsUnwrapped<E>(snapshots: Snapshots<E>, total: nat) returns (last: nat)
    requires (forall k: nat :: |snapshots(k)| == total) && 0 < total <= PAGE_SIZE * (UNWRAPPED - 1)
    ensures StopsAt(snapshots, last) && last + 1 <= UNWRAPPED
  {
    hide Offset, StopsAt;
    var bound := (total + PAGE_SIZE - 1) / PAGE_SIZE - 1;
    OffsetAdvances(bound + 1);
    last := FirstStop(snapshots, bound);
  }

  /**
   On an unchanging store whose offset does not wrap, nothing is ever skipped exactly when no two
   tied events stand on the two sides of a page boundary.
   */
  lemma LoadsAllIff<E(!new)>(streams: Streams<E>, tenant: TenantId, list: seq<StoredEvent<E>>)
    requires Lists(streams, tenant, NoFilter(), list) && |list| <= PAGE_SIZE * (UNWRAPPED - 1)
    ensures LoadsAll(streams, tenant) <==> CleanCuts(list)
  {
    hide InStore, Collected, More, Listed;
    if CleanCuts(list) {
      hide CleanCuts;
      forall snapshots: Snapshots<E>, last: nat, e: StoredEvent<E> |
        Listed(streams, tenant, snapshots) && StopsAt(snapshots, last) && InStore(streams, e) && e.key.tenant == tenant
        ensures e in Collected(snapshots, last + 1)
      {
        CleanCutsLoadAll(streams, tenant, list, snapshots, last, e);
      }
    } else {
      var n: nat :| 1 <= n && PAGE_SIZE * n < |list| && TiedAt(list, n);
      UncleanCutSkips(streams, tenant, list, n);
    }
  }

  /** Without ties at all there is only one listing. */
  lemma UntiedIsUnique<E(!new)>(streams: Streams<E>, tenant: TenantId, a: seq<StoredEvent<E>>, b: seq<StoredEvent<E>>)
    requires Lists(streams, tenant, NoFilter(), a) && Lists(streams, tenant, NoFilter(), b) && NoTies(a, TimeOrder)
    ensures a == b
    ensures CleanCuts(a)
  {
    ListingsMatch(streams, tenant, a, b);
    forall i | 0 <= i < |a|
      ensures a[i] == b[i]
    {
      SamePlaces(a, b, i);
      assert a[i] in a && b[i] in b;
    }
    forall n: nat | 1 <= n && PAGE_SIZE * n < |a|
      ensures !TiedAt(a, n)
    {
      var cut := PAGE_SIZE * n;
      assert a[cut - 1] in a && a[cut] in a && a[cut - 1] != a[cut];
    }
  }

  // ---------------------------------------------------------------------------
  // What the pages add up to
  // ---------------------------------------------------------------------------

  function Least(a: nat, b: nat): nat {
    if a <= b then a else b
  }

  /** While the offset is not wrapped, what stands at a place of the result stood there when its page was read. */
  lemma {:induction false} CollectedInPlace<E>(snapshots: Snapshots<E>, total: nat, n: nat)
    requires (forall k: nat :: |snapshots(k)| == total) && n <= UNWRAPPED
    ensures |Collected(snapshots, n)| == Least(PAGE_SIZE * n, total)
    ensures forall i | 0 <= i < |Collected(snapshots, n)| :: Collected(snapshots, n)[i] == snapshots(i / PAGE_SIZE)[i]
  {
    hide Offset;
    if n > 0 {
      CollectedInPlace(snapshots, total, n - 1);
      OffsetAdvances(n - 1);
      var before, page := Collected(snapshots, n - 1), Page(snapshots(n - 1), n - 1);
      forall i | |before| <= i < |Collected(snapshots, n)|
        ensures Collected(snapshots, n)[i] == snapshots(i / PAGE_SIZE)[i]
      {
        assert Collected(snapshots, n)[i] == page[i - |before|];
        assert i / PAGE_SIZE == n - 1;
      }
    }
  }

  /** A list that holds all of a duplicate-free list of its own length is duplicate-free. */
  lemma SurjectiveIsDistinct<T(!new)>(s: seq<T>, t: seq<T>)
    requires Distinct(t) && |s| == |t| && forall x :: x in t ==> x in s
    ensures Distinct(s)
  {
    forall x
      ensures multiset(t)[x] <= multiset(s)[x]
    {
      DistinctCount(t, x);
      assert x in s ==> x in multiset(s);
    }
    assert multiset(s) == multiset(t) + (multiset(s) - multiset(t));
    assert |multiset(s)| == |s| && |multiset(t)| == |t|;
    assert multiset(s) == multiset(t);
    forall x
      ensures multiset(s)[x] <= 1
    {
      DistinctCount(t, x);
    }
    CountsDistinct(s);
  }

  /** Pages of different listings still come out in time order. */
  lemma CollectedIsSorted<E(!new)>(list: seq<StoredEvent<E>>, snapshots: Snapshots<E>, n: nat)
    requires (forall k: nat :: |snapshots(k)| == |list| && SameListing(list, snapshots(k))) && n <= UNWRAPPED
    ensures Sorted(Collected(snapshots, n), TimeOrder)
  {
    hide Collected, SameListing;
    CollectedInPlace(snapshots, |list|, n);
    var collected := Collected(snapshots, n);
    forall i, j | 0 <= i < j < |collected|
      ensures TimeOrder(collected[i], collected[j])
    {
      SamePlaces(list, snapshots(i / PAGE_SIZE), i);
      SamePlaces(list, snapshots(j / PAGE_SIZE), j);
      ListingIsSorted(list, snapshots(0), i, j);
    }
  }

  lemma ListingIsSorted<E(!new)>(a: seq<StoredEvent<E>>, b: seq<StoredEvent<E>>, i: nat, j: nat)
    requires SameListing(a, b) && i < j < |a|
    ensures TimeOrder(a[i], a[j])
  {
  }

  lemma CollectedIsListed<E(!new)>(streams: Streams<E>, tenant: TenantId, snapshots: Snapshots<E>, n: nat, e: StoredEvent<E>)
    requires Listed(streams, tenant, snapshots) && e in Collected(snapshots, n)
    ensures InStore(streams, e) && e.key.tenant == tenant
  {
    hide InStore, Collected;
    var k, i := CollectedFromPage(snapshots, n, e);
    assert ListedAt(streams, tenant, snapshots, k);
    assert e in snapshots(k);
  }

  lemma {:induction false} CollectedLengthens<E>(snapshots: Snapshots<E>, k: nat, n: nat)
    requires k <= n
    ensures |Collected(snapshots, k)| <= |Collected(snapshots, n)|
  {
    if k < n {
      CollectedLengthens(snapshots, k, n - 1);
    }
  }

  /** After the wrap a page is read again. */
  lemma WrapRepeats<E>(snapshots: Snapshots<E>, total: nat)
    requires (forall k: nat :: |snapshots(k)| == total) && PAGE_SIZE * (UNWRAPPED - 1) < total <= U32_LIMIT
    ensures |Collected(snapshots, UNWRAPPED + 1)| > total
  {
    CollectedInPlace(snapshots, total, UNWRAPPED);
    assert Offset(UNWRAPPED) == 704;
    assert Collected(snapshots, UNWRAPPED + 1) == Collected(snapshots, UNWRAPPED) + Page(snapshots(UNWRAPPED), UNWRAPPED);
  }

  predicate Beyond(total: nat, k: nat) {
    total > Offset(k + 1)
  }

  lemma WhereItStops(total: nat, last: nat)
    requires total <= Offset(last + 1) && forall k: nat | k < last :: Beyond(total, k)
    ensures total <= PAGE_SIZE * (UNWRAPPED - 1) ==> last + 1 <= UNWRAPPED && total <= PAGE_SIZE * (last + 1)
    ensures total > PAGE_SIZE * (UNWRAPPED - 1) ==> last + 1 >= UNWRAPPED + 1 && total <= U32_LIMIT
  {
    OffsetAdvances(last + 1);
    OffsetBound(last + 1);
    assert Offset(UNWRAPPED - 1) == PAGE_SIZE * (UNWRAPPED - 1) && Offset(UNWRAPPED) == 704;
    assert last > UNWRAPPED - 2 ==> Beyond(total, UNWRAPPED - 2);
    assert last > UNWRAPPED - 1 || last + 1 != UNWRAPPED || total <= 704;
  }

  /**
   With clean cuts the concatenated pages are themselves a listing of the store, every event once
   and in time order, exactly when the offset does not wrap.
   */
  lemma PagesAreAListing<E(!new)>(streams: Streams<E>, tenant: TenantId, list: seq<StoredEvent<E>>, snapshots: Snapshots<E>, last: nat)
    requires Lists(streams, tenant, NoFilter(), list) && Listed(streams, tenant, snapshots)
    requires CleanCuts(list) && StopsAt(snapshots, last)
    ensures Lists(streams, tenant, NoFilter(), Collected(snapshots, last + 1)) <==> |list| <= PAGE_SIZE * (UNWRAPPED - 1)
  {
    hide Lists, Listed, CleanCuts, Collected, Offset, SameListing;
    var collected := Collected(snapshots, last + 1);
    forall k: nat
      ensures |snapshots(k)| == |list| && SameListing(list, snapshots(k))
    {
      ListedLength(streams, tenant, list, snapshots, k);
    }
    forall k: nat | k < last
      ensures Beyond(|list|, k)
    {
      assert More(snapshots(k), k);
    }
    assert |list| <= Offset(last + 1);
    WhereItStops(|list|, last);
    if |list| <= PAGE_SIZE * (UNWRAPPED - 1) {
      CollectedInPlace(snapshots, |list|, last + 1);
      CollectedIsSorted(list, snapshots, last + 1);
      AllOnce(streams, tenant, list, snapshots, last);
    } else {
      WrapRepeats(snapshots, |list|);
      CollectedLengthens(snapshots, UNWRAPPED + 1, last + 1);
      if Lists(streams, tenant, NoFilter(), collected) {
        ListingsMatch(streams, tenant, list, collected);
      }
    }
  }

  lemma AllOnce<E(!new)>(streams: Streams<E>, tenant: TenantId, list: seq<StoredEvent<E>>, snapshots: Snapshots<E>, last: nat)
    requires Lists(streams, tenant, NoFilter(), list) && Listed(streams, tenant, snapshots)
    requires CleanCuts(list) && !More(snapshots(last), last)
    requires |Collected(snapshots, last + 1)| == |list| && Sorted(Collected(snapshots, last + 1), TimeOrder)
    ensures Lists(streams, tenant, NoFilter(), Collected(snapshots, last + 1))
  {
    hide Listed, CleanCuts, Collected, InStore, Sorted, More;
    var collected := Collected(snapshots, last + 1);
    forall e: StoredEvent<E>
      ensures e in collected <==> e in list
    {
      if e in list {
        CleanCutsLoadAll(streams, tenant, list, snapshots, last, e);
      }
      if e in collected {
        CollectedIsListed(streams, tenant, snapshots, last + 1, e);
      }
    }
    SurjectiveIsDistinct(collected, list);
  }

  /** Without ties the pages are the list itself exactly when the offset does not wrap. */
  lemma PagesAreTheList<E(!new)>(streams: Streams<E>, tenant: TenantId, list: seq<StoredEvent<E>>, snapshots: Snapshots<E>, last: nat)
    requires Lists(streams, tenant, NoFilter(), list) && Listed(streams, tenant, snapshots)
    requires NoTies(list, TimeOrder) && StopsAt(snapshots, last)
    ensures Collected(snapshots, last + 1) == list <==> |list| <= PAGE_SIZE * (UNWRAPPED - 1)
  {
    hide Lists, Listed, CleanCuts, Collected, NoTies, StopsAt;
    UntiedIsUnique(streams, tenant, list, list);
    PagesAreAListing(streams, tenant, list, snapshots, last);
    if Lists(streams, tenant, NoFilter(), Collected(snapshots, last + 1)) {
      UntiedIsUnique(streams, tenant, list, Collected(snapshots, last + 1));
    }
  }

  // ---------------------------------------------------------------------------
  // The replay
  // ---------------------------------------------------------------------------

  /** With clean cuts what the loop loads is complete for every type it asked for, though it may repeat. */
  lemma LoadedIsComplete<E(!new)>(
    streams: Streams<E>, list: seq<StoredEvent<E>>, snapshots: Snapshots<E>, tenant: TenantId, kind: AggregateType, kinds: set<AggregateType>, last: nat)
    requires Numbered(streams) && Lists(streams, tenant, NoFilter(), list) && Listed(streams, tenant, snapshots)
    requires CleanCuts(list) && kind in kinds && StopsAt(snapshots, last)
    ensures Complete(kind, {tenant}, streams, OfKinds(Collected(snapshots, last + 1), kinds))
  {
    hide InStore, Collected, More, Listed, CleanCuts, OfKinds, Numbered;
    var collected := Collected(snapshots, last + 1);
    var loaded := OfKinds(collected, kinds);
    OfKindsMembers(collected, kinds);
    forall e: StoredEvent<E> | e in loaded
      ensures InStore(streams, e) && e.key.tenant == tenant
    {
      assert e in OfKinds(collected, kinds) && e in collected;
      CollectedIsListed(streams, tenant, snapshots, last + 1, e);
    }
    forall e: StoredEvent<E> | InStore(streams, e) && e.kind == kind && e.key.tenant in {tenant}
      ensures e in loaded
    {
      CleanCutsLoadAll(streams, tenant, list, snapshots, last, e);
    }
    forall t | t in TenantsOf(loaded)
      ensures t in {tenant}
    {
      var i :| 0 <= i < |loaded| && loaded[i].key.tenant == t;
      assert loaded[i] in loaded;
    }
  }

  /**
   On an unchanging store with clean cuts a replay that ends (exactly when the tenant has at most
   2^32 - 8 events) succeeds and gives the tenant the rows and cursors of its whole history,
   whatever listing each query saw; other tenants keep theirs.
   */
  lemma ReplayRestoresTenant<E(!new), Row(!new)>(
    p: RowProjection<E, Row>, streams: Streams<E>, list: seq<StoredEvent<E>>, snapshots: Snapshots<E>, m: ReadModel<Row>, tenant: TenantId,
    kinds: set<AggregateType>, last: nat)
    requires Numbered(streams) && Clean(p, streams) && Lists(streams, tenant, NoFilter(), list) && Listed(streams, tenant, snapshots)
    requires CleanCuts(list) && p.kind in kinds && StopsAt(snapshots, last)
    ensures var r := Replayed(p, m, tenant, kinds, Collected(snapshots, last + 1));
            r.1.None? && Restored(p, streams, m, {tenant}, r.0)
  {
    hide Complete, Lists, Listed, CleanCuts, Restored, SortBy, Collected, OfKinds, StopsAt, Clean, Numbered;
    LoadedIsComplete(streams, list, snapshots, tenant, p.kind, kinds, last);
    ReplayRestores(p, streams, m, {tenant}, OfKinds(Collected(snapshots, last + 1), kinds));
  }

  // ---------------------------------------------------------------------------
  // A store with a tied boundary
  // ---------------------------------------------------------------------------

  function Instant<E>(payload: E, i: nat): StoredEvent<E> {
    StoredEvent(StreamKey(0, i), LedgerType, 1, 0, payload)
  }

  /** 1001 streams of one event each, all of one instant. */
  ghost function Crowd<E>(payload: E): Streams<E> {
    map i: nat | i < 1001 :: StreamKey(0, i) := [Instant(payload, i)]
  }

  function InOrder<E>(payload: E): seq<StoredEvent<E>> {
    seq(1001, i requires 0 <= i < 1001 => Instant(payload, i))
  }

  lemma CrowdIsListed<E(!new)>(payload: E)
    ensures Numbered(Crowd(payload)) && Lists(Crowd(payload), 0, NoFilter(), InOrder(payload))
  {
    var streams, list := Crowd(payload), InOrder(payload);
    forall e: StoredEvent<E>
      ensures e in list <==> InStore(streams, e) && e.key.tenant == 0 && NoFilter().Admits(e)
    {
      if InStore(streams, e) {
        assert list[e.key.aggregate] == e;
      }
    }
  }

  /** With a tied boundary an event can be skipped although the store never changes. */
  lemma TiesCanBeSkipped<E(!new)>(payload: E)
    ensures var streams, snapshots := Crowd(payload), Exchanging(InOrder(payload), 1);
            && Numbered(streams)
            && Listed(streams, 0, snapshots)
            && StopsAt(snapshots, 1)
            && InStore(streams, Instant(payload, 1000))
            && Instant(payload, 1000) !in Collected(snapshots, 2)
  {
    hide Lists, Listed, Collected;
    var list := InOrder(payload);
    CrowdIsListed(payload);
    ExchangingIsListed(Crowd(payload), 0, list, 1);
    InstantsAreDistinct(payload);
    ExchangingSkips(list, 1, 2);
    ExchangingLength(list, 1, 0);
    ExchangingLength(list, 1, 1);
  }

  lemma InstantsAreDistinct<E(!new)>(payload: E)
    ensures Distinct(InOrder(payload))
  {
  }
}
