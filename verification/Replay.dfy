/**
 Paged queries and the replay that loads the log through them
 (crates/infra/src/event_store/in_memory.rs, event_store/query.rs, projections/replay.rs).
 */
module Replay {
  import opened Core
  import opened EventStore
  import opened Sorting
  import opened CursorProjection

  const PAGE_SIZE: U32 := 1000
  const MAX_LIMIT: U32 := 1000
  const DEFAULT_LIMIT: U32 := 50

  datatype Pagination = Pagination(limit: U32, offset: U32)

  function NewPagination(limit: Option<U32>, offset: Option<U32>): (r: Pagination)
    ensures r.limit <= MAX_LIMIT
    ensures limit.None? ==> r.limit == 50
    ensures offset.None? ==> r.offset == 0
    ensures limit.Some? && limit.value <= MAX_LIMIT ==> r.limit == limit.value
    ensures offset.Some? ==> r.offset == offset.value
  {
    var asked := if limit.Some? then limit.value else DEFAULT_LIMIT;
    Pagination(if asked <= MAX_LIMIT then asked else MAX_LIMIT, if offset.Some? then offset.value else 0)
  }

  datatype EventFilter = EventFilter(aggregate: Option<AggregateId>, kind: Option<AggregateType>, after: Option<Time>, before: Option<Time>) {
    predicate Admits<E>(e: StoredEvent<E>) {
      && (aggregate.Some? ==> e.key.aggregate == aggregate.value)
      && (kind.Some? ==> e.kind == kind.value)
      && (after.Some? ==> e.occurredAt >= after.value)
      && (before.Some? ==> e.occurredAt <= before.value)
    }
  }

  function NoFilter(): EventFilter {
    EventFilter(None, None, None, None)
  }

  /** Newest first; events of one instant by sequence number. */
  predicate TimeOrder<E>(a: StoredEvent<E>, b: StoredEvent<E>) {
    a.occurredAt > b.occurredAt || (a.occurredAt == b.occurredAt && a.seqNo <= b.seqNo)
  }

  /** Every matching event of the tenant exactly once, in time order. */
  ghost predicate Lists<E(!new)>(streams: Streams<E>, tenant: TenantId, filter: EventFilter, list: seq<StoredEvent<E>>) {
    && Distinct(list)
    && Sorted(list, TimeOrder)
    && forall e: StoredEvent<E> :: e in list <==>
         && InStore(streams, e) && e.key.tenant == tenant
         && (filter.aggregate.Some? ==> e.key.aggregate == filter.aggregate.value)
         && (filter.kind.Some? ==> e.kind == filter.kind.value)
         && (filter.after.Some? ==> filter.after.value <= e.occurredAt)
         && (filter.before.Some? ==> e.occurredAt <= filter.before.value)
  }

  /** `skip(start).take(count)`. */
  function Slice<T>(s: seq<T>, start: nat, count: nat): seq<T> {
    if start >= |s| then []
    else if start + count >= |s| then s[start..]
    else s[start..start + count]
  }

  datatype QueryResult<+E> = QueryResult(events: seq<StoredEvent<E>>, total: nat, hasMore: bool)

  function PageOf<E>(list: seq<StoredEvent<E>>, page: Pagination): QueryResult<E> {
    QueryResult(Slice(list, page.offset, page.limit), |list|, |list| > WrapAdd32(page.offset, page.limit))
  }

  // ---------------------------------------------------------------------------
  // The query
  // ---------------------------------------------------------------------------

  function Matching<T>(s: seq<T>, wanted: T -> bool): seq<T> {
    if s == [] then []
    else Matching(s[..|s| - 1], wanted) + if wanted(s[|s| - 1]) then [s[|s| - 1]] else []
  }

  lemma {:induction false} MatchingMembers<T>(s: seq<T>, wanted: T -> bool)
    ensures forall x | x in Matching(s, wanted) :: x in s && wanted(x)
    ensures forall x | x in s && wanted(x) :: x in Matching(s, wanted)
    ensures Distinct(s) ==> Distinct(Matching(s, wanted))
  {
    if s != [] {
      MatchingMembers(s[..|s| - 1], wanted);
      assert s == s[..|s| - 1] + [s[|s| - 1]];
    }
  }

  lemma {:induction false} CountsDistinct<T>(s: seq<T>)
    requires forall x :: multiset(s)[x] <= 1
    ensures Distinct(s)
  {
    forall i, j | 0 <= i < j < |s|
      ensures s[i] != s[j]
    {
      assert s == (s[..j] + [s[j]]) + s[j + 1..];
      assert multiset(s)[s[j]] >= multiset(s[..j])[s[j]] + 1;
      assert s[i] in s[..j];
    }
  }

  lemma SortKeepsDistinct<T(!new)>(s: seq<T>, le: (T, T) -> bool)
    requires TotalPreorder(le) && Distinct(s)
    ensures Distinct(SortBy(s, le))
  {
    SortBySorts(s, le);
    forall x
      ensures multiset(SortBy(s, le))[x] <= 1
    {
      DistinctCount(s, x);
    }
    CountsDistinct(SortBy(s, le));
  }

  lemma TimeOrderIsTotal<E(!new)>()
    ensures TotalPreorder<StoredEvent<E>>(TimeOrder)
  {
  }

  /** The events collected from the streams in `done`. */
  ghost predicate Gathered<E(!new)>(streams: Streams<E>, tenant: TenantId, done: set<StreamKey>, all: seq<StoredEvent<E>>) {
    && Distinct(all)
    && forall e: StoredEvent<E> :: e in all <==> InStore(streams, e) && e.key.tenant == tenant && e.key in done
  }

  lemma GatherOne<E(!new)>(streams: Streams<E>, tenant: TenantId, done: set<StreamKey>, all: seq<StoredEvent<E>>, key: StreamKey)
    requires Numbered(streams) && Gathered(streams, tenant, done, all)
    requires key in streams && key !in done
    ensures Gathered(streams, tenant, done + {key}, if key.tenant == tenant then all + streams[key] else all)
  {
    var stream := streams[key];
    assert StreamOf(streams, key) == stream;
    forall e: StoredEvent<E>
      ensures e in stream <==> InStore(streams, e) && e.key == key
    {
      if e in stream {
        var i :| 0 <= i < |stream| && stream[i] == e;
      }
    }
    assert Distinct(stream) by {
      assert forall i, j | 0 <= i < j < |stream| :: stream[i].seqNo != stream[j].seqNo;
    }
  }

  /** The streams are visited in whatever order the hash map lists them. */
  method QueryEvents<E(!new)>(store: InMemoryEventStore<E>, tenant: TenantId, filter: EventFilter, page: Pagination)
    returns (r: QueryResult<E>)
    requires Numbered(store.streams)
    ensures exists list :: Lists(store.streams, tenant, filter, list) && r == PageOf(list, page)
  {
    hide SortBy, InStore;
    var streams := store.streams;
    var all: seq<StoredEvent<E>> := [];
    var rest := streams.Keys;
    while rest != {}
      invariant rest <= streams.Keys
      invariant Gathered(streams, tenant, streams.Keys - rest, all)
      decreases rest
    {
      var key :| key in rest;
      GatherOne(streams, tenant, streams.Keys - rest, all, key);
      assert streams.Keys - rest + {key} == streams.Keys - (rest - {key});
      rest := rest - {key};
      if key.tenant == tenant {
        all := all + streams[key];
      }
    }
    var filtered := Matching(all, e => filter.Admits(e));
    MatchingMembers(all, (e: StoredEvent<E>) => filter.Admits(e));
    var sorted := SortBy(filtered, TimeOrder);
    TimeOrderIsTotal<E>();
    SortBySorts(filtered, TimeOrder);
    SortBySameMembers(filtered, TimeOrder);
    SortKeepsDistinct(filtered, TimeOrder);
    StoredHasStream(streams);
    assert Lists(streams, tenant, filter, sorted);
    r := QueryResult(Slice(sorted, page.offset, page.limit), |sorted|, |sorted| > WrapAdd32(page.offset, page.limit));
  }

  lemma {:induction false} MatchingSorted<T>(s: seq<T>, wanted: T -> bool, le: (T, T) -> bool)
    requires Sorted(s, le)
    ensures Sorted(Matching(s, wanted), le)
  {
    if s != [] {
      var n := |s| - 1;
      var init := s[..n];
      MatchingSorted(init, wanted, le);
      MatchingMembers(init, wanted);
      forall i | 0 <= i < |Matching(init, wanted)|
        ensures le(Matching(init, wanted)[i], s[n])
      {
        assert Matching(init, wanted)[i] in init;
      }
    }
  }

  /** The events of a listing with one type, of one aggregate, or within a time interval. */
  function Keeps<E>(filter: EventFilter): StoredEvent<E> -> bool {
    (e: StoredEvent<E>) =>
      && (filter.kind.None? || filter.kind.value == e.kind)
      && (filter.aggregate.None? || filter.aggregate.value == e.key.aggregate)
      && (filter.after.None? || filter.after.value <= e.occurredAt)
      && (filter.before.None? || filter.before.value >= e.occurredAt)
  }

  /** Filtering gives the subsequence of an unfiltered listing. */
  lemma FilterIsSubsequence<E(!new)>(streams: Streams<E>, tenant: TenantId, filter: EventFilter, all: seq<StoredEvent<E>>)
    requires Lists(streams, tenant, NoFilter(), all)
    ensures Lists(streams, tenant, filter, Matching(all, Keeps(filter)))
  {
    hide InStore;
    MatchingMembers(all, Keeps(filter));
    MatchingSorted(all, Keeps(filter), TimeOrder);
  }

  /** A listing goes back in time, and events of one instant follow their numbers. */
  lemma ListingOrder<E(!new)>(streams: Streams<E>, tenant: TenantId, filter: EventFilter, list: seq<StoredEvent<E>>, i: nat, j: nat)
    requires Lists(streams, tenant, filter, list) && i < j < |list|
    ensures list[i].occurredAt >= list[j].occurredAt
    ensures list[i].occurredAt == list[j].occurredAt ==> list[i].seqNo <= list[j].seqNo
  {
    hide InStore, Distinct;
  }

  /** The event is on the `n`-th page of the given size. */
  ghost predicate OnPage<E>(list: seq<StoredEvent<E>>, limit: U32, n: nat, e: StoredEvent<E>) {
    n * limit < U32_LIMIT && e in PageOf(list, Pagination(limit, n * limit)).events
  }

  lemma OnPageIsListed<E>(list: seq<StoredEvent<E>>, limit: U32, n: nat, e: StoredEvent<E>)
    requires OnPage(list, limit, n, e)
    ensures e in list
  {
  }

  lemma ListedIsOnPage<E>(list: seq<StoredEvent<E>>, limit: U32, i: nat) returns (n: nat)
    requires limit > 0 && i < |list| <= U32_LIMIT
    ensures OnPage(list, limit, n, list[i])
  {
    n := i / limit;
    var start := n * limit;
    assert start <= i < start + limit by {
      assert i == limit * (i / limit) + i % limit;
    }
    SliceHolds(list, start, limit, i);
  }

  lemma SliceHolds<T>(s: seq<T>, start: nat, count: nat, i: nat)
    requires start <= i < start + count && i < |s|
    ensures s[i] in Slice(s, start, count)
  {
    assert Slice(s, start, count)[i - start] == s[i];
  }

  /**
   Over all pages of a query, of any size: an event is on some page exactly when the tenant stored it
   and it has the type, the aggregate and a time within the interval that the query asks for.
   */
  lemma PagesHold<E(!new)>(
    streams: Streams<E>, tenant: TenantId, filter: EventFilter, list: seq<StoredEvent<E>>, limit: U32, e: StoredEvent<E>)
    requires Lists(streams, tenant, filter, list) && limit > 0 && |list| <= U32_LIMIT
    ensures (exists n: nat :: OnPage(list, limit, n, e)) <==>
              && InStore(streams, e) && e.key.tenant == tenant
              && (filter.kind.Some? ==> e.kind == filter.kind.value)
              && (filter.aggregate.Some? ==> e.key.aggregate == filter.aggregate.value)
              && (filter.after.Some? ==> filter.after.value <= e.occurredAt)
              && (filter.before.Some? ==> e.occurredAt <= filter.before.value)
  {
    hide InStore, Sorted, Distinct, OnPage;
    if e in list {
      var i :| 0 <= i < |list| && list[i] == e;
      var n := ListedIsOnPage(list, limit, i);
      assert OnPage(list, limit, n, e);
    }
    forall n: nat | OnPage(list, limit, n, e)
      ensures e in list
    {
      OnPageIsListed(list, limit, n, e);
    }
  }

  /** A page reports the total, holds at most the limit, and announces more exactly when some follow. */
  lemma PageReports<E>(list: seq<StoredEvent<E>>, page: Pagination)
    ensures PageOf(list, page).total == |list|
    ensures |PageOf(list, page).events| <= page.limit
    ensures page.offset + page.limit < U32_LIMIT ==> (PageOf(list, page).hasMore <==> page.offset + page.limit < |list|)
    ensures page.offset + page.limit <= |list| ==> PageOf(list, page).events == list[page.offset..page.offset + page.limit]
  {
  }

  lemma StoredHasStream<E(!new)>(streams: Streams<E>)
    ensures forall e: StoredEvent<E> | InStore(streams, e) :: e.key in streams
  {
  }

  // ---------------------------------------------------------------------------
  // The paging loop
  // ---------------------------------------------------------------------------

  /** What the `n`-th query sees: the matching events as ordered at that moment. */
  type Snapshots<!E> = nat -> seq<StoredEvent<E>>

  /** The 32-bit offset after `n` pages. */
  function Offset(n: nat): U32 {
    (PAGE_SIZE * n) % U32_LIMIT
  }

  lemma OffsetAdvances(n: nat)
    ensures Offset(n + 1) == WrapAdd32(Offset(n), PAGE_SIZE)
    ensures PAGE_SIZE * n < U32_LIMIT ==> Offset(n) == PAGE_SIZE * n
  {
  }

  predicate More<T>(list: seq<T>, n: nat) {
    |list| > Offset(n + 1)
  }

  function Page<T>(list: seq<T>, n: nat): seq<T> {
    Slice(list, Offset(n), PAGE_SIZE)
  }

  function Collected<E>(snapshots: Snapshots<E>, n: nat): seq<StoredEvent<E>> {
    if n == 0 then [] else Collected(snapshots, n - 1) + Page(snapshots(n - 1), n - 1)
  }

  ghost predicate StopsAt<E>(snapshots: Snapshots<E>, n: nat) {
    !More(snapshots(n), n) && forall k: nat | k < n :: More(snapshots(k), k)
  }

  function Wanted<E>(kinds: set<AggregateType>): StoredEvent<E> -> bool {
    (e: StoredEvent<E>) => e.kind in kinds
  }

  function OfKinds<E>(events: seq<StoredEvent<E>>, kinds: set<AggregateType>): seq<StoredEvent<E>> {
    Matching(events, Wanted(kinds))
  }

  lemma {:induction false} OfKindsAppend<E>(a: seq<StoredEvent<E>>, b: seq<StoredEvent<E>>, kinds: set<AggregateType>)
    ensures OfKinds(a + b, kinds) == OfKinds(a, kinds) + OfKinds(b, kinds)
    decreases |b|
  {
    if b == [] {
      assert a + b == a;
    } else {
      var n := |b| - 1;
      assert (a + b)[..|a + b| - 1] == a + b[..n];
      OfKindsAppend(a, b[..n], kinds);
    }
  }

  /** Loads page after page until a query reports no more; `bound` witnesses that one does. */
  method LoadEvents<E(!new)>(snapshots: Snapshots<E>, kinds: set<AggregateType>, ghost bound: nat)
    returns (all: seq<StoredEvent<E>>)
    requires !More(snapshots(bound), bound)
    ensures exists last: nat :: StopsAt(snapshots, last) && all == OfKinds(Collected(snapshots, last + 1), kinds)
  {
    hide Offset, OfKinds, Slice;
    all := [];
    var offset: U32 := 0;
    var query := 0;
    NothingYet(snapshots, kinds);
    while true
      invariant query <= bound
      invariant offset == Offset(query)
      invariant forall k: nat | k < query :: More(snapshots(k), k)
      invariant all == OfKinds(Collected(snapshots, query), kinds)
      decreases bound - query
    {
      OffsetAdvances(query);
      var result := PageOf(snapshots(query), NewPagination(Some(PAGE_SIZE), Some(offset)));
      OfKindsAppend(Collected(snapshots, query), result.events, kinds);
      all := all + OfKinds(result.events, kinds);
      if !result.hasMore {
        assert StopsAt(snapshots, query);
        return;
      }
      offset := WrapAdd32(offset, PAGE_SIZE);
      query := query + 1;
    }
  }

  lemma NothingYet<E>(snapshots: Snapshots<E>, kinds: set<AggregateType>)
    ensures Offset(0) == 0 && OfKinds(Collected(snapshots, 0), kinds) == []
  {
  }

  lemma InPage<T>(list: seq<T>, n: nat, i: nat)
    requires i < |list| && Offset(n) <= i < Offset(n) + PAGE_SIZE
    ensures list[i] in Page(list, n)
  {
    assert Page(list, n)[i - Offset(n)] == list[i];
  }

  lemma {:induction false} CollectedHasPage<E>(snapshots: Snapshots<E>, k: nat, n: nat, e: StoredEvent<E>)
    requires k < n && e in Page(snapshots(k), k)
    ensures e in Collected(snapshots, n)
  {
    if k < n - 1 {
      CollectedHasPage(snapshots, k, n - 1, e);
    }
  }

  /** Everything collected was on some page. */
  lemma {:induction false} CollectedFromPage<E>(snapshots: Snapshots<E>, n: nat, e: StoredEvent<E>) returns (k: nat, i: nat)
    requires e in Collected(snapshots, n)
    ensures k < n && Offset(k) <= i < Offset(k) + PAGE_SIZE && i < |snapshots(k)| && snapshots(k)[i] == e
  {
    hide Offset;
    if e in Page(snapshots(n - 1), n - 1) {
      k := n - 1;
      var page := Page(snapshots(k), k);
      var d :| 0 <= d < |page| && page[d] == e;
      i := Offset(k) + d;
    } else {
      k, i := CollectedFromPage(snapshots, n - 1, e);
    }
  }

  /** The wrapped offset is a multiple of eight. */
  lemma OffsetBound(n: nat)
    ensures Offset(n) <= U32_LIMIT - 8
  {
    var q := (PAGE_SIZE * n) / U32_LIMIT;
    assert PAGE_SIZE * n == q * U32_LIMIT + Offset(n);
    assert Offset(n) == 8 * (125 * n - q * 0x2000_0000);
  }

  // ---------------------------------------------------------------------------
  // Ranks
  // ---------------------------------------------------------------------------

  /** No event disappears, and none moves to an earlier place. */
  ghost predicate Rises<T(!new)>(before: seq<T>, after: seq<T>) {
    forall i | 0 <= i < |before| :: i <= |after| && before[i] in after[i..]
  }

  ghost predicate RisesAt<E(!new)>(snapshots: Snapshots<E>, k: nat) {
    Rises(snapshots(k), snapshots(k + 1))
  }

  ghost predicate RanksRise<E(!new)>(snapshots: Snapshots<E>) {
    forall k: nat :: RisesAt(snapshots, k)
  }

  /**
   If no event moves to an earlier place between queries, an event that stands at or beyond the
   offset of some query has been loaded when the loop stops, wrap-around of the offset included.
   */
  lemma {:induction false} AheadIsLoaded<E(!new)>(snapshots: Snapshots<E>, k: nat, i: nat, last: nat)
    requires RanksRise(snapshots) && !More(snapshots(last), last)
    requires k <= last && Offset(k) <= i < |snapshots(k)|
    ensures snapshots(k)[i] in Collected(snapshots, last + 1)
    decreases last - k
  {
    hide Offset, Page, Collected;
    var e := snapshots(k)[i];
    OffsetAdvances(k);
    if i < Offset(k) + PAGE_SIZE {
      InPage(snapshots(k), k, i);
      CollectedHasPage(snapshots, k, last + 1, e);
    } else if k < last {
      assert RisesAt(snapshots, k);
      var rest := snapshots(k + 1)[i..];
      var d :| 0 <= d < |rest| && rest[d] == e;
      AheadIsLoaded(snapshots, k + 1, i + d, last);
    }
  }

  /** So no event of the first listing is skipped. */
  lemma NothingSkipped<E(!new)>(snapshots: Snapshots<E>, last: nat, e: StoredEvent<E>)
    requires RanksRise(snapshots) && !More(snapshots(last), last)
    requires e in snapshots(0)
    ensures e in Collected(snapshots, last + 1)
  {
    var i :| 0 <= i < |snapshots(0)| && snapshots(0)[i] == e;
    AheadIsLoaded(snapshots, 0, i, last);
  }

  lemma DistinctFitsIn<T(!new)>(s: seq<T>, t: seq<T>)
    requires Distinct(s) && forall x :: x in s ==> x in t
    ensures |s| <= |t|
  {
    forall x
      ensures multiset(s)[x] <= multiset(t)[x]
    {
      DistinctCount(s, x);
      assert x in t ==> x in multiset(t);
    }
    assert multiset(t) == multiset(s) + (multiset(t) - multiset(s));
    assert |multiset(s)| == |s| && |multiset(t)| == |t|;
  }

  ghost predicate NoTies<T(!new)>(list: seq<T>, le: (T, T) -> bool) {
    forall x, y | x in list && y in list && le(x, y) && le(y, x) :: x == y
  }

  // ---------------------------------------------------------------------------
  // The replay
  // ---------------------------------------------------------------------------

  /** Load, clear, sort, apply until an envelope fails; a dry run only loads. */
  method RunReplay<E(!new), Row(!new)>(
    projection: Projection<E, Row>, snapshots: Snapshots<E>, tenant: TenantId, kinds: set<AggregateType>, dryRun: bool, ghost bound: nat)
    returns (r: Option<ProjectionError>, ghost last: nat)
    requires !More(snapshots(bound), bound)
    modifies projection
    ensures StopsAt(snapshots, last)
    ensures dryRun ==> r.None? && projection.Model() == old(projection.Model())
    ensures !dryRun ==>
              (projection.Model(), r) == Replayed(projection.def, old(projection.Model()), tenant, kinds, Collected(snapshots, last + 1))
  {
    hide SortBy, ApplyTo, OfKinds, Collected, StopsAt, More, ClearTenants;
    var all := LoadEvents(snapshots, kinds, bound);
    last :| StopsAt(snapshots, last) && all == OfKinds(Collected(snapshots, last + 1), kinds);
    if !dryRun {
      projection.ClearTenant(tenant);
    }
    ghost var cleared := projection.Model();
    var sorted := SortBy(all, StreamOrder);
    for i := 0 to |sorted|
      invariant dryRun ==> projection.Model() == cleared
      invariant !dryRun ==> CursorProjection.Replay(projection.def, cleared, sorted[..i]) == (projection.Model(), None)
    {
      assert sorted[..i + 1][..i] == sorted[..i];
      if !dryRun {
        var fault := projection.ApplyEnvelope(sorted[i]);
        if fault.Some? {
          ReplayFails(projection.def, cleared, sorted, i + 1);
          return fault, last;
        }
      }
    }
    assert sorted[..|sorted|] == sorted;
    return None, last;
  }

  lemma OfKindsMembers<E>(events: seq<StoredEvent<E>>, kinds: set<AggregateType>)
    ensures forall e: StoredEvent<E> | e in OfKinds(events, kinds) :: e in events && e.kind in kinds
    ensures forall e: StoredEvent<E> | e in events && e.kind in kinds :: e in OfKinds(events, kinds)
  {
    MatchingMembers(events, Wanted(kinds));
  }

  /** What the replay makes of the events it collected. */
  function Replayed<E, Row>(
    p: RowProjection<E, Row>, m: ReadModel<Row>, tenant: TenantId, kinds: set<AggregateType>, collected: seq<StoredEvent<E>>)
    : (ReadModel<Row>, Option<ProjectionError>)
  {
    CursorProjection.Replay(p, ClearTenants(m, {tenant}), SortBy(OfKinds(collected, kinds), StreamOrder))
  }
}
