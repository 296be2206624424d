/**
 Paging through a store that grows while it is read, and replaying what was loaded
 (crates/infra/src/projections/replay.rs).
 */
module GrowingReplay {
  import opened Core
  import opened EventStore
  import opened Sorting
  import opened CursorProjection
  import opened Replay

  /** The store as the `k`-th query finds it. */
  type Stores<!E> = nat -> Streams<E>

  ghost predicate GrowsAt<E(!new)>(stores: Stores<E>, k: nat) {
    forall e: StoredEvent<E> | InStore(stores(k), e) :: InStore(stores(k + 1), e)
  }

  ghost predicate ListedAt<E(!new)>(stores: Stores<E>, tenant: TenantId, snapshots: Snapshots<E>, k: nat) {
    Numbered(stores(k)) && Lists(stores(k), tenant, NoFilter(), snapshots(k)) && NoTies(snapshots(k), TimeOrder)
  }

  /** The store only grows while it is queried, and no two of the tenant's events tie in time order. */
  ghost predicate Growing<E(!new)>(stores: Stores<E>, tenant: TenantId, snapshots: Snapshots<E>) {
    (forall k: nat :: GrowsAt(stores, k)) && forall k: nat :: ListedAt(stores, tenant, snapshots, k)
  }

  // ---------------------------------------------------------------------------
  // Nothing stored before loading is skipped
  // ---------------------------------------------------------------------------

  /** Without ties, whatever preceded an element still precedes it in a larger sorted list. */
  lemma RankRises<T(!new)>(a: seq<T>, b: seq<T>, le: (T, T) -> bool, i: nat, j: nat)
    requires Sorted(a, le) && Sorted(b, le) && Distinct(a) && NoTies(b, le)
    requires forall x :: x in a ==> x in b
    requires i < |a| && j < |b| && a[i] == b[j]
    ensures i <= j
  {
    assert Distinct(a[..i]);
    forall x | x in a[..i]
      ensures x in b[..j]
    {
      var k :| 0 <= k < i && a[k] == x;
      assert x in a && le(x, a[i]);
      var m :| 0 <= m < |b| && b[m] == x;
      PrecedesInOrder(b, le, m, j);
    }
    DistinctFitsIn(a[..i], b[..j]);
  }

  lemma PrecedesInOrder<T(!new)>(b: seq<T>, le: (T, T) -> bool, m: nat, j: nat)
    requires Sorted(b, le) && NoTies(b, le) && m < |b| && j < |b|
    requires b[m] != b[j] && le(b[m], b[j])
    ensures m < j
  {
    assert b[m] in b && b[j] in b;
  }

  lemma GrowthRaisesRanks<E(!new)>(stores: Stores<E>, tenant: TenantId, snapshots: Snapshots<E>, k: nat)
    requires Growing(stores, tenant, snapshots)
    ensures RisesAt(snapshots, k)
  {
    hide Numbered, InStore;
    var a, b := snapshots(k), snapshots(k + 1);
    assert GrowsAt(stores, k) && ListedAt(stores, tenant, snapshots, k) && ListedAt(stores, tenant, snapshots, k + 1);
    forall i | 0 <= i < |a|
      ensures i <= |b| && a[i] in b[i..]
    {
      assert a[i] in a;
      var j :| 0 <= j < |b| && b[j] == a[i];
      RankRises(a, b, TimeOrder, i, j);
      assert b[i..][j - i] == a[i];
    }
  }

  lemma GrowthRaisesAllRanks<E(!new)>(stores: Stores<E>, tenant: TenantId, snapshots: Snapshots<E>)
    requires Growing(stores, tenant, snapshots)
    ensures RanksRise(snapshots)
  {
    hide Growing, RisesAt;
    forall k: nat
      ensures RisesAt(snapshots, k)
    {
      GrowthRaisesRanks(stores, tenant, snapshots, k);
    }
  }

  /** While the store only grows and has no ties, nothing stored before loading began is skipped. */
  lemma GrowingStoreIsCovered<E(!new)>(stores: Stores<E>, tenant: TenantId, snapshots: Snapshots<E>, last: nat, e: StoredEvent<E>)
    requires Growing(stores, tenant, snapshots) && StopsAt(snapshots, last)
    requires InStore(stores(0), e) && e.key.tenant == tenant
    ensures e in Collected(snapshots, last + 1)
  {
    GrowthRaisesAllRanks(stores, tenant, snapshots);
    assert ListedAt(stores, tenant, snapshots, 0);
    NothingSkipped(snapshots, last, e);
  }

  // ---------------------------------------------------------------------------
  // Nothing is loaded without its predecessors
  // ---------------------------------------------------------------------------

  /** Along each of the tenant's streams time strictly increases. */
  ghost predicate Chronological<E(!new)>(streams: Streams<E>, tenant: TenantId) {
    forall d: StoredEvent<E>, e: StoredEvent<E> |
      InStore(streams, d) && InStore(streams, e) && d.key == e.key && d.key.tenant == tenant && d.seqNo < e.seqNo ::
      d.occurredAt < e.occurredAt
  }

  lemma {:induction false} StaysStored<E(!new)>(stores: Stores<E>, k: nat, n: nat, e: StoredEvent<E>)
    requires (forall i: nat :: GrowsAt(stores, i)) && k <= n && InStore(stores(k), e)
    ensures InStore(stores(n), e)
  {
    hide InStore;
    if k < n {
      StaysStored(stores, k, n - 1, e);
      assert GrowsAt(stores, n - 1);
    }
  }

  /** The predecessor of an event was stored when the event was. */
  lemma PredecessorStored<E(!new)>(stores: Stores<E>, k: nat, n: nat, d: StoredEvent<E>, e: StoredEvent<E>)
    requires (forall i: nat :: GrowsAt(stores, i)) && k <= n && Numbered(stores(k))
    requires InStore(stores(k), e) && InStore(stores(n), d) && d.key == e.key && d.seqNo <= e.seqNo
    ensures InStore(stores(k), d)
  {
    var predecessor := StreamOf(stores(k), e.key)[d.seqNo - 1];
    assert InStore(stores(k), predecessor);
    StaysStored(stores, k, n, predecessor);
  }

  /** In a chronological stream the earlier event stands further on: time order lists the newest first. */
  lemma EarlierIsAhead<E(!new)>(streams: Streams<E>, tenant: TenantId, list: seq<StoredEvent<E>>, d: StoredEvent<E>, e: StoredEvent<E>, i: nat)
    returns (j: nat)
    requires Lists(streams, tenant, NoFilter(), list) && Chronological(streams, tenant)
    requires i < |list| && list[i] == e && InStore(streams, d) && d.key == e.key && d.seqNo < e.seqNo
    ensures i <= j < |list| && list[j] == d
  {
    hide InStore;
    assert e in list && d in list;
    j :| 0 <= j < |list| && list[j] == d;
    assert d.occurredAt < e.occurredAt;
    assert j < i ==> TimeOrder(list[j], list[i]);
  }

  /** If the store only grows, has no ties and is chronological, no event is loaded without its predecessors. */
  lemma LoadedWithPredecessors<E(!new)>(
    stores: Stores<E>, tenant: TenantId, snapshots: Snapshots<E>, last: nat, d: StoredEvent<E>, e: StoredEvent<E>)
    requires Growing(stores, tenant, snapshots) && (forall k: nat :: Chronological(stores(k), tenant)) && StopsAt(snapshots, last)
    requires e in Collected(snapshots, last + 1) && InStore(stores(last), d) && d.key == e.key && d.seqNo < e.seqNo
    ensures d in Collected(snapshots, last + 1)
  {
    hide Collected, InStore, Chronological, NoTies, Offset, GrowsAt;
    var k, i := CollectedFromPage(snapshots, last + 1, e);
    assert ListedAt(stores, tenant, snapshots, k);
    assert e in snapshots(k);
    PredecessorStored(stores, k, last, d, e);
    var j := EarlierIsAhead(stores(k), tenant, snapshots(k), d, e, i);
    GrowthRaisesAllRanks(stores, tenant, snapshots);
    AheadIsLoaded(snapshots, k, j, last);
  }

  // ---------------------------------------------------------------------------
  // The replay restores a prefix
  // ---------------------------------------------------------------------------

  /** The largest number loaded for a stream; 0 if none was. */
  function Reach<E>(loaded: seq<StoredEvent<E>>, key: StreamKey): nat {
    if loaded == [] then 0
    else
      var n := |loaded| - 1;
      var earlier := Reach(loaded[..n], key);
      if loaded[n].key == key && loaded[n].seqNo > earlier then loaded[n].seqNo else earlier
  }

  lemma {:induction false} ReachCovers<E>(loaded: seq<StoredEvent<E>>, key: StreamKey)
    ensures forall i | 0 <= i < |loaded| && loaded[i].key == key :: loaded[i].seqNo <= Reach(loaded, key)
    ensures Reach(loaded, key) > 0 ==> exists i | 0 <= i < |loaded| :: loaded[i].key == key && loaded[i].seqNo == Reach(loaded, key)
  {
    if loaded != [] {
      var n := |loaded| - 1;
      ReachCovers(loaded[..n], key);
      assert forall i | 0 <= i < n :: loaded[i] == loaded[..n][i];
      if Reach(loaded, key) > 0 {
        if loaded[n].key == key && loaded[n].seqNo > Reach(loaded[..n], key) {
          assert loaded[n].key == key;
        } else {
          var i :| 0 <= i < n && loaded[..n][i].key == key && loaded[..n][i].seqNo == Reach(loaded[..n], key);
          assert loaded[i].key == key;
        }
      }
    }
  }

  function Prefix<T>(s: seq<T>, n: nat): seq<T> {
    if n <= |s| then s[..n] else s
  }

  /** Each stream as far as it was loaded. */
  function Part<E>(streams: Streams<E>, loaded: seq<StoredEvent<E>>): Streams<E> {
    map key | key in streams :: Prefix(streams[key], Reach(loaded, key))
  }

  lemma PartOf<E>(streams: Streams<E>, loaded: seq<StoredEvent<E>>, key: StreamKey)
    ensures StreamOf(Part(streams, loaded), key) == Prefix(StreamOf(streams, key), Reach(loaded, key))
  {
  }

  lemma PartIsNumbered<E>(streams: Streams<E>, loaded: seq<StoredEvent<E>>)
    requires Numbered(streams)
    ensures Numbered(Part(streams, loaded))
  {
    hide Reach;
  }

  lemma InPart<E(!new)>(streams: Streams<E>, loaded: seq<StoredEvent<E>>, e: StoredEvent<E>)
    ensures InStore(Part(streams, loaded), e) <==> InStore(streams, e) && e.seqNo <= Reach(loaded, e.key)
  {
    hide Reach, Part;
    PartOf(streams, loaded, e.key);
  }

  /** Loaded events whose predecessors are loaded too make up the part of the store they reach. */
  lemma LoadedIsPart<E(!new)>(kind: AggregateType, tenant: TenantId, streams: Streams<E>, loaded: seq<StoredEvent<E>>)
    requires Numbered(streams) && forall e | e in loaded :: InStore(streams, e) && e.key.tenant == tenant
    requires forall d: StoredEvent<E>, e: StoredEvent<E> |
               e in loaded && InStore(streams, d) && d.key == e.key && d.seqNo < e.seqNo && d.kind == kind :: d in loaded
    ensures Complete(kind, {tenant}, Part(streams, loaded), loaded)
  {
    hide InStore, Reach, Part, Numbered;
    PartIsNumbered(streams, loaded);
    forall e: StoredEvent<E> | e in loaded
      ensures InStore(Part(streams, loaded), e)
    {
      var i :| 0 <= i < |loaded| && loaded[i] == e;
      ReachCovers(loaded, e.key);
      InPart(streams, loaded, e);
    }
    forall t | t in TenantsOf(loaded)
      ensures t in {tenant}
    {
      var i :| 0 <= i < |loaded| && loaded[i].key.tenant == t;
      assert loaded[i] in loaded;
    }
    forall d: StoredEvent<E> | InStore(Part(streams, loaded), d) && d.kind == kind && d.key.tenant in {tenant}
      ensures d in loaded
    {
      InPart(streams, loaded, d);
      PositiveNumber(streams, d);
      ReachCovers(loaded, d.key);
      var i :| 0 <= i < |loaded| && loaded[i].key == d.key && loaded[i].seqNo == Reach(loaded, d.key);
      var e := loaded[i];
      assert e in loaded;
      if d.seqNo == e.seqNo {
        SameNumberSameEvent(streams, d, e);
      }
    }
  }

  lemma PositiveNumber<E>(streams: Streams<E>, e: StoredEvent<E>)
    requires InStore(streams, e)
    ensures e.seqNo > 0
  {
  }

  lemma SameNumberSameEvent<E>(streams: Streams<E>, d: StoredEvent<E>, e: StoredEvent<E>)
    requires InStore(streams, d) && InStore(streams, e) && d.key == e.key && d.seqNo == e.seqNo
    ensures d == e
  {
  }

  lemma CollectedIsStored<E(!new)>(stores: Stores<E>, tenant: TenantId, snapshots: Snapshots<E>, last: nat, e: StoredEvent<E>)
    requires Growing(stores, tenant, snapshots) && e in Collected(snapshots, last + 1)
    ensures InStore(stores(last), e) && e.key.tenant == tenant
  {
    hide InStore, Collected, NoTies, Numbered, GrowsAt;
    var k, i := CollectedFromPage(snapshots, last + 1, e);
    assert ListedAt(stores, tenant, snapshots, k);
    assert e in snapshots(k);
    StaysStored(stores, k, last, e);
  }

  /** What is loaded of the wanted types is complete for the part of the store it reaches. */
  lemma GrowingLoadIsPart<E(!new)>(
    stores: Stores<E>, tenant: TenantId, snapshots: Snapshots<E>, last: nat, kind: AggregateType, kinds: set<AggregateType>)
    requires Growing(stores, tenant, snapshots) && (forall k: nat :: Chronological(stores(k), tenant)) && StopsAt(snapshots, last)
    requires kind in kinds
    ensures var loaded := OfKinds(Collected(snapshots, last + 1), kinds);
            Complete(kind, {tenant}, Part(stores(last), loaded), loaded)
  {
    hide Collected, OfKinds, InStore, Chronological, StopsAt, Growing, Complete;
    var collected := Collected(snapshots, last + 1);
    var loaded := OfKinds(collected, kinds);
    OfKindsMembers(collected, kinds);
    forall e: StoredEvent<E> | e in loaded
      ensures InStore(stores(last), e) && e.key.tenant == tenant
    {
      CollectedIsStored(stores, tenant, snapshots, last, e);
    }
    forall d: StoredEvent<E>, e: StoredEvent<E> |
      e in loaded && InStore(stores(last), d) && d.key == e.key && d.seqNo < e.seqNo && d.kind == kind
      ensures d in loaded
    {
      LoadedWithPredecessors(stores, tenant, snapshots, last, d, e);
    }
    GrowingIsNumbered(stores, tenant, snapshots, last);
    LoadedIsPart(kind, tenant, stores(last), loaded);
  }

  lemma GrowingIsNumbered<E(!new)>(stores: Stores<E>, tenant: TenantId, snapshots: Snapshots<E>, k: nat)
    requires Growing(stores, tenant, snapshots)
    ensures Numbered(stores(k))
  {
    assert ListedAt(stores, tenant, snapshots, k);
  }

  lemma PartIsClean<E(!new), Row>(p: RowProjection<E, Row>, streams: Streams<E>, loaded: seq<StoredEvent<E>>)
    requires Clean(p, streams)
    ensures Clean(p, Part(streams, loaded))
  {
    hide InStore, Part;
    forall e: StoredEvent<E> | InStore(Part(streams, loaded), e) && e.kind == p.kind
      ensures p.check(e).None?
    {
      InPart(streams, loaded, e);
    }
  }

  /** The part loaded of a stream lies between the stream at the start and the stream at the end. */
  lemma PartIsBetween<E(!new), Row>(
    p: RowProjection<E, Row>, stores: Stores<E>, tenant: TenantId, snapshots: Snapshots<E>, last: nat, kinds: set<AggregateType>, key: StreamKey)
    requires Growing(stores, tenant, snapshots) && StopsAt(snapshots, last) && p.kind in kinds && key.tenant == tenant
    ensures var part := Part(stores(last), OfKinds(Collected(snapshots, last + 1), kinds));
            History(p, stores(0), key) <= History(p, part, key) <= History(p, stores(last), key)
  {
    hide Collected, OfKinds, StopsAt, Growing, Reach, Part;
    var loaded := OfKinds(Collected(snapshots, last + 1), kinds);
    var part := Part(stores(last), loaded);
    PartOf(stores(last), loaded, key);
    GrowingIsNumbered(stores, tenant, snapshots, 0);
    GrowingIsNumbered(stores, tenant, snapshots, last);
    var start, end := StreamOf(stores(0), key), StreamOf(stores(last), key);
    StreamGrows(stores, tenant, snapshots, last, key);
    if History(p, stores(0), key) != [] {
      var e := start[|start| - 1];
      assert InStore(stores(0), e) && e.key == key && e.kind == p.kind;
      GrowingStoreIsCovered(stores, tenant, snapshots, last, e);
      OfKindsMembers(Collected(snapshots, last + 1), kinds);
      assert e in loaded;
      ReachCovers(loaded, key);
    }
  }

  lemma StreamGrows<E(!new)>(stores: Stores<E>, tenant: TenantId, snapshots: Snapshots<E>, last: nat, key: StreamKey)
    requires Growing(stores, tenant, snapshots)
    ensures StreamOf(stores(0), key) <= StreamOf(stores(last), key)
  {
    hide GrowsAt, ListedAt;
    GrowingIsNumbered(stores, tenant, snapshots, 0);
    var start, end := StreamOf(stores(0), key), StreamOf(stores(last), key);
    forall i | 0 <= i < |start|
      ensures i < |end| && start[i] == end[i]
    {
      assert InStore(stores(0), start[i]) && start[i].key == key;
      StaysStored(stores, 0, last, start[i]);
    }
    assert start != [] ==> start[|start| - 1] == end[|start| - 1];
  }

  /**
   If the store only grows, has no ties and is chronological, a replay that ends succeeds: it gives
   each stream of the tenant the row and cursor of a prefix at least as long as the stream was when
   loading began, and leaves other tenants alone.
   */
  lemma GrowingReplayRestores<E(!new), Row(!new)>(
    p: RowProjection<E, Row>, stores: Stores<E>, snapshots: Snapshots<E>, m: ReadModel<Row>, tenant: TenantId, kinds: set<AggregateType>, last: nat)
    requires Growing(stores, tenant, snapshots) && (forall k: nat :: Chronological(stores(k), tenant)) && StopsAt(snapshots, last)
    requires p.kind in kinds && Clean(p, stores(last))
    ensures var r := Replayed(p, m, tenant, kinds, Collected(snapshots, last + 1));
            var part := Part(stores(last), OfKinds(Collected(snapshots, last + 1), kinds));
            && r.1.None?
            && Restored(p, part, m, {tenant}, r.0)
            && (forall key: StreamKey | key.tenant == tenant ::
                  History(p, stores(0), key) <= History(p, part, key) <= History(p, stores(last), key))
  {
    hide Growing, Chronological, StopsAt, Clean, Complete, Restored, Collected, OfKinds, SortBy, Part, History;
    var loaded := OfKinds(Collected(snapshots, last + 1), kinds);
    GrowingLoadIsPart(stores, tenant, snapshots, last, p.kind, kinds);
    PartIsClean(p, stores(last), loaded);
    ReplayRestores(p, Part(stores(last), loaded), m, {tenant}, loaded);
    forall key: StreamKey | key.tenant == tenant
      ensures History(p, stores(0), key) <= History(p, Part(stores(last), loaded), key) <= History(p, stores(last), key)
    {
      PartIsBetween(p, stores, tenant, snapshots, last, kinds, key);
    }
  }

  // ---------------------------------------------------------------------------
  // Why time has to increase along a stream
  // ---------------------------------------------------------------------------

  predicate Concerns<E, Row>(p: RowProjection<E, Row>, key: StreamKey, e: StoredEvent<E>) {
    e.key == key && e.kind == p.kind
  }

  lemma {:induction false} ReplayBounds<E, Row>(p: RowProjection<E, Row>, start: ReadModel<Row>, events: seq<StoredEvent<E>>, key: StreamKey, bound: nat)
    requires Cursor(start, key) <= bound
    requires forall i | 0 <= i < |events| && Concerns(p, key, events[i]) :: events[i].seqNo <= bound
    ensures Cursor(CursorProjection.Replay(p, start, events).0, key) <= bound
  {
    if events != [] {
      var n := |events| - 1;
      ReplayBounds(p, start, events[..n], key, bound);
      assert Concerns(p, key, events[n]) ==> events[n].seqNo <= bound;
    }
  }

  lemma {:induction false} ReplayReaches<E, Row>(p: RowProjection<E, Row>, start: ReadModel<Row>, events: seq<StoredEvent<E>>, i: nat)
    requires i < |events| && events[i].kind == p.kind && CursorProjection.Replay(p, start, events).1.None?
    ensures events[i].seqNo <= Cursor(CursorProjection.Replay(p, start, events).0, events[i].key)
  {
    var n := |events| - 1;
    if i < n {
      ReplayReaches(p, start, events[..n], i);
    }
  }

  lemma FirstBeyond<E, Row>(p: RowProjection<E, Row>, events: seq<StoredEvent<E>>, key: StreamKey, bound: nat, g: nat) returns (j: nat)
    requires g < |events| && Concerns(p, key, events[g]) && events[g].seqNo > bound
    ensures j <= g && Concerns(p, key, events[j]) && events[j].seqNo > bound
    ensures forall i | 0 <= i < j && Concerns(p, key, events[i]) :: events[i].seqNo <= bound
  {
    j := 0;
    while !(Concerns(p, key, events[j]) && events[j].seqNo > bound)
      invariant j <= g
      invariant forall i | 0 <= i < j && Concerns(p, key, events[i]) :: events[i].seqNo <= bound
      decreases g - j
    {
      j := j + 1;
    }
  }

  /** A stream loaded with a gap after one of its events makes the replay fail. */
  lemma GapStopsReplay<E(!new), Row>(p: RowProjection<E, Row>, start: ReadModel<Row>, sorted: seq<StoredEvent<E>>, e: nat, g: nat)
    requires Sorted(sorted, StreamOrder) && e < |sorted| && g < |sorted|
    requires var key := sorted[e].key;
             && Concerns(p, key, sorted[e]) && Concerns(p, key, sorted[g]) && 0 < sorted[e].seqNo < sorted[g].seqNo
             && Cursor(start, key) == 0
             && forall i | 0 <= i < |sorted| && Concerns(p, key, sorted[i]) && sorted[i].seqNo > sorted[e].seqNo :: sorted[i].seqNo > sorted[e].seqNo + 1
    ensures CursorProjection.Replay(p, start, sorted).1.Some?
  {
    hide Sorted, ApplyTo;
    var key, bound := sorted[e].key, sorted[e].seqNo;
    var j := FirstBeyond(p, sorted, key, bound, g);
    EarlierInOrder(sorted, j, e);
    var before := CursorProjection.Replay(p, start, sorted[..j]);
    if before.1.Some? {
      ReplayFails(p, start, sorted, j);
    } else {
      assert forall i | 0 <= i < j :: sorted[..j][i] == sorted[i];
      ReplayBounds(p, start, sorted[..j], key, bound);
      ReplayReaches(p, start, sorted[..j], e);
      OutOfOrderFails(p, before.0, sorted[j]);
      assert sorted[..j + 1][..j] == sorted[..j];
      ReplayFails(p, start, sorted, j + 1);
    }
  }

  lemma OutOfOrderFails<E, Row>(p: RowProjection<E, Row>, m: ReadModel<Row>, e: StoredEvent<E>)
    requires e.kind == p.kind && 0 < Cursor(m, e.key) && Cursor(m, e.key) + 1 < e.seqNo
    ensures ApplyTo(p, m, e).Err?
  {
  }

  /** Every stream is loaded without a gap from its first loaded event on. */
  ghost predicate Gapless<E, Row>(p: RowProjection<E, Row>, events: seq<StoredEvent<E>>) {
    forall a, g | 0 <= a < |events| && 0 <= g < |events| && Concerns(p, events[g].key, events[a]) && events[g].kind == p.kind
                  && events[a].seqNo < events[g].seqNo :: HasNumber(p, events, events[g].key, events[a].seqNo + 1)
  }

  ghost predicate HasNumber<E, Row>(p: RowProjection<E, Row>, events: seq<StoredEvent<E>>, key: StreamKey, n: nat) {
    exists i | 0 <= i < |events| :: Concerns(p, key, events[i]) && events[i].seqNo == n
  }

  /** A cursor that moved stands at one of the events replayed. */
  lemma {:induction false} CursorIsNumber<E, Row>(p: RowProjection<E, Row>, start: ReadModel<Row>, events: seq<StoredEvent<E>>, key: StreamKey)
    requires Cursor(start, key) == 0
    ensures var c := Cursor(CursorProjection.Replay(p, start, events).0, key);
            c == 0 || HasNumber(p, events, key, c)
  {
    if events != [] {
      var n := |events| - 1;
      CursorIsNumber(p, start, events[..n], key);
      var c := Cursor(CursorProjection.Replay(p, start, events[..n]).0, key);
      if c > 0 {
        var i :| 0 <= i < n && Concerns(p, key, events[..n][i]) && events[..n][i].seqNo == c;
        assert Concerns(p, key, events[i]);
      }
      assert Concerns(p, key, events[n]) ==> HasNumber(p, events, key, events[n].seqNo);
    }
  }

  /** In stream order the next event of a gapless list is a duplicate or continues its stream. */
  lemma GaplessContinues<E(!new), Row>(p: RowProjection<E, Row>, start: ReadModel<Row>, sorted: seq<StoredEvent<E>>, j: nat)
    requires Sorted(sorted, StreamOrder) && Gapless(p, sorted) && j < |sorted| && sorted[j].kind == p.kind
    requires Cursor(start, sorted[j].key) == 0 && CursorProjection.Replay(p, start, sorted[..j]).1.None?
    ensures var c := Cursor(CursorProjection.Replay(p, start, sorted[..j]).0, sorted[j].key);
            c == 0 || sorted[j].seqNo <= c + 1
  {
    hide Sorted, CursorProjection.Replay;
    var key := sorted[j].key;
    var before := CursorProjection.Replay(p, start, sorted[..j]);
    var c := Cursor(before.0, key);
    CursorIsNumber(p, start, sorted[..j], key);
    if c > 0 && sorted[j].seqNo > c + 1 {
      var a :| 0 <= a < j && Concerns(p, key, sorted[..j][a]) && sorted[..j][a].seqNo == c;
      assert Concerns(p, key, sorted[a]) && HasNumber(p, sorted, key, c + 1);
      var i :| 0 <= i < |sorted| && Concerns(p, key, sorted[i]) && sorted[i].seqNo == c + 1;
      EarlierInOrder(sorted, j, i);
      ReplayReaches(p, start, sorted[..j], i);
    }
  }

  lemma {:induction false} GaplessReplays<E(!new), Row>(
    p: RowProjection<E, Row>, streams: Streams<E>, start: ReadModel<Row>, sorted: seq<StoredEvent<E>>, j: nat)
    requires Sorted(sorted, StreamOrder) && Gapless(p, sorted) && j <= |sorted|
    requires Faithful(streams, sorted) && Clean(p, streams) && Untouched(start, sorted)
    ensures CursorProjection.Replay(p, start, sorted[..j]).1.None?
  {
    hide Sorted, Gapless;
    if j > 0 {
      GaplessReplays(p, streams, start, sorted, j - 1);
      assert sorted[..j][..j - 1] == sorted[..j - 1];
      var e := sorted[j - 1];
      assert InStore(streams, e) && Cursor(start, e.key) == 0;
      if e.kind == p.kind {
        GaplessContinues(p, start, sorted, j - 1);
      }
    }
  }

  /** Exactly when a replay succeeds: when every stream was loaded without a gap from its first loaded event on. */
  lemma ReplaySucceedsIff<E(!new), Row>(p: RowProjection<E, Row>, streams: Streams<E>, start: ReadModel<Row>, sorted: seq<StoredEvent<E>>)
    requires Sorted(sorted, StreamOrder) && Faithful(streams, sorted) && Clean(p, streams) && Untouched(start, sorted)
    ensures CursorProjection.Replay(p, start, sorted).1.None? <==> Gapless(p, sorted)
  {
    hide Sorted, CursorProjection.Replay;
    assert sorted[..|sorted|] == sorted;
    if Gapless(p, sorted) {
      GaplessReplays(p, streams, start, sorted, |sorted|);
    } else {
      var a, g :| 0 <= a < |sorted| && 0 <= g < |sorted| && Concerns(p, sorted[g].key, sorted[a]) && sorted[g].kind == p.kind
                  && sorted[a].seqNo < sorted[g].seqNo && !HasNumber(p, sorted, sorted[g].key, sorted[a].seqNo + 1);
      assert InStore(streams, sorted[a]) && Cursor(start, sorted[a].key) == 0;
      GapStopsReplay(p, start, sorted, a, g);
    }
  }

  /** The first event of the `i`-th of 1001 streams, at distinct times. */
  function Spread<E>(payload: E, kind: AggregateType, i: nat): StoredEvent<E>
    requires i < 1001
  {
    StoredEvent(StreamKey(0, i), kind, 1, 2000 - i, payload)
  }

  /** The second event of the first stream, dated after everything else. */
  function Second<E>(payload: E, kind: AggregateType): StoredEvent<E> {
    StoredEvent(StreamKey(0, 0), kind, 2, 3000, payload)
  }

  /** The third event of the first stream, dated before everything else. */
  function Backdated<E>(payload: E, kind: AggregateType): StoredEvent<E> {
    StoredEvent(StreamKey(0, 0), kind, 3, 1, payload)
  }

  ghost function FirstStore<E>(payload: E, kind: AggregateType): Streams<E> {
    map i: nat | i < 1001 :: StreamKey(0, i) := [Spread(payload, kind, i)]
  }

  /** The first stream has grown by two events, the second of them backdated. */
  ghost function LaterStore<E>(payload: E, kind: AggregateType): Streams<E> {
    FirstStore(payload, kind)[StreamKey(0, 0) := [Spread(payload, kind, 0), Second(payload, kind), Backdated(payload, kind)]]
  }

  function FirstList<E>(payload: E, kind: AggregateType): seq<StoredEvent<E>> {
    seq(1001, i requires 0 <= i < 1001 => Spread(payload, kind, i))
  }

  function LaterList<E>(payload: E, kind: AggregateType): seq<StoredEvent<E>> {
    [Second(payload, kind)] + FirstList(payload, kind) + [Backdated(payload, kind)]
  }

  ghost function GrownStores<E>(payload: E, kind: AggregateType): Stores<E> {
    (k: nat) => if k == 0 then FirstStore(payload, kind) else LaterStore(payload, kind)
  }

  function GrownLists<E>(payload: E, kind: AggregateType): Snapshots<E> {
    (k: nat) => if k == 0 then FirstList(payload, kind) else LaterList(payload, kind)
  }

  ghost predicate Descending<E>(list: seq<StoredEvent<E>>) {
    forall i, j | 0 <= i < j < |list| :: list[i].occurredAt > list[j].occurredAt
  }

  lemma DescendingIsUntied<E(!new)>(list: seq<StoredEvent<E>>)
    requires Descending(list)
    ensures Sorted(list, TimeOrder) && Distinct(list) && NoTies(list, TimeOrder)
  {
    forall x, y | x in list && y in list && TimeOrder(x, y) && TimeOrder(y, x)
      ensures x == y
    {
      var i :| 0 <= i < |list| && list[i] == x;
      var j :| 0 <= j < |list| && list[j] == y;
      assert i == j;
    }
  }

  lemma FirstMembers<E(!new)>(payload: E, kind: AggregateType, e: StoredEvent<E>)
    ensures e in FirstList(payload, kind) <==> InStore(FirstStore(payload, kind), e)
    ensures e in FirstList(payload, kind) ==> e.key.tenant == 0
  {
    if InStore(FirstStore(payload, kind), e) {
      assert FirstList(payload, kind)[e.key.aggregate] == e;
    }
  }

  lemma FirstIsListed<E(!new)>(payload: E, kind: AggregateType)
    ensures Numbered(FirstStore(payload, kind))
    ensures Lists(FirstStore(payload, kind), 0, NoFilter(), FirstList(payload, kind))
    ensures NoTies(FirstList(payload, kind), TimeOrder)
  {
    hide InStore, NoTies, Sorted, Distinct;
    var list := FirstList(payload, kind);
    assert Descending(list);
    DescendingIsUntied(list);
    forall e: StoredEvent<E>
      ensures e in list <==> InStore(FirstStore(payload, kind), e) && e.key.tenant == 0 && NoFilter().Admits(e)
    {
      FirstMembers(payload, kind, e);
    }
  }

  lemma LaterStoreHolds<E(!new)>(payload: E, kind: AggregateType, e: StoredEvent<E>)
    ensures InStore(LaterStore(payload, kind), e) <==>
              InStore(FirstStore(payload, kind), e) || e == Second(payload, kind) || e == Backdated(payload, kind)
  {
    var first, later := FirstStore(payload, kind), LaterStore(payload, kind);
    var key := StreamKey(0, 0);
    assert StreamOf(first, key) == [Spread(payload, kind, 0)];
    assert StreamOf(later, key) == [Spread(payload, kind, 0), Second(payload, kind), Backdated(payload, kind)];
    assert e.key != key ==> StreamOf(later, e.key) == StreamOf(first, e.key);
  }

  lemma LaterTimes<E(!new)>(payload: E, kind: AggregateType)
    ensures Descending(LaterList(payload, kind))
  {
    var list := LaterList(payload, kind);
    assert forall i | 0 <= i < 1003 :: list[i].occurredAt == if i == 0 then 3000 else if i == 1002 then 1 else 2001 - i;
  }

  lemma LaterMembers<E(!new)>(payload: E, kind: AggregateType, e: StoredEvent<E>)
    ensures e in LaterList(payload, kind) <==> InStore(LaterStore(payload, kind), e)
    ensures e in LaterList(payload, kind) ==> e.key.tenant == 0
  {
    hide FirstList, FirstStore, LaterStore, InStore;
    LaterStoreHolds(payload, kind, e);
    FirstMembers(payload, kind, e);
  }

  lemma LaterIsListed<E(!new)>(payload: E, kind: AggregateType)
    ensures Numbered(LaterStore(payload, kind))
    ensures Lists(LaterStore(payload, kind), 0, NoFilter(), LaterList(payload, kind))
    ensures NoTies(LaterList(payload, kind), TimeOrder)
  {
    hide LaterStore, LaterList, InStore, NoTies, Sorted, Distinct, Descending, Numbered;
    var list := LaterList(payload, kind);
    LaterTimes(payload, kind);
    DescendingIsUntied(list);
    LaterIsNumbered(payload, kind);
    forall e: StoredEvent<E>
      ensures e in list <==> InStore(LaterStore(payload, kind), e) && e.key.tenant == 0 && NoFilter().Admits(e)
    {
      LaterMembers(payload, kind, e);
    }
  }

  lemma LaterIsNumbered<E(!new)>(payload: E, kind: AggregateType)
    ensures Numbered(LaterStore(payload, kind))
  {
  }

  lemma GrownIsGrowing<E(!new)>(payload: E, kind: AggregateType)
    ensures Growing(GrownStores(payload, kind), 0, GrownLists(payload, kind))
  {
    hide FirstStore, LaterStore, FirstList, LaterList, Lists, NoTies, InStore, Numbered;
    var stores, snapshots := GrownStores(payload, kind), GrownLists(payload, kind);
    FirstIsListed(payload, kind);
    LaterIsListed(payload, kind);
    forall k: nat
      ensures GrowsAt(stores, k)
    {
      forall e: StoredEvent<E> | InStore(stores(k), e)
        ensures InStore(stores(k + 1), e)
      {
        LaterStoreHolds(payload, kind, e);
      }
    }
    forall k: nat
      ensures ListedAt(stores, 0, snapshots, k)
    {
    }
  }

  lemma GrownIsCollected<E(!new)>(payload: E, kind: AggregateType)
    ensures var collected := Collected(GrownLists(payload, kind), 2);
            && StopsAt(GrownLists(payload, kind), 1)
            && |collected| == 1003
            && collected[0] == Spread(payload, kind, 0)
            && collected[1002] == Backdated(payload, kind)
            && Second(payload, kind) !in collected
  {
    var snapshots := GrownLists(payload, kind);
    var first, later := FirstList(payload, kind), LaterList(payload, kind);
    assert snapshots(0) == first && snapshots(1) == later;
    assert Page(first, 0) == first[..1000] && Page(later, 1) == later[1000..1003];
    assert Collected(snapshots, 0) == [];
    assert Collected(snapshots, 1) == Page(first, 0);
    assert Collected(snapshots, 2) == Page(first, 0) + Page(later, 1);
  }

  /** A backdated event appended while the log is loaded makes the replay fail, although the store only grew and has no ties. */
  lemma BackdatedEventStopsReplay<E(!new), Row>(p: RowProjection<E, Row>, m: ReadModel<Row>, payload: E)
    ensures Growing(GrownStores(payload, p.kind), 0, GrownLists(payload, p.kind))
    ensures StopsAt(GrownLists(payload, p.kind), 1)
    ensures Replayed(p, m, 0, {p.kind}, Collected(GrownLists(payload, p.kind), 2)).1.Some?
  {
    hide Growing, GrownStores, GrownLists, StopsAt, Collected, SortBy, OfKinds, Sorted;
    GrownIsGrowing(payload, p.kind);
    GrownIsCollected(payload, p.kind);
    var collected := Collected(GrownLists(payload, p.kind), 2);
    var loaded := OfKinds(collected, {p.kind});
    var sorted := SortBy(loaded, StreamOrder);
    var first, third := Spread(payload, p.kind, 0), Backdated(payload, p.kind);
    assert first in collected && third in collected;
    OfKindsMembers(collected, {p.kind});
    StreamOrderIsTotal<E>();
    SortBySorts(loaded, StreamOrder);
    SortBySameMembers(loaded, StreamOrder);
    var e :| 0 <= e < |sorted| && sorted[e] == first;
    var g :| 0 <= g < |sorted| && sorted[g] == third;
    forall i | 0 <= i < |sorted| && Concerns(p, first.key, sorted[i]) && sorted[i].seqNo > 1
      ensures sorted[i].seqNo > 2
    {
      assert sorted[i] in sorted && sorted[i] in loaded && sorted[i] in collected;
      NoSecond(payload, p.kind, sorted[i]);
    }
    GapStopsReplay(p, ClearTenants(m, {0}), sorted, e, g);
  }

  lemma NoSecond<E(!new)>(payload: E, kind: AggregateType, x: StoredEvent<E>)
    requires x in Collected(GrownLists(payload, kind), 2) && x.key == StreamKey(0, 0)
    ensures x.seqNo != 2
  {
    hide Collected, LaterList, FirstList, FirstStore, LaterStore;
    GrownIsGrowing(payload, kind);
    GrownIsCollected(payload, kind);
    CollectedIsStored(GrownStores(payload, kind), 0, GrownLists(payload, kind), 1, x);
    if x.seqNo == 2 {
      OnlySecond(payload, kind, x);
    }
  }

  lemma OnlySecond<E(!new)>(payload: E, kind: AggregateType, x: StoredEvent<E>)
    requires InStore(GrownStores(payload, kind)(1), x) && x.key == StreamKey(0, 0) && x.seqNo == 2
    ensures x == Second(payload, kind)
  {
    assert GrownStores(payload, kind)(1) == LaterStore(payload, kind);
    assert StreamOf(LaterStore(payload, kind), x.key)[1] == Second(payload, kind);
  }
}
