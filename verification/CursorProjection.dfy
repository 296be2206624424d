/**
 Idempotent read models kept by a per-stream cursor: the pattern shared by the stock, invoice,
 aging and open-invoice projections (crates/infra/src/projections/inventory_stock.rs and siblings).

 An envelope carries the metadata and payload of a stored event, so stored events stand for both.
 */
module CursorProjection {
  import opened Core
  import opened EventStore
  import opened Sorting

  datatype ProjectionError =
    | DeserializeError
    | TenantIsolationError
    | NonMonotonicSequence(last: nat, found: nat)

  datatype Admission = Fresh | Duplicate | OutOfOrder

  /** The cursor check. A stream's first envelope may carry any positive number. */
  function Admit(last: nat, found: nat): Admission {
    if found == 0 then OutOfOrder
    else if found <= last then Duplicate
    else if found != last + 1 && last != 0 then OutOfOrder
    else Fresh
  }

  /**
   What distinguishes one projection from another: the aggregate type it listens to, the payload
   checks it makes, and the row it writes (`None` writes nothing).
   */
  datatype RowProjection<!E, !Row> = RowProjection(
    kind: AggregateType,
    check: StoredEvent<E> -> Option<ProjectionError>,
    step: (Option<Row>, StoredEvent<E>) -> Option<Row>)

  datatype ReadModel<+Row> = ReadModel(rows: map<StreamKey, Row>, cursors: map<StreamKey, nat>)

  function CursorOf(cursors: map<StreamKey, nat>, key: StreamKey): nat {
    if key in cursors then cursors[key] else 0
  }

  function Cursor<Row>(m: ReadModel<Row>, key: StreamKey): nat {
    CursorOf(m.cursors, key)
  }

  function RowOf<Row>(m: ReadModel<Row>, key: StreamKey): Option<Row> {
    if key in m.rows then Some(m.rows[key]) else None
  }

  function Written<E, Row>(p: RowProjection<E, Row>, row: Option<Row>, e: StoredEvent<E>): Option<Row> {
    match p.step(row, e)
    case None => row
    case Some(r) => Some(r)
  }

  /** The plain fold of a stretch of a stream. */
  function FoldRow<E, Row>(p: RowProjection<E, Row>, events: seq<StoredEvent<E>>): Option<Row> {
    if events == [] then None
    else Written(p, FoldRow(p, events[..|events| - 1]), events[|events| - 1])
  }

  function ApplyTo<E, Row>(p: RowProjection<E, Row>, m: ReadModel<Row>, e: StoredEvent<E>): Result<ReadModel<Row>, ProjectionError> {
    if e.kind != p.kind then Ok(m)
    else
      var last := Cursor(m, e.key);
      match Admit(last, e.seqNo)
      case OutOfOrder => Err(NonMonotonicSequence(last, e.seqNo))
      case Duplicate => Ok(m)
      case Fresh =>
        match p.check(e)
        case Some(fault) => Err(fault)
        case None =>
          var row := p.step(RowOf(m, e.key), e);
          Ok(ReadModel(if row.Some? then m.rows[e.key := row.value] else m.rows, m.cursors[e.key := e.seqNo]))
  }

  /** Another aggregate type and a number already passed change nothing. */
  lemma PassedIsIgnored<E, Row>(p: RowProjection<E, Row>, m: ReadModel<Row>, e: StoredEvent<E>)
    requires e.kind != p.kind || 0 < e.seqNo <= Cursor(m, e.key)
    ensures ApplyTo(p, m, e) == Ok(m)
  {
  }

  /** Number 0 and a gap are refused, and both numbers are reported. */
  lemma GapIsRefused<E, Row>(p: RowProjection<E, Row>, m: ReadModel<Row>, e: StoredEvent<E>)
    requires e.kind == p.kind && (e.seqNo == 0 || 1 < Cursor(m, e.key) + 1 < e.seqNo)
    ensures ApplyTo(p, m, e) == Err(NonMonotonicSequence(Cursor(m, e.key), e.seqNo))
  {
  }

  /** The next number, or any first one, is applied exactly when the payload passes the checks. */
  lemma NewsIsChecked<E, Row>(p: RowProjection<E, Row>, m: ReadModel<Row>, e: StoredEvent<E>)
    requires e.kind == p.kind && e.seqNo > 0 && (Cursor(m, e.key) == 0 || e.seqNo == Cursor(m, e.key) + 1)
    ensures ApplyTo(p, m, e).Ok? <==> p.check(e).None?
    ensures p.check(e).Some? ==> ApplyTo(p, m, e) == Err(p.check(e).value)
  {
  }

  function Blank<Row>(): ReadModel<Row> {
    ReadModel(map[], map[])
  }

  /** The subscriber: a failing envelope is logged and skipped. */
  function Deliver<E, Row>(p: RowProjection<E, Row>, m: ReadModel<Row>, envelopes: seq<StoredEvent<E>>): ReadModel<Row> {
    if envelopes == [] then m
    else
      var n := |envelopes| - 1;
      var before := Deliver(p, m, envelopes[..n]);
      match ApplyTo(p, before, envelopes[n])
      case Ok(after) => after
      case Err(_) => before
  }

  /** Nothing but stored events is delivered: in any order, any number of times, or not at all. */
  ghost predicate Faithful<E>(streams: Streams<E>, envelopes: seq<StoredEvent<E>>) {
    Numbered(streams) && forall e | e in envelopes :: InStore(streams, e)
  }

  /** The stream as far as the projection is concerned. */
  function History<E, Row>(p: RowProjection<E, Row>, streams: Streams<E>, key: StreamKey): seq<StoredEvent<E>> {
    var stream := StreamOf(streams, key);
    if stream != [] && stream[0].kind == p.kind then stream else []
  }

  /** Every stored event of the projection's type passes its payload checks. */
  ghost predicate Clean<E(!new), Row>(p: RowProjection<E, Row>, streams: Streams<E>) {
    forall e: StoredEvent<E> | InStore(streams, e) && e.kind == p.kind :: p.check(e).None?
  }

  /** The number of the first envelope delivered for a stream; 0 if there was none. */
  function FirstSeen<E, Row>(p: RowProjection<E, Row>, envelopes: seq<StoredEvent<E>>, key: StreamKey): nat {
    if envelopes == [] then 0
    else
      var n := |envelopes| - 1;
      var earlier := FirstSeen(p, envelopes[..n], key);
      if earlier != 0 then earlier
      else if envelopes[n].key == key && envelopes[n].kind == p.kind then envelopes[n].seqNo
      else 0
  }

  lemma StoredIsInHistory<E, Row>(p: RowProjection<E, Row>, streams: Streams<E>, e: StoredEvent<E>)
    requires Numbered(streams) && InStore(streams, e) && e.kind == p.kind
    ensures 1 <= e.seqNo <= |History(p, streams, e.key)|
    ensures History(p, streams, e.key)[e.seqNo - 1] == e
  {
  }

  lemma FoldSlice<E, Row>(p: RowProjection<E, Row>, h: seq<StoredEvent<E>>, first: nat, c: nat)
    requires 1 <= first <= c < |h|
    ensures FoldRow(p, h[first - 1..c + 1]) == Written(p, FoldRow(p, h[first - 1..c]), h[c])
  {
    var s := h[first - 1..c + 1];
    assert s[..|s| - 1] == h[first - 1..c];
  }

  /** The stretch of a stream its row stands for, and the row. */
  ghost predicate Stretch<E, Row>(p: RowProjection<E, Row>, h: seq<StoredEvent<E>>, first: nat, cursor: nat, row: Option<Row>) {
    && cursor <= |h|
    && (first == 0 ==> cursor == 0 && row.None?)
    && (first > 0 ==> first <= cursor && row == FoldRow(p, h[first - 1..cursor]))
  }

  /** An admitted envelope writes its own row and cursor and nothing else. */
  lemma StretchStep<E, Row>(p: RowProjection<E, Row>, m: ReadModel<Row>, e: StoredEvent<E>)
    requires e.kind == p.kind && Admit(Cursor(m, e.key), e.seqNo).Fresh? && p.check(e).None?
    ensures ApplyTo(p, m, e).Ok?
    ensures var after := ApplyTo(p, m, e).value;
            && RowOf(after, e.key) == Written(p, RowOf(m, e.key), e)
            && Cursor(after, e.key) == e.seqNo
            && forall k | k != e.key :: RowOf(after, k) == RowOf(m, k) && Cursor(after, k) == Cursor(m, k)
  {
  }

  lemma StretchGrows<E, Row>(p: RowProjection<E, Row>, h: seq<StoredEvent<E>>, first: nat, cursor: nat, row: Option<Row>, e: StoredEvent<E>)
    requires Stretch(p, h, first, cursor, row)
    requires 1 <= e.seqNo <= |h| && h[e.seqNo - 1] == e && Admit(cursor, e.seqNo).Fresh?
    ensures Stretch(p, h, if first == 0 then e.seqNo else first, e.seqNo, Written(p, row, e))
  {
    if first == 0 {
      assert h[e.seqNo - 1..e.seqNo] == [e];
      assert [e][..0] == [];
    } else {
      FoldSlice(p, h, first, cursor);
    }
  }

  /**
   Whatever is duplicated, reordered or lost: a stream's row is the fold of the unbroken stretch
   from the first envelope delivered for it up to its cursor.
   */
  lemma {:induction false} DeliveredStretch<E(!new), Row>(p: RowProjection<E, Row>, streams: Streams<E>, envelopes: seq<StoredEvent<E>>, key: StreamKey)
    requires Faithful(streams, envelopes) && Clean(p, streams)
    ensures var m := Deliver(p, Blank(), envelopes);
            Stretch(p, History(p, streams, key), FirstSeen(p, envelopes, key), Cursor(m, key), RowOf(m, key))
  {
    if envelopes != [] {
      var n := |envelopes| - 1;
      DeliveredStretch(p, streams, envelopes[..n], key);
      DeliverOne(p, streams, Deliver(p, Blank(), envelopes[..n]), envelopes[n], key, FirstSeen(p, envelopes[..n], key));
    }
  }

  lemma DeliverOne<E(!new), Row>(p: RowProjection<E, Row>, streams: Streams<E>, m: ReadModel<Row>, e: StoredEvent<E>, key: StreamKey, first: nat)
    requires Numbered(streams) && InStore(streams, e) && Clean(p, streams)
    requires Stretch(p, History(p, streams, key), first, Cursor(m, key), RowOf(m, key))
    ensures var after := match ApplyTo(p, m, e) case Ok(a) => a case Err(_) => m;
            var first' := if first == 0 && e.key == key && e.kind == p.kind then e.seqNo else first;
            Stretch(p, History(p, streams, key), first', Cursor(after, key), RowOf(after, key))
  {
    hide Written, FoldRow, History;
    if e.kind == p.kind {
      StoredIsInHistory(p, streams, e);
      if Admit(Cursor(m, e.key), e.seqNo).Fresh? {
        StretchStep(p, m, e);
        if e.key == key {
          StretchGrows(p, History(p, streams, key), first, Cursor(m, key), RowOf(m, key), e);
        }
      }
    }
  }

  /** If event 1 of a stream is delivered before its others, its row is always the fold of events 1..cursor. */
  lemma RowIsPrefixFold<E(!new), Row>(p: RowProjection<E, Row>, streams: Streams<E>, envelopes: seq<StoredEvent<E>>, key: StreamKey)
    requires Faithful(streams, envelopes) && Clean(p, streams)
    requires FirstSeen(p, envelopes, key) <= 1
    ensures var m := Deliver(p, Blank(), envelopes);
            && Cursor(m, key) <= |History(p, streams, key)|
            && RowOf(m, key) == FoldRow(p, History(p, streams, key)[..Cursor(m, key)])
  {
    DeliveredStretch(p, streams, envelopes, key);
    var c := Cursor(Deliver(p, Blank(), envelopes), key);
    assert c > 0 ==> History(p, streams, key)[0..c] == History(p, streams, key)[..c];
  }

  /** A cursor never moves back, whatever is delivered. */
  lemma {:induction false} CursorNeverDecreases<E, Row>(p: RowProjection<E, Row>, m: ReadModel<Row>, envelopes: seq<StoredEvent<E>>, i: nat, key: StreamKey)
    requires i <= |envelopes|
    ensures Cursor(Deliver(p, m, envelopes[..i]), key) <= Cursor(Deliver(p, m, envelopes), key)
  {
    if i == |envelopes| {
      assert envelopes[..i] == envelopes;
    } else {
      var n := |envelopes| - 1;
      assert envelopes[..n][..i] == envelopes[..i];
      CursorNeverDecreases(p, m, envelopes[..n], i, key);
    }
  }

  lemma NextIsReached<E, Row>(p: RowProjection<E, Row>, envelopes: seq<StoredEvent<E>>, x: nat)
    requires x < |envelopes|
    requires var e := envelopes[x];
             && e.kind == p.kind && p.check(e).None?
             && 1 <= e.seqNo <= Cursor(Deliver(p, Blank(), envelopes[..x]), e.key) + 1
    ensures Cursor(Deliver(p, Blank(), envelopes), envelopes[x].key) >= envelopes[x].seqNo
  {
    assert envelopes[..x + 1][..x] == envelopes[..x];
    CursorNeverDecreases(p, Blank(), envelopes, x + 1, envelopes[x].key);
  }

  /** Whenever events 1..n of a stream appear in order among the deliveries, the cursor reaches n. */
  lemma {:induction false} InOrderDeliveriesSuffice<E(!new), Row>(
    p: RowProjection<E, Row>, streams: Streams<E>, envelopes: seq<StoredEvent<E>>, key: StreamKey, at: seq<nat>)
    requires Faithful(streams, envelopes) && Clean(p, streams)
    requires |at| <= |History(p, streams, key)|
    requires forall i | 0 <= i < |at| :: at[i] < |envelopes| && envelopes[at[i]] == History(p, streams, key)[i]
    requires forall i, j | 0 <= i < j < |at| :: at[i] < at[j]
    ensures Cursor(Deliver(p, Blank(), envelopes), key) >= |at|
    decreases |at|
  {
    if at != [] {
      var n := |at| - 1;
      var x := at[n];
      var e := envelopes[x];
      assert e.kind == p.kind && e.key == key && e.seqNo == n + 1 && p.check(e).None? by {
        assert InStore(streams, e);
      }
      assert Cursor(Deliver(p, Blank(), envelopes[..x]), key) >= n by {
        hide Deliver, Cursor;
        assert forall i | 0 <= i < n :: at[..n][i] < x && envelopes[..x][at[..n][i]] == envelopes[at[i]];
        InOrderDeliveriesSuffice(p, streams, envelopes[..x], key, at[..n]);
      }
      NextIsReached(p, envelopes, x);
    }
  }

  /** Projections of one aggregate type advance together. */
  lemma {:induction false} SameCursors<E(!new), R, S>(p: RowProjection<E, R>, q: RowProjection<E, S>, streams: Streams<E>, envelopes: seq<StoredEvent<E>>, key: StreamKey)
    requires p.kind == q.kind && Faithful(streams, envelopes) && Clean(p, streams) && Clean(q, streams)
    ensures Cursor(Deliver(p, Blank(), envelopes), key) == Cursor(Deliver(q, Blank(), envelopes), key)
    ensures FirstSeen(p, envelopes, key) == FirstSeen(q, envelopes, key)
  {
    if envelopes != [] {
      var n := |envelopes| - 1;
      var e := envelopes[n];
      SameCursors(p, q, streams, envelopes[..n], key);
      SameCursors(p, q, streams, envelopes[..n], e.key);
      assert InStore(streams, e);
    }
  }

  // ---------------------------------------------------------------------------
  // Rebuilding
  // ---------------------------------------------------------------------------

  function TenantsOf<E>(envelopes: seq<StoredEvent<E>>): set<TenantId> {
    set i | 0 <= i < |envelopes| :: envelopes[i].key.tenant
  }

  function ClearTenants<Row>(m: ReadModel<Row>, tenants: set<TenantId>): ReadModel<Row> {
    ReadModel(map k | k in m.rows && k.tenant !in tenants :: m.rows[k],
              map k | k in m.cursors && k.tenant !in tenants :: m.cursors[k])
  }

  /** The deterministic replay order: tenant, aggregate, sequence number. */
  predicate StreamOrder<E>(a: StoredEvent<E>, b: StoredEvent<E>) {
    if a.key.tenant != b.key.tenant then a.key.tenant < b.key.tenant
    else if a.key.aggregate != b.key.aggregate then a.key.aggregate < b.key.aggregate
    else a.seqNo <= b.seqNo
  }

  lemma StreamOrderIsTotal<E(!new)>()
    ensures TotalPreorder<StoredEvent<E>>(StreamOrder)
  {
  }

  /** Applies envelopes until one fails. */
  function Replay<E, Row>(p: RowProjection<E, Row>, m: ReadModel<Row>, envelopes: seq<StoredEvent<E>>): (ReadModel<Row>, Option<ProjectionError>) {
    if envelopes == [] then (m, None)
    else
      var n := |envelopes| - 1;
      var before := Replay(p, m, envelopes[..n]);
      if before.1.Some? then before
      else
        match ApplyTo(p, before.0, envelopes[n])
        case Ok(after) => (after, None)
        case Err(fault) => (before.0, Some(fault))
  }

  lemma {:induction false} ReplayFails<E, Row>(p: RowProjection<E, Row>, m: ReadModel<Row>, envelopes: seq<StoredEvent<E>>, i: nat)
    requires i <= |envelopes|
    requires Replay(p, m, envelopes[..i]).1.Some?
    ensures Replay(p, m, envelopes) == Replay(p, m, envelopes[..i])
  {
    if i == |envelopes| {
      assert envelopes[..i] == envelopes;
    } else {
      var n := |envelopes| - 1;
      assert envelopes[..n][..i] == envelopes[..i];
      ReplayFails(p, m, envelopes[..n], i);
    }
  }

  function Rebuild<E, Row>(p: RowProjection<E, Row>, m: ReadModel<Row>, envelopes: seq<StoredEvent<E>>): (ReadModel<Row>, Option<ProjectionError>) {
    Replay(p, ClearTenants(m, TenantsOf(envelopes)), SortBy(envelopes, StreamOrder))
  }

  /** All stored events of one type that the tenants have, and perhaps others of theirs, in any order and with any repetition. */
  ghost predicate Complete<E(!new)>(kind: AggregateType, tenants: set<TenantId>, streams: Streams<E>, envelopes: seq<StoredEvent<E>>) {
    && Faithful(streams, envelopes)
    && TenantsOf(envelopes) <= tenants
    && forall e: StoredEvent<E> | InStore(streams, e) && e.kind == kind && e.key.tenant in tenants :: e in envelopes
  }

  ghost predicate IsPrefix<E, Row>(p: RowProjection<E, Row>, h: seq<StoredEvent<E>>, cursor: nat, row: Option<Row>) {
    cursor <= |h| && row == FoldRow(p, h[..cursor])
  }

  /** What is true of the read model after the first `i` envelopes of the sorted input. */
  ghost predicate Rebuilding<E(!new), Row(!new)>(
    p: RowProjection<E, Row>, streams: Streams<E>, before: ReadModel<Row>, tenants: set<TenantId>, sorted: seq<StoredEvent<E>>, i: nat, m: ReadModel<Row>)
    requires i <= |sorted|
  {
    && (forall key: StreamKey | key.tenant in tenants ::
          IsPrefix(p, History(p, streams, key), Cursor(m, key), RowOf(m, key)))
    && (forall key: StreamKey | key.tenant !in tenants :: Cursor(m, key) == Cursor(before, key) && RowOf(m, key) == RowOf(before, key))
    && (forall j | 0 <= j < i && sorted[j].kind == p.kind :: sorted[j].seqNo <= Cursor(m, sorted[j].key))
  }

  lemma EarlierInOrder<E>(sorted: seq<StoredEvent<E>>, i: nat, j: nat)
    requires Sorted(sorted, StreamOrder) && i < |sorted| && j < |sorted|
    requires sorted[i].key == sorted[j].key && sorted[j].seqNo < sorted[i].seqNo
    ensures j < i
  {
  }

  /** In stream order the predecessor of an event has already been applied. */
  lemma PredecessorApplied<E(!new), Row(!new)>(
    p: RowProjection<E, Row>, streams: Streams<E>, before: ReadModel<Row>, tenants: set<TenantId>, sorted: seq<StoredEvent<E>>, i: nat, m: ReadModel<Row>)
    requires Complete(p.kind, tenants, streams, sorted) && Sorted(sorted, StreamOrder)
    requires i < |sorted| && Rebuilding(p, streams, before, tenants, sorted, i, m)
    requires sorted[i].kind == p.kind
    ensures sorted[i].seqNo <= Cursor(m, sorted[i].key) + 1
  {
    var e := sorted[i];
    assert InStore(streams, e);
    if e.seqNo > 1 {
      var previous := StreamOf(streams, e.key)[e.seqNo - 2];
      assert InStore(streams, previous) && previous.key == e.key;
      assert previous.key.tenant in tenants;
      var j :| 0 <= j < |sorted| && sorted[j] == previous;
      EarlierInOrder(sorted, i, j);
      StoredIsInHistory(p, streams, e);
      assert previous.kind == p.kind;
    }
  }

  lemma PrefixGrows<E, Row>(p: RowProjection<E, Row>, h: seq<StoredEvent<E>>, cursor: nat, row: Option<Row>, e: StoredEvent<E>)
    requires IsPrefix(p, h, cursor, row)
    requires cursor < |h| && h[cursor] == e
    ensures IsPrefix(p, h, cursor + 1, Written(p, row, e))
  {
    assert h[..cursor + 1][..cursor] == h[..cursor];
  }

  lemma RebuildStep<E(!new), Row(!new)>(
    p: RowProjection<E, Row>, streams: Streams<E>, before: ReadModel<Row>, tenants: set<TenantId>, sorted: seq<StoredEvent<E>>, i: nat, m: ReadModel<Row>)
    requires Complete(p.kind, tenants, streams, sorted) && Sorted(sorted, StreamOrder) && Clean(p, streams)
    requires i < |sorted| && Rebuilding(p, streams, before, tenants, sorted, i, m)
    ensures ApplyTo(p, m, sorted[i]).Ok?
    ensures Rebuilding(p, streams, before, tenants, sorted, i + 1, ApplyTo(p, m, sorted[i]).value)
  {
    hide Written, IsPrefix, Sorted, History, RowOf;
    var e := sorted[i];
    if e.kind == p.kind {
      assert InStore(streams, e);
      assert e.key.tenant in TenantsOf(sorted);
      PredecessorApplied(p, streams, before, tenants, sorted, i, m);
      StoredIsInHistory(p, streams, e);
      if Admit(Cursor(m, e.key), e.seqNo).Fresh? {
        PrefixGrows(p, History(p, streams, e.key), Cursor(m, e.key), RowOf(m, e.key), e);
        StretchStep(p, m, e);
      }
    }
  }

  lemma {:induction false} ReplaySucceeds<E(!new), Row(!new)>(
    p: RowProjection<E, Row>, streams: Streams<E>, before: ReadModel<Row>, tenants: set<TenantId>, start: ReadModel<Row>, sorted: seq<StoredEvent<E>>, i: nat)
    requires Complete(p.kind, tenants, streams, sorted) && Sorted(sorted, StreamOrder) && Clean(p, streams)
    requires i <= |sorted| && Rebuilding(p, streams, before, tenants, sorted, 0, start)
    ensures Replay(p, start, sorted[..i]).1.None?
    ensures Rebuilding(p, streams, before, tenants, sorted, i, Replay(p, start, sorted[..i]).0)
  {
    hide Rebuilding, Complete, Sorted, ApplyTo;
    if i > 0 {
      ReplaySucceeds(p, streams, before, tenants, start, sorted, i - 1);
      assert sorted[..i][..i - 1] == sorted[..i - 1];
      RebuildStep(p, streams, before, tenants, sorted, i - 1, Replay(p, start, sorted[..i - 1]).0);
    }
  }

  lemma SameMembersSameTenants<E(!new)>(a: seq<StoredEvent<E>>, b: seq<StoredEvent<E>>)
    requires forall e | e in a :: e in b
    ensures TenantsOf(a) <= TenantsOf(b)
  {
    forall t | t in TenantsOf(a)
      ensures t in TenantsOf(b)
    {
      var i :| 0 <= i < |a| && a[i].key.tenant == t;
      assert a[i] in b;
    }
  }

  lemma SortedComplete<E(!new)>(kind: AggregateType, tenants: set<TenantId>, streams: Streams<E>, envelopes: seq<StoredEvent<E>>)
    requires Complete(kind, tenants, streams, envelopes)
    ensures Complete(kind, tenants, streams, SortBy(envelopes, StreamOrder))
    ensures TenantsOf(SortBy(envelopes, StreamOrder)) == TenantsOf(envelopes)
    ensures Sorted(SortBy(envelopes, StreamOrder), StreamOrder)
  {
    hide SortBy, Sorted, TotalPreorder, TenantsOf, InStore;
    StreamOrderIsTotal<E>();
    SortBySorts(envelopes, StreamOrder);
    SortBySameMembers(envelopes, StreamOrder);
    var sorted := SortBy(envelopes, StreamOrder);
    SameMembersSameTenants(sorted, envelopes);
    SameMembersSameTenants(envelopes, sorted);
  }

  lemma ClearedStart<E(!new), Row(!new)>(
    p: RowProjection<E, Row>, streams: Streams<E>, m: ReadModel<Row>, tenants: set<TenantId>, sorted: seq<StoredEvent<E>>)
    ensures Rebuilding(p, streams, m, tenants, sorted, 0, ClearTenants(m, tenants))
  {
  }

  /** Each stream of the tenants has the row and cursor of its whole history; every other tenant is as it was. */
  ghost predicate Restored<E(!new), Row(!new)>(
    p: RowProjection<E, Row>, streams: Streams<E>, before: ReadModel<Row>, tenants: set<TenantId>, after: ReadModel<Row>)
  {
    && (forall key: StreamKey | key.tenant in tenants ::
          && Cursor(after, key) == |History(p, streams, key)|
          && RowOf(after, key) == FoldRow(p, History(p, streams, key)))
    && (forall key: StreamKey | key.tenant !in tenants ::
          Cursor(after, key) == Cursor(before, key) && RowOf(after, key) == RowOf(before, key))
  }

  /** Clearing some tenants and replaying their sorted events, repetitions included, succeeds and restores them. */
  lemma ReplayRestores<E(!new), Row(!new)>(
    p: RowProjection<E, Row>, streams: Streams<E>, m: ReadModel<Row>, tenants: set<TenantId>, envelopes: seq<StoredEvent<E>>)
    requires Complete(p.kind, tenants, streams, envelopes) && Clean(p, streams)
    ensures var r := Replay(p, ClearTenants(m, tenants), SortBy(envelopes, StreamOrder));
            r.1.None? && Restored(p, streams, m, tenants, r.0)
  {
    hide SortBy, Replay, ClearTenants, TenantsOf, History, FoldRow, Cursor, RowOf;
    var sorted := SortBy(envelopes, StreamOrder);
    var start := ClearTenants(m, tenants);
    SortedComplete(p.kind, tenants, streams, envelopes);
    ClearedStart(p, streams, m, tenants, sorted);
    ReplaySucceeds(p, streams, m, tenants, start, sorted, |sorted|);
    assert sorted[..|sorted|] == sorted;
    var r := Replay(p, start, sorted).0;
    forall key: StreamKey | key.tenant in tenants
      ensures Cursor(r, key) == |History(p, streams, key)|
      ensures RowOf(r, key) == FoldRow(p, History(p, streams, key))
    {
      LastIsApplied(p, streams, m, tenants, sorted, r, key);
      var h := History(p, streams, key);
      assert h[..|h|] == h;
    }
  }

  /**
   Rebuilding from any permutation, with any repetition, of the complete streams of some tenants
   succeeds, gives each of their streams the fold of its whole history, and leaves every other
   tenant as it was.
   */
  lemma RebuildRestores<E(!new), Row(!new)>(p: RowProjection<E, Row>, streams: Streams<E>, m: ReadModel<Row>, envelopes: seq<StoredEvent<E>>)
    requires Complete(p.kind, TenantsOf(envelopes), streams, envelopes) && Clean(p, streams)
    ensures var r := Rebuild(p, m, envelopes);
            r.1.None? && Restored(p, streams, m, TenantsOf(envelopes), r.0)
  {
    hide Restored, Complete, Clean, SortBy, Replay, ClearTenants, TenantsOf;
    ReplayRestores(p, streams, m, TenantsOf(envelopes), envelopes);
  }

  lemma LastIsApplied<E(!new), Row(!new)>(
    p: RowProjection<E, Row>, streams: Streams<E>, before: ReadModel<Row>, tenants: set<TenantId>, sorted: seq<StoredEvent<E>>, m: ReadModel<Row>, key: StreamKey)
    requires Complete(p.kind, tenants, streams, sorted) && Rebuilding(p, streams, before, tenants, sorted, |sorted|, m)
    requires key.tenant in tenants
    ensures Cursor(m, key) == |History(p, streams, key)|
  {
    hide FoldRow, RowOf, Cursor;
    var h := History(p, streams, key);
    if h != [] {
      var last := h[|h| - 1];
      assert InStore(streams, last) && last.key == key;
      var j :| 0 <= j < |sorted| && sorted[j] == last;
      assert last.kind == p.kind;
    }
  }

  /** A live model that has caught up, event 1 first, is the rebuilt one. */
  lemma LiveEqualsRebuilt<E(!new), Row(!new)>(
    p: RowProjection<E, Row>, streams: Streams<E>, live: seq<StoredEvent<E>>, m: ReadModel<Row>, envelopes: seq<StoredEvent<E>>, key: StreamKey)
    requires Faithful(streams, live) && Complete(p.kind, TenantsOf(envelopes), streams, envelopes) && Clean(p, streams)
    requires key.tenant in TenantsOf(envelopes)
    requires FirstSeen(p, live, key) <= 1
    requires Cursor(Deliver(p, Blank(), live), key) == |History(p, streams, key)|
    ensures RowOf(Deliver(p, Blank(), live), key) == RowOf(Rebuild(p, m, envelopes).0, key)
    ensures Cursor(Deliver(p, Blank(), live), key) == Cursor(Rebuild(p, m, envelopes).0, key)
  {
    RowIsPrefixFold(p, streams, live, key);
    RebuildRestores(p, streams, m, envelopes);
    var h := History(p, streams, key);
    assert h[..|h|] == h;
  }

  // ---------------------------------------------------------------------------
  // The envelopes that took effect
  // ---------------------------------------------------------------------------

  predicate TakesEffect<E, Row>(p: RowProjection<E, Row>, cursors: map<StreamKey, nat>, e: StoredEvent<E>) {
    e.kind == p.kind && Admit(CursorOf(cursors, e.key), e.seqNo).Fresh? && p.check(e).None?
  }

  /** The delivered envelopes that advanced a cursor, in the order they did. */
  function Journal<E, Row>(p: RowProjection<E, Row>, m: ReadModel<Row>, envelopes: seq<StoredEvent<E>>): seq<StoredEvent<E>> {
    if envelopes == [] then []
    else
      var n := |envelopes| - 1;
      Journal(p, m, envelopes[..n]) +
      if TakesEffect(p, Deliver(p, m, envelopes[..n]).cursors, envelopes[n]) then [envelopes[n]] else []
  }

  ghost predicate Distinct<T>(s: seq<T>) {
    forall i, j | 0 <= i < j < |s| :: s[i] != s[j]
  }

  /** A stored event that lies on the stretch its stream's cursor has covered. */
  ghost predicate Covered<E, Row>(
    p: RowProjection<E, Row>, streams: Streams<E>, m: ReadModel<Row>, envelopes: seq<StoredEvent<E>>, e: StoredEvent<E>)
  {
    && InStore(streams, e) && e.kind == p.kind
    && 0 < FirstSeen(p, envelopes, e.key) <= e.seqNo <= Cursor(Deliver(p, m, envelopes), e.key)
  }

  /** Nothing has been applied yet to the streams these envelopes belong to. */
  ghost predicate Untouched<E, Row>(m: ReadModel<Row>, envelopes: seq<StoredEvent<E>>) {
    forall i | 0 <= i < |envelopes| :: Cursor(m, envelopes[i].key) == 0
  }

  lemma {:induction false} UnseenIsUntouched<E, Row>(p: RowProjection<E, Row>, streams: Streams<E>, m: ReadModel<Row>, envelopes: seq<StoredEvent<E>>, key: StreamKey)
    requires Faithful(streams, envelopes) && FirstSeen(p, envelopes, key) == 0
    ensures Cursor(Deliver(p, m, envelopes), key) == Cursor(m, key)
  {
    if envelopes != [] {
      var n := |envelopes| - 1;
      assert InStore(streams, envelopes[n]);
      UnseenIsUntouched(p, streams, m, envelopes[..n], key);
    }
  }

  lemma {:induction false} SeenIsApplied<E(!new), Row>(p: RowProjection<E, Row>, streams: Streams<E>, m: ReadModel<Row>, envelopes: seq<StoredEvent<E>>, key: StreamKey)
    requires Faithful(streams, envelopes) && Clean(p, streams) && Untouched(m, envelopes)
    requires FirstSeen(p, envelopes, key) > 0
    ensures FirstSeen(p, envelopes, key) <= Cursor(Deliver(p, m, envelopes), key)
  {
    var n := |envelopes| - 1;
    var e := envelopes[n];
    assert InStore(streams, e);
    if FirstSeen(p, envelopes[..n], key) > 0 {
      SeenIsApplied(p, streams, m, envelopes[..n], key);
    } else {
      UnseenIsUntouched(p, streams, m, envelopes[..n], key);
      assert Cursor(m, e.key) == 0;
    }
  }

  lemma EffectCovers<E(!new), Row>(
    p: RowProjection<E, Row>, streams: Streams<E>, m: ReadModel<Row>, envelopes: seq<StoredEvent<E>>, n: nat, x: StoredEvent<E>)
    requires Faithful(streams, envelopes) && Clean(p, streams) && Untouched(m, envelopes)
    requires |envelopes| == n + 1
    ensures Covered(p, streams, m, envelopes, x) <==>
              Covered(p, streams, m, envelopes[..n], x) ||
              (x == envelopes[n] && TakesEffect(p, Deliver(p, m, envelopes[..n]).cursors, x))
    ensures TakesEffect(p, Deliver(p, m, envelopes[..n]).cursors, x) ==> !Covered(p, streams, m, envelopes[..n], x)
  {
    var e := envelopes[n];
    assert InStore(streams, e);
    var init := envelopes[..n];
    var before := Deliver(p, m, init);
    if FirstSeen(p, init, e.key) == 0 {
      UnseenIsUntouched(p, streams, m, init, e.key);
      assert Cursor(m, e.key) == 0;
    } else {
      SeenIsApplied(p, streams, m, init, e.key);
    }
  }

  /** The journal holds exactly the covered events, each of them once. */
  lemma {:induction false} JournalIsCovered<E(!new), Row>(p: RowProjection<E, Row>, streams: Streams<E>, m: ReadModel<Row>, envelopes: seq<StoredEvent<E>>)
    requires Faithful(streams, envelopes) && Clean(p, streams) && Untouched(m, envelopes)
    ensures Distinct(Journal(p, m, envelopes))
    ensures forall e: StoredEvent<E> :: e in Journal(p, m, envelopes) <==> Covered(p, streams, m, envelopes, e)
  {
    if envelopes != [] {
      var n := |envelopes| - 1;
      JournalIsCovered(p, streams, m, envelopes[..n]);
      forall e: StoredEvent<E>
        ensures e in Journal(p, m, envelopes) <==> Covered(p, streams, m, envelopes, e)
      {
        hide Covered, TakesEffect;
        EffectCovers(p, streams, m, envelopes, n, e);
      }
      assert Distinct(Journal(p, m, envelopes)) by {
        hide Covered, TakesEffect;
        EffectCovers(p, streams, m, envelopes, n, envelopes[n]);
      }
    }
  }

  /** Duplicate-free lists with the same members are permutations of each other. */
  lemma DistinctSameMembers<T(!new)>(a: seq<T>, b: seq<T>)
    requires Distinct(a) && Distinct(b)
    requires forall x :: x in a <==> x in b
    ensures multiset(a) == multiset(b)
  {
    forall x
      ensures multiset(a)[x] == multiset(b)[x]
    {
      DistinctCount(a, x);
      DistinctCount(b, x);
    }
  }

  lemma {:induction false} DistinctCount<T>(s: seq<T>, x: T)
    requires Distinct(s)
    ensures multiset(s)[x] == if x in s then 1 else 0
  {
    if s != [] {
      var n := |s| - 1;
      assert s == s[..n] + [s[n]];
      DistinctCount(s[..n], x);
    }
  }

  // ---------------------------------------------------------------------------
  // The projection object
  // ---------------------------------------------------------------------------

  class Projection<E(!new), Row(!new)> {
    const def: RowProjection<E, Row>
    var rows: map<StreamKey, Row>
    var cursors: map<StreamKey, nat>

    function Model(): ReadModel<Row>
      reads this
    {
      ReadModel(rows, cursors)
    }

    constructor (def: RowProjection<E, Row>)
      ensures this.def == def && Model() == Blank()
    {
      this.def := def;
      rows, cursors := map[], map[];
    }

    method ApplyEnvelope(e: StoredEvent<E>) returns (r: Option<ProjectionError>)
      modifies this
      ensures match ApplyTo(def, old(Model()), e)
              case Ok(after) => r.None? && Model() == after
              case Err(fault) => r == Some(fault) && Model() == old(Model())
    {
      if e.kind != def.kind {
        return None;
      }
      var last := CursorOf(cursors, e.key);
      if e.seqNo == 0 {
        return Some(NonMonotonicSequence(last, e.seqNo));
      }
      if e.seqNo <= last {
        return None;
      }
      if e.seqNo != last + 1 && last != 0 {
        return Some(NonMonotonicSequence(last, e.seqNo));
      }
      var fault := def.check(e);
      if fault.Some? {
        return fault;
      }
      var row := def.step(if e.key in rows then Some(rows[e.key]) else None, e);
      if row.Some? {
        rows := rows[e.key := row.value];
      }
      cursors := cursors[e.key := e.seqNo];
      return None;
    }

    method ClearTenant(tenant: TenantId)
      modifies this
      ensures Model() == ClearTenants(old(Model()), {tenant})
    {
      rows := map k | k in rows && k.tenant !in {tenant} :: rows[k];
      cursors := map k | k in cursors && k.tenant !in {tenant} :: cursors[k];
    }

    method RebuildFromScratch(envelopes: seq<StoredEvent<E>>) returns (r: Option<ProjectionError>)
      modifies this
      ensures (Model(), r) == Rebuild(def, old(Model()), envelopes)
    {
      hide SortBy, ApplyTo;
      ghost var start := Model();
      var tenants := TenantsOf(envelopes);
      rows := map k | k in rows && k.tenant !in tenants :: rows[k];
      cursors := map k | k in cursors && k.tenant !in tenants :: cursors[k];
      assert Model() == ClearTenants(start, tenants);
      ghost var cleared := Model();
      var sorted := SortBy(envelopes, StreamOrder);
      for i := 0 to |sorted|
        invariant Replay(def, cleared, sorted[..i]) == (Model(), None)
      {
        assert sorted[..i + 1][..i] == sorted[..i];
        var fault := ApplyEnvelope(sorted[i]);
        if fault.Some? {
          ReplayFails(def, cleared, sorted, i + 1);
          return fault;
        }
      }
      assert sorted[..|sorted|] == sorted;
      return None;
    }
  }
}
