/** The inventory stock projection (crates/infra/src/projections/inventory_stock.rs). */
module StockView {
  import opened Core
  import opened EventStore
  import opened CursorProjection
  import opened ErpPayloads
  import Inventory

  datatype StockRow = StockRow(item: AggregateId, name: string, quantity: I64)

  function Check(e: Envelope): Option<ProjectionError> {
    if !e.payload.Stock? then Some(DeserializeError)
    else if e.payload.stock.tenant != e.key.tenant then Some(TenantIsolationError)
    else if e.payload.stock.item != e.key.aggregate then Some(TenantIsolationError)
    else None
  }

  function Update(row: Option<StockRow>, ev: Inventory.Event): StockRow {
    match ev
    case ItemCreated(_, item, name, _) => StockRow(item, name, 0)
    case StockAdjusted(_, item, delta, _) =>
      var rm := if row.Some? then row.value else StockRow(item, "", 0);
      rm.(quantity := WrapI64(rm.quantity + delta))
  }

  function Step(row: Option<StockRow>, e: Envelope): Option<StockRow> {
    if e.payload.Stock? then Some(Update(row, e.payload.stock)) else None
  }

  function Projected(): RowProjection<Payload, StockRow> {
    RowProjection(InventoryItemType, Check, Step)
  }

  lemma HealthyIsClean(streams: Streams<Payload>)
    requires Healthy(streams)
    ensures Clean(Projected(), streams)
  {
    hide Inventory.Accepted, Inventory.Fold, IsBlank;
    forall e: Envelope | InStore(streams, e) && e.kind == InventoryItemType
      ensures Check(e).None?
    {
      var h := StreamOf(streams, e.key);
      assert HealthyStream(e.key, h);
      Inventory.StockIsTrueStock(e.key, StockEvents(h));
      assert Inventory.BelongsTo(e.key, StockEvents(h)[e.seqNo - 1]);
    }
  }

  /** The row after a typed history. */
  function Shown(history: seq<Inventory.Event>): Option<StockRow> {
    if history == [] then None
    else Some(Update(Shown(history[..|history| - 1]), history[|history| - 1]))
  }

  lemma {:induction false} FoldIsShown(h: seq<Envelope>)
    requires AllOf(h, InventoryItemType)
    ensures FoldRow(Projected(), h) == Shown(StockEvents(h))
  {
    hide Update;
    if h != [] {
      var n := |h| - 1;
      FoldIsShown(h[..n]);
      assert StockEvents(h)[..n] == StockEvents(h[..n]);
      assert KindOf(h[n].payload) == InventoryItemType;
    }
  }

  /** On every accepted history the row shows the aggregate's name and stock: no sum ever wraps. */
  lemma {:induction false} RowShowsAggregate(key: StreamKey, history: seq<Inventory.Event>)
    requires Inventory.Accepted(key, history)
    ensures var item := Inventory.Fold(key, history);
            Shown(history) == if history == [] then None else Some(StockRow(key.aggregate, item.name, item.stock))
    ensures history != [] ==> Shown(history).value.quantity == Inventory.TrueStock(history)
  {
    hide IsBlank, WrapI64;
    Inventory.StockIsTrueStock(key, history);
    if history != [] {
      var n := |history| - 1;
      RowShowsAggregate(key, history[..n]);
      assert Inventory.BelongsTo(key, history[n]);
    }
  }

  /** A stretch without the creation has no name. */
  lemma {:induction false} HeadlessStretch(history: seq<Inventory.Event>)
    requires history != [] && forall i | 0 <= i < |history| :: history[i].StockAdjusted?
    ensures Shown(history).Some? && Shown(history).value.name == ""
  {
    hide WrapI64;
    var n := |history| - 1;
    if n > 0 {
      HeadlessStretch(history[..n]);
    }
  }

  lemma {:induction false} PrefixAccepted(key: StreamKey, history: seq<Inventory.Event>, c: nat)
    requires Inventory.Accepted(key, history) && c <= |history|
    ensures Inventory.Accepted(key, history[..c])
  {
    hide Inventory.AcceptedNext;
    if c == |history| {
      assert history[..c] == history;
    } else {
      var n := |history| - 1;
      assert history[..n][..c] == history[..c];
      PrefixAccepted(key, history[..n], c);
    }
  }

  lemma HeadlessRowDiffers(key: StreamKey, history: seq<Inventory.Event>, first: nat, c: nat)
    requires Inventory.Accepted(key, history)
    requires 1 < first <= c <= |history|
    ensures Shown(history[first - 1..c]) != Shown(history[..c])
  {
    hide Inventory.Accepted, Inventory.Fold, Shown;
    var tail := history[first - 1..c];
    Inventory.StockIsTrueStock(key, history);
    assert forall i | 0 <= i < |tail| :: tail[i] == history[first - 1 + i];
    HeadlessStretch(tail);
    PrefixAccepted(key, history, c);
    RowShowsAggregate(key, history[..c]);
    Inventory.StockIsTrueStock(key, history[..c]);
    assert IsBlank("");
  }

  lemma StretchDiffers(key: StreamKey, h: seq<Envelope>, first: nat, c: nat)
    requires AllOf(h, InventoryItemType) && Inventory.Accepted(key, StockEvents(h))
    requires 1 < first <= c <= |h|
    ensures FoldRow(Projected(), h[first - 1..c]) != FoldRow(Projected(), h[..c])
  {
    hide Inventory.Accepted, FoldRow, Shown, Projected;
    var history := StockEvents(h);
    HeadlessRowDiffers(key, history, first, c);
    FoldIsShown(h[first - 1..c]);
    FoldIsShown(h[..c]);
    assert StockEvents(h[first - 1..c]) == history[first - 1..c];
    assert StockEvents(h[..c]) == history[..c];
  }

  /**
   Exactly when the row equals the fold of events 1..cursor, for every delivery sequence over a
   healthy log: when event 1 was the first envelope delivered for the stream.
   */
  lemma RowExactIffFirstFirst(streams: Streams<Payload>, envelopes: seq<Envelope>, key: StreamKey)
    requires Healthy(streams) && Faithful(streams, envelopes)
    ensures var m := Deliver(Projected(), Blank(), envelopes);
            var h := History(Projected(), streams, key);
            && Cursor(m, key) <= |h|
            && (RowOf(m, key) == FoldRow(Projected(), h[..Cursor(m, key)]) <==> FirstSeen(Projected(), envelopes, key) <= 1)
  {
    hide Clean, FoldRow, Deliver, FirstSeen;
    HealthyIsClean(streams);
    DeliveredStretch(Projected(), streams, envelopes, key);
    var first := FirstSeen(Projected(), envelopes, key);
    if first <= 1 {
      RowIsPrefixFold(Projected(), streams, envelopes, key);
    } else {
      var c := Cursor(Deliver(Projected(), Blank(), envelopes), key);
      assert HealthyStream(key, StreamOf(streams, key));
      StretchDiffers(key, StreamOf(streams, key), first, c);
    }
  }

  /** A new stock envelope is taken exactly when it carries an event of its own tenant and item; otherwise the refusal says why. */
  lemma AppliedIff(m: ReadModel<StockRow>, e: Envelope)
    requires e.kind == InventoryItemType && e.seqNo > 0 && (Cursor(m, e.key) == 0 || e.seqNo == Cursor(m, e.key) + 1)
    ensures var own := e.payload.Stock? && e.payload.stock.tenant == e.key.tenant && e.payload.stock.item == e.key.aggregate;
            && (own ==> ApplyTo(Projected(), m, e).Ok?)
            && (!own ==> ApplyTo(Projected(), m, e) == Err(if e.payload.Stock? then TenantIsolationError else DeserializeError))
  {
  }

  lemma WrapAdds(x: int, y: int)
    ensures WrapI64(WrapI64(x) + y) == WrapI64(x + y)
  {
    var q := (x + I64_LIMIT) / U64_LIMIT;
    assert WrapI64(x) == x - q * U64_LIMIT;
    ShiftMod64(x + y + I64_LIMIT, q);
  }

  /** A stretch without the creation shows the wrapped sum of its deltas. */
  lemma {:induction false} HeadlessQuantity(history: seq<Inventory.Event>)
    requires history != [] && forall i | 0 <= i < |history| :: history[i].StockAdjusted? && history[i].item == history[0].item
    ensures Shown(history) == Some(StockRow(history[0].item, "", WrapI64(Inventory.TrueStock(history))))
  {
    hide WrapI64;
    var n := |history| - 1;
    if n > 0 {
      HeadlessQuantity(history[..n]);
      WrapAdds(Inventory.TrueStock(history[..n]), history[n].delta);
    } else {
      assert history[..0] == [];
      assert Inventory.TrueStock(history) == history[0].delta;
    }
  }
}
