/** The typed payloads that share one event log, and what it means for a log to be healthy. */
module ErpPayloads {
  import opened Core
  import opened EventStore
  import Inventory
  import Invoicing
  import Ledger
  import Purchasing
  import Sales

  datatype Payload =
    | Stock(stock: Inventory.Event)
    | Bill(bill: Invoicing.Event)
    | Entry(entry: Ledger.Event)
    | Purchase(purchase: Purchasing.Event)
    | Sale(sale: Sales.Event)

  type Envelope = StoredEvent<Payload>

  function KindOf(p: Payload): AggregateType {
    match p
    case Stock(_) => InventoryItemType
    case Bill(_) => InvoiceType
    case Entry(_) => LedgerType
    case Purchase(_) => PurchaseOrderType
    case Sale(_) => SalesOrderType
  }

  ghost predicate AllOf(h: seq<Envelope>, kind: AggregateType) {
    forall i | 0 <= i < |h| :: KindOf(h[i].payload) == kind
  }

  function StockEvents(h: seq<Envelope>): seq<Inventory.Event>
    requires AllOf(h, InventoryItemType)
  {
    seq(|h|, i requires 0 <= i < |h| => h[i].payload.stock)
  }

  function Bills(h: seq<Envelope>): seq<Invoicing.Event>
    requires AllOf(h, InvoiceType)
  {
    seq(|h|, i requires 0 <= i < |h| => h[i].payload.bill)
  }

  function Entries(h: seq<Envelope>): seq<Ledger.Event>
    requires AllOf(h, LedgerType)
  {
    seq(|h|, i requires 0 <= i < |h| => h[i].payload.entry)
  }

  function Purchases(h: seq<Envelope>): seq<Purchasing.Event>
    requires AllOf(h, PurchaseOrderType)
  {
    seq(|h|, i requires 0 <= i < |h| => h[i].payload.purchase)
  }

  function Sold(h: seq<Envelope>): seq<Sales.Event>
    requires AllOf(h, SalesOrderType)
  {
    seq(|h|, i requires 0 <= i < |h| => h[i].payload.sale)
  }

  /** The stream is an accepted history of the aggregate its type names. */
  ghost predicate HealthyStream(key: StreamKey, h: seq<Envelope>) {
    h != [] ==>
      && AllOf(h, h[0].kind)
      && match h[0].kind
         case InventoryItemType => Inventory.Accepted(key, StockEvents(h))
         case InvoiceType => Invoicing.Accepted(key, Bills(h))
         case LedgerType => Ledger.Accepted(key, Entries(h))
         case PurchaseOrderType => Purchasing.Accepted(key, Purchases(h))
         case SalesOrderType => Sales.Accepted(key, Sold(h))
  }

  ghost predicate Healthy(streams: Streams<Payload>) {
    Numbered(streams) && forall key :: HealthyStream(key, StreamOf(streams, key))
  }
}
