/**
 What the pipeline does with a command on a healthy log
 (crates/infra/src/command_dispatcher.rs with the aggregates' handlers): it commits exactly the
 commands the history calls for, and the stored event does what the command says.
 */
module ErpDispatch {
  import opened Core
  import opened EventStore
  import opened Dispatcher
  import opened ErpPayloads
  import opened Erp
  import Inventory
  import Invoicing
  import Ledger
  import Purchasing
  import Sales

  /** The command names the stream's tenant and aggregate. */
  predicate Addresses(cmd: Command, key: StreamKey) {
    match cmd
    case StockCommand(c) => c.tenant == key.tenant && c.item == key.aggregate
    case BillCommand(c) => c.tenant == key.tenant && c.invoice == key.aggregate
    case EntryCommand(c) => c.tenant == key.tenant && c.ledger == key.aggregate
    case PurchaseCommand(c) => c.tenant == key.tenant && c.order == key.aggregate
    case SaleCommand(c) => c.tenant == key.tenant && c.order == key.aggregate
  }

  /** The aggregate type a command is for. */
  function TypeOf(cmd: Command): AggregateType {
    if cmd.StockCommand? then InventoryItemType
    else if cmd.BillCommand? then InvoiceType
    else if cmd.EntryCommand? then LedgerType
    else if cmd.PurchaseCommand? then PurchaseOrderType
    else SalesOrderType
  }

  /** Why the aggregate refuses the command, in terms of the events in its stream. */
  ghost function Refusal(stream: seq<Envelope>, cmd: Command): Option<DomainError>
    requires AllOf(stream, TypeOf(cmd))
  {
    match cmd
    case StockCommand(c) => Inventory.Refusal(StockEvents(stream), c)
    case BillCommand(c) => Invoicing.Refusal(Bills(stream), c)
    case EntryCommand(c) => Ledger.Refusal(c)
    case PurchaseCommand(c) => Purchasing.Refusal(Purchases(stream), c)
    case SaleCommand(c) => Sales.Refusal(Sold(stream), c)
  }

  /** The stored event continues the stream and does what the command says, at the command's time. */
  ghost predicate Carries(key: StreamKey, stream: seq<Envelope>, cmd: Command, e: Envelope)
    requires AllOf(stream, TypeOf(cmd))
  {
    && e.key == key && e.seqNo == |stream| + 1 && e.kind == KindOf(e.payload) == TypeOf(cmd)
    && AllOf(stream + [e], TypeOf(cmd))
    && match cmd
       case StockCommand(c) =>
         && e.occurredAt == c.occurredAt
         && Inventory.Done(Inventory.Fold(key, StockEvents(stream)), c, e.payload.stock, Inventory.Fold(key, StockEvents(stream + [e])))
       case BillCommand(c) =>
         && e.occurredAt == c.occurredAt
         && Invoicing.Done(Invoicing.Fold(key, Bills(stream)), c, e.payload.bill, Invoicing.Fold(key, Bills(stream + [e])))
       case EntryCommand(c) => e.occurredAt == c.occurredAt && Ledger.Done(c, e.payload.entry)
       case PurchaseCommand(c) =>
         && e.occurredAt == c.occurredAt
         && Purchasing.Done(Purchasing.Fold(key, Purchases(stream)), c, e.payload.purchase, Purchasing.Fold(key, Purchases(stream + [e])))
       case SaleCommand(c) =>
         && e.occurredAt == c.occurredAt
         && Sales.Done(Sales.Fold(key, Sold(stream)), c, e.payload.sale, Sales.Fold(key, Sold(stream + [e])))
  }

  // ---------------------------------------------------------------------------
  // Rehydration
  // ---------------------------------------------------------------------------

  /** The aggregate's state after a stream of its own events. */
  function StateAfter(key: StreamKey, kind: AggregateType, stream: seq<Envelope>): State
    requires AllOf(stream, kind)
  {
    match kind
    case InventoryItemType => ItemState(Inventory.Fold(key, StockEvents(stream)))
    case InvoiceType => InvoiceState(Invoicing.Fold(key, Bills(stream)))
    case LedgerType => LedgerState(Ledger.Fold(key, Entries(stream)))
    case PurchaseOrderType => PurchaseState(Purchasing.Fold(key, Purchases(stream)))
    case SalesOrderType => SaleState(Sales.Fold(key, Sold(stream)))
  }

  lemma StateStep(key: StreamKey, kind: AggregateType, stream: seq<Envelope>, e: Envelope)
    requires AllOf(stream, kind) && KindOf(e.payload) == kind
    ensures AllOf(stream + [e], kind)
    ensures Evolve(StateAfter(key, kind, stream), e.payload) == Some(StateAfter(key, kind, stream + [e]))
  {
    var longer := stream + [e];
    var n := |stream|;
    match kind
    case InventoryItemType => assert StockEvents(longer)[..n] == StockEvents(stream);
    case InvoiceType => assert Bills(longer)[..n] == Bills(stream);
    case LedgerType => assert Entries(longer)[..n] == Entries(stream);
    case PurchaseOrderType => assert Purchases(longer)[..n] == Purchases(stream);
    case SalesOrderType => assert Sold(longer)[..n] == Sold(stream);
  }

  lemma StateOfNothing(key: StreamKey, kind: AggregateType)
    ensures StateAfter(key, kind, []) == Make(kind, key)
    ensures Evolved(Aggregates(), Make(kind, key), []) == Some(Make(kind, key))
  {
  }

  /** Rehydrating a stream of the aggregate's own type is the typed fold. */
  lemma {:induction false} Rehydrates(key: StreamKey, kind: AggregateType, stream: seq<Envelope>)
    requires AllOf(stream, kind)
    ensures Evolved(Aggregates(), Make(kind, key), Payloads(stream)) == Some(StateAfter(key, kind, stream))
  {
    hide Evolved, Evolve, StateAfter, Make, Aggregates;
    if stream == [] {
      StateOfNothing(key, kind);
      assert Payloads(stream) == [];
    } else {
      var n := |stream| - 1;
      var init, e := stream[..n], stream[n];
      Rehydrates(key, kind, init);
      StateStep(key, kind, init, e);
      EvolvedSnoc(Make(kind, key), Payloads(init), StateAfter(key, kind, init), e.payload);
      assert Payloads(stream) == Payloads(init) + [e.payload];
      assert init + [e] == stream;
    }
  }

  /** Events of another type do not deserialize. */
  lemma ForeignFails(key: StreamKey, kind: AggregateType, stream: seq<Envelope>)
    requires stream != [] && KindOf(stream[0].payload) != kind
    ensures Evolved(Aggregates(), Make(kind, key), Payloads(stream)).None?
  {
    var history := Payloads(stream);
    assert history[..1] == [] + [stream[0].payload];
    StateOfNothing(key, kind);
    EvolvedSnoc(Make(kind, key), [], Make(kind, key), stream[0].payload);
    EvolvedFails(Aggregates(), Make(kind, key), history, 1);
  }

  // ---------------------------------------------------------------------------
  // The decision
  // ---------------------------------------------------------------------------

  /** The decision on a stream of the command's own type. */
  ghost predicate Decides(key: StreamKey, stream: seq<Envelope>, cmd: Command)
    requires AllOf(stream, TypeOf(cmd))
  {
    var r := Judge(StateAfter(key, TypeOf(cmd), stream), cmd);
    match Refusal(stream, cmd)
    case Some(cause) => r == Err(cause)
    case None =>
      && r.Ok? && |r.value| == 1
      && Carries(key, stream, cmd, StoredEvent(key, TypeOf(cmd), |stream| + 1, OccurredAt(r.value[0]), r.value[0]))
  }

  lemma StockDecides(key: StreamKey, stream: seq<Envelope>, cmd: Command)
    requires cmd.StockCommand? && Addresses(cmd, key) && AllOf(stream, InventoryItemType) && Inventory.Accepted(key, StockEvents(stream))
    ensures Decides(key, stream, cmd)
  {
    hide Inventory.Handle, Inventory.Fold, Inventory.Accepted, Inventory.Refusal, Inventory.Done;
    var history := StockEvents(stream);
    Inventory.AnswerIs(key, history, cmd.stock);
    if Inventory.Refusal(history, cmd.stock).None? {
      Inventory.CommandDoes(key, history, cmd.stock);
      var r := Inventory.Handle(Inventory.Fold(key, history), cmd.stock);
      var e := StoredEvent(key, InventoryItemType, |stream| + 1, OccurredAt(Stock(r.value[0])), Stock(r.value[0]));
      assert AllOf(stream + [e], InventoryItemType);
      assert StockEvents(stream + [e]) == history + r.value;
      DoneAtStock(Inventory.Fold(key, history), cmd.stock, r.value[0], Inventory.Fold(key, history + r.value));
    }
  }

  lemma DoneAtStock(a: Inventory.Item, c: Inventory.Command, ev: Inventory.Event, b: Inventory.Item)
    requires Inventory.Done(a, c, ev, b)
    ensures ev.occurredAt == c.occurredAt
  {
  }

  lemma BillDecides(key: StreamKey, stream: seq<Envelope>, cmd: Command)
    requires cmd.BillCommand? && Addresses(cmd, key) && AllOf(stream, InvoiceType) && Invoicing.Accepted(key, Bills(stream))
    ensures Decides(key, stream, cmd)
  {
    hide Invoicing.Handle, Invoicing.Fold, Invoicing.Accepted, Invoicing.Refusal, Invoicing.Done;
    var history := Bills(stream);
    Invoicing.AnswerIs(key, history, cmd.bill);
    if Invoicing.Refusal(history, cmd.bill).None? {
      Invoicing.CommandDoes(key, history, cmd.bill);
      var r := Invoicing.Handle(Invoicing.Fold(key, history), cmd.bill);
      var e := StoredEvent(key, InvoiceType, |stream| + 1, OccurredAt(Bill(r.value[0])), Bill(r.value[0]));
      assert AllOf(stream + [e], InvoiceType);
      assert Bills(stream + [e]) == history + r.value;
      DoneAtBill(Invoicing.Fold(key, history), cmd.bill, r.value[0], Invoicing.Fold(key, history + r.value));
    }
  }

  lemma DoneAtBill(a: Invoicing.InvoiceState, c: Invoicing.Command, ev: Invoicing.Event, b: Invoicing.InvoiceState)
    requires Invoicing.Done(a, c, ev, b)
    ensures ev.occurredAt == c.occurredAt
  {
  }

  lemma EntryDecides(key: StreamKey, stream: seq<Envelope>, cmd: Command)
    requires cmd.EntryCommand? && Addresses(cmd, key) && AllOf(stream, LedgerType) && Ledger.Accepted(key, Entries(stream))
    ensures Decides(key, stream, cmd)
  {
    hide Ledger.Handle, Ledger.Fold, Ledger.Accepted, Ledger.Refusal;
    var history := Entries(stream);
    Ledger.AnswerIs(key, history, cmd.entry);
    if Ledger.Refusal(cmd.entry).None? {
      Ledger.CommandDoes(key, history, cmd.entry);
      var r := Ledger.Handle(Ledger.Fold(key, history), cmd.entry);
      var e := StoredEvent(key, LedgerType, |stream| + 1, OccurredAt(Entry(r.value[0])), Entry(r.value[0]));
      assert AllOf(stream + [e], LedgerType);
    }
  }

  lemma PurchaseDecides(key: StreamKey, stream: seq<Envelope>, cmd: Command)
    requires cmd.PurchaseCommand? && Addresses(cmd, key) && AllOf(stream, PurchaseOrderType) && Purchasing.Accepted(key, Purchases(stream))
    ensures Decides(key, stream, cmd)
  {
    hide Purchasing.Handle, Purchasing.Fold, Purchasing.Accepted, Purchasing.Refusal, Purchasing.Done;
    var history := Purchases(stream);
    Purchasing.AnswerIs(key, history, cmd.purchase);
    if Purchasing.Refusal(history, cmd.purchase).None? {
      Purchasing.CommandDoes(key, history, cmd.purchase);
      var r := Purchasing.Handle(Purchasing.Fold(key, history), cmd.purchase);
      var e := StoredEvent(key, PurchaseOrderType, |stream| + 1, OccurredAt(Purchase(r.value[0])), Purchase(r.value[0]));
      assert AllOf(stream + [e], PurchaseOrderType);
      assert Purchases(stream + [e]) == history + r.value;
      DoneAtPurchase(Purchasing.Fold(key, history), cmd.purchase, r.value[0], Purchasing.Fold(key, history + r.value));
    }
  }

  lemma DoneAtPurchase(a: Purchasing.Order, c: Purchasing.Command, ev: Purchasing.Event, b: Purchasing.Order)
    requires Purchasing.Done(a, c, ev, b)
    ensures ev.occurredAt == c.occurredAt
  {
  }

  lemma SaleDecides(key: StreamKey, stream: seq<Envelope>, cmd: Command)
    requires cmd.SaleCommand? && Addresses(cmd, key) && AllOf(stream, SalesOrderType) && Sales.Accepted(key, Sold(stream))
    ensures Decides(key, stream, cmd)
  {
    hide Sales.Handle, Sales.Fold, Sales.Accepted, Sales.Refusal, Sales.Done;
    var history := Sold(stream);
    Sales.AnswerIs(key, history, cmd.sale);
    if Sales.Refusal(history, cmd.sale).None? {
      Sales.CommandDoes(key, history, cmd.sale);
      var r := Sales.Handle(Sales.Fold(key, history), cmd.sale);
      var e := StoredEvent(key, SalesOrderType, |stream| + 1, OccurredAt(Sale(r.value[0])), Sale(r.value[0]));
      assert AllOf(stream + [e], SalesOrderType);
      assert Sold(stream + [e]) == history + r.value;
      DoneAtSale(Sales.Fold(key, history), cmd.sale, r.value[0], Sales.Fold(key, history + r.value));
    }
  }

  lemma DoneAtSale(a: Sales.Order, c: Sales.Command, ev: Sales.Event, b: Sales.Order)
    requires Sales.Done(a, c, ev, b)
    ensures ev.occurredAt == c.occurredAt
  {
  }

  lemma HealthyDecides(key: StreamKey, stream: seq<Envelope>, cmd: Command)
    requires HealthyStream(key, stream) && Addresses(cmd, key) && (stream == [] || stream[0].kind == TypeOf(cmd))
    ensures AllOf(stream, TypeOf(cmd)) && Decides(key, stream, cmd)
  {
    hide Decides, Addresses, Inventory.Accepted, Invoicing.Accepted, Ledger.Accepted, Purchasing.Accepted, Sales.Accepted;
    NothingIsAccepted(key);
    match cmd
    case StockCommand(_) =>
      assert stream == [] ==> StockEvents(stream) == [];
      StockDecides(key, stream, cmd);
    case BillCommand(_) =>
      assert stream == [] ==> Bills(stream) == [];
      BillDecides(key, stream, cmd);
    case EntryCommand(_) =>
      assert stream == [] ==> Entries(stream) == [];
      EntryDecides(key, stream, cmd);
    case PurchaseCommand(_) =>
      assert stream == [] ==> Purchases(stream) == [];
      PurchaseDecides(key, stream, cmd);
    case SaleCommand(_) =>
      assert stream == [] ==> Sold(stream) == [];
      SaleDecides(key, stream, cmd);
  }

  lemma NothingIsAccepted(key: StreamKey)
    ensures Inventory.Accepted(key, []) && Invoicing.Accepted(key, []) && Ledger.Accepted(key, [])
    ensures Purchasing.Accepted(key, []) && Sales.Accepted(key, [])
  {
  }

  // ---------------------------------------------------------------------------
  // The pipeline
  // ---------------------------------------------------------------------------

  lemma HealthyIsFaultFree(streams: Streams<Payload>, key: StreamKey)
    requires Healthy(streams)
    ensures StreamFault(key, StreamOf(streams, key)).None?
    ensures CurrentVersion(StreamOf(streams, key)) == |StreamOf(streams, key)|
  {
    hide HealthyStream, StreamFault;
    var stream := StreamOf(streams, key);
    NumberedVersion(streams, key);
    FaultFreeIsSorted(key, stream);
    forall i | 0 <= i < |stream|
      ensures Fits(key, stream, i)
    {
      assert i > 0 ==> stream[i - 1].seqNo == i;
    }
  }

  lemma KindIsType(cmd: Command)
    ensures Aggregates().kind(cmd) == TypeOf(cmd)
  {
  }

  lemma StoredOne(key: StreamKey, cmd: Command, p: Payload, version: nat)
    ensures Dispatcher.Stored(Aggregates(), key, cmd, [p], version) == [StoredEvent(key, TypeOf(cmd), version + 1, OccurredAt(p), p)]
  {
  }

  /**
   On every healthy log and for every command, undisturbed: a command for another type of aggregate
   fails to rehydrate; otherwise it is refused with the reason the history gives, or commits one
   event that does what the command says.
   */
  lemma DispatchAnswers(streams: Streams<Payload>, key: StreamKey, cmd: Command)
    requires Healthy(streams) && Addresses(cmd, key)
    ensures var stream, outcome := StreamOf(streams, key), AtomicOutcome(Aggregates(), key, cmd, StreamOf(streams, key));
            if stream != [] && stream[0].kind != TypeOf(cmd) then outcome == Err(Deserialize)
            else
              && AllOf(stream, TypeOf(cmd))
              && match Refusal(stream, cmd)
                 case Some(cause) => outcome == Err(DomainFailure(cause))
                 case None => outcome.Ok? && |outcome.value| == 1 && Carries(key, stream, cmd, outcome.value[0])
  {
    hide StreamFault, Evolved, Refusal, Carries, Judge, Dispatcher.Stored, HealthyStream, StateAfter, Make;
    var stream := StreamOf(streams, key);
    HealthyIsFaultFree(streams, key);
    KindIsType(cmd);
    assert HealthyStream(key, stream);
    if stream != [] && stream[0].kind != TypeOf(cmd) {
      FirstIsOwn(key, stream);
      ForeignFails(key, TypeOf(cmd), stream);
    } else {
      HealthyDecides(key, stream, cmd);
      Rehydrates(key, TypeOf(cmd), stream);
      var r := Judge(StateAfter(key, TypeOf(cmd), stream), cmd);
      if r.Ok? {
        assert r.value == [r.value[0]];
        StoredOne(key, cmd, r.value[0], |stream|);
      }
    }
  }

  lemma FirstIsOwn(key: StreamKey, stream: seq<Envelope>)
    requires HealthyStream(key, stream) && stream != []
    ensures KindOf(stream[0].payload) == stream[0].kind
  {
  }

  /** The load, decide and append steps of one client with nothing in between. */
  function Undisturbed(s: System<Command, Payload>, client: ClientId, key: StreamKey, cmd: Command): System<Command, Payload> {
    var dom := Aggregates();
    Next(dom, Next(dom, Next(dom, s, Load(client, key, cmd)), Decide(client)), Append(client))
  }

  lemma UndisturbedIsAtomic(s: System<Command, Payload>, client: ClientId, key: StreamKey, cmd: Command)
    requires PhaseOf(s, client).Idle? && Aims(cmd, key)
    ensures match AtomicOutcome(Aggregates(), key, cmd, StreamOf(s.streams, key))
            case Ok(stored) => Extends(s.streams, Undisturbed(s, client, key, cmd).streams, key, stored)
            case Err(_) => SameStreams(s.streams, Undisturbed(s, client, key, cmd).streams)
  {
    hide Decision, Aims, Dispatcher.Stored;
    var dom := Aggregates();
    var stream := StreamOf(s.streams, key);
    var loaded := Next(dom, s, Load(client, key, cmd));
    assert PhaseOf(loaded, client) == Loaded(key, cmd, stream);
    var decided := Next(dom, loaded, Decide(client));
    var decision := Decision(dom, key, cmd, stream);
    if decision.Ok? && decision.value != [] {
      assert PhaseOf(decided, client) == Decided(key, cmd, CurrentVersion(stream), decision.value);
    } else {
      assert PhaseOf(decided, client) == Idle;
    }
  }

  lemma AddressedIsAimed(cmd: Command, key: StreamKey)
    requires Addresses(cmd, key)
    ensures Aims(cmd, key)
  {
  }

  /**
   After every interleaved run: a command that an idle client dispatches undisturbed is committed
   exactly when the history of its stream calls for it, as one event that does what it says.
   */
  lemma CommittedIffCalledFor(steps: seq<Step<Command>>, client: ClientId, key: StreamKey, cmd: Command)
    requires PhaseOf(Run(Aggregates(), steps), client).Idle? && Addresses(cmd, key)
    ensures var s := Run(Aggregates(), steps);
            var stream, after := StreamOf(s.streams, key), Undisturbed(s, client, key, cmd).streams;
            if stream != [] && stream[0].kind != TypeOf(cmd) then SameStreams(s.streams, after)
            else
              && AllOf(stream, TypeOf(cmd))
              && match Refusal(stream, cmd)
                 case Some(_) => SameStreams(s.streams, after)
                 case None => exists e :: Extends(s.streams, after, key, [e]) && Carries(key, stream, cmd, e)
  {
    hide Run, Aggregates, Refusal, Carries, Undisturbed, AtomicOutcome, Healthy, Extends, SameStreams;
    var s := Run(Aggregates(), steps);
    EveryRunIsHealthy(steps);
    AddressedIsAimed(cmd, key);
    DispatchAnswers(s.streams, key, cmd);
    UndisturbedIsAtomic(s, client, key, cmd);
    var outcome := AtomicOutcome(Aggregates(), key, cmd, StreamOf(s.streams, key));
    if outcome.Ok? && |outcome.value| == 1 {
      assert outcome.value == [outcome.value[0]];
    }
  }
}
