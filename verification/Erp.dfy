/**
 The aggregates plugged into the dispatcher: every interleaved run produces a healthy log, so the
 results about aggregates and projections hold of whatever the running system stores and publishes.
 */
module Erp {
  import opened Core
  import opened EventStore
  import opened Dispatcher
  import opened CursorProjection
  import opened ErpPayloads
  import opened Sums
  import Inventory
  import Invoicing
  import Ledger
  import Purchasing
  import Sales
  import StockView
  import AccountBalances

  datatype State =
    | ItemState(item: Inventory.Item)
    | InvoiceState(invoice: Invoicing.InvoiceState)
    | LedgerState(ledger: Ledger.LedgerState)
    | PurchaseState(purchase: Purchasing.Order)
    | SaleState(sale: Sales.Order)

  datatype Command =
    | StockCommand(stock: Inventory.Command)
    | BillCommand(bill: Invoicing.Command)
    | EntryCommand(entry: Ledger.Command)
    | PurchaseCommand(purchase: Purchasing.Command)
    | SaleCommand(sale: Sales.Command)

  function CommandKind(cmd: Command): AggregateType {
    match cmd
    case StockCommand(_) => InventoryItemType
    case BillCommand(_) => InvoiceType
    case EntryCommand(_) => LedgerType
    case PurchaseCommand(_) => PurchaseOrderType
    case SaleCommand(_) => SalesOrderType
  }

  function Make(kind: AggregateType, key: StreamKey): State {
    match kind
    case InventoryItemType => ItemState(Inventory.Empty(key.aggregate))
    case InvoiceType => InvoiceState(Invoicing.Empty(key.aggregate))
    case LedgerType => LedgerState(Ledger.Empty(key.aggregate))
    case PurchaseOrderType => PurchaseState(Purchasing.Empty(key.aggregate))
    case SalesOrderType => SaleState(Sales.Empty(key.aggregate))
  }

  /** A payload of another aggregate type does not deserialize. */
  function Evolve(s: State, p: Payload): Option<State> {
    match (s, p)
    case (ItemState(a), Stock(e)) => Some(ItemState(Inventory.Apply(a, e)))
    case (InvoiceState(a), Bill(e)) => Some(InvoiceState(Invoicing.Apply(a, e)))
    case (LedgerState(a), Entry(e)) => Some(LedgerState(Ledger.Apply(a, e)))
    case (PurchaseState(a), Purchase(e)) => Some(PurchaseState(Purchasing.Apply(a, e)))
    case (SaleState(a), Sale(e)) => Some(SaleState(Sales.Apply(a, e)))
    case (_, _) => None
  }

  function Wrapped<E>(r: Result<seq<E>, DomainError>, wrap: E -> Payload): Result<seq<Payload>, DomainError> {
    match r
    case Ok(events) => Ok(seq(|events|, i requires 0 <= i < |events| => wrap(events[i])))
    case Err(cause) => Err(cause)
  }

  /** A command never meets another aggregate's state: the dispatcher makes the state from the command's type. */
  function Judge(s: State, cmd: Command): Result<seq<Payload>, DomainError> {
    match (s, cmd)
    case (ItemState(a), StockCommand(c)) => Wrapped(Inventory.Handle(a, c), e => Stock(e))
    case (InvoiceState(a), BillCommand(c)) => Wrapped(Invoicing.Handle(a, c), e => Bill(e))
    case (LedgerState(a), EntryCommand(c)) => Wrapped(Ledger.Handle(a, c), e => Entry(e))
    case (PurchaseState(a), PurchaseCommand(c)) => Wrapped(Purchasing.Handle(a, c), e => Purchase(e))
    case (SaleState(a), SaleCommand(c)) => Wrapped(Sales.Handle(a, c), e => Sale(e))
    case (_, _) => Err(InvariantViolation)
  }

  function OccurredAt(p: Payload): Time {
    match p
    case Stock(e) => e.occurredAt
    case Bill(e) => e.occurredAt
    case Entry(e) => e.occurredAt
    case Purchase(e) => e.occurredAt
    case Sale(e) => e.occurredAt
  }

  predicate Aims(cmd: Command, key: StreamKey) {
    match cmd
    case StockCommand(c) => Inventory.Targets(c, key)
    case BillCommand(c) => Invoicing.Targets(c, key)
    case EntryCommand(c) => Ledger.Targets(c, key)
    case PurchaseCommand(c) => Purchasing.Targets(c, key)
    case SaleCommand(c) => Sales.Targets(c, key)
  }

  function Aggregates(): Domain<State, Command, Payload> {
    Domain(CommandKind, Make, Evolve, Judge, OccurredAt, Aims)
  }

  // ---------------------------------------------------------------------------
  // Healthy histories
  // ---------------------------------------------------------------------------

  ghost predicate Pure(history: seq<Payload>, kind: AggregateType) {
    forall i | 0 <= i < |history| :: KindOf(history[i]) == kind
  }

  function Stocks(history: seq<Payload>): seq<Inventory.Event>
    requires Pure(history, InventoryItemType)
  {
    seq(|history|, i requires 0 <= i < |history| => history[i].stock)
  }

  function BillsOf(history: seq<Payload>): seq<Invoicing.Event>
    requires Pure(history, InvoiceType)
  {
    seq(|history|, i requires 0 <= i < |history| => history[i].bill)
  }

  function EntriesOf(history: seq<Payload>): seq<Ledger.Event>
    requires Pure(history, LedgerType)
  {
    seq(|history|, i requires 0 <= i < |history| => history[i].entry)
  }

  function PurchasesOf(history: seq<Payload>): seq<Purchasing.Event>
    requires Pure(history, PurchaseOrderType)
  {
    seq(|history|, i requires 0 <= i < |history| => history[i].purchase)
  }

  function SalesOf(history: seq<Payload>): seq<Sales.Event>
    requires Pure(history, SalesOrderType)
  {
    seq(|history|, i requires 0 <= i < |history| => history[i].sale)
  }

  /** The history is accepted by its aggregate, and this is the aggregate's state after it. */
  ghost predicate Reaches(key: StreamKey, kind: AggregateType, history: seq<Payload>, s: State) {
    && Pure(history, kind)
    && match kind
       case InventoryItemType =>
         Inventory.Accepted(key, Stocks(history)) && s == ItemState(Inventory.Fold(key, Stocks(history)))
       case InvoiceType =>
         Invoicing.Accepted(key, BillsOf(history)) && s == InvoiceState(Invoicing.Fold(key, BillsOf(history)))
       case LedgerType =>
         Ledger.Accepted(key, EntriesOf(history)) && s == LedgerState(Ledger.Fold(key, EntriesOf(history)))
       case PurchaseOrderType =>
         Purchasing.Accepted(key, PurchasesOf(history)) && s == PurchaseState(Purchasing.Fold(key, PurchasesOf(history)))
       case SalesOrderType =>
         Sales.Accepted(key, SalesOf(history)) && s == SaleState(Sales.Fold(key, SalesOf(history)))
  }

  ghost predicate ReachesNext(key: StreamKey, kind: AggregateType, history: seq<Payload>, s: State, batch: seq<Payload>) {
    && |batch| == 1
    && Evolve(s, batch[0]).Some?
    && Reaches(key, kind, history + batch, Evolve(s, batch[0]).value)
  }

  lemma StockReachesNext(key: StreamKey, history: seq<Payload>, s: State, cmd: Command, batch: seq<Payload>)
    requires Reaches(key, InventoryItemType, history, s) && cmd.StockCommand? && Aims(cmd, key) && Judge(s, cmd) == Ok(batch)
    ensures ReachesNext(key, InventoryItemType, history, s, batch)
  {
    hide Inventory.Handle, Inventory.Apply, Inventory.Fold, Inventory.Accepted;
    var before := Stocks(history);
    var decided := Inventory.Handle(s.item, cmd.stock).value;
    Inventory.AcceptedExtends(key, before, cmd.stock);
    assert Stocks(history + batch) == before + decided;
  }

  lemma BillReachesNext(key: StreamKey, history: seq<Payload>, s: State, cmd: Command, batch: seq<Payload>)
    requires Reaches(key, InvoiceType, history, s) && cmd.BillCommand? && Aims(cmd, key) && Judge(s, cmd) == Ok(batch)
    ensures ReachesNext(key, InvoiceType, history, s, batch)
  {
    hide Invoicing.Handle, Invoicing.Apply, Invoicing.Fold, Invoicing.Accepted;
    var before := BillsOf(history);
    var decided := Invoicing.Handle(s.invoice, cmd.bill).value;
    Invoicing.AcceptedExtends(key, before, cmd.bill);
    assert BillsOf(history + batch) == before + decided;
  }

  lemma EntryReachesNext(key: StreamKey, history: seq<Payload>, s: State, cmd: Command, batch: seq<Payload>)
    requires Reaches(key, LedgerType, history, s) && cmd.EntryCommand? && Aims(cmd, key) && Judge(s, cmd) == Ok(batch)
    ensures ReachesNext(key, LedgerType, history, s, batch)
  {
    hide Ledger.Handle, Ledger.Apply, Ledger.Fold, Ledger.Accepted;
    var before := EntriesOf(history);
    var decided := Ledger.Handle(s.ledger, cmd.entry).value;
    Ledger.AcceptedExtends(key, before, cmd.entry);
    assert EntriesOf(history + batch) == before + decided;
  }

  lemma PurchaseReachesNext(key: StreamKey, history: seq<Payload>, s: State, cmd: Command, batch: seq<Payload>)
    requires Reaches(key, PurchaseOrderType, history, s) && cmd.PurchaseCommand? && Aims(cmd, key) && Judge(s, cmd) == Ok(batch)
    ensures ReachesNext(key, PurchaseOrderType, history, s, batch)
  {
    hide Purchasing.Handle, Purchasing.Apply, Purchasing.Fold, Purchasing.Accepted;
    var before := PurchasesOf(history);
    var decided := Purchasing.Handle(s.purchase, cmd.purchase).value;
    Purchasing.AcceptedExtends(key, before, cmd.purchase);
    assert PurchasesOf(history + batch) == before + decided;
  }

  lemma SaleReachesNext(key: StreamKey, history: seq<Payload>, s: State, cmd: Command, batch: seq<Payload>)
    requires Reaches(key, SalesOrderType, history, s) && cmd.SaleCommand? && Aims(cmd, key) && Judge(s, cmd) == Ok(batch)
    ensures ReachesNext(key, SalesOrderType, history, s, batch)
  {
    hide Sales.Handle, Sales.Apply, Sales.Fold, Sales.Accepted;
    var before := SalesOf(history);
    var decided := Sales.Handle(s.sale, cmd.sale).value;
    Sales.AcceptedExtends(key, before, cmd.sale);
    assert SalesOf(history + batch) == before + decided;
  }

  /** Whatever a handler accepts extends the aggregate's accepted history by exactly one event. */
  lemma DecisionReachesNext(key: StreamKey, history: seq<Payload>, s: State, cmd: Command, batch: seq<Payload>)
    requires Reaches(key, CommandKind(cmd), history, s) && Aims(cmd, key) && Judge(s, cmd) == Ok(batch)
    ensures ReachesNext(key, CommandKind(cmd), history, s, batch)
  {
    hide Reaches, Judge, Aims, ReachesNext;
    match cmd
    case StockCommand(_) => StockReachesNext(key, history, s, cmd, batch);
    case BillCommand(_) => BillReachesNext(key, history, s, cmd, batch);
    case EntryCommand(_) => EntryReachesNext(key, history, s, cmd, batch);
    case PurchaseCommand(_) => PurchaseReachesNext(key, history, s, cmd, batch);
    case SaleCommand(_) => SaleReachesNext(key, history, s, cmd, batch);
  }

  lemma NothingReached(key: StreamKey, kind: AggregateType)
    ensures Reaches(key, kind, [], Make(kind, key))
  {
  }

  /** The last batch of an accepted history, and the state it was decided on. */
  lemma LastBatch(key: StreamKey, kind: AggregateType, history: seq<Payload>) returns (n: nat, cmd: Command, a: State)
    requires history != [] && AcceptedHistory(Aggregates(), key, kind, history)
    ensures n < |history| && CommandKind(cmd) == kind && Aims(cmd, key)
    ensures AcceptedHistory(Aggregates(), key, kind, history[..n])
    ensures Evolved(Aggregates(), Make(kind, key), history[..n]) == Some(a)
    ensures Judge(a, cmd) == Ok(history[n..])
  {
    hide Judge, Aims, Evolve, Make, CommandKind;
    var dom := Aggregates();
    n, cmd, a :|
      && n < |history|
      && dom.kind(cmd) == kind && dom.targets(cmd, key)
      && AcceptedHistory(dom, key, kind, history[..n])
      && Evolved(dom, dom.make(kind, key), history[..n]) == Some(a)
      && dom.decide(a, cmd) == Ok(history[n..]);
  }

  lemma EvolvedSnoc(start: State, history: seq<Payload>, a: State, p: Payload)
    requires Evolved(Aggregates(), start, history) == Some(a)
    ensures Evolved(Aggregates(), start, history + [p]) == Evolve(a, p)
  {
    hide Evolve;
    assert (history + [p])[..|history|] == history;
  }

  lemma {:induction false} AcceptedReaches(key: StreamKey, kind: AggregateType, history: seq<Payload>)
    requires AcceptedHistory(Aggregates(), key, kind, history)
    ensures Evolved(Aggregates(), Make(kind, key), history).Some?
    ensures Reaches(key, kind, history, Evolved(Aggregates(), Make(kind, key), history).value)
    decreases |history|
  {
    hide Reaches, Judge, Aims, Evolve, Make, CommandKind, AcceptedHistory, Evolved, Aggregates;
    if history == [] {
      NothingReached(key, kind);
      NothingEvolved(Make(kind, key));
    } else {
      var n, cmd, a := LastBatch(key, kind, history);
      AcceptedReaches(key, kind, history[..n]);
      DecisionReachesNext(key, history[..n], a, cmd, history[n..]);
      assert history[n..] == [history[n]];
      assert history[..n] + [history[n]] == history;
      EvolvedSnoc(Make(kind, key), history[..n], a, history[n]);
    }
  }

  lemma NothingEvolved(start: State)
    ensures Evolved(Aggregates(), start, []) == Some(start)
  {
  }

  lemma ReachesIsHealthy(key: StreamKey, stream: seq<Envelope>, s: State)
    requires stream != [] && Reaches(key, stream[0].kind, Payloads(stream), s)
    ensures HealthyStream(key, stream)
  {
    var history := Payloads(stream);
    assert forall i | 0 <= i < |stream| :: KindOf(stream[i].payload) == KindOf(history[i]);
    match stream[0].kind
    case InventoryItemType => assert StockEvents(stream) == Stocks(history);
    case InvoiceType => assert Bills(stream) == BillsOf(history);
    case LedgerType => assert Entries(stream) == EntriesOf(history);
    case PurchaseOrderType => assert Purchases(stream) == PurchasesOf(history);
    case SalesOrderType => assert Sold(stream) == SalesOf(history);
  }

  /** In every interleaving every stream is gap-free and an accepted history of one aggregate. */
  lemma EveryRunIsHealthy(steps: seq<Step<Command>>)
    ensures Healthy(Run(Aggregates(), steps).streams)
  {
    hide AcceptedHistory, HealthyStream, Reaches, Aggregates, Run;
    RunKeepsInvariant(Aggregates(), steps);
    var streams := Run(Aggregates(), steps).streams;
    forall key
      ensures HealthyStream(key, StreamOf(streams, key))
    {
      StreamIsHealthy(streams, key);
    }
  }

  lemma StreamIsHealthy(streams: Streams<Payload>, key: StreamKey)
    requires StreamAccepted(Aggregates(), streams, key)
    ensures HealthyStream(key, StreamOf(streams, key))
  {
    hide AcceptedHistory, Reaches, Evolved;
    var stream := StreamOf(streams, key);
    if stream != [] {
      AcceptedReaches(key, stream[0].kind, Payloads(stream));
      ReachesIsHealthy(key, stream, Evolved(Aggregates(), Make(stream[0].kind, key), Payloads(stream)).value);
    }
  }

  /** Envelopes taken from the bus in any order, any number of times, are faithful. */
  lemma PublishedIsFaithful(steps: seq<Step<Command>>, delivered: seq<Envelope>)
    requires forall e | e in delivered :: e in Run(Aggregates(), steps).bus
    ensures Faithful(Run(Aggregates(), steps).streams, delivered)
  {
    hide Run, Aggregates;
    EveryRunIsSerializable(Aggregates(), steps);
  }

  /**
   End to end, stock: for every interleaving of dispatchers and every delivery of what they
   published, event 1 of the stream first, the row shows the item after the events up to its
   cursor, and that stock is their true sum.
   */
  lemma StockFollowsEveryRun(steps: seq<Step<Command>>, delivered: seq<Envelope>, key: StreamKey)
    requires forall e | e in delivered :: e in Run(Aggregates(), steps).bus
    requires FirstSeen(StockView.Projected(), delivered, key) <= 1
    ensures var p := StockView.Projected();
            var m := Deliver(p, Blank(), delivered);
            var h := History(p, Run(Aggregates(), steps).streams, key);
            && Cursor(m, key) <= |h|
            && AllOf(h, InventoryItemType)
            && var events := StockEvents(h)[..Cursor(m, key)];
               && (events == [] ==> RowOf(m, key).None?)
               && (events != [] ==> RowOf(m, key).Some? && RowOf(m, key).value.quantity == Inventory.TrueStock(events) >= 0)
  {
    hide Run, Aggregates, Deliver, FirstSeen, FoldRow, Clean, HealthyStream, StockView.Projected, StockView.Shown, Inventory.Accepted, Inventory.Fold, Inventory.TrueStock;
    var streams := Run(Aggregates(), steps).streams;
    EveryRunIsHealthy(steps);
    PublishedIsFaithful(steps, delivered);
    StockView.RowExactIffFirstFirst(streams, delivered, key);
    StockHistory(streams, key);
    var h := History(StockView.Projected(), streams, key);
    var c := Cursor(Deliver(StockView.Projected(), Blank(), delivered), key);
    var events := StockEvents(h)[..c];
    assert StockEvents(h[..c]) == events;
    StockView.FoldIsShown(h[..c]);
    StockView.PrefixAccepted(key, StockEvents(h), c);
    StockView.RowShowsAggregate(key, events);
    Inventory.StockIsTrueStock(key, events);
  }

  lemma StockHistory(streams: Streams<Payload>, key: StreamKey)
    requires Healthy(streams)
    ensures var h := History(StockView.Projected(), streams, key);
            AllOf(h, InventoryItemType) && Inventory.Accepted(key, StockEvents(h))
  {
    assert HealthyStream(key, StreamOf(streams, key));
  }

  /** End to end, ledger: whatever is published and however it is delivered, a tenant's balances sum to zero. */
  lemma BooksBalanceInEveryRun(steps: seq<Step<Command>>, delivered: seq<Envelope>, tenant: TenantId)
    requires forall e | e in delivered :: e in Run(Aggregates(), steps).bus
    ensures MapSum(AccountBalances.DeliverAll(AccountBalances.NoAccounts(), delivered).balances, AccountBalances.InTenant(tenant)) == 0
  {
    hide Run, Aggregates, Healthy;
    EveryRunIsHealthy(steps);
    PublishedIsFaithful(steps, delivered);
    AccountBalances.BooksBalance(Run(Aggregates(), steps).streams, delivered, tenant);
  }

  // ---------------------------------------------------------------------------
  // Why event 1 has to come first
  // ---------------------------------------------------------------------------

  function AfterCommit(s: System<Command, Payload>, client: ClientId, key: StreamKey, cmd: Command, p: Payload): System<Command, Payload> {
    var stream := StreamOf(s.streams, key);
    var stored := [StoredEvent(key, CommandKind(cmd), CurrentVersion(stream) + 1, OccurredAt(p), p)];
    s.(streams := s.streams[key := stream + stored],
       clients := s.clients[client := Publishing(stored)],
       commits := s.commits + [Commit(key, cmd, CurrentVersion(stream), stored)])
  }

  /** Load, decide and append by one client with nothing in between. */
  lemma ThreeSteps(s: System<Command, Payload>, client: ClientId, key: StreamKey, cmd: Command, p: Payload)
    requires PhaseOf(s, client).Idle? && Aims(cmd, key)
    requires var stream := StreamOf(s.streams, key);
             && Decision(Aggregates(), key, cmd, stream) == Ok([p])
             && (stream == [] || stream[0].kind == CommandKind(cmd))
    ensures var dom := Aggregates();
            Next(dom, Next(dom, Next(dom, s, Load(client, key, cmd)), Decide(client)), Append(client)) == AfterCommit(s, client, key, cmd, p)
  {
    hide Decision, Aims, OccurredAt;
    var dom := Aggregates();
    var stream := StreamOf(s.streams, key);
    var version := CurrentVersion(stream);
    var loaded := Next(dom, s, Load(client, key, cmd));
    assert PhaseOf(loaded, client) == Loaded(key, cmd, stream);
    var decided := Next(dom, loaded, Decide(client));
    assert PhaseOf(decided, client) == Decided(key, cmd, version, [p]);
    assert Stored(dom, key, cmd, [p], version) == [StoredEvent(key, CommandKind(cmd), version + 1, OccurredAt(p), p)];
    assert decided.clients[client := Publishing(Stored(dom, key, cmd, [p], version))]
        == s.clients[client := Publishing(Stored(dom, key, cmd, [p], version))];
  }

  const ITEM: StreamKey := StreamKey(0, 0)
  const CREATE: Command := StockCommand(Inventory.CreateItem(0, 0, "bolt", 0))
  const ADJUST: Command := StockCommand(Inventory.AdjustStock(0, 0, 5, 0))
  const CREATED: Payload := Stock(Inventory.ItemCreated(0, 0, "bolt", 0))
  const ADJUSTED: Payload := Stock(Inventory.StockAdjusted(0, 0, 5, 0))
  const FIRST: Envelope := StoredEvent(ITEM, InventoryItemType, 1, 0, CREATED)
  const SECOND: Envelope := StoredEvent(ITEM, InventoryItemType, 2, 0, ADJUSTED)

  /** One client creates the item, another adjusts it and publishes before the first one does. */
  const LATE: seq<Step<Command>> := [
    Load(0, ITEM, CREATE), Decide(0), Append(0), Load(1, ITEM, ADJUST), Decide(1), Append(1), Publish(1), Publish(0)]

  lemma CreateIsDecided()
    ensures Decision(Aggregates(), ITEM, CREATE, []) == Ok([CREATED])
  {
    var blank := Make(InventoryItemType, ITEM);
    assert Payloads<Payload>([]) == [];
    NothingEvolved(blank);
    assert !IsBlank("bolt") by {
      assert 'b' in "bolt" && 'b' !in WHITESPACE;
    }
    assert Judge(blank, CREATE).Ok? && Judge(blank, CREATE).value == [CREATED];
  }

  lemma AdjustIsDecided()
    ensures Decision(Aggregates(), ITEM, ADJUST, [FIRST]) == Ok([ADJUSTED])
  {
    hide IsBlank;
    var blank := Make(InventoryItemType, ITEM);
    var created := ItemState(Inventory.Item(0, Some(0), "bolt", 0, 1, true));
    assert Payloads([FIRST]) == [CREATED] && [] + [CREATED] == [CREATED];
    NothingEvolved(blank);
    EvolvedSnoc(blank, [], blank, CREATED);
    assert StreamFault(ITEM, [FIRST]).None? by {
      assert [FIRST][..0] == [];
      assert StreamFault<Payload>(ITEM, []).None?;
    }
    assert Judge(created, ADJUST).Ok? && Judge(created, ADJUST).value == [ADJUSTED];
  }

  lemma {:induction false} RunSnoc(steps: seq<Step<Command>>, step: Step<Command>)
    ensures Run(Aggregates(), steps + [step]) == Next(Aggregates(), Run(Aggregates(), steps), step)
  {
    assert (steps + [step])[..|steps|] == steps;
  }

  /** The run of `LATE`: both events are stored in order and published in the opposite order. */
  lemma LateRun()
    ensures var s := Run(Aggregates(), LATE);
            s.bus == [SECOND, FIRST] && StreamOf(s.streams, ITEM) == [FIRST, SECOND]
  {
    hide Decision, Run;
    var dom := Aggregates();
    var s0: System<Command, Payload> := Initial();
    assert Run(dom, LATE[..0]) == s0 by {
      StartOfRun();
      assert LATE[..0] == [];
    }
    forall i | 0 <= i < |LATE|
      ensures Run(dom, LATE[..i + 1]) == Next(dom, Run(dom, LATE[..i]), LATE[i])
    {
      assert LATE[..i + 1] == LATE[..i] + [LATE[i]];
      RunSnoc(LATE[..i], LATE[i]);
    }
    assert LATE[..8] == LATE;
    LateStates(s0);
  }

  lemma StartOfRun()
    ensures Run(Aggregates(), []) == Initial()
  {
  }

  lemma LateStates(s0: System<Command, Payload>)
    requires s0 == Initial()
    ensures var dom := Aggregates();
            var s3 := Next(dom, Next(dom, Next(dom, s0, LATE[0]), LATE[1]), LATE[2]);
            var s6 := Next(dom, Next(dom, Next(dom, s3, LATE[3]), LATE[4]), LATE[5]);
            var s8 := Next(dom, Next(dom, s6, LATE[6]), LATE[7]);
            s8.bus == [SECOND, FIRST] && StreamOf(s8.streams, ITEM) == [FIRST, SECOND]
  {
    hide Decision;
    CreateIsDecided();
    ThreeSteps(s0, 0, ITEM, CREATE, CREATED);
    var s3 := AfterCommit(s0, 0, ITEM, CREATE, CREATED);
    assert StreamOf(s3.streams, ITEM) == [FIRST];
    AdjustIsDecided();
    ThreeSteps(s3, 1, ITEM, ADJUST, ADJUSTED);
    var s6 := AfterCommit(s3, 1, ITEM, ADJUST, ADJUSTED);
    assert PhaseOf(s6, 0) == Publishing([FIRST]) && PhaseOf(s6, 1) == Publishing([SECOND]);
  }

  lemma SecondThenFirst()
    ensures FirstSeen(StockView.Projected(), [SECOND, FIRST], ITEM) == 2
    ensures Cursor(Deliver(StockView.Projected(), Blank(), [SECOND, FIRST]), ITEM) == 2
  {
    var p := StockView.Projected();
    assert [SECOND, FIRST][..1] == [SECOND] && [SECOND][..0] == [];
    assert FirstSeen(p, [], ITEM) == 0 && Deliver(p, Blank(), []) == Blank();
    assert FirstSeen(p, [SECOND], ITEM) == 2;
    assert Cursor(Deliver(p, Blank(), [SECOND]), ITEM) == 2;
  }

  /** Publishing after the append lock is released can leave the stock row wrong for good. */
  lemma LatePublicationSpoilsRow()
    ensures var s := Run(Aggregates(), LATE);
            var p := StockView.Projected();
            var m := Deliver(p, Blank(), s.bus);
            && FirstSeen(p, s.bus, ITEM) == 2
            && Cursor(m, ITEM) == |StreamOf(s.streams, ITEM)| == 2
            && RowOf(m, ITEM) != FoldRow(p, StreamOf(s.streams, ITEM))
  {
    hide Run, Aggregates, Deliver, FirstSeen, FoldRow, Healthy;
    var s := Run(Aggregates(), LATE);
    LateRun();
    SecondThenFirst();
    EveryRunIsHealthy(LATE);
    PublishedIsFaithful(LATE, s.bus);
    StockView.RowExactIffFirstFirst(s.streams, s.bus, ITEM);
    var h := History(StockView.Projected(), s.streams, ITEM);
    assert h == [FIRST, SECOND] && h[..2] == h;
  }
}
