/** The inventory item aggregate (crates/inventory/src/item.rs). */
module Inventory {
  import opened Core

  datatype Event =
    | ItemCreated(tenant: TenantId, item: AggregateId, name: string, occurredAt: Time)
    | StockAdjusted(tenant: TenantId, item: AggregateId, delta: I64, occurredAt: Time)

  datatype Command =
    | CreateItem(tenant: TenantId, item: AggregateId, name: string, occurredAt: Time)
    | AdjustStock(tenant: TenantId, item: AggregateId, delta: I64, occurredAt: Time)

  datatype Item = Item(id: AggregateId, tenant: Option<TenantId>, name: string, stock: I64, version: nat, created: bool)

  function Empty(id: AggregateId): Item {
    Item(id, None, "", 0, 0, false)
  }

  function Apply(item: Item, e: Event): Item {
    match e
    case ItemCreated(tenant, id, name, _) => Item(id, Some(tenant), name, 0, item.version + 1, true)
    case StockAdjusted(_, _, delta, _) => item.(stock := WrapI64(item.stock + delta), version := item.version + 1)
  }

  function HandleCreate(item: Item, cmd: Command): Result<seq<Event>, DomainError>
    requires cmd.CreateItem?
  {
    if item.created then Err(Conflict)
    else if IsBlank(cmd.name) then Err(Validation)
    else Ok([ItemCreated(cmd.tenant, cmd.item, cmd.name, cmd.occurredAt)])
  }

  /** The sum wraps before it is compared with zero, as in a build without overflow checks. */
  function HandleAdjust(item: Item, cmd: Command): Result<seq<Event>, DomainError>
    requires cmd.AdjustStock?
  {
    if !item.created then Err(NotFound)
    else if item.tenant != Some(cmd.tenant) then Err(InvariantViolation)
    else if item.id != cmd.item then Err(InvariantViolation)
    else if cmd.delta == 0 then Err(Validation)
    else if WrapI64(item.stock + cmd.delta) < 0 then Err(InvariantViolation)
    else Ok([StockAdjusted(cmd.tenant, cmd.item, cmd.delta, cmd.occurredAt)])
  }

  function Handle(item: Item, cmd: Command): Result<seq<Event>, DomainError> {
    match cmd
    case CreateItem(_, _, _, _) => HandleCreate(item, cmd)
    case AdjustStock(_, _, _, _) => HandleAdjust(item, cmd)
  }

  /** The aggregate object: `Apply` updates its fields in place. */
  class InventoryItem {
    var id: AggregateId
    var tenant: Option<TenantId>
    var name: string
    var stock: I64
    var version: nat
    var created: bool

    function View(): Item
      reads this
    {
      Item(id, tenant, name, stock, version, created)
    }

    constructor (id: AggregateId)
      ensures View() == Empty(id)
    {
      this.id, tenant, name, stock, version, created := id, None, "", 0, 0, false;
    }

    method Evolve(e: Event)
      modifies this
      ensures View() == Apply(old(View()), e)
    {
      match e {
        case ItemCreated(t, i, n, _) =>
          id := i;
          tenant := Some(t);
          name := n;
          stock := 0;
          created := true;
        case StockAdjusted(_, _, delta, _) =>
          stock := WrapI64(stock + delta);
      }
      version := version + 1;
    }
  }

  function Fold(key: StreamKey, history: seq<Event>): Item {
    if history == [] then Empty(key.aggregate)
    else Apply(Fold(key, history[..|history| - 1]), history[|history| - 1])
  }

  predicate Targets(cmd: Command, key: StreamKey) {
    cmd.tenant == key.tenant && cmd.item == key.aggregate
  }

  ghost predicate AcceptedNext(key: StreamKey, history: seq<Event>, e: Event) {
    exists cmd :: Targets(cmd, key) && Handle(Fold(key, history), cmd) == Ok([e])
  }

  /** Every event was accepted by `handle` on the state its predecessors produce. */
  ghost predicate Accepted(key: StreamKey, history: seq<Event>) {
    history == [] ||
    var n := |history| - 1;
    Accepted(key, history[..n]) && AcceptedNext(key, history[..n], history[n])
  }

  function DeltaOf(e: Event): int {
    if e.StockAdjusted? then e.delta else 0
  }

  /** The sum of the adjustments, over the unbounded integers. */
  function TrueStock(history: seq<Event>): int {
    if history == [] then 0 else TrueStock(history[..|history| - 1]) + DeltaOf(history[|history| - 1])
  }

  predicate BelongsTo(key: StreamKey, e: Event) {
    e.tenant == key.tenant && e.item == key.aggregate
  }

  /** With wrapping arithmetic, a non-zero delta is accepted exactly when the true sum fits 0..2^63-1. */
  lemma {:induction false} AdjustAcceptedIff(key: StreamKey, history: seq<Event>, cmd: Command)
    requires Accepted(key, history) && history != []
    requires cmd.AdjustStock? && Targets(cmd, key) && cmd.delta != 0
    ensures Handle(Fold(key, history), cmd).Ok? <==> 0 <= TrueStock(history) + cmd.delta < I64_LIMIT
  {
    StockIsTrueStock(key, history);
  }

  /** An item is created once, under a name that is not blank. */
  lemma {:induction false} CreateAcceptedIff(key: StreamKey, history: seq<Event>, cmd: Command)
    requires Accepted(key, history) && cmd.CreateItem?
    ensures Handle(Fold(key, history), cmd).Ok? <==> history == [] && !IsBlank(cmd.name)
  {
    hide IsBlank;
    StockIsTrueStock(key, history);
  }

  /** What `handle` guarantees about the event it returns. */
  predicate EventFits(key: StreamKey, item: Item, e: Event) {
    && BelongsTo(key, e)
    && match e
       case ItemCreated(_, _, name, _) => !item.created && !IsBlank(name)
       case StockAdjusted(_, _, delta, _) => item.created && WrapI64(item.stock + delta) >= 0
  }

  lemma AcceptedEventFits(key: StreamKey, history: seq<Event>, e: Event)
    requires AcceptedNext(key, history, e)
    ensures EventFits(key, Fold(key, history), e)
  {
    hide IsBlank, WrapI64;
    var cmd :| Targets(cmd, key) && Handle(Fold(key, history), cmd) == Ok([e]);
  }

  /** What is true of a reachable item whose accepted deltas add up to `sum`. */
  ghost predicate Sound(key: StreamKey, item: Item, sum: int) {
    && item.stock == sum
    && 0 <= sum < I64_LIMIT
    && item.id == key.aggregate
    && (item.created ==> item.tenant == Some(key.tenant) && !IsBlank(item.name))
    && (!item.created ==> sum == 0)
  }

  lemma EventKeepsSound(key: StreamKey, item: Item, sum: int, e: Event)
    requires Sound(key, item, sum) && EventFits(key, item, e)
    ensures Sound(key, Apply(item, e), sum + DeltaOf(e))
    ensures Apply(item, e).created && Apply(item, e).version == item.version + 1
    ensures e.ItemCreated? <==> !item.created
  {
    hide IsBlank;
  }

  /** In every reachable item the stock is the sum of its accepted deltas, within 0..2^63-1. */
  lemma {:induction false} StockIsTrueStock(key: StreamKey, history: seq<Event>)
    requires Accepted(key, history)
    ensures Sound(key, Fold(key, history), TrueStock(history))
    ensures Fold(key, history).version == |history|
    ensures Fold(key, history).created <==> history != []
    ensures forall i | 0 <= i < |history| :: BelongsTo(key, history[i]) && (history[i].ItemCreated? <==> i == 0)
  {
    hide Sound, EventFits, Apply, AcceptedNext, DeltaOf;
    if history != [] {
      var n := |history| - 1;
      var init, e := history[..n], history[n];
      StockIsTrueStock(key, init);
      AcceptedEventFits(key, init, e);
      EventKeepsSound(key, Fold(key, init), TrueStock(init), e);
      FittingBelongs(key, Fold(key, init), e);
      assert forall i | 0 <= i < n :: history[i] == init[i];
    } else {
      EmptyIsSound(key);
    }
  }

  lemma FittingBelongs(key: StreamKey, item: Item, e: Event)
    requires EventFits(key, item, e)
    ensures BelongsTo(key, e)
  {
  }

  lemma EmptyIsSound(key: StreamKey)
    ensures Sound(key, Empty(key.aggregate), 0)
  {
  }

  // ---------------------------------------------------------------------------
  // What a command does
  // ---------------------------------------------------------------------------

  /** Why a command is refused, in terms of what has happened to the item. */
  function Refusal(history: seq<Event>, cmd: Command): Option<DomainError> {
    match cmd
    case CreateItem(_, _, name, _) =>
      if history != [] then Some(Conflict) else if IsBlank(name) then Some(Validation) else None
    case AdjustStock(_, _, delta, _) =>
      if history == [] then Some(NotFound)
      else if delta == 0 then Some(Validation)
      else if 0 <= TrueStock(history) + delta < I64_LIMIT then None
      else Some(InvariantViolation)
  }

  /** On every reachable item the decision is the one the history calls for. */
  lemma {:induction false} AnswerIs(key: StreamKey, history: seq<Event>, cmd: Command)
    requires Accepted(key, history) && cmd.tenant == key.tenant && cmd.item == key.aggregate
    ensures match Refusal(history, cmd)
            case Some(cause) => Handle(Fold(key, history), cmd) == Err(cause)
            case None => Handle(Fold(key, history), cmd).Ok?
  {
    hide IsBlank, Accepted, Fold, TrueStock;
    StockIsTrueStock(key, history);
  }

  /** What an accepted command makes of the item. */
  ghost predicate Done(before: Item, cmd: Command, e: Event, after: Item) {
    && e.occurredAt == cmd.occurredAt
    && after.id == cmd.item && after.tenant == Some(cmd.tenant)
    && match cmd
       case CreateItem(_, _, name, _) => after.name == name && after.stock == 0
       case AdjustStock(_, _, delta, _) => after.name == before.name && after.stock == before.stock + delta
  }

  lemma HandleDoes(key: StreamKey, item: Item, sum: int, cmd: Command)
    requires Sound(key, item, sum) && cmd.tenant == key.tenant && cmd.item == key.aggregate && Handle(item, cmd).Ok?
    ensures var events := Handle(item, cmd).value; |events| == 1 && Done(item, cmd, events[0], Apply(item, events[0]))
  {
    hide IsBlank;
  }

  lemma {:induction false} CommandDoes(key: StreamKey, history: seq<Event>, cmd: Command)
    requires Accepted(key, history) && cmd.tenant == key.tenant && cmd.item == key.aggregate
    requires Refusal(history, cmd).None?
    ensures var r := Handle(Fold(key, history), cmd);
            && r.Ok? && |r.value| == 1
            && Accepted(key, history + r.value)
            && Done(Fold(key, history), cmd, r.value[0], Fold(key, history + r.value))
  {
    hide Handle, Apply, Done, Refusal, Sound;
    AnswerIs(key, history, cmd);
    StockIsTrueStock(key, history);
    HandleDoes(key, Fold(key, history), TrueStock(history), cmd);
    AcceptedExtends(key, history, cmd);
  }

  /** A reachable item refuses adjustments of another tenant or item. */
  lemma {:induction false} ForeignIsRefused(key: StreamKey, history: seq<Event>, cmd: Command)
    requires Accepted(key, history) && history != [] && cmd.AdjustStock?
    requires cmd.tenant != key.tenant || cmd.item != key.aggregate
    ensures Handle(Fold(key, history), cmd) == Err(InvariantViolation)
  {
    hide IsBlank, Fold, Accepted;
    StockIsTrueStock(key, history);
  }

  lemma OneEvent(state: Item, cmd: Command)
    requires Handle(state, cmd).Ok?
    ensures |Handle(state, cmd).value| == 1
  {
    hide IsBlank;
  }

  /** What `handle` accepts extends the accepted history by one event. */
  lemma {:induction false} AcceptedExtends(key: StreamKey, history: seq<Event>, cmd: Command)
    requires Accepted(key, history) && Targets(cmd, key) && Handle(Fold(key, history), cmd).Ok?
    ensures var events := Handle(Fold(key, history), cmd).value;
            && |events| == 1
            && Accepted(key, history + events)
            && Fold(key, history + events) == Apply(Fold(key, history), events[0])
  {
    hide Handle, Apply;
    OneEvent(Fold(key, history), cmd);
    var events := Handle(Fold(key, history), cmd).value;
    assert events == [events[0]];
    assert AcceptedNext(key, history, events[0]);
    assert (history + events)[..|history|] == history;
  }
}
