/** The sales order aggregate (crates/sales/src/order.rs). */
module Sales {
  import opened Core

  datatype Status = Draft | Confirmed | Invoiced | Closed

  datatype Line = Line(lineNo: U32, product: AggregateId, quantity: I64, unitPrice: U64)

  datatype Event =
    | OrderCreated(tenant: TenantId, order: AggregateId, occurredAt: Time)
    | LineAdded(tenant: TenantId, order: AggregateId, lineNo: U32, product: AggregateId, quantity: I64, unitPrice: U64, occurredAt: Time)
    | OrderConfirmed(tenant: TenantId, order: AggregateId, occurredAt: Time)
    | OrderInvoiced(tenant: TenantId, order: AggregateId, occurredAt: Time)

  datatype Command =
    | CreateOrder(tenant: TenantId, order: AggregateId, occurredAt: Time)
    | AddLine(tenant: TenantId, order: AggregateId, product: AggregateId, quantity: I64, unitPrice: U64, occurredAt: Time)
    | ConfirmOrder(tenant: TenantId, order: AggregateId, occurredAt: Time)
    | MarkInvoiced(tenant: TenantId, order: AggregateId, occurredAt: Time)

  datatype Order = Order(
    id: AggregateId, tenant: Option<TenantId>, status: Status, lines: seq<Line>, version: nat, created: bool)

  function Empty(id: AggregateId): Order {
    Order(id, None, Draft, [], 0, false)
  }

  function Apply(o: Order, e: Event): Order {
    match e
    case OrderCreated(tenant, order, _) => Order(order, Some(tenant), Draft, [], o.version + 1, true)
    case LineAdded(_, _, lineNo, product, quantity, unitPrice, _) =>
      o.(lines := o.lines + [Line(lineNo, product, quantity, unitPrice)], version := o.version + 1)
    case OrderConfirmed(_, _, _) => o.(status := Confirmed, version := o.version + 1)
    case OrderInvoiced(_, _, _) => o.(status := Invoiced, version := o.version + 1)
  }

  /** `lines.len() as u32 + 1`, wrapping as compiled without overflow checks. */
  function NextLineNo(count: nat): (r: U32)
    ensures count + 1 < U32_LIMIT ==> r == count + 1
  {
    WrapAdd32(count % U32_LIMIT, 1)
  }

  predicate Foreign(o: Order, cmd: Command) {
    o.tenant != Some(cmd.tenant) || o.id != cmd.order
  }

  function Handle(o: Order, cmd: Command): Result<seq<Event>, DomainError> {
    match cmd
    case CreateOrder(tenant, order, at) =>
      if o.created then Err(Conflict) else Ok([OrderCreated(tenant, order, at)])
    case AddLine(tenant, order, product, quantity, unitPrice, at) =>
      if !o.created then Err(NotFound)
      else if Foreign(o, cmd) then Err(InvariantViolation)
      else if o.status != Draft then Err(InvariantViolation)
      else if quantity <= 0 then Err(Validation)
      else if unitPrice == 0 then Err(Validation)
      else Ok([LineAdded(tenant, order, NextLineNo(|o.lines|), product, quantity, unitPrice, at)])
    case ConfirmOrder(tenant, order, at) =>
      if !o.created then Err(NotFound)
      else if Foreign(o, cmd) then Err(InvariantViolation)
      else if o.status != Draft then Err(InvariantViolation)
      else if o.lines == [] then Err(Validation)
      else Ok([OrderConfirmed(tenant, order, at)])
    case MarkInvoiced(tenant, order, at) =>
      if !o.created then Err(NotFound)
      else if Foreign(o, cmd) then Err(InvariantViolation)
      else if o.status != Confirmed then Err(InvariantViolation)
      else Ok([OrderInvoiced(tenant, order, at)])
  }

  class SalesOrder {
    var id: AggregateId
    var tenant: Option<TenantId>
    var status: Status
    var lines: seq<Line>
    var version: nat
    var created: bool

    function View(): Order
      reads this
    {
      Order(id, tenant, status, lines, version, created)
    }

    constructor (id: AggregateId)
      ensures View() == Empty(id)
    {
      this.id, tenant, status, lines, version, created := id, None, Draft, [], 0, false;
    }

    method Evolve(e: Event)
      modifies this
      ensures View() == Apply(old(View()), e)
    {
      match e {
        case OrderCreated(t, o, _) =>
          id := o;
          tenant := Some(t);
          status := Draft;
          lines := [];
          created := true;
        case LineAdded(_, _, lineNo, product, quantity, unitPrice, _) =>
          lines := lines + [Line(lineNo, product, quantity, unitPrice)];
        case OrderConfirmed(_, _, _) =>
          status := Confirmed;
        case OrderInvoiced(_, _, _) =>
          status := Invoiced;
      }
      version := version + 1;
    }
  }

  function Fold(key: StreamKey, history: seq<Event>): Order {
    if history == [] then Empty(key.aggregate)
    else Apply(Fold(key, history[..|history| - 1]), history[|history| - 1])
  }

  predicate Targets(cmd: Command, key: StreamKey) {
    cmd.tenant == key.tenant && cmd.order == key.aggregate
  }

  ghost predicate AcceptedNext(key: StreamKey, history: seq<Event>, e: Event) {
    exists cmd :: Targets(cmd, key) && Handle(Fold(key, history), cmd) == Ok([e])
  }

  ghost predicate Accepted(key: StreamKey, history: seq<Event>) {
    history == [] ||
    var n := |history| - 1;
    Accepted(key, history[..n]) && AcceptedNext(key, history[..n], history[n])
  }

  function AddedLines(history: seq<Event>): seq<Line> {
    if history == [] then [] else AddedLines(history[..|history| - 1]) + LineOf(history[|history| - 1])
  }

  function LineOf(e: Event): seq<Line> {
    if e.LineAdded? then [Line(e.lineNo, e.product, e.quantity, e.unitPrice)] else []
  }

  function Rank(s: Status): nat {
    match s
    case Draft => 0
    case Confirmed => 1
    case Invoiced => 2
    case Closed => 3
  }

  ghost predicate NumberedFromOne(lines: seq<Line>) {
    forall i | 0 <= i < |lines| :: lines[i].lineNo == i + 1
  }

  /** What `handle` guarantees about the event it returns. */
  predicate EventFits(key: StreamKey, o: Order, e: Event) {
    && e.tenant == key.tenant && e.order == key.aggregate
    && match e
       case OrderCreated(_, _, _) => !o.created
       case LineAdded(_, _, lineNo, _, quantity, unitPrice, _) =>
         o.created && o.status == Draft && quantity > 0 && unitPrice > 0 && lineNo == NextLineNo(|o.lines|)
       case OrderConfirmed(_, _, _) => o.created && o.status == Draft && o.lines != []
       case OrderInvoiced(_, _, _) => o.created && o.status == Confirmed
  }

  lemma AcceptedEventFits(key: StreamKey, history: seq<Event>, e: Event)
    requires AcceptedNext(key, history, e)
    ensures EventFits(key, Fold(key, history), e)
  {
    hide NextLineNo;
    var cmd :| Targets(cmd, key) && Handle(Fold(key, history), cmd) == Ok([e]);
  }

  predicate AllPositive(lines: seq<Line>) {
    forall i | 0 <= i < |lines| :: lines[i].quantity > 0 && lines[i].unitPrice > 0
  }

  /** What is true of a reachable order to which `added` has been added. */
  ghost predicate Sound(key: StreamKey, o: Order, added: seq<Line>) {
    && o.lines == added
    && AllPositive(added)
    && (|added| < U32_LIMIT ==> NumberedFromOne(added))
    && o.id == key.aggregate
    && (o.created ==> o.tenant == Some(key.tenant))
    && (!o.created ==> o.status == Draft && added == [])
    && (o.status != Draft ==> added != [])
    && o.status != Closed
  }

  lemma LineKeepsSound(key: StreamKey, o: Order, added: seq<Line>, e: Event)
    requires Sound(key, o, added) && EventFits(key, o, e) && e.LineAdded?
    ensures Sound(key, Apply(o, e), added + LineOf(e))
  {
    hide NextLineNo;
  }

  lemma EventKeepsSound(key: StreamKey, o: Order, added: seq<Line>, e: Event)
    requires Sound(key, o, added) && EventFits(key, o, e)
    ensures Sound(key, Apply(o, e), added + LineOf(e))
    ensures Apply(o, e).created && Apply(o, e).version == o.version + 1
  {
    hide NextLineNo, NumberedFromOne, AllPositive;
    if e.LineAdded? {
      LineKeepsSound(key, o, added, e);
    } else {
      assert added + LineOf(e) == added;
    }
  }

  lemma EmptyIsSound(key: StreamKey)
    ensures Sound(key, Empty(key.aggregate), [])
  {
  }

  /**
   In every reachable order the lines are exactly the lines ever added, positive in quantity and
   price; below 2^32 lines they are numbered 1..n; an order past Draft has some.
   */
  lemma {:induction false} ReachableOrder(key: StreamKey, history: seq<Event>)
    requires Accepted(key, history)
    ensures Sound(key, Fold(key, history), AddedLines(history))
    ensures Fold(key, history).created <==> history != []
    ensures Fold(key, history).version == |history|
  {
    hide Sound, EventFits, Apply, AcceptedNext, LineOf;
    if history != [] {
      var n := |history| - 1;
      ReachableOrder(key, history[..n]);
      AcceptedEventFits(key, history[..n], history[n]);
      EventKeepsSound(key, Fold(key, history[..n]), AddedLines(history[..n]), history[n]);
    } else {
      EmptyIsSound(key);
    }
  }

  /** Along every run the status never moves back and the lines are frozen once the order has left Draft. */
  lemma {:induction false} LinesFrozenAfterDraft(key: StreamKey, history: seq<Event>, i: nat)
    requires Accepted(key, history) && i <= |history|
    ensures Rank(Fold(key, history[..i]).status) <= Rank(Fold(key, history).status)
    ensures Fold(key, history[..i]).status != Draft ==> Fold(key, history).lines == Fold(key, history[..i]).lines
  {
    hide Handle;
    if i == |history| {
      assert history[..i] == history;
    } else {
      var n := |history| - 1;
      assert history[..n][..i] == history[..i];
      LinesFrozenAfterDraft(key, history[..n], i);
      ReachableOrder(key, history[..n]);
      AcceptedEventFits(key, history[..n], history[n]);
    }
  }

  ghost predicate WasConfirmed(history: seq<Event>) {
    exists i | 0 <= i < |history| :: history[i].OrderConfirmed?
  }

  ghost predicate WasInvoiced(history: seq<Event>) {
    exists i | 0 <= i < |history| :: history[i].OrderInvoiced?
  }

  lemma StatusMoves(key: StreamKey, o: Order, e: Event)
    requires EventFits(key, o, e) && (!o.created ==> o.status == Draft)
    ensures Apply(o, e).status == Draft <==> o.status == Draft && !e.OrderConfirmed?
    ensures Apply(o, e).status == Invoiced <==> o.status == Invoiced || e.OrderInvoiced?
  {
    hide NextLineNo;
  }

  lemma HappenedSnoc(history: seq<Event>, e: Event)
    ensures WasConfirmed(history + [e]) <==> WasConfirmed(history) || e.OrderConfirmed?
    ensures WasInvoiced(history + [e]) <==> WasInvoiced(history) || e.OrderInvoiced?
  {
    var longer := history + [e];
    assert longer[|history|] == e && forall i | 0 <= i < |history| :: longer[i] == history[i];
  }

  lemma DraftUntilCreated(key: StreamKey, o: Order, added: seq<Line>)
    requires Sound(key, o, added)
    ensures !o.created ==> o.status == Draft
  {
  }

  /** The status says which decisions the history holds. */
  lemma {:induction false} StatusTellsHistory(key: StreamKey, history: seq<Event>)
    requires Accepted(key, history)
    ensures Fold(key, history).status == Draft <==> !WasConfirmed(history)
    ensures Fold(key, history).status == Invoiced <==> WasInvoiced(history)
  {
    hide Handle, AcceptedNext, Apply, EventFits, Sound;
    if history != [] {
      hide WasConfirmed, WasInvoiced;
      var n := |history| - 1;
      var init := history[..n];
      StatusTellsHistory(key, init);
      ReachableOrder(key, init);
      DraftUntilCreated(key, Fold(key, init), AddedLines(init));
      AcceptedEventFits(key, init, history[n]);
      StatusMoves(key, Fold(key, init), history[n]);
      assert history == init + [history[n]];
      HappenedSnoc(init, history[n]);
    }
  }

  /** Exactly when a command is accepted, in terms of what has happened to the order. */
  lemma AcceptedIff(key: StreamKey, history: seq<Event>, cmd: Command)
    requires Accepted(key, history) && Targets(cmd, key)
    ensures Handle(Fold(key, history), cmd).Ok? <==>
              match cmd
              case CreateOrder(_, _, _) => history == []
              case AddLine(_, _, _, quantity, unitPrice, _) =>
                history != [] && !WasConfirmed(history) && quantity > 0 && unitPrice > 0
              case ConfirmOrder(_, _, _) => !WasConfirmed(history) && AddedLines(history) != []
              case MarkInvoiced(_, _, _) => WasConfirmed(history) && !WasInvoiced(history)
  {
    hide Fold, Accepted, NextLineNo;
    ReachableOrder(key, history);
    StatusTellsHistory(key, history);
  }

  // ---------------------------------------------------------------------------
  // What a command does
  // ---------------------------------------------------------------------------

  /** Why a command is refused, in terms of what has happened to the order. */
  ghost function Refusal(history: seq<Event>, cmd: Command): Option<DomainError> {
    match cmd
    case CreateOrder(_, _, _) => if history != [] then Some(Conflict) else None
    case AddLine(_, _, _, quantity, unitPrice, _) =>
      if history == [] then Some(NotFound)
      else if WasConfirmed(history) then Some(InvariantViolation)
      else if quantity <= 0 || unitPrice == 0 then Some(Validation)
      else None
    case ConfirmOrder(_, _, _) =>
      if history == [] then Some(NotFound)
      else if WasConfirmed(history) then Some(InvariantViolation)
      else if AddedLines(history) == [] then Some(Validation)
      else None
    case MarkInvoiced(_, _, _) =>
      if history == [] then Some(NotFound)
      else if !WasConfirmed(history) || WasInvoiced(history) then Some(InvariantViolation)
      else None
  }

  /** On every reachable order the decision is the one the history calls for. */
  lemma {:induction false} AnswerIs(key: StreamKey, history: seq<Event>, cmd: Command)
    requires Accepted(key, history) && cmd.tenant == key.tenant && cmd.order == key.aggregate
    ensures match Refusal(history, cmd)
            case Some(cause) => Handle(Fold(key, history), cmd) == Err(cause)
            case None => Handle(Fold(key, history), cmd).Ok?
  {
    hide Fold, Accepted, NextLineNo, NumberedFromOne, AddedLines, WasConfirmed, WasInvoiced;
    ReachableOrder(key, history);
    StatusTellsHistory(key, history);
  }

  /** What an accepted command makes of the order. */
  ghost predicate Done(before: Order, cmd: Command, e: Event, after: Order) {
    && e.occurredAt == cmd.occurredAt
    && after.id == cmd.order && after.tenant == Some(cmd.tenant)
    && match cmd
       case CreateOrder(_, _, _) => after.status == Draft && after.lines == []
       case AddLine(_, _, product, quantity, unitPrice, _) =>
         && |after.lines| == |before.lines| + 1 && after.lines[..|before.lines|] == before.lines
         && after.lines[|before.lines|].product == product && after.lines[|before.lines|].quantity == quantity
         && after.lines[|before.lines|].unitPrice == unitPrice
         && after.status == Draft
       case ConfirmOrder(_, _, _) => after == before.(status := Confirmed, version := after.version)
       case MarkInvoiced(_, _, _) => after == before.(status := Invoiced, version := after.version)
  }

  lemma HandleDoes(o: Order, cmd: Command)
    requires Handle(o, cmd).Ok? && (o.created ==> o.tenant == Some(cmd.tenant) && o.id == cmd.order)
    ensures var events := Handle(o, cmd).value; |events| == 1 && Done(o, cmd, events[0], Apply(o, events[0]))
  {
    hide NextLineNo;
  }

  lemma {:induction false} CommandDoes(key: StreamKey, history: seq<Event>, cmd: Command)
    requires Accepted(key, history) && cmd.tenant == key.tenant && cmd.order == key.aggregate
    requires Refusal(history, cmd).None?
    ensures var r := Handle(Fold(key, history), cmd);
            && r.Ok? && |r.value| == 1
            && Accepted(key, history + r.value)
            && Done(Fold(key, history), cmd, r.value[0], Fold(key, history + r.value))
  {
    hide Handle, Apply, Done, Refusal;
    AnswerIs(key, history, cmd);
    ReachableOrder(key, history);
    HandleDoes(Fold(key, history), cmd);
    AcceptedExtends(key, history, cmd);
  }

  /** A reachable order refuses commands of another tenant or order. */
  lemma {:induction false} ForeignIsRefused(key: StreamKey, history: seq<Event>, cmd: Command)
    requires Accepted(key, history) && history != [] && !cmd.CreateOrder?
    requires cmd.tenant != key.tenant || cmd.order != key.aggregate
    ensures Handle(Fold(key, history), cmd) == Err(InvariantViolation)
  {
    hide Fold, Accepted, NumberedFromOne, AddedLines, NextLineNo;
    ReachableOrder(key, history);
  }

  lemma OneEvent(state: Order, cmd: Command)
    requires Handle(state, cmd).Ok?
    ensures |Handle(state, cmd).value| == 1
  {
    hide NextLineNo;
  }

  /** What `handle` accepts extends the accepted history by one event. */
  lemma {:induction false} AcceptedExtends(key: StreamKey, history: seq<Event>, cmd: Command)
    requires Accepted(key, history) && Targets(cmd, key) && Handle(Fold(key, history), cmd).Ok?
    ensures var events := Handle(Fold(key, history), cmd).value;
            && |events| == 1
            && Accepted(key, history + events)
            && Fold(key, history + events) == Apply(Fold(key, history), events[0])
  {
    hide Handle, Apply;
    OneEvent(Fold(key, history), cmd);
    var events := Handle(Fold(key, history), cmd).value;
    assert events == [events[0]];
    assert AcceptedNext(key, history, events[0]);
    assert (history + events)[..|history|] == history;
  }
}
