/** The purchase order aggregate (crates/purchasing/src/order.rs). */
module Purchasing {
  import opened Core

  datatype Status = Draft | Approved | Received | Closed

  datatype Line = Line(lineNo: U32, product: AggregateId, quantity: I64)

  datatype Event =
    | OrderCreated(tenant: TenantId, order: AggregateId, supplier: AggregateId, occurredAt: Time)
    | LineAdded(tenant: TenantId, order: AggregateId, lineNo: U32, product: AggregateId, quantity: I64, occurredAt: Time)
    | OrderApproved(tenant: TenantId, order: AggregateId, occurredAt: Time)
    | GoodsReceived(tenant: TenantId, order: AggregateId, supplier: AggregateId, lines: seq<Line>, occurredAt: Time)

  datatype Command =
    | CreateOrder(tenant: TenantId, order: AggregateId, supplier: AggregateId, occurredAt: Time)
    | AddLine(tenant: TenantId, order: AggregateId, product: AggregateId, quantity: I64, occurredAt: Time)
    | Approve(tenant: TenantId, order: AggregateId, occurredAt: Time)
    | ReceiveGoods(tenant: TenantId, order: AggregateId, occurredAt: Time)

  datatype Order = Order(
    id: AggregateId, tenant: Option<TenantId>, supplier: Option<AggregateId>, status: Status, lines: seq<Line>, version: nat, created: bool)

  function Empty(id: AggregateId): Order {
    Order(id, None, None, Draft, [], 0, false)
  }

  function Apply(o: Order, e: Event): Order {
    match e
    case OrderCreated(tenant, order, supplier, _) =>
      Order(order, Some(tenant), Some(supplier), Draft, [], o.version + 1, true)
    case LineAdded(_, _, lineNo, product, quantity, _) =>
      o.(lines := o.lines + [Line(lineNo, product, quantity)], version := o.version + 1)
    case OrderApproved(_, _, _) => o.(status := Approved, version := o.version + 1)
    case GoodsReceived(_, _, _, lines, _) => o.(lines := lines, status := Received, version := o.version + 1)
  }

  /** `lines.len() as u32 + 1`, wrapping as compiled without overflow checks. */
  function NextLineNo(count: nat): (r: U32)
    ensures count + 1 < U32_LIMIT ==> r == count + 1
  {
    WrapAdd32(count % U32_LIMIT, 1)
  }

  predicate Foreign(o: Order, cmd: Command) {
    o.tenant != Some(cmd.tenant) || o.id != cmd.order
  }

  function Handle(o: Order, cmd: Command): Result<seq<Event>, DomainError> {
    match cmd
    case CreateOrder(tenant, order, supplier, at) =>
      if o.created then Err(Conflict) else Ok([OrderCreated(tenant, order, supplier, at)])
    case AddLine(tenant, order, product, quantity, at) =>
      if !o.created then Err(NotFound)
      else if Foreign(o, cmd) then Err(InvariantViolation)
      else if o.status != Draft then Err(InvariantViolation)
      else if quantity <= 0 then Err(Validation)
      else Ok([LineAdded(tenant, order, NextLineNo(|o.lines|), product, quantity, at)])
    case Approve(tenant, order, at) =>
      if !o.created then Err(NotFound)
      else if Foreign(o, cmd) then Err(InvariantViolation)
      else if o.status != Draft then Err(InvariantViolation)
      else if o.lines == [] then Err(Validation)
      else Ok([OrderApproved(tenant, order, at)])
    case ReceiveGoods(tenant, order, at) =>
      if !o.created then Err(NotFound)
      else if Foreign(o, cmd) then Err(InvariantViolation)
      else if o.status != Approved then Err(InvariantViolation)
      else if o.supplier.None? then Err(InvariantViolation)
      else if o.lines == [] then Err(Validation)
      else Ok([GoodsReceived(tenant, order, o.supplier.value, o.lines, at)])
  }

  class PurchaseOrder {
    var id: AggregateId
    var tenant: Option<TenantId>
    var supplier: Option<AggregateId>
    var status: Status
    var lines: seq<Line>
    var version: nat
    var created: bool

    function View(): Order
      reads this
    {
      Order(id, tenant, supplier, status, lines, version, created)
    }

    constructor (id: AggregateId)
      ensures View() == Empty(id)
    {
      this.id, tenant, supplier, status, lines, version, created := id, None, None, Draft, [], 0, false;
    }

    method Evolve(e: Event)
      modifies this
      ensures View() == Apply(old(View()), e)
    {
      match e {
        case OrderCreated(t, o, s, _) =>
          id := o;
          tenant := Some(t);
          supplier := Some(s);
          status := Draft;
          lines := [];
          created := true;
        case LineAdded(_, _, lineNo, product, quantity, _) =>
          lines := lines + [Line(lineNo, product, quantity)];
        case OrderApproved(_, _, _) =>
          status := Approved;
        case GoodsReceived(_, _, _, ls, _) =>
          lines := ls;
          status := Received;
      }
      version := version + 1;
    }
  }

  function Fold(key: StreamKey, history: seq<Event>): Order {
    if history == [] then Empty(key.aggregate)
    else Apply(Fold(key, history[..|history| - 1]), history[|history| - 1])
  }

  predicate Targets(cmd: Command, key: StreamKey) {
    cmd.tenant == key.tenant && cmd.order == key.aggregate
  }

  ghost predicate AcceptedNext(key: StreamKey, history: seq<Event>, e: Event) {
    exists cmd :: Targets(cmd, key) && Handle(Fold(key, history), cmd) == Ok([e])
  }

  ghost predicate Accepted(key: StreamKey, history: seq<Event>) {
    history == [] ||
    var n := |history| - 1;
    Accepted(key, history[..n]) && AcceptedNext(key, history[..n], history[n])
  }

  /** The lines added over a history, in order. */
  function AddedLines(history: seq<Event>): seq<Line> {
    if history == [] then [] else AddedLines(history[..|history| - 1]) + LineOf(history[|history| - 1])
  }

  function LineOf(e: Event): seq<Line> {
    if e.LineAdded? then [Line(e.lineNo, e.product, e.quantity)] else []
  }

  function Rank(s: Status): nat {
    match s
    case Draft => 0
    case Approved => 1
    case Received => 2
    case Closed => 3
  }

  ghost predicate NumberedFromOne(lines: seq<Line>) {
    forall i | 0 <= i < |lines| :: lines[i].lineNo == i + 1
  }

  /** What `handle` guarantees about the event it returns. */
  predicate EventFits(key: StreamKey, o: Order, e: Event) {
    && e.tenant == key.tenant && e.order == key.aggregate
    && match e
       case OrderCreated(_, _, _, _) => !o.created
       case LineAdded(_, _, lineNo, _, quantity, _) =>
         o.created && o.status == Draft && quantity > 0 && lineNo == NextLineNo(|o.lines|)
       case OrderApproved(_, _, _) => o.created && o.status == Draft && o.lines != []
       case GoodsReceived(_, _, _, lines, _) => o.created && o.status == Approved && lines == o.lines
  }

  lemma AcceptedEventFits(key: StreamKey, history: seq<Event>, e: Event)
    requires AcceptedNext(key, history, e)
    ensures EventFits(key, Fold(key, history), e)
  {
    hide NextLineNo;
    var cmd :| Targets(cmd, key) && Handle(Fold(key, history), cmd) == Ok([e]);
  }

  predicate AllPositive(lines: seq<Line>) {
    forall i | 0 <= i < |lines| :: lines[i].quantity > 0
  }

  /** What is true of a reachable order to which `added` has been added. */
  ghost predicate Sound(key: StreamKey, o: Order, added: seq<Line>) {
    && o.lines == added
    && AllPositive(added)
    && (|added| < U32_LIMIT ==> NumberedFromOne(added))
    && o.id == key.aggregate
    && (o.created ==> o.tenant == Some(key.tenant) && o.supplier.Some?)
    && (!o.created ==> o.status == Draft && added == [])
    && (o.status != Draft ==> added != [])
    && o.status != Closed
  }

  lemma LineKeepsSound(key: StreamKey, o: Order, added: seq<Line>, e: Event)
    requires Sound(key, o, added) && EventFits(key, o, e) && e.LineAdded?
    ensures Sound(key, Apply(o, e), added + LineOf(e))
  {
    hide NextLineNo;
  }

  lemma EventKeepsSound(key: StreamKey, o: Order, added: seq<Line>, e: Event)
    requires Sound(key, o, added) && EventFits(key, o, e)
    ensures Sound(key, Apply(o, e), added + LineOf(e))
    ensures Apply(o, e).created && Apply(o, e).version == o.version + 1
  {
    hide NextLineNo, NumberedFromOne, AllPositive;
    if e.LineAdded? {
      LineKeepsSound(key, o, added, e);
    } else {
      assert added + LineOf(e) == added;
    }
  }

  lemma EmptyIsSound(key: StreamKey)
    ensures Sound(key, Empty(key.aggregate), [])
  {
  }

  /**
   In every reachable order the lines are exactly the lines ever added, with positive quantities;
   below 2^32 lines they are numbered 1..n; an approved or received order has some.
   */
  lemma {:induction false} ReachableOrder(key: StreamKey, history: seq<Event>)
    requires Accepted(key, history)
    ensures Sound(key, Fold(key, history), AddedLines(history))
    ensures Fold(key, history).created <==> history != []
    ensures Fold(key, history).version == |history|
  {
    hide Sound, EventFits, Apply, AcceptedNext, LineOf;
    if history != [] {
      var n := |history| - 1;
      ReachableOrder(key, history[..n]);
      AcceptedEventFits(key, history[..n], history[n]);
      EventKeepsSound(key, Fold(key, history[..n]), AddedLines(history[..n]), history[n]);
    } else {
      EmptyIsSound(key);
    }
  }

  /** Along every run the status never moves back and the lines are frozen once the order has left Draft. */
  lemma {:induction false} LinesFrozenAfterDraft(key: StreamKey, history: seq<Event>, i: nat)
    requires Accepted(key, history) && i <= |history|
    ensures Accepted(key, history[..i])
    ensures Rank(Fold(key, history[..i]).status) <= Rank(Fold(key, history).status)
    ensures Fold(key, history[..i]).status != Draft ==> Fold(key, history).lines == Fold(key, history[..i]).lines
  {
    hide Handle;
    if i == |history| {
      assert history[..i] == history;
    } else {
      var n := |history| - 1;
      assert history[..n][..i] == history[..i];
      LinesFrozenAfterDraft(key, history[..n], i);
      ReachableOrder(key, history[..n]);
      AcceptedEventFits(key, history[..n], history[n]);
    }
  }

  /** Each event of an accepted history fits the state before it. */
  lemma AcceptedAt(key: StreamKey, history: seq<Event>, i: nat)
    requires Accepted(key, history) && i < |history|
    ensures Accepted(key, history[..i])
    ensures EventFits(key, Fold(key, history[..i]), history[i])
    ensures Fold(key, history[..i + 1]) == Apply(Fold(key, history[..i]), history[i])
  {
    hide Handle;
    LinesFrozenAfterDraft(key, history, i + 1);
    var upTo := history[..i + 1];
    assert upTo[..i] == history[..i];
    AcceptedEventFits(key, upTo[..i], upTo[i]);
  }

  /** From approval on, nothing but a receipt of the approved lines can follow. */
  lemma ApprovedLinesKept(key: StreamKey, history: seq<Event>, a: nat, r: nat)
    requires Accepted(key, history)
    requires a < r <= |history| && history[a].OrderApproved?
    ensures Rank(Fold(key, history[..r]).status) >= 1
    ensures Fold(key, history[..r]).lines == Fold(key, history[..a]).lines
  {
    hide Handle;
    AcceptedAt(key, history, a);
    LinesFrozenAfterDraft(key, history, r);
    assert history[..r][..a + 1] == history[..a + 1];
    LinesFrozenAfterDraft(key, history[..r], a + 1);
  }

  lemma StatusNeverMovesBack(key: StreamKey, history: seq<Event>, i: nat, j: nat)
    requires Accepted(key, history) && i <= j <= |history|
    ensures Rank(Fold(key, history[..i]).status) <= Rank(Fold(key, history[..j]).status)
  {
    LinesFrozenAfterDraft(key, history, j);
    assert history[..j][..i] == history[..i];
    LinesFrozenAfterDraft(key, history[..j], i);
  }

  /** What a receipt carries is exactly what was added before the approval. */
  lemma ReceivedIsWhatWasApproved(key: StreamKey, history: seq<Event>, a: nat, r: nat)
    requires Accepted(key, history)
    requires a < |history| && r < |history| && history[a].OrderApproved? && history[r].GoodsReceived?
    ensures a < r
    ensures history[r].lines == AddedLines(history[..a])
  {
    hide Handle, Accepted, Fold;
    AcceptedAt(key, history, a);
    AcceptedAt(key, history, r);
    ReachableOrder(key, history[..a]);
    if r < a {
      StatusNeverMovesBack(key, history, r + 1, a);
    } else if a < r {
      ApprovedLinesKept(key, history, a, r);
    }
  }

  ghost predicate WasApproved(history: seq<Event>) {
    exists i | 0 <= i < |history| :: history[i].OrderApproved?
  }

  ghost predicate WasReceived(history: seq<Event>) {
    exists i | 0 <= i < |history| :: history[i].GoodsReceived?
  }

  lemma StatusMoves(key: StreamKey, o: Order, e: Event)
    requires EventFits(key, o, e) && (!o.created ==> o.status == Draft)
    ensures Apply(o, e).status == Draft <==> o.status == Draft && !e.OrderApproved?
    ensures Apply(o, e).status == Received <==> o.status == Received || e.GoodsReceived?
  {
    hide NextLineNo;
  }

  lemma HappenedSnoc(history: seq<Event>, e: Event)
    ensures WasApproved(history + [e]) <==> WasApproved(history) || e.OrderApproved?
    ensures WasReceived(history + [e]) <==> WasReceived(history) || e.GoodsReceived?
  {
    var longer := history + [e];
    assert longer[|history|] == e && forall i | 0 <= i < |history| :: longer[i] == history[i];
  }

  lemma DraftUntilCreated(key: StreamKey, o: Order, added: seq<Line>)
    requires Sound(key, o, added)
    ensures !o.created ==> o.status == Draft
  {
  }

  /** The status says which decisions the history holds. */
  lemma {:induction false} StatusTellsHistory(key: StreamKey, history: seq<Event>)
    requires Accepted(key, history)
    ensures Fold(key, history).status == Draft <==> !WasApproved(history)
    ensures Fold(key, history).status == Received <==> WasReceived(history)
  {
    hide Handle, AcceptedNext, Apply, EventFits, Sound;
    if history != [] {
      hide WasApproved, WasReceived;
      var n := |history| - 1;
      var init := history[..n];
      StatusTellsHistory(key, init);
      ReachableOrder(key, init);
      DraftUntilCreated(key, Fold(key, init), AddedLines(init));
      AcceptedEventFits(key, init, history[n]);
      StatusMoves(key, Fold(key, init), history[n]);
      assert history == init + [history[n]];
      HappenedSnoc(init, history[n]);
    }
  }

  /** Exactly when a command is accepted, in terms of what has happened to the order. */
  lemma AcceptedIff(key: StreamKey, history: seq<Event>, cmd: Command)
    requires Accepted(key, history) && Targets(cmd, key)
    ensures Handle(Fold(key, history), cmd).Ok? <==>
              match cmd
              case CreateOrder(_, _, _, _) => history == []
              case AddLine(_, _, _, quantity, _) => history != [] && !WasApproved(history) && quantity > 0
              case Approve(_, _, _) => !WasApproved(history) && AddedLines(history) != []
              case ReceiveGoods(_, _, _) => WasApproved(history) && !WasReceived(history)
  {
    hide Fold, Accepted, NextLineNo;
    ReachableOrder(key, history);
    StatusTellsHistory(key, history);
  }

  // ---------------------------------------------------------------------------
  // What a command does
  // ---------------------------------------------------------------------------

  /** Why a command is refused, in terms of what has happened to the order. */
  ghost function Refusal(history: seq<Event>, cmd: Command): Option<DomainError> {
    match cmd
    case CreateOrder(_, _, _, _) => if history != [] then Some(Conflict) else None
    case AddLine(_, _, _, quantity, _) =>
      if history == [] then Some(NotFound)
      else if WasApproved(history) then Some(InvariantViolation)
      else if quantity <= 0 then Some(Validation)
      else None
    case Approve(_, _, _) =>
      if history == [] then Some(NotFound)
      else if WasApproved(history) then Some(InvariantViolation)
      else if AddedLines(history) == [] then Some(Validation)
      else None
    case ReceiveGoods(_, _, _) =>
      if history == [] then Some(NotFound)
      else if !WasApproved(history) || WasReceived(history) then Some(InvariantViolation)
      else None
  }

  /** On every reachable order the decision is the one the history calls for. */
  lemma {:induction false} AnswerIs(key: StreamKey, history: seq<Event>, cmd: Command)
    requires Accepted(key, history) && cmd.tenant == key.tenant && cmd.order == key.aggregate
    ensures match Refusal(history, cmd)
            case Some(cause) => Handle(Fold(key, history), cmd) == Err(cause)
            case None => Handle(Fold(key, history), cmd).Ok?
  {
    hide Fold, Accepted, NextLineNo, NumberedFromOne, AddedLines, WasApproved, WasReceived;
    ReachableOrder(key, history);
    StatusTellsHistory(key, history);
  }

  /** What an accepted command makes of the order. */
  ghost predicate Done(before: Order, cmd: Command, e: Event, after: Order) {
    && e.occurredAt == cmd.occurredAt
    && after.id == cmd.order && after.tenant == Some(cmd.tenant)
    && match cmd
       case CreateOrder(_, _, supplier, _) => after.supplier == Some(supplier) && after.status == Draft && after.lines == []
       case AddLine(_, _, product, quantity, _) =>
         && |after.lines| == |before.lines| + 1 && after.lines[..|before.lines|] == before.lines
         && after.lines[|before.lines|].product == product && after.lines[|before.lines|].quantity == quantity
         && after.supplier == before.supplier && after.status == Draft
       case Approve(_, _, _) => after == before.(status := Approved, version := after.version)
       case ReceiveGoods(_, _, _) =>
         && after == before.(status := Received, version := after.version)
         && e.GoodsReceived? && Some(e.supplier) == before.supplier && e.lines == before.lines
  }

  lemma HandleDoes(o: Order, cmd: Command)
    requires Handle(o, cmd).Ok? && (o.created ==> o.tenant == Some(cmd.tenant) && o.id == cmd.order)
    ensures var events := Handle(o, cmd).value; |events| == 1 && Done(o, cmd, events[0], Apply(o, events[0]))
  {
    hide NextLineNo;
  }

  lemma {:induction false} CommandDoes(key: StreamKey, history: seq<Event>, cmd: Command)
    requires Accepted(key, history) && cmd.tenant == key.tenant && cmd.order == key.aggregate
    requires Refusal(history, cmd).None?
    ensures var r := Handle(Fold(key, history), cmd);
            && r.Ok? && |r.value| == 1
            && Accepted(key, history + r.value)
            && Done(Fold(key, history), cmd, r.value[0], Fold(key, history + r.value))
  {
    hide Handle, Apply, Done, Refusal;
    AnswerIs(key, history, cmd);
    ReachableOrder(key, history);
    HandleDoes(Fold(key, history), cmd);
    AcceptedExtends(key, history, cmd);
  }

  /** A reachable order refuses commands of another tenant or order. */
  lemma {:induction false} ForeignIsRefused(key: StreamKey, history: seq<Event>, cmd: Command)
    requires Accepted(key, history) && history != [] && !cmd.CreateOrder?
    requires cmd.tenant != key.tenant || cmd.order != key.aggregate
    ensures Handle(Fold(key, history), cmd) == Err(InvariantViolation)
  {
    hide Fold, Accepted, NumberedFromOne, AddedLines, NextLineNo;
    ReachableOrder(key, history);
  }

  lemma OneEvent(state: Order, cmd: Command)
    requires Handle(state, cmd).Ok?
    ensures |Handle(state, cmd).value| == 1
  {
    hide NextLineNo;
  }

  /** What `handle` accepts extends the accepted history by one event. */
  lemma {:induction false} AcceptedExtends(key: StreamKey, history: seq<Event>, cmd: Command)
    requires Accepted(key, history) && Targets(cmd, key) && Handle(Fold(key, history), cmd).Ok?
    ensures var events := Handle(Fold(key, history), cmd).value;
            && |events| == 1
            && Accepted(key, history + events)
            && Fold(key, history + events) == Apply(Fold(key, history), events[0])
  {
    hide Handle, Apply;
    OneEvent(Fold(key, history), cmd);
    var events := Handle(Fold(key, history), cmd).value;
    assert events == [events[0]];
    assert AcceptedNext(key, history, events[0]);
    assert (history + events)[..|history|] == history;
  }
}
