/** The invoice aggregate (crates/invoicing/src/invoice.rs). */
module Invoicing {
  import opened Core

  datatype Line = Line(lineNo: U32, salesOrder: AggregateId, product: AggregateId, quantity: I64, unitPrice: U64)

  datatype Status = Open | Paid | Void

  datatype Event =
    | InvoiceIssued(tenant: TenantId, invoice: AggregateId, salesOrder: AggregateId, lines: seq<Line>, dueDate: Time, totalAmount: U64, occurredAt: Time)
    | PaymentRegistered(tenant: TenantId, invoice: AggregateId, amount: U64, newTotalPaid: U64, occurredAt: Time)
    | InvoiceVoided(tenant: TenantId, invoice: AggregateId, reason: Option<string>, occurredAt: Time)

  datatype Command =
    | IssueInvoice(tenant: TenantId, invoice: AggregateId, salesOrder: AggregateId, lines: seq<Line>, dueDate: Time, occurredAt: Time)
    | RegisterPayment(tenant: TenantId, invoice: AggregateId, amount: U64, occurredAt: Time)
    | VoidInvoice(tenant: TenantId, invoice: AggregateId, reason: Option<string>, occurredAt: Time)

  datatype InvoiceState = InvoiceState(
    id: AggregateId, tenant: Option<TenantId>, status: Status, lines: seq<Line>, dueDate: Option<Time>,
    totalAmount: U64, totalPaid: U64, version: nat, created: bool)
  {
    function Outstanding(): nat {
      SaturatingSub(totalAmount, totalPaid)
    }

    predicate CanAcceptPayment() {
      status != Void && Outstanding() > 0
    }
  }

  function Empty(id: AggregateId): InvoiceState {
    InvoiceState(id, None, Open, [], None, 0, 0, 0, false)
  }

  function Apply(s: InvoiceState, e: Event): InvoiceState {
    match e
    case InvoiceIssued(tenant, invoice, _, lines, dueDate, totalAmount, _) =>
      InvoiceState(invoice, Some(tenant), Open, lines, Some(dueDate), totalAmount, 0, s.version + 1, true)
    case PaymentRegistered(_, _, _, newTotalPaid, _) =>
      s.(totalPaid := newTotalPaid,
         status := if newTotalPaid >= s.totalAmount then Paid else s.status,
         version := s.version + 1)
    case InvoiceVoided(_, _, _, _) => s.(status := Void, version := s.version + 1)
  }

  // ---------------------------------------------------------------------------
  // The total of an invoice
  // ---------------------------------------------------------------------------

  const I128_LIMIT: int := 0x8000_0000_0000_0000_0000_0000_0000_0000

  function CheckedMul128(x: int, y: int): Option<int> {
    if -I128_LIMIT <= x * y < I128_LIMIT then Some(x * y) else None
  }

  /** The amount of one line, with every check of the issuing loop, before it is cut down to 64 bits. */
  function LineAmount(line: Line): Result<int, DomainError> {
    if line.quantity <= 0 then Err(Validation)
    else if line.unitPrice == 0 then Err(Validation)
    else
      match CheckedMul128(line.quantity, line.unitPrice)
      case None => Err(InvariantViolation)
      case Some(amount) => if amount <= 0 then Err(InvariantViolation) else Ok(amount)
  }

  function Low64(x: int): (r: U64)
    ensures 0 <= x < U64_LIMIT ==> r == x
  {
    x % U64_LIMIT
  }

  function IssueTotal(lines: seq<Line>): Result<U64, DomainError> {
    if lines == [] then Ok(0)
    else
      var n := |lines| - 1;
      match IssueTotal(lines[..n])
      case Err(e) => Err(e)
      case Ok(total) =>
        match LineAmount(lines[n])
        case Err(e) => Err(e)
        case Ok(amount) =>
          if total + Low64(amount) < U64_LIMIT then Ok(total + Low64(amount)) else Err(InvariantViolation)
  }

  predicate Positive(line: Line) {
    line.quantity > 0 && line.unitPrice > 0
  }

  function ExactAmount(line: Line): int {
    line.quantity * line.unitPrice
  }

  function ExactTotal(lines: seq<Line>): int {
    if lines == [] then 0 else ExactTotal(lines[..|lines| - 1]) + ExactAmount(lines[|lines| - 1])
  }

  predicate FitsU64(line: Line) {
    ExactAmount(line) < U64_LIMIT
  }

  lemma MulMonotone(x: int, y: int, a: int, b: int)
    requires 0 < x <= a && 0 < y <= b
    ensures 0 < x * y <= a * b
  {
    assert x * y <= a * y;
    assert a * y <= a * b;
  }

  /** The multiplication and positivity checks of the loop cannot fail. */
  lemma LineAmountNeverOverflows(line: Line)
    ensures Positive(line) ==> LineAmount(line) == Ok(ExactAmount(line)) && ExactAmount(line) > 0
    ensures !Positive(line) ==> LineAmount(line) == Err(Validation)
  {
    if Positive(line) {
      MulMonotone(line.quantity, line.unitPrice, I64_LIMIT - 1, U64_LIMIT - 1);
    }
  }

  lemma AddLow64(total: nat, exact: int, amount: int)
    requires total < U64_LIMIT && total == exact % U64_LIMIT && amount >= 0
    requires total + Low64(amount) < U64_LIMIT
    ensures total + Low64(amount) == (exact + amount) % U64_LIMIT
  {
    var q, p := exact / U64_LIMIT, amount / U64_LIMIT;
    assert exact + amount == (q + p) * U64_LIMIT + (total + Low64(amount));
  }

  /** An accepted total is the exact sum modulo 2^64, and it is the exact sum precisely when every line fits 64 bits. */
  lemma {:induction false} AcceptedTotal(lines: seq<Line>)
    requires IssueTotal(lines).Ok?
    ensures forall i | 0 <= i < |lines| :: Positive(lines[i])
    ensures IssueTotal(lines).value == ExactTotal(lines) % U64_LIMIT
    ensures 0 <= ExactTotal(lines) && forall i | 0 <= i < |lines| :: ExactAmount(lines[i]) <= ExactTotal(lines)
    ensures IssueTotal(lines).value == ExactTotal(lines) <==> forall i | 0 <= i < |lines| :: FitsU64(lines[i])
  {
    hide ExactAmount, LineAmount, Low64;
    if lines != [] {
      var n := |lines| - 1;
      var init, last := lines[..n], lines[n];
      AcceptedTotal(init);
      LineAmountNeverOverflows(last);
      var total, amount := IssueTotal(init).value, ExactAmount(last);
      AddLow64(total, ExactTotal(init), amount);
      assert forall i | 0 <= i < n :: lines[i] == init[i];
      if forall i | 0 <= i < |lines| :: FitsU64(lines[i]) {
        assert FitsU64(last);
        assert forall i | 0 <= i < n :: FitsU64(init[i]);
      } else {
        var i :| 0 <= i < |lines| && !FitsU64(lines[i]);
        assert ExactAmount(lines[i]) <= ExactTotal(lines);
      }
    }
  }

  /** Lists of positive lines that each fit 64 bits are accepted exactly when their sum does. */
  lemma {:induction false} FittingLinesAcceptedIff(lines: seq<Line>)
    requires forall i | 0 <= i < |lines| :: Positive(lines[i]) && FitsU64(lines[i])
    ensures 0 <= ExactTotal(lines)
    ensures IssueTotal(lines) == if ExactTotal(lines) < U64_LIMIT then Ok(ExactTotal(lines)) else Err(InvariantViolation)
  {
    hide ExactAmount, LineAmount, Low64;
    if lines != [] {
      var n := |lines| - 1;
      FittingLinesAcceptedIff(lines[..n]);
      LineAmountNeverOverflows(lines[n]);
      assert FitsU64(lines[n]);
    }
  }

  /** The sum of the line amounts, each cut down to 64 bits. */
  function ResidueTotal(lines: seq<Line>): int {
    if lines == [] then 0 else ResidueTotal(lines[..|lines| - 1]) + ExactAmount(lines[|lines| - 1]) % U64_LIMIT
  }

  /** Exactly which line lists are accepted: positive lines whose residues modulo 2^64 sum below 2^64. */
  lemma {:induction false} TotalAcceptedIff(lines: seq<Line>)
    ensures ResidueTotal(lines) >= 0
    ensures IssueTotal(lines).Ok? <==> (forall i | 0 <= i < |lines| :: Positive(lines[i])) && ResidueTotal(lines) < U64_LIMIT
    ensures IssueTotal(lines).Ok? ==> IssueTotal(lines).value == ResidueTotal(lines)
  {
    hide ExactAmount, LineAmount, Positive;
    if lines != [] {
      var n := |lines| - 1;
      TotalAcceptedIff(lines[..n]);
      LineAmountNeverOverflows(lines[n]);
      assert forall i | 0 <= i < n :: lines[i] == lines[..n][i];
    }
  }

  /** Truncation is reachable: a two-unit line priced 2^63 is issued with total zero. */
  lemma TruncatedTotal()
    ensures IssueTotal([Line(1, 0, 0, 2, 0x8000_0000_0000_0000)]) == Ok(0)
  {
    var line := Line(1, 0, 0, 2, 0x8000_0000_0000_0000);
    LineAmountNeverOverflows(line);
    assert [line][..0] == [];
    assert IssueTotal([line][..0]) == Ok(0);
  }

  /** The accumulating loop of `handle_issue`. */
  method ComputeTotal(lines: seq<Line>) returns (r: Result<U64, DomainError>)
    ensures r == IssueTotal(lines)
  {
    var total: U64 := 0;
    for i := 0 to |lines|
      invariant IssueTotal(lines[..i]) == Ok(total)
    {
      assert lines[..i + 1][..i] == lines[..i];
      var amount := LineAmount(lines[i]);
      if amount.Err? {
        FailedTotalStays(lines, i + 1);
        return Err(amount.error);
      }
      var low := Low64(amount.value);
      if total + low >= U64_LIMIT {
        FailedTotalStays(lines, i + 1);
        return Err(InvariantViolation);
      }
      total := total + low;
    }
    assert lines[..|lines|] == lines;
    return Ok(total);
  }

  lemma {:induction false} FailedTotalStays(lines: seq<Line>, i: nat)
    requires i <= |lines|
    requires IssueTotal(lines[..i]).Err?
    ensures IssueTotal(lines) == IssueTotal(lines[..i])
  {
    if i == |lines| {
      assert lines[..i] == lines;
    } else {
      var n := |lines| - 1;
      assert lines[..n][..i] == lines[..i];
      FailedTotalStays(lines[..n], i);
    }
  }

  // ---------------------------------------------------------------------------
  // Decisions
  // ---------------------------------------------------------------------------

  function HandleIssue(s: InvoiceState, cmd: Command): Result<seq<Event>, DomainError>
    requires cmd.IssueInvoice?
  {
    if s.created then Err(Conflict)
    else if cmd.lines == [] then Err(Validation)
    else
      match IssueTotal(cmd.lines)
      case Err(e) => Err(e)
      case Ok(total) =>
        Ok([InvoiceIssued(cmd.tenant, cmd.invoice, cmd.salesOrder, cmd.lines, cmd.dueDate, total, cmd.occurredAt)])
  }

  function HandlePayment(s: InvoiceState, cmd: Command): Result<seq<Event>, DomainError>
    requires cmd.RegisterPayment?
  {
    if !s.created then Err(NotFound)
    else if s.tenant != Some(cmd.tenant) then Err(InvariantViolation)
    else if s.id != cmd.invoice then Err(InvariantViolation)
    else if !s.CanAcceptPayment() then Err(InvariantViolation)
    else if cmd.amount == 0 then Err(Validation)
    else if s.totalPaid + cmd.amount >= U64_LIMIT then Err(InvariantViolation)
    else if s.totalPaid + cmd.amount > s.totalAmount then Err(InvariantViolation)
    else Ok([PaymentRegistered(cmd.tenant, cmd.invoice, cmd.amount, s.totalPaid + cmd.amount, cmd.occurredAt)])
  }

  function HandleVoid(s: InvoiceState, cmd: Command): Result<seq<Event>, DomainError>
    requires cmd.VoidInvoice?
  {
    if !s.created then Err(NotFound)
    else if s.tenant != Some(cmd.tenant) then Err(InvariantViolation)
    else if s.id != cmd.invoice then Err(InvariantViolation)
    else if s.status == Void then Err(Conflict)
    else Ok([InvoiceVoided(cmd.tenant, cmd.invoice, cmd.reason, cmd.occurredAt)])
  }

  function Handle(s: InvoiceState, cmd: Command): Result<seq<Event>, DomainError> {
    match cmd
    case IssueInvoice(_, _, _, _, _, _) => HandleIssue(s, cmd)
    case RegisterPayment(_, _, _, _) => HandlePayment(s, cmd)
    case VoidInvoice(_, _, _, _) => HandleVoid(s, cmd)
  }

  /** The aggregate object: `Evolve` updates its fields in place. */
  class Invoice {
    var id: AggregateId
    var tenant: Option<TenantId>
    var status: Status
    var lines: seq<Line>
    var dueDate: Option<Time>
    var totalAmount: U64
    var totalPaid: U64
    var version: nat
    var created: bool

    function View(): InvoiceState
      reads this
    {
      InvoiceState(id, tenant, status, lines, dueDate, totalAmount, totalPaid, version, created)
    }

    constructor (id: AggregateId)
      ensures View() == Empty(id)
    {
      this.id, tenant, status, lines, dueDate := id, None, Open, [], None;
      totalAmount, totalPaid, version, created := 0, 0, 0, false;
    }

    method Evolve(e: Event)
      modifies this
      ensures View() == Apply(old(View()), e)
    {
      match e {
        case InvoiceIssued(t, i, _, ls, due, total, _) =>
          id := i;
          tenant := Some(t);
          lines := ls;
          dueDate := Some(due);
          totalAmount := total;
          totalPaid := 0;
          status := Open;
          created := true;
        case PaymentRegistered(_, _, _, newTotalPaid, _) =>
          totalPaid := newTotalPaid;
          if totalPaid >= totalAmount {
            status := Paid;
          }
        case InvoiceVoided(_, _, _, _) =>
          status := Void;
      }
      version := version + 1;
    }

    /** `handle_issue` with its loop. */
    method Issue(cmd: Command) returns (r: Result<seq<Event>, DomainError>)
      requires cmd.IssueInvoice?
      ensures r == Handle(View(), cmd)
    {
      if created {
        return Err(Conflict);
      }
      if cmd.lines == [] {
        return Err(Validation);
      }
      var total := ComputeTotal(cmd.lines);
      if total.Err? {
        return Err(total.error);
      }
      return Ok([InvoiceIssued(cmd.tenant, cmd.invoice, cmd.salesOrder, cmd.lines, cmd.dueDate, total.value, cmd.occurredAt)]);
    }
  }

  // ---------------------------------------------------------------------------
  // Reachable invoices
  // ---------------------------------------------------------------------------

  function Fold(key: StreamKey, history: seq<Event>): InvoiceState {
    if history == [] then Empty(key.aggregate)
    else Apply(Fold(key, history[..|history| - 1]), history[|history| - 1])
  }

  predicate Targets(cmd: Command, key: StreamKey) {
    cmd.tenant == key.tenant && cmd.invoice == key.aggregate
  }

  ghost predicate AcceptedNext(key: StreamKey, history: seq<Event>, e: Event) {
    exists cmd :: Targets(cmd, key) && Handle(Fold(key, history), cmd) == Ok([e])
  }

  /** Every event was accepted by `handle` on the state its predecessors produce. */
  ghost predicate Accepted(key: StreamKey, history: seq<Event>) {
    history == [] ||
    var n := |history| - 1;
    Accepted(key, history[..n]) && AcceptedNext(key, history[..n], history[n])
  }

  predicate BelongsTo(key: StreamKey, e: Event) {
    e.tenant == key.tenant && e.invoice == key.aggregate
  }

  function PaidBy(e: Event): nat {
    if e.PaymentRegistered? then e.amount else 0
  }

  function Payments(history: seq<Event>): nat {
    if history == [] then 0 else Payments(history[..|history| - 1]) + PaidBy(history[|history| - 1])
  }

  /** What `handle` guarantees about the event it returns. */
  predicate EventFits(key: StreamKey, s: InvoiceState, e: Event) {
    && BelongsTo(key, e)
    && match e
       case InvoiceIssued(_, _, _, _, _, _, _) => !s.created
       case PaymentRegistered(_, _, amount, newTotalPaid, _) =>
         s.created && s.status != Void && 0 < amount && newTotalPaid == s.totalPaid + amount <= s.totalAmount
       case InvoiceVoided(_, _, _, _) => s.created && s.status != Void
  }

  lemma AcceptedEventFits(key: StreamKey, history: seq<Event>, e: Event)
    requires AcceptedNext(key, history, e)
    ensures EventFits(key, Fold(key, history), e)
  {
    var cmd :| Targets(cmd, key) && Handle(Fold(key, history), cmd) == Ok([e]);
  }

  /**
   In every reachable state: paid is the sum of the accepted payments and at most the total; a
   non-void invoice with a positive total is Paid exactly when both are equal; an event after
   the void is impossible; the issue comes first and once.
   */
  lemma {:induction false} ReachableInvoice(key: StreamKey, history: seq<Event>)
    requires Accepted(key, history)
    ensures var s := Fold(key, history);
            && s.totalPaid == Payments(history) <= s.totalAmount
            && (s.status != Void && s.totalAmount > 0 ==> (s.status == Paid <==> s.totalPaid == s.totalAmount))
            && (s.totalPaid < s.totalAmount ==> s.status != Paid)
            && (s.created <==> history != [])
            && s.id == key.aggregate
            && (s.created ==> s.tenant == Some(key.tenant))
            && s.version == |history|
            && (s.status == Void <==> history != [] && history[|history| - 1].InvoiceVoided?)
    ensures forall i | 0 <= i < |history| ::
              && BelongsTo(key, history[i])
              && (history[i].InvoiceIssued? <==> i == 0)
              && (history[i].InvoiceVoided? ==> i == |history| - 1)
    ensures history != [] ==> history[0].InvoiceIssued? && Fold(key, history).totalAmount == history[0].totalAmount
  {
    if history != [] {
      var n := |history| - 1;
      var init := history[..n];
      ReachableInvoice(key, init);
      AcceptedEventFits(key, init, history[n]);
      assert forall i | 0 <= i < n :: history[i] == init[i];
    }
  }

  /** Exactly when a command is accepted, in terms of what has happened to the invoice. */
  lemma AcceptedIff(key: StreamKey, history: seq<Event>, cmd: Command)
    requires Accepted(key, history) && Targets(cmd, key)
    ensures var voided := history != [] && history[|history| - 1].InvoiceVoided?;
            Handle(Fold(key, history), cmd).Ok? <==>
              match cmd
              case IssueInvoice(_, _, _, lines, _, _) =>
                history == [] && lines != [] && (forall i | 0 <= i < |lines| :: Positive(lines[i])) && ResidueTotal(lines) < U64_LIMIT
              case RegisterPayment(_, _, amount, _) =>
                history != [] && !voided && 0 < amount && Payments(history) + amount <= Fold(key, history).totalAmount
              case VoidInvoice(_, _, _, _) => history != [] && !voided
  {
    hide IssueTotal, Fold, Accepted, Positive, ResidueTotal;
    ReachableInvoice(key, history);
    if cmd.IssueInvoice? {
      TotalAcceptedIff(cmd.lines);
    }
  }

  /** Void is final: no command is accepted on a void invoice. */
  lemma {:induction false} VoidIsFinal(key: StreamKey, history: seq<Event>, cmd: Command)
    requires Accepted(key, history) && Fold(key, history).status == Void
    ensures Handle(Fold(key, history), cmd).Err?
  {
    ReachableInvoice(key, history);
  }

  // ---------------------------------------------------------------------------
  // What a command does
  // ---------------------------------------------------------------------------

  ghost predicate AllPositive(lines: seq<Line>) {
    forall i | 0 <= i < |lines| :: Positive(lines[i])
  }

  /** Some positive beginning of the list already sums beyond 64 bits. */
  ghost predicate Overflows(lines: seq<Line>) {
    exists i | 0 <= i <= |lines| :: AllPositive(lines[..i]) && ResidueTotal(lines[..i]) >= U64_LIMIT
  }

  /** A refused list reports the overflow if it comes before the first line that is not positive. */
  lemma {:induction false} TotalRefusal(lines: seq<Line>)
    ensures IssueTotal(lines).Err? ==> IssueTotal(lines).error == if Overflows(lines) then InvariantViolation else Validation
    ensures IssueTotal(lines).Ok? ==> !Overflows(lines)
  {
    hide ExactAmount, LineAmount, Positive;
    if lines != [] {
      var n := |lines| - 1;
      var init := lines[..n];
      TotalRefusal(init);
      TotalAcceptedIff(init);
      TotalAcceptedIff(lines);
      LineAmountNeverOverflows(lines[n]);
      OverflowSplits(lines);
      WholeListOverflows(init);
      assert AllPositive(lines) <==> AllPositive(init) && Positive(lines[n]) by {
        assert lines == init + [lines[n]];
      }
      assert ResidueTotal(lines) == ResidueTotal(init) + Low64(ExactAmount(lines[n]));
    }
  }

  lemma OverflowSplits(lines: seq<Line>)
    requires lines != []
    ensures Overflows(lines) <==> Overflows(lines[..|lines| - 1]) || (AllPositive(lines) && ResidueTotal(lines) >= U64_LIMIT)
  {
    hide AllPositive, ResidueTotal;
    var n := |lines| - 1;
    var init := lines[..n];
    assert forall i | 0 <= i <= n :: init[..i] == lines[..i];
    assert lines[..n + 1] == lines;
    if Overflows(init) {
      var i :| 0 <= i <= n && AllPositive(init[..i]) && ResidueTotal(init[..i]) >= U64_LIMIT;
      assert AllPositive(lines[..i]);
    }
    if Overflows(lines) {
      var i :| 0 <= i <= n + 1 && AllPositive(lines[..i]) && ResidueTotal(lines[..i]) >= U64_LIMIT;
      if i <= n {
        assert AllPositive(init[..i]);
      }
    }
  }

  ghost predicate WasVoided(history: seq<Event>) {
    history != [] && history[|history| - 1].InvoiceVoided?
  }

  /** The total an issued invoice was issued with. */
  function BilledTotal(history: seq<Event>): nat {
    if history != [] && history[0].InvoiceIssued? then history[0].totalAmount else 0
  }

  /** Why a command is refused, in terms of what has happened to the invoice. */
  ghost function Refusal(history: seq<Event>, cmd: Command): Option<DomainError> {
    match cmd
    case IssueInvoice(_, _, _, lines, _, _) =>
      if history != [] then Some(Conflict)
      else if lines == [] then Some(Validation)
      else if Overflows(lines) then Some(InvariantViolation)
      else if !AllPositive(lines) then Some(Validation)
      else None
    case RegisterPayment(_, _, amount, _) =>
      if history == [] then Some(NotFound)
      else if WasVoided(history) || Payments(history) >= BilledTotal(history) then Some(InvariantViolation)
      else if amount == 0 then Some(Validation)
      else if Payments(history) + amount > BilledTotal(history) then Some(InvariantViolation)
      else None
    case VoidInvoice(_, _, _, _) =>
      if history == [] then Some(NotFound) else if WasVoided(history) then Some(Conflict) else None
  }

  /** On every reachable invoice the decision is the one the history calls for. */
  lemma {:induction false} AnswerIs(key: StreamKey, history: seq<Event>, cmd: Command)
    requires Accepted(key, history) && cmd.tenant == key.tenant && cmd.invoice == key.aggregate
    ensures match Refusal(history, cmd)
            case Some(cause) => Handle(Fold(key, history), cmd) == Err(cause)
            case None => Handle(Fold(key, history), cmd).Ok?
  {
    hide IssueTotal, Fold, Accepted, Positive, ResidueTotal, Payments;
    ReachableInvoice(key, history);
    if cmd.IssueInvoice? {
      TotalAcceptedIff(cmd.lines);
      TotalRefusal(cmd.lines);
      WholeListOverflows(cmd.lines);
    }
  }

  lemma WholeListOverflows(lines: seq<Line>)
    ensures AllPositive(lines) && ResidueTotal(lines) >= U64_LIMIT ==> Overflows(lines)
  {
    hide AllPositive, ResidueTotal;
    assert lines[..|lines|] == lines;
  }

  /** What an accepted command makes of the invoice. */
  ghost predicate Done(before: InvoiceState, cmd: Command, e: Event, after: InvoiceState) {
    && e.occurredAt == cmd.occurredAt
    && after.id == cmd.invoice && after.tenant == Some(cmd.tenant)
    && match cmd
       case IssueInvoice(_, _, salesOrder, lines, dueDate, _) =>
         && e.InvoiceIssued? && e.salesOrder == salesOrder
         && after.lines == lines && after.dueDate == Some(dueDate) && after.totalAmount == ResidueTotal(lines)
         && after.totalPaid == 0 && after.status == Open
       case RegisterPayment(_, _, amount, _) =>
         && e.PaymentRegistered? && e.amount == amount
         && after.totalPaid == before.totalPaid + amount
         && after.status == (if after.totalPaid == after.totalAmount then Paid else before.status)
         && after.lines == before.lines && after.dueDate == before.dueDate && after.totalAmount == before.totalAmount
       case VoidInvoice(_, _, reason, _) =>
         && e.InvoiceVoided? && e.reason == reason
         && after == before.(status := Void, version := after.version)
  }

  lemma HandleDoes(s: InvoiceState, cmd: Command)
    requires Handle(s, cmd).Ok? && (s.created ==> s.tenant == Some(cmd.tenant) && s.id == cmd.invoice)
    ensures var events := Handle(s, cmd).value; |events| == 1 && Done(s, cmd, events[0], Apply(s, events[0]))
  {
    hide IssueTotal, Positive, ResidueTotal;
    if cmd.IssueInvoice? {
      TotalAcceptedIff(cmd.lines);
    }
  }

  lemma {:induction false} CommandDoes(key: StreamKey, history: seq<Event>, cmd: Command)
    requires Accepted(key, history) && cmd.tenant == key.tenant && cmd.invoice == key.aggregate
    requires Refusal(history, cmd).None?
    ensures var r := Handle(Fold(key, history), cmd);
            && r.Ok? && |r.value| == 1
            && Accepted(key, history + r.value)
            && Done(Fold(key, history), cmd, r.value[0], Fold(key, history + r.value))
  {
    hide Handle, Apply, Done, Refusal;
    AnswerIs(key, history, cmd);
    ReachableInvoice(key, history);
    HandleDoes(Fold(key, history), cmd);
    AcceptedExtends(key, history, cmd);
  }

  /** A reachable invoice refuses payments and voids of another tenant or invoice. */
  lemma {:induction false} ForeignIsRefused(key: StreamKey, history: seq<Event>, cmd: Command)
    requires Accepted(key, history) && history != [] && !cmd.IssueInvoice?
    requires cmd.tenant != key.tenant || cmd.invoice != key.aggregate
    ensures Handle(Fold(key, history), cmd) == Err(InvariantViolation)
  {
    hide Fold, Accepted;
    ReachableInvoice(key, history);
  }

  lemma OneEvent(state: InvoiceState, cmd: Command)
    requires Handle(state, cmd).Ok?
    ensures |Handle(state, cmd).value| == 1
  {
    hide IssueTotal;
  }

  /** What `handle` accepts extends the accepted history by one event. */
  lemma {:induction false} AcceptedExtends(key: StreamKey, history: seq<Event>, cmd: Command)
    requires Accepted(key, history) && Targets(cmd, key) && Handle(Fold(key, history), cmd).Ok?
    ensures var events := Handle(Fold(key, history), cmd).value;
            && |events| == 1
            && Accepted(key, history + events)
            && Fold(key, history + events) == Apply(Fold(key, history), events[0])
  {
    hide Handle, Apply;
    OneEvent(Fold(key, history), cmd);
    var events := Handle(Fold(key, history), cmd).value;
    assert events == [events[0]];
    assert AcceptedNext(key, history, events[0]);
    assert (history + events)[..|history|] == history;
  }
}
