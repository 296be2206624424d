/**
 The three per-invoice projections: invoices (crates/infra/src/projections/invoices.rs), receivables
 aging (crates/infra/src/projections/invoicing.rs) and open invoices
 (crates/infra/src/projections/open_invoices.rs).
 */
module InvoiceViews {
  import opened Core
  import opened EventStore
  import opened CursorProjection
  import opened ErpPayloads
  import opened Invoicing

  // `salesOrder` is `None` where the code makes up a fresh identifier for an unknown invoice.
  datatype InvoiceRow = InvoiceRow(
    invoice: AggregateId, salesOrder: Option<AggregateId>, dueDate: Option<Time>, status: Status, totalAmount: U64, totalPaid: U64, lines: seq<Line>)

  datatype AgingRow = AgingRow(
    invoice: AggregateId, totalAmount: U64, outstanding: U64, dueDate: Option<Time>, status: Status)

  datatype OpenRow = OpenRow(
    invoice: AggregateId, salesOrder: AggregateId, dueDate: Time, totalAmount: U64, amountPaid: U64, outstanding: U64, lines: seq<Line>)

  function Check(e: Envelope): Option<ProjectionError> {
    if !e.payload.Bill? then Some(DeserializeError)
    else if e.payload.bill.tenant != e.key.tenant then Some(TenantIsolationError)
    else if e.payload.bill.invoice != e.key.aggregate then Some(TenantIsolationError)
    else None
  }

  /** Takes `new_total_paid` from the event. */
  function UpdateInvoice(row: Option<InvoiceRow>, ev: Event): InvoiceRow {
    var known := if row.Some? then row.value else InvoiceRow(ev.invoice, None, None, Open, 0, 0, []);
    match ev
    case InvoiceIssued(_, invoice, salesOrder, lines, dueDate, totalAmount, _) =>
      InvoiceRow(invoice, Some(salesOrder), Some(dueDate), Open, totalAmount, 0, lines)
    case PaymentRegistered(_, _, _, newTotalPaid, _) =>
      known.(totalPaid := newTotalPaid, status := if newTotalPaid >= known.totalAmount then Paid else known.status)
    case InvoiceVoided(_, _, _, _) => known.(status := Void)
  }

  /** Subtracts `amount`, capped by what is outstanding. */
  function UpdateAging(row: Option<AgingRow>, ev: Event): AgingRow {
    var known := if row.Some? then row.value else AgingRow(ev.invoice, 0, 0, None, Open);
    match ev
    case InvoiceIssued(_, invoice, _, _, dueDate, totalAmount, _) =>
      AgingRow(invoice, totalAmount, totalAmount, Some(dueDate), Open)
    case PaymentRegistered(_, _, amount, _, _) =>
      var capped := if amount < known.outstanding then amount else known.outstanding;
      var left := SaturatingSub(known.outstanding, capped);
      known.(outstanding := left, status := if left == 0 then Paid else known.status)
    case InvoiceVoided(_, _, _, _) => known.(status := Void)
  }

  /** A payment or void of an unknown invoice writes nothing. */
  function UpdateOpen(row: Option<OpenRow>, ev: Event): Option<OpenRow> {
    match ev
    case InvoiceIssued(_, invoice, salesOrder, lines, dueDate, totalAmount, _) =>
      Some(OpenRow(invoice, salesOrder, dueDate, totalAmount, 0, totalAmount, lines))
    case PaymentRegistered(_, _, _, newTotalPaid, _) =>
      if row.None? then None
      else Some(row.value.(amountPaid := newTotalPaid, outstanding := SaturatingSub(row.value.totalAmount, newTotalPaid)))
    case InvoiceVoided(_, _, _, _) =>
      if row.None? then None else Some(row.value.(outstanding := 0))
  }

  function StepInvoice(row: Option<InvoiceRow>, e: Envelope): Option<InvoiceRow> {
    if e.payload.Bill? then Some(UpdateInvoice(row, e.payload.bill)) else None
  }

  function StepAging(row: Option<AgingRow>, e: Envelope): Option<AgingRow> {
    if e.payload.Bill? then Some(UpdateAging(row, e.payload.bill)) else None
  }

  function StepOpen(row: Option<OpenRow>, e: Envelope): Option<OpenRow> {
    if e.payload.Bill? then UpdateOpen(row, e.payload.bill) else None
  }

  function Invoices(): RowProjection<Payload, InvoiceRow> {
    RowProjection(InvoiceType, Check, StepInvoice)
  }

  function Aging(): RowProjection<Payload, AgingRow> {
    RowProjection(InvoiceType, Check, StepAging)
  }

  function OpenInvoices(): RowProjection<Payload, OpenRow> {
    RowProjection(InvoiceType, Check, StepOpen)
  }

  lemma SameKinds()
    ensures Invoices().kind == Aging().kind == OpenInvoices().kind == InvoiceType
  {
  }

  lemma HealthyIsClean(streams: Streams<Payload>)
    requires Healthy(streams)
    ensures Clean(Invoices(), streams) && Clean(Aging(), streams) && Clean(OpenInvoices(), streams)
  {
    hide Accepted, Fold;
    forall e: Envelope | InStore(streams, e) && e.kind == InvoiceType
      ensures Check(e).None?
    {
      var h := StreamOf(streams, e.key);
      assert HealthyStream(e.key, h);
      ReachableInvoice(e.key, Bills(h));
      assert BelongsTo(e.key, Bills(h)[e.seqNo - 1]);
    }
  }

  lemma {:induction false} PrefixAccepted(key: StreamKey, history: seq<Event>, c: nat)
    requires Accepted(key, history) && c <= |history|
    ensures Accepted(key, history[..c])
    ensures c < |history| ==> AcceptedNext(key, history[..c], history[c])
  {
    hide AcceptedNext;
    if c == |history| {
      assert history[..c] == history;
    } else {
      var n := |history| - 1;
      assert history[..n][..c] == history[..c];
      PrefixAccepted(key, history[..n], c);
    }
  }

  // What each view shows after a typed history.

  function ShownInvoice(history: seq<Event>): Option<InvoiceRow> {
    if history == [] then None
    else Some(UpdateInvoice(ShownInvoice(history[..|history| - 1]), history[|history| - 1]))
  }

  function ShownAging(history: seq<Event>): Option<AgingRow> {
    if history == [] then None
    else Some(UpdateAging(ShownAging(history[..|history| - 1]), history[|history| - 1]))
  }

  function ShownOpen(history: seq<Event>): Option<OpenRow> {
    if history == [] then None
    else
      var n := |history| - 1;
      var row := UpdateOpen(ShownOpen(history[..n]), history[n]);
      if row.Some? then row else ShownOpen(history[..n])
  }

  lemma {:induction false} FoldsAreShown(h: seq<Envelope>)
    requires AllOf(h, InvoiceType)
    ensures FoldRow(Invoices(), h) == ShownInvoice(Bills(h))
    ensures FoldRow(Aging(), h) == ShownAging(Bills(h))
    ensures FoldRow(OpenInvoices(), h) == ShownOpen(Bills(h))
  {
    hide UpdateInvoice, UpdateAging, UpdateOpen;
    if h != [] {
      var n := |h| - 1;
      FoldsAreShown(h[..n]);
      assert Bills(h)[..n] == Bills(h[..n]);
      assert KindOf(h[n].payload) == InvoiceType;
    }
  }

  /** The sales order an invoice was issued for. */
  function OrderOf(history: seq<Event>): Option<AggregateId> {
    if history != [] && history[0].InvoiceIssued? then Some(history[0].salesOrder) else None
  }

  /** One invoice seen by the aggregate and by the three views. */
  predicate Agree(s: InvoiceState, order: Option<AggregateId>, invoice: InvoiceRow, aging: AgingRow, open: OpenRow) {
    && invoice.invoice == aging.invoice == open.invoice == s.id
    && invoice.salesOrder == order == Some(open.salesOrder)
    && invoice.totalAmount == aging.totalAmount == open.totalAmount == s.totalAmount
    && invoice.totalPaid == open.amountPaid == s.totalPaid
    && SaturatingSub(invoice.totalAmount, invoice.totalPaid) == aging.outstanding == s.Outstanding()
    && invoice.status == aging.status == s.status
    && invoice.lines == open.lines == s.lines
    && invoice.dueDate == aging.dueDate == s.dueDate == Some(open.dueDate)
    && open.outstanding == if s.status == Void then 0 else s.Outstanding()
  }

  /**
   On every accepted history the aggregate and the three views agree on identity, amounts, status and
   lines, although the aging view subtracts amounts and the others copy the running total; only the
   open-invoice view drops the outstanding amount of a void invoice.
   */
  lemma {:induction false} ViewsAgree(key: StreamKey, history: seq<Event>)
    requires Accepted(key, history)
    ensures history == [] ==> ShownInvoice(history).None? && ShownAging(history).None? && ShownOpen(history).None?
    ensures history != [] ==>
              && ShownInvoice(history).Some? && ShownAging(history).Some? && ShownOpen(history).Some?
              && Agree(Fold(key, history), OrderOf(history), ShownInvoice(history).value, ShownAging(history).value, ShownOpen(history).value)
  {
    hide AcceptedNext;
    if history != [] {
      var n := |history| - 1;
      var init := history[..n];
      ViewsAgree(key, init);
      ReachableInvoice(key, init);
      AcceptedEventFits(key, init, history[n]);
    }
  }

  /** The agreement holds live, for every delivery sequence in which event 1 of the invoice comes first. */
  lemma LiveViewsAgree(streams: Streams<Payload>, envelopes: seq<Envelope>, key: StreamKey)
    requires Healthy(streams) && Faithful(streams, envelopes)
    requires FirstSeen(Invoices(), envelopes, key) <= 1
    ensures var invoices := Deliver(Invoices(), Blank(), envelopes);
            var aging := Deliver(Aging(), Blank(), envelopes);
            var open := Deliver(OpenInvoices(), Blank(), envelopes);
            var c := Cursor(invoices, key);
            var h := History(Invoices(), streams, key);
            && Cursor(aging, key) == Cursor(open, key) == c <= |h|
            && AllOf(h[..c], InvoiceType)
            && (c > 0 ==>
                  && RowOf(invoices, key).Some? && RowOf(aging, key).Some? && RowOf(open, key).Some?
                  && Agree(Fold(key, Bills(h[..c])), OrderOf(Bills(h[..c])), RowOf(invoices, key).value, RowOf(aging, key).value, RowOf(open, key).value))
  {
    hide Clean, Deliver, FirstSeen, Agree, Accepted, FoldRow, Fold;
    HealthyIsClean(streams);
    SameCursors(Invoices(), Aging(), streams, envelopes, key);
    SameCursors(Invoices(), OpenInvoices(), streams, envelopes, key);
    RowIsPrefixFold(Invoices(), streams, envelopes, key);
    RowIsPrefixFold(Aging(), streams, envelopes, key);
    RowIsPrefixFold(OpenInvoices(), streams, envelopes, key);
    var c := Cursor(Deliver(Invoices(), Blank(), envelopes), key);
    var h := History(Invoices(), streams, key);
    assert HealthyStream(key, StreamOf(streams, key));
    if c > 0 {
      PrefixViews(key, h, c);
    }
  }

  lemma PrefixViews(key: StreamKey, h: seq<Envelope>, c: nat)
    requires AllOf(h, InvoiceType) && Accepted(key, Bills(h)) && 0 < c <= |h|
    ensures AllOf(h[..c], InvoiceType)
    ensures FoldRow(Invoices(), h[..c]).Some? && FoldRow(Aging(), h[..c]).Some? && FoldRow(OpenInvoices(), h[..c]).Some?
    ensures Agree(Fold(key, Bills(h[..c])), OrderOf(Bills(h[..c])), FoldRow(Invoices(), h[..c]).value, FoldRow(Aging(), h[..c]).value, FoldRow(OpenInvoices(), h[..c]).value)
  {
    hide Agree, Accepted, FoldRow, Fold, ShownInvoice, ShownAging, ShownOpen;
    PrefixAccepted(key, Bills(h), c);
    assert Bills(h[..c]) == Bills(h)[..c];
    FoldsAreShown(h[..c]);
    ViewsAgree(key, Bills(h)[..c]);
  }

  // ---------------------------------------------------------------------------
  // What is refused, and what is shown of an unknown invoice
  // ---------------------------------------------------------------------------

  /** Whether an invoice envelope is new to a cursor: the first one seen, or the next. */
  predicate IsNews(cursor: nat, e: Envelope) {
    e.seqNo > 0 && (cursor == 0 || e.seqNo == cursor + 1)
  }

  /** Each view takes a new envelope exactly when it carries an invoice event of its own tenant and stream, and says why not. */
  lemma AppliedIff(invoices: ReadModel<InvoiceRow>, aging: ReadModel<AgingRow>, open: ReadModel<OpenRow>, e: Envelope)
    requires e.kind == InvoiceType
    requires IsNews(Cursor(invoices, e.key), e) && IsNews(Cursor(aging, e.key), e) && IsNews(Cursor(open, e.key), e)
    ensures var own := e.payload.Bill? && e.payload.bill.tenant == e.key.tenant && e.payload.bill.invoice == e.key.aggregate;
            var cause := if e.payload.Bill? then TenantIsolationError else DeserializeError;
            && (own ==> ApplyTo(Invoices(), invoices, e).Ok? && ApplyTo(Aging(), aging, e).Ok? && ApplyTo(OpenInvoices(), open, e).Ok?)
            && (!own ==> ApplyTo(Invoices(), invoices, e) == Err(cause) && ApplyTo(Aging(), aging, e) == Err(cause)
                         && ApplyTo(OpenInvoices(), open, e) == Err(cause))
  {
  }

  /** A stretch that misses the issue: nothing is billed, a payment settles it, and the open view stays empty. */
  lemma {:induction false} HeadlessViews(history: seq<Event>)
    requires history != [] && forall i | 0 <= i < |history| :: !history[i].InvoiceIssued? && history[i].invoice == history[0].invoice
    ensures var status := if history[|history| - 1].InvoiceVoided? then Void else Paid;
            && ShownAging(history) == Some(AgingRow(history[0].invoice, 0, 0, None, status))
            && ShownOpen(history).None?
            && ShownInvoice(history).Some?
            && ShownInvoice(history).value == InvoiceRow(history[0].invoice, None, None, status, 0, LastPaid(history), [])
  {
    var n := |history| - 1;
    if n > 0 {
      HeadlessViews(history[..n]);
    } else {
      assert history[..0] == [];
    }
  }

  /** The running total the last payment reports. */
  function LastPaid(history: seq<Event>): U64 {
    if history == [] then 0
    else
      var e := history[|history| - 1];
      if e.PaymentRegistered? then e.newTotalPaid else LastPaid(history[..|history| - 1])
  }
}
