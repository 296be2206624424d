/**
 The open-invoice summary against the customer balances, per tenant
 (crates/infra/src/projections/open_invoices.rs, crates/infra/src/projections/customer_balances.rs).
 */
module CustomerTotals {
  import opened Core
  import opened EventStore
  import opened CursorProjection
  import opened ErpPayloads
  import opened Invoicing
  import opened Sums
  import opened CustomerBalances
  import InvoiceViews

  function TenantOutstanding(tenant: TenantId): (PartyKey, CustomerBalance) -> int {
    (k: PartyKey, b: CustomerBalance) => if k.tenant == tenant then b.outstanding else 0
  }

  ghost function TenantOwes(streams: Streams<Payload>, cursors: map<StreamKey, nat>, tenant: TenantId): (StreamKey, Mapping) -> int {
    (k: StreamKey, mp: Mapping) => if k.tenant == tenant then Owes(StateOf(streams, cursors, k)) else 0
  }

  function OpenAmount(tenant: TenantId): (StreamKey, InvoiceViews.OpenRow) -> int {
    (k: StreamKey, row: InvoiceViews.OpenRow) => if k.tenant == tenant then row.outstanding else 0
  }

  ghost function CustomerTotal(m: Customers, tenant: TenantId): int {
    MapSum(m.balances, TenantOutstanding(tenant))
  }

  ghost function OwedTotal(streams: Streams<Payload>, m: Customers, tenant: TenantId): int {
    MapSum(m.mappings, TenantOwes(streams, m.cursors, tenant))
  }

  /** The total of `get_summary`: a sum of 64-bit amounts, wrapping as compiled without overflow checks. */
  ghost function SummaryTotal(open: ReadModel<InvoiceViews.OpenRow>, tenant: TenantId): (r: int)
    ensures 0 <= r < U64_LIMIT
  {
    MapSum(open.rows, OpenAmount(tenant)) % U64_LIMIT
  }

  // ---------------------------------------------------------------------------
  // Customers against invoices
  // ---------------------------------------------------------------------------

  lemma OwedMoves(streams: Streams<Payload>, m: Customers, m': Customers, key: StreamKey, tenant: TenantId)
    requires key in m'.mappings && (key !in m.mappings ==> Owes(StateOf(streams, m.cursors, key)) == 0)
    requires forall k | k != key ::
               (k in m'.mappings <==> k in m.mappings) && CursorOf(m'.cursors, k) == CursorOf(m.cursors, k)
    ensures OwedTotal(streams, m', tenant) == OwedTotal(streams, m, tenant) +
              if key.tenant == tenant then Owes(StateOf(streams, m'.cursors, key)) - Owes(StateOf(streams, m.cursors, key)) else 0
  {
    hide MapSum, StateOf;
    var w, w' := TenantOwes(streams, m.cursors, tenant), TenantOwes(streams, m'.cursors, tenant);
    var rest, rest' := m.mappings - {key}, m'.mappings - {key};
    MapSumSplit(m'.mappings, key, w');
    forall k | k in rest
      ensures w'(k, rest'[k]) == w(k, rest[k])
    {
      OthersKeepState(streams, m.cursors, m'.cursors, k);
    }
    MapSumEqual(rest', rest, w', w);
    if key in m.mappings {
      MapSumSplit(m.mappings, key, w);
    } else {
      assert rest == m.mappings;
    }
  }

  /** The balances of other parties stay, so a tenant's total moves by what its own party's amount moves. */
  lemma CustomersMove(m: Customers, m': Customers, own: PartyKey, tenant: TenantId)
    requires forall party | party != own ::
               (party in m'.balances <==> party in m.balances) && (party in m.balances ==> m'.balances[party] == m.balances[party])
    requires own in m.balances ==> own in m'.balances
    ensures CustomerTotal(m', tenant) ==
              CustomerTotal(m, tenant) + if own.tenant == tenant then OutstandingOf(m', own) - OutstandingOf(m, own) else 0
  {
    hide MapSum;
    var w := TenantOutstanding(tenant);
    if own in m'.balances {
      assert m'.balances == m.balances[own := m'.balances[own]];
      MapSumPut(m.balances, own, m'.balances[own], w);
    } else {
      assert m'.balances == m.balances;
    }
  }

  lemma BalanceStays(m: Customers, key: StreamKey, ev: Event)
    requires ev.InvoiceIssued? || key in m.mappings
    ensures PartyOf(m, key, ev) in m.balances ==> PartyOf(m, key, ev) in Update(m, key, ev).balances
  {
  }

  /** An action between two exact states moves both totals alike. */
  lemma ActKeepsTotals(streams: Streams<Payload>, m: Customers, a: Action, tenant: TenantId)
    requires Healthy(streams) && Tracking(streams, m) && Orderly(streams, m, a)
    requires AmountsExact(streams, m) && AmountsExact(streams, Act(m, a))
    requires CustomerTotal(m, tenant) == OwedTotal(streams, m, tenant)
    ensures CustomerTotal(Act(m, a), tenant) == OwedTotal(streams, Act(m, a), tenant)
  {
    hide Healthy, StateOf, History, PartySum, CustomerTotal, OwedTotal, Update, Matches, Apply;
    var m' := Act(m, a);
    match a
    case Register(key, customer) =>
      assert Tracks(streams, m, key);
      UnrecordedOwesNothing(streams, m, key);
      OwedMoves(streams, m, m', key, tenant);
      CustomersMove(m, m', PartyKey(key.tenant, customer), tenant);
    case Receive(e) =>
      hide Act;
      if TakesEffect(Gate(), m.cursors, e) {
        assert Tracks(streams, m, e.key);
        EffectiveIsReady(streams, m, e);
        EffectiveUpdates(streams, m, e);
        var s, ev := StateOf(streams, m.cursors, e.key), e.payload.bill;
        UpdateKeepsRecord(m, e.key, s, ev);
        UnrecordedOwesNothing(streams, m, e.key);
        OwedMoves(streams, m, m', e.key, tenant);
        var own := PartyOf(m, e.key, ev);
        BalanceStays(m, e.key, ev);
        CustomersMove(m, m', own, tenant);
        ReceiveMovesSum(streams, m, e, own, Owes);
        assert OutstandingOf(m, own) == Owed(streams, m, own) && OutstandingOf(m', own) == Owed(streams, m', own);
      } else {
        IneffectiveChangesNothing(m, e);
      }
  }

  lemma StartTotals(streams: Streams<Payload>, tenant: TenantId)
    ensures CustomerTotal(Run([]), tenant) == OwedTotal(streams, Run([]), tenant)
  {
  }

  lemma {:induction false} RunKeepsTotals(streams: Streams<Payload>, actions: seq<Action>, tenant: TenantId)
    requires Healthy(streams) && OrderlyRun(streams, actions) && AlwaysExact(streams, actions)
    ensures CustomerTotal(Run(actions), tenant) == OwedTotal(streams, Run(actions), tenant)
  {
    hide Healthy, Act, Run, Orderly, OrderlyRun, Tracking, AmountsExact, CustomerTotal, OwedTotal, AlwaysExact;
    if actions == [] {
      StartTotals(streams, tenant);
    } else {
      var n := |actions| - 1;
      var init := actions[..n];
      OrderlyInit(streams, actions);
      AlwaysSplits(streams, actions);
      RunKeepsTotals(streams, init, tenant);
      RunTracks(streams, init);
      RunUnfolds(actions);
      ActKeepsTotals(streams, Run(init), actions[n], tenant);
    }
  }

  // ---------------------------------------------------------------------------
  // The same deliveries, seen by the open-invoice view
  // ---------------------------------------------------------------------------

  function Delivered(a: Action): seq<Envelope> {
    if a.Receive? then [a.envelope] else []
  }

  /** The envelopes of a run, in order. */
  function Received(actions: seq<Action>): seq<Envelope> {
    if actions == [] then []
    else Received(actions[..|actions| - 1]) + Delivered(actions[|actions| - 1])
  }

  lemma ActFollowsGate(m: Customers, before: seq<Envelope>, e: Envelope)
    requires m.Gate() == Deliver(Gate(), Blank(), before)
    ensures Act(m, Receive(e)).Gate() == Deliver(Gate(), Blank(), before + [e])
  {
    hide Update;
    assert (before + [e])[..|before|] == before;
  }

  lemma FirstSeenSnoc(before: seq<Envelope>, e: Envelope, key: StreamKey)
    requires FirstSeen(Gate(), before, key) <= 1
    requires FirstSeen(Gate(), before, key) == 0 && e.key == key && e.kind == InvoiceType ==> e.seqNo == 1
    ensures FirstSeen(Gate(), before + [e], key) <= 1
  {
    assert (before + [e])[..|before|] == before;
  }

  lemma ActIsDelivery(streams: Streams<Payload>, m: Customers, a: Action, before: seq<Envelope>, key: StreamKey)
    requires Faithful(streams, before) && Orderly(streams, m, a)
    requires m.Gate() == Deliver(Gate(), Blank(), before) && FirstSeen(Gate(), before, key) <= 1
    ensures Faithful(streams, before + Delivered(a))
    ensures Act(m, a).Gate() == Deliver(Gate(), Blank(), before + Delivered(a))
    ensures FirstSeen(Gate(), before + Delivered(a), key) <= 1
  {
    hide Deliver, FirstSeen, Gate, ApplyBill;
    match a
    case Receive(e) =>
      ActFollowsGate(m, before, e);
      if FirstSeen(Gate(), before, key) == 0 {
        UnseenIsUntouched(Gate(), streams, Blank(), before, key);
        assert CursorOf(m.cursors, key) == Cursor(m.Gate(), key) == 0;
      }
      FirstSeenSnoc(before, e, key);
    case Register(_, _) =>
      assert before + Delivered(a) == before;
  }

  lemma {:induction false} RunIsDelivery(streams: Streams<Payload>, actions: seq<Action>, key: StreamKey)
    requires Numbered(streams) && OrderlyRun(streams, actions)
    ensures Faithful(streams, Received(actions))
    ensures Run(actions).Gate() == Deliver(Gate(), Blank(), Received(actions))
    ensures FirstSeen(Gate(), Received(actions), key) <= 1
  {
    hide Deliver, FirstSeen, Gate, Act, Orderly, OrderlyRun, Run, InStore;
    if actions != [] {
      hide Faithful;
      var n := |actions| - 1;
      OrderlyInit(streams, actions);
      RunIsDelivery(streams, actions[..n], key);
      RunUnfolds(actions);
      ActIsDelivery(streams, Run(actions[..n]), actions[n], Received(actions[..n]), key);
    } else {
      StartOfRun(key);
    }
  }

  lemma StartOfRun(key: StreamKey)
    ensures Run([]).Gate() == Deliver(Gate(), Blank(), [])
    ensures FirstSeen(Gate(), [], key) == 0
  {
  }

  lemma HealthyIsNumbered(streams: Streams<Payload>)
    requires Healthy(streams)
    ensures Numbered(streams)
  {
  }

  lemma HealthyIsClean(streams: Streams<Payload>)
    requires Healthy(streams)
    ensures Clean(Gate(), streams)
  {
    hide Healthy;
    InvoiceViews.HealthyIsClean(streams);
    forall e: Envelope | InStore(streams, e) && e.kind == InvoiceType
      ensures Check(e).None?
    {
      assert InvoiceViews.Invoices().check(e).None?;
    }
  }

  lemma SameHistory(streams: Streams<Payload>, key: StreamKey)
    ensures History(Gate(), streams, key) == History(InvoiceViews.Invoices(), streams, key)
  {
  }

  /** The open-invoice row of an invoice shows what the aggregate owes. */
  lemma RowShowsOwed(streams: Streams<Payload>, actions: seq<Action>, key: StreamKey)
    requires Healthy(streams) && OrderlyRun(streams, actions) && Tracks(streams, Run(actions), key)
    ensures var m := Run(actions);
            var open := Deliver(InvoiceViews.OpenInvoices(), Blank(), Received(actions));
            && (key in open.rows ==> key in m.mappings && open.rows[key].outstanding == Owes(StateOf(streams, m.cursors, key)))
            && (key !in open.rows ==> Owes(StateOf(streams, m.cursors, key)) == 0)
  {
    hide Healthy, Run, Deliver, Received, FirstSeen, FoldRow, Fold, Clean, OrderlyRun, Numbered, InStore,
         InvoiceViews.OpenInvoices, InvoiceViews.Invoices, InvoiceViews.Aging;
    var received := Received(actions);
    var m := Run(actions);
    HealthyIsNumbered(streams);
    RunIsDelivery(streams, actions, key);
    HealthyIsClean(streams);
    InvoiceViews.HealthyIsClean(streams);
    InvoiceViews.SameKinds();
    SameCursors(Gate(), InvoiceViews.Invoices(), streams, received, key);
    SameCursors(Gate(), InvoiceViews.OpenInvoices(), streams, received, key);
    InvoiceViews.LiveViewsAgree(streams, received, key);
    var c := CursorOf(m.cursors, key);
    assert Cursor(m.Gate(), key) == c;
    if c == 0 {
      DeliveredStretch(InvoiceViews.OpenInvoices(), streams, received, key);
      UnappliedIsEmpty(streams, m.cursors, key);
    } else {
      SameHistory(streams, key);
    }
  }

  lemma OpenRowsAreOwed(streams: Streams<Payload>, actions: seq<Action>, tenant: TenantId)
    requires Healthy(streams) && OrderlyRun(streams, actions)
    ensures var open := Deliver(InvoiceViews.OpenInvoices(), Blank(), Received(actions));
            MapSum(open.rows, OpenAmount(tenant)) == OwedTotal(streams, Run(actions), tenant)
  {
    hide Healthy, Run, Deliver, Received, Tracks, OrderlyRun, StateOf, MapSum;
    var m := Run(actions);
    var open := Deliver(InvoiceViews.OpenInvoices(), Blank(), Received(actions));
    RunTracks(streams, actions);
    var w, u := OpenAmount(tenant), TenantOwes(streams, m.cursors, tenant);
    forall k
      ensures k in open.rows ==> k in m.mappings && w(k, open.rows[k]) == u(k, m.mappings[k])
      ensures k in m.mappings && k !in open.rows ==> u(k, m.mappings[k]) == 0
    {
      assert Tracks(streams, m, k);
      RowShowsOwed(streams, actions, k);
    }
    MapSumPart(open.rows, m.mappings, w, u);
  }

  /**
   Per tenant, voids included: for the same deliveries the 64-bit total of the open-invoice summary is
   the sum of the customers' outstanding amounts exactly when that sum fits 64 bits.
   */
  lemma OpenTotalIsCustomerTotal(streams: Streams<Payload>, actions: seq<Action>, tenant: TenantId)
    requires Healthy(streams) && OrderlyRun(streams, actions) && AlwaysExact(streams, actions)
    ensures var open := Deliver(InvoiceViews.OpenInvoices(), Blank(), Received(actions));
            && MapSum(open.rows, OpenAmount(tenant)) == CustomerTotal(Run(actions), tenant)
            && (SummaryTotal(open, tenant) == CustomerTotal(Run(actions), tenant) <==> CustomerTotal(Run(actions), tenant) < U64_LIMIT)
  {
    hide Healthy, OrderlyRun, AlwaysExact, Run, Deliver, Received, CustomerTotal, OwedTotal, MapSum;
    OpenRowsAreOwed(streams, actions, tenant);
    RunKeepsTotals(streams, actions, tenant);
    TotalIsNonNegative(Run(actions), tenant);
  }

  lemma TotalIsNonNegative(m: Customers, tenant: TenantId)
    ensures CustomerTotal(m, tenant) >= 0
  {
    hide MapSum;
    var w := TenantOutstanding(tenant);
    forall k | k in m.balances
      ensures w(k, m.balances[k]) >= 0
    {
      var b: CustomerBalance := m.balances[k];
      assert b.outstanding >= 0;
    }
    MapSumBounds(m.balances, w);
  }
}
