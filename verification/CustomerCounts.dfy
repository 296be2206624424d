/** The count of open invoices in the customer balances (crates/infra/src/projections/customer_balances.rs). */
module CustomerCounts {
  import opened Core
  import opened EventStore
  import opened CursorProjection
  import opened ErpPayloads
  import opened Invoicing
  import opened Sums
  import opened CustomerBalances

  function CountsOpen(s: InvoiceState): int {
    if s.created && s.status == Open then 1 else 0
  }

  function CountOf(m: Customers, party: PartyKey): nat {
    if party in m.balances then m.balances[party].openCount else 0
  }

  /** How many of the invoice aggregates recorded under a party are open. */
  ghost function OpenInvoices(streams: Streams<Payload>, m: Customers, party: PartyKey): int {
    PartySum(streams, m, party, CountsOpen)
  }

  ghost predicate CountExact(streams: Streams<Payload>, m: Customers) {
    forall party :: CountOf(m, party) == OpenInvoices(streams, m, party)
  }

  ghost predicate CountFits(streams: Streams<Payload>, m: Customers) {
    forall party :: OpenInvoices(streams, m, party) < U32_LIMIT
  }

  /**
   The action keeps exact counts exact: a registration does not move an open invoice to another
   customer, a payment settles the invoice by its record exactly when it settles it, and a void does
   not hit a paid invoice of a customer that still has an open one.
   */
  ghost predicate CountSafe(streams: Streams<Payload>, m: Customers, a: Action) {
    match a
    case Register(key, customer) =>
      key in m.mappings && m.mappings[key].customer != customer ==> CountsOpen(StateOf(streams, m.cursors, key)) == 0
    case Receive(e) =>
      TakesEffect(Gate(), m.cursors, e) && e.key in m.mappings ==>
        var s, mapping := StateOf(streams, m.cursors, e.key), m.mappings[e.key];
        && (e.payload.bill.PaymentRegistered? ==>
              (e.payload.bill.newTotalPaid >= mapping.totalAmount <==> e.payload.bill.newTotalPaid >= s.totalAmount))
        && (e.payload.bill.InvoiceVoided? && s.status == Paid ==>
              OpenInvoices(streams, m, PartyKey(e.key.tenant, mapping.customer)) == 0)
  }

  /** The count of the party concerned stays exact precisely when the action is safe and the count fits 32 bits. */
  lemma UpdateKeepsCount(m: Customers, key: StreamKey, s: InvoiceState, ev: Event, open: int)
    requires Ready(m, key, s, ev)
    requires var own := PartyOf(m, key, ev); CountOf(m, own) == open && CountsOpen(s) <= open
    ensures var own, after := PartyOf(m, key, ev), open + CountsOpen(Apply(s, ev)) - CountsOpen(s);
            CountOf(Update(m, key, ev), own) == after <==>
              && after < U32_LIMIT
              && (ev.PaymentRegistered? ==> (ev.newTotalPaid >= m.mappings[key].totalAmount <==> ev.newTotalPaid >= s.totalAmount))
              && (ev.InvoiceVoided? && s.status == Paid ==> open == 0)
  {
  }

  lemma OwnCount(streams: Streams<Payload>, m: Customers, key: StreamKey, own: PartyKey, s: InvoiceState, ev: Event)
    requires Ready(m, key, s, ev) && s == StateOf(streams, m.cursors, key) && own == PartyOf(m, key, ev)
    ensures 0 <= CountsOpen(s) <= OpenInvoices(streams, m, own)
  {
    hide StateOf, PartySum, Matches;
    SumCovers(streams, m, key, own, CountsOpen);
  }

  lemma ReceiveKeepsCount(streams: Streams<Payload>, m: Customers, e: Envelope)
    requires Healthy(streams) && Tracking(streams, m) && Orderly(streams, m, Receive(e)) && CountExact(streams, m)
    requires TakesEffect(Gate(), m.cursors, e)
    ensures var m' := Act(m, Receive(e)); CountExact(streams, m') <==> CountFits(streams, m') && CountSafe(streams, m, Receive(e))
  {
    hide Healthy, StateOf, History, Update, PartySum, Act, Apply, Matches;
    var m', ev, s := Act(m, Receive(e)), e.payload.bill, StateOf(streams, m.cursors, e.key);
    assert Tracks(streams, m, e.key);
    EffectiveUpdates(streams, m, e);
    EffectiveIsReady(streams, m, e);
    var own := PartyOf(m, e.key, ev);
    forall party
      ensures OpenInvoices(streams, m', party) ==
                OpenInvoices(streams, m, party) + if party == own then CountsOpen(Apply(s, ev)) - CountsOpen(s) else 0
    {
      ReceiveMovesSum(streams, m, e, party, CountsOpen);
    }
    OwnCount(streams, m, e.key, own, s, ev);
    assert CountOf(m, own) == OpenInvoices(streams, m, own);
    UpdateKeepsCount(m, e.key, s, ev, OpenInvoices(streams, m, own));
    UpdateKeepsRecord(m, e.key, s, ev);
    forall party | party != own
      ensures CountOf(m', party) == OpenInvoices(streams, m', party) < U32_LIMIT
    {
      assert CountOf(m, party) == OpenInvoices(streams, m, party);
    }
    assert CountOf(m', own) == CountOf(Update(m, e.key, ev), own);
    assert ev.InvoiceIssued? || own == PartyKey(e.key.tenant, m.mappings[e.key].customer);
  }

  lemma RegisterKeepsCount(streams: Streams<Payload>, m: Customers, key: StreamKey, customer: AggregateId)
    requires Tracking(streams, m) && CountExact(streams, m)
    ensures var m' := Registered(m, key, customer);
            CountExact(streams, m') <==> CountFits(streams, m') && CountSafe(streams, m, Register(key, customer))
  {
    hide StateOf, PartySum, History, Tracks;
    var m', v := Registered(m, key, customer), CountsOpen(StateOf(streams, m.cursors, key));
    assert Tracks(streams, m, key);
    forall party
      ensures OpenInvoices(streams, m', party) ==
                OpenInvoices(streams, m, party) + (if party == PartyKey(key.tenant, customer) then v else 0)
                  - (if key in m.mappings && party == PartyKey(key.tenant, m.mappings[key].customer) then v else 0)
      ensures CountOf(m', party) == CountOf(m, party) == OpenInvoices(streams, m, party)
    {
      RegisterMovesSum(streams, m, key, customer, party, CountsOpen);
    }
    UnrecordedIsNotOpen(streams, m, key);
    if !CountSafe(streams, m, Register(key, customer)) {
      ghost var own := PartyKey(key.tenant, m.mappings[key].customer);
      assert CountOf(m', own) != OpenInvoices(streams, m', own);
    }
  }

  lemma UnrecordedIsNotOpen(streams: Streams<Payload>, m: Customers, key: StreamKey)
    requires Tracks(streams, m, key)
    ensures key !in m.mappings ==> CountsOpen(StateOf(streams, m.cursors, key)) == 0
  {
    hide StateOf, History;
    if key !in m.mappings {
      UnappliedIsEmpty(streams, m.cursors, key);
    }
  }

  lemma ActKeepsCount(streams: Streams<Payload>, m: Customers, a: Action)
    requires Healthy(streams) && Tracking(streams, m) && Orderly(streams, m, a) && CountExact(streams, m)
    ensures CountExact(streams, Act(m, a)) <==> CountFits(streams, Act(m, a)) && CountSafe(streams, m, a)
  {
    hide Healthy, Tracking, OpenInvoices, StateOf;
    match a
    case Register(key, customer) => RegisterKeepsCount(streams, m, key, customer);
    case Receive(e) =>
      hide Act;
      if TakesEffect(Gate(), m.cursors, e) {
        ReceiveKeepsCount(streams, m, e);
      } else {
        IneffectiveChangesNothing(m, e);
        CountExactFits(streams, m);
      }
  }

  lemma CountExactFits(streams: Streams<Payload>, m: Customers)
    requires CountExact(streams, m)
    ensures CountFits(streams, m)
  {
    hide OpenInvoices;
    forall party
      ensures OpenInvoices(streams, m, party) < U32_LIMIT
    {
      assert CountOf(m, party) == OpenInvoices(streams, m, party);
    }
  }

  // ---------------------------------------------------------------------------
  // Whole runs
  // ---------------------------------------------------------------------------

  ghost predicate CountsAlwaysExact(streams: Streams<Payload>, actions: seq<Action>) {
    forall i | 0 <= i <= |actions| :: CountExact(streams, Run(actions[..i]))
  }

  ghost predicate CountsAlwaysFit(streams: Streams<Payload>, actions: seq<Action>) {
    forall i | 0 <= i <= |actions| :: CountFits(streams, Run(actions[..i]))
  }

  ghost predicate CountsAlwaysSafe(streams: Streams<Payload>, actions: seq<Action>) {
    forall i | 0 <= i < |actions| :: CountSafe(streams, Run(actions[..i]), actions[i])
  }

  lemma CountsSplit(streams: Streams<Payload>, actions: seq<Action>)
    requires actions != []
    ensures var init, a := actions[..|actions| - 1], actions[|actions| - 1];
            && (CountsAlwaysExact(streams, actions) <==> CountsAlwaysExact(streams, init) && CountExact(streams, Run(actions)))
            && (CountsAlwaysFit(streams, actions) <==> CountsAlwaysFit(streams, init) && CountFits(streams, Run(actions)))
            && (CountsAlwaysSafe(streams, actions) <==> CountsAlwaysSafe(streams, init) && CountSafe(streams, Run(init), a))
            && (CountsAlwaysExact(streams, init) ==> CountExact(streams, Run(init)))
  {
    hide CountExact, CountFits, CountSafe, Run;
    var init := actions[..|actions| - 1];
    assert forall i | 0 <= i <= |init| :: init[..i] == actions[..i];
    assert init[..|init|] == init && actions[..|actions|] == actions;
    if CountsAlwaysExact(streams, init) && CountExact(streams, Run(actions)) {
      forall i | 0 <= i <= |actions|
        ensures CountExact(streams, Run(actions[..i]))
      {
        assert i < |actions| ==> CountExact(streams, Run(init[..i]));
      }
    }
    if CountsAlwaysFit(streams, init) && CountFits(streams, Run(actions)) {
      forall i | 0 <= i <= |actions|
        ensures CountFits(streams, Run(actions[..i]))
      {
        assert i < |actions| ==> CountFits(streams, Run(init[..i]));
      }
    }
  }

  lemma StartCounts(streams: Streams<Payload>)
    ensures CountExact(streams, Run([])) && CountFits(streams, Run([]))
  {
  }

  /**
   For every run, however invoices and registrations interleave: the counts equal the number of open
   invoice aggregates recorded under each customer, after every action, exactly when those numbers
   fit 32 bits and every action is safe for the counts.
   */
  lemma {:induction false} CountsExactIff(streams: Streams<Payload>, actions: seq<Action>)
    requires Healthy(streams) && OrderlyRun(streams, actions)
    ensures CountsAlwaysExact(streams, actions) <==> CountsAlwaysFit(streams, actions) && CountsAlwaysSafe(streams, actions)
  {
    hide Healthy, Act, CountExact, CountFits, CountSafe, Orderly, Tracking, Run, OrderlyRun;
    if actions == [] {
      StartCounts(streams);
      assert actions[..0] == [];
    } else {
      hide CountsAlwaysExact, CountsAlwaysFit, CountsAlwaysSafe;
      var n := |actions| - 1;
      var init := actions[..n];
      OrderlyInit(streams, actions);
      CountsExactIff(streams, init);
      RunTracks(streams, init);
      RunUnfolds(actions);
      CountsSplit(streams, actions);
      if CountsAlwaysExact(streams, init) {
        ActKeepsCount(streams, Run(init), actions[n]);
      }
    }
  }
}
