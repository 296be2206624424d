/** What was invoiced to and paid by each customer (crates/infra/src/projections/customer_balances.rs). */
module CustomerTurnover {
  import opened Core
  import opened EventStore
  import opened CursorProjection
  import opened ErpPayloads
  import opened Invoicing
  import opened Sums
  import opened CustomerBalances

  function Billed(s: InvoiceState): int {
    s.totalAmount
  }

  function PaidIn(s: InvoiceState): int {
    s.totalPaid
  }

  function InvoicedOf(m: Customers, party: PartyKey): nat {
    if party in m.balances then m.balances[party].totalInvoiced else 0
  }

  function PaidOf(m: Customers, party: PartyKey): nat {
    if party in m.balances then m.balances[party].totalPaid else 0
  }

  /** Both totals are, modulo 2^64, the sums over the invoice aggregates on record, void ones included. */
  ghost predicate TurnoverExact(streams: Streams<Payload>, m: Customers) {
    forall party ::
      && InvoicedOf(m, party) == PartySum(streams, m, party, Billed) % U64_LIMIT
      && PaidOf(m, party) == PartySum(streams, m, party, PaidIn) % U64_LIMIT
  }

  /** A registration does not move an invoice that was billed to another customer. */
  ghost predicate Stays(streams: Streams<Payload>, m: Customers, a: Action) {
    a.Register? && a.key in m.mappings && m.mappings[a.key].customer != a.customer ==>
      StateOf(streams, m.cursors, a.key).totalAmount == 0
  }

  /** Every billed invoice is recorded under a customer with a balance. */
  ghost predicate HasAccounts(streams: Streams<Payload>, m: Customers) {
    forall key | key in m.mappings && StateOf(streams, m.cursors, key).totalAmount > 0 ::
      PartyKey(key.tenant, m.mappings[key].customer) in m.balances
  }

  lemma AddMod64(a: int, x: U64, y: U64)
    requires x == a % U64_LIMIT
    ensures WrapAdd64(x, y) == (a + y) % U64_LIMIT
  {
    ShiftMod64(a + y, a / U64_LIMIT);
    assert x + y == a + y - (a / U64_LIMIT) * U64_LIMIT;
  }

  /** An event adds to the totals of its party what it bills and what it pays. */
  lemma UpdateTurnover(m: Customers, key: StreamKey, s: InvoiceState, ev: Event, billed: int, paid: int)
    requires Ready(m, key, s, ev)
    requires var own := PartyOf(m, key, ev);
             && InvoicedOf(m, own) == billed % U64_LIMIT && PaidOf(m, own) == paid % U64_LIMIT
             && (s.created && s.totalAmount > 0 ==> own in m.balances)
    ensures var own, m', s' := PartyOf(m, key, ev), Update(m, key, ev), Apply(s, ev);
            && InvoicedOf(m', own) == (billed + Billed(s') - Billed(s)) % U64_LIMIT
            && PaidOf(m', own) == (paid + PaidIn(s') - PaidIn(s)) % U64_LIMIT
            && (s'.totalAmount > 0 ==> own in m'.balances)
  {
    hide WrapAdd64, WrapAdd32, SaturatingSub;
    var own := PartyOf(m, key, ev);
    match ev
    case InvoiceIssued(_, _, _, _, _, totalAmount, _) => AddMod64(billed, InvoicedOf(m, own), totalAmount);
    case PaymentRegistered(_, _, amount, _, _) => AddMod64(paid, PaidOf(m, own), amount);
    case InvoiceVoided(_, _, _, _) =>
  }

  lemma ReceiveKeepsTurnover(streams: Streams<Payload>, m: Customers, e: Envelope)
    requires Healthy(streams) && Tracking(streams, m) && Orderly(streams, m, Receive(e))
    requires TurnoverExact(streams, m) && HasAccounts(streams, m) && TakesEffect(Gate(), m.cursors, e)
    ensures TurnoverExact(streams, Act(m, Receive(e))) && HasAccounts(streams, Act(m, Receive(e)))
  {
    hide Healthy, StateOf, History, Update, PartySum, Act, Apply, Matches;
    var m', ev, s := Act(m, Receive(e)), e.payload.bill, StateOf(streams, m.cursors, e.key);
    assert Tracks(streams, m, e.key);
    EffectiveUpdates(streams, m, e);
    EffectiveIsReady(streams, m, e);
    var own := PartyOf(m, e.key, ev);
    UpdateKeepsRecord(m, e.key, s, ev);
    assert s.created && s.totalAmount > 0 ==> own in m.balances;
    UpdateTurnover(m, e.key, s, ev, PartySum(streams, m, own, Billed), PartySum(streams, m, own, PaidIn));
    forall party
      ensures InvoicedOf(m', party) == PartySum(streams, m', party, Billed) % U64_LIMIT
      ensures PaidOf(m', party) == PartySum(streams, m', party, PaidIn) % U64_LIMIT
    {
      ReceiveMovesSum(streams, m, e, party, Billed);
      ReceiveMovesSum(streams, m, e, party, PaidIn);
    }
    forall key | key in m'.mappings && StateOf(streams, m'.cursors, key).totalAmount > 0
      ensures PartyKey(key.tenant, m'.mappings[key].customer) in m'.balances
    {
      if key != e.key {
        OthersKeepState(streams, m.cursors, m'.cursors, key);
        UpdateKeepsAccounts(m, e.key, ev, PartyKey(key.tenant, m'.mappings[key].customer));
      }
    }
  }

  lemma UpdateKeepsAccounts(m: Customers, key: StreamKey, ev: Event, party: PartyKey)
    requires party in m.balances
    ensures party in Update(m, key, ev).balances
  {
  }

  lemma RegisterKeepsTurnover(streams: Streams<Payload>, m: Customers, key: StreamKey, customer: AggregateId)
    requires Healthy(streams) && Tracking(streams, m) && TurnoverExact(streams, m) && HasAccounts(streams, m)
    ensures var m' := Registered(m, key, customer);
            && (TurnoverExact(streams, m') <==> Stays(streams, m, Register(key, customer)))
            && (TurnoverExact(streams, m') ==> HasAccounts(streams, m'))
  {
    hide Healthy, StateOf, PartySum, History, Tracks;
    var m', s := Registered(m, key, customer), StateOf(streams, m.cursors, key);
    assert Tracks(streams, m, key);
    UnrecordedIsUnbilled(streams, m, key);
    PaidIsBilled(streams, m, key);
    forall party
      ensures InvoicedOf(m', party) == InvoicedOf(m, party) && PaidOf(m', party) == PaidOf(m, party)
    {
    }
    if Stays(streams, m, Register(key, customer)) {
      forall party
        ensures InvoicedOf(m', party) == PartySum(streams, m', party, Billed) % U64_LIMIT
        ensures PaidOf(m', party) == PartySum(streams, m', party, PaidIn) % U64_LIMIT
      {
        RegisterMovesSum(streams, m, key, customer, party, Billed);
        RegisterMovesSum(streams, m, key, customer, party, PaidIn);
      }
    } else {
      var own := PartyKey(key.tenant, m.mappings[key].customer);
      RegisterMovesSum(streams, m, key, customer, own, Billed);
      LessIsIncongruent(PartySum(streams, m, own, Billed), s.totalAmount);
      assert InvoicedOf(m', own) != PartySum(streams, m', own, Billed) % U64_LIMIT;
    }
  }

  lemma LessIsIncongruent(a: int, x: U64)
    requires x > 0
    ensures (a - x) % U64_LIMIT != a % U64_LIMIT
  {
  }

  lemma UnrecordedIsUnbilled(streams: Streams<Payload>, m: Customers, key: StreamKey)
    requires Tracks(streams, m, key)
    ensures key !in m.mappings ==> StateOf(streams, m.cursors, key).totalAmount == 0
  {
    hide StateOf, History;
    if key !in m.mappings {
      UnappliedIsEmpty(streams, m.cursors, key);
    }
  }

  /** Nothing is paid on an invoice that bills nothing. */
  lemma PaidIsBilled(streams: Streams<Payload>, m: Customers, key: StreamKey)
    requires Healthy(streams) && Tracks(streams, m, key)
    ensures StateOf(streams, m.cursors, key).totalAmount == 0 ==> StateOf(streams, m.cursors, key).totalPaid == 0
  {
    hide Healthy, StateOf, History;
    ReachableState(streams, m.cursors, key);
  }

  lemma ActKeepsTurnover(streams: Streams<Payload>, m: Customers, a: Action)
    requires Healthy(streams) && Tracking(streams, m) && Orderly(streams, m, a)
    requires TurnoverExact(streams, m) && HasAccounts(streams, m)
    ensures TurnoverExact(streams, Act(m, a)) <==> Stays(streams, m, a)
    ensures TurnoverExact(streams, Act(m, a)) ==> HasAccounts(streams, Act(m, a))
  {
    hide Healthy, Tracking, StateOf, TurnoverExact, HasAccounts;
    match a
    case Register(key, customer) => RegisterKeepsTurnover(streams, m, key, customer);
    case Receive(e) =>
      hide Act;
      if TakesEffect(Gate(), m.cursors, e) {
        ReceiveKeepsTurnover(streams, m, e);
      } else {
        IneffectiveChangesNothing(m, e);
      }
  }

  ghost predicate TurnoverAlwaysExact(streams: Streams<Payload>, actions: seq<Action>) {
    forall i | 0 <= i <= |actions| :: TurnoverExact(streams, Run(actions[..i]))
  }

  ghost predicate AlwaysStays(streams: Streams<Payload>, actions: seq<Action>) {
    forall i | 0 <= i < |actions| :: Stays(streams, Run(actions[..i]), actions[i])
  }

  lemma TurnoverSplits(streams: Streams<Payload>, actions: seq<Action>)
    requires actions != []
    ensures var init, a := actions[..|actions| - 1], actions[|actions| - 1];
            && (TurnoverAlwaysExact(streams, actions) <==> TurnoverAlwaysExact(streams, init) && TurnoverExact(streams, Run(actions)))
            && (AlwaysStays(streams, actions) <==> AlwaysStays(streams, init) && Stays(streams, Run(init), a))
            && (TurnoverAlwaysExact(streams, init) ==> TurnoverExact(streams, Run(init)))
  {
    hide TurnoverExact, Stays, Run;
    var init := actions[..|actions| - 1];
    assert forall i | 0 <= i <= |init| :: init[..i] == actions[..i];
    assert init[..|init|] == init && actions[..|actions|] == actions;
    if TurnoverAlwaysExact(streams, init) && TurnoverExact(streams, Run(actions)) {
      forall i | 0 <= i <= |actions|
        ensures TurnoverExact(streams, Run(actions[..i]))
      {
        assert i < |actions| ==> TurnoverExact(streams, Run(init[..i]));
      }
    }
  }

  lemma StartTurnover(streams: Streams<Payload>)
    ensures TurnoverExact(streams, Run([])) && HasAccounts(streams, Run([]))
  {
  }

  /**
   For every run over accepted histories, event 1 of each invoice first, invoices and registrations
   interleaved at will: after every action the totals invoiced and paid are, modulo 2^64, the sums of
   the billed totals and of the payments of the invoice aggregates on record, exactly when no
   registration moves a billed invoice to another customer.
   */
  lemma {:induction false} TurnoverExactIff(streams: Streams<Payload>, actions: seq<Action>)
    requires Healthy(streams) && OrderlyRun(streams, actions)
    ensures TurnoverAlwaysExact(streams, actions) <==> AlwaysStays(streams, actions)
    ensures TurnoverAlwaysExact(streams, actions) ==> HasAccounts(streams, Run(actions))
  {
    hide Healthy, Act, TurnoverExact, HasAccounts, Stays, Orderly, Tracking, Run, OrderlyRun;
    if actions == [] {
      StartTurnover(streams);
      assert actions[..0] == [];
    } else {
      hide TurnoverAlwaysExact, AlwaysStays;
      var n := |actions| - 1;
      var init := actions[..n];
      OrderlyInit(streams, actions);
      TurnoverExactIff(streams, init);
      RunTracks(streams, init);
      RunUnfolds(actions);
      TurnoverSplits(streams, actions);
      if TurnoverAlwaysExact(streams, init) {
        ActKeepsTurnover(streams, Run(init), actions[n]);
      }
    }
  }

  // ---------------------------------------------------------------------------
  // Names and records
  // ---------------------------------------------------------------------------

  /** Each balance carries the customer it is kept under. */
  ghost predicate Named(m: Customers) {
    forall party | party in m.balances :: m.balances[party].customer == party.party
  }

  lemma ActKeepsNames(m: Customers, a: Action)
    requires Named(m)
    ensures Named(Act(m, a))
  {
    hide WrapAdd64, WrapAdd32, SaturatingSub;
  }

  lemma {:induction false} RunKeepsNames(actions: seq<Action>)
    ensures Named(Run(actions))
  {
    hide Act;
    if actions != [] {
      RunKeepsNames(actions[..|actions| - 1]);
      ActKeepsNames(Run(actions[..|actions| - 1]), actions[|actions| - 1]);
    }
  }

  /** The record of an applied invoice is the invoice. */
  ghost predicate Mirrors(streams: Streams<Payload>, m: Customers, key: StreamKey) {
    CursorOf(m.cursors, key) > 0 ==>
      && key in m.mappings
      && var mapping, s := m.mappings[key], StateOf(streams, m.cursors, key);
         mapping.totalAmount == s.totalAmount && mapping.totalPaid == s.totalPaid && mapping.status == s.status
  }

  /** Customers are registered only before the invoice's first event. */
  ghost predicate EarlyRegistrations(actions: seq<Action>) {
    forall i | 0 <= i < |actions| && actions[i].Register? :: CursorOf(Run(actions[..i]).cursors, actions[i].key) == 0
  }

  lemma UpdateMirrors(m: Customers, key: StreamKey, s: InvoiceState, ev: Event)
    requires Ready(m, key, s, ev)
    requires s.created ==> m.mappings[key].totalAmount == s.totalAmount && m.mappings[key].totalPaid == s.totalPaid && m.mappings[key].status == s.status
    ensures var s' := Apply(s, ev);
            && key in Update(m, key, ev).mappings
            && var mapping := Update(m, key, ev).mappings[key];
               mapping.totalAmount == s'.totalAmount && mapping.totalPaid == s'.totalPaid && mapping.status == s'.status
    ensures ev.InvoiceIssued? && key in m.mappings ==> Update(m, key, ev).mappings[key].customer == m.mappings[key].customer
    ensures ev.InvoiceIssued? && key !in m.mappings ==> Update(m, key, ev).mappings[key].customer == ev.salesOrder
  {
  }

  lemma ActKeepsMirrors(streams: Streams<Payload>, m: Customers, a: Action, key: StreamKey)
    requires Healthy(streams) && Tracking(streams, m) && Orderly(streams, m, a) && Mirrors(streams, m, key)
    requires a.Register? ==> CursorOf(m.cursors, a.key) == 0
    ensures Mirrors(streams, Act(m, a), key)
  {
    hide Healthy, StateOf, History, Update, Matches, EventFits;
    match a
    case Register(_, _) =>
    case Receive(e) =>
      hide Act;
      if TakesEffect(Gate(), m.cursors, e) {
        assert Tracks(streams, m, e.key);
        EffectiveIsReady(streams, m, e);
        EffectiveUpdates(streams, m, e);
        ReachableState(streams, m.cursors, e.key);
        var s := StateOf(streams, m.cursors, e.key);
        UpdateKeepsRecord(m, e.key, s, e.payload.bill);
        if key == e.key {
          UpdateMirrors(m, key, s, e.payload.bill);
        } else {
          OthersKeepState(streams, m.cursors, Act(m, a).cursors, key);
        }
      } else {
        IneffectiveChangesNothing(m, e);
      }
  }

  /** If customers are registered in time, every record is its invoice: amounts and status. */
  lemma {:induction false} RunMirrors(streams: Streams<Payload>, actions: seq<Action>, key: StreamKey)
    requires Healthy(streams) && OrderlyRun(streams, actions) && EarlyRegistrations(actions)
    ensures Mirrors(streams, Run(actions), key)
  {
    hide Healthy, Act, Mirrors, Orderly, OrderlyRun, Tracking, Run;
    if actions == [] {
      StartMirrors(streams, key);
    } else {
      var n := |actions| - 1;
      var init := actions[..n];
      assert forall i | 0 <= i < n :: init[..i] == actions[..i] && init[i] == actions[i];
      OrderlyInit(streams, actions);
      RunMirrors(streams, init, key);
      RunTracks(streams, init);
      RunUnfolds(actions);
      ActKeepsMirrors(streams, Run(init), actions[n], key);
    }
  }

  lemma StartMirrors(streams: Streams<Payload>, key: StreamKey)
    ensures Mirrors(streams, Run([]), key)
  {
  }

  /** A new invoice envelope is taken exactly when it carries an invoice event of its own tenant; otherwise the refusal says why. */
  lemma AppliedIff(m: Customers, e: Envelope)
    requires e.kind == InvoiceType && e.seqNo > 0 && (CursorOf(m.cursors, e.key) == 0 || e.seqNo == CursorOf(m.cursors, e.key) + 1)
    ensures var own := e.payload.Bill? && e.payload.bill.tenant == e.key.tenant;
            && (own ==> ApplyBill(m, e).Ok?)
            && (!own ==> ApplyBill(m, e) == Err(if e.payload.Bill? then TenantIsolationError else DeserializeError))
  {
  }
}
