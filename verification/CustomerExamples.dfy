/** Runs over healthy logs in which the customer projection goes wrong: why the conditions are there. */
module CustomerExamples {
  import opened Core
  import opened EventStore
  import opened Sorting
  import opened Sums
  import opened CursorProjection
  import opened ErpPayloads
  import opened Invoicing
  import opened CustomerBalances
  import CustomerCounts
  import CustomerRebuild

  const ONE: StreamKey := StreamKey(0, 1)
  const TWO: StreamKey := StreamKey(0, 2)

  /** The sales order both invoices are issued for, and a customer to register. */
  const ORDER: PartyKey := PartyKey(0, 9)
  const CUSTOMER: PartyKey := PartyKey(0, 7)

  function Issuing(invoice: AggregateId, amount: U64): Event {
    InvoiceIssued(0, invoice, 9, [Line(1, 9, 7, 1, amount)], 0, amount, 0)
  }

  const PAYMENT: Event := PaymentRegistered(0, 1, 5, 5, 0)
  const VOIDING: Event := InvoiceVoided(0, 1, None, 0)

  function Stored(key: StreamKey, n: nat, ev: Event): Envelope {
    StoredEvent(key, InvoiceType, n, 0, Bill(ev))
  }

  function Stream(key: StreamKey, events: seq<Event>): seq<Envelope> {
    seq(|events|, i requires 0 <= i < |events| => Stored(key, i + 1, events[i]))
  }

  function TwoInvoices(first: seq<Event>, second: seq<Event>): Streams<Payload> {
    map[ONE := Stream(ONE, first), TWO := Stream(TWO, second)]
  }

  // ---------------------------------------------------------------------------
  // Healthy logs
  // ---------------------------------------------------------------------------

  lemma IssuingIsAccepted(invoice: AggregateId, amount: U64)
    requires amount > 0
    ensures Accepted(StreamKey(0, invoice), [Issuing(invoice, amount)])
  {
    var key, ev := StreamKey(0, invoice), Issuing(invoice, amount);
    var lines := [Line(1, 9, 7, 1, amount)];
    assert lines[..0] == [] && IssueTotal([]) == Ok(0) && IssueTotal(lines) == Ok(amount);
    assert Invoicing.Handle(Fold(key, []), IssueInvoice(0, invoice, 9, lines, 0, 0)) == Ok([ev]);
    assert AcceptedNext(key, [], ev);
    assert [ev][..0] == [];
  }

  /** The handlers accept the voiding of a paid invoice. */
  lemma PaidThenVoided()
    ensures Accepted(ONE, [Issuing(1, 5), PAYMENT, VOIDING])
    ensures Fold(ONE, [Issuing(1, 5), PAYMENT, VOIDING]).status == Void
  {
    hide IssueTotal;
    IssuingIsAccepted(1, 5);
    var one, two, three := [Issuing(1, 5)], [Issuing(1, 5), PAYMENT], [Issuing(1, 5), PAYMENT, VOIDING];
    assert one[..0] == [] && two[..1] == one && three[..2] == two;
    assert Fold(ONE, one) == InvoiceState(1, Some(0), Open, [Line(1, 9, 7, 1, 5)], Some(0), 5, 0, 1, true);
    assert Handle(Fold(ONE, one), RegisterPayment(0, 1, 5, 0)) == Ok([PAYMENT]);
    assert AcceptedNext(ONE, one, PAYMENT);
    assert Fold(ONE, two) == InvoiceState(1, Some(0), Paid, [Line(1, 9, 7, 1, 5)], Some(0), 5, 5, 2, true);
    assert Handle(Fold(ONE, two), VoidInvoice(0, 1, None, 0)) == Ok([VOIDING]);
    assert AcceptedNext(ONE, two, VOIDING);
  }

  lemma StreamIsHealthy(key: StreamKey, events: seq<Event>)
    requires Accepted(key, events)
    ensures HealthyStream(key, Stream(key, events))
  {
    hide Accepted;
    var h := Stream(key, events);
    if h != [] {
      assert AllOf(h, InvoiceType);
      assert Bills(h) == events;
    }
  }

  lemma LogIsHealthy(first: seq<Event>, second: seq<Event>)
    requires Accepted(ONE, first) && Accepted(TWO, second)
    ensures Healthy(TwoInvoices(first, second))
  {
    hide HealthyStream, Accepted;
    var streams := TwoInvoices(first, second);
    StreamIsHealthy(ONE, first);
    StreamIsHealthy(TWO, second);
    forall key
      ensures HealthyStream(key, StreamOf(streams, key))
    {
      NoStreamIsHealthy(key);
    }
  }

  lemma NoStreamIsHealthy(key: StreamKey)
    ensures HealthyStream(key, [])
  {
  }

  /** The aggregate of an invoice that has been applied to the end of its events. */
  lemma AppliedState(streams: Streams<Payload>, cursors: map<StreamKey, nat>, key: StreamKey, events: seq<Event>)
    requires StreamOf(streams, key) == Stream(key, events) && events != [] && CursorOf(cursors, key) == |events|
    ensures StateOf(streams, cursors, key) == Fold(key, events)
  {
    hide Fold;
    var h := Stream(key, events);
    assert History(Gate(), streams, key) == h && h[..|events|] == h;
    assert AllOf(h, InvoiceType) && Bills(h) == events;
  }

  /** What a fresh issue leaves. */
  lemma IssuedState(key: StreamKey, amount: U64)
    requires key.tenant == 0
    ensures var s := Fold(key, [Issuing(key.aggregate, amount)]);
            s.created && s.status == Open && Owes(s) == amount
  {
    assert [Issuing(key.aggregate, amount)][..0] == [];
  }

  lemma TwoShares(streams: Streams<Payload>, m: Customers, party: PartyKey, value: InvoiceState -> int)
    requires m.mappings.Keys == {ONE, TWO}
    ensures PartySum(streams, m, party, value) == Weight(streams, m, ONE, party, value) + Weight(streams, m, TWO, party, value)
  {
    hide StateOf;
    var w := Share(streams, m.cursors, party, value);
    MapSumSplit(m.mappings, ONE, w);
    MapSumSplit(m.mappings - {ONE}, TWO, w);
    assert m.mappings - {ONE} - {TWO} == map[];
  }

  lemma OneShare(streams: Streams<Payload>, m: Customers, party: PartyKey, value: InvoiceState -> int)
    requires m.mappings.Keys == {TWO}
    ensures PartySum(streams, m, party, value) == Weight(streams, m, TWO, party, value)
  {
    hide StateOf;
    MapSumSplit(m.mappings, TWO, Share(streams, m.cursors, party, value));
    assert m.mappings - {TWO} == map[];
  }

  lemma TwoActions(actions: seq<Action>)
    requires |actions| == 2
    ensures Run(actions[..0]) == NoCustomers()
    ensures Run(actions[..1]) == Act(NoCustomers(), actions[0])
    ensures Run(actions) == Act(Act(NoCustomers(), actions[0]), actions[1])
  {
    hide Act;
    assert actions[..0] == [] && actions[..1][..0] == [];
  }

  lemma FourActions(actions: seq<Action>)
    requires |actions| == 4
    ensures var m1 := Act(NoCustomers(), actions[0]);
            var m2 := Act(m1, actions[1]);
            var m3 := Act(m2, actions[2]);
            && Run(actions[..0]) == NoCustomers() && Run(actions[..1]) == m1 && Run(actions[..2]) == m2 && Run(actions[..3]) == m3
            && Run(actions) == Act(m3, actions[3])
  {
    hide Act;
    TwoActions(actions[..2]);
    assert actions[..2][..1] == actions[..1] && actions[..2][..0] == actions[..0];
    assert actions[..3][..2] == actions[..2];
    assert Run(actions[..3]) == Act(Run(actions[..2]), actions[2]);
  }

  // ---------------------------------------------------------------------------
  // A paid invoice is voided
  // ---------------------------------------------------------------------------

  const VOIDED: seq<Event> := [Issuing(1, 5), PAYMENT, VOIDING]
  const OPENED: seq<Event> := [Issuing(2, 5)]

  const DOUBLE_DROP: seq<Action> := [
    Receive(Stored(ONE, 1, Issuing(1, 5))), Receive(Stored(TWO, 1, Issuing(2, 5))),
    Receive(Stored(ONE, 2, PAYMENT)), Receive(Stored(ONE, 3, VOIDING))]

  const BOTH_ISSUED: Customers := Customers(
    map[ORDER := CustomerBalance(9, 10, 0, 10, 2)],
    map[ONE := Mapping(9, 5, 0, Open), TWO := Mapping(9, 5, 0, Open)],
    map[ONE := 1, TWO := 1])

  const ONE_PAID: Customers := Customers(
    map[ORDER := CustomerBalance(9, 10, 5, 5, 1)],
    map[ONE := Mapping(9, 5, 5, Paid), TWO := Mapping(9, 5, 0, Open)],
    map[ONE := 2, TWO := 1])

  const ONE_VOIDED: Customers := Customers(
    map[ORDER := CustomerBalance(9, 10, 5, 5, 0)],
    map[ONE := Mapping(9, 5, 5, Void), TWO := Mapping(9, 5, 0, Open)],
    map[ONE := 3, TWO := 1])

  lemma BothIssued()
    ensures Act(Act(NoCustomers(), DOUBLE_DROP[0]), DOUBLE_DROP[1]) == BOTH_ISSUED
    ensures Act(NoCustomers(), DOUBLE_DROP[0]).cursors == map[ONE := 1]
  {
    var m1 := Customers(map[ORDER := CustomerBalance(9, 5, 0, 5, 1)], map[ONE := Mapping(9, 5, 0, Open)], map[ONE := 1]);
    assert Act(NoCustomers(), DOUBLE_DROP[0]) == m1;
    assert Act(m1, DOUBLE_DROP[1]) == BOTH_ISSUED;
  }

  lemma OnePaid()
    ensures Act(BOTH_ISSUED, DOUBLE_DROP[2]) == ONE_PAID
  {
  }

  lemma OneVoided()
    ensures Act(ONE_PAID, DOUBLE_DROP[3]) == ONE_VOIDED
  {
  }

  lemma DoubleDropRun()
    ensures Run(DOUBLE_DROP) == ONE_VOIDED && OrderlyRun(TwoInvoices(VOIDED, OPENED), DOUBLE_DROP)
  {
    hide Act, Run;
    var streams := TwoInvoices(VOIDED, OPENED);
    FourActions(DOUBLE_DROP);
    BothIssued();
    OnePaid();
    OneVoided();
    assert Stream(ONE, VOIDED) == [Stored(ONE, 1, Issuing(1, 5)), Stored(ONE, 2, PAYMENT), Stored(ONE, 3, VOIDING)];
    assert Stream(TWO, OPENED) == [Stored(TWO, 1, Issuing(2, 5))];
    forall i | 0 <= i < |DOUBLE_DROP|
      ensures Orderly(streams, Run(DOUBLE_DROP[..i]), DOUBLE_DROP[i])
    {
    }
  }

  /** Of two open invoices one is paid and then voided: the count says none is open, though one is. */
  lemma CountDropsTwice()
    ensures var streams, m := TwoInvoices(VOIDED, OPENED), Run(DOUBLE_DROP);
            && Healthy(streams)
            && OrderlyRun(streams, DOUBLE_DROP)
            && CustomerCounts.CountOf(m, ORDER) == 0
            && CustomerCounts.OpenInvoices(streams, m, ORDER) == 1
  {
    hide Healthy, OrderlyRun, Run, StateOf, Fold, Accepted, PartySum;
    var streams, m := TwoInvoices(VOIDED, OPENED), Run(DOUBLE_DROP);
    PaidThenVoided();
    IssuingIsAccepted(2, 5);
    LogIsHealthy(VOIDED, OPENED);
    DoubleDropRun();
    TwoShares(streams, m, ORDER, CustomerCounts.CountsOpen);
    AppliedState(streams, m.cursors, ONE, VOIDED);
    AppliedState(streams, m.cursors, TWO, OPENED);
    IssuedState(TWO, 5);
    assert CustomerCounts.CountsOpen(StateOf(streams, m.cursors, ONE)) == 0;
    assert CustomerCounts.CountsOpen(StateOf(streams, m.cursors, TWO)) == 1;
    assert CustomerCounts.OpenInvoices(streams, m, ORDER) == PartySum(streams, m, ORDER, CustomerCounts.CountsOpen);
  }

  // ---------------------------------------------------------------------------
  // More than 64 bits are owed
  // ---------------------------------------------------------------------------

  const HALF: U64 := 0x8000_0000_0000_0000

  const TOO_MUCH: seq<Action> := [Receive(Stored(ONE, 1, Issuing(1, HALF))), Receive(Stored(TWO, 1, Issuing(2, HALF)))]

  lemma TooMuchRun()
    ensures Run(TOO_MUCH) == Customers(
              map[ORDER := CustomerBalance(9, 0, 0, 0, 2)],
              map[ONE := Mapping(9, HALF, 0, Open), TWO := Mapping(9, HALF, 0, Open)],
              map[ONE := 1, TWO := 1])
    ensures OrderlyRun(TwoInvoices([Issuing(1, HALF)], [Issuing(2, HALF)]), TOO_MUCH)
  {
    hide Run;
    var streams := TwoInvoices([Issuing(1, HALF)], [Issuing(2, HALF)]);
    var m1 := Customers(map[ORDER := CustomerBalance(9, HALF, 0, HALF, 1)], map[ONE := Mapping(9, HALF, 0, Open)], map[ONE := 1]);
    assert Act(NoCustomers(), TOO_MUCH[0]) == m1;
    TwoActions(TOO_MUCH);
    assert Stream(ONE, [Issuing(1, HALF)]) == [Stored(ONE, 1, Issuing(1, HALF))];
    assert Stream(TWO, [Issuing(2, HALF)]) == [Stored(TWO, 1, Issuing(2, HALF))];
    forall i | 0 <= i < |TOO_MUCH|
      ensures Orderly(streams, Run(TOO_MUCH[..i]), TOO_MUCH[i])
    {
    }
  }

  /** Two invoices of 2^63 each: the outstanding amount wraps to zero while 2^64 is owed. */
  lemma OwedBeyond64Bits()
    ensures var streams, m := TwoInvoices([Issuing(1, HALF)], [Issuing(2, HALF)]), Run(TOO_MUCH);
            && Healthy(streams)
            && OrderlyRun(streams, TOO_MUCH)
            && OutstandingOf(m, ORDER) == 0
            && Owed(streams, m, ORDER) == U64_LIMIT
  {
    hide Healthy, OrderlyRun, Run, StateOf, Fold, Accepted, PartySum;
    var first, second := [Issuing(1, HALF)], [Issuing(2, HALF)];
    var streams, m := TwoInvoices(first, second), Run(TOO_MUCH);
    IssuingIsAccepted(1, HALF);
    IssuingIsAccepted(2, HALF);
    LogIsHealthy(first, second);
    TooMuchRun();
    TwoShares(streams, m, ORDER, Owes);
    AppliedState(streams, m.cursors, ONE, first);
    AppliedState(streams, m.cursors, TWO, second);
    IssuedState(ONE, HALF);
    IssuedState(TWO, HALF);
  }

  // ---------------------------------------------------------------------------
  // Registrations
  // ---------------------------------------------------------------------------

  const ISSUE: Action := Receive(Stored(TWO, 1, Issuing(2, 5)))
  const REGISTER: Action := Register(TWO, 7)

  lemma LateRun()
    ensures Run([ISSUE, REGISTER]) ==
              Customers(map[ORDER := CustomerBalance(9, 5, 0, 5, 1)], map[TWO := Mapping(7, 0, 0, Open)], map[TWO := 1])
    ensures OrderlyRun(TwoInvoices([], OPENED), [ISSUE, REGISTER])
  {
    hide Run;
    var actions, streams := [ISSUE, REGISTER], TwoInvoices([], OPENED);
    assert Act(NoCustomers(), ISSUE) ==
           Customers(map[ORDER := CustomerBalance(9, 5, 0, 5, 1)], map[TWO := Mapping(9, 5, 0, Open)], map[TWO := 1]);
    TwoActions(actions);
    assert Stream(TWO, OPENED) == [Stored(TWO, 1, Issuing(2, 5))];
    forall i | 0 <= i < |actions|
      ensures Orderly(streams, Run(actions[..i]), actions[i])
    {
    }
  }

  /** A customer registered after the issue: the order keeps the amount the customer now owes. */
  lemma LateRegistrationMisplaces()
    ensures var streams, m := TwoInvoices([], OPENED), Run([ISSUE, REGISTER]);
            && Healthy(streams)
            && OrderlyRun(streams, [ISSUE, REGISTER])
            && OutstandingOf(m, CUSTOMER) == 0 && Owed(streams, m, CUSTOMER) == 5
            && OutstandingOf(m, ORDER) == 5 && Owed(streams, m, ORDER) == 0
  {
    hide Healthy, OrderlyRun, Run, StateOf, Fold, Accepted, PartySum;
    var streams, m := TwoInvoices([], OPENED), Run([ISSUE, REGISTER]);
    IssuingIsAccepted(2, 5);
    EmptyAccepted(ONE);
    LogIsHealthy([], OPENED);
    LateRun();
    OneShare(streams, m, CUSTOMER, Owes);
    OneShare(streams, m, ORDER, Owes);
    AppliedState(streams, m.cursors, TWO, OPENED);
    IssuedState(TWO, 5);
  }

  lemma EarlyRun()
    ensures Run([REGISTER, ISSUE]) ==
              Customers(map[CUSTOMER := CustomerBalance(7, 5, 0, 5, 1)], map[TWO := Mapping(7, 5, 0, Open)], map[TWO := 1])
    ensures OrderlyRun(TwoInvoices([], OPENED), [REGISTER, ISSUE])
  {
    hide Run;
    var actions, streams := [REGISTER, ISSUE], TwoInvoices([], OPENED);
    assert Act(NoCustomers(), REGISTER) == Customers(map[], map[TWO := Mapping(7, 0, 0, Open)], map[]);
    TwoActions(actions);
    assert Stream(TWO, OPENED) == [Stored(TWO, 1, Issuing(2, 5))];
    forall i | 0 <= i < |actions|
      ensures Orderly(streams, Run(actions[..i]), actions[i])
    {
    }
  }

  /** A registered customer is forgotten by a rebuild: the amount moves to the sales order. */
  lemma RebuildForgetsRegistration()
    ensures var streams, live, all := TwoInvoices([], OPENED), Run([REGISTER, ISSUE]), Stream(TWO, OPENED);
            && Healthy(streams)
            && OrderlyRun(streams, [REGISTER, ISSUE])
            && Complete(InvoiceType, TenantsOf(all), streams, all)
            && OutstandingOf(live, CUSTOMER) == 5
            && OutstandingOf(CustomerRebuild.RebuildCustomers(live, all).0, CUSTOMER) == 0
            && OutstandingOf(CustomerRebuild.RebuildCustomers(live, all).0, ORDER) == 5
  {
    hide Healthy, OrderlyRun, Run, Accepted;
    IssuingIsAccepted(2, 5);
    EmptyAccepted(ONE);
    LogIsHealthy([], OPENED);
    EarlyRun();
    OneIsComplete();
    RebuiltFromOne(Run([REGISTER, ISSUE]));
  }

  lemma OneIsComplete()
    ensures var streams, all := TwoInvoices([], OPENED), Stream(TWO, OPENED);
            Complete(InvoiceType, TenantsOf(all), streams, all)
  {
    var streams, all := TwoInvoices([], OPENED), Stream(TWO, OPENED);
    forall e: Envelope | InStore(streams, e)
      ensures e in all
    {
      assert StreamOf(streams, ONE) == [];
      assert e.key == TWO && all[e.seqNo - 1] == e;
    }
  }

  lemma RebuiltFromOne(m: Customers)
    requires forall party | party in m.balances :: party.tenant == 0
    ensures var rebuilt := CustomerRebuild.RebuildCustomers(m, Stream(TWO, OPENED)).0;
            OutstandingOf(rebuilt, CUSTOMER) == 0 && OutstandingOf(rebuilt, ORDER) == 5
  {
    var all := Stream(TWO, OPENED);
    var e := Stored(TWO, 1, Issuing(2, 5));
    assert all == [e] && [e][1..] == [] && [e][..0] == [];
    assert SortBy(all, StreamOrder) == [e];
    assert all[0].key.tenant in TenantsOf(all);
    var cleared := CustomerRebuild.ClearCustomers(m, TenantsOf(all));
    assert CustomerRebuild.ReplayBills(cleared, []) == (cleared, None);
    assert CustomerRebuild.ReplayBills(cleared, [e]).0 == Act(cleared, Receive(e));
  }
}
