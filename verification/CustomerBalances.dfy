/** The customer balances projection (crates/infra/src/projections/customer_balances.rs). */
module CustomerBalances {
  import opened Core
  import opened EventStore
  import opened CursorProjection
  import opened ErpPayloads
  import opened Invoicing
  import opened Sums
  import InvoiceViews

  datatype PartyKey = PartyKey(tenant: TenantId, party: AggregateId)

  datatype CustomerBalance =
    CustomerBalance(customer: AggregateId, totalInvoiced: U64, totalPaid: U64, outstanding: U64, openCount: U32)

  datatype Mapping = Mapping(customer: AggregateId, totalAmount: U64, totalPaid: U64, status: Status)

  type Balances = map<PartyKey, CustomerBalance>
  type Mappings = map<StreamKey, Mapping>

  datatype Customers = Customers(balances: Balances, mappings: Mappings, cursors: map<StreamKey, nat>) {
    function Gate(): ReadModel<()> {
      ReadModel(map[], cursors)
    }
  }

  function Check(e: Envelope): Option<ProjectionError> {
    if !e.payload.Bill? then Some(DeserializeError)
    else if e.payload.bill.tenant != e.key.tenant then Some(TenantIsolationError)
    else None
  }

  /** The cursor discipline of this projection, without its rows. */
  function Gate(): RowProjection<Payload, ()> {
    RowProjection(InvoiceType, Check, (row, e) => None)
  }

  // ---------------------------------------------------------------------------
  // The update of one event
  // ---------------------------------------------------------------------------

  /** The registered customer, or the synthetic one made from the sales order. */
  function CustomerFor(mappings: Mappings, key: StreamKey, ev: Event): AggregateId
    requires ev.InvoiceIssued?
  {
    if key in mappings then mappings[key].customer else ev.salesOrder
  }

  function OnIssued(m: Customers, key: StreamKey, ev: Event): Customers
    requires ev.InvoiceIssued?
  {
    var customer := CustomerFor(m.mappings, key, ev);
    var party := PartyKey(key.tenant, customer);
    var b := if party in m.balances then m.balances[party] else CustomerBalance(customer, 0, 0, 0, 0);
    m.(mappings := m.mappings[key := Mapping(customer, ev.totalAmount, 0, Open)],
       balances := m.balances[party := b.(totalInvoiced := WrapAdd64(b.totalInvoiced, ev.totalAmount),
                                          outstanding := WrapAdd64(b.outstanding, ev.totalAmount),
                                          openCount := WrapAdd32(b.openCount, 1))])
  }

  function OnPayment(m: Customers, key: StreamKey, ev: Event): Customers
    requires ev.PaymentRegistered?
  {
    if key !in m.mappings then m
    else
      var mapping := m.mappings[key];
      var settled := ev.newTotalPaid >= mapping.totalAmount;
      var party := PartyKey(key.tenant, mapping.customer);
      var m' := m.(mappings := m.mappings[key := mapping.(totalPaid := ev.newTotalPaid, status := if settled then Paid else mapping.status)]);
      if party !in m.balances then m'
      else
        var b := m.balances[party];
        m'.(balances := m.balances[party := b.(totalPaid := WrapAdd64(b.totalPaid, ev.amount),
                                               outstanding := SaturatingSub(b.outstanding, ev.amount),
                                               openCount := if settled then SaturatingSub(b.openCount, 1) else b.openCount)])
  }

  function OnVoided(m: Customers, key: StreamKey, ev: Event): Customers
    requires ev.InvoiceVoided?
  {
    if key !in m.mappings then m
    else
      var mapping := m.mappings[key];
      var party := PartyKey(key.tenant, mapping.customer);
      var m' := m.(mappings := m.mappings[key := mapping.(status := Void)]);
      if party !in m.balances then m'
      else
        var b := m.balances[party];
        m'.(balances := m.balances[party := b.(outstanding := SaturatingSub(b.outstanding, SaturatingSub(mapping.totalAmount, mapping.totalPaid)),
                                               openCount := SaturatingSub(b.openCount, 1))])
  }

  function Update(m: Customers, key: StreamKey, ev: Event): Customers {
    match ev
    case InvoiceIssued(_, _, _, _, _, _, _) => OnIssued(m, key, ev)
    case PaymentRegistered(_, _, _, _, _) => OnPayment(m, key, ev)
    case InvoiceVoided(_, _, _, _) => OnVoided(m, key, ev)
  }

  function ApplyBill(m: Customers, e: Envelope): Result<Customers, ProjectionError> {
    match ApplyTo(Gate(), m.Gate(), e)
    case Err(fault) => Err(fault)
    case Ok(gate) =>
      Ok((if TakesEffect(Gate(), m.cursors, e) then Update(m, e.key, e.payload.bill) else m).(cursors := gate.cursors))
  }

  /** `register_invoice_customer`. */
  function Registered(m: Customers, key: StreamKey, customer: AggregateId): Customers {
    m.(mappings := m.mappings[key := Mapping(customer, 0, 0, Open)])
  }

  datatype Action = Register(key: StreamKey, customer: AggregateId) | Receive(envelope: Envelope)

  function Act(m: Customers, a: Action): Customers {
    match a
    case Register(key, customer) => Registered(m, key, customer)
    case Receive(e) =>
      match ApplyBill(m, e)
      case Ok(after) => after
      case Err(_) => m
  }

  function NoCustomers(): Customers {
    Customers(map[], map[], map[])
  }

  function Run(actions: seq<Action>): Customers {
    if actions == [] then NoCustomers()
    else Act(Run(actions[..|actions| - 1]), actions[|actions| - 1])
  }

  // ---------------------------------------------------------------------------
  // What the invoices themselves say
  // ---------------------------------------------------------------------------

  /** What is left to pay of an invoice: nothing once it is void. */
  function Owes(s: InvoiceState): int {
    if s.status == Void then 0 else s.Outstanding()
  }

  /** The history of an invoice as far as it has been applied. */
  ghost function Applied(streams: Streams<Payload>, cursors: map<StreamKey, nat>, key: StreamKey): seq<Envelope> {
    var h := History(Gate(), streams, key);
    var c := CursorOf(cursors, key);
    if c <= |h| then h[..c] else h
  }

  /** The invoice aggregate at the projection's cursor. */
  ghost function StateOf(streams: Streams<Payload>, cursors: map<StreamKey, nat>, key: StreamKey): InvoiceState {
    var h := Applied(streams, cursors, key);
    if AllOf(h, InvoiceType) then Fold(key, Bills(h)) else Invoicing.Empty(key.aggregate)
  }

  /** What an invoice contributes to a party: something only if it is recorded under that party. */
  ghost function Share(streams: Streams<Payload>, cursors: map<StreamKey, nat>, party: PartyKey, value: InvoiceState -> int)
    : (StreamKey, Mapping) -> int
  {
    (k: StreamKey, mp: Mapping) =>
      if k.tenant == party.tenant && mp.customer == party.party then value(StateOf(streams, cursors, k)) else 0
  }

  ghost function PartySum(streams: Streams<Payload>, m: Customers, party: PartyKey, value: InvoiceState -> int): int {
    MapSum(m.mappings, Share(streams, m.cursors, party, value))
  }

  /** What the invoice aggregates recorded under a party have left to pay. */
  ghost function Owed(streams: Streams<Payload>, m: Customers, party: PartyKey): int {
    PartySum(streams, m, party, Owes)
  }

  function OutstandingOf(m: Customers, party: PartyKey): nat {
    if party in m.balances then m.balances[party].outstanding else 0
  }

  ghost predicate AmountsExact(streams: Streams<Payload>, m: Customers) {
    forall party :: OutstandingOf(m, party) == Owed(streams, m, party)
  }

  ghost predicate AmountsFit(streams: Streams<Payload>, m: Customers) {
    forall party :: Owed(streams, m, party) < U64_LIMIT
  }

  /** The premise on a run: only stored events are received, event 1 of an invoice before its others. Registrations are free. */
  ghost predicate Orderly(streams: Streams<Payload>, m: Customers, a: Action) {
    a.Receive? ==>
      InStore(streams, a.envelope) &&
      (a.envelope.kind == InvoiceType && CursorOf(m.cursors, a.envelope.key) == 0 ==> a.envelope.seqNo == 1)
  }

  ghost predicate OrderlyRun(streams: Streams<Payload>, actions: seq<Action>) {
    forall i | 0 <= i < |actions| :: Orderly(streams, Run(actions[..i]), actions[i])
  }

  function RecordedDue(mapping: Mapping): nat {
    SaturatingSub(mapping.totalAmount, mapping.totalPaid)
  }

  /**
   The action keeps exact amounts exact: a registration does not move an invoice that still owes to
   another customer, and a void finds the invoice's due on record.
   */
  ghost predicate Safe(streams: Streams<Payload>, m: Customers, a: Action) {
    match a
    case Register(key, customer) =>
      key in m.mappings && m.mappings[key].customer != customer ==> Owes(StateOf(streams, m.cursors, key)) == 0
    case Receive(e) =>
      TakesEffect(Gate(), m.cursors, e) && e.payload.bill.InvoiceVoided? && e.key in m.mappings ==>
        RecordedDue(m.mappings[e.key]) == StateOf(streams, m.cursors, e.key).Outstanding()
  }

  // ---------------------------------------------------------------------------
  // The record of an invoice
  // ---------------------------------------------------------------------------

  /** A record carries the invoice's amounts, or none since a registration blanked it. */
  predicate Matches(mapping: Mapping, s: InvoiceState) {
    mapping.totalAmount == 0 || (mapping.totalAmount == s.totalAmount && mapping.totalPaid == s.totalPaid)
  }

  ghost predicate Tracks(streams: Streams<Payload>, m: Customers, key: StreamKey) {
    var c := CursorOf(m.cursors, key);
    && c <= |History(Gate(), streams, key)|
    && (c > 0 ==> key in m.mappings && Matches(m.mappings[key], StateOf(streams, m.cursors, key)))
  }

  ghost predicate Tracking(streams: Streams<Payload>, m: Customers) {
    forall key :: Tracks(streams, m, key)
  }

  /** The invoice state at a cursor is reachable. */
  lemma ReachableState(streams: Streams<Payload>, cursors: map<StreamKey, nat>, key: StreamKey)
    requires Healthy(streams) && CursorOf(cursors, key) <= |History(Gate(), streams, key)|
    ensures var s := StateOf(streams, cursors, key);
            && (s.created <==> CursorOf(cursors, key) > 0)
            && s.totalPaid <= s.totalAmount
            && (s.status == Paid ==> s.totalPaid == s.totalAmount)
  {
    hide Accepted, Fold;
    var h := History(Gate(), streams, key);
    var c := CursorOf(cursors, key);
    assert HealthyStream(key, StreamOf(streams, key));
    assert AllOf(h[..c], InvoiceType);
    if h == [] {
      assert Bills(h[..c]) == [];
      EmptyAccepted(key);
    } else {
      InvoiceViews.PrefixAccepted(key, Bills(h), c);
      assert Bills(h[..c]) == Bills(h)[..c];
    }
    ReachableInvoice(key, Bills(h[..c]));
  }

  lemma EmptyAccepted(key: StreamKey)
    ensures Accepted(key, [])
  {
  }

  /** Applying the next event of an invoice takes its state along. */
  lemma NextState(streams: Streams<Payload>, cursors: map<StreamKey, nat>, e: Envelope)
    requires Healthy(streams) && InStore(streams, e) && e.kind == InvoiceType
    requires e.seqNo == CursorOf(cursors, e.key) + 1
    ensures e.payload.Bill? && e.seqNo <= |History(Gate(), streams, e.key)|
    ensures EventFits(e.key, StateOf(streams, cursors, e.key), e.payload.bill)
    ensures StateOf(streams, cursors[e.key := e.seqNo], e.key) == Apply(StateOf(streams, cursors, e.key), e.payload.bill)
  {
    hide Accepted, EventFits, Apply;
    var h := History(Gate(), streams, e.key);
    StoredIsInHistory(Gate(), streams, e);
    assert HealthyStream(e.key, StreamOf(streams, e.key));
    var c := e.seqNo - 1;
    var bills := Bills(h);
    assert Bills(h[..c]) == bills[..c] && Bills(h[..c + 1]) == bills[..c + 1];
    assert bills[c] == e.payload.bill && bills[..c + 1][..c] == bills[..c];
    InvoiceViews.PrefixAccepted(e.key, bills, c);
    AcceptedEventFits(e.key, bills[..c], bills[c]);
  }

  lemma UnappliedIsEmpty(streams: Streams<Payload>, cursors: map<StreamKey, nat>, key: StreamKey)
    requires CursorOf(cursors, key) == 0
    ensures StateOf(streams, cursors, key) == Invoicing.Empty(key.aggregate)
  {
    assert History(Gate(), streams, key)[..0] == [];
  }

  /** Only the stream whose cursor moves changes state. */
  lemma OthersKeepState(streams: Streams<Payload>, cursors: map<StreamKey, nat>, cursors': map<StreamKey, nat>, key: StreamKey)
    requires CursorOf(cursors', key) == CursorOf(cursors, key)
    ensures StateOf(streams, cursors', key) == StateOf(streams, cursors, key)
  {
  }

  /** The event is one `handle` can have returned on the invoice, and the projection knows the invoice. */
  ghost predicate Ready(m: Customers, key: StreamKey, s: InvoiceState, ev: Event) {
    && EventFits(key, s, ev)
    && s.totalPaid <= s.totalAmount
    && (s.created && s.status == Paid ==> s.totalPaid == s.totalAmount)
    && (s.created ==> key in m.mappings && Matches(m.mappings[key], s))
    && (!s.created ==> s == Invoicing.Empty(key.aggregate))
  }

  lemma EffectiveIsReady(streams: Streams<Payload>, m: Customers, e: Envelope)
    requires Healthy(streams) && Tracks(streams, m, e.key) && Orderly(streams, m, Receive(e))
    requires TakesEffect(Gate(), m.cursors, e)
    ensures e.seqNo == CursorOf(m.cursors, e.key) + 1 && e.payload.Bill?
    ensures Ready(m, e.key, StateOf(streams, m.cursors, e.key), e.payload.bill)
  {
    hide Healthy, StateOf, History, EventFits, Matches;
    ReachableState(streams, m.cursors, e.key);
    NextState(streams, m.cursors, e);
    if CursorOf(m.cursors, e.key) == 0 {
      UnappliedIsEmpty(streams, m.cursors, e.key);
    }
  }

  /** The party an effective event concerns. */
  function PartyOf(m: Customers, key: StreamKey, ev: Event): PartyKey
    requires ev.InvoiceIssued? || key in m.mappings
  {
    PartyKey(key.tenant, if ev.InvoiceIssued? then CustomerFor(m.mappings, key, ev) else m.mappings[key].customer)
  }

  lemma UpdateKeepsRecord(m: Customers, key: StreamKey, s: InvoiceState, ev: Event)
    requires Ready(m, key, s, ev)
    ensures var m' := Update(m, key, ev);
            && m'.cursors == m.cursors
            && key in m'.mappings
            && Matches(m'.mappings[key], Apply(s, ev))
            && PartyKey(key.tenant, m'.mappings[key].customer) == PartyOf(m, key, ev)
            && (forall k | k != key :: (k in m'.mappings <==> k in m.mappings) && (k in m.mappings ==> m'.mappings[k] == m.mappings[k]))
            && (forall party | party != PartyOf(m, key, ev) ::
                  (party in m'.balances <==> party in m.balances) && (party in m.balances ==> m'.balances[party] == m.balances[party]))
  {
  }

  /** What an effective event does to the projection. */
  lemma EffectiveUpdates(streams: Streams<Payload>, m: Customers, e: Envelope)
    requires Healthy(streams) && Tracks(streams, m, e.key) && Orderly(streams, m, Receive(e))
    requires TakesEffect(Gate(), m.cursors, e)
    ensures e.payload.Bill?
    ensures Act(m, Receive(e)) == Update(m, e.key, e.payload.bill).(cursors := m.cursors[e.key := e.seqNo])
    ensures StateOf(streams, Act(m, Receive(e)).cursors, e.key) == Apply(StateOf(streams, m.cursors, e.key), e.payload.bill)
    ensures e.seqNo <= |History(Gate(), streams, e.key)|
  {
    hide Healthy, StateOf, History, Update, Ready;
    EffectiveIsReady(streams, m, e);
    NextState(streams, m.cursors, e);
  }

  lemma IneffectiveChangesNothing(m: Customers, e: Envelope)
    requires !TakesEffect(Gate(), m.cursors, e)
    ensures Act(m, Receive(e)) == m
  {
  }

  lemma ReceiveKeepsTracks(streams: Streams<Payload>, m: Customers, e: Envelope, key: StreamKey)
    requires Healthy(streams) && Tracks(streams, m, e.key) && Tracks(streams, m, key) && Orderly(streams, m, Receive(e))
    requires TakesEffect(Gate(), m.cursors, e)
    ensures Tracks(streams, Act(m, Receive(e)), key)
  {
    hide Healthy, StateOf, History, Update, Ready, Matches, Act;
    EffectiveIsReady(streams, m, e);
    EffectiveUpdates(streams, m, e);
    UpdateKeepsRecord(m, e.key, StateOf(streams, m.cursors, e.key), e.payload.bill);
    if key != e.key {
      OthersKeepState(streams, m.cursors, Act(m, Receive(e)).cursors, key);
    }
  }

  lemma ActKeepsTracking(streams: Streams<Payload>, m: Customers, a: Action)
    requires Healthy(streams) && Tracking(streams, m) && Orderly(streams, m, a)
    ensures Tracking(streams, Act(m, a))
  {
    hide Healthy, StateOf, History;
    forall key
      ensures Tracks(streams, Act(m, a), key)
    {
      assert Tracks(streams, m, key);
      match a
      case Register(_, _) =>
      case Receive(e) =>
        hide Act, Tracks;
        if TakesEffect(Gate(), m.cursors, e) {
          ReceiveKeepsTracks(streams, m, e, key);
        } else {
          IneffectiveChangesNothing(m, e);
        }
    }
  }

  lemma RunUnfolds(actions: seq<Action>)
    requires actions != []
    ensures Run(actions) == Act(Run(actions[..|actions| - 1]), actions[|actions| - 1])
  {
  }

  lemma OrderlyInit(streams: Streams<Payload>, actions: seq<Action>)
    requires OrderlyRun(streams, actions) && actions != []
    ensures OrderlyRun(streams, actions[..|actions| - 1])
    ensures Orderly(streams, Run(actions[..|actions| - 1]), actions[|actions| - 1])
  {
    hide Orderly, Run;
    var init := actions[..|actions| - 1];
    assert forall i | 0 <= i < |init| :: init[..i] == actions[..i];
  }

  /** In every run each record carries its invoice's amounts or is blank. */
  lemma {:induction false} RunTracks(streams: Streams<Payload>, actions: seq<Action>)
    requires Healthy(streams) && OrderlyRun(streams, actions)
    ensures Tracking(streams, Run(actions))
  {
    hide Healthy, Act, Orderly;
    if actions != [] {
      OrderlyInit(streams, actions);
      RunTracks(streams, actions[..|actions| - 1]);
      ActKeepsTracking(streams, Run(actions[..|actions| - 1]), actions[|actions| - 1]);
    }
  }

  // ---------------------------------------------------------------------------
  // Sums per party
  // ---------------------------------------------------------------------------

  ghost function Weight(streams: Streams<Payload>, m: Customers, key: StreamKey, party: PartyKey, value: InvoiceState -> int): int {
    if key in m.mappings then Share(streams, m.cursors, party, value)(key, m.mappings[key]) else 0
  }

  /** Only the invoice that changes moves a sum. */
  lemma SumMoves(streams: Streams<Payload>, m: Customers, m': Customers, key: StreamKey, party: PartyKey, value: InvoiceState -> int)
    requires key in m'.mappings
    requires forall k | k != key ::
               && (k in m'.mappings <==> k in m.mappings)
               && (k in m.mappings ==> m'.mappings[k] == m.mappings[k])
               && CursorOf(m'.cursors, k) == CursorOf(m.cursors, k)
    ensures PartySum(streams, m', party, value) ==
              PartySum(streams, m, party, value) + Weight(streams, m', key, party, value) - Weight(streams, m, key, party, value)
  {
    hide MapSum, StateOf;
    var w, w' := Share(streams, m.cursors, party, value), Share(streams, m'.cursors, party, value);
    var rest := m.mappings - {key};
    assert m'.mappings - {key} == rest;
    MapSumSplit(m'.mappings, key, w');
    forall k | k in rest
      ensures w'(k, rest[k]) == w(k, rest[k])
    {
      OthersKeepState(streams, m.cursors, m'.cursors, k);
    }
    MapSumEqual(rest, rest, w', w);
    if key in m.mappings {
      MapSumSplit(m.mappings, key, w);
    } else {
      assert rest == m.mappings;
    }
  }

  lemma SumCovers(streams: Streams<Payload>, m: Customers, key: StreamKey, party: PartyKey, value: InvoiceState -> int)
    requires forall s :: value(s) >= 0
    ensures 0 <= Weight(streams, m, key, party, value) <= PartySum(streams, m, party, value)
  {
    hide MapSum, StateOf;
    var w := Share(streams, m.cursors, party, value);
    forall k | k in m.mappings
      ensures w(k, m.mappings[k]) >= 0
    {
      assert value(StateOf(streams, m.cursors, k)) >= 0;
    }
    MapSumBounds(m.mappings, w);
  }

  /** An effective event moves the sum of its party by what it changes of the invoice. */
  lemma ReceiveMovesSum(streams: Streams<Payload>, m: Customers, e: Envelope, party: PartyKey, value: InvoiceState -> int)
    requires Healthy(streams) && Tracks(streams, m, e.key) && Orderly(streams, m, Receive(e)) && TakesEffect(Gate(), m.cursors, e)
    requires value(Invoicing.Empty(e.key.aggregate)) == 0
    ensures e.payload.Bill? && Ready(m, e.key, StateOf(streams, m.cursors, e.key), e.payload.bill)
    ensures var s, m' := StateOf(streams, m.cursors, e.key), Act(m, Receive(e));
            PartySum(streams, m', party, value) ==
              PartySum(streams, m, party, value) +
              if party == PartyOf(m, e.key, e.payload.bill) then value(Apply(s, e.payload.bill)) - value(s) else 0
  {
    hide Healthy, StateOf, History, Update, Matches, PartySum, Act, Apply;
    var s, m' := StateOf(streams, m.cursors, e.key), Act(m, Receive(e));
    EffectiveIsReady(streams, m, e);
    EffectiveUpdates(streams, m, e);
    UpdateKeepsRecord(m, e.key, s, e.payload.bill);
    SumMoves(streams, m, m', e.key, party, value);
  }

  lemma RegisterMovesSum(streams: Streams<Payload>, m: Customers, key: StreamKey, customer: AggregateId, party: PartyKey, value: InvoiceState -> int)
    requires Tracks(streams, m, key) && value(Invoicing.Empty(key.aggregate)) == 0
    ensures var v := value(StateOf(streams, m.cursors, key));
            PartySum(streams, Registered(m, key, customer), party, value) ==
              PartySum(streams, m, party, value) + (if party == PartyKey(key.tenant, customer) then v else 0)
                - (if key in m.mappings && party == PartyKey(key.tenant, m.mappings[key].customer) then v else 0)
  {
    hide StateOf, PartySum, History;
    SumMoves(streams, m, Registered(m, key, customer), key, party, value);
    if key !in m.mappings {
      UnappliedIsEmpty(streams, m.cursors, key);
    }
  }

  // ---------------------------------------------------------------------------
  // One action
  // ---------------------------------------------------------------------------

  /**
   The amount of the party concerned: if it is exact before an event it is exact afterwards
   precisely when the new amount fits 64 bits and a void finds the due on record. No payment saturates.
   */
  lemma UpdateKeepsExact(m: Customers, key: StreamKey, s: InvoiceState, ev: Event, owed: int)
    requires Ready(m, key, s, ev)
    requires var own := PartyOf(m, key, ev); OutstandingOf(m, own) == owed && 0 <= Owes(s) <= owed
    ensures var own, after := PartyOf(m, key, ev), owed + Owes(Apply(s, ev)) - Owes(s);
            OutstandingOf(Update(m, key, ev), own) == after <==>
              after < U64_LIMIT && (ev.InvoiceVoided? ==> RecordedDue(m.mappings[key]) == s.Outstanding())
    ensures ev.PaymentRegistered? ==> ev.amount <= owed && OutstandingOf(Update(m, key, ev), PartyOf(m, key, ev)) == owed - ev.amount
  {
  }

  lemma ReceiveKeepsExact(streams: Streams<Payload>, m: Customers, e: Envelope)
    requires Healthy(streams) && Tracking(streams, m) && Orderly(streams, m, Receive(e)) && AmountsExact(streams, m)
    requires TakesEffect(Gate(), m.cursors, e)
    ensures var m' := Act(m, Receive(e)); AmountsExact(streams, m') <==> AmountsFit(streams, m') && Safe(streams, m, Receive(e))
  {
    hide Healthy, StateOf, History, Update, PartySum, Act, Apply, Matches, RecordedDue;
    var m', ev, s := Act(m, Receive(e)), e.payload.bill, StateOf(streams, m.cursors, e.key);
    assert Tracks(streams, m, e.key);
    EffectiveUpdates(streams, m, e);
    EffectiveIsReady(streams, m, e);
    var own := PartyOf(m, e.key, ev);
    forall party
      ensures Owed(streams, m', party) == Owed(streams, m, party) + if party == own then Owes(Apply(s, ev)) - Owes(s) else 0
    {
      ReceiveMovesSum(streams, m, e, party, Owes);
    }
    OwnWeight(streams, m, e.key, own, s, ev);
    assert OutstandingOf(m, own) == Owed(streams, m, own);
    UpdateKeepsExact(m, e.key, s, ev, Owed(streams, m, own));
    UpdateKeepsRecord(m, e.key, s, ev);
    forall party | party != own
      ensures OutstandingOf(m', party) == Owed(streams, m', party) < U64_LIMIT
    {
      assert OutstandingOf(m, party) == Owed(streams, m, party);
    }
    assert OutstandingOf(m', own) == OutstandingOf(Update(m, e.key, ev), own);
  }

  lemma OwnWeight(streams: Streams<Payload>, m: Customers, key: StreamKey, own: PartyKey, s: InvoiceState, ev: Event)
    requires Ready(m, key, s, ev) && s == StateOf(streams, m.cursors, key) && own == PartyOf(m, key, ev)
    ensures 0 <= Owes(s) <= Owed(streams, m, own)
  {
    hide StateOf, PartySum, EventFits, Matches;
    SumCovers(streams, m, key, own, Owes);
  }

  lemma RegisterKeepsExact(streams: Streams<Payload>, m: Customers, key: StreamKey, customer: AggregateId)
    requires Tracking(streams, m) && AmountsExact(streams, m)
    ensures var m' := Registered(m, key, customer);
            AmountsExact(streams, m') <==> AmountsFit(streams, m') && Safe(streams, m, Register(key, customer))
  {
    hide StateOf, PartySum, History, Tracks;
    var m', v := Registered(m, key, customer), Owes(StateOf(streams, m.cursors, key));
    assert Tracks(streams, m, key);
    forall party
      ensures Owed(streams, m', party) ==
                Owed(streams, m, party) + (if party == PartyKey(key.tenant, customer) then v else 0)
                  - (if key in m.mappings && party == PartyKey(key.tenant, m.mappings[key].customer) then v else 0)
      ensures OutstandingOf(m', party) == OutstandingOf(m, party) == Owed(streams, m, party)
    {
      RegisterMovesSum(streams, m, key, customer, party, Owes);
    }
    UnrecordedOwesNothing(streams, m, key);
    if !Safe(streams, m, Register(key, customer)) {
      ghost var own := PartyKey(key.tenant, m.mappings[key].customer);
      assert OutstandingOf(m', own) != Owed(streams, m', own);
    }
  }

  lemma UnrecordedOwesNothing(streams: Streams<Payload>, m: Customers, key: StreamKey)
    requires Tracks(streams, m, key)
    ensures key !in m.mappings ==> Owes(StateOf(streams, m.cursors, key)) == 0
  {
    hide StateOf, History;
    if key !in m.mappings {
      UnappliedIsEmpty(streams, m.cursors, key);
    }
  }

  lemma ActKeepsExact(streams: Streams<Payload>, m: Customers, a: Action)
    requires Healthy(streams) && Tracking(streams, m) && Orderly(streams, m, a) && AmountsExact(streams, m)
    ensures AmountsExact(streams, Act(m, a)) <==> AmountsFit(streams, Act(m, a)) && Safe(streams, m, a)
  {
    hide Healthy, Tracking, Owed, StateOf;
    match a
    case Register(key, customer) => RegisterKeepsExact(streams, m, key, customer);
    case Receive(e) =>
      hide Act;
      if TakesEffect(Gate(), m.cursors, e) {
        ReceiveKeepsExact(streams, m, e);
      } else {
        IneffectiveChangesNothing(m, e);
        ExactFits(streams, m);
      }
  }

  lemma ExactFits(streams: Streams<Payload>, m: Customers)
    requires AmountsExact(streams, m)
    ensures AmountsFit(streams, m)
  {
    hide Owed;
    forall party
      ensures Owed(streams, m, party) < U64_LIMIT
    {
      assert OutstandingOf(m, party) == Owed(streams, m, party);
    }
  }

  // ---------------------------------------------------------------------------
  // Whole runs
  // ---------------------------------------------------------------------------

  ghost predicate AlwaysExact(streams: Streams<Payload>, actions: seq<Action>) {
    forall i | 0 <= i <= |actions| :: AmountsExact(streams, Run(actions[..i]))
  }

  ghost predicate AlwaysFits(streams: Streams<Payload>, actions: seq<Action>) {
    forall i | 0 <= i <= |actions| :: AmountsFit(streams, Run(actions[..i]))
  }

  ghost predicate AlwaysSafe(streams: Streams<Payload>, actions: seq<Action>) {
    forall i | 0 <= i < |actions| :: Safe(streams, Run(actions[..i]), actions[i])
  }

  lemma AlwaysSplits(streams: Streams<Payload>, actions: seq<Action>)
    requires actions != []
    ensures var init, a := actions[..|actions| - 1], actions[|actions| - 1];
            && (AlwaysExact(streams, actions) <==> AlwaysExact(streams, init) && AmountsExact(streams, Run(actions)))
            && (AlwaysFits(streams, actions) <==> AlwaysFits(streams, init) && AmountsFit(streams, Run(actions)))
            && (AlwaysSafe(streams, actions) <==> AlwaysSafe(streams, init) && Safe(streams, Run(init), a))
            && (AlwaysExact(streams, init) ==> AmountsExact(streams, Run(init)))
  {
    hide AmountsExact, AmountsFit, Safe, Run;
    var init := actions[..|actions| - 1];
    assert forall i | 0 <= i <= |init| :: init[..i] == actions[..i];
    assert init[..|init|] == init && actions[..|actions|] == actions;
    if AlwaysExact(streams, init) && AmountsExact(streams, Run(actions)) {
      forall i | 0 <= i <= |actions|
        ensures AmountsExact(streams, Run(actions[..i]))
      {
        assert i < |actions| ==> AmountsExact(streams, Run(init[..i]));
      }
    }
    if AlwaysFits(streams, init) && AmountsFit(streams, Run(actions)) {
      forall i | 0 <= i <= |actions|
        ensures AmountsFit(streams, Run(actions[..i]))
      {
        assert i < |actions| ==> AmountsFit(streams, Run(init[..i]));
      }
    }
  }

  lemma StartIsExact(streams: Streams<Payload>)
    ensures AmountsExact(streams, Run([])) && AmountsFit(streams, Run([]))
  {
  }

  /**
   For every run over accepted invoice histories, however the invoices and registrations interleave:
   each customer's outstanding amount equals what the invoice aggregates recorded under it have left
   to pay, after every action, exactly when those sums always fit 64 bits and every action is safe.
   */
  lemma {:induction false} BalancesExactIff(streams: Streams<Payload>, actions: seq<Action>)
    requires Healthy(streams) && OrderlyRun(streams, actions)
    ensures AlwaysExact(streams, actions) <==> AlwaysFits(streams, actions) && AlwaysSafe(streams, actions)
  {
    hide Healthy, Act, AmountsExact, AmountsFit, Safe, Orderly, Tracking, Run, OrderlyRun;
    if actions == [] {
      StartIsExact(streams);
      assert actions[..0] == [];
    } else {
      hide AlwaysExact, AlwaysFits, AlwaysSafe;
      var n := |actions| - 1;
      var init := actions[..n];
      OrderlyInit(streams, actions);
      BalancesExactIff(streams, init);
      RunTracks(streams, init);
      RunUnfolds(actions);
      AlwaysSplits(streams, actions);
      if AlwaysExact(streams, init) {
        ActKeepsExact(streams, Run(init), actions[n]);
      }
    }
  }

  /** Along an exact run no subtraction from an outstanding amount saturates. */
  lemma NothingSaturates(streams: Streams<Payload>, actions: seq<Action>, i: nat)
    requires Healthy(streams) && OrderlyRun(streams, actions) && AlwaysExact(streams, actions)
    requires i < |actions| && actions[i].Receive? && TakesEffect(Gate(), Run(actions[..i]).cursors, actions[i].envelope)
    ensures var m, e := Run(actions[..i]), actions[i].envelope;
            && e.payload.Bill?
            && (e.payload.bill.InvoiceIssued? || e.key in m.mappings)
            && var own := PartyOf(m, e.key, e.payload.bill);
               && (e.payload.bill.PaymentRegistered? ==> e.payload.bill.amount <= OutstandingOf(m, own))
               && (e.payload.bill.InvoiceVoided? ==> RecordedDue(m.mappings[e.key]) <= OutstandingOf(m, own))
  {
    hide Healthy, Run, StateOf, History, AlwaysFits, PartySum, Update, Matches;
    var m, e := Run(actions[..i]), actions[i].envelope;
    PrefixIsOrderly(streams, actions, i);
    RunTracks(streams, actions[..i]);
    assert Orderly(streams, m, actions[i]);
    assert Tracks(streams, m, e.key);
    EffectiveIsReady(streams, m, e);
    var s, ev := StateOf(streams, m.cursors, e.key), e.payload.bill;
    var own := PartyOf(m, e.key, ev);
    OwnWeight(streams, m, e.key, own, s, ev);
    assert AmountsExact(streams, m) && OutstandingOf(m, own) == Owed(streams, m, own);
    UpdateKeepsExact(m, e.key, s, ev, Owed(streams, m, own));
    BalancesExactIff(streams, actions);
    assert Safe(streams, m, actions[i]);
  }

  lemma PrefixIsOrderly(streams: Streams<Payload>, actions: seq<Action>, i: nat)
    requires OrderlyRun(streams, actions) && i <= |actions|
    ensures OrderlyRun(streams, actions[..i])
  {
    hide Orderly, Run;
    assert forall j | 0 <= j < i :: actions[..i][..j] == actions[..j];
  }

  // ---------------------------------------------------------------------------
  // Registrations of settled invoices
  // ---------------------------------------------------------------------------

  /** Registrations hit only invoices that owe nothing, for instance before they are issued. */
  ghost predicate SettledRegistrations(streams: Streams<Payload>, actions: seq<Action>) {
    forall i | 0 <= i < |actions| && actions[i].Register? ::
      Owes(StateOf(streams, Run(actions[..i]).cursors, actions[i].key)) == 0
  }

  predicate Agrees(mapping: Mapping, s: InvoiceState) {
    s.status == Void || RecordedDue(mapping) == s.Outstanding()
  }

  ghost predicate Agreeing(streams: Streams<Payload>, m: Customers) {
    forall key | key in m.mappings :: Agrees(m.mappings[key], StateOf(streams, m.cursors, key))
  }

  lemma UpdateAgrees(m: Customers, key: StreamKey, s: InvoiceState, ev: Event)
    requires Ready(m, key, s, ev) && (key in m.mappings ==> Agrees(m.mappings[key], s))
    ensures key in Update(m, key, ev).mappings && Agrees(Update(m, key, ev).mappings[key], Apply(s, ev))
  {
  }

  lemma ActKeepsAgreeing(streams: Streams<Payload>, m: Customers, a: Action)
    requires Healthy(streams) && Tracking(streams, m) && Orderly(streams, m, a) && Agreeing(streams, m)
    requires a.Register? ==> Owes(StateOf(streams, m.cursors, a.key)) == 0
    ensures Agreeing(streams, Act(m, a)) && Safe(streams, m, a)
  {
    hide Healthy, StateOf, History, EventFits;
    match a
    case Register(_, _) =>
    case Receive(e) =>
      hide Act, Update, RecordedDue, Matches;
      if TakesEffect(Gate(), m.cursors, e) {
        assert Tracks(streams, m, e.key);
        EffectiveIsReady(streams, m, e);
        EffectiveUpdates(streams, m, e);
        var m' := Act(m, a);
        UpdateKeepsRecord(m, e.key, StateOf(streams, m.cursors, e.key), e.payload.bill);
        UpdateAgrees(m, e.key, StateOf(streams, m.cursors, e.key), e.payload.bill);
        forall key | key in m'.mappings
          ensures Agrees(m'.mappings[key], StateOf(streams, m'.cursors, key))
        {
          if key != e.key {
            OthersKeepState(streams, m.cursors, m'.cursors, key);
          }
        }
        VoidMeetsLive(m, e.key, StateOf(streams, m.cursors, e.key), e.payload.bill);
      } else {
        IneffectiveChangesNothing(m, e);
      }
  }

  lemma VoidMeetsLive(m: Customers, key: StreamKey, s: InvoiceState, ev: Event)
    requires Ready(m, key, s, ev)
    ensures ev.InvoiceVoided? ==> s.status != Void
  {
  }

  lemma {:induction false} SettledIsSafe(streams: Streams<Payload>, actions: seq<Action>)
    requires Healthy(streams) && OrderlyRun(streams, actions) && SettledRegistrations(streams, actions)
    ensures AlwaysSafe(streams, actions) && Agreeing(streams, Run(actions))
  {
    hide Healthy, Act, Safe, Orderly, Tracking, Run, OrderlyRun, StateOf;
    if actions == [] {
      NothingRecorded();
    } else {
      var n := |actions| - 1;
      var init := actions[..n];
      assert forall i | 0 <= i < n :: init[..i] == actions[..i] && init[i] == actions[i];
      OrderlyInit(streams, actions);
      SettledIsSafe(streams, init);
      RunTracks(streams, init);
      RunUnfolds(actions);
      ActKeepsAgreeing(streams, Run(init), actions[n]);
      AlwaysSplits(streams, actions);
    }
  }

  lemma NothingRecorded()
    ensures Run([]).mappings == map[]
  {
  }

  /** If registrations hit only settled invoices, the amounts are exact exactly as long as they fit 64 bits. */
  lemma SettledExactIffFits(streams: Streams<Payload>, actions: seq<Action>)
    requires Healthy(streams) && OrderlyRun(streams, actions) && SettledRegistrations(streams, actions)
    ensures AlwaysExact(streams, actions) <==> AlwaysFits(streams, actions)
  {
    hide Healthy, OrderlyRun, SettledRegistrations, AlwaysExact, AlwaysFits, AlwaysSafe;
    BalancesExactIff(streams, actions);
    SettledIsSafe(streams, actions);
  }

  // ---------------------------------------------------------------------------
  // The projection object
  // ---------------------------------------------------------------------------

  class CustomerBalancesProjection {
    var balances: Balances
    var mappings: Mappings
    var cursors: map<StreamKey, nat>

    function Model(): Customers
      reads this
    {
      Customers(balances, mappings, cursors)
    }

    constructor ()
      ensures Model() == NoCustomers()
    {
      balances, mappings, cursors := map[], map[], map[];
    }

    method RegisterInvoiceCustomer(key: StreamKey, customer: AggregateId)
      modifies this
      ensures Model() == Registered(old(Model()), key, customer)
    {
      mappings := mappings[key := Mapping(customer, 0, 0, Open)];
    }

    method ApplyEnvelope(e: Envelope) returns (r: Option<ProjectionError>)
      modifies this
      ensures match ApplyBill(old(Model()), e)
              case Ok(after) => r.None? && Model() == after
              case Err(fault) => r == Some(fault) && Model() == old(Model())
    {
      if e.kind != InvoiceType {
        return None;
      }
      var last := CursorOf(cursors, e.key);
      if e.seqNo == 0 {
        return Some(NonMonotonicSequence(last, e.seqNo));
      }
      if e.seqNo <= last {
        return None;
      }
      if e.seqNo != last + 1 && last != 0 {
        return Some(NonMonotonicSequence(last, e.seqNo));
      }
      if !e.payload.Bill? {
        return Some(DeserializeError);
      }
      if e.payload.bill.tenant != e.key.tenant {
        return Some(TenantIsolationError);
      }
      match e.payload.bill {
        case InvoiceIssued(_, _, salesOrder, _, _, amount, _) => Issue(e.key, salesOrder, amount);
        case PaymentRegistered(_, _, amount, newTotalPaid, _) => Pay(e.key, amount, newTotalPaid);
        case InvoiceVoided(_, _, _, _) => CancelInvoice(e.key);
      }
      cursors := cursors[e.key := e.seqNo];
      return None;
    }

    method Issue(key: StreamKey, salesOrder: AggregateId, amount: U64)
      modifies this`balances, this`mappings
      ensures forall ev: Event | ev.InvoiceIssued? && ev.salesOrder == salesOrder && ev.totalAmount == amount ::
                Model() == OnIssued(old(Model()), key, ev)
    {
      var customer := if key in mappings then mappings[key].customer else salesOrder;
      mappings := mappings[key := Mapping(customer, amount, 0, Open)];
      var party := PartyKey(key.tenant, customer);
      var balance := if party in balances then balances[party] else CustomerBalance(customer, 0, 0, 0, 0);
      balance := balance.(totalInvoiced := WrapAdd64(balance.totalInvoiced, amount));
      balance := balance.(outstanding := WrapAdd64(balance.outstanding, amount));
      balance := balance.(openCount := WrapAdd32(balance.openCount, 1));
      balances := balances[party := balance];
    }

    method Pay(key: StreamKey, amount: U64, newTotalPaid: U64)
      modifies this`balances, this`mappings
      ensures forall ev: Event | ev.PaymentRegistered? && ev.amount == amount && ev.newTotalPaid == newTotalPaid ::
                Model() == OnPayment(old(Model()), key, ev)
    {
      if key in mappings {
        var mapping := mappings[key];
        mappings := mappings[key := mapping.(totalPaid := newTotalPaid)];
        if newTotalPaid >= mapping.totalAmount {
          mappings := mappings[key := mappings[key].(status := Paid)];
        }
        var party := PartyKey(key.tenant, mapping.customer);
        if party in balances {
          var balance := balances[party];
          balance := balance.(totalPaid := WrapAdd64(balance.totalPaid, amount));
          balance := balance.(outstanding := SaturatingSub(balance.outstanding, amount));
          if newTotalPaid >= mapping.totalAmount {
            balance := balance.(openCount := SaturatingSub(balance.openCount, 1));
          }
          balances := balances[party := balance];
        }
      }
    }

    method CancelInvoice(key: StreamKey)
      modifies this`balances, this`mappings
      ensures forall ev: Event | ev.InvoiceVoided? :: Model() == OnVoided(old(Model()), key, ev)
    {
      if key in mappings {
        var mapping := mappings[key];
        mappings := mappings[key := mapping.(status := Void)];
        var party := PartyKey(key.tenant, mapping.customer);
        if party in balances {
          var balance := balances[party];
          var due := SaturatingSub(mapping.totalAmount, mapping.totalPaid);
          balance := balance.(outstanding := SaturatingSub(balance.outstanding, due));
          balance := balance.(openCount := SaturatingSub(balance.openCount, 1));
          balances := balances[party := balance];
        }
      }
    }
  }
}
