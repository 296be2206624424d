/**
 `rebuild_from_scratch` of the customer balances projection
 (crates/infra/src/projections/customer_balances.rs): it clears the invoice records of every tenant.
 */
module CustomerRebuild {
  import opened Core
  import opened EventStore
  import opened Sorting
  import opened Sums
  import opened CursorProjection
  import opened ErpPayloads
  import opened Invoicing
  import opened CustomerBalances
  import opened CustomerTotals

  function ClearCustomers(m: Customers, tenants: set<TenantId>): Customers {
    Customers(map k | k in m.balances && k.tenant !in tenants :: m.balances[k],
              map[],
              map k | k in m.cursors && k.tenant !in tenants :: m.cursors[k])
  }

  /** Applies envelopes until one fails. */
  function ReplayBills(m: Customers, envelopes: seq<Envelope>): (Customers, Option<ProjectionError>) {
    if envelopes == [] then (m, None)
    else
      var n := |envelopes| - 1;
      var before := ReplayBills(m, envelopes[..n]);
      if before.1.Some? then before
      else
        match ApplyBill(before.0, envelopes[n])
        case Ok(after) => (after, None)
        case Err(fault) => (before.0, Some(fault))
  }

  function RebuildCustomers(m: Customers, envelopes: seq<Envelope>): (Customers, Option<ProjectionError>) {
    ReplayBills(ClearCustomers(m, TenantsOf(envelopes)), SortBy(envelopes, StreamOrder))
  }

  lemma {:induction false} FailureEndsReplay(m: Customers, envelopes: seq<Envelope>, i: nat)
    requires i <= |envelopes| && ReplayBills(m, envelopes[..i]).1.Some?
    ensures ReplayBills(m, envelopes) == ReplayBills(m, envelopes[..i])
  {
    hide ApplyBill;
    if i == |envelopes| {
      assert envelopes[..i] == envelopes;
    } else {
      var n := |envelopes| - 1;
      assert envelopes[..n][..i] == envelopes[..i];
      FailureEndsReplay(m, envelopes[..n], i);
    }
  }

  method RebuildFromScratch(projection: CustomerBalancesProjection, envelopes: seq<Envelope>) returns (r: Option<ProjectionError>)
    modifies projection
    ensures (projection.Model(), r) == RebuildCustomers(old(projection.Model()), envelopes)
  {
    hide SortBy, ApplyBill;
    var tenants := TenantsOf(envelopes);
    projection.balances := map k | k in projection.balances && k.tenant !in tenants :: projection.balances[k];
    projection.cursors := map k | k in projection.cursors && k.tenant !in tenants :: projection.cursors[k];
    projection.mappings := map[];
    ghost var cleared := projection.Model();
    assert cleared == ClearCustomers(old(projection.Model()), tenants);
    var sorted := SortBy(envelopes, StreamOrder);
    for i := 0 to |sorted|
      invariant ReplayBills(cleared, sorted[..i]) == (projection.Model(), None)
    {
      assert sorted[..i + 1][..i] == sorted[..i];
      var fault := projection.ApplyEnvelope(sorted[i]);
      if fault.Some? {
        FailureEndsReplay(cleared, sorted, i + 1);
        return fault;
      }
    }
    assert sorted[..|sorted|] == sorted;
    return None;
  }

  // ---------------------------------------------------------------------------
  // The tenants that are not rebuilt
  // ---------------------------------------------------------------------------

  ghost predicate Forgotten(m: Customers, cleared: Customers, tenant: TenantId) {
    && (forall key: StreamKey | key.tenant == tenant :: key !in m.mappings && CursorOf(m.cursors, key) == CursorOf(cleared.cursors, key))
    && (forall party: PartyKey | party.tenant == tenant ::
          OutstandingOf(m, party) == OutstandingOf(cleared, party) && (party in m.balances <==> party in cleared.balances))
  }

  lemma UpdateStaysInTenant(m: Customers, cleared: Customers, key: StreamKey, ev: Event, tenant: TenantId)
    requires Forgotten(m, cleared, tenant) && key.tenant != tenant
    ensures Forgotten(Update(m, key, ev), cleared, tenant)
  {
    hide WrapAdd64, WrapAdd32, SaturatingSub;
  }

  lemma ApplyStaysInTenant(m: Customers, cleared: Customers, e: Envelope, tenant: TenantId)
    requires Forgotten(m, cleared, tenant) && e.key.tenant != tenant && ApplyBill(m, e).Ok?
    ensures Forgotten(ApplyBill(m, e).value, cleared, tenant)
  {
    hide Update;
    if TakesEffect(Gate(), m.cursors, e) {
      UpdateStaysInTenant(m, cleared, e.key, e.payload.bill, tenant);
      UpdateKeepsCursors(m, e.key, e.payload.bill);
    }
  }

  lemma {:induction false} ReplayForgets(m: Customers, envelopes: seq<Envelope>, tenant: TenantId)
    requires Forgotten(m, m, tenant)
    requires forall i | 0 <= i < |envelopes| :: envelopes[i].key.tenant != tenant
    ensures Forgotten(ReplayBills(m, envelopes).0, m, tenant)
  {
    hide ApplyBill, Forgotten;
    if envelopes != [] {
      var n := |envelopes| - 1;
      ReplayForgets(m, envelopes[..n], tenant);
      var before := ReplayBills(m, envelopes[..n]);
      if before.1.None? && ApplyBill(before.0, envelopes[n]).Ok? {
        ApplyStaysInTenant(before.0, m, envelopes[n], tenant);
      }
    }
  }

  /**
   After rebuilding some tenants, every later payment or voiding of another tenant's invoice is
   acknowledged, moves the cursor, and changes no balance.
   */
  lemma RebuildLosesOtherTenants(m: Customers, envelopes: seq<Envelope>, e: Envelope)
    requires e.key.tenant !in TenantsOf(envelopes)
    requires e.payload.Bill? && !e.payload.bill.InvoiceIssued?
    requires TakesEffect(Gate(), RebuildCustomers(m, envelopes).0.cursors, e)
    ensures var rebuilt := RebuildCustomers(m, envelopes).0;
            && ApplyBill(rebuilt, e).Ok?
            && ApplyBill(rebuilt, e).value == rebuilt.(cursors := rebuilt.cursors[e.key := e.seqNo])
    ensures forall party: PartyKey | party.tenant == e.key.tenant ::
              OutstandingOf(RebuildCustomers(m, envelopes).0, party) == OutstandingOf(m, party)
  {
    hide SortBy, ReplayBills;
    var cleared := ClearCustomers(m, TenantsOf(envelopes));
    var sorted := SortBy(envelopes, StreamOrder);
    StreamOrderIsTotal<Payload>();
    SortBySameMembers(envelopes, StreamOrder);
    SameMembersSameTenants(sorted, envelopes);
    forall i | 0 <= i < |sorted|
      ensures sorted[i].key.tenant != e.key.tenant
    {
      assert sorted[i].key.tenant in TenantsOf(sorted);
    }
    ReplayForgets(cleared, sorted, e.key.tenant);
    assert e.key !in ReplayBills(cleared, sorted).0.mappings;
  }

  // ---------------------------------------------------------------------------
  // The tenants that are rebuilt
  // ---------------------------------------------------------------------------

  function Receipts(envelopes: seq<Envelope>): seq<Action> {
    seq(|envelopes|, i requires 0 <= i < |envelopes| => Receive(envelopes[i]))
  }

  /** The two projections hold the same of the tenants: invoices, cursors and balances. */
  ghost predicate AlikeOn(m: Customers, n: Customers, tenants: set<TenantId>) {
    && (forall key: StreamKey | key.tenant in tenants ::
          && CursorOf(m.cursors, key) == CursorOf(n.cursors, key)
          && (key in m.mappings <==> key in n.mappings)
          && (key in m.mappings ==> m.mappings[key] == n.mappings[key]))
    && (forall party: PartyKey | party.tenant in tenants ::
          && (party in m.balances <==> party in n.balances)
          && (party in m.balances ==> m.balances[party] == n.balances[party]))
  }

  lemma IssueKeepsAlike(m: Customers, n: Customers, tenants: set<TenantId>, key: StreamKey, ev: Event)
    requires AlikeOn(m, n, tenants) && key.tenant in tenants && ev.InvoiceIssued?
    ensures AlikeOn(OnIssued(m, key, ev), OnIssued(n, key, ev), tenants)
  {
  }

  lemma PaymentKeepsAlike(m: Customers, n: Customers, tenants: set<TenantId>, key: StreamKey, ev: Event)
    requires AlikeOn(m, n, tenants) && key.tenant in tenants && ev.PaymentRegistered?
    ensures AlikeOn(OnPayment(m, key, ev), OnPayment(n, key, ev), tenants)
  {
  }

  lemma VoidKeepsAlike(m: Customers, n: Customers, tenants: set<TenantId>, key: StreamKey, ev: Event)
    requires AlikeOn(m, n, tenants) && key.tenant in tenants && ev.InvoiceVoided?
    ensures AlikeOn(OnVoided(m, key, ev), OnVoided(n, key, ev), tenants)
  {
  }

  lemma UpdateKeepsCursors(m: Customers, key: StreamKey, ev: Event)
    ensures Update(m, key, ev).cursors == m.cursors
  {
  }

  lemma UpdateKeepsAlike(m: Customers, n: Customers, tenants: set<TenantId>, key: StreamKey, ev: Event)
    requires AlikeOn(m, n, tenants) && key.tenant in tenants
    ensures AlikeOn(Update(m, key, ev), Update(n, key, ev), tenants)
  {
    hide AlikeOn, OnIssued, OnPayment, OnVoided;
    match ev
    case InvoiceIssued(_, _, _, _, _, _, _) => IssueKeepsAlike(m, n, tenants, key, ev);
    case PaymentRegistered(_, _, _, _, _) => PaymentKeepsAlike(m, n, tenants, key, ev);
    case InvoiceVoided(_, _, _, _) => VoidKeepsAlike(m, n, tenants, key, ev);
  }

  lemma CursorKeepsAlike(m: Customers, n: Customers, tenants: set<TenantId>, key: StreamKey, c: nat)
    requires AlikeOn(m, n, tenants)
    ensures AlikeOn(m.(cursors := m.cursors[key := c]), n.(cursors := n.cursors[key := c]), tenants)
  {
  }

  lemma AlikeAdmits(m: Customers, n: Customers, tenants: set<TenantId>, key: StreamKey)
    requires AlikeOn(m, n, tenants) && key.tenant in tenants
    ensures CursorOf(m.cursors, key) == CursorOf(n.cursors, key)
  {
  }

  /** An envelope of a tenant fares alike in both. */
  lemma ApplyKeepsAlike(m: Customers, n: Customers, tenants: set<TenantId>, e: Envelope)
    requires AlikeOn(m, n, tenants) && e.key.tenant in tenants
    ensures match ApplyBill(m, e)
            case Ok(m') => ApplyBill(n, e).Ok? && AlikeOn(m', ApplyBill(n, e).value, tenants)
            case Err(fault) => ApplyBill(n, e) == Err(fault)
  {
    hide Update, AlikeOn;
    AlikeAdmits(m, n, tenants, e.key);
    if TakesEffect(Gate(), m.cursors, e) {
      var ev := e.payload.bill;
      UpdateKeepsAlike(m, n, tenants, e.key, ev);
      UpdateKeepsCursors(m, e.key, ev);
      UpdateKeepsCursors(n, e.key, ev);
      CursorKeepsAlike(Update(m, e.key, ev), Update(n, e.key, ev), tenants, e.key, e.seqNo);
    }
  }

  lemma {:induction false} ReplayKeepsAlike(m: Customers, n: Customers, tenants: set<TenantId>, envelopes: seq<Envelope>)
    requires AlikeOn(m, n, tenants) && forall i | 0 <= i < |envelopes| :: envelopes[i].key.tenant in tenants
    ensures AlikeOn(ReplayBills(m, envelopes).0, ReplayBills(n, envelopes).0, tenants)
    ensures ReplayBills(m, envelopes).1 == ReplayBills(n, envelopes).1
  {
    hide ApplyBill, AlikeOn;
    if envelopes != [] {
      var k := |envelopes| - 1;
      ReplayKeepsAlike(m, n, tenants, envelopes[..k]);
      ApplyKeepsAlike(ReplayBills(m, envelopes[..k]).0, ReplayBills(n, envelopes[..k]).0, tenants, envelopes[k]);
    }
  }

  lemma ClearedIsAlike(m: Customers, tenants: set<TenantId>)
    ensures AlikeOn(ClearCustomers(m, tenants), NoCustomers(), tenants)
  {
  }

  lemma ApplyFollowsGate(m: Customers, e: Envelope)
    ensures match ApplyTo(Gate(), m.Gate(), e)
            case Ok(gate) => ApplyBill(m, e).Ok? && ApplyBill(m, e).value.Gate() == gate && Act(m, Receive(e)) == ApplyBill(m, e).value
            case Err(fault) => ApplyBill(m, e) == Err(fault)
  {
    hide Update;
  }

  lemma {:induction false} ReplayIsRun(envelopes: seq<Envelope>)
    requires Replay(Gate(), Blank(), envelopes).1.None?
    ensures ReplayBills(NoCustomers(), envelopes) == (Run(Receipts(envelopes)), None)
    ensures Replay(Gate(), Blank(), envelopes).0 == Run(Receipts(envelopes)).Gate()
  {
    hide ApplyBill, ApplyTo, Act;
    if envelopes != [] {
      var n := |envelopes| - 1;
      ReplayIsRun(envelopes[..n]);
      assert Receipts(envelopes)[..n] == Receipts(envelopes[..n]);
      ApplyFollowsGate(Run(Receipts(envelopes[..n])), envelopes[n]);
    }
  }

  /** In stream order event 1 of an invoice comes first. */
  lemma SortedIsOrderly(streams: Streams<Payload>, tenants: set<TenantId>, sorted: seq<Envelope>, i: nat)
    requires Clean(Gate(), streams) && Complete(InvoiceType, tenants, streams, sorted) && Sorted(sorted, StreamOrder)
    requires i < |sorted|
    ensures Orderly(streams, Run(Receipts(sorted)[..i]), Receipts(sorted)[i])
  {
    hide Replay, Sorted, Clean, ClearTenants, Run, Rebuilding;
    var start := ClearTenants<()>(Blank(), tenants);
    StartsBlank(tenants);
    ClearedStart(Gate(), streams, Blank(), tenants, sorted);
    ReplaySucceeds(Gate(), streams, Blank(), tenants, start, sorted, i);
    ReplayIsRun(sorted[..i]);
    assert Receipts(sorted)[..i] == Receipts(sorted[..i]);
    var e := sorted[i];
    assert InStore(streams, e);
    if e.kind == InvoiceType {
      PredecessorApplied(Gate(), streams, Blank(), tenants, sorted, i, Run(Receipts(sorted[..i])).Gate());
    }
  }

  lemma StartsBlank(tenants: set<TenantId>)
    ensures ClearTenants<()>(Blank(), tenants) == Blank()
  {
  }

  lemma SortedRunIsOrderly(streams: Streams<Payload>, tenants: set<TenantId>, sorted: seq<Envelope>)
    requires Clean(Gate(), streams) && Complete(InvoiceType, tenants, streams, sorted) && Sorted(sorted, StreamOrder)
    ensures OrderlyRun(streams, Receipts(sorted))
  {
    hide Clean, Complete, Sorted, Orderly, Run;
    forall i | 0 <= i < |Receipts(sorted)|
      ensures Orderly(streams, Run(Receipts(sorted)[..i]), Receipts(sorted)[i])
    {
      SortedIsOrderly(streams, tenants, sorted, i);
    }
  }

  /** The run that rebuilds: the sorted envelopes received from nothing. */
  ghost function RebuildRun(envelopes: seq<Envelope>): seq<Action> {
    Receipts(SortBy(envelopes, StreamOrder))
  }

  /** Replaying the sorted complete streams from nothing is an orderly run to the end of every invoice. */
  lemma SortedReplayIsRun(streams: Streams<Payload>, envelopes: seq<Envelope>)
    requires Healthy(streams) && Complete(InvoiceType, TenantsOf(envelopes), streams, envelopes)
    ensures ReplayBills(NoCustomers(), SortBy(envelopes, StreamOrder)) == (Run(RebuildRun(envelopes)), None)
    ensures OrderlyRun(streams, RebuildRun(envelopes))
    ensures forall key: StreamKey | key.tenant in TenantsOf(envelopes) ::
              CursorOf(Run(RebuildRun(envelopes)).cursors, key) == |History(Gate(), streams, key)|
  {
    hide Healthy, Clean, Complete, Sorted, SortBy, Replay, ReplayBills, Run, History, TenantsOf, OrderlyRun, ClearTenants;
    var tenants := TenantsOf(envelopes);
    var sorted := SortBy(envelopes, StreamOrder);
    HealthyIsClean(streams);
    SortedComplete(InvoiceType, tenants, streams, envelopes);
    SortedRunIsOrderly(streams, tenants, sorted);
    ReplayRestores(Gate(), streams, Blank(), tenants, envelopes);
    StartsBlank(tenants);
    ReplayIsRun(sorted);
    forall key: StreamKey | key.tenant in tenants
      ensures CursorOf(Run(Receipts(sorted)).cursors, key) == |History(Gate(), streams, key)|
    {
      assert Cursor(Run(Receipts(sorted)).Gate(), key) == |History(Gate(), streams, key)|;
    }
  }

  lemma SortedTenants(envelopes: seq<Envelope>)
    ensures forall e | e in SortBy(envelopes, StreamOrder) :: e.key.tenant in TenantsOf(envelopes)
  {
    hide SortBy;
    StreamOrderIsTotal<Payload>();
    SortBySameMembers(envelopes, StreamOrder);
  }

  /**
   Whatever else the projection holds, a rebuild from the complete streams of some tenants succeeds
   and gives these tenants what the orderly run over their sorted events gives from nothing.
   */
  lemma RebuildIsRun(streams: Streams<Payload>, m: Customers, envelopes: seq<Envelope>)
    requires Healthy(streams) && Complete(InvoiceType, TenantsOf(envelopes), streams, envelopes)
    ensures RebuildCustomers(m, envelopes).1.None?
    ensures AlikeOn(RebuildCustomers(m, envelopes).0, Run(RebuildRun(envelopes)), TenantsOf(envelopes))
    ensures OrderlyRun(streams, RebuildRun(envelopes))
    ensures forall key: StreamKey | key.tenant in TenantsOf(envelopes) ::
              CursorOf(RebuildCustomers(m, envelopes).0.cursors, key) == |History(Gate(), streams, key)|
  {
    hide Healthy, Complete, SortBy, ReplayBills, Run, History, TenantsOf, OrderlyRun, ClearCustomers;
    var tenants := TenantsOf(envelopes);
    var sorted := SortBy(envelopes, StreamOrder);
    SortedReplayIsRun(streams, envelopes);
    SortedTenants(envelopes);
    forall i | 0 <= i < |sorted|
      ensures sorted[i].key.tenant in tenants
    {
      assert sorted[i] in sorted;
    }
    ClearedIsAlike(m, tenants);
    ReplayKeepsAlike(ClearCustomers(m, tenants), NoCustomers(), tenants, sorted);
  }

  // ---------------------------------------------------------------------------
  // Live and rebuilt amounts
  // ---------------------------------------------------------------------------

  /** What an invoice owes, if its sales order is the party. */
  ghost function OrderShare(streams: Streams<Payload>, cursors: map<StreamKey, nat>, party: PartyKey): (StreamKey, Mapping) -> int {
    (k: StreamKey, mp: Mapping) =>
      var h := History(Gate(), streams, k);
      if k.tenant == party.tenant && h != [] && h[0].payload.Bill? && h[0].payload.bill.InvoiceIssued?
         && h[0].payload.bill.salesOrder == party.party
      then Owes(StateOf(streams, cursors, k)) else 0
  }

  /** What the recorded invoices owe that were issued for the party as their sales order. */
  ghost function OwedByOrder(streams: Streams<Payload>, m: Customers, party: PartyKey): int {
    MapSum(m.mappings, OrderShare(streams, m.cursors, party))
  }

  /** The record of an invoice in a run without registrations: under its sales order, once it is applied. */
  ghost predicate Unregistered(streams: Streams<Payload>, m: Customers, key: StreamKey) {
    && (key in m.mappings <==> CursorOf(m.cursors, key) > 0)
    && (key in m.mappings ==>
          var h := History(Gate(), streams, key);
          h != [] && h[0].payload.Bill? && h[0].payload.bill.InvoiceIssued? && m.mappings[key].customer == h[0].payload.bill.salesOrder)
  }

  lemma ActKeepsUnregistered(streams: Streams<Payload>, m: Customers, e: Envelope, key: StreamKey)
    requires Healthy(streams) && Tracking(streams, m) && Orderly(streams, m, Receive(e)) && Unregistered(streams, m, key)
    ensures Unregistered(streams, Act(m, Receive(e)), key)
  {
    hide Healthy, StateOf, History, Act, Matches;
    if TakesEffect(Gate(), m.cursors, e) {
      assert Tracks(streams, m, e.key);
      EffectiveIsReady(streams, m, e);
      EffectiveUpdates(streams, m, e);
      HealthyIsNumbered(streams);
      StoredIsInHistory(Gate(), streams, e);
      ReachableState(streams, m.cursors, e.key);
    } else {
      IneffectiveChangesNothing(m, e);
    }
  }

  lemma {:induction false} RunIsUnregistered(streams: Streams<Payload>, actions: seq<Action>, key: StreamKey)
    requires Healthy(streams) && OrderlyRun(streams, actions)
    requires forall i | 0 <= i < |actions| :: actions[i].Receive?
    ensures Unregistered(streams, Run(actions), key)
  {
    hide Healthy, Act, Unregistered, Orderly, Tracking, OrderlyRun, Run;
    if actions != [] {
      var n := |actions| - 1;
      var init := actions[..n];
      OrderlyInit(streams, actions);
      RunIsUnregistered(streams, init, key);
      RunTracks(streams, init);
      RunUnfolds(actions);
      ActKeepsUnregistered(streams, Run(init), actions[n].envelope, key);
    } else {
      NothingRegistered(streams, key);
    }
  }

  lemma NothingRegistered(streams: Streams<Payload>, key: StreamKey)
    ensures Unregistered(streams, Run([]), key)
  {
  }

  /** Without registrations a party owes by record what it owes by sales order, wherever the same invoices have been applied. */
  lemma UnregisteredOwesByOrder(streams: Streams<Payload>, live: Customers, m: Customers, party: PartyKey)
    requires forall key: StreamKey | key.tenant == party.tenant ::
               Tracks(streams, live, key) && Unregistered(streams, m, key) && CursorOf(live.cursors, key) == CursorOf(m.cursors, key)
    ensures Owed(streams, m, party) == OwedByOrder(streams, live, party)
  {
    hide MapSum, StateOf, History;
    var w, u := Share(streams, m.cursors, party, Owes), OrderShare(streams, live.cursors, party);
    var own := map k | k in m.mappings && k.tenant == party.tenant :: m.mappings[k];
    MapSumPart(own, m.mappings, w, w);
    forall k: StreamKey | k.tenant == party.tenant
      ensures StateOf(streams, m.cursors, k) == StateOf(streams, live.cursors, k)
      ensures k in own ==> k in live.mappings && w(k, own[k]) == u(k, live.mappings[k])
      ensures k in live.mappings && k !in own ==> u(k, live.mappings[k]) == 0
    {
      assert Tracks(streams, live, k);
      OthersKeepState(streams, m.cursors, live.cursors, k);
      if CursorOf(live.cursors, k) == 0 {
        UnappliedIsEmpty(streams, live.cursors, k);
      }
    }
    MapSumPart(own, live.mappings, w, u);
  }

  lemma FinallyExact(streams: Streams<Payload>, actions: seq<Action>, party: PartyKey)
    requires AlwaysExact(streams, actions)
    ensures OutstandingOf(Run(actions), party) == Owed(streams, Run(actions), party)
  {
    hide Run, Owed;
    assert actions[..|actions|] == actions;
    assert AmountsExact(streams, Run(actions[..|actions|]));
  }

  lemma NoRegistrations(streams: Streams<Payload>, actions: seq<Action>)
    requires Healthy(streams) && OrderlyRun(streams, actions) && AlwaysFits(streams, actions)
    requires forall i | 0 <= i < |actions| :: actions[i].Receive?
    ensures AlwaysExact(streams, actions)
  {
    hide Healthy, OrderlyRun, AlwaysFits, AlwaysExact, Run, StateOf;
    SettledExactIffFits(streams, actions);
  }

  /**
   Exactly when a rebuild shows a customer the outstanding amount that the caught-up live projection
   shows: when the invoices recorded under the customer owe what those issued for it as sales order owe.
   Registrations are free, other tenants may be present, and both runs are within 64 bits.
   */
  lemma LiveEqualsRebuiltIff(streams: Streams<Payload>, live: seq<Action>, m: Customers, envelopes: seq<Envelope>, party: PartyKey)
    requires Healthy(streams) && Complete(InvoiceType, TenantsOf(envelopes), streams, envelopes) && party.tenant in TenantsOf(envelopes)
    requires OrderlyRun(streams, live) && AlwaysExact(streams, live) && AlwaysFits(streams, RebuildRun(envelopes))
    requires forall key: StreamKey | key.tenant == party.tenant :: CursorOf(Run(live).cursors, key) == |History(Gate(), streams, key)|
    ensures OutstandingOf(Run(live), party) == OutstandingOf(RebuildCustomers(m, envelopes).0, party) <==>
              Owed(streams, Run(live), party) == OwedByOrder(streams, Run(live), party)
  {
    hide Healthy, Complete, SortBy, Run, History, TenantsOf, OrderlyRun, AlwaysExact, AlwaysFits, Unregistered, Tracks, Owed, OwedByOrder,
         RebuildCustomers;
    var actions := RebuildRun(envelopes);
    RebuildIsRun(streams, m, envelopes);
    NoRegistrations(streams, actions);
    FinallyExact(streams, live, party);
    FinallyExact(streams, actions, party);
    RunTracks(streams, live);
    forall key: StreamKey | key.tenant == party.tenant
      ensures Tracks(streams, Run(live), key) && Unregistered(streams, Run(actions), key)
      ensures CursorOf(Run(live).cursors, key) == CursorOf(Run(actions).cursors, key)
    {
      RunIsUnregistered(streams, actions, key);
    }
    UnregisteredOwesByOrder(streams, Run(live), Run(actions), party);
  }

  /** Without registrations the live amounts and the rebuilt ones are the same. */
  lemma LiveEqualsRebuilt(streams: Streams<Payload>, live: seq<Action>, m: Customers, envelopes: seq<Envelope>, party: PartyKey)
    requires Healthy(streams) && Complete(InvoiceType, TenantsOf(envelopes), streams, envelopes) && party.tenant in TenantsOf(envelopes)
    requires OrderlyRun(streams, live) && AlwaysFits(streams, live) && AlwaysFits(streams, RebuildRun(envelopes))
    requires forall i | 0 <= i < |live| :: live[i].Receive?
    requires forall key: StreamKey | key.tenant == party.tenant :: CursorOf(Run(live).cursors, key) == |History(Gate(), streams, key)|
    ensures OutstandingOf(Run(live), party) == OutstandingOf(RebuildCustomers(m, envelopes).0, party)
  {
    hide Healthy, Complete, SortBy, Run, History, TenantsOf, OrderlyRun, AlwaysExact, AlwaysFits, Unregistered, Tracks, Owed, OwedByOrder,
         RebuildCustomers, RebuildRun;
    NoRegistrations(streams, live);
    RunTracks(streams, live);
    forall key: StreamKey | key.tenant == party.tenant
      ensures Tracks(streams, Run(live), key) && Unregistered(streams, Run(live), key)
    {
      RunIsUnregistered(streams, live, key);
    }
    UnregisteredOwesByOrder(streams, Run(live), Run(live), party);
    LiveEqualsRebuiltIff(streams, live, m, envelopes, party);
  }
}
