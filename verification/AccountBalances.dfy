/** The account balances projection (crates/infra/src/projections/accounting.rs). */
module AccountBalances {
  import opened Core
  import opened EventStore
  import opened CursorProjection
  import opened ErpPayloads
  import opened Ledger
  import opened Sorting
  import opened Sums

  datatype AccountKey = AccountKey(tenant: TenantId, code: string)

  // Debit-positive, over the integers: overflowing an i128 would take 2^64 lines.
  datatype AccountBalance = AccountBalance(code: string, name: string, kind: AccountKind, balance: int)

  type Balances = map<AccountKey, AccountBalance>

  datatype Accounts = Accounts(balances: Balances, cursors: map<StreamKey, nat>) {
    function Gate(): ReadModel<()> {
      ReadModel(map[], cursors)
    }
  }

  function Check(e: Envelope): Option<ProjectionError> {
    if !e.payload.Entry? then Some(DeserializeError)
    else if e.payload.entry.tenant != e.key.tenant then Some(TenantIsolationError)
    else None
  }

  /** The cursor discipline of this projection, without its rows. */
  function Gate(): RowProjection<Payload, ()> {
    RowProjection(LedgerType, Check, (row, e) => None)
  }

  function Signed(line: Line): int {
    if line.isDebit then line.amount else -(line.amount as int)
  }

  function PostLine(b: Balances, tenant: TenantId, line: Line): Balances {
    var key := AccountKey(tenant, line.account.code);
    var rm := if key in b then b[key] else AccountBalance(line.account.code, line.account.name, line.account.kind, 0);
    b[key := rm.(balance := rm.balance + Signed(line))]
  }

  function PostLines(b: Balances, tenant: TenantId, lines: seq<Line>): Balances {
    if lines == [] then b
    else PostLine(PostLines(b, tenant, lines[..|lines| - 1]), tenant, lines[|lines| - 1])
  }

  function ApplyEntry(m: Accounts, e: Envelope): Result<Accounts, ProjectionError> {
    match ApplyTo(Gate(), m.Gate(), e)
    case Err(fault) => Err(fault)
    case Ok(gate) =>
      Ok(Accounts(if TakesEffect(Gate(), m.cursors, e) then PostLines(m.balances, e.key.tenant, e.payload.entry.lines) else m.balances,
                  gate.cursors))
  }

  function DeliverAll(m: Accounts, envelopes: seq<Envelope>): Accounts {
    if envelopes == [] then m
    else
      var n := |envelopes| - 1;
      var before := DeliverAll(m, envelopes[..n]);
      match ApplyEntry(before, envelopes[n])
      case Ok(after) => after
      case Err(_) => before
  }

  function ClearAccounts(m: Accounts, tenants: set<TenantId>): Accounts {
    Accounts(map k | k in m.balances && k.tenant !in tenants :: m.balances[k],
             map k | k in m.cursors && k.tenant !in tenants :: m.cursors[k])
  }

  function ReplayAll(m: Accounts, envelopes: seq<Envelope>): (Accounts, Option<ProjectionError>) {
    if envelopes == [] then (m, None)
    else
      var n := |envelopes| - 1;
      var before := ReplayAll(m, envelopes[..n]);
      if before.1.Some? then before
      else
        match ApplyEntry(before.0, envelopes[n])
        case Ok(after) => (after, None)
        case Err(fault) => (before.0, Some(fault))
  }

  function RebuildAll(m: Accounts, envelopes: seq<Envelope>): (Accounts, Option<ProjectionError>) {
    ReplayAll(ClearAccounts(m, TenantsOf(envelopes)), SortBy(envelopes, StreamOrder))
  }

  function BalanceOf(b: Balances, tenant: TenantId, code: string): int {
    var key := AccountKey(tenant, code);
    if key in b then b[key].balance else 0
  }

  /** Debits minus credits that a list of lines posts to one code. */
  function NetOf(lines: seq<Line>, code: string): int {
    if lines == [] then 0
    else
      var line := lines[|lines| - 1];
      NetOf(lines[..|lines| - 1], code) + if line.account.code == code then Signed(line) else 0
  }

  function PostedTo(tenant: TenantId, code: string): Envelope -> int {
    (e: Envelope) => if e.payload.Entry? && e.key.tenant == tenant then NetOf(e.payload.entry.lines, code) else 0
  }

  // ---------------------------------------------------------------------------
  // A balance is what was posted
  // ---------------------------------------------------------------------------

  lemma {:induction false} PostLinesAdds(b: Balances, tenant: TenantId, lines: seq<Line>, t: TenantId, code: string)
    ensures BalanceOf(PostLines(b, tenant, lines), t, code)
              == BalanceOf(b, t, code) + if t == tenant then NetOf(lines, code) else 0
  {
    if lines != [] {
      PostLinesAdds(b, tenant, lines[..|lines| - 1], t, code);
    }
  }

  lemma {:induction false} GateFollows(m: Accounts, envelopes: seq<Envelope>)
    ensures DeliverAll(m, envelopes).Gate() == Deliver(Gate(), m.Gate(), envelopes)
  {
    if envelopes != [] {
      GateFollows(m, envelopes[..|envelopes| - 1]);
    }
  }

  /** Whatever is delivered, each balance is what the effective envelopes posted to its code. */
  lemma {:induction false} BalanceIsJournalSum(m: Accounts, envelopes: seq<Envelope>, tenant: TenantId, code: string)
    ensures BalanceOf(DeliverAll(m, envelopes).balances, tenant, code)
              == BalanceOf(m.balances, tenant, code) + SeqSum(Journal(Gate(), m.Gate(), envelopes), PostedTo(tenant, code))
  {
    if envelopes != [] {
      var n := |envelopes| - 1;
      var e := envelopes[n];
      BalanceIsJournalSum(m, envelopes[..n], tenant, code);
      GateFollows(m, envelopes[..n]);
      var before := DeliverAll(m, envelopes[..n]);
      var journal := Journal(Gate(), m.Gate(), envelopes[..n]);
      if TakesEffect(Gate(), before.cursors, e) {
        PostLinesAdds(before.balances, e.key.tenant, e.payload.entry.lines, tenant, code);
        SeqSumSnoc(journal, e, PostedTo(tenant, code));
      } else {
        assert journal + [] == journal;
      }
    }
  }

  lemma HealthyIsClean(streams: Streams<Payload>)
    requires Healthy(streams)
    ensures Clean(Gate(), streams)
  {
    hide Accepted, Fold;
    forall e: Envelope | InStore(streams, e) && e.kind == LedgerType
      ensures Check(e).None?
    {
      var h := StreamOf(streams, e.key);
      assert HealthyStream(e.key, h);
      ReachableLedger(e.key, Entries(h));
      assert Entries(h)[e.seqNo - 1] == e.payload.entry;
    }
  }

  function OfTenant(s: seq<Envelope>, tenant: TenantId): seq<Envelope> {
    if s == [] then []
    else OfTenant(s[..|s| - 1], tenant) + if s[|s| - 1].key.tenant == tenant then [s[|s| - 1]] else []
  }

  /** Only the tenant's own envelopes matter to its balances. */
  lemma {:induction false} OfTenantKeepsSum(s: seq<Envelope>, tenant: TenantId, code: string)
    ensures SeqSum(OfTenant(s, tenant), PostedTo(tenant, code)) == SeqSum(s, PostedTo(tenant, code))
  {
    if s != [] {
      var n := |s| - 1;
      OfTenantKeepsSum(s[..n], tenant, code);
      if s[n].key.tenant == tenant {
        SeqSumSnoc(OfTenant(s[..n], tenant), s[n], PostedTo(tenant, code));
      } else {
        assert OfTenant(s[..n], tenant) + [] == OfTenant(s[..n], tenant);
      }
    }
  }

  lemma {:induction false} OfTenantMembers(s: seq<Envelope>, tenant: TenantId)
    requires Distinct(s)
    ensures Distinct(OfTenant(s, tenant))
    ensures forall e :: e in OfTenant(s, tenant) <==> e in s && e.key.tenant == tenant
  {
    if s != [] {
      OfTenantMembers(s[..|s| - 1], tenant);
    }
  }

  /** Two delivery sequences that brought the tenant's ledger streams equally far, event 1 first. */
  ghost predicate SameReach(
    tenant: TenantId, m: ReadModel<()>, one: seq<Envelope>, n: ReadModel<()>, two: seq<Envelope>)
  {
    forall key: StreamKey | key.tenant == tenant ::
      && Cursor(m, key) == Cursor(n, key) == 0
      && FirstSeen(Gate(), one, key) <= 1 && FirstSeen(Gate(), two, key) <= 1
      && Cursor(Deliver(Gate(), m, one), key) == Cursor(Deliver(Gate(), n, two), key)
  }

  lemma CoveredAlike(
    streams: Streams<Payload>, tenant: TenantId, m: ReadModel<()>, one: seq<Envelope>, n: ReadModel<()>, two: seq<Envelope>, e: Envelope)
    requires Faithful(streams, one) && Faithful(streams, two) && Clean(Gate(), streams)
    requires Untouched(m, one) && Untouched(n, two) && SameReach(tenant, m, one, n, two)
    requires e.key.tenant == tenant
    ensures Covered(Gate(), streams, m, one, e) <==> Covered(Gate(), streams, n, two, e)
  {
    hide Deliver, FirstSeen, Clean, Gate;
    if FirstSeen(Gate(), one, e.key) == 0 {
      UnseenIsUntouched(Gate(), streams, m, one, e.key);
    }
    if FirstSeen(Gate(), two, e.key) == 0 {
      UnseenIsUntouched(Gate(), streams, n, two, e.key);
    }
  }

  lemma SameReachSameSum(
    streams: Streams<Payload>, tenant: TenantId, m: ReadModel<()>, one: seq<Envelope>, n: ReadModel<()>, two: seq<Envelope>, code: string)
    requires Faithful(streams, one) && Faithful(streams, two) && Clean(Gate(), streams)
    requires Untouched(m, one) && Untouched(n, two) && SameReach(tenant, m, one, n, two)
    ensures SeqSum(Journal(Gate(), m, one), PostedTo(tenant, code)) == SeqSum(Journal(Gate(), n, two), PostedTo(tenant, code))
  {
    hide Journal, OfTenant, SeqSum, Distinct, Covered, SameReach, Clean, Faithful, Untouched;
    var a, b := Journal(Gate(), m, one), Journal(Gate(), n, two);
    JournalIsCovered(Gate(), streams, m, one);
    JournalIsCovered(Gate(), streams, n, two);
    OfTenantMembers(a, tenant);
    OfTenantMembers(b, tenant);
    forall e: Envelope
      ensures e in OfTenant(a, tenant) <==> e in OfTenant(b, tenant)
    {
      if e.key.tenant == tenant {
        CoveredAlike(streams, tenant, m, one, n, two, e);
      }
    }
    DistinctSameMembers(OfTenant(a, tenant), OfTenant(b, tenant));
    SeqSumPermutation(OfTenant(a, tenant), OfTenant(b, tenant), PostedTo(tenant, code));
    OfTenantKeepsSum(a, tenant, code);
    OfTenantKeepsSum(b, tenant, code);
  }

  function NoAccounts(): Accounts {
    Accounts(map[], map[])
  }

  /**
   Balances depend only on how far each ledger stream has been applied, not on how the streams
   were interleaved, duplicated or reordered on the way.
   */
  lemma EqualCursorsEqualBalances(streams: Streams<Payload>, one: seq<Envelope>, two: seq<Envelope>, tenant: TenantId, code: string)
    requires Healthy(streams) && Faithful(streams, one) && Faithful(streams, two)
    requires SameReach(tenant, NoAccounts().Gate(), one, NoAccounts().Gate(), two)
    ensures BalanceOf(DeliverAll(NoAccounts(), one).balances, tenant, code)
              == BalanceOf(DeliverAll(NoAccounts(), two).balances, tenant, code)
  {
    hide Healthy, SameReach, DeliverAll, Journal, SeqSum;
    HealthyIsClean(streams);
    SameReachSameSum(streams, tenant, NoAccounts().Gate(), one, NoAccounts().Gate(), two, code);
    BalanceIsJournalSum(NoAccounts(), one, tenant, code);
    BalanceIsJournalSum(NoAccounts(), two, tenant, code);
  }

  // ---------------------------------------------------------------------------
  // Live and rebuilt balances
  // ---------------------------------------------------------------------------

  /** A replay that meets no error is a delivery. */
  lemma {:induction false} ReplayFollowsGate(m: Accounts, envelopes: seq<Envelope>)
    requires Replay(Gate(), m.Gate(), envelopes).1.None?
    ensures ReplayAll(m, envelopes) == (DeliverAll(m, envelopes), None)
    ensures Replay(Gate(), m.Gate(), envelopes).0 == Deliver(Gate(), m.Gate(), envelopes)
  {
    GateFollows(m, envelopes);
    if envelopes != [] {
      var n := |envelopes| - 1;
      GateFollows(m, envelopes[..n]);
      ReplayFollowsGate(m, envelopes[..n]);
    }
  }

  lemma {:induction false} FailureEndsReplay(m: Accounts, envelopes: seq<Envelope>, i: nat)
    requires i <= |envelopes| && ReplayAll(m, envelopes[..i]).1.Some?
    ensures ReplayAll(m, envelopes) == ReplayAll(m, envelopes[..i])
  {
    if i == |envelopes| {
      assert envelopes[..i] == envelopes;
    } else {
      var n := |envelopes| - 1;
      assert envelopes[..n][..i] == envelopes[..i];
      FailureEndsReplay(m, envelopes[..n], i);
    }
  }

  lemma ClearedGate(m: Accounts, tenants: set<TenantId>)
    ensures ClearAccounts(m, tenants).Gate() == ClearTenants(m.Gate(), tenants)
  {
  }

  /** In stream order the first event of a ledger precedes its others. */
  lemma FirstPrecedes(streams: Streams<Payload>, sorted: seq<Envelope>, i: nat) returns (j: nat)
    requires Complete(LedgerType, TenantsOf(sorted), streams, sorted) && Sorted(sorted, StreamOrder)
    requires i < |sorted| && sorted[i].kind == LedgerType && sorted[i].seqNo > 1
    ensures j < i && sorted[j].key == sorted[i].key && sorted[j].kind == LedgerType && sorted[j].seqNo == 1
  {
    hide Sorted;
    var e := sorted[i];
    assert InStore(streams, e);
    var first := StreamOf(streams, e.key)[0];
    assert InStore(streams, first) && first.key == e.key && first.kind == LedgerType;
    assert e.key.tenant in TenantsOf(sorted);
    assert first in sorted;
    j :| 0 <= j < |sorted| && sorted[j] == first;
    EarlierInOrder(sorted, i, j);
  }

  lemma SeenSnoc(before: seq<Envelope>, e: Envelope, key: StreamKey)
    ensures FirstSeen(Gate(), before + [e], key) ==
              if FirstSeen(Gate(), before, key) == 0 && e.key == key && e.kind == LedgerType then e.seqNo else FirstSeen(Gate(), before, key)
  {
    assert (before + [e])[..|before|] == before;
  }

  lemma {:induction false} SortedFirstSeen(streams: Streams<Payload>, sorted: seq<Envelope>, i: nat, key: StreamKey)
    requires Complete(LedgerType, TenantsOf(sorted), streams, sorted) && Sorted(sorted, StreamOrder) && i <= |sorted|
    ensures FirstSeen(Gate(), sorted[..i], key) <= 1
  {
    hide Complete, Sorted, FirstSeen, TenantsOf, Gate;
    if i > 0 {
      var n := i - 1;
      var e := sorted[n];
      SortedFirstSeen(streams, sorted, n, key);
      assert sorted[..i] == sorted[..n] + [e];
      SeenSnoc(sorted[..n], e, key);
      if e.key == key && e.kind == LedgerType && e.seqNo > 1 {
        var j := FirstPrecedes(streams, sorted, n);
        SeenSomewhere(sorted[..n], j, key);
      }
    } else {
      NothingSeen(key);
      assert sorted[..0] == [];
    }
  }

  lemma NothingSeen(key: StreamKey)
    ensures FirstSeen(Gate(), [], key) == 0
  {
  }

  lemma {:induction false} SeenSomewhere(envelopes: seq<Envelope>, j: nat, key: StreamKey)
    requires j < |envelopes| && envelopes[j].key == key && envelopes[j].kind == LedgerType && envelopes[j].seqNo > 0
    ensures FirstSeen(Gate(), envelopes, key) > 0
  {
    if j < |envelopes| - 1 {
      SeenSomewhere(envelopes[..|envelopes| - 1], j, key);
    }
  }

  /**
   A live projection that has caught up with the tenant's ledgers, event 1 of each first, shows
   the balances a rebuild from any permutation with any repetition of the complete streams gives.
   */
  lemma LiveEqualsRebuilt(streams: Streams<Payload>, live: seq<Envelope>, m: Accounts, envelopes: seq<Envelope>, tenant: TenantId, code: string)
    requires Healthy(streams) && Faithful(streams, live) && Complete(LedgerType, TenantsOf(envelopes), streams, envelopes)
    requires tenant in TenantsOf(envelopes)
    requires forall key: StreamKey | key.tenant == tenant ::
               && FirstSeen(Gate(), live, key) <= 1
               && Cursor(Deliver(Gate(), NoAccounts().Gate(), live), key) == |History(Gate(), streams, key)|
    ensures RebuildAll(m, envelopes).1.None?
    ensures BalanceOf(RebuildAll(m, envelopes).0.balances, tenant, code)
              == BalanceOf(DeliverAll(NoAccounts(), live).balances, tenant, code)
  {
    hide Healthy, Clean, Replay, ReplayAll, Deliver, DeliverAll, Journal, SeqSum, FirstSeen, History, SortBy, Sorted, Complete, TenantsOf;
    HealthyIsClean(streams);
    var sorted := SortBy(envelopes, StreamOrder);
    var cleared := ClearAccounts(m, TenantsOf(envelopes));
    SortedComplete(LedgerType, TenantsOf(envelopes), streams, envelopes);
    RebuildRestores(Gate(), streams, m.Gate(), envelopes);
    ClearedGate(m, TenantsOf(envelopes));
    ReplayFollowsGate(cleared, sorted);
    CompleteIsFaithful(streams, sorted, cleared.Gate());
    assert SameReach(tenant, NoAccounts().Gate(), live, cleared.Gate(), sorted) by {
      forall key: StreamKey | key.tenant == tenant
        ensures FirstSeen(Gate(), sorted, key) <= 1
      {
        SortedFirstSeen(streams, sorted, |sorted|, key);
        assert sorted[..|sorted|] == sorted;
      }
    }
    SameReachSameSum(streams, tenant, NoAccounts().Gate(), live, cleared.Gate(), sorted, code);
    BalanceIsJournalSum(NoAccounts(), live, tenant, code);
    BalanceIsJournalSum(cleared, sorted, tenant, code);
  }

  lemma CompleteIsFaithful(streams: Streams<Payload>, sorted: seq<Envelope>, gate: ReadModel<()>)
    requires Complete(LedgerType, TenantsOf(sorted), streams, sorted)
    requires forall key: StreamKey | key.tenant in TenantsOf(sorted) :: Cursor(gate, key) == 0
    ensures Faithful(streams, sorted) && Untouched(gate, sorted)
  {
    forall i | 0 <= i < |sorted|
      ensures Cursor(gate, sorted[i].key) == 0
    {
      assert sorted[i].key.tenant in TenantsOf(sorted);
    }
  }

  // ---------------------------------------------------------------------------
  // Names and kinds are those first seen
  // ---------------------------------------------------------------------------

  /** The first line of a list that names a code. */
  function FirstLine(lines: seq<Line>, code: string): Option<Line> {
    if lines == [] then None
    else
      var earlier := FirstLine(lines[..|lines| - 1], code);
      if earlier.Some? then earlier
      else if lines[|lines| - 1].account.code == code then Some(lines[|lines| - 1])
      else None
  }

  /** The first line that names a tenant's code among the entries of a list of envelopes. */
  function FirstPosted(entries: seq<Envelope>, tenant: TenantId, code: string): Option<Line> {
    if entries == [] then None
    else
      var earlier, e := FirstPosted(entries[..|entries| - 1], tenant, code), entries[|entries| - 1];
      if earlier.Some? then earlier
      else if e.payload.Entry? && e.key.tenant == tenant then FirstLine(e.payload.entry.lines, code)
      else None
  }

  /** The account row of a code: there once a line names it, with the name and kind that line gave. */
  ghost predicate ShowsFirst(b: Balances, tenant: TenantId, code: string, first: Option<Line>) {
    var key := AccountKey(tenant, code);
    && (key in b <==> first.Some?)
    && (key in b ==> b[key].code == code && b[key].name == first.value.account.name && b[key].kind == first.value.account.kind)
  }

  lemma {:induction false} PostLinesShowFirst(b: Balances, tenant: TenantId, lines: seq<Line>, t: TenantId, code: string, first: Option<Line>)
    requires ShowsFirst(b, t, code, first)
    ensures ShowsFirst(PostLines(b, tenant, lines), t, code,
                       if first.Some? then first else if t == tenant then FirstLine(lines, code) else None)
  {
    if lines != [] {
      PostLinesShowFirst(b, tenant, lines[..|lines| - 1], t, code, first);
    }
  }

  /** Whatever is delivered, an account carries the name and kind of the first effective line that posted to its code. */
  lemma {:induction false} AccountIsFirstPosted(envelopes: seq<Envelope>, tenant: TenantId, code: string)
    ensures ShowsFirst(DeliverAll(NoAccounts(), envelopes).balances, tenant, code,
                       FirstPosted(Journal(Gate(), NoAccounts().Gate(), envelopes), tenant, code))
  {
    hide ShowsFirst, PostLines;
    if envelopes == [] {
      NothingPosted(tenant, code);
    } else {
      var n := |envelopes| - 1;
      var e := envelopes[n];
      AccountIsFirstPosted(envelopes[..n], tenant, code);
      GateFollows(NoAccounts(), envelopes[..n]);
      var before := DeliverAll(NoAccounts(), envelopes[..n]);
      var journal := Journal(Gate(), NoAccounts().Gate(), envelopes[..n]);
      if TakesEffect(Gate(), before.cursors, e) {
        PostLinesShowFirst(before.balances, e.key.tenant, e.payload.entry.lines, tenant, code, FirstPosted(journal, tenant, code));
        assert (journal + [e])[..|journal|] == journal;
      } else {
        assert journal + [] == journal;
      }
    }
  }

  lemma NothingPosted(tenant: TenantId, code: string)
    ensures ShowsFirst(map[], tenant, code, None)
  {
  }

  /** A new ledger envelope is taken exactly when it carries an entry of its own tenant; otherwise the refusal says why. */
  lemma AppliedIff(m: Accounts, e: Envelope)
    requires e.kind == LedgerType && e.seqNo > 0 && (CursorOf(m.cursors, e.key) == 0 || e.seqNo == CursorOf(m.cursors, e.key) + 1)
    ensures var own := e.payload.Entry? && e.payload.entry.tenant == e.key.tenant;
            && (own ==> ApplyEntry(m, e).Ok?)
            && (!own ==> ApplyEntry(m, e) == Err(if e.payload.Entry? then TenantIsolationError else DeserializeError))
  {
  }

  // ---------------------------------------------------------------------------
  // The books balance
  // ---------------------------------------------------------------------------

  function InTenant(tenant: TenantId): (AccountKey, AccountBalance) -> int {
    (k: AccountKey, b: AccountBalance) => if k.tenant == tenant then b.balance else 0
  }

  lemma {:induction false} PostLinesMovesSum(b: Balances, tenant: TenantId, lines: seq<Line>, t: TenantId)
    ensures MapSum(PostLines(b, tenant, lines), InTenant(t))
              == MapSum(b, InTenant(t)) + if t == tenant then Debits(lines) - Credits(lines) else 0
  {
    if lines != [] {
      var n := |lines| - 1;
      var line := lines[n];
      var before := PostLines(b, tenant, lines[..n]);
      PostLinesMovesSum(b, tenant, lines[..n], t);
      var key := AccountKey(tenant, line.account.code);
      MapSumPut(before, key, PostLine(before, tenant, line)[key], InTenant(t));
    }
  }

  lemma StoredEntryBalances(streams: Streams<Payload>, e: Envelope)
    requires Healthy(streams) && InStore(streams, e) && e.kind == LedgerType
    ensures e.payload.Entry? && Balanced(e.payload.entry.lines)
  {
    hide Accepted, Fold;
    var h := StreamOf(streams, e.key);
    assert HealthyStream(e.key, h);
    ReachableLedger(e.key, Entries(h));
    assert Entries(h)[e.seqNo - 1] == e.payload.entry;
  }

  /** After every delivery sequence over a healthy log, each tenant's balances sum to zero. */
  lemma {:induction false} BooksBalance(streams: Streams<Payload>, envelopes: seq<Envelope>, tenant: TenantId)
    requires Healthy(streams) && Faithful(streams, envelopes)
    ensures MapSum(DeliverAll(NoAccounts(), envelopes).balances, InTenant(tenant)) == 0
  {
    hide Healthy, InTenant;
    if envelopes != [] {
      var n := |envelopes| - 1;
      var e := envelopes[n];
      assert InStore(streams, e);
      BooksBalance(streams, envelopes[..n], tenant);
      var before := DeliverAll(NoAccounts(), envelopes[..n]);
      if TakesEffect(Gate(), before.cursors, e) {
        StoredEntryBalances(streams, e);
        PostLinesMovesSum(before.balances, e.key.tenant, e.payload.entry.lines, tenant);
      }
    }
  }

  // ---------------------------------------------------------------------------
  // The projection object
  // ---------------------------------------------------------------------------

  class AccountBalancesProjection {
    var balances: Balances
    var cursors: map<StreamKey, nat>

    function Model(): Accounts
      reads this
    {
      Accounts(balances, cursors)
    }

    constructor ()
      ensures Model() == NoAccounts()
    {
      balances, cursors := map[], map[];
    }

    method ApplyEnvelope(e: Envelope) returns (r: Option<ProjectionError>)
      modifies this
      ensures match ApplyEntry(old(Model()), e)
              case Ok(after) => r.None? && Model() == after
              case Err(fault) => r == Some(fault) && Model() == old(Model())
    {
      if e.kind != LedgerType {
        return None;
      }
      var last := CursorOf(cursors, e.key);
      if e.seqNo == 0 {
        return Some(NonMonotonicSequence(last, e.seqNo));
      }
      if e.seqNo <= last {
        return None;
      }
      if e.seqNo != last + 1 && last != 0 {
        return Some(NonMonotonicSequence(last, e.seqNo));
      }
      if !e.payload.Entry? {
        return Some(DeserializeError);
      }
      var entry := e.payload.entry;
      if entry.tenant != e.key.tenant {
        return Some(TenantIsolationError);
      }
      ghost var before := balances;
      for i := 0 to |entry.lines|
        invariant balances == PostLines(before, e.key.tenant, entry.lines[..i])
        invariant cursors == old(cursors)
      {
        assert entry.lines[..i + 1][..i] == entry.lines[..i];
        var line := entry.lines[i];
        var key := AccountKey(e.key.tenant, line.account.code);
        var rm := if key in balances then balances[key] else AccountBalance(line.account.code, line.account.name, line.account.kind, 0);
        rm := rm.(balance := rm.balance + Signed(line));
        balances := balances[key := rm];
      }
      assert entry.lines[..|entry.lines|] == entry.lines;
      cursors := cursors[e.key := e.seqNo];
      return None;
    }

    method RebuildFromScratch(envelopes: seq<Envelope>) returns (r: Option<ProjectionError>)
      modifies this
      ensures (Model(), r) == RebuildAll(old(Model()), envelopes)
    {
      hide SortBy, ApplyEntry;
      var tenants := TenantsOf(envelopes);
      balances := map k | k in balances && k.tenant !in tenants :: balances[k];
      cursors := map k | k in cursors && k.tenant !in tenants :: cursors[k];
      ghost var cleared := Model();
      assert cleared == ClearAccounts(old(Model()), tenants);
      var sorted := SortBy(envelopes, StreamOrder);
      for i := 0 to |sorted|
        invariant ReplayAll(cleared, sorted[..i]) == (Model(), None)
      {
        assert sorted[..i + 1][..i] == sorted[..i];
        var fault := ApplyEnvelope(sorted[i]);
        if fault.Some? {
          FailureEndsReplay(cleared, sorted, i + 1);
          return fault;
        }
      }
      assert sorted[..|sorted|] == sorted;
      return None;
    }
  }
}
