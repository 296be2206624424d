/** The double-entry ledger aggregate (crates/accounting/src/ledger.rs). */
module Ledger {
  import opened Core

  datatype AccountKind = Asset | Liability | Equity | Revenue | Expense

  datatype Account = Account(code: string, name: string, kind: AccountKind)

  datatype Line = Line(account: Account, amount: I64, isDebit: bool)

  datatype Event =
    JournalEntryPosted(tenant: TenantId, ledger: AggregateId, entry: nat, lines: seq<Line>, description: Option<string>, occurredAt: Time)

  datatype Command =
    PostJournalEntry(tenant: TenantId, ledger: AggregateId, entry: nat, lines: seq<Line>, occurredAt: Time, description: Option<string>)

  datatype LedgerState = LedgerState(id: AggregateId, tenant: Option<TenantId>, version: nat, created: bool)

  function Empty(id: AggregateId): LedgerState {
    LedgerState(id, None, 0, false)
  }

  function Apply(s: LedgerState, e: Event): LedgerState {
    LedgerState(e.ledger,
                if s.tenant.None? then Some(e.tenant) else s.tenant,
                s.version + 1,
                if s.tenant.None? then true else s.created)
  }

  function Debits(lines: seq<Line>): int {
    if lines == [] then 0
    else
      var n := |lines| - 1;
      Debits(lines[..n]) + if lines[n].isDebit then lines[n].amount else 0
  }

  function Credits(lines: seq<Line>): int {
    if lines == [] then 0
    else
      var n := |lines| - 1;
      Credits(lines[..n]) + if lines[n].isDebit then 0 else lines[n].amount
  }

  predicate AllPositive(lines: seq<Line>) {
    forall i | 0 <= i < |lines| :: lines[i].amount > 0
  }

  /** A journal entry worth posting: positive lines whose debits equal their credits. */
  predicate Balanced(lines: seq<Line>) {
    lines != [] && AllPositive(lines) && Debits(lines) == Credits(lines)
  }

  function Handle(s: LedgerState, cmd: Command): Result<seq<Event>, DomainError> {
    if s.created && s.tenant != Some(cmd.tenant) then Err(InvariantViolation)
    else if cmd.lines == [] then Err(Validation)
    else if !AllPositive(cmd.lines) then Err(Validation)
    else if Debits(cmd.lines) != Credits(cmd.lines) then Err(InvariantViolation)
    else Ok([JournalEntryPosted(cmd.tenant, cmd.ledger, cmd.entry, cmd.lines, cmd.description, cmd.occurredAt)])
  }

  /** Neither 128-bit total can overflow: it would take 2^64 lines. */
  lemma {:induction false} TotalsFitI128(lines: seq<Line>)
    requires AllPositive(lines)
    ensures 0 <= Debits(lines) <= |lines| * (I64_LIMIT - 1)
    ensures 0 <= Credits(lines) <= |lines| * (I64_LIMIT - 1)
    ensures |lines| <= U64_LIMIT ==> Debits(lines) < I64_LIMIT * U64_LIMIT && Credits(lines) < I64_LIMIT * U64_LIMIT
  {
    if lines != [] {
      TotalsFitI128(lines[..|lines| - 1]);
    }
  }

  class LedgerRoot {
    var id: AggregateId
    var tenant: Option<TenantId>
    var version: nat
    var created: bool

    function View(): LedgerState
      reads this
    {
      LedgerState(id, tenant, version, created)
    }

    constructor (id: AggregateId)
      ensures View() == Empty(id)
    {
      this.id, tenant, version, created := id, None, 0, false;
    }

    method Evolve(e: Event)
      modifies this
      ensures View() == Apply(old(View()), e)
    {
      id := e.ledger;
      if tenant.None? {
        tenant := Some(e.tenant);
        created := true;
      }
      version := version + 1;
    }

    /** `handle_post`, accumulating both totals line by line. */
    method Post(cmd: Command) returns (r: Result<seq<Event>, DomainError>)
      ensures r == Handle(View(), cmd)
    {
      if created && tenant != Some(cmd.tenant) {
        return Err(InvariantViolation);
      }
      if cmd.lines == [] {
        return Err(Validation);
      }
      var debitTotal, creditTotal := 0, 0;
      for i := 0 to |cmd.lines|
        invariant AllPositive(cmd.lines[..i])
        invariant debitTotal == Debits(cmd.lines[..i])
        invariant creditTotal == Credits(cmd.lines[..i])
      {
        var line := cmd.lines[i];
        assert cmd.lines[..i + 1][..i] == cmd.lines[..i];
        if line.amount <= 0 {
          return Err(Validation);
        }
        if line.isDebit {
          debitTotal := debitTotal + line.amount;
        } else {
          creditTotal := creditTotal + line.amount;
        }
      }
      assert cmd.lines[..|cmd.lines|] == cmd.lines;
      if debitTotal != creditTotal {
        return Err(InvariantViolation);
      }
      return Ok([JournalEntryPosted(cmd.tenant, cmd.ledger, cmd.entry, cmd.lines, cmd.description, cmd.occurredAt)]);
    }
  }

  function Fold(key: StreamKey, history: seq<Event>): LedgerState {
    if history == [] then Empty(key.aggregate)
    else Apply(Fold(key, history[..|history| - 1]), history[|history| - 1])
  }

  predicate Targets(cmd: Command, key: StreamKey) {
    cmd.tenant == key.tenant && cmd.ledger == key.aggregate
  }

  ghost predicate AcceptedNext(key: StreamKey, history: seq<Event>, e: Event) {
    exists cmd :: Targets(cmd, key) && Handle(Fold(key, history), cmd) == Ok([e])
  }

  ghost predicate Accepted(key: StreamKey, history: seq<Event>) {
    history == [] ||
    var n := |history| - 1;
    Accepted(key, history[..n]) && AcceptedNext(key, history[..n], history[n])
  }

  /** Every entry of a reachable ledger is balanced and belongs to it. */
  lemma {:induction false} ReachableLedger(key: StreamKey, history: seq<Event>)
    requires Accepted(key, history)
    ensures forall i | 0 <= i < |history| ::
              history[i].tenant == key.tenant && history[i].ledger == key.aggregate && Balanced(history[i].lines)
    ensures Fold(key, history) == LedgerState(key.aggregate, if history == [] then None else Some(key.tenant), |history|, history != [])
  {
    if history != [] {
      var n := |history| - 1;
      ReachableLedger(key, history[..n]);
      var cmd :| Targets(cmd, key) && Handle(Fold(key, history[..n]), cmd) == Ok([history[n]]);
      assert forall i | 0 <= i < n :: history[i] == history[..n][i];
    }
  }

  /** On every reachable ledger an entry of its own is accepted exactly when it is balanced. */
  lemma {:induction false} PostAcceptedIff(key: StreamKey, history: seq<Event>, cmd: Command)
    requires Accepted(key, history) && Targets(cmd, key)
    ensures Handle(Fold(key, history), cmd).Ok? <==> Balanced(cmd.lines)
  {
    ReachableLedger(key, history);
  }

  /** Why an entry is refused. */
  function Refusal(cmd: Command): Option<DomainError> {
    if cmd.lines == [] || !AllPositive(cmd.lines) then Some(Validation)
    else if Debits(cmd.lines) != Credits(cmd.lines) then Some(InvariantViolation)
    else None
  }

  /** On every reachable ledger the decision depends on the entry alone. */
  lemma {:induction false} AnswerIs(key: StreamKey, history: seq<Event>, cmd: Command)
    requires Accepted(key, history) && cmd.tenant == key.tenant && cmd.ledger == key.aggregate
    ensures match Refusal(cmd)
            case Some(cause) => Handle(Fold(key, history), cmd) == Err(cause)
            case None => Handle(Fold(key, history), cmd).Ok?
  {
    hide Accepted, Fold;
    ReachableLedger(key, history);
  }

  /** The entry on record is the entry of the command. */
  ghost predicate Done(cmd: Command, e: Event) {
    && e.tenant == cmd.tenant && e.ledger == cmd.ledger
    && e.entry == cmd.entry && e.lines == cmd.lines && e.description == cmd.description && e.occurredAt == cmd.occurredAt
  }

  lemma {:induction false} CommandDoes(key: StreamKey, history: seq<Event>, cmd: Command)
    requires Accepted(key, history) && cmd.tenant == key.tenant && cmd.ledger == key.aggregate
    requires Refusal(cmd).None?
    ensures var r := Handle(Fold(key, history), cmd);
            r.Ok? && |r.value| == 1 && Accepted(key, history + r.value) && Done(cmd, r.value[0])
  {
    AnswerIs(key, history, cmd);
    AcceptedExtends(key, history, cmd);
  }

  /** A ledger with entries refuses those of another tenant. */
  lemma {:induction false} ForeignIsRefused(key: StreamKey, history: seq<Event>, cmd: Command)
    requires Accepted(key, history) && history != [] && cmd.tenant != key.tenant
    ensures Handle(Fold(key, history), cmd) == Err(InvariantViolation)
  {
    hide Fold, Accepted;
    ReachableLedger(key, history);
  }

  lemma OneEvent(state: LedgerState, cmd: Command)
    requires Handle(state, cmd).Ok?
    ensures |Handle(state, cmd).value| == 1
  {
    hide Debits, Credits;
  }

  /** What `handle` accepts extends the accepted history by one event. */
  lemma {:induction false} AcceptedExtends(key: StreamKey, history: seq<Event>, cmd: Command)
    requires Accepted(key, history) && Targets(cmd, key) && Handle(Fold(key, history), cmd).Ok?
    ensures var events := Handle(Fold(key, history), cmd).value;
            && |events| == 1
            && Accepted(key, history + events)
            && Fold(key, history + events) == Apply(Fold(key, history), events[0])
  {
    hide Handle, Apply;
    OneEvent(Fold(key, history), cmd);
    var events := Handle(Fold(key, history), cmd).value;
    assert events == [events[0]];
    assert AcceptedNext(key, history, events[0]);
    assert (history + events)[..|history|] == history;
  }
}
