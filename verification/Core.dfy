/** Identifiers, results and the optimistic-concurrency expectation shared by every component. */
module Core {
  // A UUID is compared bytewise, which is the numeric order of the 128-bit value.
  type TenantId = nat
  type AggregateId = nat

  // Seconds, or any other unit, on a totally ordered time line.
  type Time = nat

  const U32_LIMIT: nat := 0x1_0000_0000
  const U64_LIMIT: nat := 0x1_0000_0000_0000_0000
  const I64_LIMIT: int := 0x8000_0000_0000_0000

  type U64 = x: nat | x < U64_LIMIT
  type U32 = x: nat | x < U32_LIMIT
  type I64 = x: int | -I64_LIMIT <= x < I64_LIMIT

  datatype Option<+T> = None | Some(value: T)

  datatype Result<+T, +E> = Ok(value: T) | Err(error: E)

  datatype DomainError = Validation | InvariantViolation | NotFound | Conflict

  datatype AggregateType = InventoryItemType | InvoiceType | LedgerType | PurchaseOrderType | SalesOrderType

  datatype StreamKey = StreamKey(tenant: TenantId, aggregate: AggregateId)

  datatype ExpectedVersion = Any | Exact(version: nat) {
    predicate Matches(actual: nat) {
      match this
      case Any => true
      case Exact(v) => v == actual
    }
  }

  /** `u64` addition as compiled without overflow checks. */
  function WrapAdd64(x: U64, y: U64): (r: U64)
    ensures x + y < U64_LIMIT ==> r == x + y
    ensures x + y >= U64_LIMIT ==> r == x + y - U64_LIMIT
  {
    (x + y) % U64_LIMIT
  }

  /** `u32` addition as compiled without overflow checks. */
  function WrapAdd32(x: U32, y: U32): (r: U32)
    ensures x + y < U32_LIMIT ==> r == x + y
    ensures x + y >= U32_LIMIT ==> r == x + y - U32_LIMIT
  {
    (x + y) % U32_LIMIT
  }

  function SaturatingSub(x: nat, y: nat): nat {
    if x >= y then x - y else 0
  }

  /** `i64` arithmetic as compiled without overflow checks: the two's-complement residue. */
  function WrapI64(x: int): (r: I64)
    ensures -I64_LIMIT <= x < I64_LIMIT ==> r == x
    ensures I64_LIMIT <= x < 3 * I64_LIMIT ==> r == x - 2 * I64_LIMIT
    ensures -3 * I64_LIMIT <= x < -I64_LIMIT ==> r == x + 2 * I64_LIMIT
  {
    (x + I64_LIMIT) % (2 * I64_LIMIT) - I64_LIMIT
  }

  lemma ShiftMod64(a: int, q: int)
    ensures (a - q * U64_LIMIT) % U64_LIMIT == a % U64_LIMIT
  {
    var k, r := a / U64_LIMIT, a % U64_LIMIT;
    assert a - q * U64_LIMIT == (k - q) * U64_LIMIT + r;
  }

  /** The characters `str::trim` removes. */
  const WHITESPACE: set<char> := {
    '\t', '\n', '\U{0B}', '\U{0C}', '\r', ' ', '\U{85}', '\U{A0}', '\U{1680}', '\U{2000}', '\U{2001}', '\U{2002}',
    '\U{2003}', '\U{2004}', '\U{2005}', '\U{2006}', '\U{2007}', '\U{2008}', '\U{2009}', '\U{200A}', '\U{2028}',
    '\U{2029}', '\U{202F}', '\U{205F}', '\U{3000}'
  }

  predicate IsBlank(s: string) {
    forall c | c in s :: c in WHITESPACE
  }
}
