/** One row of the invoice table and the guarded SQL writes that change it.
    Every write is a compare-and-set: `None` is the miss (no row matched the WHERE clause). */
module Invoice {
  import opened Wrappers

  datatype Status = Pending | Settling | Completed | SettledNoTx | Expired | RefundDue | Refunded

  /** What the chain keys an authorization by (EIP-3009): each (payer, nonce) moves funds once. */
  datatype AuthId = AuthId(payer: nat, nonce: nat)

  /** A signed authorization; the chain executes it only before `validBefore`. */
  datatype Auth = Auth(id: AuthId, validBefore: nat)

  /** The durable "submitted to the facilitator" marker: the authorization, and when it was set. */
  datatype Mark = Unmarked | Marked(auth: Auth, since: nat)

  /** How long a submission is held before the resolver asks the chain about it. */
  const HOLD := 1800

  /** The stored raw amount, as Python's `int()` reads it. */
  datatype RawField = Absent | NotANumber | Number(value: int)

  datatype Rail = NoAsset | Facilitator | OnchainScan

  /** The columns fixed at creation. `dollarsRaw` is `to_atomic_amount` of the dollar amount;
      `machine` rows record a service paid per request and are no invoices. */
  datatype Terms = Terms(rail: Rail, raw: RawField, dollarsRaw: int, deadline: int, machine: bool)

  /** Which of the writers of 'completed' moved the row (a record kept for the theorems). */
  datatype Settler = Nobody | ByPay | ByScan | ByOwner | ByHeld

  datatype Row = Row(terms: Terms, status: Status, claimed: bool, mark: Mark,
                     tx: Option<nat>, settledBy: Settler)

  /** The transition table every status write is checked against. */
  function Edges(s: Status): set<Status> {
    match s
    case Pending => {Settling, Completed, Expired}
    case Settling => {Pending, Completed, RefundDue, Expired}
    case Completed => {RefundDue}
    case SettledNoTx => {Completed, RefundDue, Expired}
    case RefundDue => {Refunded}
    case Expired => {}
    case Refunded => {}
  }

  /** The table read backwards: what can lead to each status. */
  lemma LeadsTo(from: Status, to: Status)
    ensures to in Edges(from) <==>
      match to
      case Pending => from == Settling
      case Settling => from == Pending
      case Completed => from == Pending || from == Settling || from == SettledNoTx
      case SettledNoTx => false
      case Expired => from == Pending || from == Settling || from == SettledNoTx
      case RefundDue => from == Settling || from == SettledNoTx || from == Completed
      case Refunded => from == RefundDue
  {
  }

  // ----- amounts -------------------------------------------------------------------------

  /** The raw amount an invoice is paid with: a positive stored amount wins over the dollars. */
  function Atomic(t: Terms): int {
    if t.raw.Number? && t.raw.value > 0 then t.raw.value else t.dollarsRaw
  }

  datatype Challenge = Unpayable | Accepts(maxAmountRequired: int) | DirectTransfer(raw: RawField)

  function ChallengeFor(t: Terms): Challenge {
    match t.rail
    case NoAsset => Unpayable
    case Facilitator => Accepts(Atomic(t))
    case OnchainScan => DirectTransfer(t.raw)
  }

  predicate RefusedByFacilitatorRail(t: Terms) {
    t.rail == OnchainScan
  }

  // ----- guarded writes ------------------------------------------------------------------

  function Claim(r: Row): Option<Row> {
    if r.status == Pending then Some(r.(status := Settling, claimed := true)) else None
  }

  function Revert(r: Row): Option<Row> {
    if r.status == Settling && r.mark == Unmarked
    then Some(r.(status := Pending, claimed := false)) else None
  }

  function MarkSubmitted(r: Row, a: Auth, now: nat): Option<Row> {
    if r.status == Settling && r.mark == Unmarked then Some(r.(mark := Marked(a, now))) else None
  }

  /** A reopen under `nonce` finds the row. */
  predicate Reopens(r: Row, nonce: nat) {
    r.status == Settling && r.mark.Marked? && r.mark.auth.id.nonce == nonce
  }

  /** Keyed on the submitted nonce only, as the WHERE clause is. */
  function ReopenRejected(r: Row, nonce: nat): Option<Row> {
    if Reopens(r, nonce) then Some(r.(status := Pending, mark := Unmarked)) else None
  }

  /** The statuses `settle_payment_request` completes: a held machine payment is a refund owed,
      never income. */
  predicate Completable(r: Row, proven: bool) {
    || r.status == Pending
    || (r.status == Settling && !r.terms.machine)
    || (r.status == SettledNoTx && proven)
  }

  /** `settle_payment_request` on one row; the caller checks that the transaction is unused. */
  function Complete(r: Row, tx: Option<nat>, fromPendingOnly: bool, writer: Settler): Option<Row> {
    if (if fromPendingOnly then r.status == Pending else Completable(r, tx.Some?))
    then Some(r.(status := Completed, tx := tx, settledBy := writer)) else None
  }

  /** `complete_held`: a machine payment is recorded as a refund owed. */
  function CompleteHeld(r: Row, tx: nat): Option<Row> {
    if !r.terms.machine then Complete(r, Some(tx), false, ByHeld)
    else if r.status == Settling then Some(r.(status := RefundDue, tx := Some(tx), settledBy := ByHeld))
    else None
  }

  function Reap(r: Row): Option<Row> {
    if r.claimed then Revert(r) else None
  }

  function Expire(r: Row): Option<Row> {
    if r.status == Pending then Some(r.(status := Expired)) else None
  }

  /** The owner's verdict on a held row: charged but undelivered, or never paid. */
  function ResolveHeld(r: Row, paid: bool): Option<Row> {
    if r.status == SettledNoTx || (r.status == Settling && r.mark.Marked?)
    then Some(r.(status := if paid then RefundDue else Expired)) else None
  }

  /** `/pay` takes a payment header for this invoice: it is one, its rail is not refused, its
      deadline has not passed. */
  predicate Payable(t: Terms, now: nat) {
    !t.machine && !RefusedByFacilitatorRail(t) && !(t.deadline != 0 && t.deadline < now)
  }

  /** The one amount rule: whenever a challenge asks for a signature, the amount it asks for
      is positive-raw-first, and it is the amount `/pay` later demands proof of. */
  lemma ChallengeAsksForTheProvenAmount(t: Terms)
    ensures ChallengeFor(t).Accepts? ==> ChallengeFor(t).maxAmountRequired == Atomic(t)
    ensures t.raw.Number? && t.raw.value > 0 ==> Atomic(t) == t.raw.value
    ensures !(t.raw.Number? && t.raw.value > 0) ==> Atomic(t) == t.dollarsRaw
    ensures ChallengeFor(t).DirectTransfer? ==> ChallengeFor(t).raw == t.raw
    ensures ChallengeFor(t).DirectTransfer? <==> RefusedByFacilitatorRail(t)
  {
  }
}
