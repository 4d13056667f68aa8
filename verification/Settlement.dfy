/** The settlement protocol: any number of `/pay` requests, the facilitator, the chain and the
    reconciliation jobs interleave on a table of invoices. One event is one atomic effect, so
    every await of the handler is a point where any other event may happen. */
module Settlement {
  import opened Wrappers
  import opened Invoice

  /** Where a `/pay` request is. `Sent` means the settle call is on the wire. */
  datatype Pc =
    | Arrived | Claimed | Verified | MarkedPc | Sent
    | RefusedPc                     // definite refusal answered, reopen not yet run
    | Reverting                     // the claim release is about to run
    | Reported(tx: nat)             // the facilitator answered "settled" with tx
    | Proven(tx: nat)               // the receipt of tx pays enough
    | Finished

  /** What became of the settle request itself, which outlives the handler. */
  datatype Wire = NotSent | InFlight | Paid(tx: nat) | Rejected

  datatype Payer = Payer(inv: nat, auth: Auth, pc: Pc, wire: Wire)

  /** `used`: authorizations consumed or cancelled on chain; `ledger`: what each transaction paid the treasury;
      `verdicts`: (invoice, nonce) pairs the resolver has read as unused on chain and not yet
      acted on, its read and its write being separate steps. */
  datatype State = State(rows: map<nat, Row>, payers: map<nat, Payer>, used: set<AuthId>, ledger: map<nat, int>,
                         clock: nat, verdicts: set<(nat, nat)>)

  /** One step of a request, or of its settle call on the chain. */
  datatype Act =
    | TryClaim | VerifyOk | TryMark | Send | Refuse
    | Report(claimedTx: nat)
    | ReopenOwn
    | FailLocal                     // exception or cancellation at an await inside the try
    | RunRevert | Prove | Settle
    | Abandon                       // held answer, crash, or cancellation outside the try
    | Land(tx: nat, amount: nat)    // the chain executes the in-flight authorization in time

  /** One write of a background job or of the owner. */
  datatype Job =
    | ReapClaim | OwnerReopen | ExpireStale
    | ScanSettle(tx: nat)
    | OwnerSettle(otx: Option<nat>)
    | CompleteHeld(tx: nat)
    | OwnerResolve(paid: bool)
    | ResolverReopen(nonce: nat)

  datatype Event =
    | Arrive(p: nat, inv: nat, auth: Auth)
    | OtherTransfer(tx: nat, amount: nat)
    | CancelOnChain(id: AuthId)     // the payer cancels an authorization: the chain marks it used
    | Tick(to: nat)
    | Judge(i: nat)                 // the resolver reads the chain's state of a held authorization
    | Request(p: nat, act: Act)
    | Write(i: nat, job: Job)

  // ----- the transition relation -----------------------------------------------------------

  /** The unique index: no row carries this transaction yet. */
  predicate TxFree(rows: map<nat, Row>, otx: Option<nat>) {
    otx.Some? ==> forall i | i in rows :: rows[i].tx != otx
  }

  predicate PayerAt(s: State, p: nat) {
    p in s.payers && s.payers[p].inv in s.rows
  }

  /** The request can still move, or has moved, money. */
  predicate Live(y: Payer) {
    y.wire.InFlight? || y.wire.Paid? || y.pc == MarkedPc
  }

  /** The request has paid, or the chain would still execute its authorization. */
  predicate CanPay(s: State, y: Payer) {
    || y.wire.Paid?
    || ((y.wire.InFlight? || y.pc == MarkedPc) && y.auth.id !in s.used && s.clock < y.auth.validBefore)
  }

  /** The resolver takes up a submission held for the whole window whose authorization the chain
      shows unused. Nothing here looks at the authorization's own deadline. */
  predicate Resolvable(s: State, r: Row) {
    && r.status == Settling && r.mark.Marked? && !r.terms.machine
    && r.mark.since + HOLD <= s.clock && r.mark.auth.id !in s.used
  }

  predicate ActEnabled(s: State, y: Payer, act: Act)
    requires y.inv in s.rows
  {
    match act
    case TryClaim => y.pc == Arrived
    case VerifyOk => y.pc == Claimed
    case TryMark => y.pc == Verified
    case Send => y.pc == MarkedPc
    case Refuse => y.pc == Sent && y.wire == InFlight
    case Report(_) => y.pc == Sent
    case ReopenOwn => y.pc == RefusedPc
    case FailLocal => y.pc != Arrived && y.pc != Reverting && y.pc != Finished && !y.pc.Proven?
    case RunRevert => y.pc == Reverting
    case Prove =>
      y.pc.Reported? && y.pc.tx in s.ledger && s.ledger[y.pc.tx] >= Atomic(s.rows[y.inv].terms)
    case Settle => y.pc.Proven?
    case Abandon => true
    case Land(tx, _) => y.wire == InFlight && y.auth.id !in s.used && s.clock < y.auth.validBefore && tx !in s.ledger
  }

  /** Held rows are completed by a transaction the chain proves; a void waits for the deadline. */
  predicate JobEnabled(s: State, i: nat, job: Job)
    requires i in s.rows
  {
    match job
    case CompleteHeld(tx) => tx in s.ledger && s.ledger[tx] >= Atomic(s.rows[i].terms)
    case OwnerResolve(paid) => paid || s.rows[i].terms.deadline < s.clock
    case ResolverReopen(nonce) => (i, nonce) in s.verdicts
    case _ => true
  }

  predicate Enabled(s: State, e: Event) {
    match e
    case Arrive(p, inv, _) =>
      p !in s.payers && inv in s.rows && s.rows[inv].status == Pending && Payable(s.rows[inv].terms, s.clock)
    case OtherTransfer(tx, _) => tx !in s.ledger
    case CancelOnChain(_) => true
    case Tick(to) => s.clock <= to
    case Judge(i) => i in s.rows && Resolvable(s, s.rows[i])
    case Request(p, act) => PayerAt(s, p) && ActEnabled(s, s.payers[p], act)
    case Write(i, job) => i in s.rows && JobEnabled(s, i, job)
  }

  /** The row after a guarded write; a miss leaves it as it was. */
  function After(r: Row, w: Option<Row>): Row {
    if w.Some? then w.value else r
  }

  function SettleRow(rows: map<nat, Row>, i: nat, otx: Option<nat>, pendingOnly: bool, writer: Settler): Row
    requires i in rows
  {
    if TxFree(rows, otx) then After(rows[i], Complete(rows[i], otx, pendingOnly, writer)) else rows[i]
  }

  /** What the act leaves of the request's own record. */
  function NextPayer(y: Payer, r: Row, act: Act): Payer {
    match act
    case TryClaim => y.(pc := if Invoice.Claim(r).Some? then Claimed else Finished)
    case VerifyOk => y.(pc := Verified)
    case TryMark => y.(pc := if MarkSubmitted(r, y.auth, 0).Some? then MarkedPc else Finished)
    case Send => y.(pc := Sent, wire := InFlight)
    case Refuse => y.(pc := RefusedPc, wire := Rejected)
    case Report(tx) => y.(pc := Reported(tx))
    case ReopenOwn => y.(pc := Reverting)
    case FailLocal => y.(pc := Reverting)
    case Prove => if y.pc.Reported? then y.(pc := Proven(y.pc.tx)) else y
    case Land(tx, _) => y.(wire := Paid(tx))
    case _ => y.(pc := Finished)
  }

  /** What the act leaves of its invoice's row. */
  function RequestRow(rows: map<nat, Row>, y: Payer, act: Act, now: nat): Row
    requires y.inv in rows
  {
    var r := rows[y.inv];
    match act
    case TryClaim => After(r, Invoice.Claim(r))
    case TryMark => After(r, MarkSubmitted(r, y.auth, now))
    case ReopenOwn => After(r, ReopenRejected(r, y.auth.id.nonce))
    case RunRevert => After(r, Revert(r))
    case Settle =>
      if y.pc.Proven? then SettleRow(rows, y.inv, Some(y.pc.tx), false, ByPay) else r
    case _ => r
  }

  /** What a job or the owner leaves of row `i`. */
  function JobRow(rows: map<nat, Row>, i: nat, job: Job): Row
    requires i in rows
  {
    var r := rows[i];
    match job
    case ReapClaim => After(r, Reap(r))
    case OwnerReopen => After(r, Revert(r))
    case ExpireStale => After(r, Expire(r))
    case ScanSettle(tx) => SettleRow(rows, i, Some(tx), true, ByScan)
    case OwnerSettle(otx) => SettleRow(rows, i, otx, false, ByOwner)
    case CompleteHeld(tx) => if TxFree(rows, Some(tx)) then After(r, Invoice.CompleteHeld(r, tx)) else r
    case OwnerResolve(paid) => After(r, ResolveHeld(r, paid))
    case ResolverReopen(nonce) => After(r, ReopenRejected(r, nonce))
  }

  /** One request and its row change, and the chain grows. */
  function Move(s: State, p: nat, y': Payer, r': Row, used': set<AuthId>, ledger': map<nat, int>): State
    requires p in s.payers
  {
    s.(rows := s.rows[s.payers[p].inv := r'], payers := s.payers[p := y'], used := used', ledger := ledger')
  }

  function Do(s: State, e: Event): State
    requires Enabled(s, e)
  {
    match e
    case Arrive(p, inv, auth) => s.(payers := s.payers[p := Payer(inv, auth, Arrived, NotSent)])
    case OtherTransfer(tx, amount) => s.(ledger := s.ledger[tx := amount])
    case CancelOnChain(id) => s.(used := s.used + {id})
    case Tick(to) => s.(clock := to)
    case Judge(i) => s.(verdicts := s.verdicts + {(i, s.rows[i].mark.auth.id.nonce)})
    case Write(i, job) => s.(rows := s.rows[i := JobRow(s.rows, i, job)])
    case Request(p, act) =>
      var y := s.payers[p];
      Move(s, p, NextPayer(y, s.rows[y.inv], act), RequestRow(s.rows, y, act, s.clock),
           if act.Land? then s.used + {y.auth.id} else s.used,
           if act.Land? then s.ledger[act.tx := act.amount] else s.ledger)
  }

  /** A fresh table: no requests yet, nothing submitted, nothing settled. */
  predicate Initial(s: State) {
    s.payers == map[] && s.verdicts == {} &&
    forall i | i in s.rows ::
      s.rows[i].mark == Unmarked && s.rows[i].tx == None && s.rows[i].settledBy == Nobody
  }

  /** A stretch of a run: every event was enabled where it happened. */
  predicate Steps(run: seq<State>, events: seq<Event>) {
    |run| == |events| + 1 &&
    forall k :: 0 <= k < |events| ==> Enabled(run[k], events[k]) && run[k + 1] == Do(run[k], events[k])
  }

  predicate IsRun(run: seq<State>, events: seq<Event>) {
    Steps(run, events) && Initial(run[0])
  }

  // ----- the inductive invariant -----------------------------------------------------------

  predicate NobodyCanPay(s: State, i: nat) {
    forall q | q in s.payers && s.payers[q].inv == i :: !CanPay(s, s.payers[q])
  }

  /** The event reopens invoice `i`: a refused request's own reopen, or the resolver's. */
  predicate ReopensInvoice(s: State, e: Event, i: nat) {
    && i in s.rows
    && ((e.Request? && e.act == ReopenOwn && e.p in s.payers && s.payers[e.p].inv == i
         && Reopens(s.rows[i], s.payers[e.p].auth.id.nonce))
        || (e.Write? && e.i == i && e.job.ResolverReopen? && Reopens(s.rows[i], e.job.nonce)))
  }

  /** If the event reopens an invoice, nothing submitted for it has paid or still can: each
      authorization is refused, consumed elsewhere or past its deadline. */
  predicate Sound(s: State, e: Event) {
    forall i | i in s.rows && ReopensInvoice(s, e, i) :: NobodyCanPay(s, i)
  }

  /** Which runs a statement covers: those without the resolver, those whose reopens are sound,
      or all of them. */
  datatype Scope = PayOnly | SoundReopens | AllRuns

  predicate InScope(s: State, e: Event, scope: Scope) {
    match scope
    case PayOnly => !(e.Write? && e.job.ResolverReopen?)
    case SoundReopens => Sound(s, e)
    case AllRuns => true
  }

  /** A request that owns its invoice's marker. Without the resolver, a refused request
      still owns it until its own reopen has run. (Nobody can be said to own it in `AllRuns`.) */
  predicate Holds(s: State, y: Payer, scope: Scope) {
    match scope
    case PayOnly => Live(y) || y.pc == RefusedPc
    case SoundReopens => CanPay(s, y)
    case AllRuns => false
  }

  /** The row carries the request's own marker. */
  predicate Bears(r: Row, a: Auth) {
    r.mark.Marked? && r.mark.auth == a && r.status != Pending
  }

  predicate PayerOk(s: State, p: nat, scope: Scope)
    requires p in s.payers
  {
    var y := s.payers[p];
    && y.inv in s.rows
    && WireOk(y)
    && (y.wire.Paid? ==> y.auth.id in s.used && y.wire.tx in s.ledger)
    && (y.pc.Proven? ==> y.pc.tx in s.ledger && s.ledger[y.pc.tx] >= Atomic(s.rows[y.inv].terms))
    && (Holds(s, y, scope) ==> Bears(s.rows[y.inv], y.auth))
  }

  predicate WireOk(y: Payer) {
    match y.pc
    case Arrived => y.wire == NotSent
    case Claimed => y.wire == NotSent
    case Verified => y.wire == NotSent
    case MarkedPc => y.wire == NotSent
    case Sent => y.wire.InFlight? || y.wire.Paid?
    case RefusedPc => y.wire == Rejected
    case _ => true
  }

  predicate RowOk(s: State, i: nat)
    requires i in s.rows
  {
    var r := s.rows[i];
    && TxAlone(s.rows, i)
    && (r.status == Pending ==> r.mark == Unmarked)
    && (r.settledBy != Nobody ==> r.status == Completed || r.status == RefundDue || r.status == Refunded)
    && (r.settledBy == ByPay || r.settledBy == ByHeld ==>
          r.tx.Some? && r.tx.value in s.ledger && s.ledger[r.tx.value] >= Atomic(r.terms))
  }

  predicate TxAlone(rows: map<nat, Row>, i: nat)
    requires i in rows
  {
    rows[i].tx.Some? ==> forall j | j in rows && j != i :: rows[j].tx != rows[i].tx
  }

  predicate PayersOk(s: State, scope: Scope) {
    forall p | p in s.payers :: PayerOk(s, p, scope)
  }

  predicate Exclusive(s: State, scope: Scope) {
    forall p, q | p in s.payers && q in s.payers && s.payers[p].inv == s.payers[q].inv
      && Holds(s, s.payers[p], scope) && Holds(s, s.payers[q], scope) :: p == q
  }

  predicate RowsOk(s: State) {
    forall i | i in s.rows :: RowOk(s, i)
  }

  predicate Inv(s: State, scope: Scope) {
    PayersOk(s, scope) && Exclusive(s, scope) && RowsOk(s)
  }

  /** What one event may touch: request `p` (if any), row `i`, and the growing chain. */
  predicate Touches(s: State, s': State, p: Option<nat>, i: nat) {
    && s'.rows.Keys == s.rows.Keys && i in s.rows
    && (forall j | j in s.rows :: s'.rows[j].terms == s.rows[j].terms)
    && (forall j | j in s.rows && j != i :: s'.rows[j] == s.rows[j])
    && s'.payers.Keys == s.payers.Keys + (if p.Some? then {p.value} else {})
    && (forall q | q in s.payers && p != Some(q) :: s'.payers[q] == s.payers[q])
    && (p.Some? ==> s'.payers[p.value].inv == i)
    && s.used <= s'.used && s.clock <= s'.clock
    && (forall t | t in s.ledger :: t in s'.ledger && s'.ledger[t] == s.ledger[t])
  }

  /** Whoever else holds row `i` still finds its own marker on it. */
  predicate OthersKeepMarker(s: State, s': State, p: Option<nat>, i: nat, scope: Scope)
    requires i in s'.rows
  {
    forall q | q in s.payers && p != Some(q) && s.payers[q].inv == i && Holds(s, s.payers[q], scope)
      :: Bears(s'.rows[i], s.payers[q].auth)
  }

  /** If `p` now holds row `i`, nobody else does. */
  predicate AloneIfHolding(s: State, s': State, p: Option<nat>, i: nat, scope: Scope) {
    p.Some? && p.value in s'.payers && Holds(s', s'.payers[p.value], scope) ==>
      forall q | q in s.payers && p != Some(q) && s.payers[q].inv == i :: !Holds(s, s.payers[q], scope)
  }

  lemma TouchKeepsPayers(s: State, s': State, p: Option<nat>, i: nat, scope: Scope)
    requires PayersOk(s, scope) && Touches(s, s', p, i)
    requires p.Some? ==> PayerOk(s', p.value, scope)
    requires OthersKeepMarker(s, s', p, i, scope)
    ensures PayersOk(s', scope)
  {
    forall q | q in s'.payers ensures PayerOk(s', q, scope) {
      if p != Some(q) { assert PayerOk(s, q, scope); }
    }
  }

  lemma TouchKeepsRows(s: State, s': State, p: Option<nat>, i: nat)
    requires RowsOk(s) && Touches(s, s', p, i)
    requires RowOk(s', i)
    ensures RowsOk(s')
  {
    forall j | j in s'.rows ensures RowOk(s', j) {
      if j != i {
        assert RowOk(s, j);
        assert TxAlone(s'.rows, j) by {
          assert TxAlone(s.rows, j) && TxAlone(s'.rows, i);
        }
      }
    }
  }

  lemma TouchKeepsExclusive(s: State, s': State, p: Option<nat>, i: nat, scope: Scope)
    requires Exclusive(s, scope) && Touches(s, s', p, i)
    requires AloneIfHolding(s, s', p, i, scope)
    ensures Exclusive(s', scope)
  {
  }

  lemma TouchKeepsInv(s: State, s': State, p: Option<nat>, i: nat, scope: Scope)
    requires Inv(s, scope) && Touches(s, s', p, i)
    requires RowOk(s', i)
    requires p.Some? ==> PayerOk(s', p.value, scope)
    requires OthersKeepMarker(s, s', p, i, scope) && AloneIfHolding(s, s', p, i, scope)
    ensures Inv(s', scope)
  {
    TouchKeepsPayers(s, s', p, i, scope);
    TouchKeepsRows(s, s', p, i);
    TouchKeepsExclusive(s, s', p, i, scope);
  }

  /** A marker somebody may hold survives the write. */
  predicate KeepsMarker(r: Row, r': Row) {
    r.mark.Marked? && r.status != Pending ==> r'.mark == r.mark && r'.status != Pending
  }

  lemma OnlyReopenDropsMarker(rows: map<nat, Row>, y: Payer, act: Act, now: nat, job: Job)
    requires y.inv in rows
    ensures act != ReopenOwn ==> KeepsMarker(rows[y.inv], RequestRow(rows, y, act, now))
    ensures act == ReopenOwn && !Reopens(rows[y.inv], y.auth.id.nonce) ==> RequestRow(rows, y, act, now) == rows[y.inv]
    ensures !job.ResolverReopen? ==> KeepsMarker(rows[y.inv], JobRow(rows, y.inv, job))
    ensures job.ResolverReopen? && !Reopens(rows[y.inv], job.nonce) ==> JobRow(rows, y.inv, job) == rows[y.inv]
  {
  }

  /** The row a write may leave: same terms, a transaction nobody else has, and a `/pay`
      completion only with a receipt that pays enough. */
  predicate GoodWrite(s: State, i: nat, r': Row)
    requires i in s.rows
  {
    var r := s.rows[i];
    && r'.terms == r.terms
    && (r'.status == Pending ==> r'.mark == Unmarked)
    && (r'.tx == r.tx || TxFree(s.rows, r'.tx))
    && (r'.settledBy != Nobody ==>
          r'.status == Completed || (r'.status == RefundDue && r'.settledBy == ByHeld)
          || ((r'.status == RefundDue || r'.status == Refunded) && r'.settledBy == r.settledBy))
    && (r'.settledBy == ByPay || r'.settledBy == ByHeld ==>
          || (r'.settledBy == r.settledBy && r'.tx == r.tx)
          || (r'.tx.Some? && r'.tx.value in s.ledger && s.ledger[r'.tx.value] >= Atomic(r.terms)))
  }

  lemma JobWritesAreGood(s: State, i: nat, job: Job)
    requires i in s.rows && RowOk(s, i) && JobEnabled(s, i, job)
    ensures GoodWrite(s, i, JobRow(s.rows, i, job))
  {
  }

  lemma RequestWritesAreGood(s: State, y: Payer, act: Act)
    requires y.inv in s.rows && RowOk(s, y.inv)
    requires y.pc.Proven? ==> y.pc.tx in s.ledger && s.ledger[y.pc.tx] >= Atomic(s.rows[y.inv].terms)
    ensures GoodWrite(s, y.inv, RequestRow(s.rows, y, act, s.clock))
  {
  }

  lemma GoodWriteKeepsRowOk(s: State, i: nat, r': Row, s': State)
    requires i in s.rows && RowOk(s, i) && GoodWrite(s, i, r')
    requires s'.rows == s.rows[i := r']
    requires forall t | t in s.ledger :: t in s'.ledger && s'.ledger[t] == s.ledger[t]
    ensures RowOk(s', i)
  {
    assert TxAlone(s.rows, i);
    assert TxAlone(s'.rows, i);
  }

  /** The request's own record after an act: still consistent with its row, and it becomes
      a holder only by setting a marker that was not there. */
  lemma RequestLocally(s: State, y: Payer, act: Act, scope: Scope)
    requires y.inv in s.rows && ActEnabled(s, y, act) && WireOk(y)
    requires Holds(s, y, scope) ==> Bears(s.rows[y.inv], y.auth)
    ensures
      var r, r' := s.rows[y.inv], RequestRow(s.rows, y, act, s.clock);
      var y' := NextPayer(y, r, act);
      && y'.inv == y.inv && y'.auth == y.auth && WireOk(y')
      && (Holds(s, y', scope) ==> Bears(r', y.auth))
      && (Holds(s, y', scope) ==> Holds(s, y, scope) || (r.mark == Unmarked && r.status == Settling))
      && (y'.pc.Proven? ==> y'.pc == y.pc || (act == Prove && y.pc == Reported(y'.pc.tx)))
      && (y'.wire.Paid? ==> y'.wire == y.wire || (act.Land? && y'.wire.tx == act.tx))
  {
  }

  lemma MoveKeepsInv(s: State, p: nat, y': Payer, r': Row, used': set<AuthId>, ledger': map<nat, int>, scope: Scope)
    requires Inv(s, scope) && PayerAt(s, p)
    requires s.used <= used' && forall t | t in s.ledger :: t in ledger' && ledger'[t] == s.ledger[t]
    requires y'.inv == s.payers[p].inv && r'.terms == s.rows[y'.inv].terms
    requires PayerOk(Move(s, p, y', r', used', ledger'), p, scope)
    requires RowOk(Move(s, p, y', r', used', ledger'), y'.inv)
    requires forall q | q in s.payers && q != p && s.payers[q].inv == y'.inv && Holds(s, s.payers[q], scope)
      :: Bears(r', s.payers[q].auth) && !Holds(s, y', scope)
    ensures Inv(Move(s, p, y', r', used', ledger'), scope)
  {
    TouchKeepsInv(s, Move(s, p, y', r', used', ledger'), Some(p), y'.inv, scope);
  }

  lemma RequestStepKeepsInv(s: State, p: nat, act: Act, scope: Scope)
    requires Inv(s, scope) && Enabled(s, Request(p, act))
    requires InScope(s, Request(p, act), scope)
    ensures Inv(Do(s, Request(p, act)), scope)
  {
    var y, s' := s.payers[p], Do(s, Request(p, act));
    var y', r' := NextPayer(y, s.rows[y.inv], act), RequestRow(s.rows, y, act, s.clock);
    assert PayerOk(s, p, scope) && RowOk(s, y.inv);
    RequestLocally(s, y, act, scope);
    RequestWritesAreGood(s, y, act);
    GoodWriteKeepsRowOk(s, y.inv, r', s');
    RequestRecordOk(s, p, act, scope, y', r', s');
    HoldersUnderRequest(s, p, act, scope);
    MoveKeepsInv(s, p, y', r', s'.used, s'.ledger, scope);
  }

  lemma RequestRecordOk(s: State, p: nat, act: Act, scope: Scope, y': Payer, r': Row, s': State)
    requires PayerAt(s, p) && ActEnabled(s, s.payers[p], act) && PayerOk(s, p, scope)
    requires s' == Move(s, p, y', r', s'.used, s'.ledger) && s.used <= s'.used
    requires forall t | t in s.ledger :: t in s'.ledger && s'.ledger[t] == s.ledger[t]
    requires act.Land? ==> s.payers[p].auth.id in s'.used && act.tx in s'.ledger
    requires r'.terms == s.rows[s.payers[p].inv].terms
    requires
      var y := s.payers[p];
      && y'.inv == y.inv && y'.auth == y.auth && WireOk(y')
      && (Holds(s, y', scope) ==> Bears(r', y.auth))
      && (y'.pc.Proven? ==> y'.pc == y.pc || (act == Prove && y.pc == Reported(y'.pc.tx)))
      && (y'.wire.Paid? ==> y'.wire == y.wire || (act.Land? && y'.wire.tx == act.tx))
    ensures PayerOk(s', p, scope)
  {
  }

  /** A write that reopens nothing keeps the marker of whoever holds the row. */
  lemma HolderKeepsMarker(s: State, e: Event, scope: Scope, i: nat, q: nat, r': Row)
    requires Inv(s, scope) && InScope(s, e, scope) && i in s.rows
    requires q in s.payers && s.payers[q].inv == i && Holds(s, s.payers[q], scope)
    requires KeepsMarker(s.rows[i], r') || r' == s.rows[i] || (scope == SoundReopens && ReopensInvoice(s, e, i))
    ensures Bears(r', s.payers[q].auth)
  {
    assert PayerOk(s, q, scope);
  }

  /** Any other holder of the row keeps its marker, and then this request holds nothing. */
  lemma HoldersUnderRequest(s: State, p: nat, act: Act, scope: Scope)
    requires Inv(s, scope) && Enabled(s, Request(p, act))
    requires InScope(s, Request(p, act), scope)
    ensures
      var y := s.payers[p];
      var r' := RequestRow(s.rows, y, act, s.clock);
      forall q | q in s.payers && q != p && s.payers[q].inv == y.inv && Holds(s, s.payers[q], scope)
        :: Bears(r', s.payers[q].auth) && !Holds(s, NextPayer(y, s.rows[y.inv], act), scope)
  {
    var y := s.payers[p];
    var r' := RequestRow(s.rows, y, act, s.clock);
    assert PayerOk(s, p, scope);
    RequestLocally(s, y, act, scope);
    OnlyReopenDropsMarker(s.rows, y, act, s.clock, ReapClaim);
    forall q | q in s.payers && q != p && s.payers[q].inv == y.inv && Holds(s, s.payers[q], scope)
      ensures Bears(r', s.payers[q].auth) && !Holds(s, NextPayer(y, s.rows[y.inv], act), scope)
    {
      assert PayerOk(s, q, scope);
      assert !Holds(s, y, scope);
      HolderKeepsMarker(s, Request(p, act), scope, y.inv, q, r');
    }
  }

  lemma HoldersUnderJob(s: State, i: nat, job: Job, scope: Scope)
    requires Inv(s, scope) && Enabled(s, Write(i, job))
    requires InScope(s, Write(i, job), scope)
    ensures forall q | q in s.payers && s.payers[q].inv == i && Holds(s, s.payers[q], scope)
      :: Bears(JobRow(s.rows, i, job), s.payers[q].auth)
  {
    forall q | q in s.payers && s.payers[q].inv == i && Holds(s, s.payers[q], scope)
      ensures Bears(JobRow(s.rows, i, job), s.payers[q].auth)
    {
      OnlyReopenDropsMarker(s.rows, s.payers[q], VerifyOk, 0, job);
      HolderKeepsMarker(s, Write(i, job), scope, i, q, JobRow(s.rows, i, job));
    }
  }

  lemma JobStepKeepsInv(s: State, i: nat, job: Job, scope: Scope)
    requires Inv(s, scope) && Enabled(s, Write(i, job))
    requires InScope(s, Write(i, job), scope)
    ensures Inv(Do(s, Write(i, job)), scope)
  {
    var r' := JobRow(s.rows, i, job);
    assert RowOk(s, i);
    JobWritesAreGood(s, i, job);
    GoodWriteKeepsRowOk(s, i, r', s.(rows := s.rows[i := r']));
    HoldersUnderJob(s, i, job, scope);
    RowWriteKeepsInv(s, i, r', scope);
  }

  lemma RowWriteKeepsInv(s: State, i: nat, r': Row, scope: Scope)
    requires Inv(s, scope) && i in s.rows && r'.terms == s.rows[i].terms
    requires RowOk(s.(rows := s.rows[i := r']), i)
    requires forall q | q in s.payers && s.payers[q].inv == i && Holds(s, s.payers[q], scope)
      :: Bears(r', s.payers[q].auth)
    ensures Inv(s.(rows := s.rows[i := r']), scope)
  {
    TouchKeepsInv(s, s.(rows := s.rows[i := r']), None, i, scope);
  }

  lemma ArrivalKeepsInv(s: State, p: nat, inv: nat, auth: Auth, scope: Scope)
    requires Inv(s, scope) && Enabled(s, Arrive(p, inv, auth))
    ensures Inv(Do(s, Arrive(p, inv, auth)), scope)
  {
    var s' := Do(s, Arrive(p, inv, auth));
    assert RowOk(s, inv) && PayerOk(s', p, scope) && RowOk(s', inv);
    assert forall q | q in s.payers && s.payers[q].inv == inv
      :: PayerOk(s, q, scope) && !Holds(s, s.payers[q], scope);
    TouchKeepsInv(s, s', Some(p), inv, scope);
  }

  /** Time, the chain and the resolver's reads move neither rows nor requests. */
  lemma QuietStepKeepsInv(s: State, s': State, scope: Scope)
    requires Inv(s, scope) && s'.rows == s.rows && s'.payers == s.payers
    requires s.used <= s'.used && s.clock <= s'.clock
    requires forall t | t in s.ledger :: t in s'.ledger && s'.ledger[t] == s.ledger[t]
    ensures Inv(s', scope)
  {
    forall q | q in s'.payers ensures PayerOk(s', q, scope) { assert PayerOk(s, q, scope); }
    forall j | j in s'.rows ensures RowOk(s', j) { assert RowOk(s, j) && TxAlone(s'.rows, j); }
  }

  lemma StepKeepsInv(s: State, e: Event, scope: Scope)
    requires Inv(s, scope) && Enabled(s, e)
    requires InScope(s, e, scope)
    ensures Inv(Do(s, e), scope)
  {
    match e
    case Arrive(p, inv, auth) => ArrivalKeepsInv(s, p, inv, auth, scope);
    case Write(i, job) => JobStepKeepsInv(s, i, job, scope);
    case Request(p, act) => RequestStepKeepsInv(s, p, act, scope);
    case _ => QuietStepKeepsInv(s, Do(s, e), scope);
  }

  // ----- whole runs ------------------------------------------------------------------------

  predicate InScopeUpTo(run: seq<State>, events: seq<Event>, scope: Scope, n: nat)
    requires n <= |events| < |run|
  {
    forall k :: 0 <= k < n ==> InScope(run[k], events[k], scope)
  }

  lemma {:induction false} StepsKeepInv(run: seq<State>, events: seq<Event>, scope: Scope, n: nat)
    requires Steps(run, events) && n <= |events| && InScopeUpTo(run, events, scope, n) && Inv(run[0], scope)
    ensures Inv(run[n], scope)
  {
    if n > 0 {
      StepsKeepInv(run, events, scope, n - 1);
      StepKeepsInv(run[n - 1], events[n - 1], scope);
    }
  }

  lemma RunKeepsInv(run: seq<State>, events: seq<Event>, scope: Scope, n: nat)
    requires IsRun(run, events) && n <= |events| && InScopeUpTo(run, events, scope, n)
    ensures Inv(run[n], scope)
  {
    var s := run[0];
    forall i | i in s.rows ensures RowOk(s, i) { assert TxAlone(s.rows, i); }
    StepsKeepInv(run, events, scope, n);
  }

  /** At most one payment per invoice is ever accepted on chain: in every interleaving without the
      resolver, whatever nonces the payers present; and, with the resolver, in every interleaving
      whose reopens are sound. */
  lemma AtMostOnePaymentAccepted(run: seq<State>, events: seq<Event>, scope: Scope, n: nat, p: nat, q: nat)
    requires IsRun(run, events) && n <= |events| && InScopeUpTo(run, events, scope, n) && scope != AllRuns
    requires p in run[n].payers && q in run[n].payers
    requires run[n].payers[p].inv == run[n].payers[q].inv
    requires run[n].payers[p].wire.Paid? && run[n].payers[q].wire.Paid?
    ensures p == q
  {
    RunKeepsInv(run, events, scope, n);
  }

  /** While a submission may still pay, its invoice is neither payable nor unmarked. */
  lemma LiveSubmissionHoldsInvoice(run: seq<State>, events: seq<Event>, scope: Scope, n: nat, p: nat)
    requires IsRun(run, events) && n <= |events| && InScopeUpTo(run, events, scope, n) && scope != AllRuns
    requires p in run[n].payers && CanPay(run[n], run[n].payers[p])
    ensures run[n].payers[p].inv in run[n].rows
    ensures
      var r := run[n].rows[run[n].payers[p].inv];
      && Bears(r, run[n].payers[p].auth) && Claim(r) == None && Revert(r) == None && Reap(r) == None
      && forall a, now :: MarkSubmitted(r, a, now) == None
  {
    RunKeepsInv(run, events, scope, n);
    assert PayerOk(run[n], p, scope);
  }

  /** In every run: an open invoice carries no marker, so a fresh request can be submitted. */
  lemma OpenInvoicesAreUnmarked(run: seq<State>, events: seq<Event>, n: nat, i: nat)
    requires IsRun(run, events) && n <= |events| && i in run[n].rows && run[n].rows[i].status == Pending
    ensures run[n].rows[i].mark == Unmarked && Claim(run[n].rows[i]).Some?
  {
    RunKeepsInv(run, events, AllRuns, n);
    assert RowOk(run[n], i);
  }

  /** In every run: a row completed by `/pay` or by the resolver's receipt names a transaction that
      paid the treasury at least what the invoice's challenge asked for, and no other row names it. */
  lemma CompletedByPayIsProven(run: seq<State>, events: seq<Event>, n: nat, i: nat)
    requires IsRun(run, events) && n <= |events| && i in run[n].rows
    requires run[n].rows[i].settledBy == ByPay || run[n].rows[i].settledBy == ByHeld
    ensures
      var s, r := run[n], run[n].rows[i];
      && (r.status == Completed || r.status == RefundDue || r.status == Refunded)
      && r.tx.Some? && r.tx.value in s.ledger
      && s.ledger[r.tx.value] >= Atomic(r.terms)
      && (ChallengeFor(r.terms).Accepts? ==> s.ledger[r.tx.value] >= ChallengeFor(r.terms).maxAmountRequired)
      && (if r.terms.raw.Number? && r.terms.raw.value > 0 then s.ledger[r.tx.value] >= r.terms.raw.value
          else s.ledger[r.tx.value] >= r.terms.dollarsRaw)
      && forall j | j in s.rows && j != i :: s.rows[j].tx != r.tx
  {
    RunKeepsInv(run, events, AllRuns, n);
    assert RowOk(run[n], i) && TxAlone(run[n].rows, i);
    ChallengeAsksForTheProvenAmount(run[n].rows[i].terms);
  }

  /** In every run, whoever settled them: two invoices never name the same transaction. */
  lemma OneTransactionSettlesOneInvoice(run: seq<State>, events: seq<Event>, n: nat, i: nat, j: nat)
    requires IsRun(run, events) && n <= |events| && i in run[n].rows && j in run[n].rows
    requires run[n].rows[i].tx.Some? && run[n].rows[j].tx == run[n].rows[i].tx
    ensures i == j
  {
    RunKeepsInv(run, events, AllRuns, n);
    assert RowOk(run[n], i) && TxAlone(run[n].rows, i);
  }

  /** A proven `/pay` settle, or a definite refusal of the nonce the row is marked with. */
  predicate LeavesByRequest(s: State, p: nat, act: Act, r: Row, r': Row)
    requires r.mark.Marked? && p in s.payers
  {
    var y := s.payers[p];
    if act == Settle then
      && y.pc.Proven? && y.pc.tx in s.ledger && s.ledger[y.pc.tx] >= Atomic(r.terms)
      && r'.status == Completed && r'.tx == Some(y.pc.tx) && r'.mark == r.mark
    else
      act == ReopenOwn && y.wire == Rejected && y.auth.id.nonce == r.mark.auth.id.nonce && r'.status == Pending
  }

  /** The resolver's earlier reading of that nonce as unused, the owner, or a transaction the
      chain proves. */
  predicate LeavesByJob(s: State, i: nat, job: Job, r: Row, r': Row)
    requires r.mark.Marked?
  {
    match job
    case ResolverReopen(nonce) => nonce == r.mark.auth.id.nonce && (i, nonce) in s.verdicts && r'.status == Pending
    case OwnerSettle(_) => r'.mark == r.mark && r'.status == Completed
    case CompleteHeld(tx) =>
      tx in s.ledger && s.ledger[tx] >= Atomic(r.terms) && r'.tx == Some(tx) && r'.mark == r.mark
    case OwnerResolve(paid) =>
      r'.mark == r.mark && if paid then r'.status == RefundDue else r'.status == Expired && r.terms.deadline < s.clock
    case _ => false
  }

  predicate StaysHeld(r: Row, r': Row) {
    r'.status == Settling && r'.mark == r.mark
  }

  lemma HeldUnderRequest(s: State, p: nat, act: Act)
    requires PayerAt(s, p) && ActEnabled(s, s.payers[p], act) && PayerOk(s, p, AllRuns)
    requires s.rows[s.payers[p].inv].status == Settling && s.rows[s.payers[p].inv].mark.Marked?
    ensures
      var r, r' := s.rows[s.payers[p].inv], RequestRow(s.rows, s.payers[p], act, s.clock);
      StaysHeld(r, r') || LeavesByRequest(s, p, act, r, r')
  {
  }

  lemma HeldUnderJob(s: State, i: nat, job: Job)
    requires i in s.rows && JobEnabled(s, i, job) && s.rows[i].status == Settling && s.rows[i].mark.Marked?
    ensures StaysHeld(s.rows[i], JobRow(s.rows, i, job)) || LeavesByJob(s, i, job, s.rows[i], JobRow(s.rows, i, job))
  {
  }

  /** In every run a marked row stays held, with its marker, but for those ways out. */
  lemma MarkedRowLeavesOnlyOnAnAnswer(run: seq<State>, events: seq<Event>, n: nat, i: nat)
    requires IsRun(run, events) && n < |events|
    requires i in run[n].rows && run[n].rows[i].status == Settling && run[n].rows[i].mark.Marked?
    ensures i in run[n + 1].rows
    ensures
      var s, e, r, r' := run[n], events[n], run[n].rows[i], run[n + 1].rows[i];
      || StaysHeld(r, r')
      || (e.Request? && PayerAt(s, e.p) && s.payers[e.p].inv == i && LeavesByRequest(s, e.p, e.act, r, r'))
      || (e.Write? && e.i == i && LeavesByJob(s, i, e.job, r, r'))
  {
    RunKeepsInv(run, events, AllRuns, n);
    match events[n]
    case Request(p, act) =>
      assert PayerOk(run[n], p, AllRuns);
      if run[n].payers[p].inv == i { HeldUnderRequest(run[n], p, act); }
    case Write(j, job) =>
      if j == i { HeldUnderJob(run[n], i, job); }
    case _ =>
  }

  /** What the resolver's verdict on a nonce was once read from: the invoice held under that nonce
      for the whole window, and the chain showing its authorization unused. */
  lemma {:induction false} VerdictsWereRead(run: seq<State>, events: seq<Event>, n: nat, i: nat, nonce: nat)
    requires IsRun(run, events) && n <= |events| && (i, nonce) in run[n].verdicts
    ensures exists k | 0 <= k < n ::
      && events[k] == Judge(i) && i in run[k].rows && Resolvable(run[k], run[k].rows[i])
      && run[k].rows[i].mark.auth.id.nonce == nonce
  {
    if (i, nonce) in run[n - 1].verdicts {
      VerdictsWereRead(run, events, n - 1, i, nonce);
    } else {
      assert events[n - 1] == Judge(i);
    }
  }

  /** Without the resolver a definite refusal always makes a still-held invoice payable again. */
  lemma RefusalReopens(run: seq<State>, events: seq<Event>, n: nat, p: nat)
    requires IsRun(run, events) && n < |events| && InScopeUpTo(run, events, PayOnly, n + 1)
    requires events[n] == Request(p, ReopenOwn)
    ensures p in run[n].payers && run[n].payers[p].inv in run[n].rows
    ensures
      var i := run[n].payers[p].inv;
      run[n].rows[i].status == Settling ==>
        i in run[n + 1].rows && run[n + 1].rows[i].status == Pending && run[n + 1].rows[i].mark == Unmarked
  {
    RunKeepsInv(run, events, PayOnly, n);
    assert PayerOk(run[n], p, PayOnly);
  }

  /** Every status change of every event is an edge of the invoice table. */
  lemma StepsFollowTheTable(s: State, e: Event, i: nat)
    requires Enabled(s, e) && i in s.rows
    ensures i in Do(s, e).rows
    ensures Do(s, e).rows[i].status != s.rows[i].status ==> Do(s, e).rows[i].status in Edges(s.rows[i].status)
    ensures Do(s, e).rows[i].terms == s.rows[i].terms
  {
  }

  /** The reaper, the scan, expiry and the owner's settle may try any row at any time; the resolver
      completes exactly on a transfer that covers the invoice, and reopens exactly on a verdict. */
  lemma WhenJobsMayTry(s: State, i: nat, tx: nat, otx: Option<nat>, nonce: nat)
    requires i in s.rows
    ensures Enabled(s, Write(i, ReapClaim)) && Enabled(s, Write(i, OwnerReopen)) && Enabled(s, Write(i, ExpireStale))
    ensures Enabled(s, Write(i, ScanSettle(tx))) && Enabled(s, Write(i, OwnerSettle(otx)))
    ensures var t := s.rows[i].terms;
      Enabled(s, Write(i, CompleteHeld(tx))) <==>
        tx in s.ledger && s.ledger[tx] >= if t.raw.Number? && t.raw.value > 0 then t.raw.value else t.dollarsRaw
    ensures Enabled(s, Write(i, ResolverReopen(nonce))) <==> (i, nonce) in s.verdicts
  {
  }

  /** What ends a submission's chance to pay, besides a refusal: its deadline, or the payer's own
      cancellation on chain; and a transfer the chain saw is known by its amount. */
  lemma ChancesEnd(s: State, y: Payer, to: nat, tx: nat, amount: nat)
    requires !y.wire.Paid? && s.clock <= to && tx !in s.ledger
    ensures !CanPay(Do(s, CancelOnChain(y.auth.id)), y)
    ensures CanPay(Do(s, Tick(to)), y) <==> CanPay(s, y) && to < y.auth.validBefore
    ensures var l := Do(s, OtherTransfer(tx, amount)).ledger; tx in l && l[tx] == amount
  {
  }

  /** Step `k` is the request's own claim of a pending invoice. */
  predicate Won(run: seq<State>, events: seq<Event>, k: nat, p: nat)
    requires k < |events| < |run|
  {
    && events[k] == Request(p, TryClaim) && PayerAt(run[k], p)
    && run[k].rows[run[k].payers[p].inv].status == Pending
  }

  /** Step `k` is the request's own marking of a settling, unmarked invoice. */
  predicate Marks(run: seq<State>, events: seq<Event>, k: nat, p: nat)
    requires k < |events| < |run|
  {
    && events[k] == Request(p, TryMark) && PayerAt(run[k], p)
    && run[k].rows[run[k].payers[p].inv].status == Settling && run[k].rows[run[k].payers[p].inv].mark == Unmarked
  }

  predicate GoesOn(y: Payer) {
    y.pc != Arrived && y.pc != Reverting && y.pc != Finished
  }

  predicate Submitted(y: Payer) {
    y.wire != NotSent || y.pc == MarkedPc
  }

  /** Who loses a claim or a marker stops there. */
  lemma LoserStops(y: Payer, r: Row)
    ensures GoesOn(NextPayer(y, r, TryClaim)) <==> r.status == Pending
    ensures NextPayer(y, r, TryMark).pc == MarkedPc <==> r.status == Settling && r.mark == Unmarked
    ensures GoesOn(NextPayer(y, r, TryMark)) <==> NextPayer(y, r, TryMark).pc == MarkedPc
  {
  }

  /** A request comes to be past its claim, or submitted, by its own winning step only. */
  lemma StartsGoingOn(s: State, e: Event, p: nat)
    requires Enabled(s, e) && p in Do(s, e).payers
    ensures GoesOn(Do(s, e).payers[p]) ==>
      || (p in s.payers && GoesOn(s.payers[p]))
      || (e == Request(p, TryClaim) && s.rows[s.payers[p].inv].status == Pending)
    ensures Submitted(Do(s, e).payers[p]) ==>
      || (p in s.payers && Submitted(s.payers[p]))
      || (e == Request(p, TryMark) && s.rows[s.payers[p].inv].status == Settling
          && s.rows[s.payers[p].inv].mark == Unmarked)
  {
    if e.Request? && e.p == p { LoserStops(s.payers[p], s.rows[s.payers[p].inv]); }
  }

  /** In every run: a request that is past its claim won it, from an invoice then pending; and one
      that reached the facilitator set the marker itself, on an invoice then unmarked. */
  lemma {:induction false} WhoGoesOnHasWon(run: seq<State>, events: seq<Event>, n: nat, p: nat)
    requires IsRun(run, events) && n <= |events| && p in run[n].payers
    ensures GoesOn(run[n].payers[p]) ==> exists k: nat | k < n :: Won(run, events, k, p)
    ensures Submitted(run[n].payers[p]) ==> exists k: nat | k < n :: Marks(run, events, k, p)
  {
    if n > 0 {
      StartsGoingOn(run[n - 1], events[n - 1], p);
      if p in run[n - 1].payers { WhoGoesOnHasWon(run, events, n - 1, p); }
      if GoesOn(run[n].payers[p]) && !(p in run[n - 1].payers && GoesOn(run[n - 1].payers[p])) {
        assert Won(run, events, n - 1, p);
      }
      if Submitted(run[n].payers[p]) && !(p in run[n - 1].payers && Submitted(run[n - 1].payers[p])) {
        assert Marks(run, events, n - 1, p);
      }
    }
  }

  predicate Closed(st: Status) {
    st == Completed || st == Expired || st == RefundDue || st == Refunded
  }

  /** In every run: an invoice that was completed, expired or owed back is never open or held again. */
  lemma {:induction false} ClosedStaysClosed(run: seq<State>, events: seq<Event>, m: nat, n: nat, i: nat)
    requires IsRun(run, events) && m <= n <= |events| && i in run[m].rows && Closed(run[m].rows[i].status)
    ensures i in run[n].rows && Closed(run[n].rows[i].status)
    ensures run[m].rows[i].status != Completed ==> run[n].rows[i].status != Completed
  {
    if m < n {
      ClosedStaysClosed(run, events, m, n - 1, i);
      StepsFollowTheTable(run[n - 1], events[n - 1], i);
      LeadsTo(run[n - 1].rows[i].status, run[n].rows[i].status);
    }
  }

  // ----- the missing guard -----------------------------------------------------------------

  /** No two requests for one invoice carry the same nonce. */
  predicate DistinctNonces(s: State) {
    forall p, q | p in s.payers && q in s.payers && p != q && s.payers[p].inv == s.payers[q].inv
      :: s.payers[p].auth.id.nonce != s.payers[q].auth.id.nonce
  }

  /** The guard the resolver lacks: it would read an authorization only once its recorded deadline
      has passed. */
  predicate JudgedLate(s: State, e: Event) {
    e.Judge? && e.i in s.rows && s.rows[e.i].mark.Marked? ==> s.rows[e.i].mark.auth.validBefore <= s.clock
  }

  /** The authorization a request submits expires within the hold window. */
  predicate ShortLived(s: State, e: Event) {
    e.Request? && e.act == TryMark && e.p in s.payers ==> s.payers[e.p].auth.validBefore <= s.clock + HOLD
  }

  predicate PastMarking(y: Payer) {
    y.pc != Arrived && y.pc != Claimed && y.pc != Verified
  }

  /** Every marker was set by a request that is past that point. */
  predicate MarkedBy(s: State, p: nat, i: nat, r: Row)
    requires r.mark.Marked?
  {
    p in s.payers && s.payers[p].inv == i && s.payers[p].auth == r.mark.auth && PastMarking(s.payers[p])
  }

  predicate MarksHaveOrigins(s: State) {
    forall i | i in s.rows && s.rows[i].mark.Marked? :: exists p | p in s.payers :: MarkedBy(s, p, i, s.rows[i])
  }

  predicate MarksShort(s: State) {
    forall i | i in s.rows && s.rows[i].mark.Marked? ::
      s.rows[i].mark.auth.validBefore <= s.rows[i].mark.since + HOLD
  }

  /** A request for the invoice under that nonce, past marking, that can never pay. */
  predicate SpentBy(s: State, p: nat, i: nat, nonce: nat) {
    && p in s.payers && s.payers[p].inv == i && s.payers[p].auth.id.nonce == nonce
    && PastMarking(s.payers[p]) && WireOk(s.payers[p]) && !CanPay(s, s.payers[p])
  }

  predicate VerdictsSpent(s: State) {
    forall v | v in s.verdicts :: exists p | p in s.payers :: SpentBy(s, p, v.0, v.1)
  }

  lemma StepKeepsMarksShort(s: State, e: Event)
    requires MarksShort(s) && Enabled(s, e) && ShortLived(s, e)
    ensures MarksShort(Do(s, e))
  {
  }

  lemma StepKeepsOrigins(s: State, e: Event)
    requires MarksHaveOrigins(s) && Enabled(s, e)
    ensures MarksHaveOrigins(Do(s, e))
  {
    var s' := Do(s, e);
    forall i | i in s'.rows && s'.rows[i].mark.Marked?
      ensures exists p | p in s'.payers :: MarkedBy(s', p, i, s'.rows[i])
    {
      if s.rows[i].mark.Marked? {
        var p :| p in s.payers && MarkedBy(s, p, i, s.rows[i]);
        assert s'.rows[i].mark == s.rows[i].mark;
        assert MarkedBy(s', p, i, s'.rows[i]);
      } else {
        assert e.Request? && e.act == TryMark;
        assert MarkedBy(s', e.p, i, s'.rows[i]);
      }
    }
  }

  /** Once spent, always spent. */
  lemma StepKeepsSpent(s: State, e: Event, p: nat, i: nat, nonce: nat)
    requires Enabled(s, e) && SpentBy(s, p, i, nonce)
    ensures SpentBy(Do(s, e), p, i, nonce)
  {
  }

  lemma StepKeepsVerdictsSpent(s: State, e: Event)
    requires Inv(s, SoundReopens) && MarksHaveOrigins(s) && VerdictsSpent(s) && Enabled(s, e) && JudgedLate(s, e)
    ensures VerdictsSpent(Do(s, e))
  {
    var s' := Do(s, e);
    forall v | v in s'.verdicts ensures exists p | p in s'.payers :: SpentBy(s', p, v.0, v.1) {
      if v in s.verdicts {
        var p :| p in s.payers && SpentBy(s, p, v.0, v.1);
        StepKeepsSpent(s, e, p, v.0, v.1);
      } else {
        var r := s.rows[e.i];
        var p :| p in s.payers && MarkedBy(s, p, e.i, r);
        assert PayerOk(s, p, SoundReopens);
        assert SpentBy(s', p, v.0, v.1);
      }
    }
  }

  /** With distinct nonces, and verdicts only on spent authorizations, a reopen is sound. */
  lemma SpentVerdictReopenIsSound(s: State, e: Event)
    requires Inv(s, SoundReopens) && VerdictsSpent(s) && DistinctNonces(s) && Enabled(s, e)
    ensures Sound(s, e)
  {
    forall i, q | i in s.rows && ReopensInvoice(s, e, i) && q in s.payers && s.payers[q].inv == i
      ensures !CanPay(s, s.payers[q])
    {
      assert PayerOk(s, q, SoundReopens);
      if e.Write? {
        assert (i, e.job.nonce) in s.verdicts;
        var p :| p in s.payers && SpentBy(s, p, i, e.job.nonce);
      } else {
        assert PayerOk(s, e.p, SoundReopens);
      }
    }
  }

  /** With the guard the resolver is safe: when nonces are distinct per invoice and every verdict is
      read past the authorization's deadline, every reopen of the run is sound. */
  lemma {:induction false} GuardedRunsAreSound(run: seq<State>, events: seq<Event>, n: nat)
    requires IsRun(run, events) && n <= |events|
    requires forall k | 0 <= k < n :: DistinctNonces(run[k]) && JudgedLate(run[k], events[k])
    ensures InScopeUpTo(run, events, SoundReopens, n)
    ensures MarksHaveOrigins(run[n]) && VerdictsSpent(run[n])
  {
    if n > 0 {
      GuardedRunsAreSound(run, events, n - 1);
      RunKeepsInv(run, events, SoundReopens, n - 1);
      SpentVerdictReopenIsSound(run[n - 1], events[n - 1]);
      StepKeepsOrigins(run[n - 1], events[n - 1]);
      StepKeepsVerdictsSpent(run[n - 1], events[n - 1]);
    }
  }

  /** What the guard sees is enough: a held row whose marked authorization is unused and past its
      deadline has nothing submitted for it that has paid or still can. */
  lemma GuardedRowIsSafe(s: State, i: nat)
    requires Inv(s, SoundReopens) && i in s.rows && s.rows[i].mark.Marked?
    requires s.rows[i].mark.auth.id !in s.used && s.rows[i].mark.auth.validBefore <= s.clock
    ensures NobodyCanPay(s, i)
  {
    forall q | q in s.payers && s.payers[q].inv == i ensures !CanPay(s, s.payers[q]) {
      assert PayerOk(s, q, SoundReopens);
    }
  }

  /** Every guarded reopen is safe, in every run whose earlier reopens were sound: the guard is
      asked of the row as it is at the reopen. */
  lemma GuardedReopenIsSound(run: seq<State>, events: seq<Event>, n: nat, e: Event, i: nat)
    requires IsRun(run, events) && n <= |events| && InScopeUpTo(run, events, SoundReopens, n)
    requires Enabled(run[n], e) && ReopensInvoice(run[n], e, i)
    requires run[n].rows[i].mark.auth.id !in run[n].used && run[n].rows[i].mark.auth.validBefore <= run[n].clock
    ensures Sound(run[n], e)
  {
    RunKeepsInv(run, events, SoundReopens, n);
    GuardedRowIsSafe(run[n], i);
  }

  /** Without the guard: while no authorization outlives the hold window, waiting for the window is
      waiting for the deadline. */
  lemma {:induction false} ShortLivedRunsJudgeLate(run: seq<State>, events: seq<Event>, n: nat)
    requires IsRun(run, events) && n <= |events|
    requires forall k | 0 <= k < n :: ShortLived(run[k], events[k])
    ensures MarksShort(run[n]) && forall k | 0 <= k < n :: JudgedLate(run[k], events[k])
  {
    if n > 0 {
      ShortLivedRunsJudgeLate(run, events, n - 1);
      StepKeepsMarksShort(run[n - 1], events[n - 1]);
    }
  }

  /** When no authorization outlives the hold window and nonces are distinct per invoice, the
      resolver is safe as it is: every reopen of the run is sound. */
  lemma ShortLivedRunsAreSound(run: seq<State>, events: seq<Event>, n: nat)
    requires IsRun(run, events) && n <= |events|
    requires forall k | 0 <= k < n :: DistinctNonces(run[k]) && ShortLived(run[k], events[k])
    ensures InScopeUpTo(run, events, SoundReopens, n)
  {
    ShortLivedRunsJudgeLate(run, events, n);
    GuardedRunsAreSound(run, events, n);
  }

  // ----- an unsound reopen -----------------------------------------------------------------

  /** `run` goes from `o` to `s`, and none of its reopens is unsound. */
  predicate Joins(run: seq<State>, events: seq<Event>, o: State, s: State) {
    Steps(run, events) && run[0] == o && run[|events|] == s && InScopeUpTo(run, events, SoundReopens, |events|)
  }

  ghost predicate Leads(o: State, s: State) {
    exists run, events :: Joins(run, events, o, s)
  }

  lemma LeadsToItself(s: State)
    ensures Leads(s, s)
  {
    assert Joins([s], [], s, s);
  }

  lemma LeadsStep(o: State, s: State, e: Event)
    requires Leads(o, s) && Enabled(s, e) && Sound(s, e)
    ensures Leads(o, Do(s, e))
  {
    var run, events :| Joins(run, events, o, s);
    var run', events' := run + [Do(s, e)], events + [e];
    forall k | 0 <= k < |events'|
      ensures Enabled(run'[k], events'[k]) && run'[k + 1] == Do(run'[k], events'[k]) && Sound(run'[k], events'[k])
    {
      if k < |events| {
        assert run'[k] == run[k] && run'[k + 1] == run[k + 1] && InScope(run[k], events[k], SoundReopens);
      }
    }
    assert Joins(run', events', o, Do(s, e));
  }

  /** `s'` differs from `s` in request `p`, row `i` and the chain only. */
  predicate OnlyMoved(s: State, s': State, p: nat, i: nat) {
    && p in s'.payers && i in s'.rows && s'.payers[p].inv == i
    && s'.payers.Keys == s.payers.Keys + {p} && s'.clock == s.clock
    && (forall q | q in s.payers && q != p :: s'.payers[q] == s.payers[q])
  }

  lemma LeadsAct(o: State, s: State, p: nat, act: Act) returns (s': State)
    requires Leads(o, s) && Enabled(s, Request(p, act)) && !act.Land? && act != ReopenOwn
    ensures Leads(o, s') && OnlyMoved(s, s', p, s.payers[p].inv)
    ensures s'.used == s.used && s'.ledger == s.ledger
    ensures
      var y := s.payers[p];
      s'.payers[p] == NextPayer(y, s.rows[y.inv], act) && s'.rows[y.inv] == RequestRow(s.rows, y, act, s.clock)
  {
    LeadsStep(o, s, Request(p, act));
    s' := Do(s, Request(p, act));
  }

  lemma LeadsLand(o: State, s: State, p: nat) returns (s': State)
    requires Leads(o, s) && PayerAt(s, p) && s.payers[p].wire == InFlight
    requires s.payers[p].auth.id !in s.used && s.clock < s.payers[p].auth.validBefore
    ensures Leads(o, s') && OnlyMoved(s, s', p, s.payers[p].inv) && s'.payers[p].wire.Paid?
    ensures s'.used == s.used + {s.payers[p].auth.id}
    ensures s'.payers[p].auth == s.payers[p].auth && s'.payers[p].pc == s.payers[p].pc
    ensures s'.rows[s.payers[p].inv] == s.rows[s.payers[p].inv]
  {
    var tx := Fresh(s.ledger.Keys);
    LeadsStep(o, s, Request(p, Land(tx, 5)));
    s' := Do(s, Request(p, Land(tx, 5)));
  }

  lemma {:induction false} Fresh(taken: set<nat>) returns (n: nat)
    ensures forall m | m in taken :: m < n
  {
    n := 0;
    if taken != {} {
      var m :| m in taken;
      var rest := Fresh(taken - {m});
      n := if rest <= m then m + 1 else rest;
      forall x | x in taken ensures x < n {
        if x != m { assert x in taken - {m}; }
      }
    }
  }

  /** An authorization nobody has used, nor submitted under the same nonce. */
  lemma FreshAuth(s: State) returns (a: Auth)
    ensures a.id !in s.used && s.clock < a.validBefore
    ensures forall q | q in s.payers :: s.payers[q].auth.id.nonce != a.id.nonce
  {
    var payers := set id | id in s.used :: id.payer;
    var nonces := set q | q in s.payers :: s.payers[q].auth.id.nonce;
    var n := Fresh(payers + nonces);
    a := Auth(AuthId(n, n), s.clock + 1);
    assert forall id | id in s.used :: id.payer in payers + nonces;
    assert forall q | q in s.payers :: s.payers[q].auth.id.nonce in payers + nonces;
  }

  predicate Open(s: State, i: nat) {
    i in s.rows && s.rows[i].status == Pending && s.rows[i].mark == Unmarked && Payable(s.rows[i].terms, s.clock)
  }

  lemma OpenInvoiceCanBeVerified(o: State, s: State, p: nat, i: nat, auth: Auth) returns (s': State)
    requires Leads(o, s) && p !in s.payers && Open(s, i)
    ensures Leads(o, s') && OnlyMoved(s, s', p, i) && s'.used == s.used && s'.ledger == s.ledger
    ensures s'.rows[i] == s.rows[i].(status := Settling, claimed := true)
    ensures s'.payers[p] == Payer(i, auth, Verified, NotSent)
  {
    LeadsStep(o, s, Arrive(p, i, auth));
    s' := Do(s, Arrive(p, i, auth));
    s' := LeadsAct(o, s', p, TryClaim);
    s' := LeadsAct(o, s', p, VerifyOk);
  }

  /** A new request can always take an open invoice all the way to the settle call. */
  lemma OpenInvoiceCanBeSubmitted(o: State, s: State, p: nat, i: nat, auth: Auth) returns (s': State)
    requires Leads(o, s) && p !in s.payers && Open(s, i)
    ensures Leads(o, s') && OnlyMoved(s, s', p, i) && s'.used == s.used && s'.ledger == s.ledger
    ensures s'.rows[i] == s.rows[i].(status := Settling, claimed := true, mark := Marked(auth, s.clock))
    ensures s'.payers[p] == Payer(i, auth, Sent, InFlight)
  {
    s' := OpenInvoiceCanBeVerified(o, s, p, i, auth);
    s' := LeadsAct(o, s', p, TryMark);
    s' := LeadsAct(o, s', p, Send);
  }

  predicate PaidTwice(s: State, i: nat) {
    exists p, q | p in s.payers && q in s.payers && p != q ::
      s.payers[p].inv == i && s.payers[q].inv == i && s.payers[p].wire.Paid? && s.payers[q].wire.Paid?
  }

  /** Request `q` goes on to pay, if it has not. */
  lemma LiveSubmissionPays(o: State, s: State, q: nat) returns (s': State)
    requires Leads(o, s) && PayerAt(s, q) && CanPay(s, s.payers[q])
    ensures Leads(o, s') && s'.payers.Keys == s.payers.Keys
    ensures q in s'.payers && s'.payers[q].wire.Paid?
    ensures s'.payers[q].inv == s.payers[q].inv && s'.payers[q].auth == s.payers[q].auth
    ensures forall p | p in s.payers && p != q :: s'.payers[p] == s.payers[p]
  {
    s' := s;
    if s.payers[q].pc == MarkedPc && !s.payers[q].wire.Paid? {
      s' := LeadsAct(o, s', q, Send);
    }
    if !s'.payers[q].wire.Paid? {
      s' := LeadsLand(o, s', q);
    }
  }

  /** A newcomer with a fresh authorization pays an open invoice; who could pay still can. */
  lemma NewcomerPays(o: State, s: State, i: nat) returns (s': State, p: nat)
    requires Leads(o, s) && Open(s, i)
    ensures Leads(o, s') && p !in s.payers && s'.payers.Keys == s.payers.Keys + {p} && i in s'.rows
    ensures s'.payers[p].inv == i && s'.payers[p].wire.Paid?
    ensures forall q | q in s.payers ::
      s'.payers[q] == s.payers[q] && s.payers[q].auth.id.nonce != s'.payers[p].auth.id.nonce
    ensures forall q | q in s.payers && CanPay(s, s.payers[q]) :: CanPay(s', s.payers[q])
  {
    p := Fresh(s.payers.Keys);
    var auth := FreshAuth(s);
    var s1 := OpenInvoiceCanBeSubmitted(o, s, p, i, auth);
    s' := LeadsLand(o, s1, p);
  }

  /** A submission that can pay and holds no marker any more pays beside a newcomer, whose nonce
      is nobody else's. */
  lemma OpenBesideLivePaysTwice(o: State, s: State, i: nat, q: nat) returns (s': State)
    requires Leads(o, s) && Open(s, i) && q in s.payers && s.payers[q].inv == i && CanPay(s, s.payers[q])
    ensures Leads(o, s') && PaidTwice(s', i) && (DistinctNonces(s) ==> DistinctNonces(s'))
  {
    var s1, p := NewcomerPays(o, s, i);
    s' := LiveSubmissionPays(o, s1, q);
    assert s'.payers[p].wire.Paid? && s'.payers[q].wire.Paid?;
    assert forall r | r in s.payers :: s'.payers[r].inv == s.payers[r].inv && s'.payers[r].auth == s.payers[r].auth;
  }

  /** What a reopen leaves: the invoice open, and every other request where it was. */
  lemma ReopenOpens(s: State, e: Event, i: nat)
    requires Inv(s, AllRuns) && Enabled(s, e) && ReopensInvoice(s, e, i) && Payable(s.rows[i].terms, s.clock)
    ensures Open(Do(s, e), i)
    ensures forall q | q in s.payers && CanPay(s, s.payers[q]) ::
      q in Do(s, e).payers && Do(s, e).payers[q] == s.payers[q] && CanPay(Do(s, e), s.payers[q])
  {
    if e.Request? { assert PayerOk(s, e.p, AllRuns); }
  }

  /** Some continuation in which every further reopen is sound pays the invoice twice. */
  ghost predicate CanBePaidTwice(s: State, i: nat) {
    exists s' :: Leads(s, s') && PaidTwice(s', i)
  }

  /** The same with every nonce distinct to the end. */
  ghost predicate CanBePaidTwiceDistinctly(s: State, i: nat) {
    exists s' :: Leads(s, s') && PaidTwice(s', i) && DistinctNonces(s')
  }

  /** Exactly when a reopen is safe. After a run whose reopens were sound, the next reopen of an
      invoice that is still payable leaves no way to pay it twice if and only if nothing submitted
      for it has paid, and each authorization is refused, consumed elsewhere or past its deadline. */
  lemma ReopenIsSafeIff(run: seq<State>, events: seq<Event>, n: nat, e: Event, i: nat)
    requires IsRun(run, events) && n <= |events| && InScopeUpTo(run, events, SoundReopens, n)
    requires Enabled(run[n], e) && ReopensInvoice(run[n], e, i) && Payable(run[n].rows[i].terms, run[n].clock)
    ensures !CanBePaidTwice(Do(run[n], e), i) <==> NobodyCanPay(run[n], i)
  {
    var s := run[n];
    RunKeepsInv(run, events, AllRuns, n);
    RunKeepsInv(run, events, SoundReopens, n);
    if NobodyCanPay(s, i) {
      ReopensOnlyOne(s, e, i);
      StepKeepsInv(s, e, SoundReopens);
      if CanBePaidTwice(Do(s, e), i) {
        var s' :| Leads(Do(s, e), s') && PaidTwice(s', i);
        var run', events' :| Joins(run', events', Do(s, e), s');
        StepsKeepInv(run', events', SoundReopens, |events'|);
        assert false;
      }
    } else {
      var q :| q in s.payers && s.payers[q].inv == i && CanPay(s, s.payers[q]);
      ReopenOpens(s, e, i);
      LeadsToItself(Do(s, e));
      var s' := OpenBesideLivePaysTwice(Do(s, e), Do(s, e), i, q);
    }
  }

  lemma ReopensOnlyOne(s: State, e: Event, i: nat)
    requires ReopensInvoice(s, e, i) && NobodyCanPay(s, i)
    ensures Sound(s, e)
  {
  }

  // ----- the resolver as it is -------------------------------------------------------------

  function Terms5(): Terms {
    Terms(Facilitator, Number(5), 5, 0, false)
  }

  /** One invoice, open; nothing else has happened. */
  function Start(): State {
    State(map[0 := Row(Terms5(), Pending, false, Unmarked, None, Nobody)], map[], {}, map[], 0, {})
  }

  /** An unanswered submission. */
  lemma Unanswered(a: Auth) returns (s: State)
    ensures Leads(Start(), s) && s.payers.Keys == {0} && s.payers[0] == Payer(0, a, Finished, InFlight)
    ensures 0 in s.rows && s.rows[0].terms == Terms5() && s.rows[0].status == Settling
    ensures s.rows[0].mark == Marked(a, 0) && s.clock == 0 && s.used == {}
  {
    LeadsToItself(Start());
    s := OpenInvoiceCanBeSubmitted(Start(), Start(), 0, 0, a);
    s := LeadsAct(Start(), s, 0, Abandon);
  }

  /** The same, held for the whole window and read by the resolver, its authorization still valid. */
  lemma HeldUnanswered(a: Auth) returns (s: State)
    requires a.validBefore > HOLD
    ensures Leads(Start(), s) && s.payers.Keys == {0} && s.payers[0] == Payer(0, a, Finished, InFlight)
    ensures 0 in s.rows && s.rows[0].terms == Terms5() && s.rows[0].status == Settling
    ensures s.rows[0].mark == Marked(a, 0) && s.clock == HOLD && s.used == {} && (0, a.id.nonce) in s.verdicts
  {
    s := Unanswered(a);
    LeadsStep(Start(), s, Tick(HOLD));
    s := Do(s, Tick(HOLD));
    LeadsStep(Start(), s, Judge(0));
    s := Do(s, Judge(0));
  }

  /** From a fresh table by sound steps to a resolver reopen after which invoice 0 can be paid twice,
      every nonce being distinct to the end. */
  ghost predicate LosesTheInvoice(s: State, nonce: nat) {
    && Initial(Start()) && Leads(Start(), s) && Enabled(s, Write(0, ResolverReopen(nonce)))
    && CanBePaidTwiceDistinctly(Do(s, Write(0, ResolverReopen(nonce))), 0)
  }

  /** One unanswered submission whose authorization outlives the hold window is enough: every
      nonce distinct, every earlier step sound, and the resolver's reopen lets the invoice be paid
      twice. */
  lemma DistinctNoncesCanPayTwice()
    ensures exists s, nonce :: LosesTheInvoice(s, nonce)
  {
    var a := Auth(AuthId(1, 7), HOLD + 1);
    var s := HeldUnanswered(a);
    var e := Write(0, ResolverReopen(7));
    LeadsToItself(Do(s, e));
    var s' := OpenBesideLivePaysTwice(Do(s, e), Do(s, e), 0, 0);
    assert LosesTheInvoice(s, 7);
  }

  // ----- refused requests that come back late ----------------------------------------------

  /** A refused request still waiting to run its reopen. */
  lemma RefusedWaits(a: Auth) returns (s: State)
    ensures Leads(Start(), s) && s.payers.Keys == {0} && s.payers[0] == Payer(0, a, RefusedPc, Rejected)
    ensures 0 in s.rows && s.rows[0].terms == Terms5() && s.rows[0].status == Settling
    ensures s.rows[0].mark == Marked(a, 0) && s.clock == 0 && s.used == {}
  {
    LeadsToItself(Start());
    s := OpenInvoiceCanBeSubmitted(Start(), Start(), 0, 0, a);
    s := LeadsAct(Start(), s, 0, Refuse);
  }

  /** The same, after the hold window: the resolver has read the refused nonce as unused. */
  lemma RefusedIsJudged(a: Auth) returns (s: State)
    ensures Leads(Start(), s) && s.payers.Keys == {0} && s.payers[0] == Payer(0, a, RefusedPc, Rejected)
    ensures 0 in s.rows && s.rows[0].terms == Terms5() && s.rows[0].status == Settling
    ensures s.rows[0].mark == Marked(a, 0) && s.clock == HOLD && s.used == {} && (0, a.id.nonce) in s.verdicts
  {
    s := RefusedWaits(a);
    LeadsStep(Start(), s, Tick(HOLD));
    s := Do(s, Tick(HOLD));
    LeadsStep(Start(), s, Judge(0));
    s := Do(s, Judge(0));
  }

  /** Then the resolver reopens, and a second request submits under the same nonce. */
  lemma NonceIsReused(a: Auth) returns (s: State)
    requires a.validBefore > HOLD
    ensures Leads(Start(), s) && s.payers.Keys == {0, 1} && s.payers[0] == Payer(0, a, RefusedPc, Rejected)
    ensures s.payers[1] == Payer(0, a, Sent, InFlight)
    ensures 0 in s.rows && s.rows[0].terms == Terms5() && s.rows[0].status == Settling
    ensures s.rows[0].mark == Marked(a, HOLD) && s.clock == HOLD && s.used == {}
  {
    s := RefusedIsJudged(a);
    var e := Write(0, ResolverReopen(a.id.nonce));
    LeadsStep(Start(), s, e);
    s := Do(s, e);
    s := OpenInvoiceCanBeSubmitted(Start(), s, 1, 0, a);
  }

  ghost predicate LosesByOwnReopen(s: State) {
    && Initial(Start()) && Leads(Start(), s) && Enabled(s, Request(0, ReopenOwn))
    && CanBePaidTwice(Do(s, Request(0, ReopenOwn)), 0)
  }

  /** The other unsound reopen: with a nonce used by two requests, the first one's late reopen
      releases the second one's live submission, and the invoice can be paid twice. */
  lemma SharedNonceCanPayTwice()
    ensures exists s :: LosesByOwnReopen(s)
  {
    var s := NonceIsReused(Auth(AuthId(1, 7), HOLD + 1));
    var s' := Do(s, Request(0, ReopenOwn));
    LeadsToItself(s');
    var _ := OpenBesideLivePaysTwice(s', s', 0, 1);
    assert LosesByOwnReopen(s);
  }

  ghost predicate ClaimLost(s: State) {
    Initial(Start()) && Leads(Start(), s) && exists p | p in s.payers && s.payers[p].inv in s.rows ::
      s.payers[p].pc == Claimed && s.rows[s.payers[p].inv].status == Pending
  }

  /** The claim alone excludes nobody: the release that follows a refusal can free a later
      request's claim, so an invoice can be open while a request still believes it holds it. */
  lemma ClaimCanBeReleasedByAnother()
    ensures exists s :: ClaimLost(s)
  {
    var s := RefusedWaits(Auth(AuthId(1, 7), 9));
    LeadsStep(Start(), s, Request(0, ReopenOwn));
    s := Do(s, Request(0, ReopenOwn));
    LeadsStep(Start(), s, Arrive(1, 0, Auth(AuthId(2, 8), 9)));
    s := Do(s, Arrive(1, 0, Auth(AuthId(2, 8), 9)));
    s := LeadsAct(Start(), s, 1, TryClaim);
    s := LeadsAct(Start(), s, 0, RunRevert);
    assert s.payers[1].pc == Claimed && s.rows[0].status == Pending;
    assert ClaimLost(s);
  }
}
