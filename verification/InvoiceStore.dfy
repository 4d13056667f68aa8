/** The invoice table as an object, and the `/pay` handler run over it without interference.
    Each write method is one guarded UPDATE; the protocol's events use the same row functions. */
module InvoiceStore {
  import opened Wrappers
  import opened Invoice
  import Net = Settlement

  /** The table after a guarded write to row `id`. */
  function Written(rows: map<nat, Row>, id: nat, w: Option<Row>): map<nat, Row> {
    if w.Some? then rows[id := w.value] else rows
  }

  predicate TxUnused(rows: map<nat, Row>, tx: nat) {
    forall i | i in rows :: rows[i].tx != Some(tx)
  }

  class Store {
    var rows: map<nat, Row>

    constructor (initial: map<nat, Row>)
      ensures rows == initial
    {
      rows := initial;
    }

    method ClaimForSettlement(id: nat) returns (won: bool)
      modifies this
      ensures won <==> id in old(rows) && old(rows)[id].status == Pending
      ensures rows == if won then Written(old(rows), id, Claim(old(rows)[id])) else old(rows)
    {
      won := false;
      if id in rows && rows[id].status == Pending {
        rows := rows[id := rows[id].(status := Settling, claimed := true)];
        won := true;
      }
    }

    method RevertSettlementClaim(id: nat)
      modifies this
      ensures rows == if id in old(rows) then Written(old(rows), id, Revert(old(rows)[id])) else old(rows)
    {
      if id in rows && rows[id].status == Settling && rows[id].mark == Unmarked {
        rows := rows[id := rows[id].(status := Pending, claimed := false)];
      }
    }

    method MarkInvoiceSubmitted(id: nat, auth: Auth, now: nat) returns (ok: bool)
      modifies this
      ensures ok <==> id in old(rows) && old(rows)[id].status == Settling && old(rows)[id].mark == Unmarked
      ensures rows == if ok then Written(old(rows), id, MarkSubmitted(old(rows)[id], auth, now)) else old(rows)
    {
      ok := false;
      if id in rows && rows[id].status == Settling && rows[id].mark == Unmarked {
        rows := rows[id := rows[id].(mark := Marked(auth, now))];
        ok := true;
      }
    }

    method ReopenRejectedSettlement(id: nat, nonce: nat)
      modifies this
      ensures rows == if id in old(rows) then Written(old(rows), id, ReopenRejected(old(rows)[id], nonce))
                      else old(rows)
    {
      if id in rows && rows[id].status == Settling && rows[id].mark.Marked?
         && rows[id].mark.auth.id.nonce == nonce {
        rows := rows[id := rows[id].(status := Pending, mark := Unmarked)];
      }
    }

    method SettlePaymentRequest(id: nat, tx: nat) returns (ok: bool)
      modifies this
      ensures ok <==> id in old(rows) && TxUnused(old(rows), tx)
                      && Completable(old(rows)[id], true)
      ensures rows == if ok then Written(old(rows), id, Complete(old(rows)[id], Some(tx), false, ByPay))
                      else old(rows)
    {
      ok := false;
      if id in rows && TxUnused(rows, tx)
         && (rows[id].status == Pending || rows[id].status == SettledNoTx
             || (rows[id].status == Settling && !rows[id].terms.machine)) {
        rows := rows[id := rows[id].(status := Completed, tx := Some(tx), settledBy := ByPay)];
        ok := true;
      }
    }

    // The writes of the background jobs and the owner: each is the job's step of the protocol.

    /** The reaper releases a claim that never reached the facilitator. */
    method ReapClaim(id: nat) returns (released: bool)
      requires id in rows
      modifies this
      ensures released <==> old(rows)[id].status == Settling && old(rows)[id].mark == Unmarked && old(rows)[id].claimed
      ensures rows == old(rows)[id := Net.JobRow(old(rows), id, Net.ReapClaim)]
    {
      released := rows[id].status == Settling && rows[id].claimed && rows[id].mark == Unmarked;
      if released { rows := rows[id := rows[id].(status := Pending, claimed := false)]; }
    }

    /** The owner reopens a row that was never marked submitted. */
    method ReopenClaim(id: nat) returns (reopened: bool)
      requires id in rows
      modifies this
      ensures reopened <==> old(rows)[id].status == Settling && old(rows)[id].mark == Unmarked
      ensures rows == old(rows)[id := Net.JobRow(old(rows), id, Net.OwnerReopen)]
    {
      reopened := rows[id].status == Settling && rows[id].mark == Unmarked;
      if reopened { rows := rows[id := rows[id].(status := Pending, claimed := false)]; }
    }

    /** Expiry takes a pending row only: one settled in the meantime is left alone. */
    method ExpireStale(id: nat) returns (expired: bool)
      requires id in rows
      modifies this
      ensures expired <==> old(rows)[id].status == Pending
      ensures rows == old(rows)[id := Net.JobRow(old(rows), id, Net.ExpireStale)]
    {
      expired := rows[id].status == Pending;
      if expired { rows := rows[id := rows[id].(status := Expired)]; }
    }

    /** A scan settles a pending row only, under a transaction no row carries. */
    method ScanSettle(id: nat, tx: nat) returns (ok: bool)
      requires id in rows
      modifies this
      ensures ok <==> TxUnused(old(rows), tx) && old(rows)[id].status == Pending
      ensures rows == old(rows)[id := Net.JobRow(old(rows), id, Net.ScanSettle(tx))]
    {
      ok := TxUnused(rows, tx) && rows[id].status == Pending;
      if ok { rows := rows[id := rows[id].(status := Completed, tx := Some(tx), settledBy := ByScan)]; }
    }

    /** The owner attests a settlement: with a transaction also of a row settled without one, never
        of a held machine payment. */
    method OwnerSettle(id: nat, tx: Option<nat>) returns (ok: bool)
      requires id in rows
      modifies this
      ensures ok <==>
        && (tx.Some? ==> TxUnused(old(rows), tx.value))
        && (old(rows)[id].status == Pending || (old(rows)[id].status == Settling && !old(rows)[id].terms.machine)
            || (old(rows)[id].status == SettledNoTx && tx.Some?))
      ensures rows == old(rows)[id := Net.JobRow(old(rows), id, Net.OwnerSettle(tx))]
    {
      ok := false;
      if tx == None || TxUnused(rows, tx.value) {
        ok := rows[id].status == Pending || (rows[id].status == Settling && !rows[id].terms.machine)
              || (rows[id].status == SettledNoTx && tx.Some?);
        if ok { rows := rows[id := rows[id].(status := Completed, tx := tx, settledBy := ByOwner)]; }
      }
    }

    /** A held row proven paid: an invoice completes, a machine payment becomes a refund owed. */
    method CompleteHeld(id: nat, tx: nat) returns (ok: bool)
      requires id in rows
      modifies this
      ensures rows == old(rows)[id := Net.JobRow(old(rows), id, Net.CompleteHeld(tx))]
      ensures ok ==> rows[id].tx == Some(tx)
      ensures ok ==> rows[id].status == if rows[id].terms.machine then RefundDue else Completed
      ensures !ok ==> rows == old(rows)
    {
      ok := false;
      if TxUnused(rows, tx) {
        if rows[id].terms.machine {
          ok := rows[id].status == Settling;
          if ok { rows := rows[id := rows[id].(status := RefundDue, tx := Some(tx), settledBy := ByHeld)]; }
        } else {
          ok := rows[id].status == Pending || rows[id].status == Settling || rows[id].status == SettledNoTx;
          if ok { rows := rows[id := rows[id].(status := Completed, tx := Some(tx), settledBy := ByHeld)]; }
        }
      }
    }

    /** The owner decides a row no reaper can: charged and undelivered, or never paid, the latter
        only past the deadline. */
    method ResolveHeld(id: nat, paid: bool, now: nat) returns (ok: bool)
      requires id in rows
      modifies this
      ensures ok <==>
        && (paid || old(rows)[id].terms.deadline < now)
        && (old(rows)[id].status == SettledNoTx || (old(rows)[id].status == Settling && old(rows)[id].mark.Marked?))
      ensures rows == if paid || old(rows)[id].terms.deadline < now
        then old(rows)[id := Net.JobRow(old(rows), id, Net.OwnerResolve(paid))] else old(rows)
      ensures ok ==> rows[id].status == if paid then RefundDue else Expired
    {
      ok := (rows[id].status == SettledNoTx || (rows[id].status == Settling && rows[id].mark != Unmarked))
            && (paid || rows[id].terms.deadline < now);
      if ok { rows := rows[id := rows[id].(status := if paid then RefundDue else Expired)]; }
    }
  }

  // ----- the handler -----------------------------------------------------------------------

  datatype Verify = VerifyError | Invalid | Valid
  datatype Answer = Unknown | Refused | Settled(tx: nat)

  /** Where the task is cancelled, if it is. */
  datatype Cancel = Never | InVerify | InMark | InSettle | InReopen | InProof

  /** What the outside world answers: the facilitator, the chain's receipt, the scheduler.
      `auth` is `None` when the payment header carries no usable authorization. */
  datatype World = World(verify: Verify, auth: Option<Auth>, answer: Answer, received: Option<int>,
                         cancel: Cancel)

  datatype Response = NotFound404 | Conflict409 | Gone410 | HeaderRequired402
    | Held202 | Rejected402 | BadGateway502 | Done200(tx: nat) | Cancelled

  /** The checks before the claim; `None` means the handler goes on to claim. */
  function Refusal(rows: map<nat, Row>, id: nat, now: nat, header: bool): Option<Response> {
    if id !in rows || rows[id].terms.machine then Some(NotFound404)
    else if rows[id].status != Pending then Some(Conflict409)
    else if rows[id].terms.deadline != 0 && rows[id].terms.deadline < now then Some(Gone410)
    else if RefusedByFacilitatorRail(rows[id].terms) then Some(Conflict409)
    else if !header then Some(HeaderRequired402)
    else None
  }

  /** The handler goes on to claim exactly a pending, payable invoice with a payment header. */
  lemma GoesOnIff(rows: map<nat, Row>, id: nat, now: nat, header: bool)
    ensures Refusal(rows, id, now, header) == None
      <==> id in rows && rows[id].status == Pending && Payable(rows[id].terms, now) && header
  {
  }

  /** An invoice whose challenge says it is unpayable is taken to payment all the same exactly
      when its asset is not configured and `/pay` has no other reason to refuse. */
  lemma UnpayableGoesToPaymentIff(rows: map<nat, Row>, id: nat, now: nat, header: bool)
    requires id in rows
    ensures ChallengeFor(rows[id].terms).Unpayable? && Refusal(rows, id, now, header) == None
      <==> rows[id].terms.rail == NoAsset && rows[id].status == Pending && !rows[id].terms.machine && header
           && !(rows[id].terms.deadline != 0 && rows[id].terms.deadline < now)
  {
    GoesOnIff(rows, id, now, header);
  }

  /** One such invoice; paid in full, it is completed. */
  method UnpayableInvoiceIsCompleted() returns (resp: Response)
    ensures resp == Done200(3)
  {
    var terms := Terms(NoAsset, Number(5), 5, 0, false);
    assert ChallengeFor(terms) == Unpayable;
    var s := new Store(map[0 := Row(terms, Pending, false, Unmarked, None, Nobody)]);
    var w := World(Valid, Some(Auth(AuthId(1, 1), 100)), Settled(3), Some(5), Never);
    assert Refusal(s.rows, 0, 0, true) == None && Submits(w) && ProvesPayment(w, terms) && TxUnused(s.rows, 3);
    resp := PayInvoice(s, 0, 0, true, w);
  }

  /** Did the settle call reach the facilitator? */
  predicate Submits(w: World) {
    w.verify == Valid && w.auth.Some? && w.cancel != InVerify && w.cancel != InMark
  }

  predicate ProvesPayment(w: World, t: Terms) {
    w.received.Some? && w.received.value >= Atomic(t)
  }

  /** The receipt covers the invoice by its columns: the raw amount if a positive one is stored, else
      the dollars. */
  predicate PaysColumns(received: int, t: Terms) {
    if t.raw.Number? && t.raw.value > 0 then received >= t.raw.value else received >= t.dollarsRaw
  }

  /** The submitted payment stays without a definite answer. */
  predicate Unresolved(w: World, t: Terms) {
    w.cancel != InSettle
    && (w.answer == Unknown || (w.answer.Settled? && w.cancel != InProof && !ProvesPayment(w, t)))
  }

  /** The invoice's row after `/pay` ran alone: released, held, reopened or completed. */
  function FinalRow(r: Row, now: nat, w: World, unused: bool): Row {
    if w.cancel == InVerify || w.verify != Valid || w.auth == None then r.(claimed := false)
    else
      var held := r.(status := Settling, claimed := true, mark := Marked(w.auth.value, now));
      if w.cancel == InMark || w.cancel == InSettle then held
      else
        match w.answer
        case Unknown => held
        case Refused => if w.cancel == InReopen then held else r.(claimed := true)
        case Settled(tx) =>
          if w.cancel != InProof && ProvesPayment(w, r.terms) && unused
          then held.(status := Completed, tx := Some(tx), settledBy := ByPay) else held
  }

  /** The transaction the facilitator reports, if any, is on no row. */
  predicate ReportedUnused(rows: map<nat, Row>, w: World) {
    w.answer.Settled? ==> TxUnused(rows, w.answer.tx)
  }

  /** `pay_invoice` with nobody else touching the table. It completes the invoice exactly when a
      payment was submitted, reported and proven for the invoice's one amount under an unused
      transaction; it leaves it held exactly when a marker was set and no definite refusal was
      recorded; in every other case the invoice is payable again as before. */
  method PayInvoice(s: Store, id: nat, now: nat, header: bool, w: World) returns (resp: Response)
    requires id in s.rows && s.rows[id].status == Pending ==> s.rows[id].mark == Unmarked
    modifies s
    ensures s.rows.Keys == old(s.rows).Keys
    ensures forall i | i in old(s.rows) && i != id :: s.rows[i] == old(s.rows)[i]
    ensures var pre := Refusal(old(s.rows), id, now, header);
            pre.Some? ==> resp == pre.value && s.rows == old(s.rows)
    ensures Refusal(old(s.rows), id, now, header) == None ==>
      s.rows[id] == FinalRow(old(s.rows)[id], now, w, ReportedUnused(old(s.rows), w))
    ensures Refusal(old(s.rows), id, now, header) == None ==>
      var r, r' := old(s.rows)[id], s.rows[id];
      && (resp.Done200? <==> Submits(w) && w.cancel != InSettle && w.cancel != InProof && w.answer.Settled?
                             && ProvesPayment(w, r.terms) && TxUnused(old(s.rows), w.answer.tx))
      && (resp.Done200? ==> resp.tx == w.answer.tx && r'.status == Completed && r'.tx == Some(resp.tx))
      && (resp == Held202 <==> Submits(w) && Unresolved(w, r.terms))
      && (r'.status == Settling ==> w.auth.Some? && r'.mark == Marked(w.auth.value, now))
      && (r'.status == Settling <==>
            w.verify == Valid && w.auth.Some? && w.cancel != InVerify && !resp.Done200?
            && !(Submits(w) && w.cancel != InSettle && w.cancel != InReopen && w.answer == Refused))
      && (r'.status != Settling && r'.status != Completed ==> r' == r.(claimed := r'.claimed))
      && (resp == Rejected402 || resp == BadGateway502 ==> r' == r.(claimed := r'.claimed))
      && (resp == BadGateway502 <==>
            w.cancel != InVerify && (w.verify == VerifyError || (w.verify == Valid && w.auth == None)))
      && (resp == Rejected402 <==>
            (w.cancel != InVerify && w.verify == Invalid)
            || (Submits(w) && w.cancel != InSettle && w.cancel != InReopen && w.answer == Refused))
      && (resp.Done200? ==> w.received.Some? && PaysColumns(w.received.value, r.terms))
  {
    if id !in s.rows || s.rows[id].terms.machine { return NotFound404; }
    if s.rows[id].status != Pending { return Conflict409; }
    if s.rows[id].terms.deadline != 0 && s.rows[id].terms.deadline < now { return Gone410; }
    if s.rows[id].terms.rail == OnchainScan { return Conflict409; }
    if !header { return HeaderRequired402; }
    var won := s.ClaimForSettlement(id);
    if !won { return Conflict409; }
    var terms := s.rows[id].terms;
    if w.cancel == InVerify { s.RevertSettlementClaim(id); return Cancelled; }
    if w.verify == VerifyError { s.RevertSettlementClaim(id); return BadGateway502; }
    if w.verify == Invalid { s.RevertSettlementClaim(id); return Rejected402; }
    if w.auth == None { s.RevertSettlementClaim(id); return BadGateway502; }
    var marked := s.MarkInvoiceSubmitted(id, w.auth.value, now);
    if !marked { return Held202; }
    if w.cancel == InMark || w.cancel == InSettle { s.RevertSettlementClaim(id); return Cancelled; }
    match w.answer
    case Unknown => return Held202;
    case Refused =>
      if w.cancel == InReopen { s.RevertSettlementClaim(id); return Cancelled; }
      s.ReopenRejectedSettlement(id, w.auth.value.id.nonce);
      s.RevertSettlementClaim(id);
      return Rejected402;
    case Settled(tx) =>
      if w.cancel == InProof { s.RevertSettlementClaim(id); return Cancelled; }
      if !(w.received.Some? && w.received.value >= Atomic(terms)) { return Held202; }
      var ok := s.SettlePaymentRequest(id, tx);
      return if ok then Done200(tx) else Conflict409;
  }
}
