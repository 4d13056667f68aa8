/** The `/pay` handler, run alone, is a run of the interleaved protocol: same table at the end. */
module PayRun {
  import opened Wrappers
  import opened Invoice
  import opened InvoiceStore
  import Net = Settlement

  // ----- the handler is a run of the protocol ----------------------------------------------

  /** The table as the handler finds it; the chain knows what the receipt will say. */
  function Found(rows: map<nat, Row>, now: nat, w: World): Net.State {
    var ledger := if w.answer.Settled? && w.received.Some? then map[w.answer.tx := w.received.value] else map[];
    Net.State(rows, map[], {}, ledger, now, {})
  }

  function AuthOf(w: World): Auth {
    if w.auth.Some? then w.auth.value else Auth(AuthId(0, 0), 0)
  }

  /** The protocol has come from `o` to this table with this one request. */
  ghost predicate At(o: Net.State, s: Net.State, rows: map<nat, Row>, y: Net.Payer) {
    && Net.Leads(o, s) && s.rows == rows && s.payers == map[0 := y] && y.inv in rows
    && s.used == o.used && s.ledger == o.ledger && s.clock == o.clock
  }

  lemma Arrives(rows: map<nat, Row>, id: nat, now: nat, header: bool, w: World) returns (s: Net.State)
    requires Refusal(rows, id, now, header) == None
    ensures At(Found(rows, now, w), s, rows, Net.Payer(id, AuthOf(w), Net.Arrived, Net.NotSent))
  {
    var o := Found(rows, now, w);
    GoesOnIff(rows, id, now, header);
    Net.LeadsToItself(o);
    Net.LeadsStep(o, o, Net.Arrive(0, id, AuthOf(w)));
    s := Net.Do(o, Net.Arrive(0, id, AuthOf(w)));
  }

  /** One more act of the request. */
  lemma Acts(o: Net.State, s: Net.State, rows: map<nat, Row>, y: Net.Payer, act: Net.Act) returns (s': Net.State)
    requires At(o, s, rows, y) && Net.ActEnabled(s, y, act) && !act.Land?
    requires act == Net.ReopenOwn ==> y.wire == Net.Rejected && y.pc == Net.RefusedPc
    ensures At(o, s', rows[y.inv := Net.RequestRow(rows, y, act, o.clock)], Net.NextPayer(y, rows[y.inv], act))
  {
    var e := Net.Request(0, act);
    assert Net.Sound(s, e);
    Net.LeadsStep(o, s, e);
    s' := Net.Do(s, e);
  }

  /** The handler gave up before the marker: the claim is released. */
  lemma ReleasedIsARun(rows: map<nat, Row>, id: nat, now: nat, header: bool, w: World, verified: bool)
    returns (s: Net.State)
    requires Refusal(rows, id, now, header) == None && rows[id].mark == Unmarked
    ensures At(Found(rows, now, w), s, rows[id := rows[id].(claimed := false)],
               Net.Payer(id, AuthOf(w), Net.Finished, Net.NotSent))
  {
    var o, y := Found(rows, now, w), Net.Payer(id, AuthOf(w), Net.Arrived, Net.NotSent);
    s := Arrives(rows, id, now, header, w);
    s := Acts(o, s, rows, y, Net.TryClaim);
    var claimed := rows[id := rows[id].(status := Settling, claimed := true)];
    if verified {
      s := Acts(o, s, claimed, y.(pc := Net.Claimed), Net.VerifyOk);
      assert claimed[id := claimed[id]] == claimed;
      s := Acts(o, s, claimed, y.(pc := Net.Verified), Net.FailLocal);
    } else {
      s := Acts(o, s, claimed, y.(pc := Net.Claimed), Net.FailLocal);
    }
    assert claimed[id := claimed[id]] == claimed;
    s := Acts(o, s, claimed, y.(pc := Net.Reverting), Net.RunRevert);
    assert claimed[id := rows[id].(claimed := false)] == rows[id := rows[id].(claimed := false)];
  }

  function Held(rows: map<nat, Row>, id: nat, now: nat, w: World): map<nat, Row>
    requires id in rows
  {
    rows[id := rows[id].(status := Settling, claimed := true, mark := Marked(AuthOf(w), now))]
  }

  lemma MarkedIsARun(rows: map<nat, Row>, id: nat, now: nat, header: bool, w: World) returns (s: Net.State)
    requires Refusal(rows, id, now, header) == None && rows[id].mark == Unmarked
    ensures At(Found(rows, now, w), s, Held(rows, id, now, w), Net.Payer(id, AuthOf(w), Net.MarkedPc, Net.NotSent))
  {
    var o, y := Found(rows, now, w), Net.Payer(id, AuthOf(w), Net.Arrived, Net.NotSent);
    s := Arrives(rows, id, now, header, w);
    s := Acts(o, s, rows, y, Net.TryClaim);
    var claimed := rows[id := rows[id].(status := Settling, claimed := true)];
    s := Acts(o, s, claimed, y.(pc := Net.Claimed), Net.VerifyOk);
    assert claimed[id := claimed[id]] == claimed;
    s := Acts(o, s, claimed, y.(pc := Net.Verified), Net.TryMark);
    assert claimed[id := Held(rows, id, now, w)[id]] == Held(rows, id, now, w);
  }

  /** From the marker on, nothing but a proof or a refusal moves the row: giving up leaves it. */
  lemma GivesUpHeld(o: Net.State, s: Net.State, rows: map<nat, Row>, y: Net.Payer, local: bool) returns (s': Net.State)
    requires At(o, s, rows, y) && rows[y.inv].mark.Marked?
    requires local ==> Net.ActEnabled(s, y, Net.FailLocal)
    ensures exists z :: At(o, s', rows, z) && z.pc == Net.Finished
  {
    assert rows[y.inv := rows[y.inv]] == rows;
    if local {
      s' := Acts(o, s, rows, y, Net.FailLocal);
      s' := Acts(o, s', rows, y.(pc := Net.Reverting), Net.RunRevert);
      assert At(o, s', rows, y.(pc := Net.Finished));
    } else {
      s' := Acts(o, s, rows, y, Net.Abandon);
      assert At(o, s', rows, y.(pc := Net.Finished));
    }
  }

  /** The submission was refused and the row reopened. */
  lemma RefusedIsARun(rows: map<nat, Row>, id: nat, now: nat, header: bool, w: World) returns (s: Net.State)
    requires Refusal(rows, id, now, header) == None && rows[id].mark == Unmarked
    ensures At(Found(rows, now, w), s, rows[id := rows[id].(claimed := true)],
               Net.Payer(id, AuthOf(w), Net.Finished, Net.Rejected))
  {
    var o, y := Found(rows, now, w), Net.Payer(id, AuthOf(w), Net.MarkedPc, Net.NotSent);
    var held, open := Held(rows, id, now, w), rows[id := rows[id].(claimed := true)];
    assert held[id := held[id]] == held && open[id := open[id]] == open;
    s := MarkedIsARun(rows, id, now, header, w);
    s := Acts(o, s, held, y, Net.Send);
    s := Acts(o, s, held, y.(pc := Net.Sent, wire := Net.InFlight), Net.Refuse);
    s := Acts(o, s, held, y.(pc := Net.RefusedPc, wire := Net.Rejected), Net.ReopenOwn);
    assert held[id := open[id]] == open;
    s := Acts(o, s, open, y.(pc := Net.Reverting, wire := Net.Rejected), Net.RunRevert);
  }

  /** The reported payment was proven and settled, unless another row has its transaction. */
  lemma SettledIsARun(rows: map<nat, Row>, id: nat, now: nat, header: bool, w: World) returns (s: Net.State)
    requires Refusal(rows, id, now, header) == None && rows[id].mark == Unmarked
    requires w.auth.Some? && w.answer.Settled? && ProvesPayment(w, rows[id].terms)
    ensures
      var r := Held(rows, id, now, w)[id];
      var r' := if TxUnused(rows, w.answer.tx)
        then r.(status := Completed, tx := Some(w.answer.tx), settledBy := ByPay) else r;
      At(Found(rows, now, w), s, rows[id := r'], Net.Payer(id, AuthOf(w), Net.Finished, Net.InFlight))
  {
    var o, y := Found(rows, now, w), Net.Payer(id, AuthOf(w), Net.MarkedPc, Net.NotSent);
    var held, tx := Held(rows, id, now, w), w.answer.tx;
    assert held[id := held[id]] == held;
    s := MarkedIsARun(rows, id, now, header, w);
    s := Acts(o, s, held, y, Net.Send);
    s := Acts(o, s, held, y.(pc := Net.Sent, wire := Net.InFlight), Net.Report(tx));
    s := Acts(o, s, held, y.(pc := Net.Reported(tx), wire := Net.InFlight), Net.Prove);
    SameTransactions(rows, id, now, w);
    s := Acts(o, s, held, y.(pc := Net.Proven(tx), wire := Net.InFlight), Net.Settle);
    assert held[id := rows[id]] == rows;
  }

  lemma SameTransactions(rows: map<nat, Row>, id: nat, now: nat, w: World)
    requires id in rows && w.answer.Settled?
    ensures Net.TxFree(Held(rows, id, now, w), Some(w.answer.tx)) <==> TxUnused(rows, w.answer.tx)
  {
    var held := Held(rows, id, now, w);
    forall i | i in rows ensures held[i].tx == rows[i].tx {}
  }

  /** Held without an answer: nothing came back, or the handler was cut off, or nothing was proven. */
  lemma HeldIsARun(rows: map<nat, Row>, id: nat, now: nat, header: bool, w: World) returns (s: Net.State)
    requires Refusal(rows, id, now, header) == None && rows[id].mark == Unmarked
    ensures exists z :: At(Found(rows, now, w), s, Held(rows, id, now, w), z) && z.pc == Net.Finished
  {
    var o, y := Found(rows, now, w), Net.Payer(id, AuthOf(w), Net.MarkedPc, Net.NotSent);
    s := MarkedIsARun(rows, id, now, header, w);
    s := GivesUpHeld(o, s, Held(rows, id, now, w), y, w.cancel == InMark || w.cancel == InSettle);
  }

  /** Some run of the protocol, with this one request and every reopen sound, leaves this table. */
  ghost predicate RunLeaves(rows: map<nat, Row>, now: nat, w: World, after: map<nat, Row>) {
    exists s, z :: At(Found(rows, now, w), s, after, z) && z.pc == Net.Finished
  }

  /** Whatever the facilitator, the chain and the scheduler do, `/pay` run alone leaves a table that
      a run of the protocol leaves, its request finished. */
  lemma HandlerIsARunOfTheProtocol(rows: map<nat, Row>, id: nat, now: nat, header: bool, w: World)
    requires Refusal(rows, id, now, header) == None && rows[id].mark == Unmarked
    ensures RunLeaves(rows, now, w, rows[id := FinalRow(rows[id], now, w, ReportedUnused(rows, w))])
  {
    var s;
    if w.cancel == InVerify || w.verify != Valid || w.auth == None {
      s := ReleasedIsARun(rows, id, now, header, w, w.cancel != InVerify && w.verify == Valid);
    } else if w.cancel == InMark || w.cancel == InSettle || w.answer == Unknown
              || (w.answer == Refused && w.cancel == InReopen)
              || (w.answer.Settled? && (w.cancel == InProof || !ProvesPayment(w, rows[id].terms))) {
      s := HeldIsARun(rows, id, now, header, w);
    } else if w.answer == Refused {
      s := RefusedIsARun(rows, id, now, header, w);
    } else {
      s := SettledIsARun(rows, id, now, header, w);
    }
  }
}
