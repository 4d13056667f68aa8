/** Upload slots of the body-limit middleware: a counting semaphore, a per-client table and an
    exactly-once release, under every interleaving of requests. */
module BodySlots {
  import opened Wrappers
  import opened Numbers

  datatype Stage =
    | Refused                     // answered 503 without a slot
    | Checked                     // the per-client check passed
    | Taken                       // the semaphore was acquired, the table not yet updated
    | Admitted                    // counted in the table, no spool yet
    | Spooled(released: bool)
    | Ended

  /** `frees` counts the calls that really freed the slot; `solo`: check, acquire and count ran
      with no other step in between. */
  datatype Req = Req(client: Option<nat>, stage: Stage, frees: nat, solo: bool)

  datatype Config = Config(concurrency: nat, perClient: nat)

  /** `streak`: the last steps were this request's check (and acquire), and nobody else's. */
  datatype State = State(cfg: Config, free: nat, table: map<nat, nat>, reqs: map<nat, Req>, streak: Option<nat>)

  datatype Event =
    | Check(r: nat, client: Option<nat>)
    | Take(r: nat)
    | TimeOut(r: nat)
    | Count(r: nat)
    | SpoolFails(r: nat)
    | OpenSpool(r: nat)
    | Release(r: nat)             // final replay, or an empty body; may be called again
    | End(r: nat)                 // the finally clause, whichever way the request ends

  function Held(table: map<nat, nat>, c: nat): nat {
    if c in table then table[c] else 0
  }

  predicate HoldsSlot(q: Req) {
    q.stage == Taken || q.stage == Admitted || q.stage == Spooled(false)
  }

  /** Counted in the table. */
  predicate Counted(q: Req) {
    q.stage == Admitted || q.stage == Spooled(false)
  }

  function Holders(s: State): set<nat> {
    set r | r in s.reqs && HoldsSlot(s.reqs[r])
  }

  function HoldersOf(s: State, c: nat): set<nat> {
    set r | r in s.reqs && Counted(s.reqs[r]) && s.reqs[r].client == Some(c)
  }

  function SoloHoldersOf(s: State, c: nat): set<nat> {
    set r | r in HoldersOf(s, c) && s.reqs[r].solo
  }

  predicate Enabled(s: State, e: Event) {
    match e
    case Check(r, _) => r !in s.reqs
    case Take(r) => r in s.reqs && s.reqs[r].stage == Checked && s.free > 0
    case TimeOut(r) => r in s.reqs && s.reqs[r].stage == Checked
    case Count(r) => r in s.reqs && s.reqs[r].stage == Taken
    case SpoolFails(r) => r in s.reqs && s.reqs[r].stage == Admitted
    case OpenSpool(r) => r in s.reqs && s.reqs[r].stage == Admitted
    case Release(r) => r in s.reqs && s.reqs[r].stage.Spooled?
    case End(r) => r in s.reqs && s.reqs[r].stage.Spooled?
  }

  function Put(s: State, r: nat, q: Req): State {
    s.(reqs := s.reqs[r := q], streak := None)
  }

  /** `free_slot`: give the semaphore back and drop the client's count, removing it at zero. */
  function FreeTable(table: map<nat, nat>, client: Option<nat>): map<nat, nat> {
    if client == None then table
    else
      var c := client.value;
      var have: int := if c in table then table[c] else 1;
      var left := have - 1;
      if left > 0 then table[c := left] else table - {c}
  }

  function FreeSlot(s: State, r: nat, stage: Stage): State
    requires r in s.reqs
  {
    var q := s.reqs[r];
    Put(s, r, q.(stage := stage, frees := q.frees + 1))
      .(free := s.free + 1, table := FreeTable(s.table, q.client))
  }

  function Do(s: State, e: Event): State
    requires Enabled(s, e)
  {
    match e
    case Check(r, client) =>
      if client.Some? && Held(s.table, client.value) >= s.cfg.perClient
      then Put(s, r, Req(client, Refused, 0, false))
      else Put(s, r, Req(client, Checked, 0, false)).(streak := Some(r))
    case Take(r) =>
      Put(s, r, s.reqs[r].(stage := Taken))
        .(free := s.free - 1, streak := if s.streak == Some(r) then Some(r) else None)
    case TimeOut(r) => Put(s, r, s.reqs[r].(stage := Refused))
    case Count(r) =>
      var q := s.reqs[r];
      Put(s, r, q.(stage := Admitted, solo := s.streak == Some(r)))
        .(table := if q.client.Some? then s.table[q.client.value := Held(s.table, q.client.value) + 1] else s.table)
    case SpoolFails(r) => FreeSlot(s, r, Ended)
    case OpenSpool(r) => Put(s, r, s.reqs[r].(stage := Spooled(false)))
    case Release(r) => if s.reqs[r].stage.released then Put(s, r, s.reqs[r]) else FreeSlot(s, r, Spooled(true))
    case End(r) => if s.reqs[r].stage.released then Put(s, r, s.reqs[r].(stage := Ended)) else FreeSlot(s, r, Ended)
  }

  predicate Initial(s: State) {
    s.free == s.cfg.concurrency && s.table == map[] && s.reqs == map[] && s.streak == None
  }

  predicate Steps(run: seq<State>, events: seq<Event>) {
    |run| == |events| + 1 &&
    forall k :: 0 <= k < |events| ==> Enabled(run[k], events[k]) && run[k + 1] == Do(run[k], events[k])
  }

  predicate IsRun(run: seq<State>, events: seq<Event>) {
    Steps(run, events) && Initial(run[0])
  }

  // ----- the invariant ---------------------------------------------------------------------

  predicate Conserved(s: State) {
    s.free + |Holders(s)| == s.cfg.concurrency
  }

  ghost predicate TableExact(s: State) {
    forall c: nat :: EntryExact(s, c)
  }

  predicate FreesOk(q: Req) {
    match q.stage
    case Spooled(true) => q.frees == 1
    case Ended => q.frees == 1
    case _ => q.frees == 0
  }

  /** An undisturbed request still sees the count its check saw. */
  predicate StreakOk(s: State) {
    s.streak.Some? ==>
      var r := s.streak.value;
      r in s.reqs && (s.reqs[r].client.Some? ==> Held(s.table, s.reqs[r].client.value) < s.cfg.perClient)
  }

  ghost predicate SharesOk(s: State) {
    StreakOk(s) && forall c: nat :: |SoloHoldersOf(s, c)| <= s.cfg.perClient
  }

  predicate AllFreesOk(s: State) {
    forall r | r in s.reqs :: FreesOk(s.reqs[r])
  }

  ghost predicate Inv(s: State) {
    Conserved(s) && TableExact(s) && SharesOk(s) && AllFreesOk(s)
  }

  lemma StepKeepsFrees(s: State, e: Event)
    requires AllFreesOk(s) && Enabled(s, e)
    ensures AllFreesOk(Do(s, e)) && Do(s, e).cfg == s.cfg
  {
  }

  /** The request an event concerns. */
  function Who(e: Event): nat { e.r }

  /** The semaphore moves with the holders. */
  lemma SemaphoreAfter(s: State, e: Event)
    requires Enabled(s, e)
    ensures
      var r, s' := Who(e), Do(s, e);
      var before, after := r in s.reqs && HoldsSlot(s.reqs[r]), HoldsSlot(s'.reqs[r]);
      && s'.cfg == s.cfg && s'.reqs == s.reqs[r := s'.reqs[r]]
      && s'.free + (if after then 1 else 0) == s.free + (if before then 1 else 0)
  {
  }

  lemma HolderSets(s: State, r: nat, q: Req)
    ensures
      var s' := s.(reqs := s.reqs[r := q]);
      Holders(s') == if HoldsSlot(q) then Holders(s) + {r} else Holders(s) - {r}
  {
  }

  lemma StepKeepsConserved(s: State, e: Event)
    requires Conserved(s) && Enabled(s, e)
    ensures Conserved(Do(s, e))
  {
    var r, s' := Who(e), Do(s, e);
    SemaphoreAfter(s, e);
    HolderSets(s, r, s'.reqs[r]);
    assert Holders(s') == Holders(s.(reqs := s'.reqs));
  }

  /** What an event is to client `c`: one more counted request, one fewer, or neither. */
  predicate Counts(s: State, e: Event, c: nat)
    requires Enabled(s, e)
  {
    e.Count? && s.reqs[e.r].client == Some(c)
  }

  predicate Frees(s: State, e: Event, c: nat)
    requires Enabled(s, e)
  {
    Who(e) in s.reqs && s.reqs[Who(e)].client == Some(c) && Counted(s.reqs[Who(e)]) && !Counted(Do(s, e).reqs[Who(e)])
  }

  lemma TableUnderCount(s: State, e: Event, c: nat)
    requires Enabled(s, e) && Counts(s, e, c)
    ensures c in Do(s, e).table && Do(s, e).table[c] == Held(s.table, c) + 1
  {
  }

  lemma TableUnderFree(s: State, e: Event, c: nat)
    requires Enabled(s, e) && Frees(s, e, c) && Held(s.table, c) > 0
    ensures Held(Do(s, e).table, c) == Held(s.table, c) - 1
    ensures c in Do(s, e).table ==> Do(s, e).table[c] > 0
  {
  }

  lemma TableOtherwise(s: State, e: Event, c: nat)
    requires Enabled(s, e) && !Counts(s, e, c) && !Frees(s, e, c)
    ensures c in Do(s, e).table <==> c in s.table
    ensures c in s.table ==> Do(s, e).table[c] == s.table[c]
  {
  }

  lemma HoldersUnderCount(s: State, e: Event, c: nat)
    requires Enabled(s, e) && Counts(s, e, c)
    ensures Who(e) !in HoldersOf(s, c) && HoldersOf(Do(s, e), c) == HoldersOf(s, c) + {Who(e)}
  {
  }

  lemma HoldersUnderFree(s: State, e: Event, c: nat)
    requires Enabled(s, e) && Frees(s, e, c)
    ensures Who(e) in HoldersOf(s, c) && HoldersOf(Do(s, e), c) == HoldersOf(s, c) - {Who(e)}
  {
  }

  lemma HoldersOtherwise(s: State, e: Event, c: nat)
    requires Enabled(s, e) && !Counts(s, e, c) && !Frees(s, e, c)
    ensures HoldersOf(Do(s, e), c) == HoldersOf(s, c)
  {
  }

  /** The client's entry is its number of counted holders, and absent at zero. */
  predicate EntryExact(s: State, c: nat) {
    |HoldersOf(s, c)| == Held(s.table, c) && (c in s.table ==> s.table[c] > 0)
  }

  lemma StepKeepsEntry(s: State, e: Event, c: nat)
    requires Enabled(s, e) && EntryExact(s, c)
    ensures EntryExact(Do(s, e), c)
  {
    if Counts(s, e, c) {
      TableUnderCount(s, e, c);
      HoldersUnderCount(s, e, c);
    } else if Frees(s, e, c) {
      HoldersUnderFree(s, e, c);
      SubsetSize({Who(e)}, HoldersOf(s, c));
      TableUnderFree(s, e, c);
    } else {
      TableOtherwise(s, e, c);
      HoldersOtherwise(s, e, c);
    }
  }

  lemma StepKeepsTable(s: State, e: Event)
    requires TableExact(s) && Enabled(s, e)
    ensures TableExact(Do(s, e))
  {
    forall c: nat ensures EntryExact(Do(s, e), c) {
      StepKeepsEntry(s, e, c);
    }
  }

  lemma StepKeepsStreak(s: State, e: Event)
    requires StreakOk(s) && Enabled(s, e)
    ensures StreakOk(Do(s, e))
  {
  }

  lemma StepKeepsShares(s: State, e: Event, c: nat)
    requires TableExact(s) && StreakOk(s) && Enabled(s, e) && |SoloHoldersOf(s, c)| <= s.cfg.perClient
    ensures |SoloHoldersOf(Do(s, e), c)| <= s.cfg.perClient
  {
    var r, s' := Who(e), Do(s, e);
    SoloAfter(s, e, c);
    if e.Count? && s'.reqs[r].client == Some(c) && s.streak == Some(r) {
      assert SoloHoldersOf(s', c) == SoloHoldersOf(s, c) + {r};
      SubsetSize(SoloHoldersOf(s, c), HoldersOf(s, c));
      assert EntryExact(s, c);
    } else {
      SubsetSize(SoloHoldersOf(s', c), SoloHoldersOf(s, c));
    }
  }

  lemma SoloAfter(s: State, e: Event, c: nat)
    requires Enabled(s, e)
    ensures
      var r, s' := Who(e), Do(s, e);
      && SoloHoldersOf(s', c) <= SoloHoldersOf(s, c) + {r}
      && (e.Count? ==> s'.reqs[r].solo == (s.streak == Some(r)) && SoloHoldersOf(s, c) <= SoloHoldersOf(s', c))
      && (!(e.Count? && s'.reqs[r].client == Some(c) && s.streak == Some(r)) ==>
            SoloHoldersOf(s', c) <= SoloHoldersOf(s, c))
  {
  }

  lemma {:induction false} RunKeepsInv(run: seq<State>, events: seq<Event>, n: nat)
    requires IsRun(run, events) && n <= |events|
    ensures Inv(run[n]) && run[n].cfg == run[0].cfg
  {
    if n == 0 {
      assert Holders(run[0]) == {};
      forall c: nat ensures HoldersOf(run[0], c) == {} && SoloHoldersOf(run[0], c) == {} {}
    } else {
      RunKeepsInv(run, events, n - 1);
      StepKeepsConserved(run[n - 1], events[n - 1]);
      StepKeepsTable(run[n - 1], events[n - 1]);
      StepKeepsStreak(run[n - 1], events[n - 1]);
      forall c: nat ensures |SoloHoldersOf(run[n], c)| <= run[n].cfg.perClient {
        StepKeepsShares(run[n - 1], events[n - 1], c);
      }
      StepKeepsFrees(run[n - 1], events[n - 1]);
    }
  }

  /** In every interleaving: free slots plus holders is the configured concurrency, a client's
      entry is its number of counted holders and is absent at zero, and a request that was
      admitted and has ended freed its slot exactly once, whichever way it ended. */
  lemma SlotsAreConserved(run: seq<State>, events: seq<Event>, n: nat)
    requires IsRun(run, events) && n <= |events|
    ensures run[n].free + |Holders(run[n])| == run[0].cfg.concurrency
    ensures forall c: nat :: |HoldersOf(run[n], c)| == Held(run[n].table, c)
    ensures forall c: nat :: c in run[n].table <==> HoldersOf(run[n], c) != {}
    ensures forall r | r in run[n].reqs ::
      && (HoldsSlot(run[n].reqs[r]) ==> run[n].reqs[r].frees == 0)
      && (run[n].reqs[r].stage == Ended ==> run[n].reqs[r].frees == 1)
      && (run[n].reqs[r].stage == Refused ==> run[n].reqs[r].frees == 0)
  {
    RunKeepsInv(run, events, n);
    forall c: nat
      ensures |HoldersOf(run[n], c)| == Held(run[n].table, c)
      ensures c in run[n].table <==> HoldersOf(run[n], c) != {}
    {
      assert EntryExact(run[n], c);
    }
  }

  /** When every request has ended, the middleware is back where it started. */
  lemma QuiescentIsInitial(run: seq<State>, events: seq<Event>, n: nat)
    requires IsRun(run, events) && n <= |events|
    requires forall r | r in run[n].reqs :: !HoldsSlot(run[n].reqs[r])
    ensures run[n].free == run[0].cfg.concurrency && run[n].table == map[]
  {
    RunKeepsInv(run, events, n);
    assert Holders(run[n]) == {};
    forall c: nat ensures c !in run[n].table {
      assert HoldersOf(run[n], c) == {};
      assert EntryExact(run[n], c);
    }
  }

  /** A request is turned away at the check exactly when its client's table entry is at the share,
      and at the acquire when its time is up; a request without a client is never turned away at
      the check. */
  lemma TurnedAwayIff(s: State, r: nat, client: Option<nat>)
    requires r !in s.reqs
    ensures Do(s, Check(r, client)).reqs[r].stage == Refused <==>
      client.Some? && s.cfg.perClient <= if client.value in s.table then s.table[client.value] else 0
    ensures Do(s, Check(r, client)).reqs[r].stage != Refused ==> Do(s, Check(r, client)).reqs[r].stage == Checked
  {
  }

  lemma TimedOutIsTurnedAway(s: State, r: nat)
    requires Enabled(s, TimeOut(r))
    ensures Do(s, TimeOut(r)).reqs[r].stage == Refused && Do(s, TimeOut(r)).free == s.free
    ensures Do(s, TimeOut(r)).table == s.table
  {
  }

  /** A client's holders whose check and acquire ran undisturbed number at most its share, and
      all its holders together never exceed the semaphore. */
  lemma ClientShare(run: seq<State>, events: seq<Event>, n: nat, c: nat)
    requires IsRun(run, events) && n <= |events|
    ensures |SoloHoldersOf(run[n], c)| <= run[0].cfg.perClient
    ensures |HoldersOf(run[n], c)| <= run[0].cfg.concurrency
  {
    RunKeepsInv(run, events, n);
    SubsetSize(HoldersOf(run[n], c), Holders(run[n]));
  }

  /** Exactly when a client goes over its share: a request that was let through while there was
      room is counted when the table already shows the full share. */
  lemma ShareIsExceededIff(run: seq<State>, events: seq<Event>, n: nat, c: nat)
    requires IsRun(run, events) && n < |events| && |HoldersOf(run[n], c)| <= run[n].cfg.perClient
    ensures |HoldersOf(run[n + 1], c)| > run[n + 1].cfg.perClient <==>
      && events[n].Count? && run[n].reqs[events[n].r].client == Some(c)
      && Held(run[n].table, c) == run[n].cfg.perClient
  {
    RunKeepsInv(run, events, n);
    RunKeepsInv(run, events, n + 1);
    assert EntryExact(run[n], c) && EntryExact(run[n + 1], c);
  }

  predicate Joins(run: seq<State>, events: seq<Event>, o: State, s: State) {
    Steps(run, events) && run[0] == o && run[|events|] == s
  }

  /** Some run goes from `o` to `s`. */
  ghost predicate Leads(o: State, s: State) {
    exists run, events :: Joins(run, events, o, s)
  }

  lemma LeadsStep(o: State, s: State, e: Event, s': State)
    requires Leads(o, s) && Enabled(s, e) && s' == Do(s, e)
    ensures Leads(o, s')
  {
    var run, events :| Joins(run, events, o, s);
    var run', events' := run + [s'], events + [e];
    forall k | 0 <= k < |events'|
      ensures Enabled(run'[k], events'[k]) && run'[k + 1] == Do(run'[k], events'[k])
    {
      if k < |events| { assert run'[k] == run[k] && run'[k + 1] == run[k + 1]; }
    }
    assert Joins(run', events', o, s');
  }

  lemma LeadsToItself(s: State)
    ensures Leads(s, s)
  {
    assert Joins([s], [], s, s);
  }

  /** A request whose body is replayed, or whose spool fails, or whose handler leaves early, gives
      back exactly what it took: the slot and the count. */
  lemma SlotIsGivenBack(s: State, r: nat, replayed: bool) returns (s': State)
    requires r in s.reqs && s.reqs[r].stage == Admitted && s.reqs[r].frees == 0
    ensures s' == Do(if replayed then Do(Do(s, OpenSpool(r)), Release(r)) else Do(s, OpenSpool(r)), End(r))
    ensures s'.free == s.free + 1 && s'.table == FreeTable(s.table, s.reqs[r].client)
    ensures s'.reqs[r].stage == Ended && s'.reqs[r].frees == 1
    ensures Do(s, SpoolFails(r)).free == s'.free && Do(s, SpoolFails(r)).table == s'.table
    ensures Do(s, SpoolFails(r)).reqs[r].stage == Ended
  {
    var spooled := Do(s, OpenSpool(r));
    assert spooled.reqs[r].stage == Spooled(false) && spooled.table == s.table && spooled.free == s.free;
    if replayed {
      var freed := Do(spooled, Release(r));
      assert freed.reqs[r].stage == Spooled(true);
      s' := Do(freed, End(r));
    } else {
      s' := Do(spooled, End(r));
    }
  }

  // ----- a waiting acquire -----------------------------------------------------------------

  /** Two slots, one per client: two requests of other origins, then two of client 7. */
  function Four(
    free: nat, table: map<nat, nat>, others: Stage, frees: nat, mine: map<nat, Req>, streak: Option<nat>): State
  {
    State(Config(2, 1), free, table,
          map[2 := Req(None, others, frees, true), 3 := Req(None, others, frees, true)] + mine, streak)
  }

  function Mine(a: Stage, b: Stage): map<nat, Req> {
    map[0 := Req(Some(7), a, 0, false), 1 := Req(Some(7), b, 0, false)]
  }

  function Empty(): State {
    State(Config(2, 1), 2, map[], map[], None)
  }

  function OneTaken(): State {
    State(Config(2, 1), 1, map[], map[2 := Req(None, Admitted, 0, true)], None)
  }

  lemma FirstSlotIsTaken()
    ensures Leads(Empty(), OneTaken())
  {
    var s1 := Empty().(reqs := map[2 := Req(None, Checked, 0, false)], streak := Some(2));
    var s2 := s1.(free := 1, reqs := map[2 := Req(None, Taken, 0, false)]);
    LeadsToItself(Empty());
    LeadsStep(Empty(), Empty(), Check(2, None), s1);
    LeadsStep(Empty(), s1, Take(2), s2);
    LeadsStep(Empty(), s2, Count(2), OneTaken());
  }

  lemma SlotsAreTaken()
    ensures Leads(Empty(), Four(0, map[], Admitted, 0, map[], None))
  {
    FirstSlotIsTaken();
    var s1 := OneTaken().(reqs := OneTaken().reqs[3 := Req(None, Checked, 0, false)], streak := Some(3));
    var s2 := s1.(free := 0, reqs := OneTaken().reqs[3 := Req(None, Taken, 0, false)]);
    LeadsStep(Empty(), OneTaken(), Check(3, None), s1);
    LeadsStep(Empty(), s1, Take(3), s2);
    LeadsStep(Empty(), s2, Count(3), Four(0, map[], Admitted, 0, map[], None));
  }

  /** Both requests of client 7 have passed the check and no slot is free: both wait. */
  function BothWaiting(): State {
    Four(0, map[], Admitted, 0, Mine(Checked, Checked), Some(1))
  }

  lemma BothPassTheCheck()
    ensures Leads(Empty(), BothWaiting())
  {
    SlotsAreTaken();
    var s0 := Four(0, map[], Admitted, 0, map[], None);
    var s1 := Four(0, map[], Admitted, 0, map[0 := Req(Some(7), Checked, 0, false)], Some(0));
    LeadsStep(Empty(), s0, Check(0, Some(7)), s1);
    LeadsStep(Empty(), s1, Check(1, Some(7)), BothWaiting());
  }

  /** The slots come free while they wait. */
  lemma SlotsComeFree()
    ensures Leads(BothWaiting(), Four(2, map[], Ended, 1, Mine(Checked, Checked), None))
  {
    var s1 := BothWaiting().(free := 1, streak := None, reqs := BothWaiting().reqs[2 := Req(None, Ended, 1, true)]);
    LeadsToItself(BothWaiting());
    LeadsStep(BothWaiting(), BothWaiting(), SpoolFails(2), s1);
    LeadsStep(BothWaiting(), s1, SpoolFails(3), Four(2, map[], Ended, 1, Mine(Checked, Checked), None));
  }

  /** One is counted, the other still waits. */
  function OneCounted(): State {
    Four(1, map[7 := 1], Ended, 1, Mine(Admitted, Checked), None)
  }

  /** Both are counted, one more than the share. */
  function BothCounted(): State {
    Four(0, map[7 := 2], Ended, 1, Mine(Admitted, Admitted), None)
  }

  lemma OneIsCounted()
    ensures Leads(BothWaiting(), OneCounted())
  {
    SlotsComeFree();
    var s0 := Four(2, map[], Ended, 1, Mine(Checked, Checked), None);
    var s1 := Four(1, map[], Ended, 1, Mine(Taken, Checked), None);
    LeadsStep(BothWaiting(), s0, Take(0), s1);
    LeadsStep(BothWaiting(), s1, Count(0), OneCounted());
  }

  lemma BothAreCounted()
    ensures Leads(BothWaiting(), BothCounted())
  {
    OneIsCounted();
    var s1 := Four(0, map[7 := 1], Ended, 1, Mine(Admitted, Taken), None);
    LeadsStep(BothWaiting(), OneCounted(), Take(1), s1);
    LeadsStep(BothWaiting(), s1, Count(1), BothCounted());
  }

  /** The client's requests `a` and `b` wait for a slot, none being free. */
  predicate Waits(s: State, a: nat, b: nat, c: nat) {
    && a != b && a in s.reqs && b in s.reqs && s.reqs[a].client == Some(c) && s.reqs[b].client == Some(c)
    && s.reqs[a].stage == Checked && s.reqs[b].stage == Checked && s.free == 0
  }

  /** A run in which two requests of one client wait for a slot and later exceed its share. */
  ghost predicate WaitThenExceed(o: State, w: State, s: State) {
    Initial(o) && Leads(o, w) && Waits(w, 0, 1, 7) && Leads(w, s) && |HoldersOf(s, 7)| > s.cfg.perClient
  }

  /** The undisturbed case matters: the acquire waits, so two requests of one client can both
      pass the check and together exceed its share. */
  lemma WaitingAcquireCanExceedTheShare()
    ensures exists o, w, s :: WaitThenExceed(o, w, s)
  {
    BothPassTheCheck();
    BothAreCounted();
    assert HoldersOf(BothCounted(), 7) == {0, 1};
    assert WaitThenExceed(Empty(), BothWaiting(), BothCounted());
  }
}
