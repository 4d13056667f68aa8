/** The run state machine of one session: runners, producers of messages, and everybody else
    who writes the status, interleaved event by event. */
module SessionRuns {
  import opened Wrappers
  import opened SessionStatus

  datatype Pc =
    | Waiting                // run_session called, lock not held
    | Locked
    | Read(cur: Status)      // status read and input gate passed
    | Resuming               // moved the session to 'resumed'
    | Entered                // moved the session to 'running', queue not yet drained
    | Inside
    | Cleaning(final: Final)
    | Leaving
    | Gone

  /** `forged`: a self-wake or a delegation result, not a message a person sent. */
  datatype Msg = Msg(id: nat, forged: bool)

  /** `outsideResume`: the current 'resumed' was written by nobody's run. `queue`: what a run would
      read. `promised`: messages whose producer has queued but not yet called run_session. */
  datatype State = State(locking: bool, status: Status, outsideResume: bool, lock: Option<nat>,
                         runners: map<nat, Pc>, queue: set<Msg>, promised: set<Msg>)

  datatype Event =
    | Post(m: Msg)                        // a producer queues a message
    | Call(m: Msg, r: nat)                // ... and then calls run_session
    | Acquire(r: nat)
    | ReadStatus(r: nat, room: bool)      // `room`: a member's room line is pending as well
    | FirstCas(r: nat)
    | SecondCas(r: nat)
    | Drain(r: nat, taken: set<Msg>)      // before the first step and after every step
    | Recreate(r: nat)                    // the run rebuilds an evicted orchestrator
    | Finish(r: nat, final: Final)        // any exit of the run
    | Cleanup(r: nat, ran: bool)
    | Release(r: nat)
    | Outside(to: Status)                 // cancel, pause, resume, rebuild, REPL exit, eviction

  /** One drain takes at most three messages. */
  const PER_DRAIN := 3

  /** The input gate: a completed session runs only with something queued, a cancelled one only
      with something a person sent. */
  predicate HasInput(s: State, room: bool) {
    && (s.status == Completed ==> room || s.queue != {})
    && (s.status == Cancelled ==> room || exists m | m in s.queue :: !m.forged)
  }

  predicate TwoStep(cur: Status) {
    cur == Completed || cur == Suspended || cur == Failed || cur == LegacyError
  }

  predicate OneStep(cur: Status) {
    cur == Resumed || cur == Created || cur == Initializing || cur == Cancelled || cur == LegacyActive
  }

  predicate AtPc(s: State, r: nat, pc: Pc) {
    r in s.runners && s.runners[r] == pc
  }

  predicate Enabled(s: State, e: Event) {
    match e
    case Post(m) => m !in s.queue && m !in s.promised
    case Call(m, r) => m in s.promised && r !in s.runners
    case Acquire(r) => AtPc(s, r, Waiting) && (s.locking ==> s.lock == None)
    case ReadStatus(r, _) => AtPc(s, r, Locked)
    case FirstCas(r) => r in s.runners && s.runners[r].Read?
    case SecondCas(r) => AtPc(s, r, Resuming)
    case Drain(r, taken) =>
      && (AtPc(s, r, Entered) || AtPc(s, r, Inside))
      && taken <= s.queue && |taken| == if |s.queue| < PER_DRAIN then |s.queue| else PER_DRAIN
    case Recreate(r) => AtPc(s, r, Entered)
    case Finish(r, _) => AtPc(s, r, Entered) || AtPc(s, r, Inside)
    case Cleanup(r, _) => r in s.runners && s.runners[r].Cleaning?
    case Release(r) => AtPc(s, r, Leaving)
    case Outside(to) => to != Running && Normalize(to) == to && EdgeAllowed(s.status, to)
  }

  /** The runner whose step it is. */
  function Actor(e: Event): Option<nat> {
    match e
    case Post(_) => None
    case Outside(_) => None
    case _ => Some(e.r)
  }

  /** What the compare-and-set from `cur` leads to: `next` on a win, the way out on a miss. */
  function OnWin(s: State, cur: Status, to: Status, next: Pc): Pc {
    if CasWins(s.status, cur, to) then next else Leaving
  }

  function NextPc(s: State, e: Event): Pc
    requires Enabled(s, e) && Actor(e).Some?
  {
    match e
    case Call(_, _) => Waiting
    case Acquire(_) => Locked
    case ReadStatus(_, room) => if HasInput(s, room) then Read(s.status) else Leaving
    case FirstCas(r) =>
      var cur := s.runners[r].cur;
      if TwoStep(cur) then OnWin(s, cur, Resumed, Resuming)
      else if OneStep(cur) then OnWin(s, cur, Running, Entered)
      else Leaving
    case SecondCas(_) => OnWin(s, Resumed, Running, Entered)
    case Drain(_, _) => Inside
    case Recreate(_) => Entered
    case Finish(_, final) => Cleaning(final)
    case Cleanup(_, _) => Leaving
    case Release(_) => Gone
  }

  function NextStatus(s: State, e: Event): Status
    requires Enabled(s, e)
  {
    match e
    case FirstCas(r) =>
      var cur := s.runners[r].cur;
      if TwoStep(cur) then Cas(s.status, cur, Resumed)
      else if OneStep(cur) then Cas(s.status, cur, Running)
      else s.status
    case SecondCas(_) => Cas(s.status, Resumed, Running)
    case Recreate(_) => if Allowed(s.status, Initializing) then Initializing else s.status
    case Finish(_, final) => Cas(s.status, Running, final)
    case Cleanup(r, ran) => if ran then CleanupWrite(s.status, s.runners[r].final) else s.status
    case Outside(to) => to
    case _ => s.status
  }

  function NextLock(s: State, e: Event): Option<nat> {
    if !s.locking then s.lock
    else if e.Acquire? then Some(e.r)
    else if e.Release? then None
    else s.lock
  }

  function NextQueue(s: State, e: Event): set<Msg> {
    if e.Post? then s.queue + {e.m} else if e.Drain? then s.queue - e.taken else s.queue
  }

  function Do(s: State, e: Event): State
    requires Enabled(s, e)
  {
    s.(status := NextStatus(s, e),
       outsideResume := if e.Outside? then e.to == Resumed else s.outsideResume && NextStatus(s, e) == s.status,
       lock := NextLock(s, e),
       runners := if Actor(e).Some? then s.runners[Actor(e).value := NextPc(s, e)] else s.runners,
       queue := NextQueue(s, e),
       promised := if e.Post? then s.promised + {e.m} else if e.Call? then s.promised - {e.m} else s.promised)
  }

  /** A process starts with no runs; a session left 'running' was rewritten on load. */
  predicate Initial(s: State) {
    s.lock == None && s.runners == map[] && s.queue == {} && s.promised == {}
    && s.status != Running && (s.status == Resumed <==> s.outsideResume)
  }

  predicate IsRun(run: seq<State>, events: seq<Event>) {
    |run| == |events| + 1 && Initial(run[0]) &&
    forall k :: 0 <= k < |events| ==> Enabled(run[k], events[k]) && run[k + 1] == Do(run[k], events[k])
  }

  // ----- entries and the status ------------------------------------------------------------

  predicate InRegion(pc: Pc) {
    pc == Entered || pc == Inside
  }

  /** The event brings runner `r` into the execution region. */
  predicate Enters(s: State, e: Event, r: nat)
    requires Enabled(s, e)
  {
    r in s.runners && !InRegion(s.runners[r]) && InRegion(Do(s, e).runners[r])
  }

  lemma EnteringIsWinningACas(s: State, e: Event, r: nat)
    requires Enabled(s, e) && Enters(s, e, r)
    ensures (e.FirstCas? || e.SecondCas?) && e.r == r && s.status != Running && Do(s, e).status == Running
  {
  }

  /** With or without the lock: the status becomes 'running' exactly when some runner enters, so
      every entry is paired with its own transition. */
  lemma EntryIsTheTransition(s: State, e: Event)
    requires Enabled(s, e)
    ensures (s.status != Running && Do(s, e).status == Running) <==> exists r :: Enters(s, e, r)
    ensures forall r :: Enters(s, e, r) ==> s.status != Running
  {
    forall r | Enters(s, e, r) ensures s.status != Running && Do(s, e).status == Running {
      EnteringIsWinningACas(s, e, r);
    }
    if s.status != Running && Do(s, e).status == Running {
      assert e.FirstCas? || e.SecondCas?;
      assert Enters(s, e, e.r);
    }
  }

  lemma {:induction false} StaysRunning(run: seq<State>, events: seq<Event>, i: nat, j: nat)
    requires IsRun(run, events) && i <= j <= |events| && run[i].status == Running
    requires forall k | i <= k < j :: !(run[k].status == Running && run[k + 1].status != Running)
    ensures run[j].status == Running
  {
    if i < j { StaysRunning(run, events, i, j - 1); }
  }

  /** Even with the lock removed: between two entries the status left 'running'. */
  lemma StatusLeftRunningBetweenEntries(run: seq<State>, events: seq<Event>, i: nat, j: nat, p: nat, q: nat)
    requires IsRun(run, events) && i < j < |events|
    requires Enters(run[i], events[i], p) && Enters(run[j], events[j], q)
    ensures exists k | i < k < j :: run[k].status == Running && run[k + 1].status != Running
  {
    EntryIsTheTransition(run[i], events[i]);
    EntryIsTheTransition(run[j], events[j]);
    if forall k | i < k < j :: !(run[k].status == Running && run[k + 1].status != Running) {
      StaysRunning(run, events, i + 1, j);
      assert false;
    }
  }

  // ----- the lock --------------------------------------------------------------------------

  predicate HoldsLock(pc: Pc) {
    pc != Waiting && pc != Gone
  }

  /** One runner at most is between taking the lock and letting it go. */
  predicate Serialized(s: State) {
    && s.locking
    && (forall r | r in s.runners :: HoldsLock(s.runners[r]) <==> s.lock == Some(r))
    && (s.lock.Some? ==> s.lock.value in s.runners)
  }

  /** 'running' and a run's own 'resumed' belong to the runner that holds the lock. */
  predicate StatusHeld(s: State) {
    && (s.status == Running ==> s.lock.Some? && s.lock.value in s.runners && InRegion(s.runners[s.lock.value]))
    && (s.outsideResume ==> s.status == Resumed)
    && (s.status == Resumed && !s.outsideResume ==>
          s.lock.Some? && s.lock.value in s.runners && s.runners[s.lock.value] == Resuming)
  }

  predicate LockInv(s: State) {
    Serialized(s) && StatusHeld(s)
  }

  lemma StepKeepsHolder(s: State, e: Event, r: nat)
    requires Serialized(s) && Enabled(s, e) && r in Do(s, e).runners
    ensures HoldsLock(Do(s, e).runners[r]) <==> Do(s, e).lock == Some(r)
  {
  }

  lemma StepKeepsSerialized(s: State, e: Event)
    requires Serialized(s) && Enabled(s, e)
    ensures Serialized(Do(s, e))
  {
    forall r | r in Do(s, e).runners ensures HoldsLock(Do(s, e).runners[r]) <==> Do(s, e).lock == Some(r) {
      StepKeepsHolder(s, e, r);
    }
  }

  lemma StepKeepsStatusHeld(s: State, e: Event)
    requires LockInv(s) && Enabled(s, e)
    ensures StatusHeld(Do(s, e))
  {
  }

  lemma StepKeepsLock(s: State, e: Event)
    requires LockInv(s) && Enabled(s, e)
    ensures LockInv(Do(s, e))
  {
    StepKeepsSerialized(s, e);
    StepKeepsStatusHeld(s, e);
  }

  lemma {:induction false} RunKeepsLock(run: seq<State>, events: seq<Event>, n: nat)
    requires IsRun(run, events) && n <= |events| && run[0].locking
    ensures LockInv(run[n])
  {
    if n > 0 {
      RunKeepsLock(run, events, n - 1);
      StepKeepsLock(run[n - 1], events[n - 1]);
    }
  }

  /** With the lock: never two runners in the region, and while the lock is free the session is
      not 'running'; it is 'resumed' exactly when somebody other than a run wrote that. */
  lemma LockSerializesRuns(run: seq<State>, events: seq<Event>, n: nat)
    requires IsRun(run, events) && n <= |events| && run[0].locking
    ensures forall p, q | p in run[n].runners && q in run[n].runners
      && InRegion(run[n].runners[p]) && InRegion(run[n].runners[q]) :: p == q
    ensures run[n].lock == None ==> run[n].status != Running
    ensures run[n].lock == None ==> (run[n].status == Resumed <==> run[n].outsideResume)
  {
    RunKeepsLock(run, events, n);
  }

  /** Runner `r` has not let go yet and the session is cancelled. */
  predicate CancelledUnder(s: State, r: nat) {
    s.status == Cancelled && r in s.runners
    && (InRegion(s.runners[r]) || s.runners[r].Cleaning? || s.runners[r] == Leaving)
  }

  lemma StepKeepsCancel(s: State, e: Event, r: nat)
    requires LockInv(s) && Enabled(s, e) && CancelledUnder(s, r)
    requires !e.Outside? && e != Recreate(r) && e != Release(r)
    ensures CancelledUnder(Do(s, e), r)
  {
    assert s.lock == Some(r);
  }

  /** A cancel that landed during a run is still there when the run lets go of the lock, however
      the run ends, unless somebody outside wrote again or the run rebuilt its orchestrator. */
  lemma {:induction false} LandedCancelSurvives(run: seq<State>, events: seq<Event>, a: nat, b: nat, r: nat)
    requires IsRun(run, events) && run[0].locking && a <= b <= |events|
    requires r in run[a].runners && InRegion(run[a].runners[r]) && run[a].status == Cancelled
    requires forall k | a <= k < b :: !events[k].Outside? && events[k] != Recreate(r) && events[k] != Release(r)
    ensures CancelledUnder(run[b], r)
  {
    if a < b {
      LandedCancelSurvives(run, events, a, b - 1, r);
      RunKeepsLock(run, events, b - 1);
      StepKeepsCancel(run[b - 1], events[b - 1], r);
    }
  }

  /** Nobody writes the status between a runner's read and its entry. */
  predicate Undisturbed(s: State, e: Event) {
    e.Outside? ==> forall r | r in s.runners :: !s.runners[r].Read? && s.runners[r] != Resuming
  }

  /** The schedule of one event loop: from the read of the status through the gate to the last
      compare-and-set a runner does not await, so nothing happens in between. */
  predicate AwaitFree(s: State, e: Event) {
    forall r | r in s.runners && (s.runners[r].Read? || s.runners[r] == Resuming) :: Actor(e) == Some(r)
  }

  /** Under that schedule nobody disturbs an entry. */
  lemma AwaitFreeIsUndisturbed(s: State, e: Event)
    requires AwaitFree(s, e)
    ensures Undisturbed(s, e)
  {
  }

  /** A runner between its read and its entry has read the status that is stored. */
  predicate UpToDate(pc: Pc, status: Status) {
    (pc.Read? ==> pc.cur == status) && (pc == Resuming ==> status == Resumed)
  }

  predicate Calm(s: State) {
    forall r | r in s.runners :: UpToDate(s.runners[r], s.status)
  }

  lemma OnlyTheHolderWrites(s: State, e: Event)
    requires Serialized(s) && Enabled(s, e) && !e.Outside? && Do(s, e).status != s.status
    ensures s.lock.Some? && Actor(e) == s.lock
  {
  }

  lemma OthersStay(s: State, e: Event, r: nat)
    requires Enabled(s, e) && r in Do(s, e).runners && Actor(e) != Some(r)
    ensures r in s.runners && Do(s, e).runners[r] == s.runners[r]
  {
  }

  lemma OwnStepIsUpToDate(s: State, e: Event, r: nat)
    requires Enabled(s, e) && Actor(e) == Some(r)
    ensures r in Do(s, e).runners && UpToDate(Do(s, e).runners[r], Do(s, e).status)
  {
  }

  lemma StepKeepsUpToDate(s: State, e: Event, r: nat)
    requires Serialized(s) && Calm(s) && Enabled(s, e) && Undisturbed(s, e) && r in Do(s, e).runners
    ensures UpToDate(Do(s, e).runners[r], Do(s, e).status)
  {
    if Actor(e) == Some(r) {
      OwnStepIsUpToDate(s, e, r);
    } else {
      OthersStay(s, e, r);
      if !e.Outside? && Do(s, e).status != s.status { OnlyTheHolderWrites(s, e); }
    }
  }

  lemma CalmStateWinsCas(s: State, r: nat)
    requires Calm(s) && r in s.runners
    ensures s.runners[r].Read? && OneStep(s.runners[r].cur) ==> Do(s, FirstCas(r)).runners[r] == Entered
    ensures s.runners[r].Read? && TwoStep(s.runners[r].cur) ==> Do(s, FirstCas(r)).runners[r] == Resuming
    ensures s.runners[r] == Resuming ==> Do(s, SecondCas(r)).runners[r] == Entered
  {
    assert UpToDate(s.runners[r], s.status);
  }

  /** With the lock, and nobody writing between a read and an entry, no compare-and-set is lost. */
  lemma {:induction false} CalmRunsLoseNoCas(run: seq<State>, events: seq<Event>, n: nat)
    requires IsRun(run, events) && n <= |events| && run[0].locking
    requires forall k | 0 <= k < n :: Undisturbed(run[k], events[k])
    ensures Calm(run[n])
    ensures forall r | r in run[n].runners && run[n].runners[r].Read? && OneStep(run[n].runners[r].cur) ::
      Do(run[n], FirstCas(r)).runners[r] == Entered
    ensures forall r | r in run[n].runners && run[n].runners[r].Read? && TwoStep(run[n].runners[r].cur) ::
      Do(run[n], FirstCas(r)).runners[r] == Resuming
    ensures forall r | r in run[n].runners && run[n].runners[r] == Resuming ::
      Do(run[n], SecondCas(r)).runners[r] == Entered
  {
    if n > 0 {
      CalmRunsLoseNoCas(run, events, n - 1);
      RunKeepsLock(run, events, n - 1);
      forall r | r in run[n].runners ensures UpToDate(run[n].runners[r], run[n].status) {
        StepKeepsUpToDate(run[n - 1], events[n - 1], r);
      }
    }
    forall r | r in run[n].runners {
      CalmStateWinsCas(run[n], r);
    }
  }

  // ----- messages and runners --------------------------------------------------------------

  /** The runner is on its way to the queue, or inside and draining it. */
  predicate Attends(pc: Pc) {
    pc == Waiting || pc == Locked || pc.Read? || pc == Resuming || InRegion(pc)
  }

  /** Queued messages whose producers have all called. */
  function Called(s: State): set<Msg> {
    s.queue - s.promised
  }

  predicate Covered(s: State) {
    Called(s) != {} ==> exists r | r in s.runners :: Attends(s.runners[r])
  }

  /** The runner of the event turns away from the queue: the gate refuses it, its compare-and-set
      finds another status than it read or one no run starts from, or it ends. */
  predicate TurnsAway(s: State, e: Event, r: nat)
    requires Enabled(s, e)
  {
    match e
    case ReadStatus(p, room) => p == r && !HasInput(s, room)
    case FirstCas(p) =>
      var cur := s.runners[p].cur;
      p == r && (s.status != cur || (!TwoStep(cur) && !OneStep(cur)))
    case SecondCas(p) => p == r && s.status != Resumed
    case Finish(p, _) => p == r
    case _ => false
  }

  lemma StopsAttendingIff(s: State, e: Event, r: nat)
    requires Enabled(s, e) && r in s.runners && Attends(s.runners[r])
    ensures r in Do(s, e).runners && (!Attends(Do(s, e).runners[r]) <==> TurnsAway(s, e, r))
  {
  }

  lemma NobodyStartsAttending(s: State, e: Event, r: nat)
    requires Enabled(s, e) && !e.Call? && r in Do(s, e).runners && Attends(Do(s, e).runners[r])
    ensures r in s.runners && Attends(s.runners[r])
  {
  }

  /** The last attending runner turns away from a queue with called messages in it. */
  predicate Strands(s: State, e: Event) {
    && Enabled(s, e) && Called(s) != {}
    && exists r | r in s.runners ::
         Attends(s.runners[r]) && TurnsAway(s, e, r) && forall q | q in s.runners && q != r :: !Attends(s.runners[q])
  }

  lemma CalledAfter(s: State, e: Event)
    requires Enabled(s, e)
    ensures !e.Call? ==> Called(Do(s, e)) <= Called(s)
    ensures e.ReadStatus? || e.FirstCas? || e.SecondCas? || e.Finish? ==> Called(Do(s, e)) == Called(s)
  {
  }

  /** Coverage is lost in one step exactly there. */
  lemma CoverageIsLostIff(s: State, e: Event)
    requires Enabled(s, e) && Covered(s)
    ensures !Covered(Do(s, e)) <==> Strands(s, e)
  {
    var s' := Do(s, e);
    CalledAfter(s, e);
    if e.Call? {
      assert Attends(s'.runners[e.r]);
    } else if Strands(s, e) {
      forall q | q in s'.runners ensures !Attends(s'.runners[q]) {
        if Attends(s'.runners[q]) {
          NobodyStartsAttending(s, e, q);
          StopsAttendingIff(s, e, q);
        }
      }
    } else if Called(s') != {} {
      SomebodyStillAttends(s, e);
    }
  }

  lemma SomebodyStillAttends(s: State, e: Event)
    requires Enabled(s, e) && Covered(s) && !e.Call? && Called(s) != {} && !Strands(s, e)
    ensures exists q | q in Do(s, e).runners :: Attends(Do(s, e).runners[q])
  {
    var r :| r in s.runners && Attends(s.runners[r]);
    StopsAttendingIff(s, e, r);
    if TurnsAway(s, e, r) {
      var q :| q in s.runners && q != r && Attends(s.runners[q]);
      StopsAttendingIff(s, e, q);
    }
  }

  predicate AlwaysCovered(run: seq<State>, n: nat)
    requires n < |run|
  {
    forall k | 0 <= k <= n :: Covered(run[k])
  }

  predicate NeverStrands(run: seq<State>, events: seq<Event>, n: nat)
    requires n <= |events| < |run|
  {
    forall k | 0 <= k < n :: !Strands(run[k], events[k])
  }

  lemma LastOfRange(run: seq<State>, events: seq<Event>, n: nat)
    requires 0 < n <= |events| < |run|
    ensures AlwaysCovered(run, n) <==> AlwaysCovered(run, n - 1) && Covered(run[n])
    ensures NeverStrands(run, events, n) <==> NeverStrands(run, events, n - 1) && !Strands(run[n - 1], events[n - 1])
  {
  }

  /** Over whole runs, with or without the lock: every queued message whose producer has called has
      an attending runner at every moment, if and only if no step of the run strands one. */
  lemma {:induction false} QueuedMessageHasARunnerIff(run: seq<State>, events: seq<Event>, n: nat)
    requires IsRun(run, events) && n <= |events|
    ensures AlwaysCovered(run, n) <==> NeverStrands(run, events, n)
  {
    if n > 0 {
      QueuedMessageHasARunnerIff(run, events, n - 1);
      LastOfRange(run, events, n);
      if AlwaysCovered(run, n - 1) {
        CoverageIsLostIff(run[n - 1], events[n - 1]);
      }
    }
  }

  // ----- every message has its own producer's runner ---------------------------------------

  /** The stored status is a known one when it is read (a hand-edited file may hold another). */
  predicate KnownStatus(s: State, e: Event) {
    e.ReadStatus? ==> s.status != Unknown
  }

  /** Step `k` is the call of `m`'s producer that brought runner `r`. */
  predicate CalledAt(events: seq<Event>, k: nat, m: Msg, r: nat) {
    k < |events| && events[k] == Call(m, r)
  }

  /** The runner was requested for `m` before step `n`. */
  predicate RequestedFor(events: seq<Event>, n: nat, m: Msg, r: nat) {
    exists k: nat | k < n :: CalledAt(events, k, m, r)
  }

  /** A run that ends has drained what was queued before it was requested. */
  predicate DrainsItsOwn(s: State, events: seq<Event>, k: nat)
    requires k < |events|
  {
    events[k].Finish? ==> forall m | m in s.queue :: !RequestedFor(events, k, m, events[k].r)
  }

  /** A forged message is not refused by the gate of a cancelled session. */
  predicate GateOpen(s: State, e: Event, m: Msg) {
    e.ReadStatus? && m.forged ==> HasInput(s, e.room)
  }

  /** What the statement asks of step `k`, all of it about that step alone. */
  predicate Regular(run: seq<State>, events: seq<Event>, k: nat, m: Msg)
    requires k < |events| < |run|
  {
    && AwaitFree(run[k], events[k]) && KnownStatus(run[k], events[k])
    && DrainsItsOwn(run[k], events, k) && GateOpen(run[k], events[k], m)
  }

  /** No runner has read a status no run starts from. */
  predicate ReadsOk(s: State) {
    forall r | r in s.runners && s.runners[r].Read? :: TwoStep(s.runners[r].cur) || OneStep(s.runners[r].cur)
  }

  lemma StepKeepsReadsOk(s: State, e: Event)
    requires LockInv(s) && ReadsOk(s) && Enabled(s, e) && KnownStatus(s, e)
    ensures ReadsOk(Do(s, e))
  {
    forall r | r in Do(s, e).runners && Do(s, e).runners[r].Read?
      ensures TwoStep(Do(s, e).runners[r].cur) || OneStep(Do(s, e).runners[r].cur)
    {
      if Actor(e) != Some(r) { OthersStay(s, e, r); }
    }
  }

  lemma {:induction false} RegularRunKeepsReads(run: seq<State>, events: seq<Event>, n: nat, m: Msg)
    requires IsRun(run, events) && n <= |events| && run[0].locking
    requires forall k: nat | k < n :: Regular(run, events, k, m)
    ensures Calm(run[n]) && ReadsOk(run[n])
  {
    forall k: nat | k < n ensures Undisturbed(run[k], events[k]) {
      assert Regular(run, events, k, m);
      AwaitFreeIsUndisturbed(run[k], events[k]);
    }
    CalmRunsLoseNoCas(run, events, n);
    if n > 0 {
      RegularRunKeepsReads(run, events, n - 1, m);
      RunKeepsLock(run, events, n - 1);
      assert Regular(run, events, n - 1, m);
      StepKeepsReadsOk(run[n - 1], events[n - 1]);
    }
  }

  /** The runner of a queued message does not turn away from it. */
  lemma OwnRunnerStays(run: seq<State>, events: seq<Event>, k: nat, m: Msg, r: nat)
    requires IsRun(run, events) && k < |events| && run[0].locking
    requires forall j: nat | j <= k :: Regular(run, events, j, m)
    requires m in run[k].queue && r in run[k].runners && Attends(run[k].runners[r]) && RequestedFor(events, k, m, r)
    ensures r in run[k + 1].runners && Attends(run[k + 1].runners[r])
  {
    RegularRunKeepsReads(run, events, k, m);
    assert Regular(run, events, k, m);
    StopsAttendingIff(run[k], events[k], r);
    assert UpToDate(run[k].runners[r], run[k].status);
  }

  /** Every message whose producer has queued it and then called has that producer's own runner,
      waiting for the lock, on its way in, or inside, for as long as it is queued: in every run on
      one event loop, with the lock, in which stored statuses are known and each run that ends has
      drained what was queued before it was requested. A message a person sent asks nothing of the
      gate; a forged one must not meet the gate of a cancelled session. */
  lemma {:induction false} QueuedMessageHasItsRunner(run: seq<State>, events: seq<Event>, n: nat, m: Msg)
    requires IsRun(run, events) && n <= |events| && run[0].locking
    requires forall k: nat | k < n :: Regular(run, events, k, m)
    requires m in Called(run[n])
    ensures exists r | r in run[n].runners :: Attends(run[n].runners[r]) && RequestedFor(events, n, m, r)
  {
    var e := events[n - 1];
    CalledAfter(run[n - 1], e);
    if e.Call? && e.m == m {
      assert CalledAt(events, n - 1, m, e.r) && Attends(run[n].runners[e.r]);
    } else {
      assert m in Called(run[n - 1]);
      QueuedMessageHasItsRunner(run, events, n - 1, m);
      var r :| r in run[n - 1].runners && Attends(run[n - 1].runners[r]) && RequestedFor(events, n - 1, m, r);
      OwnRunnerStays(run, events, n - 1, m, r);
      var k: nat :| k < n - 1 && CalledAt(events, k, m, r);
      assert CalledAt(events, k, m, r);
    }
  }

  /** Once every producer has called and every runner is gone, nothing a person sent is queued. */
  lemma QuietSessionHasReadItsMessages(run: seq<State>, events: seq<Event>, n: nat, m: Msg)
    requires IsRun(run, events) && n <= |events| && run[0].locking
    requires forall k: nat | k < n :: Regular(run, events, k, m)
    requires run[n].promised == {} && forall r | r in run[n].runners :: !Attends(run[n].runners[r])
    ensures m !in run[n].queue
  {
    if m in run[n].queue { QueuedMessageHasItsRunner(run, events, n, m); }
  }

  /** A gate refusal strands messages exactly in a cancelled session whose queue nobody sent. */
  lemma GateStrandsOnlyForgedIff(s: State, r: nat, room: bool)
    requires Enabled(s, ReadStatus(r, room)) && Called(s) != {}
    requires forall q | q in s.runners && q != r :: !Attends(s.runners[q])
    ensures Strands(s, ReadStatus(r, room)) <==> s.status == Cancelled && !room && forall m | m in s.queue :: m.forged
  {
    if !HasInput(s, room) { assert TurnsAway(s, ReadStatus(r, room), r); }
  }

  /** One drain takes three messages at most, and all of them when there are no more. */
  lemma DrainTakes(s: State, r: nat, taken: set<Msg>)
    requires Enabled(s, Drain(r, taken))
    ensures Do(s, Drain(r, taken)).queue == s.queue - taken && |taken| <= 3
    ensures |s.queue| <= 3 ==> Do(s, Drain(r, taken)).queue == {}
    ensures |s.queue| > 3 ==> |Do(s, Drain(r, taken)).queue| == |s.queue| - 3
  {
    assert s.queue == taken + (s.queue - taken);
    if |s.queue| <= 3 { assert |s.queue - taken| == 0; }
  }

  // ----- each rule is needed ---------------------------------------------------------------

  datatype Rule = StatusRule | GateRule | DrainRule

  /** The step keeps every rule but one, and is one of the event loop's own schedule. */
  predicate KeepsAllBut(s: State, e: Event, dropped: Rule) {
    && AwaitFree(s, e)
    && (dropped != StatusRule ==> KnownStatus(s, e))
    && (dropped != GateRule && e.ReadStatus? ==> HasInput(s, e.room))
    && (dropped != DrainRule ==> !e.Finish?)
  }

  predicate Ends(run: seq<State>, events: seq<Event>, s: State, dropped: Rule) {
    IsRun(run, events) && run[|events|] == s && forall k | 0 <= k < |events| :: KeepsAllBut(run[k], events[k], dropped)
  }

  ghost predicate Reachable(s: State, dropped: Rule) {
    exists run, events :: Ends(run, events, s, dropped)
  }

  lemma ReachStep(s: State, e: Event, s': State, dropped: Rule)
    requires Reachable(s, dropped) && Enabled(s, e) && KeepsAllBut(s, e, dropped) && s' == Do(s, e)
    ensures Reachable(s', dropped)
  {
    var run, events :| Ends(run, events, s, dropped);
    var run', events' := run + [s'], events + [e];
    forall k | 0 <= k < |events'|
      ensures Enabled(run'[k], events'[k]) && run'[k + 1] == Do(run'[k], events'[k])
      ensures KeepsAllBut(run'[k], events'[k], dropped)
    {
      if k < |events| {
        assert run'[k] == run[k] && run'[k + 1] == run[k + 1] && KeepsAllBut(run[k], events[k], dropped);
      }
    }
    assert Ends(run', events', s', dropped);
  }

  /** One message queued, its producer has called, one runner. */
  function One(status: Status, lock: Option<nat>, pc: Pc, m: Msg): State {
    State(true, status, false, lock, map[0 := pc], {m}, {})
  }

  predicate Stranded(s: State) {
    s.locking && s.queue != {} && s.promised == {} && forall r | r in s.runners :: s.runners[r] == Gone
  }

  /** A run that keeps every other rule ends with the message queued and every runner gone. */
  ghost predicate StrandsWithout(dropped: Rule) {
    exists s :: Reachable(s, dropped) && Stranded(s)
  }

  lemma RunnerIsLocked(status: Status, m: Msg, dropped: Rule)
    requires status != Running && status != Resumed
    ensures Reachable(One(status, Some(0), Locked, m), dropped)
  {
    var s0 := State(true, status, false, None, map[], {}, {});
    var s1 := s0.(queue := {m}, promised := {m});
    assert Ends([s0], [], s0, dropped);
    ReachStep(s0, Post(m), s1, dropped);
    ReachStep(s1, Call(m, 0), One(status, None, Waiting, m), dropped);
    ReachStep(One(status, None, Waiting, m), Acquire(0), One(status, Some(0), Locked, m), dropped);
  }

  lemma RunnerHasRead(status: Status, m: Msg, dropped: Rule)
    requires status == Created || (status == Unknown && dropped == StatusRule)
    ensures Reachable(One(status, Some(0), Read(status), m), dropped)
  {
    RunnerIsLocked(status, m, dropped);
    ReachStep(One(status, Some(0), Locked, m), ReadStatus(0, false), One(status, Some(0), Read(status), m), dropped);
  }

  /** A runner that turned away lets go of the lock and is gone. */
  lemma LeavingIsStranded(status: Status, m: Msg, dropped: Rule)
    requires Reachable(One(status, Some(0), Leaving, m), dropped)
    ensures StrandsWithout(dropped)
  {
    ReachStep(One(status, Some(0), Leaving, m), Release(0), One(status, None, Gone, m), dropped);
    assert Stranded(One(status, None, Gone, m));
  }

  /** A self-wake queued into a cancelled session stays queued, and its own run ends at the gate. */
  lemma SelfWakeIntoCancelledIsStranded()
    ensures StrandsWithout(GateRule)
  {
    var m := Msg(0, true);
    RunnerIsLocked(Cancelled, m, GateRule);
    ReachStep(One(Cancelled, Some(0), Locked, m), ReadStatus(0, false), One(Cancelled, Some(0), Leaving, m), GateRule);
    LeavingIsStranded(Cancelled, m, GateRule);
  }

  lemma TurnedAwayByUnknown(m: Msg)
    ensures Enabled(One(Unknown, Some(0), Read(Unknown), m), FirstCas(0))
    ensures Do(One(Unknown, Some(0), Read(Unknown), m), FirstCas(0)) == One(Unknown, Some(0), Leaving, m)
  {
    var s := One(Unknown, Some(0), Read(Unknown), m);
    assert s.runners[0].cur == Unknown && !TwoStep(Unknown) && !OneStep(Unknown);
    assert NextPc(s, FirstCas(0)) == Leaving && NextStatus(s, FirstCas(0)) == Unknown;
    assert s.runners[0 := Leaving] == map[0 := Leaving];
  }

  lemma NoEntryFromUnknown(m: Msg)
    ensures Reachable(One(Unknown, Some(0), Leaving, m), StatusRule)
  {
    RunnerHasRead(Unknown, m, StatusRule);
    TurnedAwayByUnknown(m);
    ReachStep(One(Unknown, Some(0), Read(Unknown), m), FirstCas(0), One(Unknown, Some(0), Leaving, m), StatusRule);
  }

  /** No run starts from a status nobody knows: the message stays unread. */
  lemma UnknownStatusStrandsAMessage()
    ensures StrandsWithout(StatusRule)
  {
    NoEntryFromUnknown(Msg(0, false));
    LeavingIsStranded(Unknown, Msg(0, false), StatusRule);
  }

  lemma RunnerHasEntered(m: Msg)
    ensures Reachable(One(Running, Some(0), Entered, m), DrainRule)
  {
    RunnerHasRead(Created, m, DrainRule);
    ReachStep(One(Created, Some(0), Read(Created), m), FirstCas(0), One(Running, Some(0), Entered, m), DrainRule);
  }

  lemma RunFailsBeforeItDrains(m: Msg)
    ensures Reachable(One(Failed, Some(0), Cleaning(Failed), m), DrainRule)
  {
    RunnerHasEntered(m);
    var s' := One(Failed, Some(0), Cleaning(Failed), m);
    ReachStep(One(Running, Some(0), Entered, m), Finish(0, Failed), s', DrainRule);
  }

  /** A run that fails before its first drain, for want of a model say, leaves its message queued. */
  lemma FailedStartStrandsAMessage()
    ensures StrandsWithout(DrainRule)
  {
    var m := Msg(0, false);
    RunFailsBeforeItDrains(m);
    var s := One(Failed, Some(0), Cleaning(Failed), m);
    ReachStep(s, Cleanup(0, false), One(Failed, Some(0), Leaving, m), DrainRule);
    LeavingIsStranded(Failed, m, DrainRule);
  }

  // ----- and a message that is read --------------------------------------------------------

  lemma RunnerHasDrained(m: Msg)
    ensures Reachable(One(Running, Some(0), Inside, m).(queue := {}), DrainRule)
  {
    RunnerHasEntered(m);
    var s := One(Running, Some(0), Entered, m);
    assert |s.queue| == 1;
    ReachStep(s, Drain(0, {m}), One(Running, Some(0), Inside, m).(queue := {}), DrainRule);
  }

  lemma RunHasFinished(m: Msg)
    ensures Reachable(One(Completed, Some(0), Leaving, m).(queue := {}), DrainRule)
  {
    RunnerHasDrained(m);
    var s := One(Running, Some(0), Inside, m).(queue := {});
    var s' := One(Completed, Some(0), Cleaning(Completed), m).(queue := {});
    ReachStep(s, Finish(0, Completed), s', DrainRule);
    ReachStep(s', Cleanup(0, true), One(Completed, Some(0), Leaving, m).(queue := {}), DrainRule);
  }

  predicate Answered(s: State) {
    s.status == Completed && s.lock == None && s.queue == {} && s.runners == map[0 := Gone]
  }

  /** The statements are not about nothing: a message is posted, its run enters, reads it, completes
      the session and lets go of the lock. */
  lemma MessageIsReadAndTheSessionCompletes()
    ensures exists s :: Reachable(s, DrainRule) && Answered(s)
  {
    var m := Msg(0, false);
    RunHasFinished(m);
    var s := One(Completed, None, Gone, m).(queue := {});
    ReachStep(One(Completed, Some(0), Leaving, m).(queue := {}), Release(0), s, DrainRule);
    assert Answered(s);
  }
}
