/** One session's status as an object: the guarded writers, one run of the session from gate to
    cleanup, and the REPL exit. */
module SessionManager {
  import opened Wrappers
  import opened SessionStatus
  import Runs = SessionRuns

  datatype Exit = Done | Stopped | ErrorResult | TaskCancelled | OutOfCredits | Raised

  function FinalOf(exit: Exit): Final {
    match exit
    case Done => Completed
    case Stopped => Cancelled
    case ErrorResult => Failed
    case TaskCancelled => Cancelled
    case OutOfCredits => Suspended
    case Raised => Failed
  }

  /** What happens during one run: a status somebody else writes before and after the point
      where an evicted orchestrator is rebuilt, whether it is, how the run ends, and whether
      there is an orchestrator to clean up. */
  datatype Script = Script(early: Option<Status>, rebuild: bool, late: Option<Status>, exit: Exit, cleaned: bool)

  datatype Outcome = NoNewInput | AlreadyExecuting | CannotRun | Ran(exit: Exit)

  function Landed(s: Status, w: Option<Status>): Status {
    if w.Some? then Update(s, w.value) else s
  }

  /** The status a run leaves behind. */
  function RunTail(r: Script): Status {
    var a := Landed(Running, r.early);
    var b := if r.rebuild && Allowed(a, Initializing) then Initializing else a;
    var c := Cas(Landed(b, r.late), Running, FinalOf(r.exit));
    if r.cleaned then CleanupWrite(c, FinalOf(r.exit)) else c
  }

  predicate Runnable(s: Status) {
    s != Running && s != Unknown
  }

  predicate GatePasses(s: Status, pending: bool, genuine: bool) {
    (s == Cancelled ==> genuine) && (s == Completed ==> pending)
  }

  class Session {
    var status: Status

    constructor (initial: Status)
      ensures status == initial
    {
      status := initial;
    }

    method TryTransitionStatus(from: Status, to: Status) returns (won: bool)
      modifies this
      ensures won <==> CasWins(old(status), from, to)
      ensures status == Cas(old(status), from, to)
    {
      won := false;
      if status != from { return; }
      if Normalize(status) == Normalize(to) || EdgeAllowed(status, to) {
        status := Normalize(to);
        won := true;
      }
    }

    method UpdateSessionStatus(to: Status) returns (isNow: bool)
      modifies this
      ensures status == Update(old(status), to)
      ensures isNow <==> Normalize(status) == Normalize(to)
    {
      if Normalize(to) == Normalize(status) { return true; }
      if !EdgeAllowed(status, to) { return false; }
      status := Normalize(to);
      return true;
    }

    /** The end-of-run write never overwrites what landed during the run. */
    method FinishStatus(final: Final) returns (won: bool)
      modifies this
      ensures won <==> old(status) == Running
      ensures status == if won then final else old(status)
    {
      won := TryTransitionStatus(Running, final);
    }

    method Cleanup(final: Final)
      modifies this
      ensures status == CleanupWrite(old(status), final)
    {
      if Normalize(status) == Normalize(final) || Normalize(status) == Unknown || Allowed(status, final) {
        var _ := UpdateSessionStatus(final);
      }
    }

    /** `_run_session_impl` under the lock: it runs exactly when the gate passes and the status is
        a runnable one; otherwise the status is untouched. */
    method RunSessionImpl(pending: bool, genuine: bool, r: Script) returns (outcome: Outcome)
      modifies this
      ensures outcome.Ran? <==> GatePasses(old(status), pending, genuine) && Runnable(old(status))
      ensures outcome.Ran? ==> outcome.exit == r.exit && status == RunTail(r)
      ensures !outcome.Ran? ==> status == old(status)
      ensures outcome == NoNewInput <==> !GatePasses(old(status), pending, genuine)
      ensures outcome == AlreadyExecuting <==> old(status) == Running
      ensures outcome == CannotRun <==> old(status) == Unknown
      ensures old(status) == Cancelled ==> (outcome.Ran? <==> genuine)
      ensures old(status) == Completed ==> (outcome.Ran? <==> pending)
    {
      var current := status;
      if current == Cancelled {
        if !genuine { return NoNewInput; }
      } else if current == Completed && !pending {
        return NoNewInput;
      }
      var won;
      if current == Completed || current == Suspended || current == Failed || current == LegacyError {
        won := TryTransitionStatus(current, Resumed);
        if !won { return AlreadyExecuting; }
        current := Resumed;
      }
      if current == Resumed {
        won := TryTransitionStatus(Resumed, Running);
        if !won { return AlreadyExecuting; }
      } else if current == Created || current == Initializing || current == Cancelled {
        won := TryTransitionStatus(current, Running);
        if !won { return AlreadyExecuting; }
      } else if current == Running {
        return AlreadyExecuting;
      } else if current == LegacyActive {
        won := TryTransitionStatus(LegacyActive, Running);
        if !won { return AlreadyExecuting; }
      } else {
        return CannotRun;
      }
      Execute(r);
      return Ran(r.exit);
    }

    /** From the entry on: the writes of others, the rebuild, the guarded ending, the cleanup. */
    method Execute(r: Script)
      requires status == Running
      modifies this
      ensures status == RunTail(r)
    {
      var _ := Interfere(r.early);
      if r.rebuild && Allowed(status, Initializing) {
        var _ := UpdateSessionStatus(Initializing);
      }
      var _ := Interfere(r.late);
      var _ := FinishStatus(FinalOf(r.exit));
      if r.cleaned { Cleanup(FinalOf(r.exit)); }
    }

    /** Somebody else's write, if any. */
    method Interfere(w: Option<Status>) returns (isNow: bool)
      modifies this
      ensures status == Landed(old(status), w)
    {
      isNow := true;
      if w.Some? { isNow := UpdateSessionStatus(w.value); }
    }

    /** Leaving the REPL cancels a session that never finished a turn and keeps every other. */
    method CloseOnExit() returns (wrote: bool)
      modifies this
      ensures wrote <==> old(status) in {Created, Initializing, Running, Resumed}
      ensures status == if wrote then Cancelled else old(status)
    {
      var cur := status;
      if cur != Created && cur != Initializing && cur != Running && cur != Resumed { return false; }
      wrote := TryTransitionStatus(cur, Cancelled);
    }

    /** Outside the lock, a finished session is marked 'resumed'. */
    method ResumeSession() returns (ok: bool)
      modifies this
      ensures ok <==> old(status) in {Suspended, Failed, Completed, Cancelled}
      ensures status == if ok then Resumed else old(status)
    {
      var cur := status;
      if cur != Suspended && cur != Failed && cur != Completed && cur != Cancelled { return false; }
      ok := TryTransitionStatus(cur, Resumed);
    }
  }

  // ----- what a run leaves -----------------------------------------------------------------

  /** Nobody wrote during the run: the status is the run's own ending, completed for a run that was
      done, cancelled for one that was stopped or cancelled, suspended for want of credits, failed
      otherwise. */
  lemma QuietRunEndsAsItEnded(r: Script)
    requires r.early == None && r.late == None
    ensures RunTail(r) == FinalOf(r.exit)
    ensures RunTail(r) == Completed <==> r.exit == Done
    ensures RunTail(r) == Cancelled <==> r.exit == Stopped || r.exit == TaskCancelled
    ensures RunTail(r) == Suspended <==> r.exit == OutOfCredits
    ensures RunTail(r) == Failed <==> r.exit == ErrorResult || r.exit == Raised
  {
  }

  /** A cancel that landed before the rebuild point is still there afterwards exactly when the
      run did not rebuild its orchestrator, or itself ended cancelled and was cleaned up. */
  lemma EarlyCancelSurvivesIff(r: Script)
    requires r.early == Some(Cancelled) && r.late == None
    ensures RunTail(r) == Cancelled <==> !r.rebuild || (FinalOf(r.exit) == Cancelled && r.cleaned)
  {
  }

  /** A cancel that landed after the rebuild point is always still there. */
  lemma LateCancelSurvives(r: Script)
    requires r.early == None && r.late == Some(Cancelled)
    ensures RunTail(r) == Cancelled
  {
    LateWriteSurvivesIff(r);
  }

  /** For any status written late in the run: it is still there exactly when the cleanup did not
      run, or the run ended the same way, or the table has no edge to the run's ending. */
  lemma LateWriteSurvivesIff(r: Script)
    requires r.early == None && r.late.Some?
    requires Allowed(Running, r.late.value) && Normalize(r.late.value) == r.late.value
    ensures RunTail(r) == r.late.value <==>
      !r.cleaned || FinalOf(r.exit) == r.late.value || !Allowed(r.late.value, FinalOf(r.exit))
  {
  }

  /** A pause is overwritten by the cleanup of a run that ends cancelled, and by nothing else. */
  lemma PauseLostOnlyToACancelledEnding(r: Script)
    requires r.early == None && r.late == Some(Suspended)
    ensures RunTail(r) != Suspended <==> r.cleaned && FinalOf(r.exit) == Cancelled
  {
    LateWriteSurvivesIff(r);
  }

  // ----- the same run, event by event ------------------------------------------------------

  /** The input gate of one run is the gate of the interleaved model. */
  lemma GatesAgree(s: Runs.State, room: bool)
    ensures GatePasses(s.status, room || s.queue != {}, room || exists m | m in s.queue :: !m.forged)
      <==> Runs.HasInput(s, room)
  {
  }

  /** Runner `r` is inside with the status given. */
  predicate Inside(s: Runs.State, r: nat, status: Status) {
    r in s.runners && s.runners[r] == Runs.Entered && s.status == status
  }

  /** A write by somebody else is an event of the interleaved model, or none if it is refused. */
  lemma OutsideLands(s: Runs.State, r: nat, before: Status, w: Option<Status>) returns (s': Runs.State)
    requires Inside(s, r, before) && (w.Some? ==> w.value != Running && Normalize(w.value) == w.value)
    ensures Inside(s', r, Landed(before, w))
    ensures s' == s || (w.Some? && Runs.Enabled(s, Runs.Outside(w.value)) && s' == Runs.Do(s, Runs.Outside(w.value)))
  {
    s' := s;
    if w.Some? && w.value != before && EdgeAllowed(before, w.value) {
      s' := Runs.Do(s, Runs.Outside(w.value));
    }
  }

  /** From its entry, a run of the interleaved model that meets the script's events leaves the
      status the single run leaves. */
  lemma ScriptIsARun(s: Runs.State, r: nat, script: Script) returns (s': Runs.State)
    requires Inside(s, r, Running)
    requires forall w | w == script.early || w == script.late ::
      w.Some? ==> w.value != Running && Normalize(w.value) == w.value
    ensures s'.status == RunTail(script) && r in s'.runners && s'.runners[r] == Runs.Leaving
  {
    s' := OutsideLands(s, r, Running, script.early);
    if script.rebuild { s' := Runs.Do(s', Runs.Recreate(r)); }
    s' := OutsideLands(s', r, s'.status, script.late);
    s' := Runs.Do(s', Runs.Finish(r, FinalOf(script.exit)));
    s' := Runs.Do(s', Runs.Cleanup(r, script.cleaned));
  }
}
