/** The session status table and its two writers. */
module SessionStatus {

  /** The stored status. `LegacyError` and `LegacyActive` are old stored spellings of failed and
      running; `Unknown` is any other string (a hand-edited file). */
  datatype Status = Created | Initializing | Running | Completed | Resumed | Suspended | Failed | Cancelled
    | LegacyError | LegacyActive | Unknown

  function Normalize(s: Status): Status {
    match s
    case LegacyError => Failed
    case LegacyActive => Running
    case _ => s
  }

  /** `from -> to` is an edge of the table (both normalized). */
  predicate Edge(from: Status, to: Status) {
    match from
    case Created => to == Initializing || to == Running || to == Suspended || to == Failed || to == Cancelled
    case Initializing => to == Running || to == Suspended || to == Failed || to == Cancelled
    case Running => to == Completed || to == Failed || to == Cancelled || to == Suspended
    case Completed => to == Resumed || to == Initializing || to == Suspended || to == Cancelled
    case Resumed => to == Running || to == Suspended || to == Failed || to == Cancelled
    case Suspended => to == Resumed || to == Initializing || to == Cancelled
    case Failed => to == Resumed || to == Initializing || to == Cancelled
    case Cancelled => to == Resumed || to == Initializing || to == Running
    case _ => false
  }

  /** The table read backwards: what can lead to each status. Only a running session can become
      completed. */
  lemma LeadsTo(from: Status, to: Status)
    ensures Edge(from, to) <==>
      match to
      case Initializing =>
        from == Created || from == Completed || from == Suspended || from == Failed || from == Cancelled
      case Running => from == Created || from == Initializing || from == Resumed || from == Cancelled
      case Completed => from == Running
      case Resumed => from == Completed || from == Suspended || from == Failed || from == Cancelled
      case Suspended =>
        from == Created || from == Initializing || from == Running || from == Completed || from == Resumed
      case Failed => from == Created || from == Initializing || from == Running || from == Resumed
      case Cancelled =>
        from == Created || from == Initializing || from == Running || from == Completed || from == Resumed
        || from == Suspended || from == Failed
      case _ => false
  {
  }

  /** Old spellings move as the statuses they stand for, and are never written. */
  lemma OldSpellings(s: Status, to: Status)
    ensures Normalize(Normalize(s)) == Normalize(s) && Normalize(s) != LegacyError && Normalize(s) != LegacyActive
    ensures s != LegacyError && s != LegacyActive ==> Normalize(s) == s
    ensures EdgeAllowed(LegacyError, to) <==> EdgeAllowed(Failed, to)
    ensures EdgeAllowed(LegacyActive, to) <==> EdgeAllowed(Running, to)
    ensures EdgeAllowed(Unknown, to) <==> to != Unknown
    ensures !EdgeAllowed(s, Unknown)
    ensures s != LegacyError && s != LegacyActive && s != Unknown && to != LegacyError && to != LegacyActive ==>
      (EdgeAllowed(s, to) <==> Edge(s, to))
  {
  }

  predicate Allowed(from: Status, to: Status) {
    Edge(Normalize(from), Normalize(to))
  }

  /** May `current` move to the state `to`? An unknown stored status may move anywhere known. */
  predicate EdgeAllowed(current: Status, to: Status) {
    Normalize(to) != Unknown && (Normalize(current) == Unknown || Allowed(current, to))
  }

  /** Does the compare-and-set write? */
  predicate CasWins(current: Status, from: Status, to: Status) {
    current == from && (Normalize(current) == Normalize(to) || EdgeAllowed(current, to))
  }

  function Cas(current: Status, from: Status, to: Status): Status {
    if CasWins(current, from, to) then Normalize(to) else current
  }

  /** `update_session_status`: the same state is a no-op, an illegal edge is refused. */
  function Update(current: Status, to: Status): Status {
    if Normalize(to) != Normalize(current) && EdgeAllowed(current, to) then Normalize(to) else current
  }

  /** The final write of a run's cleanup: skipped unless the table has the edge. */
  function CleanupWrite(current: Status, final: Status): Status {
    if Normalize(current) == Normalize(final) || Normalize(current) == Unknown || Allowed(current, final)
    then Update(current, final) else current
  }

  /** The statuses a run may end with. */
  type Final = s: Status | s == Completed || s == Cancelled || s == Failed || s == Suspended
    witness Completed
}
