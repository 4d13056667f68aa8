/** One posted message: gates, the queue of the session's orchestrator, the run it asks for. */
module MessageIntake {
  import opened Wrappers
  import opened SessionStatus
  import Queue = MessageQueue

  const MAX_QUEUED_MESSAGES := 10

  datatype Line = Line(text: string, kind: string)

  /** Who takes a line: the pending list while there is no agent, else the first agent. `Deaf` is
      an agent with neither a message manager nor a receive method. */
  datatype Receiver = NoAgent | Manager(overRate: bool) | Direct | Deaf

  datatype Submission = Stored | Full | TooFast | Unheard

  function Submitted(queued: nat, receiver: Receiver): Submission {
    match receiver
    case Direct => Stored
    case Deaf => Unheard
    case NoAgent => if queued >= MAX_QUEUED_MESSAGES then Full else Stored
    case Manager(overRate) => if queued >= MAX_QUEUED_MESSAGES then Full else if overRate then TooFast else Stored
  }

  /** The queue model and the handler's model take the same submissions. */
  lemma QueuesAgree(s: Queue.State)
    ensures s.agent ==> (Queue.Takes(s) <==> Submitted(|s.queue|, Manager(s.recent >= s.limit)) == Stored)
    ensures !s.agent ==> (Queue.Takes(s) <==> Submitted(|s.pending|, NoAgent) == Stored)
  {
  }

  class Orchestrator {
    var queue: seq<Line>
    const receiver: Receiver

    constructor (queue: seq<Line>, receiver: Receiver)
      ensures this.queue == queue && this.receiver == receiver
    {
      this.queue := queue;
      this.receiver := receiver;
    }

    /** `submit_user_message`; `Full` and `TooFast` are its exceptions. */
    method Submit(line: Line) returns (s: Submission)
      modifies this
      ensures s == Submitted(|old(queue)|, receiver)
      ensures queue == if s == Stored then old(queue) + [line] else old(queue)
    {
      match receiver {
        case Direct =>
          queue := queue + [line];
          return Stored;
        case Deaf =>
          return Unheard;
        case _ =>
          if |queue| >= MAX_QUEUED_MESSAGES {
            return Full;
          }
          if receiver == Manager(true) {
            return TooFast;
          }
          queue := queue + [line];
          return Stored;
      }
    }
  }

  /** An orchestrator's answer, or none when there is no orchestrator. */
  function AnswerOf(o: Orchestrator?): (s: Option<Submission>)
    reads o
    ensures o == null <==> s == None
  {
    if o == null then None else Some(Submitted(|o.queue|, o.receiver))
  }

  // ----- the request -----------------------------------------------------------------------

  predicate TakesMessages(s: Status) {
    || s == Created || s == Running || s == Completed || s == Resumed || s == Suspended || s == Failed
    || s == LegacyError
  }

  /** `RESUMABLE_SESSION_STATUSES`. */
  predicate Resumable(s: Status) {
    s == Completed || s == Suspended || s == Failed || s == Cancelled
  }

  predicate Restarts(s: Status) {
    Resumable(s) || s == Resumed || s == LegacyError
  }

  /** What the restarted run shows within its first two seconds. */
  datatype RunStart = Underway | Invalid | SystemFault | UnexpectedFault

  /** What the handler finds: the session, its gates in order, the files, the run's first moments.
      `barred` is the code of a refusal by ownership, payment or billing. */
  datatype Request = Request(
    elsewhere: bool, found: bool, inTerminal: bool, status: Status, barred: Option<nat>,
    attached: bool, ready: bool, readyAgain: bool, start: RunStart)

  datatype Reply = Refused(code: nat) | Sent | Restarted(start: RunStart)

  datatype Effect = Queued(line: Line) | RunRequested

  /** The first gate that refuses. */
  function Gate(q: Request): Option<nat> {
    if q.elsewhere then Some(409)
    else if !q.found then Some(404)
    else if q.inTerminal then Some(409)
    else if !TakesMessages(q.status) then Some(400)
    else if q.barred != None then q.barred
    else if q.attached && !q.ready then Some(425)
    else None
  }

  /** The session is there, in this process, and not the terminal's. */
  predicate Here(q: Request) {
    !q.elsewhere && q.found && !q.inTerminal
  }

  /** The statuses that take no message. */
  predicate Closed(s: Status) {
    s == Cancelled || s == Initializing || s == LegacyActive || s == Unknown
  }

  /** A message gets past every gate: it may be the caller's, is paid for, and its files are ready. */
  predicate Admitted(q: Request) {
    Here(q) && !Closed(q.status) && q.barred == None && (q.attached ==> q.ready)
  }

  /** The statuses a message restarts. */
  predicate Restarting(s: Status) {
    s == Completed || s == Suspended || s == Failed || s == Resumed || s == LegacyError
  }

  /** A full queue or too many messages. */
  predicate PushedBack(s: Option<Submission>) {
    s == Some(Full) || s == Some(TooFast)
  }

  /** The message goes to the live orchestrator, or failing one to the one recreated for a restart. */
  predicate Lands(q: Request, live: Option<Submission>, restored: Option<Submission>) {
    Gate(q) == None && (live == Some(Stored) || (live == None && Restarts(q.status) && restored == Some(Stored)))
  }

  predicate AsksForRun(q: Request, live: Option<Submission>, agents: bool) {
    Gate(q) == None && !PushedBack(live) && (Restarts(q.status) || (q.status == Created && !agents))
  }

  /** All a request does: at most one copy queued, then at most one run asked for. */
  function Effects(
    q: Request, line: Line, live: Option<Submission>, restored: Option<Submission>, agents: bool)
    : seq<Effect>
  {
    (if Lands(q, live, restored) then [Queued(line)] else [])
    + (if AsksForRun(q, live, agents) then [RunRequested] else [])
  }

  /** A running session with files but no orchestrator: the second file pass has nobody to hand
      the message to. */
  predicate Headless(q: Request, live: Option<Submission>) {
    q.status == Running && q.attached && live == None
  }

  function ReplyTo(q: Request, live: Option<Submission>): Reply {
    if Gate(q) != None then Refused(Gate(q).value)
    else if PushedBack(live) then Refused(429)
    else if Restarts(q.status) then Restarted(q.start)
    else if Headless(q, live) then Refused(if q.readyAgain then 500 else 425)
    else Sent
  }

  predicate HasAgents(o: Orchestrator?) {
    o != null && o.receiver != NoAgent
  }

  datatype Delivery = Delivered | Busy | Gone

  /** `ensure_session_and_deliver`, given the orchestrator it could recreate, if any. */
  method EnsureSessionAndDeliver(restored: Orchestrator?, line: Line) returns (d: Delivery)
    modifies restored
    ensures restored == null ==> d == Gone
    ensures restored != null ==>
      var s := Submitted(|old(restored.queue)|, restored.receiver);
      && restored.queue == (if s == Stored then old(restored.queue) + [line] else old(restored.queue))
      && d == match s { case Stored => Delivered case Unheard => Delivered case Full => Busy case TooFast => Gone }
  {
    if restored == null {
      return Gone;
    }
    var s := restored.Submit(line);
    match s {
      case Full => return Busy;
      case TooFast => return Gone;
      case _ => return Delivered;
    }
  }

  /** What an orchestrator's queue is after a request, given what it was. */
  ghost predicate After(o: Orchestrator?, before: seq<Line>, added: bool, line: Line)
    reads o
  {
    o != null ==> o.queue == if added then before + [line] else before
  }

  function QueueOf(o: Orchestrator?): seq<Line>
    reads o
  {
    if o == null then [] else o.queue
  }

  /** The handler's gates, in its order: the code of the first that refuses. */
  method PassGates(q: Request) returns (code: Option<nat>)
    ensures code == Gate(q)
    ensures code == None <==> Admitted(q)
  {
    if q.elsewhere { return Some(409); }
    if !q.found { return Some(404); }
    if q.inTerminal { return Some(409); }
    if q.status != Created && q.status != Running && q.status != Completed && q.status != Resumed
       && q.status != Suspended && q.status != Failed && q.status != LegacyError {
      return Some(400);
    }
    if q.barred.Some? { return q.barred; }
    if q.attached && !q.ready { return Some(425); }
    return None;
  }

  /** The handler's steps, in its order. */
  method HandleMessage(q: Request, line: Line, live: Orchestrator?, restored: Orchestrator?)
    returns (reply: Reply, did: seq<Effect>)
    modifies live, restored
    ensures reply == ReplyTo(q, old(AnswerOf(live)))
    ensures did == Effects(q, line, old(AnswerOf(live)), old(AnswerOf(restored)), HasAgents(live))
    ensures After(live, old(QueueOf(live)), Queued(line) in did, line)
    ensures live == null ==> After(restored, old(QueueOf(restored)), Queued(line) in did, line)
    ensures live != null && restored != live ==> After(restored, old(QueueOf(restored)), false, line)
  {
    did := [];
    var refusal := PassGates(q);
    if refusal.Some? { return Refused(refusal.value), did; }
    var orchestrator := live;
    var hasAgents := orchestrator != null && orchestrator.receiver != NoAgent;
    var messageQueued := false;

    if !hasAgents && q.status == Created {
      if orchestrator != null {
        var s := orchestrator.Submit(line);
        if s == Full || s == TooFast {
          return Refused(429), did;
        }
        did := if s == Stored then did + [Queued(line)] else did;
        messageQueued := true;
      }
      did := did + [RunRequested];
    }

    if !messageQueued && orchestrator != null {
      var s := orchestrator.Submit(line);
      if s == Full || s == TooFast {
        return Refused(429), did;
      }
      did := if s == Stored then did + [Queued(line)] else did;
      messageQueued := true;
    }

    if q.status == Completed || q.status == Suspended || q.status == Failed || q.status == Cancelled
       || q.status == Resumed || q.status == LegacyError {
      if !messageQueued && orchestrator == null {
        ghost var answer := AnswerOf(restored);
        var d := EnsureSessionAndDeliver(restored, line);
        if d == Delivered {
          messageQueued := true;
          did := if restored.receiver != Deaf then did + [Queued(line)] else did;
        }
      }
      did := did + [RunRequested];
      return Restarted(q.start), did;
    }

    if q.attached && q.status == Running && !messageQueued {
      if !q.readyAgain {
        return Refused(425), did;
      }
      // Nothing is queued here only when there is no orchestrator: handing it the message fails.
      return Refused(500), did;
    }
    return Sent, did;
  }

  /** `send_user_message`: `did` records the handler's effects in order: at most one copy of the
      message, at most one run, and the copy is queued before the run is asked for. */
  method SendUserMessage(q: Request, line: Line, live: Orchestrator?, restored: Orchestrator?)
    returns (reply: Reply, did: seq<Effect>)
    modifies live, restored
    ensures reply == ReplyTo(q, old(AnswerOf(live)))
    ensures did == Effects(q, line, old(AnswerOf(live)), old(AnswerOf(restored)), HasAgents(live))
    ensures forall i, j | 0 <= i < j < |did| :: did[i] == Queued(line) && did[j] == RunRequested
    ensures did != [] ==> Admitted(q)
    ensures q.elsewhere ==> reply == Refused(409)
    ensures !q.elsewhere && !q.found ==> reply == Refused(404)
    ensures !q.elsewhere && q.found && q.inTerminal ==> reply == Refused(409)
    ensures Here(q) && Closed(q.status) ==> reply == Refused(400)
    ensures Here(q) && !Closed(q.status) && q.barred.Some? ==> reply == Refused(q.barred.value)
    ensures Here(q) && !Closed(q.status) && q.barred.None? && q.attached && !q.ready ==> reply == Refused(425)
    ensures Admitted(q) && Restarting(q.status) && !reply.Refused? ==>
      reply == Restarted(q.start) && RunRequested in did
    ensures RunRequested in did ==>
      Restarting(q.status) || (q.status == Created && (live == null || live.receiver == NoAgent))
    ensures After(live, old(QueueOf(live)), Queued(line) in did, line)
    ensures live == null ==> After(restored, old(QueueOf(restored)), Queued(line) in did, line)
    ensures live != null && restored != live ==> After(restored, old(QueueOf(restored)), false, line)
  {
    reply, did := HandleMessage(q, line, live, restored);
  }

  // ----- what the caller may conclude ------------------------------------------------------

  predicate Success(r: Reply) {
    r == Sent || r == Restarted(Underway)
  }

  lemma CopyIffLands(
    q: Request, line: Line, live: Option<Submission>, restored: Option<Submission>, agents: bool)
    ensures Queued(line) in Effects(q, line, live, restored, agents) <==> Lands(q, live, restored)
  {
    var did := Effects(q, line, live, restored, agents);
    if Lands(q, live, restored) { assert did[0] == Queued(line); }
  }

  /** A refusal left nothing behind: no copy, no run. */
  lemma RefusedDidNothing(
    q: Request, line: Line, live: Option<Submission>, restored: Option<Submission>, agents: bool)
    requires ReplyTo(q, live).Refused? && (live == None ==> !agents)
    ensures Effects(q, line, live, restored, agents) == []
  {
  }

  /** A reply of success with no copy queued: exactly when the receiver is deaf, or there is no
      live orchestrator and the session is new, is running without files, or restarts without a
      recreated orchestrator that takes the message. */
  lemma SuccessWithoutACopyIff(
    q: Request, line: Line, live: Option<Submission>, restored: Option<Submission>, agents: bool)
    ensures Success(ReplyTo(q, live)) && Queued(line) !in Effects(q, line, live, restored, agents) <==>
      && Gate(q) == None
      && (Restarts(q.status) ==> q.start == Underway)
      && (live == Some(Unheard)
          || (live == None
              && if Restarts(q.status) then restored != Some(Stored) else !(q.status == Running && q.attached)))
  {
    CopyIffLands(q, line, live, restored, agents);
    assert live.Some? ==> live.value.Stored? || live.value.Full? || live.value.TooFast? || live.value.Unheard?;
  }

  /** A reply marked as a failure whose message is queued all the same: sending it again makes a
      second copy. Exactly the restarts that fail within two seconds after the message landed. */
  lemma FailureWithACopyIff(
    q: Request, line: Line, live: Option<Submission>, restored: Option<Submission>, agents: bool)
    requires live == None ==> !agents
    ensures !Success(ReplyTo(q, live)) && Queued(line) in Effects(q, line, live, restored, agents) <==>
      Lands(q, live, restored) && Restarts(q.status) && q.start != Underway
  {
    CopyIffLands(q, line, live, restored, agents);
  }

  /** A cancelled session counts as resumable, and no message can resume it. */
  lemma CancelledIsResumableInNameOnly(
    q: Request, line: Line, live: Option<Submission>, restored: Option<Submission>, agents: bool)
    requires q.status == Cancelled && q.found && !q.elsewhere && !q.inTerminal
    ensures Resumable(q.status) && ReplyTo(q, live) == Refused(400)
    ensures forall s :: Resumable(s) && !TakesMessages(s) <==> s == Cancelled
    ensures Effects(q, line, live, restored, agents) == []
  {
  }
}
