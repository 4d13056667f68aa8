/** Where a session's queued messages are: the list kept before there is an agent, the agent's
    queue, and the file an eviction leaves. They move between these one step at a time. */
module MessageQueue {
  import opened Wrappers
  import opened Numbers

  /** Submissions are refused at this many; the agent's deque silently drops beyond its own length. */
  const MAX_QUEUED := 10
  const DEQUE_LENGTH := 100
  const PER_DRAIN := 3

  type Msg = nat

  // ----- the agent's queue as an object ----------------------------------------------------

  class HitlManager {
    var queue: seq<Msg>
    var recent: nat
    const limit: nat

    constructor (limit: nat)
      ensures queue == [] && recent == 0 && this.limit == limit
    {
      this.queue, this.recent, this.limit := [], 0, limit;
    }

    /** `queue_user_message`: false is its rate-limit error. */
    method QueueUserMessage(m: Msg) returns (ok: bool)
      requires |queue| < DEQUE_LENGTH
      modifies this
      ensures ok <==> old(recent) < limit
      ensures queue == if ok then old(queue) + [m] else old(queue)
      ensures recent == if ok then old(recent) + 1 else old(recent)
    {
      if recent >= limit {
        return false;
      }
      recent := recent + 1;
      queue := queue + [m];
      return true;
    }

    /** `drain_user_messages`: the oldest three, in order. */
    method DrainUserMessages() returns (messages: seq<Msg>)
      modifies this`queue
      ensures messages == old(queue)[..MinNat(|old(queue)|, PER_DRAIN)]
      ensures messages + queue == old(queue)
    {
      messages := [];
      var n := MinNat(|queue|, PER_DRAIN);
      var i := 0;
      while i < n
        invariant 0 <= i <= n && n == MinNat(|old(queue)|, PER_DRAIN)
        invariant messages == old(queue)[..i] && queue == old(queue)[i..]
      {
        messages := messages + [queue[0]];
        queue := queue[1..];
        i := i + 1;
      }
    }

    /** `restore_state`: the saved messages go before anything already queued. */
    method RestoreState(saved: seq<Msg>)
      requires |saved| + |queue| <= DEQUE_LENGTH
      modifies this`queue
      ensures queue == saved + old(queue)
    {
      var i := |saved|;
      while i > 0
        invariant 0 <= i <= |saved| && queue == saved[i..] + old(queue)
      {
        i := i - 1;
        queue := [saved[i]] + queue;
      }
    }

    /** The loop at the end of `create_agent`: the list is handed over whole exactly when the rate
        limit has room for all of it; otherwise a prefix is queued and the list is kept. */
    method FlushPending(pending: seq<Msg>) returns (left: seq<Msg>, ok: bool)
      requires |pending| + |queue| <= DEQUE_LENGTH
      modifies this
      ensures ok <==> old(recent) + |pending| <= limit || pending == []
      ensures ok ==> left == [] && queue == old(queue) + pending
      ensures !ok ==> left == pending && old(recent) <= recent && limit <= recent < old(recent) + |pending|
      ensures !ok ==> queue == old(queue) + pending[..recent - old(recent)]
    {
      var i := 0;
      while i < |pending|
        invariant 0 <= i <= |pending| && recent == old(recent) + i && (i > 0 ==> recent <= limit)
        invariant queue == old(queue) + pending[..i]
      {
        assert pending[..i + 1] == pending[..i] + [pending[i]];
        var queued := QueueUserMessage(pending[i]);
        if !queued {
          return pending, false;
        }
        i := i + 1;
      }
      assert pending[..i] == pending;
      return [], true;
    }
  }

  // ----- all the places, step by step ------------------------------------------------------

  /** `flush`: how much of `pending` the creation of the agent has handed over so far. `drained`:
      how many messages were drained since the queue was restored from the file. `read` and
      `accepted` are histories: what runs have drained, what submissions were taken. */
  datatype State = State(
    limit: nat, resident: bool, agent: bool, pending: seq<Msg>, flush: Option<nat>,
    queue: seq<Msg>, recent: nat, saved: Option<seq<Msg>>, restored: Option<seq<Msg>>, linked: bool, drained: nat,
    read: seq<Msg>, accepted: seq<Msg>)

  datatype Event =
    | Submit(m: Msg)
    | Forget(n: nat)      // old submissions leave the rate window
    | CreateAgent
    | HandOver            // one message of the flush
    | Drain
    | Evict
    | Recreate
    | Crash

  predicate Takes(s: State) {
    if s.agent then |s.queue| < MAX_QUEUED && s.recent < s.limit else |s.pending| < MAX_QUEUED
  }

  predicate Enabled(s: State, e: Event) {
    match e
    case Submit(m) => s.resident && m !in s.accepted
    case Forget(n) => n <= s.recent
    case CreateAgent => s.resident && !s.agent
    case HandOver => s.resident && s.flush.Some? && s.flush.value < |s.pending|
    case Drain => s.resident && s.agent && s.flush == None
    case Evict => s.resident && s.flush == None
    case Recreate => !s.resident
    case Crash => s.resident
  }

  /** What is on disk: the file of an eviction wins over one already restored. */
  function OnDisk(s: State): seq<Msg> {
    if s.saved.Some? then s.saved.value else if s.restored.Some? then s.restored.value else []
  }

  function Emptied(s: State): State {
    s.(resident := false, agent := false, pending := [], flush := None, queue := [], recent := 0, linked := false)
  }

  function AfterHandOver(s: State): State
    requires Enabled(s, HandOver)
  {
    var i := s.flush.value;
    if s.recent >= s.limit then s.(flush := None)
    else
      var s1 := s.(queue := s.queue + [s.pending[i]], recent := s.recent + 1);
      if i + 1 == |s.pending| then s1.(pending := [], flush := None) else s1.(flush := Some(i + 1))
  }

  function AfterDrain(s: State): State {
    var n := MinNat(|s.queue|, PER_DRAIN);
    var s1 := s.(queue := s.queue[n..], read := s.read + s.queue[..n], drained := s.drained + n);
    if n == |s.queue| && s.linked then s1.(restored := None, linked := false) else s1
  }

  function Do(s: State, e: Event): State
    requires Enabled(s, e)
  {
    match e
    case Submit(m) =>
      if !Takes(s) then s
      else
        var s1 := s.(accepted := s.accepted + [m]);
        if s.agent then s1.(queue := s.queue + [m], recent := s.recent + 1) else s1.(pending := s.pending + [m])
    case Forget(n) => s.(recent := s.recent - n)
    case CreateAgent => s.(agent := true, recent := 0, flush := if s.pending == [] then None else Some(0))
    case HandOver => AfterHandOver(s)
    case Drain => AfterDrain(s)
    case Evict => Emptied(s).(saved := if s.agent && s.queue != [] then Some(s.queue) else s.saved)
    case Recreate =>
      s.(resident := true, agent := true, queue := OnDisk(s), saved := None,
         restored := if s.saved.Some? then s.saved else s.restored,
         linked := s.saved.Some? || s.restored.Some?, drained := 0)
    case Crash => Emptied(s)
  }

  /** What runs will still read: the queue and what is yet to be handed over, or the file. */
  function Ahead(s: State): seq<Msg> {
    if !s.resident then OnDisk(s)
    else
      s.queue + if !s.agent then s.pending
                else if s.flush.Some? && s.flush.value <= |s.pending| then s.pending[s.flush.value..] else []
  }

  /** Exactly once: read and still ahead together are what was accepted, nothing twice. */
  predicate Kept(s: State) {
    multiset(s.read) + multiset(Ahead(s)) == multiset(s.accepted)
  }

  predicate InOrder(s: State) {
    s.read + Ahead(s) == s.accepted
  }

  predicate Initial(s: State) {
    s.resident && !s.agent && s.pending == [] && s.flush == None && s.queue == [] && s.saved == None
    && s.restored == None && !s.linked && s.read == [] && s.accepted == []
  }

  predicate IsRun(run: seq<State>, events: seq<Event>) {
    |run| == |events| + 1 && Initial(run[0]) &&
    forall k :: 0 <= k < |events| ==> Enabled(run[k], events[k]) && run[k + 1] == Do(run[k], events[k])
  }

  // ----- invariants ------------------------------------------------------------------------

  /** Which places can hold something when. */
  predicate PlacesOk(s: State) {
    && (!s.resident ==> !s.agent && !s.linked)
    && (!s.agent ==> s.queue == [] && s.flush == None && !s.linked)
    && (s.flush.Some? ==> s.flush.value < |s.pending|)
    && (s.resident ==> s.saved == None && (s.restored.Some? <==> s.linked))
    && (s.linked ==> s.queue != [])
    && (s.saved.Some? ==> s.saved.value != []) && (s.restored.Some? ==> s.restored.value != [])
  }

  /** The bounds that keep the deque from ever dropping a message. */
  predicate SizesOk(s: State) {
    && |s.pending| <= MAX_QUEUED
    && |s.queue| <= MAX_QUEUED + (if s.flush.Some? then s.flush.value else MAX_QUEUED)
    && |OnDisk(s)| <= 2 * MAX_QUEUED
  }

  /** What was drained since the queue was restored. */
  function SinceRestored(s: State): seq<Msg> {
    if s.drained <= |s.read| then s.read[|s.read| - s.drained..] else s.read
  }

  /** While the restored file is kept, it is where that and the queue begin. */
  predicate FileOk(s: State) {
    s.linked && s.restored.Some? ==> s.drained <= |s.read| && s.restored.value <= SinceRestored(s) + s.queue
  }

  predicate Distinct(ms: seq<Msg>) {
    forall i, j | 0 <= i < j < |ms| :: ms[i] != ms[j]
  }

  predicate Inv(s: State) {
    PlacesOk(s) && SizesOk(s) && FileOk(s) && Distinct(s.accepted)
  }

  lemma StepKeepsPlaces(s: State, e: Event)
    requires PlacesOk(s) && Enabled(s, e)
    ensures PlacesOk(Do(s, e))
  {
  }

  lemma StepKeepsSizes(s: State, e: Event)
    requires PlacesOk(s) && SizesOk(s) && Enabled(s, e)
    ensures SizesOk(Do(s, e))
  {
  }

  lemma StepKeepsFile(s: State, e: Event)
    requires PlacesOk(s) && FileOk(s) && Enabled(s, e)
    ensures FileOk(Do(s, e))
  {
    if e == Drain { DrainKeepsFile(s); }
  }

  lemma {:induction false} RunKeepsInv(run: seq<State>, events: seq<Event>, n: nat)
    requires IsRun(run, events) && n <= |events|
    ensures Inv(run[n])
  {
    if n > 0 {
      RunKeepsInv(run, events, n - 1);
      StepKeepsPlaces(run[n - 1], events[n - 1]);
      StepKeepsSizes(run[n - 1], events[n - 1]);
      StepKeepsFile(run[n - 1], events[n - 1]);
    }
  }

  /** No queue ever grows to the length at which the deque would drop a message. */
  lemma DequeNeverDrops(run: seq<State>, events: seq<Event>, n: nat)
    requires IsRun(run, events) && n <= |events|
    ensures |run[n].queue| < DEQUE_LENGTH && |run[n].pending| <= MAX_QUEUED
  {
    RunKeepsInv(run, events, n);
  }

  function HandOvers(s: State, k: nat): Option<State>
    decreases k
  {
    if k == 0 then Some(s) else if Enabled(s, HandOver) then HandOvers(AfterHandOver(s), k - 1) else None
  }

  lemma {:induction false} FlushRunsOn(s: State, k: nat)
    requires s.resident && s.agent && s.flush.Some? && s.flush.value + k == |s.pending| && k > 0
    requires s.recent + k <= s.limit
    ensures HandOvers(s, k) == Some(s.(queue := s.queue + s.pending[s.flush.value..], recent := s.recent + k,
                                      pending := [], flush := None))
    decreases k
  {
    var i := s.flush.value;
    assert s.pending[i..] == [s.pending[i]] + s.pending[i + 1..];
    if k == 1 {
      assert s.pending[i..] == [s.pending[i]];
      assert HandOvers(AfterHandOver(s), 0) == Some(AfterHandOver(s));
    } else {
      FlushRunsOn(AfterHandOver(s), k - 1);
      assert s.queue + [s.pending[i]] + s.pending[i + 1..] == s.queue + s.pending[i..];
    }
  }

  /** Undisturbed, the flush into a fresh agent hands over the whole list, in order, each message
      counting against the agent's rate, whenever the limit is at least the list's own bound. */
  lemma FlushOfAFreshAgent(s: State)
    requires PlacesOk(s) && SizesOk(s) && Enabled(s, CreateAgent) && s.pending != [] && 10 <= s.limit
    ensures HandOvers(Do(s, CreateAgent), |s.pending|)
      == Some(s.(agent := true, queue := s.pending, recent := |s.pending|, pending := [], flush := None))
  {
    FlushRunsOn(Do(s, CreateAgent), |s.pending|);
    assert s.pending[0..] == s.pending && [] + s.pending == s.pending;
  }

  /** A full rate window takes messages again once old ones leave it. */
  lemma RateRecovers(s: State, n: nat)
    requires s.agent && |s.queue| < 10 && n <= s.recent
    ensures Takes(Do(s, Forget(n))) <==> s.recent - n < s.limit
    ensures Do(s, Forget(n)).queue == s.queue && Do(s, Forget(n)).accepted == s.accepted
  {
  }

  // ----- exactly once ----------------------------------------------------------------------

  /** What keeps every message: an eviction that finds nothing in the list kept before there is an
      agent, a hand-over within the rate limit, and a crash when memory and file agree. */
  predicate Harmless(s: State, e: Event) {
    match e
    case HandOver => s.recent < s.limit
    case Evict => s.agent || s.pending == []
    case Crash => if s.linked then s.drained == 0 && |Ahead(s)| == |OnDisk(s)| else Ahead(s) == []
    case _ => true
  }

  lemma AheadUnderSubmit(s: State, m: Msg)
    requires PlacesOk(s) && Enabled(s, Submit(m)) && Takes(s)
    ensures multiset(Ahead(Do(s, Submit(m)))) == multiset(Ahead(s)) + multiset{m}
    ensures s.flush == None ==> Ahead(Do(s, Submit(m))) == Ahead(s) + [m]
  {
  }

  lemma AheadUnderHandOver(s: State)
    requires PlacesOk(s) && Enabled(s, HandOver) && s.agent
    ensures s.recent < s.limit ==> Ahead(Do(s, HandOver)) == Ahead(s)
    ensures s.recent >= s.limit ==> |Ahead(Do(s, HandOver))| < |Ahead(s)|
  {
  }

  lemma AheadUnderDrain(s: State)
    requires PlacesOk(s) && Enabled(s, Drain)
    ensures Do(s, Drain).read + Ahead(Do(s, Drain)) == s.read + Ahead(s)
  {
  }

  lemma AheadUnderResidency(s: State, e: Event)
    requires PlacesOk(s) && Enabled(s, e) && (e == Evict || e == Recreate || e == CreateAgent)
    ensures e != Evict || s.agent || s.pending == [] ==> Ahead(Do(s, e)) == Ahead(s)
    ensures e == Evict && !s.agent ==> Ahead(Do(s, e)) == []
  {
  }

  lemma DrainKeepsFile(s: State)
    requires PlacesOk(s) && FileOk(s) && Enabled(s, Drain)
    ensures FileOk(Do(s, Drain))
  {
    var s' := Do(s, Drain);
    if s.linked && s'.linked {
      assert SinceRestored(s') + s'.queue == SinceRestored(s) + s.queue;
    }
  }

  /** After a drain the file repeats what was drained. */
  lemma CrashAfterDrainRepeats(s: State)
    requires Inv(s) && Kept(s) && s.resident && s.linked && s.drained > 0
    ensures multiset(OnDisk(s)) != multiset(Ahead(s))
  {
    var m := SinceRestored(s)[0];
    assert OnDisk(s)[0] == m && m in OnDisk(s) && m in s.read;
    OnlyOnce(s, m);
    assert m in multiset(OnDisk(s));
  }

  /** Before any drain the file is where the queue begins. */
  lemma CrashBeforeDrain(s: State)
    requires Inv(s) && s.resident && s.linked && s.drained == 0
    ensures multiset(OnDisk(s)) == multiset(Ahead(s)) <==> |Ahead(s)| == |OnDisk(s)|
    ensures |Ahead(s)| == |OnDisk(s)| ==> OnDisk(s) == Ahead(s)
  {
    assert SinceRestored(s) == [];
    assert OnDisk(s) <= s.queue <= Ahead(s);
    assert |multiset(OnDisk(s))| == |OnDisk(s)| && |multiset(Ahead(s))| == |Ahead(s)|;
    if |Ahead(s)| == |OnDisk(s)| { assert OnDisk(s) == Ahead(s); }
  }

  /** A crash keeps every message exactly when memory and the file agree. */
  lemma CrashIsHarmlessIff(s: State)
    requires Inv(s) && Kept(s) && s.resident
    ensures Kept(Do(s, Crash)) <==> Harmless(s, Crash)
  {
    assert Kept(Do(s, Crash)) <==> multiset(OnDisk(s)) == multiset(Ahead(s)) by {
      assert multiset(Ahead(s)) == multiset(s.accepted) - multiset(s.read);
    }
    if !s.linked {
      assert |multiset(Ahead(s))| == |Ahead(s)|;
    } else if s.drained > 0 {
      CrashAfterDrainRepeats(s);
    } else {
      CrashBeforeDrain(s);
    }
  }

  /** What has been read is not ahead any more. */
  lemma OnlyOnce(s: State, m: Msg)
    requires Kept(s) && Distinct(s.accepted) && m in s.read
    ensures m !in multiset(Ahead(s))
  {
    DistinctCount(s.accepted, m);
    assert m in multiset(s.read);
    assert multiset(s.accepted)[m] == multiset(s.read)[m] + multiset(Ahead(s))[m];
  }

  lemma {:induction false} DistinctCount(ms: seq<Msg>, m: Msg)
    requires Distinct(ms)
    ensures multiset(ms)[m] <= 1
  {
    if ms != [] {
      DistinctCount(ms[1..], m);
      assert ms == [ms[0]] + ms[1..];
      if ms[0] == m { assert m !in ms[1..]; }
    }
  }

  /** Exactly the harmless steps keep every message, whatever is submitted in between. */
  lemma MessagesAreKeptIff(s: State, e: Event)
    requires Inv(s) && Kept(s) && Enabled(s, e)
    ensures Kept(Do(s, e)) <==> Harmless(s, e)
  {
    match e
    case Submit(m) => if Takes(s) { AheadUnderSubmit(s, m); }
    case HandOver =>
      AheadUnderHandOver(s);
      SizesMatch(s);
      SizesMatch(Do(s, e));
    case Drain =>
      AheadUnderDrain(s);
      assert multiset(s.read + Ahead(s)) == multiset(s.read) + multiset(Ahead(s));
    case Crash => CrashIsHarmlessIff(s);
    case Forget(_) =>
    case _ =>
      AheadUnderResidency(s, e);
      SizesMatch(s);
      SizesMatch(Do(s, e));
  }

  lemma SizesMatch(s: State)
    ensures Kept(s) ==> |s.read| + |Ahead(s)| == |s.accepted|
  {
    assert |multiset(s.read) + multiset(Ahead(s))| == |s.read| + |Ahead(s)|;
  }

  predicate AllKept(run: seq<State>, n: nat)
    requires n < |run|
  {
    forall k | 0 <= k <= n :: Kept(run[k])
  }

  predicate AllHarmless(run: seq<State>, events: seq<Event>, n: nat)
    requires n <= |events| < |run|
  {
    forall k | 0 <= k < n :: Harmless(run[k], events[k])
  }

  lemma LastOfRange(run: seq<State>, events: seq<Event>, n: nat)
    requires 0 < n <= |events| < |run|
    ensures AllKept(run, n) <==> AllKept(run, n - 1) && Kept(run[n])
    ensures AllHarmless(run, events, n) <==> AllHarmless(run, events, n - 1) && Harmless(run[n - 1], events[n - 1])
  {
  }

  /** Over whole runs: at every moment every accepted message has been read exactly once or will
      be, if and only if every step was harmless. */
  lemma {:induction false} NoMessageLostOrDoubledIff(run: seq<State>, events: seq<Event>, n: nat)
    requires IsRun(run, events) && n <= |events|
    ensures AllKept(run, n) <==> AllHarmless(run, events, n)
  {
    if n > 0 {
      NoMessageLostOrDoubledIff(run, events, n - 1);
      LastOfRange(run, events, n);
      if AllKept(run, n - 1) {
        RunKeepsInv(run, events, n - 1);
        MessagesAreKeptIff(run[n - 1], events[n - 1]);
      }
    }
  }

  /** A submission taken while the list is being handed over goes before what is left of it. */
  predicate Overtakes(s: State, e: Event) {
    e.Submit? && Takes(s) && s.flush.Some?
  }

  lemma OvertakingBreaksOrder(s: State, m: Msg)
    requires Inv(s) && InOrder(s) && Enabled(s, Submit(m)) && Overtakes(s, Submit(m))
    ensures !InOrder(Do(s, Submit(m)))
  {
    var s' := Do(s, Submit(m));
    var rest := s.pending[s.flush.value..];
    var last := rest[|rest| - 1];
    assert (s.read + Ahead(s))[|s.accepted| - 1] == last && last in s.accepted;
    assert (s'.read + Ahead(s'))[|s.accepted|] == last;
    assert s'.accepted[|s.accepted|] == m;
  }

  lemma HarmlessCrashKeepsAhead(s: State)
    requires Inv(s) && s.resident && Harmless(s, Crash)
    ensures Ahead(Do(s, Crash)) == Ahead(s)
  {
    if s.linked { CrashBeforeDrain(s); }
  }

  /** Messages are also read in the order they were accepted, but for overtaking. */
  lemma OrderIsKeptIff(s: State, e: Event)
    requires Inv(s) && InOrder(s) && Enabled(s, e) && Harmless(s, e)
    ensures InOrder(Do(s, e)) <==> !Overtakes(s, e)
  {
    match e
    case Submit(m) =>
      if Takes(s) { AheadUnderSubmit(s, m); }
      if Overtakes(s, e) { OvertakingBreaksOrder(s, m); }
    case HandOver => AheadUnderHandOver(s);
    case Drain => AheadUnderDrain(s);
    case Crash => HarmlessCrashKeepsAhead(s);
    case Forget(_) =>
    case _ => AheadUnderResidency(s, e);
  }

  /** Over whole runs of harmless steps without overtaking, what was read and what is ahead is what
      was accepted, in the order it was accepted. */
  lemma {:induction false} ReadInOrder(run: seq<State>, events: seq<Event>, n: nat)
    requires IsRun(run, events) && n <= |events|
    requires forall k | 0 <= k < n :: Harmless(run[k], events[k]) && !Overtakes(run[k], events[k])
    ensures InOrder(run[n])
  {
    if n > 0 {
      ReadInOrder(run, events, n - 1);
      RunKeepsInv(run, events, n - 1);
      OrderIsKeptIff(run[n - 1], events[n - 1]);
    }
  }

  // ----- the harmful steps are real --------------------------------------------------------

  predicate Ends(run: seq<State>, events: seq<Event>, s: State) {
    IsRun(run, events) && run[|events|] == s
  }

  ghost predicate Reachable(s: State) {
    exists run, events :: Ends(run, events, s)
  }

  lemma ReachStep(s: State, e: Event, s': State)
    requires Reachable(s) && Enabled(s, e) && s' == Do(s, e)
    ensures Reachable(s')
  {
    var run, events :| Ends(run, events, s);
    var run', events' := run + [s'], events + [e];
    forall k | 0 <= k < |events'|
      ensures Enabled(run'[k], events'[k]) && run'[k + 1] == Do(run'[k], events'[k])
    {
      if k < |events| { assert run'[k] == run[k] && run'[k + 1] == run[k + 1]; }
    }
    assert Ends(run', events', s');
  }

  function Fresh(): State {
    State(10, true, false, [], None, [], 0, None, None, false, 0, [], [])
  }

  /** A message posted to a session that never ran is gone once the session is evicted. */
  lemma EvictionLosesAnEarlyMessage()
    ensures exists s :: Reachable(s) && s.accepted == [1] && s.read == [] && Ahead(s) == []
  {
    var s1 := Fresh().(pending := [1], accepted := [1]);
    var s2 := s1.(resident := false, pending := []);
    assert Ends([Fresh()], [], Fresh());
    ReachStep(Fresh(), Submit(1), s1);
    ReachStep(s1, Evict, s2);
    assert Reachable(s2);
  }

  /** An agent with four messages in its queue. */
  function Four(): State {
    Fresh().(agent := true, queue := [1, 2, 3, 4], recent := 4, accepted := [1, 2, 3, 4])
  }

  function Two(): State {
    Fresh().(agent := true, queue := [1, 2], recent := 2, accepted := [1, 2])
  }

  lemma TwoAreQueued()
    ensures Reachable(Two())
  {
    var s0 := Fresh().(agent := true);
    var s1 := s0.(queue := [1], recent := 1, accepted := [1]);
    assert Ends([Fresh()], [], Fresh());
    ReachStep(Fresh(), CreateAgent, s0);
    ReachStep(s0, Submit(1), s1);
    ReachStep(s1, Submit(2), Two());
  }

  lemma FourAreQueued()
    ensures Reachable(Four())
  {
    TwoAreQueued();
    var s3 := Two().(queue := [1, 2, 3], recent := 3, accepted := [1, 2, 3]);
    ReachStep(Two(), Submit(3), s3);
    ReachStep(s3, Submit(4), Four());
  }

  function Restored(): State {
    Fresh().(agent := true, queue := [1, 2, 3, 4], restored := Some([1, 2, 3, 4]), linked := true,
             accepted := [1, 2, 3, 4])
  }

  lemma FourAreRestored()
    ensures Reachable(Restored())
  {
    FourAreQueued();
    var s1 := Fresh().(resident := false, saved := Some([1, 2, 3, 4]), accepted := [1, 2, 3, 4]);
    ReachStep(Four(), Evict, s1);
    ReachStep(s1, Recreate, Restored());
  }

  /** The file of a restored queue is kept until the queue is empty: a crash after a first drain of
      three of four messages has all four read again. */
  lemma CrashRepeatsMessages()
    ensures exists s :: Reachable(s) && s.read == [1, 2, 3] && Ahead(s) == [1, 2, 3, 4]
  {
    FourAreRestored();
    var s1 := Restored().(queue := [4], read := [1, 2, 3], drained := 3);
    var s2 := s1.(resident := false, agent := false, queue := [], linked := false);
    ReachStep(Restored(), Drain, s1);
    ReachStep(s1, Crash, s2);
    assert Reachable(s2);
  }
}
