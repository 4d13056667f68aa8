/** The API rate limiter: a burst token bucket, then a minute and an hour window per user.
    Times are seconds of one monotonic clock. */
module RateLimiter {
  import opened Wrappers
  import opened Numbers

  datatype Config = Config(burst: nat, rpm: nat, rph: nat)

  datatype Bucket = Bucket(tokens: real, last: real)

  /** A fixed window: events counted since its first touch. */
  datatype Window = Window(count: nat, start: real)

  datatype KeyState = KeyState(bucket: Option<Bucket>, minute: Option<Window>, hour: Option<Window>)

  const FRESH := KeyState(None, None, None)
  const MINUTE: real := 60.0
  const HOUR: real := 3600.0

  datatype Denial = Burst | Minute | Hour

  // ----- the primitives --------------------------------------------------------------------

  /** Tokens available at `now`; the bucket refills `burst` tokens a second up to `burst`. */
  function Tokens(c: Config, b: Option<Bucket>, now: real): real {
    if b == None then c.burst as real
    else MinReal(c.burst as real, b.value.tokens + (now - b.value.last) * c.burst as real)
  }

  /** The window as it stands at `now`: an expired or missing one starts over. */
  function Roll(w: Option<Window>, length: real, now: real): Window {
    if w == None || now - w.value.start >= length then Window(0, now) else w.value
  }

  /** One call: the first gate that denies it, and the state it leaves. A gate that is looked at
      stores what it saw, even when the call is denied. */
  function Check(c: Config, s: KeyState, now: real): (Option<Denial>, KeyState) {
    var tokens := Tokens(c, s.bucket, now);
    var s1 := s.(bucket := Some(Bucket(tokens, now)));
    if tokens < 1.0 then (Some(Burst), s1)
    else
      var m := Roll(s.minute, MINUTE, now);
      var s2 := s1.(minute := Some(m));
      if m.count >= c.rpm then (Some(Minute), s2)
      else
        var h := Roll(s.hour, HOUR, now);
        if h.count >= c.rph then (Some(Hour), s2.(hour := Some(h)))
        else (None, KeyState(Some(Bucket(tokens - 1.0, now)), Some(Window(m.count + 1, m.start)),
                             Some(Window(h.count + 1, h.start))))
  }

  predicate Allowed(c: Config, s: KeyState, now: real) {
    Check(c, s, now).0 == None
  }

  /** A state last touched no later than `now`. */
  predicate OkAt(c: Config, s: KeyState, now: real) {
    && (s.bucket.Some? ==> 0.0 <= s.bucket.value.tokens <= c.burst as real && s.bucket.value.last <= now)
    && (s.minute.Some? ==> s.minute.value.start <= now)
    && (s.hour.Some? ==> s.hour.value.start <= now)
  }

  // ----- the limiter object ----------------------------------------------------------------

  class Limiter {
    const cfg: Config
    var buckets: map<string, Bucket>
    var minutes: map<string, Window>
    var hours: map<string, Window>

    constructor (cfg: Config)
      ensures this.cfg == cfg && buckets == map[] && minutes == map[] && hours == map[]
    {
      this.cfg := cfg;
      buckets, minutes, hours := map[], map[], map[];
    }

    function StateOf(user: string): KeyState
      reads this
    {
      KeyState(if user in buckets then Some(buckets[user]) else None,
               if user in minutes then Some(minutes[user]) else None,
               if user in hours then Some(hours[user]) else None)
    }

    method PeekBucket(user: string, now: real) returns (ok: bool)
      modifies this`buckets
      ensures buckets == old(buckets)[user := Bucket(Tokens(cfg, old(StateOf(user)).bucket, now), now)]
      ensures ok <==> buckets[user].tokens >= 1.0
    {
      var b := if user in buckets then buckets[user] else Bucket(cfg.burst as real, now);
      var tokens := b.tokens + (now - b.last) * cfg.burst as real;
      if cfg.burst as real <= tokens { tokens := cfg.burst as real; }
      assert tokens == Tokens(cfg, StateOf(user).bucket, now);
      buckets := buckets[user := Bucket(tokens, now)];
      ok := tokens >= 1.0;
    }

    method PeekMinute(user: string, now: real) returns (ok: bool)
      modifies this`minutes
      ensures minutes == old(minutes)[user := Roll(old(StateOf(user)).minute, MINUTE, now)]
      ensures ok <==> minutes[user].count < cfg.rpm
    {
      var w := if user in minutes then minutes[user] else Window(0, now);
      if now - w.start >= MINUTE { w := Window(0, now); }
      minutes := minutes[user := w];
      ok := w.count < cfg.rpm;
    }

    method PeekHour(user: string, now: real) returns (ok: bool)
      modifies this`hours
      ensures hours == old(hours)[user := Roll(old(StateOf(user)).hour, HOUR, now)]
      ensures ok <==> hours[user].count < cfg.rph
    {
      var w := if user in hours then hours[user] else Window(0, now);
      if now - w.start >= HOUR { w := Window(0, now); }
      hours := hours[user := w];
      ok := w.count < cfg.rph;
    }

    /** Consume one token and count the call in both windows. */
    method Commit(user: string, now: real)
      requires user in buckets && user in minutes && user in hours
      modifies this
      ensures buckets == old(buckets)[user := Bucket(old(buckets)[user].tokens - 1.0, now)]
      ensures minutes == old(minutes)[user := Window(old(minutes)[user].count + 1, old(minutes)[user].start)]
      ensures hours == old(hours)[user := Window(old(hours)[user].count + 1, old(hours)[user].start)]
    {
      buckets := buckets[user := Bucket(buckets[user].tokens - 1.0, now)];
      minutes := minutes[user := Window(minutes[user].count + 1, minutes[user].start)];
      hours := hours[user := Window(hours[user].count + 1, hours[user].start)];
    }

    /** The idle-key sweep of all three tables: a user's state afterwards is its swept state. */
    method Sweep(now: real)
      modifies this
      ensures forall u :: StateOf(u) == Swept(cfg, old(StateOf(u)), now)
    {
      if cfg.burst > 0 {
        buckets := map u | u in buckets && now - buckets[u].last < 1.0 :: buckets[u];
      }
      minutes := map u | u in minutes && now - minutes[u].start < 60.0 :: minutes[u];
      hours := map u | u in hours && now - hours[u].start < 3600.0 :: hours[u];
    }

    /** Burst, then minute, then hour; tokens and counts are committed only when all three pass.
        The decision and the user's new state are `Check`'s, and no other user's state moves. */
    method CheckRateLimit(user: string, now: real) returns (denial: Option<Denial>)
      modifies this
      ensures denial == Check(cfg, old(StateOf(user)), now).0
      ensures StateOf(user) == Check(cfg, old(StateOf(user)), now).1
      ensures forall u | u != user :: StateOf(u) == old(StateOf(u))
    {
      var ok := PeekBucket(user, now);
      if !ok { return Some(Burst); }
      ok := PeekMinute(user, now);
      if !ok { return Some(Minute); }
      ok := PeekHour(user, now);
      if !ok { return Some(Hour); }
      Commit(user, now);
      return None;
    }
  }

  // ----- what a state means ----------------------------------------------------------------

  /** Everything later decisions can depend on, read at `now`. */
  function View(c: Config, s: KeyState, now: real): (real, Window, Window) {
    (Tokens(c, s.bucket, now), Roll(s.minute, MINUTE, now), Roll(s.hour, HOUR, now))
  }

  /** The two states look the same from `t` on. */
  ghost predicate SameFrom(c: Config, s: KeyState, s': KeyState, t: real) {
    forall now | now >= t :: View(c, s, now) == View(c, s', now)
  }

  lemma ProductNonNegative(dt: real, rate: nat)
    requires dt >= 0.0
    ensures dt * rate as real >= 0.0
  {
  }

  lemma RefillComposes(c: Config, b: Option<Bucket>, t: real, now: real)
    requires t <= now
    requires b.Some? ==> b.value.last <= t
    ensures Tokens(c, Some(Bucket(Tokens(c, b, t), t)), now) == Tokens(c, b, now)
  {
    var rate := c.burst as real;
    ProductNonNegative(now - t, c.burst);
    if b.Some? {
      var last := b.value.last;
      assert (t - last) * rate + (now - t) * rate == (now - last) * rate;
    }
  }

  /** The call stores a window it had to open. */
  predicate OpensWindow(c: Config, s: KeyState, now: real) {
    var minuteSeen := Tokens(c, s.bucket, now) >= 1.0;
    var hourSeen := minuteSeen && Roll(s.minute, MINUTE, now).count < c.rpm;
    || (minuteSeen && (s.minute == None || now - s.minute.value.start >= MINUTE))
    || (hourSeen && (s.hour == None || now - s.hour.value.start >= HOUR))
  }

  /** A denied call leaves no trace at all, exactly when it did not open a window. */
  lemma DeniedCallLeavesNoTraceIff(c: Config, s: KeyState, now: real)
    requires OkAt(c, s, now) && !Allowed(c, s, now)
    ensures SameFrom(c, s, Check(c, s, now).1, now) <==> !OpensWindow(c, s, now)
  {
    var s' := Check(c, s, now).1;
    if !OpensWindow(c, s, now) {
      forall t | t >= now ensures View(c, s, t) == View(c, s', t) {
        RefillComposes(c, s.bucket, now, t);
      }
    } else {
      assert View(c, s, now + 1.0) != View(c, s', now + 1.0);
    }
  }

  /** The idle-key sweep: a bucket untouched for a second and an expired window are forgotten. */
  function Swept(c: Config, s: KeyState, now: real): KeyState {
    KeyState(if s.bucket.Some? && c.burst > 0 && now - s.bucket.value.last >= 1.0 then None else s.bucket,
             if s.minute.Some? && now - s.minute.value.start >= MINUTE then None else s.minute,
             if s.hour.Some? && now - s.hour.value.start >= HOUR then None else s.hour)
  }

  lemma ProductAtLeast(a: real, r: real)
    requires a >= 1.0 && r >= 0.0
    ensures a * r >= r
  {
    var b := a - 1.0;
    assert b * r >= 0.0;
    assert (b + 1.0) * r == b * r + r;
  }

  /** A second refills a bucket whole. */
  lemma IdleBucketIsFull(c: Config, b: Bucket, t: real)
    requires b.tokens >= 0.0 && t - b.last >= 1.0
    ensures Tokens(c, Some(b), t) == c.burst as real
  {
    var rate, dt := c.burst as real, t - b.last;
    var gain := dt * rate;
    ProductAtLeast(dt, rate);
    assert b.tokens + gain >= rate;
    assert Tokens(c, Some(b), t) == MinReal(rate, b.tokens + gain) by {
      assert gain == (t - b.last) * c.burst as real;
    }
  }

  /** Sweeping a key changes nothing a later decision looks at. */
  lemma SweepIsInvisible(c: Config, s: KeyState, now: real)
    requires OkAt(c, s, now)
    ensures SameFrom(c, s, Swept(c, s, now), now)
  {
    forall t | t >= now ensures View(c, s, t) == View(c, Swept(c, s, now), t) {
      if s.bucket.Some? && now - s.bucket.value.last >= 1.0 {
        IdleBucketIsFull(c, s.bucket.value, t);
      }
    }
  }

  /** With positive limits only a call denied by the hour gate can open a window, and then it is
      the minute window. */
  lemma OnlyHourDenialsOpenWindows(c: Config, s: KeyState, now: real)
    requires c.rpm > 0 && c.rph > 0 && !Allowed(c, s, now) && OpensWindow(c, s, now)
    ensures Check(c, s, now).0 == Some(Hour) && (s.minute == None || now - s.minute.value.start >= MINUTE)
  {
  }

  /** Same-looking states decide alike and stay same-looking. */
  lemma SameStatesDecideAlike(c: Config, s: KeyState, s': KeyState, t: real, now: real)
    requires SameFrom(c, s, s', t) && t <= now && OkAt(c, s, now) && OkAt(c, s', now)
    ensures Check(c, s, now).0 == Check(c, s', now).0
    ensures Allowed(c, s, now) ==> Check(c, s, now).1 == Check(c, s', now).1
  {
    assert View(c, s, now) == View(c, s', now);
  }

  // ----- histories -------------------------------------------------------------------------

  /** The calls of one user, oldest first, none before `from`. */
  predicate Nondecreasing(times: seq<real>, from: real) {
    (times != [] ==> from <= times[0]) && forall i, j | 0 <= i < j < |times| :: times[i] <= times[j]
  }

  /** The state after a history. */
  function After(c: Config, s: KeyState, times: seq<real>): KeyState
    decreases |times|
  {
    if times == [] then s else After(c, Check(c, s, times[0]).1, times[1..])
  }

  /** The times of the admitted calls. */
  function Admitted(c: Config, s: KeyState, times: seq<real>): seq<real>
    decreases |times|
  {
    if times == [] then []
    else
      var rest := Admitted(c, Check(c, s, times[0]).1, times[1..]);
      if Allowed(c, s, times[0]) then [times[0]] + rest else rest
  }

  /** No denied call of the history opens a window. */
  predicate NoDenialOpens(c: Config, s: KeyState, times: seq<real>)
    decreases |times|
  {
    times == [] ||
    ((Allowed(c, s, times[0]) || !OpensWindow(c, s, times[0]))
     && NoDenialOpens(c, Check(c, s, times[0]).1, times[1..]))
  }

  lemma CheckKeepsOk(c: Config, s: KeyState, now: real)
    requires OkAt(c, s, now)
    ensures forall t | t >= now :: OkAt(c, Check(c, s, now).1, t)
  {
    if s.bucket.Some? {
      ProductNonNegative(now - s.bucket.value.last, c.burst);
    }
  }

  /** Deleting every denied call changes nothing: the calls that were admitted are all admitted
      again, and every later call meets the same state; provided no denied call opened a window. */
  lemma {:induction false} DeletingDeniedCallsChangesNothing(
    c: Config, s: KeyState, s': KeyState, times: seq<real>, t: real)
    requires Nondecreasing(times, t) && OkAt(c, s, t) && OkAt(c, s', t)
    requires SameFrom(c, s, s', t) && NoDenialOpens(c, s, times)
    ensures Admitted(c, s', Admitted(c, s, times)) == Admitted(c, s, times)
    ensures SameFrom(c, After(c, s, times), After(c, s', Admitted(c, s, times)),
                     if times == [] then t else times[|times| - 1])
    decreases |times|
  {
    if times != [] {
      var now, next := times[0], Check(c, s, times[0]).1;
      assert OkAt(c, s, now) && OkAt(c, s', now);
      assert Nondecreasing(times[1..], now);
      CheckKeepsOk(c, s, now);
      SameStatesDecideAlike(c, s, s', t, now);
      if Allowed(c, s, now) {
        var next' := Check(c, s', now).1;
        assert SameFrom(c, next, next', now);
        DeletingDeniedCallsChangesNothing(c, next, next', times[1..], now);
        var kept := Admitted(c, next, times[1..]);
        assert ([now] + kept)[1..] == kept;
      } else {
        DeniedCallLeavesNoTraceIff(c, s, now);
        assert SameFrom(c, next, s', now) by {
          forall u | u >= now ensures View(c, next, u) == View(c, s', u) {
            assert View(c, s, u) == View(c, s', u) && View(c, s, u) == View(c, next, u);
          }
        }
        DeletingDeniedCallsChangesNothing(c, next, s', times[1..], now);
      }
    }
  }

  // ----- which denials can matter ----------------------------------------------------------

  /** The hour window refuses everything for the next minute. */
  predicate HourOutlastsMinute(c: Config, s: KeyState, now: real) {
    s.hour.Some? && s.hour.value.count >= c.rph && now + MINUTE <= s.hour.value.start + HOUR
  }

  /** The call opens no window, or a minute window that is over before the hour window is. */
  predicate HarmlessDenial(c: Config, s: KeyState, now: real) {
    !OpensWindow(c, s, now) || HourOutlastsMinute(c, s, now)
  }

  predicate NoDenialHarms(c: Config, s: KeyState, times: seq<real>)
    decreases |times|
  {
    times == [] ||
    ((Allowed(c, s, times[0]) || HarmlessDenial(c, s, times[0]))
     && NoDenialHarms(c, Check(c, s, times[0]).1, times[1..]))
  }

  /** From `t` on the two states look the same but for the minute window, and that only before
      `until`, when the hour window refuses everything. */
  ghost predicate Alike(c: Config, s: KeyState, s': KeyState, t: real, until: real) {
    && (forall u | u >= t :: Tokens(c, s.bucket, u) == Tokens(c, s'.bucket, u))
    && (forall u | u >= t :: Roll(s.hour, HOUR, u) == Roll(s'.hour, HOUR, u))
    && (forall u | u >= t && u >= until :: Roll(s.minute, MINUTE, u) == Roll(s'.minute, MINUTE, u))
    && (forall u | t <= u < until :: Roll(s.hour, HOUR, u).count >= c.rph)
  }

  lemma AlikeStatesDecideAlike(c: Config, s: KeyState, s': KeyState, t: real, until: real, now: real)
    requires Alike(c, s, s', t, until) && t <= now
    ensures Allowed(c, s, now) <==> Allowed(c, s', now)
    ensures Allowed(c, s, now) ==> Check(c, s, now).1 == Check(c, s', now).1
  {
    assert Tokens(c, s.bucket, now) == Tokens(c, s'.bucket, now);
    assert Roll(s.hour, HOUR, now) == Roll(s'.hour, HOUR, now);
    if now >= until { assert Roll(s.minute, MINUTE, now) == Roll(s'.minute, MINUTE, now); }
  }

  /** A harmless denial leaves a state that looks like the one without it. */
  lemma HarmlessDenialLeavesAlike(c: Config, s: KeyState, s': KeyState, t: real, until: real, now: real)
    returns (later: real)
    requires Alike(c, s, s', t, until) && t <= now && OkAt(c, s, now)
    requires !Allowed(c, s, now) && HarmlessDenial(c, s, now)
    ensures Alike(c, Check(c, s, now).1, s', now, later)
  {
    var next := Check(c, s, now).1;
    later := if OpensWindow(c, s, now) && until < now + MINUTE then now + MINUTE else until;
    forall u | u >= now ensures Tokens(c, next.bucket, u) == Tokens(c, s'.bucket, u) {
      RefillComposes(c, s.bucket, now, u);
      assert Tokens(c, s.bucket, u) == Tokens(c, s'.bucket, u);
    }
    forall u | u >= now ensures Roll(next.hour, HOUR, u) == Roll(s'.hour, HOUR, u) {
      assert Roll(s.hour, HOUR, u) == Roll(s'.hour, HOUR, u);
    }
    forall u | u >= now && u >= later ensures Roll(next.minute, MINUTE, u) == Roll(s'.minute, MINUTE, u) {
      assert Roll(s.minute, MINUTE, u) == Roll(s'.minute, MINUTE, u);
    }
    forall u | now <= u < later ensures Roll(next.hour, HOUR, u).count >= c.rph {
      if u < until { assert Roll(s.hour, HOUR, u).count >= c.rph; }
    }
  }

  /** Only a call the hour gate denies in the last minute of its hour window can change a later
      decision: when no denied call of a history opens a minute window that outlives its hour
      window, deleting all denied calls leaves every admitted call admitted and the next decision,
      whenever it comes, the same. */
  lemma {:induction false} OnlyLastMinuteDenialsMatter(
    c: Config, s: KeyState, s': KeyState, times: seq<real>, t: real, until: real)
    requires Nondecreasing(times, t) && OkAt(c, s, t) && OkAt(c, s', t)
    requires Alike(c, s, s', t, until) && NoDenialHarms(c, s, times)
    ensures Admitted(c, s', Admitted(c, s, times)) == Admitted(c, s, times)
    ensures forall now | now >= (if times == [] then t else times[|times| - 1]) ::
      Allowed(c, After(c, s, times), now) <==> Allowed(c, After(c, s', Admitted(c, s, times)), now)
    decreases |times|
  {
    if times == [] {
      forall now | now >= t ensures Allowed(c, s, now) <==> Allowed(c, s', now) {
        AlikeStatesDecideAlike(c, s, s', t, until, now);
      }
    } else {
      var now, next := times[0], Check(c, s, times[0]).1;
      assert Nondecreasing(times[1..], now);
      CheckKeepsOk(c, s, now);
      AlikeStatesDecideAlike(c, s, s', t, until, now);
      var kept := Admitted(c, next, times[1..]);
      if Allowed(c, s, now) {
        assert Alike(c, next, next, now, now);
        OnlyLastMinuteDenialsMatter(c, next, next, times[1..], now, now);
        assert ([now] + kept)[1..] == kept;
      } else {
        var later := HarmlessDenialLeavesAlike(c, s, s', t, until, now);
        OnlyLastMinuteDenialsMatter(c, next, s', times[1..], now, later);
      }
    }
  }

  /** The condition is needed: one request a minute, two an hour. The call at 3590 is denied by
      the hour gate but opens a minute window, so the call at 3651 is admitted; without the
      denied call it is not. */
  lemma HourDenialCanChangeALaterDecision()
    ensures
      var c := Config(10, 1, 2);
      Admitted(c, FRESH, [0.0, 60.0, 3590.0, 3600.0, 3651.0]) == [0.0, 60.0, 3600.0, 3651.0]
      && Admitted(c, FRESH, [0.0, 60.0, 3600.0, 3651.0]) == [0.0, 60.0, 3600.0]
  {
    var c := Config(10, 1, 2);
    var s1 := KeyState(Some(Bucket(9.0, 0.0)), Some(Window(1, 0.0)), Some(Window(1, 0.0)));
    var s2 := KeyState(Some(Bucket(9.0, 60.0)), Some(Window(1, 60.0)), Some(Window(2, 0.0)));
    assert Check(c, FRESH, 0.0) == (None, s1) && Check(c, s1, 60.0) == (None, s2);
    var d3 := KeyState(Some(Bucket(10.0, 3590.0)), Some(Window(0, 3590.0)), Some(Window(2, 0.0)));
    var d4 := KeyState(Some(Bucket(9.0, 3600.0)), Some(Window(1, 3590.0)), Some(Window(1, 3600.0)));
    assert Check(c, s2, 3590.0) == (Some(Hour), d3) && Check(c, d3, 3600.0) == (None, d4);
    assert Allowed(c, d4, 3651.0);
    var k3 := KeyState(Some(Bucket(9.0, 3600.0)), Some(Window(1, 3600.0)), Some(Window(1, 3600.0)));
    assert Check(c, s2, 3600.0) == (None, k3) && !Allowed(c, k3, 3651.0);
    AdmittedOne(c, d4, 3651.0);
    AdmittedOne(c, k3, 3651.0);
    assert Admitted(c, d3, [3600.0, 3651.0]) == [3600.0, 3651.0];
    assert Admitted(c, s2, [3590.0, 3600.0, 3651.0]) == [3600.0, 3651.0];
    assert Admitted(c, s2, [3600.0, 3651.0]) == [3600.0];
    assert Admitted(c, s1, [60.0, 3590.0, 3600.0, 3651.0]) == [60.0, 3600.0, 3651.0];
    assert Admitted(c, s1, [60.0, 3600.0, 3651.0]) == [60.0, 3600.0];
  }

  lemma AdmittedOne(c: Config, s: KeyState, t: real)
    ensures Admitted(c, s, [t]) == if Allowed(c, s, t) then [t] else []
  {
  }

  // ----- bounds ----------------------------------------------------------------------------

  /** Tokens at hand at `t` plus everything the bucket can refill until `end`. */
  function Budget(c: Config, s: KeyState, t: real, end: real): real {
    Tokens(c, s.bucket, t) + (end - t) * c.burst as real
  }

  lemma TokensInRange(c: Config, s: KeyState, t: real)
    requires OkAt(c, s, t)
    ensures 0.0 <= Tokens(c, s.bucket, t) <= c.burst as real
  {
    if s.bucket.Some? { ProductNonNegative(t - s.bucket.value.last, c.burst); }
  }

  lemma SplitProduct(a: real, b: real, rate: real)
    ensures a * rate + b * rate == (a + b) * rate
  {
  }

  lemma BudgetShrinksWithTime(c: Config, s: KeyState, t: real, now: real, end: real)
    requires OkAt(c, s, t) && t <= now
    ensures Budget(c, s, now, end) <= Budget(c, s, t, end)
  {
    RefillComposes(c, s.bucket, t, now);
    TokensInRange(c, s, t);
    ProductNonNegative(now - t, c.burst);
    SplitProduct(now - t, end - now, c.burst as real);
  }

  lemma TokensAtLast(c: Config, x: real, now: real)
    requires x <= c.burst as real
    ensures Tokens(c, Some(Bucket(x, now)), now) == x
  {
    assert (now - now) * c.burst as real == 0.0;
  }

  /** An admission costs one token of the budget; a denial costs nothing. */
  lemma CheckSpendsBudget(c: Config, s: KeyState, now: real, end: real)
    requires OkAt(c, s, now)
    ensures Budget(c, Check(c, s, now).1, now, end)
         == Budget(c, s, now, end) - if Allowed(c, s, now) then 1.0 else 0.0
  {
    var next := Check(c, s, now).1;
    TokensInRange(c, s, now);
    TokensAtLast(c, next.bucket.value.tokens, now);
  }

  lemma BudgetNonNegative(c: Config, s: KeyState, t: real, end: real)
    requires OkAt(c, s, t) && t <= end
    ensures Budget(c, s, t, end) >= 0.0
  {
    TokensInRange(c, s, t);
    ProductNonNegative(end - t, c.burst);
  }

  lemma {:induction false} BudgetPaysForAdmissions(c: Config, s: KeyState, times: seq<real>, t: real, end: real)
    requires Nondecreasing(times, t) && OkAt(c, s, t) && t <= end
    requires times != [] ==> times[|times| - 1] <= end
    ensures |Admitted(c, s, times)| as real <= Budget(c, s, t, end)
    decreases |times|
  {
    if times == [] {
      BudgetNonNegative(c, s, t, end);
      assert Admitted(c, s, times) == [];
    } else {
      var now, next := times[0], Check(c, s, times[0]).1;
      CheckKeepsOk(c, s, now);
      TailOk(times, t, end);
      BudgetPaysForAdmissions(c, next, times[1..], now, end);
      CheckSpendsBudget(c, s, now, end);
      BudgetShrinksWithTime(c, s, t, now, end);
    }
  }

  lemma TailOk(times: seq<real>, t: real, end: real)
    requires Nondecreasing(times, t) && times != [] && times[|times| - 1] <= end
    ensures Nondecreasing(times[1..], times[0]) && times[0] <= end
    ensures times[1..] != [] ==> times[1..][|times[1..]| - 1] <= end
  {
  }

  /** Any interval of `d` seconds admits at most burst * (1 + d) calls of one user. */
  lemma BurstBound(c: Config, s: KeyState, times: seq<real>, t: real, d: real)
    requires Nondecreasing(times, t) && OkAt(c, s, t) && 0.0 <= d
    requires times != [] ==> times[|times| - 1] <= t + d
    ensures |Admitted(c, s, times)| as real <= (1.0 + d) * c.burst as real
  {
    BudgetPaysForAdmissions(c, s, times, t, t + d);
    BudgetOfInterval(c, s, t, d);
  }

  lemma BudgetOfInterval(c: Config, s: KeyState, t: real, d: real)
    requires OkAt(c, s, t)
    ensures Budget(c, s, t, t + d) <= (1.0 + d) * c.burst as real
  {
    TokensInRange(c, s, t);
    var rate := c.burst as real;
    assert (t + d) - t == d;
    SplitProduct(1.0, d, rate);
    assert 1.0 * rate == rate;
  }

  /** One of the two windows of a user. */
  datatype Which = ByMinute | ByHour

  function Length(w: Which): real { if w == ByMinute then MINUTE else HOUR }

  function Limit(c: Config, w: Which): nat { if w == ByMinute then c.rpm else c.rph }

  function WindowOf(s: KeyState, w: Which, now: real): Window {
    Roll(if w == ByMinute then s.minute else s.hour, Length(w), now)
  }

  /** Between two calls the window stays, or starts over later; an admission adds one to it. */
  lemma WindowStep(c: Config, s: KeyState, w: Which, t: real, now: real)
    requires OkAt(c, s, t) && t <= now
    ensures
      var before, after := WindowOf(s, w, t), WindowOf(Check(c, s, now).1, w, now);
      var paid := if Allowed(c, s, now) then 1 else 0;
      && before.start <= after.start <= now
      && (after.start == before.start ==> after.count == before.count + paid)
      && (after.start != before.start ==>
            after.count == paid && (before.count == 0 || before.start + Length(w) <= after.start))
      && (Allowed(c, s, now) ==> after.count <= Limit(c, w))
  {
  }

  /** What the current window still allows, and `n` whole windows after it, bound the admissions
      until `end`. */
  lemma {:induction false} WindowsPayForAdmissions(
    c: Config, s: KeyState, w: Which, times: seq<real>, t: real, end: real, n: nat)
    requires Nondecreasing(times, t) && OkAt(c, s, t)
    requires times != [] ==> times[|times| - 1] <= end
    requires end < WindowOf(s, w, t).start + Length(w) * (n + 1) as real
    requires WindowOf(s, w, t).count <= Limit(c, w)
    ensures |Admitted(c, s, times)| <= Limit(c, w) - WindowOf(s, w, t).count + n * Limit(c, w)
    decreases |times|
  {
    assert n * Limit(c, w) >= 0;
    if times != [] {
      var now, next := times[0], Check(c, s, times[0]).1;
      CheckKeepsOk(c, s, now);
      TailOk(times, t, end);
      WindowStep(c, s, w, t, now);
      var before, after := WindowOf(s, w, t), WindowOf(next, w, now);
      assert Length(w) * (n + 1) as real == Length(w) * n as real + Length(w);
      if before.start + Length(w) <= after.start {
        assert n > 0;
        assert (n - 1) * Limit(c, w) + Limit(c, w) == n * Limit(c, w);
        WindowsPayForAdmissions(c, next, w, times[1..], now, end, n - 1);
      } else {
        WindowsPayForAdmissions(c, next, w, times[1..], now, end, n);
      }
    }
  }

  /** No minute window admits more than rpm calls, no hour window more than rph, and an interval
      shorter than `n` windows admits at most `n + 1` times the limit. */
  lemma WindowBound(c: Config, s: KeyState, w: Which, times: seq<real>, t: real, end: real, n: nat)
    requires Nondecreasing(times, t) && OkAt(c, s, t) && WindowOf(s, w, t).count <= Limit(c, w)
    requires times != [] ==> times[|times| - 1] <= end
    ensures end < WindowOf(s, w, t).start + Length(w) ==> |Admitted(c, s, times)| <= Limit(c, w)
    ensures end < t + Length(w) * n as real ==> |Admitted(c, s, times)| <= (n + 1) * Limit(c, w)
    ensures w == ByMinute ==> Length(w) == 60.0 && Limit(c, w) == c.rpm
    ensures w == ByHour ==> Length(w) == 3600.0 && Limit(c, w) == c.rph
  {
    if end < WindowOf(s, w, t).start + Length(w) {
      WindowsPayForAdmissions(c, s, w, times, t, end, 0);
    }
    if end < t + Length(w) * n as real {
      assert Length(w) * (n + 1) as real == Length(w) * n as real + Length(w);
      WindowsPayForAdmissions(c, s, w, times, t, end, n);
    }
  }
}
