/** The validation cache of API keys against the database it stands for. The database read and
    the cache write are separate steps, and revocation is a database write followed by a bump of
    the process's revocation epoch. */
module KeyCache {
  import opened Wrappers
  import opened Numbers

  const TTL: real := 60.0

  /** The auth state of a key; `expires` is wall-clock. */
  datatype Info = Info(user: nat, scopes: set<nat>, expires: real)

  datatype DbRow = DbRow(info: Info, active: bool)

  /** `until`, `epoch`: the stored fields. `readAt`, `readEpoch`: when, and under which epoch, the
      database was read (kept for the theorems only; the code does not consult them). */
  datatype Entry = Entry(info: Info, until: real, epoch: nat, readAt: real, readEpoch: nat)

  function Answer(db: map<nat, DbRow>, key: nat, wall: real): Option<Info> {
    if key in db && db[key].active && db[key].info.expires > wall then Some(db[key].info) else None
  }

  /** The database vouches for a key exactly while its row is active and unexpired, with the row's
      own identity. */
  lemma AnswerIff(db: map<nat, DbRow>, key: nat, wall: real, info: Info)
    ensures Answer(db, key, wall) == Some(info) <==>
      key in db && db[key] == DbRow(info, true) && wall < info.expires
  {
  }

  /** The one cache rule: unexpired entry, unexpired key, no revocation since it was stored. */
  predicate Hits(e: Entry, mono: real, wall: real, epoch: nat) {
    e.until > mono && e.info.expires > wall && e.epoch == epoch
  }

  // ----- the lookup as a method ------------------------------------------------------------

  class Cache {
    var entries: map<nat, Entry>
    var epoch: nat

    constructor ()
      ensures entries == map[] && epoch == 0
    {
      entries, epoch := map[], 0;
    }

    method NoteKeyRevoked()
      modifies this`epoch
      ensures epoch == old(epoch) + 1
    {
      epoch := epoch + 1;
    }

    /** One lookup. At the call the clocks read `mono`/`wall`; on a miss the database answers
        `answer` at `readAt`, and `bumps` revocations are announced before the entry is written
        at wall time `wallThen`. */
    method ValidateCached(key: nat, mono: real, wall: real, answer: Option<Info>, readAt: real,
                          bumps: nat, wallThen: real) returns (info: Option<Info>)
      modifies this
      ensures key in old(entries) && Hits(old(entries)[key], mono, wall, old(epoch)) ==>
        info == Some(old(entries)[key].info) && entries == old(entries) && epoch == old(epoch)
      ensures !(key in old(entries) && Hits(old(entries)[key], mono, wall, old(epoch))) ==>
        && epoch == old(epoch) + bumps
        && info == (if answer.Some? && answer.value.expires > wallThen then answer else None)
        && entries == (if info.Some?
             then old(entries)[key := Stored(info.value, mono, wallThen, epoch, readAt, old(epoch))]
             else old(entries) - {key})
    {
      if key in entries {
        var cached := entries[key];
        if cached.until > mono && cached.info.expires > wall && cached.epoch == epoch {
          return Some(cached.info);
        }
      }
      var before := epoch;
      epoch := epoch + bumps;
      if answer == None {
        entries := entries - {key};
        return None;
      }
      var remaining := answer.value.expires - wallThen;
      if remaining <= 0.0 {
        entries := entries - {key};
        return None;
      }
      var until := mono + (if TTL < remaining then TTL else remaining);
      entries := entries[key := Entry(answer.value, until, epoch, readAt, before)];
      return answer;
    }
  }

  /** The entry a lookup that began at `began` stores. */
  function Stored(info: Info, began: real, wall: real, epoch: nat, readAt: real, readEpoch: nat): Entry {
    Entry(info, began + MinReal(TTL, info.expires - wall), epoch, readAt, readEpoch)
  }

  // ----- interleaved lookups ---------------------------------------------------------------

  datatype Lookup =
    | Missed(key: nat, began: real)
    | Read(key: nat, began: real, answer: Option<Info>, readAt: real, readEpoch: nat)

  /** `revokedAt`: when each revoked key's row was switched off. `announced`: revoked keys whose
      revocation has been followed by a bump. */
  datatype State = State(mono: real, wall: real, epoch: nat, db: map<nat, DbRow>,
                         cache: map<nat, Entry>, lookups: map<nat, Lookup>,
                         revokedAt: map<nat, real>, announced: set<nat>)

  datatype Event =
    | Begin(r: nat, key: nat)       // a cache miss goes on to the database
    | ReadDb(r: nat, up: bool)      // an unavailable database answers nothing
    | Write(r: nat)
    | Evict(key: nat)
    | Tick(elapsed: real, wallNow: real)
    | CreateKey(key: nat, info: Info)
    | Revoke(key: nat)
    | Bump

  predicate Serves(s: State, key: nat) {
    key in s.cache && Hits(s.cache[key], s.mono, s.wall, s.epoch)
  }

  predicate Enabled(s: State, e: Event) {
    match e
    case Begin(r, key) => r !in s.lookups && !Serves(s, key)
    case ReadDb(r, _) => r in s.lookups && s.lookups[r].Missed?
    case Write(r) => r in s.lookups && s.lookups[r].Read?
    case Evict(key) => key in s.cache
    case Tick(elapsed, _) => elapsed >= 0.0
    case CreateKey(key, _) => key !in s.db
    case Revoke(key) => key in s.db && s.db[key].active
    case Bump => true
  }

  function Do(s: State, e: Event): State
    requires Enabled(s, e)
  {
    match e
    case Begin(r, key) => s.(lookups := s.lookups[r := Missed(key, s.mono)])
    case ReadDb(r, up) =>
      var l := s.lookups[r];
      var answer := if up then Answer(s.db, l.key, s.wall) else None;
      s.(lookups := s.lookups[r := Read(l.key, l.began, answer, s.mono, s.epoch)])
    case Write(r) =>
      var l := s.lookups[r];
      var done := s.(lookups := s.lookups - {r});
      if l.answer.Some? && l.answer.value.expires > s.wall
      then done.(cache := s.cache[l.key := Stored(l.answer.value, l.began, s.wall, s.epoch, l.readAt, l.readEpoch)])
      else done.(cache := s.cache - {l.key})
    case Evict(key) => s.(cache := s.cache - {key})
    case Tick(elapsed, wallNow) => s.(mono := s.mono + elapsed, wall := wallNow)
    case CreateKey(key, info) => s.(db := s.db[key := DbRow(info, true)])
    case Revoke(key) =>
      s.(db := s.db[key := s.db[key].(active := false)], revokedAt := s.revokedAt[key := s.mono])
    case Bump => s.(epoch := s.epoch + 1, announced := s.revokedAt.Keys)
  }

  /** What a lookup's last step leaves: the stored entry for an answer still unexpired, no entry
      otherwise, and nothing else moved. */
  lemma WriteStoresIff(s: State, r: nat)
    requires Enabled(s, Write(r))
    ensures var l, s' := s.lookups[r], Do(s, Write(r));
      && (l.key in s'.cache <==> l.answer.Some? && s.wall < l.answer.value.expires)
      && (l.key in s'.cache ==>
            var e := s'.cache[l.key];
            && Some(e.info) == l.answer && e.epoch == s.epoch && e.readAt == l.readAt
            && e.until <= l.began + 60.0 && e.until <= l.began + (e.info.expires - s.wall))
      && (forall k | k != l.key :: (k in s'.cache <==> k in s.cache) && (k in s.cache ==> s'.cache[k] == s.cache[k]))
      && r !in s'.lookups && s'.db == s.db && s'.epoch == s.epoch
  {
  }

  /** What ends an entry's service besides a bump: its time, the key's own expiry, an eviction. */
  lemma EntriesEnd(s: State, key: nat, elapsed: real, wallNow: real)
    requires key in s.cache && elapsed >= 0.0
    ensures Serves(Do(s, Tick(elapsed, wallNow)), key) <==>
      && s.mono + elapsed < s.cache[key].until && wallNow < s.cache[key].info.expires
      && s.cache[key].epoch == s.epoch
    ensures !Serves(Do(s, Evict(key)), key)
  {
  }

  /** A new key is vouched for until it expires or is revoked. */
  lemma NewKeyIsVouchedFor(s: State, key: nat, info: Info, wall: real)
    requires key !in s.db && wall < info.expires
    ensures var s' := Do(s, CreateKey(key, info));
      && Answer(s'.db, key, wall) == Some(info)
      && Enabled(s', Revoke(key)) && Answer(Do(s', Revoke(key)).db, key, wall) == None
  {
  }

  predicate Initial(s: State) {
    s.cache == map[] && s.lookups == map[] && s.revokedAt == map[] && s.announced == {}
    && forall k | k in s.db :: s.db[k].active
  }

  predicate IsRun(run: seq<State>, events: seq<Event>) {
    |run| == |events| + 1 && Initial(run[0]) &&
    forall k :: 0 <= k < |events| ==> Enabled(run[k], events[k]) && run[k + 1] == Do(run[k], events[k])
  }

  // ----- freshness -------------------------------------------------------------------------

  /** Facts of an answer read at `readAt` under `readEpoch` for `key`. */
  predicate ReadOk(s: State, key: nat, readAt: real, readEpoch: nat) {
    && readAt <= s.mono && readEpoch <= s.epoch
    && (key in s.revokedAt ==> readAt <= s.revokedAt[key])
    && (key in s.announced ==> readEpoch < s.epoch)
  }

  predicate LookupOk(s: State, l: Lookup) {
    match l
    case Missed(_, began) => began <= s.mono
    case Read(key, began, answer, readAt, readEpoch) =>
      began <= readAt && (answer.Some? ==> ReadOk(s, key, readAt, readEpoch))
  }

  predicate EntryOk(s: State, key: nat, e: Entry) {
    ReadOk(s, key, e.readAt, e.readEpoch) && e.until <= e.readAt + TTL && e.readEpoch <= e.epoch <= s.epoch
  }

  predicate Inv(s: State) {
    && (forall r | r in s.lookups :: LookupOk(s, s.lookups[r]))
    && (forall k | k in s.cache :: EntryOk(s, k, s.cache[k]))
    && (forall k | k in s.revokedAt :: s.revokedAt[k] <= s.mono && k in s.db && !s.db[k].active)
    && (forall k | k in s.db && !s.db[k].active :: k in s.revokedAt)
    && s.announced <= s.revokedAt.Keys
  }

  lemma StepKeepsInv(s: State, e: Event)
    requires Inv(s) && Enabled(s, e)
    ensures Inv(Do(s, e))
    ensures s.mono <= Do(s, e).mono && s.epoch <= Do(s, e).epoch
  {
    var s' := Do(s, e);
    forall r | r in s'.lookups ensures LookupOk(s', s'.lookups[r]) {
      if r in s.lookups { assert LookupOk(s, s.lookups[r]); }
    }
    forall k | k in s'.cache ensures EntryOk(s', k, s'.cache[k]) {
      if e.Write? && k == s.lookups[e.r].key {
        assert LookupOk(s, s.lookups[e.r]);
      } else {
        assert EntryOk(s, k, s.cache[k]);
      }
    }
  }

  lemma {:induction false} RunKeepsInv(run: seq<State>, events: seq<Event>, n: nat)
    requires IsRun(run, events) && n <= |events|
    ensures Inv(run[n])
  {
    if n > 0 {
      RunKeepsInv(run, events, n - 1);
      StepKeepsInv(run[n - 1], events[n - 1]);
    }
  }

  /** At step `k` of the run the database answered `info` for `key`, at monotonic time `at`. */
  predicate Answered(run: seq<State>, k: nat, key: nat, info: Info, at: real) {
    k < |run| && run[k].mono == at && Answer(run[k].db, key, run[k].wall) == Some(info)
  }

  lemma {:induction false} LookupsWereAnswered(run: seq<State>, events: seq<Event>, n: nat, r: nat)
    requires IsRun(run, events) && n <= |events|
    requires r in run[n].lookups && run[n].lookups[r].Read? && run[n].lookups[r].answer.Some?
    ensures var l := run[n].lookups[r]; exists k: nat | k <= n :: Answered(run, k, l.key, l.answer.value, l.readAt)
  {
    var e := events[n - 1];
    if e.ReadDb? && e.r == r {
      var l := run[n].lookups[r];
      assert Answered(run, n - 1, l.key, l.answer.value, l.readAt);
    } else {
      LookupsWereAnswered(run, events, n - 1, r);
    }
  }

  lemma {:induction false} EntriesWereAnswered(run: seq<State>, events: seq<Event>, n: nat, key: nat)
    requires IsRun(run, events) && n <= |events| && key in run[n].cache
    ensures var e := run[n].cache[key]; exists k: nat | k <= n :: Answered(run, k, key, e.info, e.readAt)
  {
    var e := events[n - 1];
    if e.Write? && run[n - 1].lookups[e.r].key == key {
      LookupsWereAnswered(run, events, n - 1, e.r);
    } else {
      EntriesWereAnswered(run, events, n - 1, key);
    }
  }

  /** A validation served from the cache is an answer the database gave within the last 60
      seconds, for a key that has not expired. */
  lemma ServedAnswerIsFresh(run: seq<State>, events: seq<Event>, n: nat, key: nat)
    requires IsRun(run, events) && n <= |events| && Serves(run[n], key)
    ensures run[n].cache[key].info.expires > run[n].wall
    ensures exists k: nat | k <= n ::
      Answered(run, k, key, run[n].cache[key].info, run[n].cache[key].readAt) && run[k].mono > run[n].mono - TTL
  {
    RunKeepsInv(run, events, n);
    EntriesWereAnswered(run, events, n, key);
    assert EntryOk(run[n], key, run[n].cache[key]);
  }

  /** A revoked key is served for less than 60 seconds after its row was switched off, in this
      or any other process. */
  lemma RevokedKeyDiesWithinTtl(run: seq<State>, events: seq<Event>, n: nat, key: nat)
    requires IsRun(run, events) && n <= |events| && Serves(run[n], key) && key in run[n].revokedAt
    ensures run[n].mono < run[n].revokedAt[key] + TTL
  {
    RunKeepsInv(run, events, n);
    assert EntryOk(run[n], key, run[n].cache[key]);
  }

  lemma {:induction false} EpochGrows(run: seq<State>, events: seq<Event>, i: nat, j: nat)
    requires IsRun(run, events) && i <= j <= |events|
    ensures run[i].epoch <= run[j].epoch
    ensures (exists b | i <= b < j :: events[b] == Bump) ==> run[i].epoch < run[j].epoch
  {
    if i < j { EpochGrows(run, events, i, j - 1); }
  }

  /** No entry stored before a bump is served after it, whatever was evicted in between. */
  lemma EntryStoredBeforeBumpIsDead(run: seq<State>, events: seq<Event>, i: nat, b: nat, n: nat, key: nat)
    requires IsRun(run, events) && i <= b < n <= |events| && events[b] == Bump
    requires key in run[i].cache && Serves(run[n], key)
    ensures run[n].cache[key] != run[i].cache[key]
  {
    RunKeepsInv(run, events, i);
    assert EntryOk(run[i], key, run[i].cache[key]);
    EpochGrows(run, events, i, n);
  }

  /** A key whose revocation was announced can only be served from an entry whose lookup had a
      bump between its database read and its cache write. */
  lemma AnnouncedKeyServedOnlyAcrossABump(run: seq<State>, events: seq<Event>, n: nat, key: nat)
    requires IsRun(run, events) && n <= |events| && Serves(run[n], key) && key in run[n].announced
    ensures run[n].cache[key].readEpoch < run[n].cache[key].epoch
  {
    RunKeepsInv(run, events, n);
    assert EntryOk(run[n], key, run[n].cache[key]);
  }

  /** Step `w` writes the answer a lookup of `key` read. */
  predicate WritesFor(run: seq<State>, events: seq<Event>, w: nat, key: nat)
    requires w < |events| < |run|
  {
    events[w].Write? && Enabled(run[w], events[w]) && run[w].lookups[events[w].r].key == key
  }

  /** No bump falls between the read and the write of any lookup of this key. */
  predicate NoBumpDuringLookups(run: seq<State>, events: seq<Event>, key: nat)
    requires |run| == |events| + 1
  {
    forall w: nat | w < |events| && WritesFor(run, events, w, key) ::
      run[w].lookups[events[w].r].readEpoch == run[w].epoch
  }

  lemma {:induction false} EntryIsReadAndStoredTogether(run: seq<State>, events: seq<Event>, n: nat, key: nat)
    requires IsRun(run, events) && NoBumpDuringLookups(run, events, key) && n <= |events| && key in run[n].cache
    ensures run[n].cache[key].readEpoch == run[n].cache[key].epoch
  {
    if !WritesFor(run, events, n - 1, key) {
      EntryIsReadAndStoredTogether(run, events, n - 1, key);
    }
  }

  /** When no bump falls inside a lookup of the key, its revocation takes effect at once: from the
      bump on it is never served. */
  lemma RevocationIsImmediate(run: seq<State>, events: seq<Event>, n: nat, key: nat)
    requires IsRun(run, events) && NoBumpDuringLookups(run, events, key) && n <= |events|
    requires key in run[n].announced
    ensures !Serves(run[n], key)
  {
    if Serves(run[n], key) {
      EntryIsReadAndStoredTogether(run, events, n, key);
      AnnouncedKeyServedOnlyAcrossABump(run, events, n, key);
    }
  }

  /** The lookup holds a good answer for a key still unexpired, within the time the entry will live. */
  predicate Servable(s: State, l: Lookup) {
    && l.Read? && l.answer.Some? && l.answer.value.expires > s.wall
    && l.began + MinReal(TTL, l.answer.value.expires - s.wall) > s.mono
  }

  /** The write of an announced key's lookup makes it served exactly when its answer is good and
      its time not yet over; and such an answer was read before the key's bump. */
  lemma AnnouncedWriteServesIff(run: seq<State>, events: seq<Event>, w: nat, key: nat)
    requires IsRun(run, events) && w < |events| && WritesFor(run, events, w, key) && key in run[w].announced
    ensures Serves(run[w + 1], key) <==> Servable(run[w], run[w].lookups[events[w].r])
    ensures Servable(run[w], run[w].lookups[events[w].r]) ==> run[w].lookups[events[w].r].readEpoch < run[w].epoch
  {
    RunKeepsInv(run, events, w);
    assert LookupOk(run[w], run[w].lookups[events[w].r]);
  }

  /** Step `w` revives the revoked key. */
  predicate Revives(run: seq<State>, events: seq<Event>, w: nat, key: nat)
    requires w < |events| < |run|
  {
    WritesFor(run, events, w, key) && key in run[w].announced && Servable(run[w], run[w].lookups[events[w].r])
  }

  /** A timely entry of an announced key that a step did not write was so before the step. */
  lemma OldEntryWasTimely(s: State, e: Event, key: nat)
    requires Inv(s) && Enabled(s, e) && !(e.Write? && s.lookups[e.r].key == key)
    requires key in Do(s, e).announced && key in Do(s, e).cache
    requires Do(s, e).cache[key].epoch == Do(s, e).epoch && Do(s, e).cache[key].until > Do(s, e).mono
    ensures key in s.announced && key in s.cache && s.cache[key].epoch == s.epoch && s.cache[key].until > s.mono
  {
    assert EntryOk(s, key, s.cache[key]);
  }

  lemma {:induction false} ServedAnnouncedWasRevived(run: seq<State>, events: seq<Event>, n: nat, key: nat)
    requires IsRun(run, events) && n <= |events| && key in run[n].announced && key in run[n].cache
    requires run[n].cache[key].epoch == run[n].epoch && run[n].cache[key].until > run[n].mono
    ensures exists w: nat | w < n :: Revives(run, events, w, key)
  {
    RunKeepsInv(run, events, n - 1);
    if WritesFor(run, events, n - 1, key) {
      assert Revives(run, events, n - 1, key);
    } else {
      OldEntryWasTimely(run[n - 1], events[n - 1], key);
      ServedAnnouncedWasRevived(run, events, n - 1, key);
    }
  }

  /** Exactly when a revocation takes effect at once: in a whole run the key is never served after
      its bump if and only if no lookup of it writes a good, still timely answer after that bump. */
  lemma RevocationIsImmediateIff(run: seq<State>, events: seq<Event>, key: nat)
    requires IsRun(run, events)
    ensures (forall n: nat | n <= |events| && key in run[n].announced :: !Serves(run[n], key))
      <==> (forall w: nat | w < |events| :: !Revives(run, events, w, key))
  {
    forall w: nat | w < |events| && Revives(run, events, w, key)
      ensures key in run[w + 1].announced && Serves(run[w + 1], key)
    {
      AnnouncedWriteServesIff(run, events, w, key);
    }
    forall n: nat | n <= |events| && key in run[n].announced && Serves(run[n], key)
      ensures exists w: nat | w < n :: Revives(run, events, w, key)
    {
      ServedAnnouncedWasRevived(run, events, n, key);
    }
  }

  predicate ServesAnnounced(run: seq<State>, events: seq<Event>, key: nat) {
    IsRun(run, events) && key in run[|events|].announced && Serves(run[|events|], key)
  }

  const INFO := Info(1, {}, 1000.0)

  function Begun(): State {
    State(0.0, 0.0, 0, map[5 := DbRow(INFO, true)], map[], map[0 := Missed(5, 0.0)], map[], {})
  }

  /** The answer was read, then the key revoked. */
  function ReadThenRevoked(): State {
    Begun().(lookups := map[0 := Read(5, 0.0, Some(INFO), 0.0, 0)],
             db := map[5 := DbRow(INFO, false)], revokedAt := map[5 := 0.0])
  }

  function StoredAfterBump(): State {
    ReadThenRevoked().(epoch := 1, announced := {5}, lookups := map[], cache := map[5 := Entry(INFO, 60.0, 1, 0.0, 0)])
  }

  lemma KeyIsReadThenRevoked(s: State)
    requires s == Begun().(lookups := map[0 := Read(5, 0.0, Some(INFO), 0.0, 0)])
    ensures Enabled(Begun(), ReadDb(0, true)) && Do(Begun(), ReadDb(0, true)) == s
    ensures Enabled(s, Revoke(5)) && Do(s, Revoke(5)) == ReadThenRevoked()
  {
  }

  lemma KeyIsStoredAfterBump(s: State)
    requires s == ReadThenRevoked().(epoch := 1, announced := {5})
    ensures Enabled(ReadThenRevoked(), Bump) && Do(ReadThenRevoked(), Bump) == s
    ensures Enabled(s, Write(0)) && Do(s, Write(0)) == StoredAfterBump()
  {
    assert ReadThenRevoked().revokedAt.Keys == {5};
  }

  /** The condition is needed: the epoch is read when the entry is written, so an answer read
      before the revocation and stored after its bump is served again. */
  lemma BumpDuringLookupServesRevokedKey()
    ensures exists run, events, key :: ServesAnnounced(run, events, key)
  {
    var s0 := Begun().(lookups := map[]);
    var s2 := Begun().(lookups := map[0 := Read(5, 0.0, Some(INFO), 0.0, 0)]);
    var s4 := ReadThenRevoked().(epoch := 1, announced := {5});
    KeyIsReadThenRevoked(s2);
    KeyIsStoredAfterBump(s4);
    var run := [s0, Begun(), s2, ReadThenRevoked(), s4, StoredAfterBump()];
    var events := [Begin(0, 5), ReadDb(0, true), Revoke(5), Bump, Write(0)];
    assert Do(s0, Begin(0, 5)) == Begun();
    assert ServesAnnounced(run, events, 5);
  }
}
