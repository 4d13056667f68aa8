/** Waiting, with a growing pause, for a message's attached files to be there and readable. */
module FileReadiness {
  import opened Workspace
  import opened Text

  /** What one look at one file finds. */
  datatype Sight = Readable | Missing | Empty | Unavailable

  /** `look(attempt, i)`: the state of file `i` at the numbered attempt, counted from 0. */
  type Observer = (nat, nat) -> Sight

  /** `Unbound` is the error of a call whose loop never ran: nothing was collected to report. */
  datatype Verdict = Ready | NotReady(problems: seq<string>) | Unbound

  function Doubled(pause: real): real {
    if pause * 2.0 < 2.0 then pause * 2.0 else 2.0
  }

  /** The pause after the k-th failed attempt, and what the pauses before it add up to. */
  function Pause(k: nat): (w: real)
    ensures 0.1 <= w <= 2.0
  {
    if k == 0 then 0.1 else Doubled(Pause(k - 1))
  }

  function Waited(k: nat): (w: real)
    ensures w >= 0.1 * (k as real)
  {
    if k == 0 then 0.0 else Waited(k - 1) + Pause(k - 1)
  }

  lemma FirstFive()
    ensures Waited(1) == 0.1 && Waited(2) == 0.3 && Waited(3) == 0.7 && Waited(4) == 1.5 && Waited(5) == 3.1
    ensures Pause(5) == 2.0
  {
    assert Pause(1) == 0.2;
    assert Pause(2) == 0.4;
    assert Pause(3) == 0.8;
    assert Pause(4) == 1.6;
    assert Waited(1) == Waited(0) + Pause(0);
    assert Waited(2) == Waited(1) + Pause(1);
    assert Waited(3) == Waited(2) + Pause(2);
    assert Waited(4) == Waited(3) + Pause(3);
  }

  /** Doubling stops at two seconds: from the sixth attempt on, the waiting is linear. */
  lemma {:induction false} LinearFromFive(k: nat)
    requires k >= 5
    ensures Pause(k) == 2.0 && Waited(k) == 3.1 + 2.0 * ((k - 5) as real)
  {
    if k == 5 {
      FirstFive();
    } else {
      LinearFromFive(k - 1);
    }
  }

  lemma {:induction false} WaitedGrows(j: nat, k: nat)
    requires j <= k
    ensures Waited(j) <= Waited(k)
    decreases k
  {
    if j < k { WaitedGrows(j, k - 1); }
  }

  function Ceiling(x: real): int {
    -((-x).Floor)
  }

  /** An attempt is made only while the waiting is below the limit, so the total stays below the
      limit plus two seconds; above 3.1 seconds the number of attempts has a closed form, which a
      call that gives up reaches exactly. */
  lemma AttemptsAreBounded(n: nat, limit: real)
    requires n > 0 && Waited(n - 1) < limit
    ensures Waited(n) < limit + 2.0
    ensures limit > 3.1 ==> n <= 5 + Ceiling((limit - 3.1) / 2.0)
    ensures limit > 3.1 && limit <= Waited(n) ==> n == 5 + Ceiling((limit - 3.1) / 2.0)
  {
    if limit > 3.1 {
      FirstFive();
      if n >= 6 {
        LinearFromFive(n - 1);
        LinearFromFive(n);
        CeilingBounds((limit - 3.1) / 2.0, n - 5);
      } else {
        WaitedGrows(n, 5);
        CeilingBounds((limit - 3.1) / 2.0, 1);
      }
    }
  }

  lemma CeilingBounds(x: real, m: int)
    ensures (m - 1) as real < x ==> m <= Ceiling(x)
    ensures x <= m as real ==> Ceiling(x) <= m
  {
  }

  /** The names reported for one attempt: missing ones first, then unreadable ones. */
  function Absent(paths: seq<string>, look: Observer, attempt: nat, n: nat): seq<string>
    requires n <= |paths|
  {
    if n == 0 then []
    else Absent(paths, look, attempt, n - 1) + if look(attempt, n - 1).Missing? then [paths[n - 1]] else []
  }

  function Unreadable(paths: seq<string>, look: Observer, attempt: nat, n: nat): seq<string>
    requires n <= |paths|
  {
    if n == 0 then []
    else
      Unreadable(paths, look, attempt, n - 1)
      + match look(attempt, n - 1)
        case Empty => [paths[n - 1] + " (0 bytes)"]
        case Unavailable => [paths[n - 1] + " (unavailable)"]
        case _ => []
  }

  function Problems(paths: seq<string>, look: Observer, attempt: nat): seq<string> {
    Absent(paths, look, attempt, |paths|) + Unreadable(paths, look, attempt, |paths|)
  }

  predicate AllReadable(paths: seq<string>, look: Observer, attempt: nat) {
    forall i | 0 <= i < |paths| :: look(attempt, i).Readable?
  }

  lemma {:induction false} NothingReportedUpToIff(paths: seq<string>, look: Observer, attempt: nat, n: nat)
    requires n <= |paths|
    ensures Absent(paths, look, attempt, n) + Unreadable(paths, look, attempt, n) == []
      <==> forall i | 0 <= i < n :: look(attempt, i).Readable?
  {
    if n > 0 { NothingReportedUpToIff(paths, look, attempt, n - 1); }
  }

  lemma NothingReportedIff(paths: seq<string>, look: Observer, attempt: nat)
    ensures Problems(paths, look, attempt) == [] <==> AllReadable(paths, look, attempt)
  {
    NothingReportedUpToIff(paths, look, attempt, |paths|);
  }

  predicate PathRefused(path: string) {
    (path != "" && path[0] == '/') || ".." in Parts(path)
  }

  /** A path is refused when it starts with a slash or one of its pieces between slashes is `..`. */
  lemma PathRefusedIff(path: string)
    ensures PathRefused(path) <==> (path != "" && path[0] == '/') || ".." in SplitOn('/', path)
  {
    PartsAreThePieces(path, "..");
  }

  predicate AnyRefused(paths: seq<string>) {
    exists p | p in paths :: PathRefused(p)
  }

  /** One attempt's scan of the files. */
  method Scan(paths: seq<string>, look: Observer, attempt: nat) returns (missing: seq<string>, unreadable: seq<string>)
    ensures missing == Absent(paths, look, attempt, |paths|)
    ensures unreadable == Unreadable(paths, look, attempt, |paths|)
  {
    missing, unreadable := [], [];
    var i := 0;
    while i < |paths|
      invariant 0 <= i <= |paths|
      invariant missing == Absent(paths, look, attempt, i)
      invariant unreadable == Unreadable(paths, look, attempt, i)
    {
      match look(attempt, i) {
        case Readable =>
        case Missing => missing := missing + [paths[i]];
        case Empty => unreadable := unreadable + [paths[i] + " (0 bytes)"];
        case Unavailable => unreadable := unreadable + [paths[i] + " (unavailable)"];
      }
      i := i + 1;
    }
  }

  /** The whole tenths of a second left, which every pause uses up by one at least. */
  function TenthsLeft(limit: real, waited: real): int {
    ((limit - waited) * 10.0).Floor + 1
  }

  lemma PauseUsesATenth(limit: real, waited: real, pause: real)
    requires waited < limit && pause >= 0.1
    ensures 0 < TenthsLeft(limit, waited) && TenthsLeft(limit, waited + pause) < TenthsLeft(limit, waited)
  {
    assert (limit - (waited + pause)) * 10.0 <= (limit - waited) * 10.0 - 1.0;
  }

  /** The `attempts`-th attempt was due, and every one before it found a problem. */
  predicate Reached(paths: seq<string>, look: Observer, limit: real, attempts: nat) {
    attempts > 0 && Waited(attempts - 1) < limit && forall k: nat | k < attempts - 1 :: !AllReadable(paths, look, k)
  }

  predicate Unlucky(paths: seq<string>, look: Observer, limit: real, attempts: nat, verdict: Verdict) {
    && Reached(paths, look, limit, attempts) && !AllReadable(paths, look, attempts - 1)
    && verdict == NotReady(Problems(paths, look, attempts - 1))
  }

  lemma ReachedNext(paths: seq<string>, look: Observer, limit: real, attempts: nat, verdict: Verdict)
    requires attempts == 0 || Unlucky(paths, look, limit, attempts, verdict)
    requires Waited(attempts) < limit
    ensures Reached(paths, look, limit, attempts + 1)
  {
  }

  /** What a call says after its last attempt, and how long it waited to say it. */
  predicate Concluded(paths: seq<string>, look: Observer, limit: real, verdict: Verdict, attempts: nat, waited: real)
    requires attempts > 0
  {
    if AllReadable(paths, look, attempts - 1) then verdict == Ready && waited == Waited(attempts - 1)
    else verdict == NotReady(Problems(paths, look, attempts - 1)) && limit <= waited == Waited(attempts)
  }

  /** `verify_files_ready`: ready at the first attempt that finds every file, made while the
      waiting is below the limit; otherwise the problems of the last such attempt. */
  method VerifyFilesReady(paths: seq<string>, look: Observer, limit: real)
    returns (verdict: Verdict, attempts: nat, waited: real)
    ensures (exists p | p in paths :: PathRefused(p)) <==> AnyRefused(paths)
    ensures AnyRefused(paths) ==> verdict == NotReady(["Invalid attachment path"]) && attempts == 0
    ensures !AnyRefused(paths) ==> (verdict == Unbound <==> limit <= 0.0) && (attempts == 0 <==> limit <= 0.0)
    ensures attempts > 0 ==> Reached(paths, look, limit, attempts)
    ensures attempts > 0 ==> Concluded(paths, look, limit, verdict, attempts, waited)
  {
    attempts, waited := 0, 0.0;
    var refused := false;
    var i := 0;
    while i < |paths|
      invariant 0 <= i <= |paths| && (refused <==> AnyRefused(paths[..i]))
    {
      assert paths[..i + 1] == paths[..i] + [paths[i]];
      refused := refused || PathRefused(paths[i]);
      i := i + 1;
    }
    assert paths[..i] == paths;
    if refused {
      verdict := NotReady(["Invalid attachment path"]);
      return;
    }
    var pause := 0.1;
    verdict := Unbound;
    while waited < limit
      invariant pause == Pause(attempts) && waited == Waited(attempts)
      invariant if attempts == 0 then verdict == Unbound else Unlucky(paths, look, limit, attempts, verdict)
      decreases TenthsLeft(limit, waited)
    {
      var missing, unreadable := Scan(paths, look, attempts);
      NothingReportedIff(paths, look, attempts);
      ReachedNext(paths, look, limit, attempts, verdict);
      attempts := attempts + 1;
      if missing == [] && unreadable == [] {
        verdict := Ready;
        return;
      }
      verdict := NotReady(missing + unreadable);
      PauseUsesATenth(limit, waited, pause);
      waited := waited + pause;
      pause := Doubled(pause);
    }
  }
}
