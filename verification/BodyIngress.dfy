/** One admitted request of the body-limit middleware: the declared length, the bounded read into
    the spool, the replay to the application and the exactly-once release. */
module BodyIngress {
  import opened Wrappers
  import opened Bytes

  // ----- declared length -------------------------------------------------------------------

  predicate IsDigits(v: seq<byte>) {
    v != [] && forall k | 0 <= k < |v| :: 48 <= v[k] <= 57
  }

  function IntOf(v: seq<byte>): (n: nat)
    requires forall k | 0 <= k < |v| :: 48 <= v[k] <= 57
  {
    if v == [] then 0 else 10 * IntOf(v[..|v| - 1]) + (v[|v| - 1] - 48)
  }

  datatype Gate = RejectNow(status: nat) | NoBody | NeedsSlot(declared: Option<nat>)

  /** Before any slot is taken: malformed or oversized lengths are refused, a request that
      declares no body passes straight through. */
  function GateFor(lengths: seq<seq<byte>>, bodylessMethod: bool, transferEncoding: bool, maxBytes: nat): Gate {
    if |lengths| > 1 then RejectNow(400)
    else if |lengths| == 1 then
      if !IsDigits(lengths[0]) then RejectNow(400)
      else if IntOf(lengths[0]) > maxBytes then RejectNow(413)
      else if IntOf(lengths[0]) == 0 then NoBody
      else NeedsSlot(Some(IntOf(lengths[0])))
    else if !transferEncoding && bodylessMethod then NoBody
    else NeedsSlot(None)
  }

  /** One length header whose value is a number. */
  predicate OneNumber(lengths: seq<seq<byte>>) {
    |lengths| == 1 && lengths[0] != [] && forall k | 0 <= k < |lengths[0]| :: 48 <= lengths[0][k] <= 57
  }

  /** Each answer exactly. A slot is asked for when one well-formed length within the cap promises
      bytes, or no length is given and the method or a transfer coding allows a body; the request
      passes straight through when its length is 0 or it can have no body; a length over the cap is
      refused as too large, and anything but one well-formed length as malformed. */
  lemma SlotNeededIff(lengths: seq<seq<byte>>, bodyless: bool, te: bool, maxBytes: nat)
    ensures var gate := GateFor(lengths, bodyless, te, maxBytes);
      && (gate.NeedsSlot? <==>
            || (OneNumber(lengths) && 0 < IntOf(lengths[0]) <= maxBytes)
            || (lengths == [] && (te || !bodyless)))
      && (gate.NeedsSlot? ==> gate.declared == if lengths == [] then None else Some(IntOf(lengths[0])))
      && (gate == NoBody <==>
            || (OneNumber(lengths) && IntOf(lengths[0]) == 0)
            || (lengths == [] && !te && bodyless))
      && (gate == RejectNow(413) <==> OneNumber(lengths) && IntOf(lengths[0]) > maxBytes)
      && (gate == RejectNow(400) <==> lengths != [] && !OneNumber(lengths))
  {
  }

  /** The decimal digits of a number, as bytes. */
  function Decimal(n: nat): (v: seq<byte>)
    ensures v != [] && forall k | 0 <= k < |v| :: 48 <= v[k] <= 57
  {
    if n < 10 then [48 + n] else Decimal(n / 10) + [48 + n % 10]
  }

  /** A written length is read back as itself. */
  lemma {:induction false} IntOfDecimal(n: nat)
    ensures IntOf(Decimal(n)) == n && IsDigits(Decimal(n))
  {
    if n >= 10 {
      IntOfDecimal(n / 10);
      assert Decimal(n)[..|Decimal(n)| - 1] == Decimal(n / 10);
    } else {
      assert Decimal(n)[..0] == [];
    }
  }

  // ----- the bounded read ------------------------------------------------------------------

  /** What `receive()` yields. `late`: not within the deadline. `writeOk`: the spool took it. */
  datatype Event =
    | Chunk(late: bool, body: seq<byte>, more: bool, writeOk: bool)
    | Disconnect(late: bool)
    | Other(late: bool)

  datatype Outcome = Ready(body: seq<byte>) | Reject(status: nat) | Gone

  function Bodies(events: seq<Event>): (r: seq<seq<byte>>)
    requires forall k | 0 <= k < |events| :: events[k].Chunk?
    ensures |r| == |events|
  {
    seq(|events|, k requires 0 <= k < |events| => events[k].body)
  }

  predicate AllChunks(events: seq<Event>) {
    forall k | 0 <= k < |events| :: events[k].Chunk?
  }

  /** The first `n` messages are in-time chunks that were written and asked for more. */
  predicate Going(events: seq<Event>, n: nat) {
    n <= |events| && forall k | 0 <= k < n ::
      events[k].Chunk? && !events[k].late && events[k].more && events[k].writeOk
  }

  /** The bytes of the first `n` messages. */
  function Got(events: seq<Event>, n: nat): seq<byte>
    requires n <= |events| && AllChunks(events[..n])
  {
    Join(Bodies(events[..n]))
  }

  lemma GotSnoc(events: seq<Event>, n: nat)
    requires n < |events| && AllChunks(events[..n + 1])
    ensures AllChunks(events[..n])
    ensures Got(events, n + 1) == Got(events, n) + events[n].body
  {
    assert forall k | 0 <= k < n :: events[..n][k] == events[..n + 1][k];
    assert Bodies(events[..n + 1]) == Bodies(events[..n]) + [events[n].body];
    JoinSnoc(Bodies(events[..n]), events[n].body);
  }

  lemma {:induction false} GotGrows(events: seq<Event>, m: nat, n: nat)
    requires m <= n <= |events| && AllChunks(events[..n])
    ensures AllChunks(events[..m]) && |Got(events, m)| <= |Got(events, n)|
  {
    assert forall k | 0 <= k < m :: events[..m][k] == events[..n][k];
    if m < n {
      assert forall k | 0 <= k < n - 1 :: events[..n - 1][k] == events[..n][k];
      GotSnoc(events, n - 1);
      GotGrows(events, m, n - 1);
    }
  }

  /** The answer once message `n` ends the read (or the deadline passes with none left). */
  function Verdict(events: seq<Event>, n: nat, declared: Option<nat>, maxBytes: nat): Outcome
    requires Going(events, n)
  {
    if n == |events| || events[n].late then Reject(408)
    else match events[n]
      case Disconnect(_) => Gone
      case Other(_) => Reject(400)
      case Chunk(_, body, _, writeOk) =>
        var all := Got(events, n) + body;
        if |all| > maxBytes then Reject(413)
        else if !writeOk then Reject(503)
        else if declared.Some? && |all| != declared.value then Reject(400)
        else Ready(all)
  }

  /** Message `n` is where the read ends: everything before it went on within the cap. */
  predicate EndsAt(events: seq<Event>, n: nat, maxBytes: nat) {
    && Going(events, n) && |Got(events, n)| <= maxBytes
    && (n < |events| ==> !(Going(events, n + 1) && |Got(events, n + 1)| <= maxBytes))
  }

  lemma EndsOnce(events: seq<Event>, m: nat, n: nat, maxBytes: nat)
    requires EndsAt(events, m, maxBytes) && EndsAt(events, n, maxBytes)
    ensures m == n
  {
    if m < n {
      GotGrows(events, m + 1, n);
    } else if n < m {
      GotGrows(events, n + 1, m);
    }
  }

  /** The application gets a body exactly when some in-time, written prefix of the stream ends
      it, is within the cap, and has the declared length; and then that prefix is the body. */
  predicate BodyIs(events: seq<Event>, n: nat, b: seq<byte>) {
    && n < |events| && Going(events, n)
    && events[n].Chunk? && !events[n].late && !events[n].more && events[n].writeOk
    && b == Got(events, n) + events[n].body
  }

  lemma ReadyIffBodyWithinBounds(events: seq<Event>, n: nat, declared: Option<nat>, maxBytes: nat, b: seq<byte>)
    requires EndsAt(events, n, maxBytes)
    ensures Verdict(events, n, declared, maxBytes) == Ready(b) <==>
      |b| <= maxBytes && (declared.Some? ==> |b| == declared.value) && exists m :: BodyIs(events, m, b)
  {
    if n < |events| && events[n].Chunk? {
      assert forall k | 0 <= k < n + 1 :: events[..n + 1][k] == events[k];
      GotSnoc(events, n);
    }
    if Verdict(events, n, declared, maxBytes) == Ready(b) {
      assert BodyIs(events, n, b);
    }
    if |b| <= maxBytes && exists m :: BodyIs(events, m, b) {
      var m :| BodyIs(events, m, b);
      assert EndsAt(events, m, maxBytes);
      EndsOnce(events, m, n, maxBytes);
    }
  }

  /** The answer at the point where the read ends, each exactly: too late, cut off, not a body, over
      the cap, not written, or of another length than declared. */
  lemma VerdictsInOrder(events: seq<Event>, n: nat, declared: Option<nat>, maxBytes: nat)
    requires EndsAt(events, n, maxBytes)
    ensures var v := Verdict(events, n, declared, maxBytes);
      var late := n == |events| || events[n].late;
      var total := if !late && events[n].Chunk? then |Got(events, n)| + |events[n].body| else 0;
      && (v == Reject(408) <==> late)
      && (v == Gone <==> !late && events[n].Disconnect?)
      && (v == Reject(413) <==> !late && events[n].Chunk? && total > maxBytes)
      && (v == Reject(503) <==> !late && events[n].Chunk? && total <= maxBytes && !events[n].writeOk)
      && (v == Reject(400) <==>
            && !late
            && (events[n].Other?
                || (events[n].Chunk? && total <= maxBytes && events[n].writeOk
                    && declared.Some? && total != declared.value)))
  {
  }

  // ----- the replay ------------------------------------------------------------------------

  const CHUNK: nat := 65536

  datatype Message = Part(body: seq<byte>, more: bool) | FromReceive

  /** How many messages carry a body of this size. */
  function Parts(size: nat): nat {
    if size == 0 then 1 else (size + CHUNK - 1) / CHUNK
  }

  function Upto(k: nat, size: nat): nat {
    if k * CHUNK <= size then k * CHUNK else size
  }

  /** The k-th message of a replay. */
  function PartAt(body: seq<byte>, k: nat): Message
    requires k < Parts(|body|)
  {
    Part(body[Upto(k, |body|)..Upto(k + 1, |body|)], k + 1 < Parts(|body|))
  }

  lemma PartsCover(size: nat, k: nat)
    requires k < Parts(size)
    ensures Upto(k, size) == k * CHUNK <= size
    ensures Upto(k + 1, size) - Upto(k, size) <= CHUNK
    ensures k + 1 < Parts(size) <==> Upto(k + 1, size) < size
    ensures k + 1 == Parts(size) ==> Upto(k + 1, size) == size
  {
    if size > 0 {
      var q := Parts(size);
      assert q * CHUNK <= size + CHUNK - 1 < q * CHUNK + CHUNK;
    }
  }

  function Replayed(body: seq<byte>, n: nat): seq<seq<byte>>
    requires n <= Parts(|body|)
  {
    seq(n, k requires 0 <= k < n => PartAt(body, k).body)
  }

  lemma {:induction false} ReplayedIsPrefix(body: seq<byte>, n: nat)
    requires n <= Parts(|body|)
    ensures Join(Replayed(body, n)) == body[..Upto(n, |body|)]
  {
    if n > 0 {
      ReplayedIsPrefix(body, n - 1);
      PartsCover(|body|, n - 1);
      assert Replayed(body, n) == Replayed(body, n - 1) + [PartAt(body, n - 1).body];
      JoinSnoc(Replayed(body, n - 1), PartAt(body, n - 1).body);
      assert body[..Upto(n - 1, |body|)] + body[Upto(n - 1, |body|)..Upto(n, |body|)] == body[..Upto(n, |body|)];
    }
  }

  /** The replayed chunks concatenate to exactly the received body, each is at most 65536 bytes,
      the last and only the last says there is no more, and there are max(1, ceil(size/65536)). */
  lemma ReplayIsFaithful(body: seq<byte>)
    ensures Join(Replayed(body, Parts(|body|))) == body
    ensures forall k | 0 <= k < Parts(|body|) ::
      |PartAt(body, k).body| <= CHUNK && (PartAt(body, k).more <==> k + 1 < Parts(|body|))
    ensures Parts(|body|) >= 1 && (Parts(|body|) - 1) * CHUNK <= |body| <= Parts(|body|) * CHUNK
    ensures |body| > 0 ==> (Parts(|body|) - 1) * CHUNK < |body|
  {
    ReplayedIsPrefix(body, Parts(|body|));
    PartsCover(|body|, Parts(|body|) - 1);
    assert body[..|body|] == body;
    forall k | 0 <= k < Parts(|body|)
      ensures |PartAt(body, k).body| <= CHUNK
    {
      PartsCover(|body|, k);
    }
  }

  // ----- the request object ----------------------------------------------------------------

  class Request {
    const maxBytes: nat
    const declared: Option<nat>
    var spool: seq<byte>
    var pos: nat
    var size: nat
    var replayed: nat
    var sentFinal: bool
    var released: bool
    var frees: nat

    constructor (maxBytes: nat, declared: Option<nat>)
      ensures this.maxBytes == maxBytes && this.declared == declared
      ensures spool == [] && pos == 0 && size == 0 && replayed == 0 && !sentFinal && !released && frees == 0
    {
      this.maxBytes, this.declared := maxBytes, declared;
      spool, pos, size, replayed, sentFinal, released, frees := [], 0, 0, 0, false, false, 0;
    }

    predicate FreedOnce()
      reads this
    {
      frees == if released then 1 else 0
    }

    /** `release`: close the spool and free the slot, the first time only. */
    method Release()
      requires FreedOnce()
      modifies this`released, this`frees
      ensures released && frees == 1
    {
      if !released {
        released := true;
        frees := frees + 1;
      }
    }

    /** The reading loop. */
    method Read(events: seq<Event>) returns (out: Outcome)
      requires spool == [] && size == 0
      modifies this`spool, this`size
      ensures exists n :: EndsAt(events, n, maxBytes) && out == Verdict(events, n, declared, maxBytes)
      ensures out.Ready? ==> spool == out.body && size == |out.body|
    {
      var i := 0;
      while true
        invariant 0 <= i <= |events| && Going(events, i)
        invariant spool == Got(events, i) && size == |spool| <= maxBytes
        decreases |events| - i
      {
        if i == |events| || events[i].late {
          assert EndsAt(events, i, maxBytes);
          return Reject(408);
        }
        match events[i] {
          case Disconnect(_) =>
            assert EndsAt(events, i, maxBytes);
            return Gone;
          case Other(_) =>
            assert EndsAt(events, i, maxBytes);
            return Reject(400);
          case Chunk(_, body, more, writeOk) =>
            assert forall k | 0 <= k < i + 1 :: events[..i + 1][k] == events[k];
            GotSnoc(events, i);
            size := size + |body|;
            if size > maxBytes {
              assert EndsAt(events, i, maxBytes);
              return Reject(413);
            }
            if !writeOk {
              assert EndsAt(events, i, maxBytes);
              return Reject(503);
            }
            spool := spool + body;
            if !more {
              assert EndsAt(events, i, maxBytes);
              if declared.Some? && size != declared.value { return Reject(400); }
              return Ready(spool);
            }
            i := i + 1;
        }
      }
    }

    /** The replay has handed out exactly its first `k` messages. */
    predicate ReplayedSoFar(k: nat)
      reads this
    {
      && size == |spool| && k <= Parts(size)
      && replayed == pos == Upto(k, size)
      && (sentFinal <==> k == Parts(size))
      && (sentFinal || size == 0 ==> released)
      && FreedOnce()
    }

    /** `replay`, the application's receive: the next message of the body, then the real one. */
    method Replay(ghost k: nat) returns (m: Message)
      requires ReplayedSoFar(k)
      modifies this`pos, this`replayed, this`sentFinal, this`released, this`frees
      ensures k < Parts(size) ==> m == PartAt(spool, k) && ReplayedSoFar(k + 1)
      ensures k == Parts(size) ==> m == FromReceive && ReplayedSoFar(k)
    {
      if sentFinal { return FromReceive; }
      PartsCover(size, k);
      var take := if |spool| - pos <= CHUNK then |spool| - pos else CHUNK;
      var chunk := if size > 0 then spool[pos..pos + take] else [];
      pos := pos + take;
      replayed := replayed + |chunk|;
      sentFinal := replayed >= size;
      if sentFinal { Release(); }
      return Part(chunk, !sentFinal);
    }

    /** From the first read to the handler's exit, with an application that asks for `calls`
        messages: it is handed the body's messages in order and then the real receive, and the
        slot is freed exactly once however the request goes. */
    method Handle(events: seq<Event>, calls: nat) returns (out: Outcome, handed: seq<Message>)
      requires spool == [] && pos == 0 && size == 0 && replayed == 0 && !sentFinal && !released && frees == 0
      modifies this
      ensures exists n :: EndsAt(events, n, maxBytes) && out == Verdict(events, n, declared, maxBytes)
      ensures frees == 1
      ensures !out.Ready? ==> handed == []
      ensures out.Ready? ==> |handed| == calls && forall k | 0 <= k < calls ::
        handed[k] == if k < Parts(|out.body|) then PartAt(out.body, k) else FromReceive
    {
      handed := [];
      out := Read(events);
      if out.Ready? {
        if size == 0 { Release(); }
        var i := 0;
        ghost var k := 0;
        while i < calls
          invariant 0 <= i <= calls && |handed| == i
          invariant spool == out.body && k == (if i <= Parts(size) then i else Parts(size)) && ReplayedSoFar(k)
          invariant forall j | 0 <= j < i ::
            handed[j] == if j < Parts(size) then PartAt(spool, j) else FromReceive
        {
          var m := Replay(k);
          handed := handed + [m];
          if k < Parts(size) { k := k + 1; }
          i := i + 1;
        }
      }
      Release();
    }
  }

  // ----- the sibling reader ----------------------------------------------------------------

  lemma PrefixIsNoLonger(chunks: seq<seq<byte>>, n: nat)
    requires n <= |chunks|
    ensures |Join(chunks[..n])| <= |Join(chunks)|
  {
    assert chunks == chunks[..n] + chunks[n..];
    JoinAppend(chunks[..n], chunks[n..]);
  }

  /** The webhook route's capped reader: the exact concatenation, if and only if the declared
      length and the streamed total are both within the cap (an empty stream has no total to
      check). `declared`: `None` without a header, `Some(None)` when it is not a number. */
  method ReadCapped(declared: Option<Option<int>>, chunks: seq<seq<byte>>, cap: int) returns (body: Option<seq<byte>>)
    ensures body.Some? <==>
      (declared.Some? ==> declared.value.Some? && declared.value.value <= cap)
      && (chunks != [] ==> |Join(chunks)| <= cap)
    ensures body.Some? ==> body.value == Join(chunks)
  {
    if declared.Some? {
      if declared.value == None || declared.value.value > cap { return None; }
    }
    var got, size, i := [], 0, 0;
    while i < |chunks|
      invariant 0 <= i <= |chunks| && got == chunks[..i] && size == |Join(got)|
      invariant i > 0 ==> size <= cap
    {
      assert chunks[..i + 1] == chunks[..i] + [chunks[i]];
      JoinSnoc(got, chunks[i]);
      size := size + |chunks[i]|;
      if size > cap {
        PrefixIsNoLonger(chunks, i + 1);
        return None;
      }
      got := got + [chunks[i]];
      i := i + 1;
    }
    assert chunks[..|chunks|] == chunks;
    return Some(Join(got));
  }
}
