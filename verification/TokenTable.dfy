/** The table that holds decoded session tokens and validated API keys side by side. */
module TokenTable {
  import opened Wrappers
  import Keys = KeyCache

  /** The verified claims of a session token. */
  datatype Claims = Claims(user: nat, role: nat, tier: nat, jti: string, exp: real)

  datatype Identity = Session(claims: Claims) | ApiKey(user: nat, scopes: set<nat>)

  /** An entry is stored under the token text, or under the digest of an API key. */
  datatype Entry = SessionEntry(claims: Claims) | KeyEntry(key: Keys.Entry)

  function Dots(s: string): nat {
    if s == "" then 0 else (if s[0] == '.' then 1 else 0) + Dots(s[1..])
  }

  /** The cached claims' expiry, as the lookup reads it: an API-key entry has none. */
  function ExpOf(e: Entry): real {
    match e
    case SessionEntry(claims) => claims.exp
    case KeyEntry(_) => 0.0
  }

  /** The outside of one request: the clocks, the revoked token ids, and what the database would
      answer for the presented key. */
  datatype World = World(mono: real, wall: real, revoked: set<string>, answer: Option<Keys.Info>)

  class Table {
    /** Signature check and claim contract of a token, without the expiry check. */
    const decode: string -> Option<Claims>
    /** Hex digest of an API key. */
    const digest: string -> string
    var entries: map<string, Entry>
    var epoch: nat

    constructor (decode: string -> Option<Claims>, digest: string -> string)
      requires forall k :: Dots(digest(k)) == 0
      ensures Valid() && entries == map[] && this.decode == decode && this.digest == digest
    {
      this.decode, this.digest := decode, digest;
      entries, epoch := map[], 0;
    }

    /** Session entries sit under three-part tokens and hold that very token's claims; API-key
        entries sit under digests, which have no dot. */
    ghost predicate Valid()
      reads this
    {
      && (forall k :: Dots(digest(k)) == 0)
      && (forall t | t in entries ::
            match entries[t]
            case SessionEntry(claims) => Dots(t) == 2 && decode(t) == Some(claims)
            case KeyEntry(_) => Dots(t) == 0)
    }

    predicate KeyServed(k: string, w: World)
      reads this
    {
      digest(k) in entries && entries[digest(k)].KeyEntry?
      && Keys.Hits(entries[digest(k)].key, w.mono, w.wall, epoch)
    }

    /** The entry is the database's own answer, under the current epoch, for 60 seconds at most and
        no longer than the key lives. */
    predicate Holds(e: Keys.Entry, w: World)
      reads this
    {
      && w.answer == Some(e.info) && e.epoch == epoch
      && w.mono < e.until <= w.mono + 60.0 && e.until <= w.mono + (e.info.expires - w.wall)
      && (e.until == w.mono + 60.0 || e.until == w.mono + (e.info.expires - w.wall))
    }

    /** `_validate_api_key`: the shared cache rule over this table. */
    method ValidateApiKey(k: string, w: World) returns (id: Option<Identity>)
      requires Valid() && 0.0 <= w.wall
      modifies this`entries
      ensures Valid()
      ensures |k| < 32 ==> id == None && entries == old(entries)
      ensures id.Some? ==> id.value.ApiKey?
      ensures |k| >= 32 && old(KeyServed(k, w)) ==>
        var i := old(entries)[digest(k)].key.info; id == Some(ApiKey(i.user, i.scopes)) && entries == old(entries)
      ensures |k| >= 32 && !old(KeyServed(k, w)) ==>
        && (id.Some? <==> w.answer.Some? && w.answer.value.expires > w.wall)
        && (id.Some? ==> id.value == ApiKey(w.answer.value.user, w.answer.value.scopes))
      ensures |k| >= 32 && !old(KeyServed(k, w)) ==>
        if id.None? then digest(k) !in entries
        else digest(k) in entries && entries[digest(k)].KeyEntry? && Holds(entries[digest(k)].key, w)
      ensures forall t | t in old(entries) && t != digest(k) :: t in entries && entries[t] == old(entries)[t]
    {
      if |k| < 32 { return None; }
      var slot := digest(k);
      if slot in entries {
        match entries[slot]
        case SessionEntry(_) =>
        case KeyEntry(e) =>
          if Keys.Hits(e, w.mono, w.wall, epoch) { return Some(ApiKey(e.info.user, e.info.scopes)); }
      }
      if w.answer == None || w.answer.value.expires <= w.wall {
        entries := entries - {slot};
        return None;
      }
      var remaining := w.answer.value.expires - w.wall;
      var until := w.mono + (if 60.0 < remaining then 60.0 else remaining);
      entries := entries[slot := KeyEntry(Keys.Entry(w.answer.value, until, epoch, w.mono, epoch))];
      return Some(ApiKey(w.answer.value.user, w.answer.value.scopes));
    }

    /** A token that decodes now: verified, unexpired and not revoked. */
    predicate Decodes(token: string, w: World) {
      && decode(token).Some? && decode(token).value.exp > w.wall
      && decode(token).value.jti !in w.revoked
    }

    /** `_validate_auth` for a bearer header. A three-part token authenticates exactly when it
        decodes now, as the identity decoded from that same token, cached or not; any other
        bearer can only be an API key, and never obtains a session identity. */
    method ValidateBearer(token: string, w: World) returns (id: Option<Identity>)
      requires Valid() && 0.0 <= w.wall
      modifies this`entries
      ensures Valid()
      ensures Dots(token) == 2 ==> (id.Some? <==> Decodes(token, w))
      ensures Dots(token) == 2 && id.Some? ==> id.value == Session(decode(token).value)
      ensures id.Some? && id.value.Session? ==> w.wall < id.value.claims.exp && id.value.claims.jti !in w.revoked
      ensures Dots(token) != 2 && id.Some? ==> id.value.ApiKey? && |token| >= 32 && token !in old(entries)
      ensures Dots(token) != 2 && token in old(entries) ==> id == None && entries == old(entries)
      ensures forall t | t in old(entries) && t != token && t != digest(token)
        :: t in entries && entries[t] == old(entries)[t]
    {
      if token in entries {
        var cached := entries[token];
        if ExpOf(cached) <= w.wall { return None; }
        match cached
        case SessionEntry(claims) =>
          if claims.jti in w.revoked { return None; }
          return Some(Session(claims));
        case KeyEntry(_) =>
          assert false;
      }
      if Dots(token) == 2 {
        var claims := decode(token);
        if claims == None || claims.value.exp <= w.wall || claims.value.jti in w.revoked { return None; }
        entries := entries[token := SessionEntry(claims.value)];
        return Some(Session(claims.value));
      }
      id := ValidateApiKey(token, w);
    }
  }

  /** A key presented twice, the first time a miss, is the same identity both times while the
      database's answer stays the same and unexpired: from the cache or not. */
  method PresentTwice(t: Table, k: string, w: World, later: World)
    returns (first: Option<Identity>, second: Option<Identity>)
    requires t.Valid() && 0.0 <= w.wall && 0.0 <= later.wall && !t.KeyServed(k, w)
    requires later.answer == w.answer
    modifies t`entries
    ensures first.Some? ==> w.answer.Some? && first.value == ApiKey(w.answer.value.user, w.answer.value.scopes)
    ensures first.Some? && w.answer.Some? && w.answer.value.expires > later.wall ==> second == first
  {
    first := t.ValidateApiKey(k, w);
    second := t.ValidateApiKey(k, later);
  }

  /** Three parts are two dots: the count adds up over a dot, and a text without one has none. */
  lemma {:induction false} DotsAddUp(a: string, b: string)
    ensures Dots(a + "." + b) == Dots(a) + 1 + Dots(b)
    ensures Dots(a) == 0 <==> '.' !in a
  {
    if a == "" {
      assert (a + "." + b)[1..] == b;
    } else {
      assert (a + "." + b)[1..] == a[1..] + "." + b && (a + "." + b)[0] == a[0];
      assert a == [a[0]] + a[1..];
      DotsAddUp(a[1..], b);
    }
  }
}
