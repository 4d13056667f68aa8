/** The client address behind trusted proxies, and the key its rate budget is held under. */
module ForwardedIp {
  import opened Wrappers
  import opened Text

  /** `[h.strip() for h in pieces if h.strip()]`. */
  function Hops(pieces: seq<string>): seq<string> {
    if pieces == [] then [] else Hop(pieces[0]) + Hops(pieces[1..])
  }

  function Hop(piece: string): seq<string> {
    if Strip(piece) != "" then [Strip(piece)] else []
  }

  lemma HopsCons(piece: string, rest: seq<string>)
    ensures Hops([piece] + rest) == Hop(piece) + Hops(rest)
  {
    assert ([piece] + rest)[1..] == rest;
  }

  lemma SumOfThree(x: seq<string>, y: seq<string>, z: seq<string>)
    ensures x + (y + z) == x + y + z
  {
  }

  lemma {:induction false} HopsAppend(a: seq<string>, b: seq<string>)
    ensures Hops(a + b) == Hops(a) + Hops(b)
  {
    if a == [] {
      assert a + b == b;
    } else {
      HopsAppend(a[1..], b);
      HopsCons(a[0], a[1..]);
      HopsCons(a[0], a[1..] + b);
      HeadOfSum(a, b);
      SumOfThree(Hop(a[0]), Hops(a[1..]), Hops(b));
    }
  }

  /** An address as a proxy writes it: something, without a comma or white space. */
  predicate Token(a: string) {
    a != "" && ',' !in a && forall c | c in a :: !IsSpace(c)
  }

  lemma {:induction false} StripPadded(before: string, a: string, after: string)
    requires AllSpace(before) && AllSpace(after) && Token(a)
    ensures Strip(before + a + after) == a
    decreases |before| + |after|
  {
    if before != "" {
      assert (before + a + after)[1..] == before[1..] + a + after;
      StripPadded(before[1..], a, after);
    } else {
      assert before + a + after == a + after;
      StripRightPadded(a, after);
    }
  }

  lemma {:induction false} StripRightPadded(a: string, after: string)
    requires AllSpace(after) && Token(a)
    ensures StripRight(a + after) == a
  {
    if after != "" {
      assert (a + after)[..|a + after| - 1] == a + after[..|after| - 1];
      StripRightPadded(a, after[..|after| - 1]);
    } else {
      assert a + after == a;
    }
  }

  // ----- the walk --------------------------------------------------------------------------

  /** The first of `reversed(hops)` that is not a trusted proxy. */
  function LastOutside(hops: seq<string>, proxies: set<string>): Option<string> {
    if hops == [] then None
    else if hops[|hops| - 1] !in proxies then Some(hops[|hops| - 1])
    else LastOutside(hops[..|hops| - 1], proxies)
  }

  /** `get_trusted_client_ip`: `peer` is the address of the connection, `header` the forwarded chain. */
  function ClientIp(peer: Option<string>, header: Option<string>, proxies: set<string>): Option<string> {
    if peer == None || peer.value == "" then None
    else if peer.value !in proxies then peer
    else if header == None || header.value == "" then peer
    else
      var hop := LastOutside(Hops(SplitOn(',', header.value)), proxies);
      if hop == None then peer else hop
  }

  /** Loopback and a comma-separated list from the environment. */
  function TrustedProxies(extra: string): set<string> {
    {"127.0.0.1", "::1"} + set h | h in Hops(SplitOn(',', extra))
  }

  /** Without a list in the environment, loopback alone is trusted, in both its spellings. */
  lemma LoopbackIsTrusted(extra: string)
    ensures TrustedProxies("") == {"127.0.0.1", "::1"}
    ensures TrustedProxies("") <= TrustedProxies(extra)
  {
    assert SplitOn(',', "") == [""] && Strip("") == "" && Hops([""]) == Hop("") + Hops([]);
  }

  /** No answer exactly when there is no peer. */
  lemma NoAnswerIff(peer: Option<string>, header: Option<string>, proxies: set<string>)
    ensures ClientIp(peer, header, proxies) == None <==> peer == None || peer == Some("")
  {
  }

  /** `ip` stands at `i`, outside the proxies, and only proxies follow it. */
  predicate LastAt(hops: seq<string>, proxies: set<string>, ip: string, i: int) {
    0 <= i < |hops| && hops[i] == ip && ip !in proxies && forall j | i < j < |hops| :: hops[j] in proxies
  }

  /** A list in the environment trusts loopback and what its pieces trust, padding aside. */
  lemma TrustedListIsItsPieces(left: string, before: string, address: string, after: string)
    requires Token(address) && AllSpace(before) && AllSpace(after)
    ensures TrustedProxies(left + "," + (before + address + after)) == TrustedProxies(left) + {address}
  {
    var piece := before + address + after;
    SplitAt(',', left, piece);
    SplitWithout(',', piece);
    StripPadded(before, address, after);
    HopsAppend(SplitOn(',', left), [piece]);
    assert Hops([piece]) == [address] + Hops([]);
  }

  lemma {:induction false} LastOutsideIff(hops: seq<string>, proxies: set<string>, ip: string)
    ensures LastOutside(hops, proxies) == Some(ip) <==> exists i :: LastAt(hops, proxies, ip, i)
    ensures LastOutside(hops, proxies) == None <==> forall h | h in hops :: h in proxies
  {
    if hops != [] {
      var n := |hops| - 1;
      var front := hops[..n];
      assert hops == front + [hops[n]];
      LastOutsideIff(front, proxies, ip);
      if hops[n] in proxies {
        forall i ensures LastAt(hops, proxies, ip, i) <==> LastAt(front, proxies, ip, i) {}
      } else if hops[n] == ip {
        assert LastAt(hops, proxies, ip, n);
      }
    }
  }

  /** Behind a trusted peer the answer is the right-most forwarded address that is not itself a
      proxy, or the peer when every one is. */
  lemma AnswerIsTheLastOutsideHop(peer: string, header: string, proxies: set<string>, ip: string, hops: seq<string>)
    requires peer != "" && peer in proxies && hops == Hops(SplitOn(',', header))
    ensures ClientIp(Some(peer), Some(header), proxies) == Some(ip) <==>
      (exists i :: LastAt(hops, proxies, ip, i)) || (ip == peer && forall h | h in hops :: h in proxies)
  {
    LastOutsideIff(hops, proxies, ip);
    if header == "" {
      assert SplitOn(',', "") == [""] && Strip("") == "" && Hops([""]) == Hop("") + Hops([]);
      assert hops == [];
    }
  }

  lemma {:induction false} LastOutsideSuffix(a: seq<string>, b: seq<string>, proxies: set<string>)
    ensures LastOutside(a + b, proxies) ==
      if LastOutside(b, proxies) != None then LastOutside(b, proxies) else LastOutside(a, proxies)
  {
    if b == [] {
      assert a + b == a;
    } else {
      assert (a + b)[..|a + b| - 1] == a + b[..|b| - 1];
      LastOutsideSuffix(a, b[..|b| - 1], proxies);
    }
  }

  /** Nothing to the left of an address outside the proxies can change the answer. */
  lemma LeftOfAnOutsideHopIsIgnored(peer: Option<string>, forged: string, genuine: string, proxies: set<string>)
    requires exists h :: h in Hops(SplitOn(',', genuine)) && h !in proxies
    ensures ClientIp(peer, Some(forged + "," + genuine), proxies) == ClientIp(peer, Some(genuine), proxies)
  {
    SplitAt(',', forged, genuine);
    HopsAppend(SplitOn(',', forged), SplitOn(',', genuine));
    LastOutsideSuffix(Hops(SplitOn(',', forged)), Hops(SplitOn(',', genuine)), proxies);
    LastOutsideIff(Hops(SplitOn(',', genuine)), proxies, "");
    assert Hops(SplitOn(',', "")) == [] by { assert SplitOn(',', "") == [""] && Strip("") == ""; }
  }

  // ----- a chain of proxies ----------------------------------------------------------------

  /** A proxy on the way: its own address, and the white space it writes around what it appends. */
  datatype Proxy = Proxy(address: string, before: string, after: string)

  predicate WellBehaved(p: Proxy, proxies: set<string>) {
    Token(p.address) && p.address in proxies && AllSpace(p.before) && AllSpace(p.after)
  }

  /** The proxy appends the peer it saw to whatever header it received. */
  function Append(header: Option<string>, peer: string, p: Proxy): Option<string> {
    Some(if header == None then p.before + peer + p.after else header.value + "," + (p.before + peer + p.after))
  }

  /** The peer the application sees and the header it receives, after the proxies in turn. */
  function Forwarded(client: string, header: Option<string>, chain: seq<Proxy>): (string, Option<string>) {
    if chain == [] then (client, header)
    else
      var n := |chain| - 1;
      var (peer, h) := Forwarded(client, header, chain[..n]);
      (chain[n].address, Append(h, peer, chain[n]))
  }

  function HopsOf(header: Option<string>): seq<string> {
    if header == None then [] else Hops(SplitOn(',', header.value))
  }

  lemma AppendAddsTheHop(header: Option<string>, peer: string, p: Proxy, proxies: set<string>)
    requires Token(peer) && WellBehaved(p, proxies)
    ensures HopsOf(Append(header, peer, p)) == HopsOf(header) + [peer]
    ensures Append(header, peer, p).value != ""
  {
    var piece := p.before + peer + p.after;
    SplitWithout(',', piece);
    StripPadded(p.before, peer, p.after);
    assert Hops([piece]) == [peer] + Hops([]);
    if header != None {
      SplitAt(',', header.value, piece);
      HopsAppend(SplitOn(',', header.value), [piece]);
    }
  }

  /** The header ends with the client followed by all proxies but the last. */
  lemma {:induction false} ChainIsAppended(
    client: string, header: Option<string>, chain: seq<Proxy>, proxies: set<string>)
    requires Token(client) && client !in proxies && forall p | p in chain :: WellBehaved(p, proxies)
    ensures var (peer, h) := Forwarded(client, header, chain);
      && Token(peer)
      && (chain == [] ==> peer == client)
      && (chain != [] ==>
            peer in proxies && h != None && h.value != "" && LastOutside(HopsOf(h), proxies) == Some(client))
  {
    if chain != [] {
      var n := |chain| - 1;
      assert chain[n] in chain && forall p | p in chain[..n] :: p in chain;
      ChainIsAppended(client, header, chain[..n], proxies);
      var (peer, h) := Forwarded(client, header, chain[..n]);
      AppendAddsTheHop(h, peer, chain[n], proxies);
      var hops := HopsOf(h) + [peer];
      assert hops[..|hops| - 1] == HopsOf(h);
    }
  }

  /** Whatever header the client sends, and however many trusted proxies it passes, the answer is
      the address the first of them saw it under. */
  lemma ForgedHeaderCannotHideTheClient(client: string, header: Option<string>, chain: seq<Proxy>, proxies: set<string>)
    requires Token(client) && client !in proxies && forall p | p in chain :: WellBehaved(p, proxies)
    ensures var (peer, h) := Forwarded(client, header, chain);
      ClientIp(Some(peer), h, proxies) == Some(client)
  {
    ChainIsAppended(client, header, chain, proxies);
  }

  lemma {:induction false} LongerThanAll(texts: set<string>) returns (n: nat)
    ensures forall s | s in texts :: |s| < n
  {
    n := 0;
    if texts != {} {
      var s :| s in texts;
      n := LongerThanAll(texts - {s});
      n := if n <= |s| then |s| + 1 else n;
    }
  }

  lemma SomeTokenOutside(proxies: set<string>) returns (a: string)
    ensures Token(a) && a !in proxies
  {
    var n := LongerThanAll(proxies);
    a := seq(n + 1, i => '1');
  }

  /** The header has no effect on the answer exactly when the peer is not a trusted proxy. */
  lemma HeaderIgnoredIff(peer: string, proxies: set<string>)
    requires peer != ""
    ensures (forall header :: ClientIp(Some(peer), header, proxies) == Some(peer)) <==> peer !in proxies
  {
    if peer in proxies {
      var a := SomeTokenOutside(proxies);
      SplitWithout(',', a);
      StripPadded("", a, "");
      assert "" + a + "" == a;
      assert Hops([a]) == [a] + Hops([]);
      assert ClientIp(Some(peer), Some(a), proxies) == Some(a);
    }
  }

  // ----- the rate key ----------------------------------------------------------------------

  const TWO_TO_32 := 0x1_0000_0000
  const TWO_TO_64 := 0x1_0000_0000_0000_0000
  const TWO_TO_128 := TWO_TO_64 * TWO_TO_64

  /** What `ipaddress.ip_address` makes of a text. */
  datatype Address =
    | V4(n: nat)
    | V6(n: nat)
    | NotAnAddress

  predicate InRange(a: Address) {
    match a
    case V4(n) => n < TWO_TO_32
    case V6(n) => n < TWO_TO_128
    case NotAnAddress => false
  }

  /** The printed key: an IPv4 host, an IPv6 /64 network by its base address, or the text itself. */
  datatype Key = Host(n: nat) | Network(base: nat) | Text(ip: string)

  function Mapped(n: nat): Option<nat> {
    if n / TWO_TO_32 == 0xFFFF then Some(n % TWO_TO_32) else None
  }

  /** `rate_key_for_ip`: `parse` is the address parser. */
  function RateKey(ip: Option<string>, parse: string -> Address): Option<Key> {
    if ip == None then None
    else if ip.value == "" then Some(Text(""))
    else
      match parse(Strip(ip.value))
      case NotAnAddress => Some(Text(ip.value))
      case V6(n) =>
        if Mapped(n) != None then Some(Host(Mapped(n).value)) else Some(Network(n - n % TWO_TO_64))
      case V4(n) => Some(Host(n))
  }

  /** An IPv4 address as `::ffff:a.b.c.d` (section 2.5.5.2 of RFC 4291); others are themselves. */
  function AsV6(a: Address): nat {
    if a.V4? then 0xFFFF_0000_0000 + a.n else if a.V6? then a.n else 0
  }

  lemma SameBase(a: nat, b: nat)
    ensures a - a % TWO_TO_64 == b - b % TWO_TO_64 <==> a / TWO_TO_64 == b / TWO_TO_64
  {
  }

  /** Written as IPv6 addresses, two share a budget exactly when both are in the IPv4-mapped block
      and equal, or neither is and their upper 64 bits agree. */
  lemma SameBudgetIff(a: string, b: string, parse: string -> Address)
    requires a != "" && b != "" && InRange(parse(Strip(a))) && InRange(parse(Strip(b)))
    ensures var x := AsV6(parse(Strip(a))); var y := AsV6(parse(Strip(b)));
      RateKey(Some(a), parse) == RateKey(Some(b), parse) <==>
        if 0xFFFF_0000_0000 <= x <= 0xFFFF_FFFF_FFFF || 0xFFFF_0000_0000 <= y <= 0xFFFF_FFFF_FFFF then x == y
        else x / 0x1_0000_0000_0000_0000 == y / 0x1_0000_0000_0000_0000
  {
    SameBase(AsV6(parse(Strip(a))), AsV6(parse(Strip(b))));
  }

  /** No address, no key; what is no address is its own key, and shares it with nothing else. */
  lemma OtherTextsKeepToThemselves(a: string, b: string, parse: string -> Address)
    requires a != "" && b != "" && parse(Strip(a)) == NotAnAddress
    ensures RateKey(None, parse) == None && RateKey(Some(""), parse) == Some(Text(""))
    ensures RateKey(Some(a), parse) == RateKey(Some(b), parse) <==> a == b
  {
    if a == b { assert RateKey(Some(a), parse) == RateKey(Some(b), parse); }
  }
}
