/** The byte stream a profile's digest is computed over: a length-prefixed list of the files in
    path order, and the review gate that compares digests. */
module ProfileDigest {
  import opened Wrappers
  import opened Bytes

  /** One file as it is hashed: posix name, executable bit, content. */
  datatype Entry = Entry(name: seq<byte>, exec: bool, content: seq<byte>)

  // ----- fixed-width big-endian lengths ----------------------------------------------------

  function Pow256(k: nat): (p: nat)
    ensures p > 0
  {
    if k == 0 then 1 else 256 * Pow256(k - 1)
  }

  function ToBytes(n: nat, k: nat): (r: seq<byte>)
    ensures |r| == k
  {
    if k == 0 then [] else ToBytes(n / 256, k - 1) + [n % 256]
  }

  function FromBytes(s: seq<byte>): nat {
    if s == [] then 0 else 256 * FromBytes(s[..|s| - 1]) + s[|s| - 1]
  }

  lemma {:induction false} FromToBytes(n: nat, k: nat)
    requires n < Pow256(k)
    ensures FromBytes(ToBytes(n, k)) == n
  {
    if k > 0 {
      FromToBytes(n / 256, k - 1);
      assert ToBytes(n, k)[..k - 1] == ToBytes(n / 256, k - 1);
    }
  }

  lemma {:induction false} ToFromBytes(s: seq<byte>)
    ensures FromBytes(s) < Pow256(|s|) && ToBytes(FromBytes(s), |s|) == s
  {
    if s != [] {
      ToFromBytes(s[..|s| - 1]);
    }
  }

  // ----- printer and parser ----------------------------------------------------------------

  /** A length fits its eight bytes. */
  predicate Fits(n: nat) {
    n < Pow256(8)
  }

  predicate Printable(e: Entry) {
    Fits(|e.name|) && Fits(|e.content|)
  }

  function PrintBlock(s: seq<byte>): seq<byte> {
    ToBytes(|s|, 8) + s
  }

  function PrintEntry(e: Entry): seq<byte> {
    PrintBlock(e.name) + [if e.exec then 1 else 0] + PrintBlock(e.content)
  }

  function Print(es: seq<Entry>): seq<byte> {
    if es == [] then [] else PrintEntry(es[0]) + Print(es[1..])
  }

  /** One length-prefixed block and what follows it. */
  function ParseBlock(s: seq<byte>): (r: Option<(seq<byte>, seq<byte>)>)
    ensures r.Some? ==> |r.value.1| + 8 <= |s|
  {
    if |s| < 8 then None
    else
      var n := FromBytes(s[..8]);
      if |s| - 8 < n then None else Some((s[8..8 + n], s[8 + n..]))
  }

  function ParseEntry(s: seq<byte>): (r: Option<(Entry, seq<byte>)>)
    ensures r.Some? ==> |r.value.1| < |s|
  {
    var a := ParseBlock(s);
    if a == None || a.value.1 == [] || a.value.1[0] > 1 then None
    else
      var b := ParseBlock(a.value.1[1..]);
      if b == None then None
      else Some((Entry(a.value.0, a.value.1[0] == 1, b.value.0), b.value.1))
  }

  function Parse(s: seq<byte>): Option<seq<Entry>>
    decreases |s|
  {
    if s == [] then Some([])
    else
      var e := ParseEntry(s);
      if e == None then None
      else
        var rest := Parse(e.value.1);
        if rest == None then None else Some([e.value.0] + rest.value)
  }

  lemma ParsePrintBlock(s: seq<byte>, rest: seq<byte>)
    requires Fits(|s|)
    ensures ParseBlock(PrintBlock(s) + rest) == Some((s, rest))
  {
    var all := PrintBlock(s) + rest;
    FromToBytes(|s|, 8);
    assert all[..8] == ToBytes(|s|, 8);
    assert all[8..8 + |s|] == s && all[8 + |s|..] == rest;
  }

  lemma PrintParseBlock(s: seq<byte>)
    requires ParseBlock(s).Some?
    ensures Fits(|ParseBlock(s).value.0|)
    ensures PrintBlock(ParseBlock(s).value.0) + ParseBlock(s).value.1 == s
  {
    ToFromBytes(s[..8]);
  }

  lemma ParsePrintEntry(e: Entry, rest: seq<byte>)
    requires Printable(e)
    ensures ParseEntry(PrintEntry(e) + rest) == Some((e, rest))
  {
    var flag: byte := if e.exec then 1 else 0;
    var tail := [flag] + (PrintBlock(e.content) + rest);
    assert PrintEntry(e) + rest == PrintBlock(e.name) + tail;
    ParsePrintBlock(e.name, tail);
    assert tail[1..] == PrintBlock(e.content) + rest;
    ParsePrintBlock(e.content, rest);
  }

  /** The parser undoes the printer on every list of files whose lengths fit eight bytes. */
  lemma {:induction false} ParseUndoesPrint(es: seq<Entry>)
    requires forall e | e in es :: Printable(e)
    ensures Parse(Print(es)) == Some(es)
  {
    if es != [] {
      ParsePrintEntry(es[0], Print(es[1..]));
      ParseUndoesPrint(es[1..]);
      assert es == [es[0]] + es[1..];
    }
  }

  lemma EntryFromBlocks(s: seq<byte>, name: seq<byte>, tail: seq<byte>, content: seq<byte>, rest: seq<byte>)
    requires tail != [] && tail[0] <= 1
    requires PrintBlock(name) + tail == s && PrintBlock(content) + rest == tail[1..]
    ensures PrintEntry(Entry(name, tail[0] == 1, content)) + rest == s
  {
    Glue(PrintBlock(name), tail, PrintBlock(content), rest);
  }

  lemma PrintParseEntry(s: seq<byte>)
    requires ParseEntry(s).Some?
    ensures PrintEntry(ParseEntry(s).value.0) + ParseEntry(s).value.1 == s
  {
    var (name, tail) := ParseBlock(s).value;
    var (content, rest) := ParseBlock(tail[1..]).value;
    PrintParseBlock(s);
    PrintParseBlock(tail[1..]);
    EntryFromBlocks(s, name, tail, content, rest);
  }

  /** The printer undoes the parser: a stream has at most one reading, and it is canonical. */
  lemma {:induction false} PrintUndoesParse(s: seq<byte>)
    requires Parse(s).Some?
    ensures Print(Parse(s).value) == s
    decreases |s|
  {
    if s != [] {
      var (e, rest) := ParseEntry(s).value;
      PrintParseEntry(s);
      PrintUndoesParse(rest);
      PrintCons(e, Parse(rest).value);
    }
  }

  lemma PrintCons(e: Entry, es: seq<Entry>)
    ensures Print([e] + es) == PrintEntry(e) + Print(es)
  {
    assert ([e] + es)[1..] == es;
  }

  /** Distinct inventories give distinct byte streams. */
  lemma DistinctInventoriesDistinctStreams(a: seq<Entry>, b: seq<Entry>)
    requires (forall e | e in a :: Printable(e)) && (forall e | e in b :: Printable(e))
    requires Print(a) == Print(b)
    ensures a == b
  {
    ParseUndoesPrint(a);
    ParseUndoesPrint(b);
  }

  // ----- path order ------------------------------------------------------------------------

  type Path = seq<seq<byte>>

  /** Lexicographic order of byte strings. */
  predicate BytesBelow(a: seq<byte>, b: seq<byte>) {
    if b == [] then false
    else if a == [] then true
    else a[0] < b[0] || (a[0] == b[0] && BytesBelow(a[1..], b[1..]))
  }

  /** Paths compare component by component. */
  predicate PathBelow(a: Path, b: Path) {
    if b == [] then false
    else if a == [] then true
    else BytesBelow(a[0], b[0]) || (a[0] == b[0] && PathBelow(a[1..], b[1..]))
  }

  /** The order of byte strings by their first difference: the one that ends there, or has the
      smaller byte, comes first. */
  predicate DiffersAt(a: seq<byte>, b: seq<byte>, k: nat) {
    k <= |a| && k < |b| && a[..k] == b[..k] && (k == |a| || a[k] < b[k])
  }

  lemma {:induction false} BytesBelowIff(a: seq<byte>, b: seq<byte>)
    ensures BytesBelow(a, b) <==> exists k: nat :: DiffersAt(a, b, k)
  {
    if a == [] && b != [] {
      assert DiffersAt(a, b, 0);
    } else if a != [] && b != [] {
      BytesBelowIff(a[1..], b[1..]);
      if a[0] < b[0] { assert DiffersAt(a, b, 0); }
      forall k: nat | k > 0 ensures DiffersAt(a, b, k) <==> a[0] == b[0] && DiffersAt(a[1..], b[1..], k - 1) {
        FirstByte(a, b, k);
      }
      if a[0] == b[0] && BytesBelow(a[1..], b[1..]) {
        var k: nat :| DiffersAt(a[1..], b[1..], k);
        assert DiffersAt(a, b, k + 1);
      }
      if k: nat :| DiffersAt(a, b, k) {
        if k > 0 { assert DiffersAt(a[1..], b[1..], k - 1); }
      }
    }
  }

  lemma FirstByte(a: seq<byte>, b: seq<byte>, k: nat)
    requires a != [] && b != [] && k > 0
    ensures DiffersAt(a, b, k) <==> a[0] == b[0] && DiffersAt(a[1..], b[1..], k - 1)
  {
    if k <= |a| && k < |b| {
      assert a[..k] == [a[0]] + a[1..][..k - 1] && b[..k] == [b[0]] + b[1..][..k - 1];
      assert a[1..][..k - 1] == a[..k][1..] && b[1..][..k - 1] == b[..k][1..];
      assert a[..k][0] == a[0] && b[..k][0] == b[0];
    }
  }

  /** Paths by their first different component; a directory comes before what is in it. */
  predicate PathDiffersAt(a: Path, b: Path, k: nat) {
    k <= |a| && k < |b| && a[..k] == b[..k] && (k == |a| || BytesBelow(a[k], b[k]))
  }

  lemma {:induction false} PathBelowIff(a: Path, b: Path)
    ensures PathBelow(a, b) <==> exists k: nat :: PathDiffersAt(a, b, k)
  {
    if a == [] && b != [] {
      assert PathDiffersAt(a, b, 0);
    } else if a != [] && b != [] {
      PathBelowIff(a[1..], b[1..]);
      if BytesBelow(a[0], b[0]) { assert PathDiffersAt(a, b, 0); }
      forall k: nat | k > 0 ensures PathDiffersAt(a, b, k) <==> a[0] == b[0] && PathDiffersAt(a[1..], b[1..], k - 1) {
        FirstComponents(a, b, k);
      }
      if a[0] == b[0] && PathBelow(a[1..], b[1..]) {
        var k: nat :| PathDiffersAt(a[1..], b[1..], k);
        assert PathDiffersAt(a, b, k + 1);
      }
      if k: nat :| PathDiffersAt(a, b, k) {
        if k > 0 { assert PathDiffersAt(a[1..], b[1..], k - 1); }
      }
    }
  }

  lemma FirstComponents(a: Path, b: Path, k: nat)
    requires a != [] && b != [] && k > 0
    ensures PathDiffersAt(a, b, k) <==> a[0] == b[0] && PathDiffersAt(a[1..], b[1..], k - 1)
  {
    if k <= |a| && k < |b| {
      assert a[..k] == [a[0]] + a[1..][..k - 1] && b[..k] == [b[0]] + b[1..][..k - 1];
      assert a[1..][..k - 1] == a[..k][1..] && b[1..][..k - 1] == b[..k][1..];
      assert a[..k][0] == a[0] && b[..k][0] == b[0];
    }
  }

  lemma BytesOrder(a: seq<byte>, b: seq<byte>, c: seq<byte>)
    ensures !BytesBelow(a, a)
    ensures BytesBelow(a, b) || a == b || BytesBelow(b, a)
    ensures BytesBelow(a, b) && BytesBelow(b, c) ==> BytesBelow(a, c)
  {
    if a != [] && b != [] && c != [] {
      BytesOrder(a[1..], b[1..], c[1..]);
      assert a == [a[0]] + a[1..] && b == [b[0]] + b[1..];
    } else if a != [] && b != [] {
      BytesOrder(a[1..], b[1..], c);
      assert a == [a[0]] + a[1..] && b == [b[0]] + b[1..];
    } else if a != [] {
      BytesOrder(a[1..], b, c);
    }
  }

  lemma PathOrder(a: Path, b: Path, c: Path)
    ensures !PathBelow(a, a)
    ensures PathBelow(a, b) || a == b || PathBelow(b, a)
    ensures PathBelow(a, b) && PathBelow(b, c) ==> PathBelow(a, c)
  {
    if a != [] && b != [] && c != [] {
      PathOrder(a[1..], b[1..], c[1..]);
      BytesOrder(a[0], b[0], c[0]);
      BytesOrder(a[0], a[0], a[0]);
      assert a == [a[0]] + a[1..] && b == [b[0]] + b[1..];
    } else if a != [] && b != [] {
      PathOrder(a[1..], b[1..], c);
      BytesOrder(a[0], b[0], a[0]);
      assert a == [a[0]] + a[1..] && b == [b[0]] + b[1..];
    } else if a != [] {
      PathOrder(a[1..], b, c);
      BytesOrder(a[0], a[0], a[0]);
    }
  }

  // ----- the inventory ---------------------------------------------------------------------

  datatype File = File(path: Path, exec: bool, content: seq<byte>)

  predicate Sorted(fs: seq<File>) {
    forall i, j | 0 <= i < j < |fs| :: PathBelow(fs[i].path, fs[j].path)
  }

  predicate DistinctPaths(fs: seq<File>) {
    forall i, j | 0 <= i < j < |fs| :: fs[i].path != fs[j].path
  }

  function Insert(f: File, fs: seq<File>): seq<File> {
    if fs == [] then [f]
    else if PathBelow(f.path, fs[0].path) then [f] + fs
    else [fs[0]] + Insert(f, fs[1..])
  }

  function Sort(fs: seq<File>): seq<File> {
    if fs == [] then [] else Insert(fs[0], Sort(fs[1..]))
  }

  lemma {:induction false} InsertAdds(f: File, fs: seq<File>)
    ensures multiset(Insert(f, fs)) == multiset(fs) + multiset{f}
    ensures forall g | g in Insert(f, fs) :: g == f || g in fs
  {
    if fs != [] && !PathBelow(f.path, fs[0].path) {
      InsertAdds(f, fs[1..]);
      assert fs == [fs[0]] + fs[1..];
    }
  }

  lemma SortedCons(f: File, fs: seq<File>)
    requires Sorted(fs) && forall g | g in fs :: PathBelow(f.path, g.path)
    ensures Sorted([f] + fs)
  {
  }

  lemma {:induction false} InsertSorts(f: File, fs: seq<File>)
    requires Sorted(fs) && forall g | g in fs :: g.path != f.path
    ensures Sorted(Insert(f, fs))
  {
    if fs != [] {
      var below := PathBelow(f.path, fs[0].path);
      forall g | g in fs && below ensures PathBelow(f.path, g.path) {
        if g != fs[0] { PathOrder(f.path, fs[0].path, g.path); }
      }
      if below {
        SortedCons(f, fs);
      } else {
        InsertSorts(f, fs[1..]);
        InsertAdds(f, fs[1..]);
        PathOrder(f.path, fs[0].path, f.path);
        SortedCons(fs[0], Insert(f, fs[1..]));
      }
    }
  }

  lemma {:induction false} SortSorts(fs: seq<File>)
    requires DistinctPaths(fs)
    ensures Sorted(Sort(fs)) && multiset(Sort(fs)) == multiset(fs)
  {
    if fs != [] {
      SortSorts(fs[1..]);
      assert fs == [fs[0]] + fs[1..];
      forall g | g in Sort(fs[1..]) ensures g.path != fs[0].path {
        assert g in multiset(fs[1..]);
      }
      InsertSorts(fs[0], Sort(fs[1..]));
      InsertAdds(fs[0], Sort(fs[1..]));
    }
  }

  /** The head of a sorted list is below or equal to every element. */
  lemma HeadIsLeast(a: seq<File>, f: File)
    requires Sorted(a) && f in a
    ensures f == a[0] || PathBelow(a[0].path, f.path)
  {
  }

  lemma SameHead(a: seq<File>, b: seq<File>)
    requires Sorted(a) && Sorted(b) && a != [] && b != [] && b[0] in a && a[0] in b
    ensures a[0] == b[0]
  {
    HeadIsLeast(a, b[0]);
    HeadIsLeast(b, a[0]);
    PathOrder(a[0].path, b[0].path, a[0].path);
  }

  lemma SameTails(a: seq<File>, b: seq<File>)
    requires a != [] && b != [] && a[0] == b[0]
    ensures multiset(a) == multiset(b) ==> multiset(a[1..]) == multiset(b[1..])
    ensures a[1..] == b[1..] ==> a == b
  {
    assert a == [a[0]] + a[1..] && b == [b[0]] + b[1..];
    assert multiset(a[1..]) == multiset(a) - multiset{a[0]};
    assert multiset(b[1..]) == multiset(b) - multiset{b[0]};
  }

  lemma {:induction false} SortedIsUnique(a: seq<File>, b: seq<File>)
    requires Sorted(a) && Sorted(b) && multiset(a) == multiset(b)
    ensures a == b
  {
    assert |a| == |multiset(a)| == |b|;
    if a != [] {
      assert a[0] in multiset(b) && b[0] in multiset(a);
      SameHead(a, b);
      SameTails(a, b);
      SortedIsUnique(a[1..], b[1..]);
    }
  }

  function Posix(p: Path): seq<byte> {
    if p == [] then [] else if |p| == 1 then p[0] else p[0] + [47] + Posix(p[1..])
  }

  /** A directory entry's name: not empty, no slash. */
  predicate NamesOk(p: Path) {
    forall i | 0 <= i < |p| :: p[i] != [] && 47 !in p[i]
  }

  lemma FirstComponent(x: seq<byte>, y: seq<byte>, r: seq<byte>, q: seq<byte>)
    requires 47 !in x && 47 !in y && x + r == y + q
    requires (r == [] || r[0] == 47) && (q == [] || q[0] == 47)
    ensures x == y && r == q
  {
    var s := x + r;
    assert r != [] ==> s[|x|] == 47;
    assert q != [] ==> s[|y|] == 47;
    assert y == s[..|y|] && x == s[..|x|];
    assert r == s[|x|..] && q == s[|y|..];
  }

  /** What follows the first component. */
  function Tail(p: Path): (r: seq<byte>)
    requires p != []
    ensures r == [] || r[0] == 47
  {
    if |p| == 1 then [] else [47] + Posix(p[1..])
  }

  lemma HeadAndTail(p: Path)
    requires p != [] && NamesOk(p)
    ensures Posix(p) == p[0] + Tail(p) && Posix(p) != [] && 47 !in p[0]
    ensures |p| > 1 ==> NamesOk(p[1..]) && Tail(p)[1..] == Posix(p[1..])
  {
    if |p| > 1 { assert ([47] + Posix(p[1..]))[1..] == Posix(p[1..]); }
  }

  lemma SameHeadAndTail(a: Path, b: Path)
    requires a != [] && b != [] && a[0] == b[0] && a[1..] == b[1..]
    ensures a == b
  {
    assert a == [a[0]] + a[1..] && b == [b[0]] + b[1..];
  }

  /** The written name determines the path. */
  lemma {:induction false} PosixIsInjective(a: Path, b: Path)
    requires NamesOk(a) && NamesOk(b) && Posix(a) == Posix(b)
    ensures a == b
  {
    if a != [] { HeadAndTail(a); }
    if b != [] { HeadAndTail(b); }
    if a != [] && b != [] {
      FirstComponent(a[0], b[0], Tail(a), Tail(b));
      if |a| > 1 {
        PosixIsInjective(a[1..], b[1..]);
        SameHeadAndTail(a, b);
      }
    }
  }

  function EntryOf(f: File): Entry {
    Entry(Posix(f.path), f.exec, f.content)
  }

  function Entries(fs: seq<File>): (r: seq<Entry>)
    ensures |r| == |fs| && forall i | 0 <= i < |fs| :: r[i] == EntryOf(fs[i])
  {
    if fs == [] then [] else [EntryOf(fs[0])] + Entries(fs[1..])
  }

  /** The hashed bytes of a directory listed in any order. */
  function Stream(fs: seq<File>): seq<byte> {
    Print(Entries(Sort(fs)))
  }

  lemma {:induction false} PrintSnoc(es: seq<Entry>, e: Entry)
    ensures Print(es + [e]) == Print(es) + PrintEntry(e)
  {
    if es == [] {
      PrintCons(e, []);
      assert es + [e] == [e] + [];
    } else {
      PrintSnoc(es[1..], e);
      PrintCons(es[0], es[1..] + [e]);
      PrintCons(es[0], es[1..]);
      assert es + [e] == [es[0]] + (es[1..] + [e]) && es == [es[0]] + es[1..];
    }
  }

  lemma PrintNext(es: seq<Entry>, i: nat)
    requires i < |es|
    ensures Print(es[..i + 1]) == Print(es[..i]) + PrintEntry(es[i])
  {
    PrintSnoc(es[..i], es[i]);
    assert es[..i + 1] == es[..i] + [es[i]];
  }

  lemma FeedsMakeAnEntry(es: seq<Entry>, i: nat, sofar: seq<byte>, a: seq<byte>, b: seq<byte>, c: seq<byte>)
    requires i < |es| && sofar == Print(es[..i])
    requires a == PrintBlock(es[i].name) && b == [if es[i].exec then 1 else 0] && c == PrintBlock(es[i].content)
    ensures sofar + a + b + c == Print(es[..i + 1])
  {
    PrintNext(es, i);
    Associate(sofar, a, b, c);
    Associate([], a, b, c);
  }

  /** `inventory`: the loop feeds the digest block by block and collects the names. */
  method Inventory(listing: seq<File>) returns (hashed: seq<byte>, names: seq<seq<byte>>)
    ensures hashed == Stream(listing)
    ensures |names| == |Sort(listing)| && forall i | 0 <= i < |names| :: names[i] == Posix(Sort(listing)[i].path)
  {
    var paths := Sort(listing);
    ghost var all := Entries(paths);
    hashed, names := [], [];
    var i := 0;
    while i < |paths|
      invariant 0 <= i <= |paths|
      invariant hashed == Print(all[..i])
      invariant |names| == i && forall j | 0 <= j < i :: names[j] == Posix(paths[j].path)
    {
      var path := paths[i];
      assert all[i] == EntryOf(path);
      var name, raw := Posix(path.path), path.content;
      var first := ToBytes(|name|, 8) + name;
      var bit: seq<byte> := [if path.exec then 1 else 0];
      var last := ToBytes(|raw|, 8) + raw;
      FeedsMakeAnEntry(all, i, hashed, first, bit, last);
      hashed := hashed + first + bit + last;
      names := names + [name];
      i := i + 1;
    }
    assert all[..i] == all;
  }

  /** The stream does not depend on the directory's enumeration order. */
  lemma StreamIgnoresEnumerationOrder(a: seq<File>, b: seq<File>)
    requires DistinctPaths(a) && DistinctPaths(b) && multiset(a) == multiset(b)
    ensures Stream(a) == Stream(b)
  {
    SortSorts(a);
    SortSorts(b);
    SortedIsUnique(Sort(a), Sort(b));
  }

  /** The review gate: the owner supplied exactly this digest. `hash` is the digest function. */
  predicate Approved(hash: seq<byte> -> nat, expected: Option<nat>, listing: seq<File>) {
    expected == Some(hash(Stream(listing)))
  }

  /** Files the operating system can hold: real names, lengths that fit eight bytes. */
  predicate Storable(fs: seq<File>) {
    forall f | f in fs :: NamesOk(f.path) && Printable(EntryOf(f))
  }

  /** The stream determines the set of files: paths, executable bits and contents. */
  lemma StreamDeterminesFiles(a: seq<File>, b: seq<File>)
    requires Storable(Sort(a)) && Storable(Sort(b)) && Stream(a) == Stream(b)
    ensures Sort(a) == Sort(b)
  {
    var fs, gs := Sort(a), Sort(b);
    forall e | e in Entries(fs) ensures Printable(e) {
      var i :| 0 <= i < |fs| && Entries(fs)[i] == e;
      assert fs[i] in fs;
    }
    forall e | e in Entries(gs) ensures Printable(e) {
      var i :| 0 <= i < |gs| && Entries(gs)[i] == e;
      assert gs[i] in gs;
    }
    DistinctInventoriesDistinctStreams(Entries(fs), Entries(gs));
    forall i | 0 <= i < |fs| ensures fs[i] == gs[i] {
      assert Entries(fs)[i] == EntryOf(fs[i]) && Entries(gs)[i] == EntryOf(gs[i]);
      assert fs[i] in fs && gs[i] in gs;
      PosixIsInjective(fs[i].path, gs[i].path);
    }
  }

  /** With a hash that does not collide on the two streams, approving one profile's digest
      approves another exactly when both hold the same files. */
  lemma ApprovalBindsContent(hash: seq<byte> -> nat, reviewed: seq<File>, installed: seq<File>)
    requires hash(Stream(reviewed)) == hash(Stream(installed)) ==> Stream(reviewed) == Stream(installed)
    requires Storable(Sort(reviewed)) && Storable(Sort(installed))
    ensures !Approved(hash, None, installed)
    ensures Approved(hash, Some(hash(Stream(reviewed))), installed) <==> Sort(reviewed) == Sort(installed)
  {
    if Stream(reviewed) == Stream(installed) {
      StreamDeterminesFiles(reviewed, installed);
    }
  }
}
