/** The bounded copy taken of a profile before it is reviewed: regular single-link files and
    directories only, `.git` directories left behind, three limits. */
module Snapshot {
  import opened Wrappers
  import opened Numbers
  import opened Bytes
  import opened ProfileDigest

  const MAX_FILES := 1000
  const MAX_FILE_BYTES := 4 * 1024 * 1024
  const MAX_TOTAL_BYTES := 64 * 1024 * 1024

  type Name = seq<byte>

  const GIT: Name := [46, 103, 105, 116]

  /** What `lstat` says about an entry. `LinkToDir` is a symbolic link that leads to a directory. */
  datatype Node =
    | Dir
    | Regular(exec: bool, content: seq<byte>, nlink: nat)
    | LinkToDir
    | OtherLink
    | Special

  /** A source tree, by path relative to its root; the root itself is not an entry. */
  type Tree = map<Path, Node>

  datatype Copied = Folder | Plain(exec: bool, content: seq<byte>)

  /** The destination tree. */
  type Copy = map<Path, Copied>

  function Parent(p: Path): Path
    requires p != []
  {
    p[..|p| - 1]
  }

  function Base(p: Path): Name
    requires p != []
  {
    p[|p| - 1]
  }

  function Child(d: Path, c: Name): (p: Path)
    ensures p != [] && Parent(p) == d && Base(p) == c
  {
    d + [c]
  }

  lemma ChildOfParent(p: Path)
    requires p != []
    ensures Child(Parent(p), Base(p)) == p
  {
  }

  predicate IsDir(t: Tree, d: Path) {
    d == [] || (d in t && t[d].Dir?)
  }

  predicate WellFormed(t: Tree) {
    forall p | p in t :: p != [] && IsDir(t, Parent(p))
  }

  /** `os.walk` puts it among the directories: links that lead to directories included. */
  predicate DirLike(n: Node) {
    n.Dir? || n.LinkToDir?
  }

  predicate Dropped(t: Tree, p: Path)
    requires p in t && p != []
  {
    Base(p) == GIT && DirLike(t[p])
  }

  /** The walk comes to `p`. */
  predicate Kept(t: Tree, p: Path)
    decreases |p|
  {
    p != [] && p in t && !Dropped(t, p) && (Parent(p) == [] || Kept(t, Parent(p)))
  }

  /** The prefix of `p` of that length is a directory, or a link to one, by the name of ".git". */
  predicate GitAt(t: Tree, p: Path, k: nat) {
    0 < k <= |p| && p[..k] in t && (t[p[..k]].Dir? || t[p[..k]].LinkToDir?) && p[k - 1] == [46, 103, 105, 116]
  }

  /** An entry is kept exactly when neither it nor anything above it is a directory, or a link to
      one, called ".git". */
  lemma {:induction false} KeptIff(t: Tree, p: Path)
    requires WellFormed(t) && p in t
    ensures Kept(t, p) <==> forall k | 0 < k <= |p| :: !GitAt(t, p, k)
    decreases |p|
  {
    assert p[..|p|] == p;
    assert Dropped(t, p) <==> GitAt(t, p, |p|);
    if Parent(p) != [] {
      KeptIff(t, Parent(p));
      forall k | 0 < k < |p| ensures GitAt(t, Parent(p), k) <==> GitAt(t, p, k) {
        assert Parent(p)[..k] == p[..k];
      }
    }
  }

  function CopyOf(n: Node): Copied {
    if n.Regular? then Plain(n.exec, n.content) else Folder
  }

  /** The source with its `.git` directories removed. */
  function Pruned(t: Tree): (c: Copy) {
    map p | p in t && Kept(t, p) :: CopyOf(t[p])
  }

  function Files(c: Copy): set<Path> {
    set p | p in c && c[p].Plain?
  }

  function Size(c: Copied): nat {
    if c.Plain? then |c.content| else 0
  }

  ghost function TotalBytes(c: Copy): nat {
    if c == map[] then 0
    else
      var p :| p in c;
      Size(c[p]) + TotalBytes(c - {p})
  }

  lemma {:induction false} TotalBytesRemove(c: Copy, p: Path)
    requires p in c
    ensures TotalBytes(c) == Size(c[p]) + TotalBytes(c - {p})
  {
    var q :| q in c && TotalBytes(c) == Size(c[q]) + TotalBytes(c - {q});
    if q != p {
      TotalBytesRemove(c - {q}, p);
      TotalBytesRemove(c - {p}, q);
      assert c - {q} - {p} == c - {p} - {q};
    }
  }

  lemma TotalBytesAdd(c: Copy, p: Path, x: Copied)
    requires p !in c
    ensures TotalBytes(c[p := x]) == TotalBytes(c) + Size(x)
  {
    TotalBytesRemove(c[p := x], p);
    assert c[p := x] - {p} == c;
  }

  lemma FilesAdd(c: Copy, p: Path, x: Copied)
    requires p !in c
    ensures |Files(c[p := x])| == |Files(c)| + if x.Plain? then 1 else 0
  {
    if x.Plain? {
      assert Files(c[p := x]) == Files(c) + {p};
    } else {
      assert Files(c[p := x]) == Files(c);
    }
  }

  predicate Within(a: Copy, b: Copy) {
    forall p | p in a :: p in b && a[p] == b[p]
  }

  lemma FewerFiles(a: Copy, b: Copy)
    requires Within(a, b)
    ensures |Files(a)| <= |Files(b)|
  {
    SubsetSize(Files(a), Files(b));
  }

  lemma {:induction false} FewerBytes(a: Copy, b: Copy)
    requires Within(a, b)
    ensures TotalBytes(a) <= TotalBytes(b)
  {
    if a != map[] {
      var p :| p in a;
      TotalBytesRemove(a, p);
      TotalBytesRemove(b, p);
      FewerBytes(a - {p}, b - {p});
    }
  }

  predicate Acceptable(n: Node) {
    n.Dir? || (n.Regular? && n.nlink == 1 && |n.content| <= MAX_FILE_BYTES)
  }

  /** What the limits and the file-type rule say of the tree as a whole. */
  ghost predicate Accepted(t: Tree) {
    && (forall p | p in t && Kept(t, p) :: Acceptable(t[p]))
    && |Files(Pruned(t))| <= MAX_FILES
    && TotalBytes(Pruned(t)) <= MAX_TOTAL_BYTES
  }

  /** The rule in numbers: kept entries are directories or single-link files of at most 4 MiB, at most
      1000 files and 64 MiB of them. */
  lemma AcceptedIff(t: Tree)
    ensures Accepted(t) <==>
      && (forall p | p in t && Kept(t, p) ::
            t[p].Dir? || (t[p].Regular? && t[p].nlink == 1 && |t[p].content| <= 4194304))
      && |Files(Pruned(t))| <= 1000 && TotalBytes(Pruned(t)) <= 67108864
  {
  }

  // ----- the walk --------------------------------------------------------------------------

  datatype Refusal = SourceIsLink | LinkOrSpecial(path: Path) | TooManyFiles | TooLarge

  datatype Outcome = Done(copy: Copy) | Refused(why: Refusal)

  /** The reason given is true of the tree as a whole. */
  ghost predicate Justified(t: Tree, why: Refusal) {
    match why
    case SourceIsLink => false
    case LinkOrSpecial(p) => Kept(t, p) && !t[p].Dir? && !(t[p].Regular? && t[p].nlink == 1)
    case TooManyFiles => |Files(Pruned(t))| > MAX_FILES
    case TooLarge =>
      || TotalBytes(Pruned(t)) > MAX_TOTAL_BYTES
      || exists p :: Kept(t, p) && t[p].Regular? && |t[p].content| > MAX_FILE_BYTES
  }

  predicate NoDuplicates<T(==)>(s: seq<T>) {
    forall i, j | 0 <= i < j < |s| :: s[i] != s[j]
  }

  /** `scandir`: every entry of every directory once, in an order of the system's choosing. */
  ghost predicate Lists(list: Path -> seq<Name>, t: Tree) {
    forall d | IsDir(t, d) :: NoDuplicates(list(d)) && forall c :: c in list(d) <==> Child(d, c) in t
  }

  function Filter(s: seq<Name>, keep: Name -> bool): (r: seq<Name>)
    ensures forall c :: c in r <==> c in s && keep(c)
    ensures NoDuplicates(s) ==> NoDuplicates(r)
  {
    if s == [] then []
    else
      var rest := Filter(s[1..], keep);
      assert s == [s[0]] + s[1..];
      if keep(s[0]) then [s[0]] + rest else rest
  }

  function At(t: Tree, p: Path): Node {
    if p in t then t[p] else Special
  }

  /** `dirs` after the `.git` filter, then `files`. */
  function Dirs(t: Tree, d: Path, names: seq<Name>): seq<Name> {
    Filter(names, c => DirLike(At(t, Child(d, c))) && c != GIT)
  }

  function Others(t: Tree, d: Path, names: seq<Name>): seq<Name> {
    Filter(names, c => !DirLike(At(t, Child(d, c))))
  }

  function Under(d: Path, names: seq<Name>): (r: seq<Path>)
    ensures |r| == |names| && forall i | 0 <= i < |names| :: r[i] == Child(d, names[i])
  {
    seq(|names|, i requires 0 <= i < |names| => Child(d, names[i]))
  }

  function Taken(t: Tree, d: Path, list: Path -> seq<Name>): seq<Name> {
    Dirs(t, d, list(d)) + Others(t, d, list(d))
  }

  /** The names taken from one directory are the kept entries of it, each once. */
  lemma NamesAreTheKeptChildren(t: Tree, d: Path, list: Path -> seq<Name>)
    requires WellFormed(t) && Lists(list, t) && IsDir(t, d) && (d == [] || Kept(t, d))
    ensures NoDuplicates(Taken(t, d, list)) && forall c :: c in Taken(t, d, list) <==> Kept(t, Child(d, c))
  {
    var a, b := Dirs(t, d, list(d)), Others(t, d, list(d));
    var names: seq<Name> := a + b;
    forall i, j | 0 <= i < j < |names| ensures names[i] != names[j] {
      if i < |a| <= j {
        assert a[i] in a && b[j - |a|] in b;
      }
    }
  }

  /** What the copy is at every moment: a faithful part of the pruned source, counted exactly. */
  ghost predicate Good(t: Tree, copy: Copy, count: nat, total: nat) {
    && Within(copy, Pruned(t))
    && (forall p | p in copy :: Acceptable(t[p]))
    && count == |Files(copy)| <= MAX_FILES
    && total == TotalBytes(copy) <= MAX_TOTAL_BYTES
  }

  /** One more entry is within every limit. */
  predicate Room(n: Node, count: nat, total: nat) {
    && Acceptable(n)
    && count + (if n.Regular? then 1 else 0) <= MAX_FILES
    && total + Size(CopyOf(n)) <= MAX_TOTAL_BYTES
  }

  lemma WithinAdd(t: Tree, copy: Copy, p: Path)
    requires Within(copy, Pruned(t)) && Kept(t, p)
    ensures Within(copy[p := CopyOf(t[p])], Pruned(t))
  {
  }

  /** An entry there is room for keeps the copy good, and the whole tree needs at least that room. */
  lemma NextEntry(t: Tree, copy: Copy, count: nat, total: nat, p: Path)
    requires Good(t, copy, count, total) && p !in copy && Kept(t, p)
    ensures Room(t[p], count, total) ==> Good(t, copy[p := CopyOf(t[p])],
      count + (if t[p].Regular? then 1 else 0), total + Size(CopyOf(t[p])))
    ensures |Files(Pruned(t))| >= count + if t[p].Regular? then 1 else 0
    ensures TotalBytes(Pruned(t)) >= total + Size(CopyOf(t[p]))
  {
    var more := copy[p := CopyOf(t[p])];
    FilesAdd(copy, p, CopyOf(t[p]));
    TotalBytesAdd(copy, p, CopyOf(t[p]));
    WithinAdd(t, copy, p);
    FewerFiles(more, Pruned(t));
    FewerBytes(more, Pruned(t));
  }

  /** The entries of `d` under these names. */
  function Paths(d: Path, names: seq<Name>): set<Path> {
    set c | c in names :: Child(d, c)
  }

  lemma PathsSnoc(d: Path, names: seq<Name>, i: nat)
    requires i < |names| && NoDuplicates(names)
    ensures Paths(d, names[..i + 1]) == Paths(d, names[..i]) + {Child(d, names[i])}
    ensures Child(d, names[i]) !in Paths(d, names[..i])
  {
    assert names[..i + 1] == names[..i] + [names[i]];
    forall c | c in names[..i] ensures Child(d, c) != Child(d, names[i]) {
      assert Base(Child(d, c)) == c && Base(Child(d, names[i])) == names[i];
    }
  }

  /** One entry: made, written or refused. */
  method CopyEntry(t: Tree, path: Path, copy0: Copy, count0: nat, total0: nat)
    returns (copy: Copy, count: nat, total: nat, refused: Option<Refusal>)
    requires Good(t, copy0, count0, total0) && Kept(t, path) && path !in copy0
    ensures refused == None ==> Good(t, copy, count, total) && copy == copy0[path := CopyOf(t[path])]
    ensures refused != None ==> Justified(t, refused.value)
  {
    copy, count, total, refused := copy0, count0, total0, None;
    NextEntry(t, copy, count, total, path);
    match t[path] {
      case Dir =>
        copy := copy[path := Folder];
      case Regular(exec, content, nlink) =>
        if nlink != 1 {
          refused := Some(LinkOrSpecial(path));
          return;
        }
        count := count + 1;
        if count > MAX_FILES {
          refused := Some(TooManyFiles);
          return;
        }
        var raw := if |content| > MAX_FILE_BYTES + 1 then content[..MAX_FILE_BYTES + 1] else content;
        total := total + |raw|;
        if |raw| > MAX_FILE_BYTES || total > MAX_TOTAL_BYTES {
          refused := Some(TooLarge);
          return;
        }
        copy := copy[path := Plain(exec, raw)];
      case _ =>
        refused := Some(LinkOrSpecial(path));
    }
  }

  /** The inner loop: one directory's entries. */
  method CopyEntries(t: Tree, d: Path, names: seq<Name>, copy0: Copy, count0: nat, total0: nat)
    returns (copy: Copy, count: nat, total: nat, refused: Option<Refusal>)
    requires Good(t, copy0, count0, total0) && NoDuplicates(names)
    requires forall c | c in names :: Kept(t, Child(d, c)) && Child(d, c) !in copy0
    ensures refused == None ==> Good(t, copy, count, total) && copy.Keys == copy0.Keys + Paths(d, names)
    ensures refused != None ==> Justified(t, refused.value)
  {
    copy, count, total, refused := copy0, count0, total0, None;
    var i := 0;
    while i < |names|
      invariant 0 <= i <= |names| && refused == None
      invariant Good(t, copy, count, total)
      invariant copy.Keys == copy0.Keys + Paths(d, names[..i])
    {
      assert names[i] in names;
      PathsSnoc(d, names, i);
      copy, count, total, refused := CopyEntry(t, Child(d, names[i]), copy, count, total);
      if refused != None {
        return;
      }
      i := i + 1;
    }
    assert names[..i] == names;
  }

  /** The outer loop's bookkeeping: `walked` are the directories already listed, `todo` those to
      come, and between them they are the root and every directory copied. */
  ghost predicate Frontier(t: Tree, todo: seq<Path>, walked: set<Path>, copy: Copy) {
    && NoDuplicates(todo)
    && (forall d | d in todo :: d !in walked && IsDir(t, d))
    && (forall d | d in walked || d in todo :: d == [] || d in copy)
    && ([] in walked || [] in todo)
    && (forall p | p in copy && IsDir(t, p) :: p in walked || p in todo)
  }

  /** Entries copied lie in listed directories, and listed directories are copied entirely. */
  ghost predicate Listed(t: Tree, walked: set<Path>, copy: Copy) {
    && (forall p | p in copy :: Kept(t, p) && Parent(p) in walked)
    && (forall p | Kept(t, p) && Parent(p) in walked :: p in copy)
  }

  lemma {:induction false} NothingLeft(t: Tree, walked: set<Path>, copy: Copy, p: Path)
    requires WellFormed(t) && Frontier(t, [], walked, copy) && Listed(t, walked, copy) && Kept(t, p)
    ensures p in copy
    decreases |p|
  {
    if Parent(p) != [] {
      NothingLeft(t, walked, copy, Parent(p));
    }
  }

  lemma ListedStep(t: Tree, d: Path, names: seq<Name>, walked: set<Path>, copy: Copy, more: Copy)
    requires Listed(t, walked, copy) && more.Keys == copy.Keys + Paths(d, names)
    requires forall c :: c in names <==> Kept(t, Child(d, c))
    ensures Listed(t, walked + {d}, more)
  {
    forall p | p in more ensures Kept(t, p) && Parent(p) in walked + {d} {
      if p !in copy {
        var c :| c in names && Child(d, c) == p;
      }
    }
    forall p | Kept(t, p) && Parent(p) in walked + {d} ensures p in more {
      if Parent(p) == d {
        ChildOfParent(p);
        assert Base(p) in names;
      }
    }
  }

  /** The directories among the new entries are new: no one of them was copied, listed or due. */
  lemma SubdirectoriesAreNew(t: Tree, d: Path, dirs: seq<Name>, todo: seq<Path>, walked: set<Path>, copy: Copy)
    requires Frontier(t, todo, walked, copy) && Listed(t, walked, copy) && d in todo
    ensures forall s | s in Under(d, dirs) :: s !in walked + {d} && s !in todo && s !in copy && s != []
  {
    forall s | s in Under(d, dirs) ensures s !in walked + {d} && s !in todo && s !in copy && s != [] {
      var i :| 0 <= i < |dirs| && s == Child(d, dirs[i]);
      assert Parent(s) == d && |s| == |d| + 1;
    }
  }

  lemma NextIsDistinct(d: Path, dirs: seq<Name>, todo: seq<Path>)
    requires NoDuplicates(dirs) && NoDuplicates(todo) && todo != []
    requires forall s | s in Under(d, dirs) :: s !in todo
    ensures NoDuplicates(Under(d, dirs) + todo[1..])
  {
    var subs := Under(d, dirs);
    forall i, j | 0 <= i < j < |subs| ensures subs[i] != subs[j] {
      assert Base(Child(d, dirs[i])) == dirs[i] && Base(Child(d, dirs[j])) == dirs[j];
    }
    forall i, j | 0 <= i < |subs| && 1 <= j < |todo| ensures subs[i] != todo[j] {
      assert subs[i] in subs;
    }
  }

  lemma NextMembers(subs: seq<Path>, todo: seq<Path>)
    requires todo != [] && NoDuplicates(todo)
    ensures forall p :: p in subs + todo[1..] <==> p in subs || (p in todo && p != todo[0])
  {
    assert todo == [todo[0]] + todo[1..];
  }

  lemma FrontierStep(t: Tree, todo: seq<Path>, walked: set<Path>, copy: Copy, more: Copy,
                     dirs: seq<Name>, others: seq<Name>)
    requires todo != [] && Frontier(t, todo, walked, copy) && Listed(t, walked, copy)
    requires NoDuplicates(dirs) && more.Keys == copy.Keys + Paths(todo[0], dirs + others)
    requires forall c | c in dirs :: IsDir(t, Child(todo[0], c))
    requires forall c | c in others :: !IsDir(t, Child(todo[0], c))
    ensures Frontier(t, Under(todo[0], dirs) + todo[1..], walked + {todo[0]}, more)
  {
    var d := todo[0];
    var subs := Under(d, dirs);
    SubdirectoriesAreNew(t, d, dirs, todo, walked, copy);
    NextIsDistinct(d, dirs, todo);
    NextMembers(subs, todo);
    forall s | s in subs ensures IsDir(t, s) && s in more {
      var i :| 0 <= i < |dirs| && s == Child(d, dirs[i]);
      assert dirs[i] in dirs + others;
    }
    forall p | p in more && IsDir(t, p) && p !in copy ensures p in subs {
      var c :| c in dirs + others && Child(d, c) == p;
      var i :| 0 <= i < |dirs| && dirs[i] == c;
      assert subs[i] == p;
    }
  }

  /** Listing one directory, copying its entries and queueing its subdirectories. */
  lemma DirectoryDone(t: Tree, todo: seq<Path>, walked: set<Path>, copy: Copy, more: Copy, list: Path -> seq<Name>)
    requires WellFormed(t) && Lists(list, t)
    requires todo != [] && Frontier(t, todo, walked, copy) && Listed(t, walked, copy)
    requires more.Keys == copy.Keys + Paths(todo[0], Taken(t, todo[0], list))
    requires forall p | p in more :: p in t && Acceptable(t[p])
    ensures Frontier(t, Under(todo[0], Dirs(t, todo[0], list(todo[0]))) + todo[1..], walked + {todo[0]}, more)
    ensures Listed(t, walked + {todo[0]}, more)
  {
    var d := todo[0];
    var dirs, others := Dirs(t, d, list(d)), Others(t, d, list(d));
    NamesAreTheKeptChildren(t, d, list);
    ListedStep(t, d, dirs + others, walked, copy, more);
    forall c | c in dirs ensures IsDir(t, Child(d, c)) {
      assert c in dirs + others && Child(d, c) in more;
    }
    FrontierStep(t, todo, walked, copy, more, dirs, others);
  }

  lemma NamesAreNew(t: Tree, todo: seq<Path>, walked: set<Path>, copy: Copy, list: Path -> seq<Name>)
    requires WellFormed(t) && Lists(list, t)
    requires todo != [] && Frontier(t, todo, walked, copy) && Listed(t, walked, copy)
    ensures NoDuplicates(Taken(t, todo[0], list)) && todo[0] in t.Keys + {[]} - walked
    ensures forall c | c in Taken(t, todo[0], list) ::
      Kept(t, Child(todo[0], c)) && Child(todo[0], c) !in copy
  {
    var d := todo[0];
    assert d in todo;
    NamesAreTheKeptChildren(t, d, list);
    forall c | c in Taken(t, d, list) ensures Child(d, c) !in copy {
      assert Parent(Child(d, c)) == d;
    }
  }

  lemma OneFewer(all: set<Path>, walked: set<Path>, d: Path)
    requires d in all - walked
    ensures |all - (walked + {d})| < |all - walked|
  {
    assert all - walked == (all - (walked + {d})) + {d};
  }

  lemma AllCopied(t: Tree, walked: set<Path>, copy: Copy, count: nat, total: nat)
    requires WellFormed(t) && Good(t, copy, count, total)
    requires Frontier(t, [], walked, copy) && Listed(t, walked, copy)
    ensures copy == Pruned(t) && Accepted(t)
  {
    forall p | p in t && Kept(t, p) ensures p in copy {
      NothingLeft(t, walked, copy, p);
    }
    assert copy == Pruned(t);
  }

  /** One round of the walk: list a directory, copy its entries, queue its subdirectories. */
  method WalkDirectory(t: Tree, list: Path -> seq<Name>, todo0: seq<Path>, ghost walked: set<Path>,
                       copy0: Copy, count0: nat, total0: nat)
    returns (todo: seq<Path>, copy: Copy, count: nat, total: nat, refused: Option<Refusal>)
    requires WellFormed(t) && Lists(list, t) && todo0 != []
    requires Good(t, copy0, count0, total0) && Frontier(t, todo0, walked, copy0) && Listed(t, walked, copy0)
    ensures refused == None ==> Good(t, copy, count, total)
    ensures refused == None ==> Frontier(t, todo, walked + {todo0[0]}, copy) && Listed(t, walked + {todo0[0]}, copy)
    ensures refused != None ==> Justified(t, refused.value)
  {
    var d := todo0[0];
    var dirs := Dirs(t, d, list(d));
    var names := dirs + Others(t, d, list(d));
    NamesAreNew(t, todo0, walked, copy0, list);
    copy, count, total, refused := CopyEntries(t, d, names, copy0, count0, total0);
    todo := Under(d, dirs) + todo0[1..];
    if refused == None {
      DirectoryDone(t, todo0, walked, copy0, copy, list);
    }
  }

  /** `snapshot`: for every listing order, the copy is made exactly when the kept entries are
      directories and single-link files within the limits, and it is then the pruned source. */
  method TakeSnapshot(sourceIsLink: bool, t: Tree, list: Path -> seq<Name>) returns (r: Outcome)
    requires WellFormed(t) && Lists(list, t)
    ensures r.Done? <==> !sourceIsLink && Accepted(t)
    ensures r.Done? ==> r.copy == Pruned(t)
    ensures r.Refused? ==> if sourceIsLink then r.why == SourceIsLink else Justified(t, r.why)
  {
    if sourceIsLink {
      return Refused(SourceIsLink);
    }
    var copy: Copy, count, total := map[], 0, 0;
    var todo: seq<Path> := [[]];
    ghost var walked: set<Path> := {};
    while todo != []
      invariant Good(t, copy, count, total) && Frontier(t, todo, walked, copy) && Listed(t, walked, copy)
      decreases |t.Keys + {[]} - walked|
    {
      ghost var d := todo[0];
      NamesAreNew(t, todo, walked, copy, list);
      var refused;
      todo, copy, count, total, refused := WalkDirectory(t, list, todo, walked, copy, count, total);
      if refused != None {
        RefusalIsFinal(t, refused.value);
        return Refused(refused.value);
      }
      OneFewer(t.Keys + {[]}, walked, d);
      walked := walked + {d};
    }
    AllCopied(t, walked, copy, count, total);
    return Done(copy);
  }

  lemma RefusalIsFinal(t: Tree, why: Refusal)
    requires Justified(t, why)
    ensures !Accepted(t)
  {
  }

  // ----- what the copy is worth ------------------------------------------------------------

  /** The copy read back as a source tree. */
  function AsTree(c: Copy): Tree {
    map p | p in c :: match c[p] case Folder => Dir case Plain(exec, content) => Regular(exec, content, 1)
  }

  lemma {:induction false} CopyKeepsEverything(t: Tree, p: Path)
    requires WellFormed(t) && (forall q | q in t && Kept(t, q) :: Acceptable(t[q])) && Kept(t, p)
    ensures Kept(AsTree(Pruned(t)), p)
    decreases |p|
  {
    if Parent(p) != [] {
      CopyKeepsEverything(t, Parent(p));
    }
  }

  /** Copying an accepted copy is accepted and changes nothing. */
  lemma CopyingTwiceChangesNothing(t: Tree)
    requires WellFormed(t) && Accepted(t)
    ensures WellFormed(AsTree(Pruned(t))) && Accepted(AsTree(Pruned(t)))
    ensures Pruned(AsTree(Pruned(t))) == Pruned(t)
  {
    var again := AsTree(Pruned(t));
    forall p | p in t && Kept(t, p) ensures Kept(again, p) && IsDir(again, Parent(p)) {
      CopyKeepsEverything(t, p);
    }
    assert Pruned(again) == Pruned(t);
  }

  /** `rglob` with `is_file`: the regular files of a copy, each once, in any order. */
  ghost predicate Enumerates(fs: seq<File>, c: Copy) {
    && DistinctPaths(fs)
    && forall f :: f in fs <==> f.path in c && c[f.path] == Plain(f.exec, f.content)
  }

  lemma {:induction false} SameFilesSameMultiset(a: seq<File>, b: seq<File>)
    requires DistinctPaths(a) && DistinctPaths(b) && forall f :: f in a <==> f in b
    ensures multiset(a) == multiset(b)
  {
    forall f ensures multiset(a)[f] == multiset(b)[f] {
      DistinctOnce(a, f);
      DistinctOnce(b, f);
    }
  }

  lemma {:induction false} DistinctOnce(a: seq<File>, f: File)
    requires DistinctPaths(a)
    ensures multiset(a)[f] == if f in a then 1 else 0
  {
    if a != [] {
      assert a == [a[0]] + a[1..];
      DistinctOnce(a[1..], f);
    }
  }

  /** Two enumerations hash to the same bytes exactly when the copies hold the same files: the
      same names, contents and executable bits. */
  lemma InventoryDeterminesFiles(a: Copy, b: Copy, fs: seq<File>, gs: seq<File>)
    requires Enumerates(fs, a) && Enumerates(gs, b) && Storable(fs) && Storable(gs)
    ensures Stream(fs) == Stream(gs) <==> (forall f :: f in fs <==> f in gs)
  {
    SortSorts(fs);
    SortSorts(gs);
    assert forall f :: f in Sort(fs) <==> f in multiset(Sort(fs));
    assert forall f :: f in Sort(gs) <==> f in multiset(Sort(gs));
    assert forall f :: f in fs <==> f in multiset(fs);
    assert forall f :: f in gs <==> f in multiset(gs);
    if Stream(fs) == Stream(gs) {
      StreamDeterminesFiles(fs, gs);
    }
    if forall f :: f in fs <==> f in gs {
      SameFilesSameMultiset(fs, gs);
      StreamIgnoresEnumerationOrder(fs, gs);
    }
  }

  /** The inventory of an accepted copy is the inventory of the source without its `.git`
      directories, and every limit holds of what was copied. */
  lemma InventoryOfTheCopyIsOfTheSource(t: Tree, copy: Copy, kept: seq<File>, copied: seq<File>)
    requires WellFormed(t) && Accepted(t) && copy == Pruned(t)
    requires DistinctPaths(kept)
    requires forall f :: f in kept <==> Kept(t, f.path) && t[f.path] == Regular(f.exec, f.content, 1)
    requires Enumerates(copied, copy)
    ensures Stream(kept) == Stream(copied)
    ensures |copied| <= MAX_FILES && TotalBytes(copy) <= MAX_TOTAL_BYTES
    ensures forall f | f in copied :: |f.content| <= MAX_FILE_BYTES
  {
    forall f ensures f in kept <==> f in copied {
      if Kept(t, f.path) { assert Acceptable(t[f.path]); }
    }
    SameFilesSameMultiset(kept, copied);
    StreamIgnoresEnumerationOrder(kept, copied);
    DistinctFewer(copied, Files(copy));
  }

  lemma {:induction false} DistinctFewer(fs: seq<File>, paths: set<Path>)
    requires DistinctPaths(fs) && forall f | f in fs :: f.path in paths
    ensures |fs| <= |paths|
  {
    if fs != [] {
      assert fs[0] in fs;
      DistinctFewer(fs[1..], paths - {fs[0].path});
    }
  }
}
