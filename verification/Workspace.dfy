/** Serving one file out of a session workspace: a walk down a file system that has links. */
module Workspace {
  import opened Wrappers
  import opened Text

  type Name = string

  /** An absolute path with `/`, `.` and `..` already worked out. */
  type Path = seq<Name>

  /** A link's target is absolute or relative to the directory it stands in. */
  datatype Node = Dir | File | Special | Link(absolute: bool, target: seq<Name>)

  type FileSystem = map<Path, Node>

  predicate IsLink(fs: FileSystem, p: Path) {
    p in fs && fs[p].Link?
  }

  predicate IsFile(fs: FileSystem, p: Path) {
    p in fs && fs[p].File?
  }

  /** `Path.resolve`: follow `names` from the directory `at`, links included. After `links` links
      it gives up, as the system does on a loop. Names that do not exist are kept as they are. */
  function Resolve(fs: FileSystem, at: Path, names: seq<Name>, links: nat): Option<Path>
    decreases links, |names|
  {
    if names == [] then Some(at)
    else if names[0] == "" || names[0] == "." then Resolve(fs, at, names[1..], links)
    else if names[0] == ".." then Resolve(fs, if at == [] then [] else at[..|at| - 1], names[1..], links)
    else
      var next := at + [names[0]];
      if !IsLink(fs, next) then Resolve(fs, next, names[1..], links)
      else if links == 0 then None
      else Resolve(fs, if fs[next].absolute then [] else at, fs[next].target + names[1..], links - 1)
  }

  /** Names that stand for an entry of the directory they are looked up in. */
  predicate Plain(names: seq<Name>) {
    forall i | 0 <= i < |names| :: names[i] != "" && names[i] != "." && names[i] != ".."
  }

  /** No component of `p` is a link: opening `p` opens the entry stored at `p`. */
  predicate Physical(fs: FileSystem, p: Path) {
    Plain(p) && forall k | 0 <= k <= |p| :: !IsLink(fs, p[..k])
  }

  predicate LinkOnTheWay(fs: FileSystem, root: Path, names: seq<Name>) {
    exists k | 0 < k <= |names| :: IsLink(fs, root + names[..k])
  }

  /** Whatever links it goes through, resolution ends on a path without links. */
  lemma {:induction false} ResolvedIsPhysical(fs: FileSystem, at: Path, names: seq<Name>, links: nat)
    requires Physical(fs, at)
    ensures Resolve(fs, at, names, links).Some? ==> Physical(fs, Resolve(fs, at, names, links).value)
    decreases links, |names|
  {
    if names != [] {
      if names[0] == "" || names[0] == "." {
        ResolvedIsPhysical(fs, at, names[1..], links);
      } else if names[0] == ".." {
        UpIsPhysical(fs, at);
        ResolvedIsPhysical(fs, if at == [] then [] else at[..|at| - 1], names[1..], links);
      } else {
        var next := at + [names[0]];
        if !IsLink(fs, next) {
          DownIsPhysical(fs, at, names[0]);
          ResolvedIsPhysical(fs, next, names[1..], links);
        } else if links > 0 {
          UpIsPhysical(fs, at);
          assert at[..0] == [];
          ResolvedIsPhysical(fs, if fs[next].absolute then [] else at, fs[next].target + names[1..], links - 1);
        }
      }
    }
  }

  lemma UpIsPhysical(fs: FileSystem, at: Path)
    requires Physical(fs, at)
    ensures forall k | 0 <= k <= |at| :: Physical(fs, at[..k])
  {
    forall k | 0 <= k <= |at| ensures Physical(fs, at[..k]) {
      forall j | 0 <= j <= k ensures !IsLink(fs, at[..k][..j]) {
        assert at[..k][..j] == at[..j];
      }
    }
  }

  lemma DownIsPhysical(fs: FileSystem, at: Path, name: Name)
    requires Physical(fs, at) && Plain([name]) && !IsLink(fs, at + [name])
    ensures Physical(fs, at + [name])
  {
    forall k | 0 <= k <= |at| ensures (at + [name])[..k] == at[..k] {}
    assert (at + [name])[..|at| + 1] == at + [name];
  }

  /** Resolution is the identity on a path without links, whatever the link allowance. */
  lemma {:induction false} ResolveIsIdentity(fs: FileSystem, root: Path, names: seq<Name>, links: nat)
    requires Physical(fs, root) && Plain(names) && !LinkOnTheWay(fs, root, names)
    ensures Physical(fs, root + names) && Resolve(fs, root, names, links) == Some(root + names)
    decreases |names|
  {
    if names == [] {
      assert root + names == root;
    } else {
      var next := root + [names[0]];
      assert names == [names[0]] + names[1..] && root + names[..1] == next;
      DownIsPhysical(fs, root, names[0]);
      forall k | 0 < k <= |names[1..]| ensures !IsLink(fs, next + names[1..][..k]) {
        assert next + names[1..][..k] == root + names[..k + 1];
      }
      ResolveIsIdentity(fs, next, names[1..], links);
      assert next + names[1..] == root + names;
    }
  }

  /** The same from the top of the file system. */
  lemma ResolveFromTheTop(fs: FileSystem, p: Path, links: nat)
    requires Physical(fs, p)
    ensures Resolve(fs, [], p, links) == Some(p)
  {
    UpIsPhysical(fs, p);
    assert p[..0] == [];
    forall k | 0 < k <= |p| ensures !IsLink(fs, [] + p[..k]) {
      assert [] + p[..k] == p[..k];
    }
    ResolveIsIdentity(fs, [], p, links);
    assert [] + p == p;
  }

  // ----- path text -------------------------------------------------------------------------

  function DropDots(pieces: seq<string>): (r: seq<Name>)
    ensures forall n | n in r :: n != "" && n != "." && n in pieces
  {
    if pieces == [] then []
    else if pieces[0] == "" || pieces[0] == "." then DropDots(pieces[1..])
    else [pieces[0]] + DropDots(pieces[1..])
  }

  /** `Path(text).parts` of a relative path. */
  function Parts(text: string): seq<Name> {
    DropDots(SplitOn('/', text))
  }

  /** The parts are the pieces between slashes, but for empty ones and single dots, in order. */
  lemma {:induction false} DropDotsAddsUp(a: seq<string>, b: seq<string>)
    ensures DropDots(a + b) == DropDots(a) + DropDots(b)
    ensures forall n :: n in DropDots(a) <==> n in a && n != "" && n != "."
  {
    if a == [] {
      assert a + b == b;
    } else {
      assert (a + b)[1..] == a[1..] + b && a == [a[0]] + a[1..];
      DropDotsAddsUp(a[1..], b);
    }
  }

  lemma PartsAreThePieces(text: string, n: Name)
    ensures n in Parts(text) <==> n in SplitOn('/', text) && n != "" && n != "."
  {
    DropDotsAddsUp(SplitOn('/', text), []);
  }

  function JoinSlash(names: seq<Name>): string {
    if names == [] then "" else if |names| == 1 then names[0] else names[0] + ['/'] + JoinSlash(names[1..])
  }

  predicate NoSlashes(names: seq<Name>) {
    forall i | 0 <= i < |names| :: '/' !in names[i]
  }

  lemma {:induction false} PartsOfJoined(names: seq<Name>)
    requires Plain(names) && NoSlashes(names)
    ensures Parts(JoinSlash(names)) == names
  {
    if names != [] {
      assert names == [names[0]] + names[1..];
      SplitWithout('/', names[0]);
      if |names| > 1 {
        PartsOfJoined(names[1..]);
        SplitAt('/', names[0], JoinSlash(names[1..]));
        var rest := SplitOn('/', JoinSlash(names[1..]));
        assert JoinSlash(names) == names[0] + ['/'] + JoinSlash(names[1..]);
        assert ([names[0]] + rest)[1..] == rest;
      } else {
        assert DropDots([names[0]]) == [names[0]] + DropDots([]);
      }
    } else {
      assert SplitOn('/', "") == [""];
    }
  }

  // ----- the route -------------------------------------------------------------------------

  /** `Failed` is an exception nothing catches: the workspace directory itself cannot be resolved. */
  datatype Reply = Served(path: Path) | BadRequest | Forbidden | NotFound | Failed

  predicate Blank(text: string) {
    Strip(text) == ""
  }

  predicate BadText(text: string) {
    Blank(text) || (text != "" && text[0] == '/') || ".." in Parts(text)
  }

  /** The decisions in the order the route takes them. */
  function Answer(fs: FileSystem, workspace: seq<Name>, text: string, links: nat): Reply {
    if BadText(text) then BadRequest
    else
      var root := Resolve(fs, [], workspace, links);
      if root == None then Failed
      else if LinkOnTheWay(fs, root.value, Parts(text)) then Forbidden
      else
        var resolved := Resolve(fs, [], root.value + Parts(text), links);
        if resolved == None then BadRequest
        else if !(root.value <= resolved.value) then Forbidden
        else if !IsFile(fs, resolved.value) then NotFound
        else Served(resolved.value)
  }

  /** `resolve_workspace_file`: refusals on the text, then a probe down the components. */
  method ResolveWorkspaceFile(fs: FileSystem, workspace: seq<Name>, text: string, links: nat) returns (r: Reply)
    ensures r == Answer(fs, workspace, text, links)
  {
    if text == "" || Strip(text) == "" {
      return BadRequest;
    }
    if text[0] == '/' {
      return BadRequest;
    }
    var candidate := Parts(text);
    if ".." in candidate || "" in candidate {
      return BadRequest;
    }
    var found := Resolve(fs, [], workspace, links);
    if found == None {
      return Failed;
    }
    var root := found.value;
    var probe := root;
    var i := 0;
    while i < |candidate|
      invariant 0 <= i <= |candidate| && probe == root + candidate[..i]
      invariant forall k | 0 < k <= i :: !IsLink(fs, root + candidate[..k])
    {
      probe := probe + [candidate[i]];
      assert probe == root + candidate[..i + 1];
      if IsLink(fs, probe) {
        return Forbidden;
      }
      i := i + 1;
    }
    var resolved := Resolve(fs, [], root + candidate, links);
    if resolved == None {
      return BadRequest;
    }
    if resolved.value != root && !(root < resolved.value) {
      return Forbidden;
    }
    if !IsFile(fs, resolved.value) {
      return NotFound;
    }
    return Served(resolved.value);
  }

  /** After the probe, resolution changes nothing: the two refusals that follow it never happen. */
  lemma ProbedPathIsExact(fs: FileSystem, workspace: seq<Name>, text: string, links: nat)
    requires !BadText(text) && Resolve(fs, [], workspace, links).Some? && !IsLink(fs, [])
    requires !LinkOnTheWay(fs, Resolve(fs, [], workspace, links).value, Parts(text))
    ensures var target := Resolve(fs, [], workspace, links).value + Parts(text);
      Resolve(fs, [], target, links) == Some(target) && Physical(fs, target)
  {
    ResolvedIsPhysical(fs, [], workspace, links);
    var root := Resolve(fs, [], workspace, links).value;
    assert Plain(Parts(text)) by {
      forall i | 0 <= i < |Parts(text)| ensures Parts(text)[i] in Parts(text) {}
    }
    ResolveIsIdentity(fs, root, Parts(text), links);
    ResolveFromTheTop(fs, root + Parts(text), links);
  }

  /** The text is refused when it is blank, starts with a slash, or a piece of it is `..`. */
  lemma BadTextIff(text: string)
    ensures BadText(text) <==> Strip(text) == "" || text[0] == '/' || ".." in SplitOn('/', text)
  {
    PartsAreThePieces(text, "..");
  }

  /** Where a link leads: from the top if it is absolute, else from the directory it stands in. */
  lemma LinkLeads(fs: FileSystem, at: Path, name: Name, links: nat)
    requires Physical(fs, at) && Plain([name]) && IsLink(fs, at + [name]) && !IsLink(fs, [])
    requires var l := fs[at + [name]]; Plain(l.target) && !LinkOnTheWay(fs, if l.absolute then [] else at, l.target)
    ensures Resolve(fs, at, [name], 0) == None
    ensures var l := fs[at + [name]];
      links > 0 ==> Resolve(fs, at, [name], links) == Some(if l.absolute then l.target else at + l.target)
  {
    var l := fs[at + [name]];
    assert l.target + [name][1..] == l.target;
    UpIsPhysical(fs, at);
    assert at[..0] == [];
    if links > 0 {
      ResolveIsIdentity(fs, if l.absolute then [] else at, l.target, links - 1);
      assert [] + l.target == l.target;
    }
  }

  /** `..` leads back to where the name before it was looked up. */
  lemma UpLeadsBack(fs: FileSystem, at: Path, name: Name, links: nat)
    requires Plain([name]) && !IsLink(fs, at + [name])
    ensures Resolve(fs, at, [name, ".."], links) == Some(at)
  {
    assert [name, ".."][1..] == [".."] && [".."][1..] == [];
    assert (at + [name])[..|at|] == at;
    assert Resolve(fs, at + [name], [".."], links) == Resolve(fs, at, [], links);
  }

  /** Each reply, exactly: what is served is the root followed by the components, a regular file,
      and no link lies on it. The top of the file system is not a link. */
  lemma ReplyIff(fs: FileSystem, workspace: seq<Name>, text: string, links: nat, root: Path)
    requires !IsLink(fs, []) && Resolve(fs, [], workspace, links) == Some(root)
    ensures var r := Answer(fs, workspace, text, links); var target := root + Parts(text);
      && (r == BadRequest <==> BadText(text))
      && (r == Forbidden <==> !BadText(text) && LinkOnTheWay(fs, root, Parts(text)))
      && (r == NotFound <==> !BadText(text) && !LinkOnTheWay(fs, root, Parts(text)) && !IsFile(fs, target))
      && (forall p :: r == Served(p) <==>
            !BadText(text) && !LinkOnTheWay(fs, root, Parts(text)) && IsFile(fs, target) && p == target)
  {
    if !BadText(text) && !LinkOnTheWay(fs, root, Parts(text)) {
      ProbedPathIsExact(fs, workspace, text, links);
    }
  }

  /** A served path lies under the resolved workspace, strictly when that is a directory; it is a
      regular file, and opening it follows no link at all. */
  lemma ServedIsConfined(fs: FileSystem, workspace: seq<Name>, text: string, links: nat)
    requires !IsLink(fs, []) && Answer(fs, workspace, text, links).Served?
    ensures var p := Answer(fs, workspace, text, links).path; var root := Resolve(fs, [], workspace, links).value;
      && IsFile(fs, p) && Physical(fs, p) && Resolve(fs, [], p, 0) == Some(p)
      && root <= p && (!IsFile(fs, root) ==> root < p)
  {
    var root := Resolve(fs, [], workspace, links).value;
    ReplyIff(fs, workspace, text, links, root);
    ProbedPathIsExact(fs, workspace, text, links);
    ResolveFromTheTop(fs, root + Parts(text), 0);
    assert root + [] == root;
  }

  /** Every regular file under the root, behind no link, is served under its own name, unless
      that name is white space only. */
  lemma EveryFileIsServedIff(fs: FileSystem, workspace: seq<Name>, names: seq<Name>, links: nat, root: Path)
    requires !IsLink(fs, []) && Resolve(fs, [], workspace, links) == Some(root)
    requires names != [] && Plain(names) && NoSlashes(names)
    requires IsFile(fs, root + names) && !LinkOnTheWay(fs, root, names)
    ensures Answer(fs, workspace, JoinSlash(names), links) == Served(root + names) <==> !Blank(JoinSlash(names))
  {
    PartsOfJoined(names);
    assert JoinSlash(names) != "" && JoinSlash(names)[0] == names[0][0];
    ReplyIff(fs, workspace, JoinSlash(names), links, root);
  }
}
