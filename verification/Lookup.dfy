/**
 * Path lookup on an unchanging filesystem: the kernel's symlink-following walk, the
 * descriptor walk that follows nothing, and path canonicalization.
 */
module Lookup {
  import opened AcquireCost
  import opened Machine
  import opened Wrappers

  type Name = Bytes
  type Inode = nat

  /** A directory names itself and its parent by the entries "." and "..". */
  datatype Node =
    | Directory(entries: map<Name, Inode>, searchable: bool, readable: bool)
    | Regular(links: nat)
    | Symlink(target: Bytes)
    | Special

  datatype Filesystem = Filesystem(nodes: map<Inode, Node>, root: Inode, cwd: Inode, maxLinks: nat)

  datatype Error = Missing | Failed

  function Look(fs: Filesystem, i: Inode): Node {
    if i in fs.nodes then fs.nodes[i] else Special
  }

  // ---------------------------------------------------------------- one name

  /** The inode a directory names, without following it. */
  function Entry(fs: Filesystem, at: Inode, name: Name): Result<Inode, Error> {
    match Look(fs, at)
    case Directory(entries, searchable, _) =>
      if !searchable then Err(Failed) else if name in entries then Ok(entries[name]) else Err(Missing)
    case _ => Err(Failed)
  }

  // ---------------------------------------------------------------- the following walk

  /** The names of a spelling; repeated separators mean nothing. */
  function Named(parts: seq<Bytes>): seq<Name> {
    if parts == [] then []
    else (if parts[0] == [] then [] else [parts[0]]) + Named(parts[1..])
  }

  function Names(path: Bytes): seq<Name> {
    Named(Split(path))
  }

  function Origin(fs: Filesystem, at: Inode, path: Bytes): Inode {
    if path != [] && path[0] == SLASH then fs.root else at
  }

  /** Every symlink before the last name is followed, and the last one only if `follow`. */
  function Walk(fs: Filesystem, at: Inode, names: seq<Name>, follow: bool, links: nat): Result<Inode, Error>
    decreases links, |names|
  {
    if names == [] then Ok(at)
    else
      var child := Entry(fs, at, names[0]);
      if child.Err? then child
      else
        match Look(fs, child.value)
        case Symlink(target) =>
          if |names| == 1 && !follow then child
          else if links == 0 then Err(Failed)
          else Walk(fs, Origin(fs, at, target), Names(target) + names[1..], follow, links - 1)
        case _ => Walk(fs, child.value, names[1..], follow, links)
  }

  /** `lstat` of a component list below the root. */
  function Lstat(fs: Filesystem, names: seq<Name>): Result<Inode, Error> {
    Walk(fs, fs.root, names, false, fs.maxLinks)
  }

  /** `lstat` of any spelling, from a directory: a trailing separator asks for the directory it leads to. */
  function LstatAt(fs: Filesystem, at: Inode, path: Bytes): Result<Inode, Error> {
    var trailing := path != [] && path[|path| - 1] == SLASH;
    var found := Walk(fs, Origin(fs, at, path), Names(path), trailing, fs.maxLinks);
    if path == [] then Err(Missing)
    else if 0 in path then Err(Failed)
    else if trailing && found.Ok? && !Look(fs, found.value).Directory? then Err(Failed)
    else found
  }

  function LstatPath(fs: Filesystem, path: Bytes): Result<Inode, Error> {
    LstatAt(fs, fs.cwd, path)
  }

  /** What a path library takes for one normal component: only separators and dots may follow it. */
  predicate OneComponent(name: Bytes) {
    var parts := Split(name);
    Normal(parts[0]) && forall i :: 1 <= i < |parts| ==> parts[i] == [] || parts[i] == [DOT]
  }

  /** The physical name: what remains after every symlink and parent step is resolved. */
  function RealPath(fs: Filesystem, trail: seq<Name>, at: Inode, names: seq<Name>, links: nat): Result<seq<Name>, Error>
    decreases links, |names|
  {
    if names == [] then Ok(trail)
    else
      var child := Entry(fs, at, names[0]);
      if child.Err? then Err(child.error)
      else
        match Look(fs, child.value)
        case Symlink(target) =>
          if links == 0 then Err(Failed)
          else
            var absolute := target != [] && target[0] == SLASH;
            RealPath(fs, if absolute then [] else trail, Origin(fs, at, target), Names(target) + names[1..], links - 1)
        case _ =>
          var next :=
            if names[0] == [DOT] then trail
            else if names[0] == [DOT, DOT] then (if trail == [] then [] else trail[..|trail| - 1])
            else trail + [names[0]];
          RealPath(fs, next, child.value, names[1..], links)
  }

  // ---------------------------------------------------------------- the descriptor walk

  /** Opens of one component at a time that follow nothing and accept only directories. */
  function OpenWalk(fs: Filesystem, at: Inode, names: seq<Name>): Result<Inode, Error>
    decreases |names|
  {
    match Look(fs, at)
    case Directory(_, _, readable) =>
      if !readable then Err(Failed)
      else if names == [] then Ok(at)
      else
        var child := Entry(fs, at, names[0]);
        if child.Ok? then OpenWalk(fs, child.value, names[1..]) else child
    case _ => Err(Failed)
  }

  /** Every step of the walk is a directory entry that is itself a directory. */
  function Reach(fs: Filesystem, at: Inode, names: seq<Name>): Option<Inode>
    decreases |names|
  {
    if !Look(fs, at).Directory? then None
    else if names == [] then Some(at)
    else
      var child := Entry(fs, at, names[0]);
      if child.Ok? then Reach(fs, child.value, names[1..]) else None
  }

  /** Every directory on the way may be opened for reading. */
  predicate Readable(fs: Filesystem, at: Inode, names: seq<Name>)
    decreases |names|
  {
    && Look(fs, at).Directory? && Look(fs, at).readable
    && (names != [] && Entry(fs, at, names[0]).Ok? ==> Readable(fs, Entry(fs, at, names[0]).value, names[1..]))
  }

  /** Opening is reaching, plus permission to read on the way. */
  lemma {:induction false} OpenIsReach(fs: Filesystem, at: Inode, names: seq<Name>)
    ensures forall d :: OpenWalk(fs, at, names) == Ok(d) <==> Reach(fs, at, names) == Some(d) && Readable(fs, at, names)
    decreases |names|
  {
    if names != [] && Entry(fs, at, names[0]).Ok? {
      OpenIsReach(fs, Entry(fs, at, names[0]).value, names[1..]);
    }
  }

  /** Where the descriptor walk goes, following changes nothing. */
  lemma {:induction false} ReachIsWalk(fs: Filesystem, at: Inode, names: seq<Name>, rest: seq<Name>, follow: bool, links: nat)
    requires Reach(fs, at, names).Some?
    ensures Walk(fs, at, names + rest, follow, links) == Walk(fs, Reach(fs, at, names).value, rest, follow, links)
    decreases |names|
  {
    if names == [] {
      assert names + rest == rest;
    } else {
      assert (names + rest)[0] == names[0] && (names + rest)[1..] == names[1..] + rest;
      var child := Entry(fs, at, names[0]).value;
      assert Look(fs, child).Directory? by {
        assert Reach(fs, child, names[1..]).Some?;
      }
      ReachIsWalk(fs, child, names[1..], rest, follow, links);
    }
  }

  /** The physical name of a path of plain directories is the path itself. */
  lemma {:induction false} ReachIsReal(fs: Filesystem, trail: seq<Name>, at: Inode, names: seq<Name>, links: nat)
    requires Reach(fs, at, names).Some? && forall p :: p in names ==> Normal(p)
    ensures RealPath(fs, trail, at, names, links) == Ok(trail + names)
    decreases |names|
  {
    if names == [] {
      assert trail + names == trail;
    } else {
      var child := Entry(fs, at, names[0]).value;
      assert Reach(fs, child, names[1..]).Some? && Look(fs, child).Directory?;
      assert Normal(names[0]) by {
        assert names[0] in names;
      }
      assert forall p :: p in names[1..] ==> p in names;
      ReachIsReal(fs, trail + [names[0]], child, names[1..], links);
      assert trail + [names[0]] + names[1..] == trail + names;
    }
  }

  /** What is asked of one ancestor: a real directory, or nothing there. */
  predicate AncestorOk(fs: Filesystem, names: seq<Name>) {
    match Lstat(fs, names)
    case Ok(i) => Look(fs, i).Directory?
    case Err(error) => error.Missing?
  }

  ghost predicate AncestorsOk(fs: Filesystem, names: seq<Name>) {
    forall k :: 0 <= k <= |names| ==> AncestorOk(fs, names[..k])
  }

  /** If the path exists and every ancestor is a real directory, the descriptor walk reaches it. */
  lemma AncestorsReach(fs: Filesystem, names: seq<Name>)
    requires Lstat(fs, names).Ok? && AncestorsOk(fs, names)
    ensures Reach(fs, fs.root, names) == Some(Lstat(fs, names).value)
  {
    PrefixReach(fs, names, |names|);
    assert names[..|names|] == names && names + [] == names;
    ReachIsWalk(fs, fs.root, names, [], false, fs.maxLinks);
  }

  lemma {:induction false} PrefixReach(fs: Filesystem, names: seq<Name>, k: nat)
    requires k <= |names| && Lstat(fs, names).Ok? && AncestorsOk(fs, names)
    ensures Reach(fs, fs.root, names[..k]).Some?
    decreases k
  {
    assert AncestorOk(fs, names[..k]);
    if k == 0 {
      assert names[..0] == [];
      assert Lstat(fs, []) == Ok(fs.root);
    } else {
      PrefixReach(fs, names, k - 1);
      var before := names[..k - 1];
      var at := Reach(fs, fs.root, before).value;
      assert names[..k] == before + [names[k - 1]] && names == before + names[k - 1..];
      ReachIsWalk(fs, fs.root, before, [names[k - 1]], false, fs.maxLinks);
      ReachIsWalk(fs, fs.root, before, names[k - 1..], false, fs.maxLinks);
      assert names[k - 1..][0] == names[k - 1];
      LastStep(fs, at, names[k - 1]);
      ReachExtends(fs, fs.root, before, names[k - 1]);
    }
  }

  /** Following no last link, the last name is just the entry. */
  lemma LastStep(fs: Filesystem, at: Inode, name: Name)
    ensures Walk(fs, at, [name], false, fs.maxLinks) == Entry(fs, at, name)
  {
    var child := Entry(fs, at, name);
    if child.Ok? {
      assert Walk(fs, child.value, [], false, fs.maxLinks) == Ok(child.value);
    }
  }

  lemma {:induction false} ReachExtends(fs: Filesystem, at: Inode, names: seq<Name>, name: Name)
    requires Reach(fs, at, names).Some?
    ensures var d := Reach(fs, at, names).value;
            Reach(fs, at, names + [name]) ==
            if Entry(fs, d, name).Ok? && Look(fs, Entry(fs, d, name).value).Directory?
            then Some(Entry(fs, d, name).value) else None
    decreases |names|
  {
    if names == [] {
      assert names + [name] == [name] && [name][1..] == [];
    } else {
      assert (names + [name])[0] == names[0] && (names + [name])[1..] == names[1..] + [name];
      ReachExtends(fs, Entry(fs, at, names[0]).value, names[1..], name);
    }
  }
}
