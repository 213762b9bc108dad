/**
 * Validation of an owned directory and of the handles opened under it: the ordinary
 * recursive check, and the bounded check that spends a shared budget.  The filesystem does
 * not change while a handle is validated.
 */
module Validation {
  import opened AcquireCost
  import opened Budget
  import opened Lookup
  import opened Machine
  import opened Wrappers

  /** The exclusive owner of a root: its canonical name, and its retained descriptors. */
  datatype Owner = Owner(canonical: Bytes, directoryIdentity: Inode, lockIdentity: Inode, directory: Inode, lock: Inode) {
    /** What acquisition establishes. */
    ghost predicate Valid() {
      Normalized(canonical) && directoryIdentity == directory && lockIdentity == lock
    }
  }

  /** A root handle, or a child that retains its parent; a descriptor pins an inode. */
  datatype Handle =
    | Root(owner: Owner, path: Bytes, fd: Inode)
    | Child(parent: Handle, name: Name, path: Bytes, fd: Inode)

  function RootOf(h: Handle): (r: Handle)
    ensures r.Root?
  {
    if h.Root? then h else RootOf(h.parent)
  }

  function Depth(h: Handle): nat {
    if h.Root? then 0 else Depth(h.parent) + 1
  }

  function Io(e: Error): OwnershipError {
    if e.Missing? then NotFound else OtherIo
  }

  // ---------------------------------------------------------------- ordinary validation

  /** Ancestors from the path itself up to the root. */
  function ScanAncestors(fs: Filesystem, names: seq<Name>, k: nat): Result<(), OwnershipError>
    requires k <= |names|
  {
    match Lstat(fs, names[..k])
    case Err(Failed) => Err(OtherIo)
    case Ok(i) =>
      if !Look(fs, i).Directory? then Err(IdentityMismatch)
      else if k == 0 then Ok(()) else ScanAncestors(fs, names, k - 1)
    case Err(Missing) => if k == 0 then Ok(()) else ScanAncestors(fs, names, k - 1)
  }

  function OrdinaryOwner(fs: Filesystem, o: Owner): Result<(), OwnershipError>
    requires o.canonical != []
  {
    var names := Components(o.canonical);
    match Lstat(fs, names)
    case Err(e) => Err(Io(e))
    case Ok(i) =>
      var scanned := ScanAncestors(fs, names, |names|);
      if scanned.Err? then scanned
      else if !Look(fs, i).Directory? || i != o.directoryIdentity then Err(IdentityMismatch)
      else
        match RealPath(fs, [], fs.root, names, fs.maxLinks)
        case Err(e) => Err(Io(e))
        case Ok(physical) => if physical != names then Err(IdentityMismatch) else OrdinaryLock(fs, o)
  }

  function OrdinaryLock(fs: Filesystem, o: Owner): Result<(), OwnershipError>
    requires o.canonical != []
  {
    match Lstat(fs, Components(o.canonical) + [LOCK_NAME])
    case Err(e) => Err(Io(e))
    case Ok(i) =>
      if !Look(fs, i).Regular? || Look(fs, i).links != 1 || i != o.lockIdentity then Err(IdentityMismatch) else Ok(())
  }

  /** The named entry must be the retained directory. */
  function EntryCheck(fs: Filesystem, parent: Inode, name: Name, fd: Inode): Result<(), OwnershipError> {
    match LstatAt(fs, parent, name)
    case Err(e) => Err(Io(e))
    case Ok(i) => if !Look(fs, fd).Directory? || i != fd then Err(IdentityMismatch) else Ok(())
  }

  function RootCheck(fs: Filesystem, path: Bytes, fd: Inode): Result<(), OwnershipError> {
    match LstatPath(fs, path)
    case Err(e) => Err(Io(e))
    case Ok(i) => if !Look(fs, i).Directory? || i != fd then Err(IdentityMismatch) else Ok(())
  }

  function Ordinary(fs: Filesystem, h: Handle): Result<(), OwnershipError>
    requires RootOf(h).owner.canonical != []
  {
    match h
    case Root(owner, path, fd) =>
      var owned := OrdinaryOwner(fs, owner);
      if owned.Err? then owned else RootCheck(fs, path, fd)
    case Child(parent, name, _, fd) =>
      var above := Ordinary(fs, parent);
      if above.Err? then above else EntryCheck(fs, parent.fd, name, fd)
  }

  // ---------------------------------------------------------------- what acceptance means

  /** The children from the root down to `h`. */
  function Chain(h: Handle): seq<Handle> {
    if h.Root? then [] else Chain(h.parent) + [h]
  }

  /** The canonical name leads, through plain directories, to the owned directory and its lock. */
  ghost predicate OwnerStands(fs: Filesystem, o: Owner)
    requires o.canonical != []
  {
    && Reach(fs, fs.root, Components(o.canonical)) == Some(o.directoryIdentity)
    && Entry(fs, o.directoryIdentity, LOCK_NAME) == Ok(o.lockIdentity)
    && Look(fs, o.lockIdentity).Regular? && Look(fs, o.lockIdentity).links == 1
  }

  /** The name of a child still leads, from its parent, to the directory that was retained. */
  ghost predicate ChildStands(fs: Filesystem, c: Handle) {
    c.Child? && LstatAt(fs, c.parent.fd, c.name) == Ok(c.fd) && Look(fs, c.fd).Directory?
  }

  /** Every name still leads to what was retained under it. */
  ghost predicate Stands(fs: Filesystem, h: Handle)
    requires RootOf(h).owner.canonical != []
  {
    var root := RootOf(h);
    && OwnerStands(fs, root.owner)
    && LstatPath(fs, root.path) == Ok(root.fd) && Look(fs, root.fd).Directory?
    && forall c :: c in Chain(h) ==> ChildStands(fs, c)
  }

  lemma ReachedAncestors(fs: Filesystem, names: seq<Name>)
    requires Reach(fs, fs.root, names).Some?
    ensures Lstat(fs, names) == Ok(Reach(fs, fs.root, names).value) && AncestorsOk(fs, names)
  {
    forall k | 0 <= k <= |names| ensures AncestorOk(fs, names[..k]) {
      ReachedPrefix(fs, fs.root, names, k);
      ReachIsWalk(fs, fs.root, names[..k], [], false, fs.maxLinks);
      assert names[..k] + [] == names[..k];
    }
    ReachIsWalk(fs, fs.root, names, [], false, fs.maxLinks);
    assert names + [] == names;
  }

  lemma {:induction false} ReachedPrefix(fs: Filesystem, at: Inode, names: seq<Name>, k: nat)
    requires k <= |names| && Reach(fs, at, names).Some?
    ensures Reach(fs, at, names[..k]).Some? && Look(fs, Reach(fs, at, names[..k]).value).Directory?
    decreases k
  {
    if k > 0 {
      assert names[..k][0] == names[0] && names[..k][1..] == names[1..][..k - 1];
      ReachedPrefix(fs, Entry(fs, at, names[0]).value, names[1..], k - 1);
    }
  }

  /** The scan of ancestors, the physical name and the two lookups together mean one plain descent. */
  lemma OwnerAcceptance(fs: Filesystem, o: Owner)
    requires o.Valid()
    ensures OrdinaryOwner(fs, o).Ok? <==> OwnerStands(fs, o)
  {
    hide Reach, Walk, RealPath, Components;
    var names := Components(o.canonical);
    ScanIsAncestors(fs, names, |names|);
    if OrdinaryOwner(fs, o).Ok? {
      AncestorsReach(fs, names);
    }
    if Reach(fs, fs.root, names).Some? {
      ReachedAncestors(fs, names);
      NamesAreNormal(o);
      ReachIsReal(fs, [], fs.root, names, fs.maxLinks);
      assert [] + names == names;
      ReachIsWalk(fs, fs.root, names, [LOCK_NAME], false, fs.maxLinks);
      LastStep(fs, Reach(fs, fs.root, names).value, LOCK_NAME);
      ReachedPrefix(fs, fs.root, names, |names|);
      assert names[..|names|] == names;
    }
  }

  lemma NamesAreNormal(o: Owner)
    requires o.Valid()
    ensures forall p :: p in Components(o.canonical) ==> Normal(p)
  {
  }

  /** Acceptance means that every name still leads to what was retained under it. */
  lemma {:induction false} OrdinaryAcceptance(fs: Filesystem, h: Handle)
    requires RootOf(h).owner.Valid()
    ensures Ordinary(fs, h).Ok? <==> Stands(fs, h)
  {
    hide OrdinaryOwner, OwnerStands, LstatAt, LstatPath;
    match h
    case Root(owner, _, _) => OwnerAcceptance(fs, owner);
    case Child(parent, _, _, _) =>
      OrdinaryAcceptance(fs, parent);
      assert Chain(h) == Chain(parent) + [h];
      assert h in Chain(h);
  }

  // ---------------------------------------------------------------- what the bounded form decides

  ghost predicate LockPinned(fs: Filesystem, o: Owner) {
    Entry(fs, o.directory, LOCK_NAME) == Ok(o.lock) && Look(fs, o.lock).Regular? && Look(fs, o.lock).links == 1
  }

  ghost predicate BoundedOwner(fs: Filesystem, o: Owner, path: Bytes) {
    && path != [] && path[0] == SLASH && path == o.canonical
    && var names := Components(path);
    && Lstat(fs, names) == Ok(o.directoryIdentity) && Look(fs, o.directoryIdentity).Directory?
    && AncestorsOk(fs, names)
    && OpenWalk(fs, fs.root, names) == Ok(o.directory)
    && LockPinned(fs, o)
  }

  ghost predicate Bounded(fs: Filesystem, h: Handle) {
    match h
    case Root(owner, path, fd) => BoundedOwner(fs, owner, path) && RootCheck(fs, path, fd).Ok?
    case Child(parent, name, _, fd) =>
      Bounded(fs, parent) && OneComponent(name) && EntryCheck(fs, parent.fd, name, fd).Ok?
  }

  ghost predicate ComponentNames(h: Handle) {
    h.Child? ==> OneComponent(h.name) && ComponentNames(h.parent)
  }

  lemma {:induction false} ScanIsAncestors(fs: Filesystem, names: seq<Name>, k: nat)
    requires k <= |names|
    ensures ScanAncestors(fs, names, k).Ok? <==> forall j :: 0 <= j <= k ==> AncestorOk(fs, names[..j])
  {
    if k > 0 {
      ScanIsAncestors(fs, names, k - 1);
    }
  }

  /** For a valid owner the two policies differ only in the permission to read on the way. */
  lemma OwnersAgree(fs: Filesystem, o: Owner)
    requires o.Valid()
    ensures BoundedOwner(fs, o, o.canonical) <==>
            OrdinaryOwner(fs, o).Ok? && Readable(fs, fs.root, Components(o.canonical))
  {
    var names := Components(o.canonical);
    ScanIsAncestors(fs, names, |names|);
    if Lstat(fs, names) == Ok(o.directory) && AncestorsOk(fs, names) {
      AncestorsReach(fs, names);
      OpenIsReach(fs, fs.root, names);
      ReachIsReal(fs, [], fs.root, names, fs.maxLinks);
      assert [] + names == names;
      ReachIsWalk(fs, fs.root, names, [LOCK_NAME], false, fs.maxLinks);
      LastStep(fs, o.directory, LOCK_NAME);
    }
  }

  /**
   * Exactly when bounded validation accepts: ordinary validation accepts, the root is named
   * canonically, every directory down to it may be read, and every child name is one component.
   */
  lemma {:induction false} BoundedIsOrdinary(fs: Filesystem, h: Handle)
    requires RootOf(h).owner.Valid()
    ensures var root := RootOf(h);
            Bounded(fs, h) <==>
            && Ordinary(fs, h).Ok? && root.path == root.owner.canonical && ComponentNames(h)
            && Readable(fs, fs.root, Components(root.owner.canonical))
  {
    match h
    case Root(owner, _, _) => OwnersAgree(fs, owner);
    case Child(parent, _, _, _) => BoundedIsOrdinary(fs, parent);
  }

  /** The extra conditions are real: an unreadable root passes only the ordinary check. */
  lemma OrdinaryAcceptsUnreadable()
    ensures exists fs, h: Handle ::
              h.Root? && h.owner.Valid() && Ordinary(fs, h).Ok? && h.path == h.owner.canonical && !Bounded(fs, h)
  {
    var top := Directory(map[LOCK_NAME := 2], true, false);
    var fs := Filesystem(map[1 := top, 2 := Regular(1)], 1, 1, 40);
    var path: Bytes := [SLASH];
    var h := Root(Owner(path, 1, 2, 1, 2), path, 1);
    assert Split(path[1..]) == [[]] && Split(path) == [[], []];
    assert Named([[], []]) == Named([[], []][1..]) == Named([[]]) == Named([[]][1..]) == [];
    assert Walk(fs, 1, [], true, 40) == Ok(1) && LstatPath(fs, path) == Ok(1);
    assert Lstat(fs, []) == Ok(1) && RealPath(fs, [], 1, [], 40) == Ok([]);
    LastStep(fs, 1, LOCK_NAME);
    assert [] + [LOCK_NAME] == [LOCK_NAME];
    assert ScanAncestors(fs, [], 0).Ok?;
    BoundedIsOrdinary(fs, h);
  }

  // ---------------------------------------------------------------- bounded validation

  /** Sizes of native values, and of this operation's own values, which the model leaves open. */
  datatype ValidationSizes = ValidationSizes(fixed: Size, metadata: Size, frame: Size, scope: Size, checks: Size, stat: Size)

  datatype ValidationCost = ValidationCost(declared: Size, entries: Size, strings: Size, work: Size)

  /** Checked facts about one validation of the root, from the length of its name. */
  function CostOfRoot(bytes: Size, z: ValidationSizes): (r: Option<ValidationCost>)
    ensures r.Some? ==> r.value.entries == 3 * (bytes + 1) + 13 && r.value.strings <= r.value.declared
  {
    var b1 :- CheckedAdd(bytes, 1);
    var b3 :- CheckedMul(b1, 3);
    var s0 :- CheckedAdd(b3, bytes);
    var strings :- CheckedAdd(s0, LOCK_BYTES + 1);
    var declared :- CheckedAdd(strings, z.fixed);
    var calls :- CheckedAdd(b3, 8);
    var entries :- CheckedAdd(calls, 5);
    var each :- CheckedAdd(b1, z.metadata);
    var scans :- CheckedMul(calls, each);
    var w0 :- CheckedAdd(declared, scans);
    var c2 :- CheckedMul(bytes, 2);
    var work :- CheckedAdd(w0, c2);
    Some(ValidationCost(declared, entries, strings, work))
  }

  /** The root cost is this closed form, and it is refused exactly when that overflows. */
  lemma RootCostIsClosed(bytes: Size, z: ValidationSizes)
    ensures var strings, calls := 4 * bytes + 3 + LOCK_BYTES + 1, 3 * (bytes + 1) + 8;
            var declared := strings + z.fixed;
            var work := declared + calls * (bytes + 1 + z.metadata) + 2 * bytes;
            && (CostOfRoot(bytes, z).Some? <==> calls + 5 < SIZE_LIMIT && work < SIZE_LIMIT)
            && (CostOfRoot(bytes, z).Some? ==>
                  CostOfRoot(bytes, z).value == ValidationCost(declared, calls + 5, strings, work))
  {
    var calls, each := 3 * (bytes + 1) + 8, bytes + 1 + z.metadata;
    AtLeastOnce(calls, each);
  }

  lemma AtLeastOnce(calls: nat, each: nat)
    requires calls > 0
    ensures calls * each >= each
  {
  }

  /** A reported identity mismatch, on time or late. */
  predicate Mismatch(f: Failure) {
    Blames(f, IdentityMismatch)
  }

  /** A native call answers what the filesystem holds, or fails for a reason of its own. */
  method Native<T>(answer: Result<T, Error>) returns (observed: Result<T, OwnershipError>)
    ensures observed.Ok? ==> answer == Ok(observed.value)
    ensures observed.Err? ==> observed.error.OtherIo? || (observed.error.NotFound? && answer == Err(Missing))
  {
    var fails := *;
    observed := if fails then Err(OtherIo) else if answer.Ok? then Ok(answer.value) else Err(Io(answer.error));
  }

  /** A native call between two budget checks, whose failure is final. */
  method Checked<T>(answer: Result<T, Error>, budget: NativeDirectoryBudget) returns (r: Result<T, Failure>)
    requires budget.Valid()
    modifies budget, budget.clock
    ensures budget.Valid() && Later(old(budget.state), old(budget.clock.now), budget.state, budget.clock.now)
    ensures r.Ok? ==> answer == Ok(r.value)
    ensures r.Err? ==> budget.Refused() && !Mismatch(r.error)
    ensures old(budget.Refused()) ==> r.Err?
  {
    hide NativeDirectoryBudget.Valid;
    var before := budget.Check();
    if before.Err? {
      return Err(before.error);
    }
    var observed := Native(answer);
    r := budget.Completed(observed);
  }

  /** As `Checked`, where a missing name is an answer. */
  method CheckedAncestor(fs: Filesystem, names: seq<Name>, budget: NativeDirectoryBudget) returns (r: Result<(), Failure>)
    requires budget.Valid()
    modifies budget, budget.clock
    ensures budget.Valid() && Later(old(budget.state), old(budget.clock.now), budget.state, budget.clock.now)
    ensures r.Ok? ==> AncestorOk(fs, names)
    ensures r.Err? && Mismatch(r.error) ==> !AncestorOk(fs, names)
  {
    hide NativeDirectoryBudget.Valid;
    var before := budget.Check();
    if before.Err? {
      return Err(before.error);
    }
    var observed := Native(Lstat(fs, names));
    var found := budget.CompletedOptional(observed);
    if found.Err? {
      return Err(found.error);
    }
    return if found.value.Some? && !Look(fs, found.value.value).Directory? then Err(Ownership(IdentityMismatch)) else Ok(());
  }

  /** Every ancestor, from the path itself up to the root. */
  method CheckedAncestors(fs: Filesystem, names: seq<Name>, budget: NativeDirectoryBudget)
    returns (r: Result<(), Failure>, ghost calls: nat)
    requires budget.Valid()
    modifies budget, budget.clock
    ensures budget.Valid() && Later(old(budget.state), old(budget.clock.now), budget.state, budget.clock.now)
    ensures r.Ok? ==> AncestorsOk(fs, names)
    ensures r.Err? && Mismatch(r.error) ==> !AncestorsOk(fs, names)
    ensures calls <= |names| + 1
  {
    hide NativeDirectoryBudget.Valid;
    calls := 0;
    var k := |names| + 1;
    while k > 0
      invariant 0 <= k <= |names| + 1 && calls == |names| + 1 - k
      invariant budget.Valid() && Later(old(budget.state), old(budget.clock.now), budget.state, budget.clock.now)
      invariant forall j :: k <= j <= |names| ==> AncestorOk(fs, names[..j])
    {
      k := k - 1;
      calls := calls + 1;
      r := CheckedAncestor(fs, names[..k], budget);
      if r.Err? {
        return;
      }
    }
    r := Ok(());
  }

  /** One component opened at a time; the parent stays open until its child is. */
  method CheckedOpens(fs: Filesystem, names: seq<Name>, budget: NativeDirectoryBudget)
    returns (r: Result<Inode, Failure>, ghost calls: nat)
    requires budget.Valid()
    modifies budget, budget.clock
    ensures budget.Valid() && Later(old(budget.state), old(budget.clock.now), budget.state, budget.clock.now)
    ensures r.Ok? ==> OpenWalk(fs, fs.root, names) == Ok(r.value)
    ensures r.Err? ==> !Mismatch(r.error)
    ensures calls <= |names| + 1
  {
    hide NativeDirectoryBudget.Valid;
    calls := 1;
    r := Checked(OpenWalk(fs, fs.root, []), budget);
    for k := 0 to |names|
      invariant budget.Valid() && Later(old(budget.state), old(budget.clock.now), budget.state, budget.clock.now)
      invariant r.Ok? ==> OpenWalk(fs, fs.root, names[..k]) == Ok(r.value)
      invariant r.Err? ==> !Mismatch(r.error)
      invariant calls <= k + 1
    {
      if r.Err? {
        return;
      }
      var next := Entry(fs, r.value, names[k]);
      OpenExtends(fs, fs.root, names[..k], names[k]);
      assert names[..k + 1] == names[..k] + [names[k]];
      calls := calls + 1;
      r := Checked(if next.Ok? then OpenWalk(fs, next.value, []) else next, budget);
      if r.Ok? {
        var after := budget.Check();
        if after.Err? {
          r := Err(after.error);
        }
      }
    }
    assert names[..|names|] == names;
  }

  lemma {:induction false} OpenExtends(fs: Filesystem, at: Inode, names: seq<Name>, name: Name)
    requires OpenWalk(fs, at, names).Ok?
    ensures var next := Entry(fs, OpenWalk(fs, at, names).value, name);
            OpenWalk(fs, at, names + [name]) == if next.Ok? then OpenWalk(fs, next.value, []) else next
    decreases |names|
  {
    if names == [] {
      assert names + [name] == [name] && [name][1..] == [];
    } else {
      assert (names + [name])[0] == names[0] && (names + [name])[1..] == names[1..] + [name];
      OpenExtends(fs, Entry(fs, at, names[0]).value, names[1..], name);
    }
  }

  /** The opened directory must be the retained one, and hold the retained lock with one link. */
  method CheckedPins(fs: Filesystem, o: Owner, resolved: Inode, budget: NativeDirectoryBudget) returns (r: Result<(), Failure>)
    requires budget.Valid() && Look(fs, resolved).Directory?
    modifies budget, budget.clock
    ensures budget.Valid() && Later(old(budget.state), old(budget.clock.now), budget.state, budget.clock.now)
    ensures r.Ok? ==> resolved == o.directory && LockPinned(fs, o)
    ensures r.Err? && Mismatch(r.error) ==> resolved != o.directory || !LockPinned(fs, o)
  {
    hide NativeDirectoryBudget.Valid;
    var walked := Checked<Inode>(Ok(resolved), budget);
    if walked.Err? {
      return Err(walked.error);
    }
    var retained := Checked<Inode>(Ok(o.directory), budget);
    if retained.Err? {
      return Err(retained.error);
    }
    if walked.value != retained.value {
      return Err(Ownership(IdentityMismatch));
    }
    var named := Checked(Entry(fs, resolved, LOCK_NAME), budget);
    if named.Err? {
      return Err(named.error);
    }
    var held := Checked<Inode>(Ok(o.lock), budget);
    if held.Err? {
      return Err(held.error);
    }
    if !Look(fs, named.value).Regular? || Look(fs, named.value).links != 1 || named.value != held.value {
      return Err(Ownership(IdentityMismatch));
    }
    r := budget.Check();
  }

  /** Validates the exact canonical name of the root under the budget's deadline. */
  method CheckedRoot(fs: Filesystem, o: Owner, path: Bytes, budget: NativeDirectoryBudget, z: ValidationSizes)
    returns (r: Result<(), Failure>, ghost calls: nat)
    requires budget.Valid() && o.Valid() && |path| < SIZE_LIMIT
    modifies budget, budget.clock
    ensures budget.Valid() && Later(old(budget.state), old(budget.clock.now), budget.state, budget.clock.now)
    ensures r.Ok? ==> BoundedOwner(fs, o, path)
    ensures r.Err? && Mismatch(r.error) ==> !BoundedOwner(fs, o, path)
    ensures calls <= 3 * (|path| + 1) + 13
  {
    hide NativeDirectoryBudget.Valid, AncestorsOk, OpenWalk, Lstat, LockPinned, Look;
    calls := 0;
    r := budget.Check();
    if r.Err? {
      return;
    }
    if path == [] || path[0] != SLASH || path != o.canonical {
      return Err(Ownership(IdentityMismatch)), 0;
    }
    if CostOfRoot(|path|, z).None? {
      return Err(Capacity), 0;
    }
    var names := Components(path);
    NamesFit(path);
    calls := 1;
    var metadata := Checked(Lstat(fs, names), budget);
    if metadata.Err? {
      return Err(metadata.error), calls;
    }
    ghost var more;
    r, more := CheckedAncestors(fs, names, budget);
    calls := calls + more;
    if r.Err? {
      return;
    }
    r := budget.Check();
    if r.Err? {
      return;
    }
    if !Look(fs, metadata.value).Directory? || metadata.value != o.directoryIdentity {
      return Err(Ownership(IdentityMismatch)), calls;
    }
    var resolved;
    resolved, more := CheckedOpens(fs, names, budget);
    calls := calls + more;
    if resolved.Err? {
      return Err(resolved.error), calls;
    }
    OpenedDirectory(fs, fs.root, names);
    calls := calls + 4;
    r := CheckedPins(fs, o, resolved.value, budget);
  }

  lemma NamesFit(path: Bytes)
    requires Normalized(path)
    ensures |Components(path)| <= |path|
  {
    if path != [SLASH] {
      JoinSplit(path[1..]);
      PartFits(Components(path), Components(path)[0]);
    }
  }

  lemma {:induction false} OpenedDirectory(fs: Filesystem, at: Inode, names: seq<Name>)
    ensures OpenWalk(fs, at, names).Ok? ==> Look(fs, OpenWalk(fs, at, names).value).Directory?
    decreases |names|
  {
    if names != [] && Entry(fs, at, names[0]).Ok? {
      OpenedDirectory(fs, Entry(fs, at, names[0]).value, names[1..]);
    }
  }

  function Calls(s: State): nat {
    s.usage.calls
  }

  /** The native calls of one validation of the root, and of one of a child. */
  function RootCalls(path: Bytes): nat {
    3 * (|path| + 1) + 15
  }

  const CHILD_CALLS := 3

  /** The native calls that validating a handle prepays. */
  function PrepaidCalls(h: Handle): nat {
    if h.Root? then RootCalls(h.path) else PrepaidCalls(h.parent) + CHILD_CALLS
  }

  /** A charged native call: paid, checked, entered and classified. */
  method Call<T>(answer: Result<T, Error>, bytes: Size, budget: NativeDirectoryBudget) returns (r: Result<T, Failure>)
    requires budget.Valid()
    modifies budget, budget.clock
    ensures budget.Valid() && Later(old(budget.state), old(budget.clock.now), budget.state, budget.clock.now)
    ensures r.Ok? ==> answer == Ok(r.value)
    ensures r.Err? ==> budget.Refused() && !Mismatch(r.error)
    ensures r.Ok? ==> Calls(old(budget.state)) + 1 <= Calls(budget.state)
  {
    hide NativeDirectoryBudget.Valid;
    var paid := budget.Charge(Fee(0, 1, bytes, 0, 2, bytes));
    if paid.Err? {
      return Err(paid.error);
    }
    r := Checked(answer, budget);
  }

  method ValidateEntryUntil(
    fs: Filesystem, parent: Inode, name: Name, fd: Inode, budget: NativeDirectoryBudget, z: ValidationSizes)
    returns (r: Result<(), Failure>)
    requires budget.Valid()
    modifies budget, budget.clock
    ensures budget.Valid() && Later(old(budget.state), old(budget.clock.now), budget.state, budget.clock.now)
    ensures r.Ok? ==> OneComponent(name) && EntryCheck(fs, parent, name, fd).Ok?
    ensures r.Err? && Mismatch(r.error) ==> !(OneComponent(name) && EntryCheck(fs, parent, name, fd).Ok?)
    ensures r.Ok? ==> Calls(old(budget.state)) + CHILD_CALLS <= Calls(budget.state)
    ensures r.Ok? ==> |name| <= budget.limits.maxComponentBytes
  {
    hide NativeDirectoryBudget.Valid;
    r := budget.Check();
    if r.Err? {
      return;
    }
    if !OneComponent(name) {
      return Err(Ownership(IdentityMismatch));
    }
    if |name| > budget.limits.maxComponentBytes || |name| + 1 + z.frame >= SIZE_LIMIT {
      return Err(Capacity);
    }
    var bytes := |name| + 1 + z.frame;
    r := budget.Charge(Fee(0, 0, bytes, |name| + 1, 5, bytes));
    if r.Err? {
      return;
    }
    var actual := Call<Inode>(Ok(fd), z.metadata, budget);
    if actual.Err? {
      return Err(actual.error);
    }
    var walked := Call<Inode>(Ok(fd), z.stat, budget);
    if walked.Err? {
      return Err(walked.error);
    }
    var named := Call(LstatAt(fs, parent, name), z.stat, budget);
    if named.Err? {
      return Err(named.error);
    }
    if !Look(fs, actual.value).Directory? || named.value != walked.value {
      return Err(Ownership(IdentityMismatch));
    }
    r := budget.Check();
  }

  /** The root validator, adapted to the budget: every refusal in it is made final. */
  method ValidateOwnerUntil(fs: Filesystem, o: Owner, path: Bytes, budget: NativeDirectoryBudget, z: ValidationSizes)
    returns (r: Result<(), Failure>)
    requires budget.Valid() && o.Valid() && |path| < SIZE_LIMIT
    modifies budget, budget.clock
    ensures budget.Valid() && Later(old(budget.state), old(budget.clock.now), budget.state, budget.clock.now)
    ensures r.Ok? ==> BoundedOwner(fs, o, path)
    ensures r.Err? && Mismatch(r.error) ==> !BoundedOwner(fs, o, path)
    ensures r.Ok? ==> Calls(old(budget.state)) + 3 * (|path| + 1) + 13 <= Calls(budget.state)
  {
    hide NativeDirectoryBudget.Valid;
    r := budget.Check();
    if r.Err? {
      return;
    }
    if path == [] || path[0] != SLASH || path != o.canonical {
      return Err(Ownership(IdentityMismatch));
    }
    var cost := CostOfRoot(|path|, z);
    if cost.None? {
      return Err(Capacity);
    }
    var c := cost.value;
    r := budget.Charge(Fee(0, c.entries, c.declared, c.strings, c.entries, c.work));
    if r.Err? {
      return;
    }
    r := budget.Charge(Fee(0, 0, z.checks, 0, 1, z.checks));
    if r.Err? {
      return;
    }
    ghost var calls;
    r, calls := CheckedRoot(fs, o, path, budget, z);
    // The calls that were started are among those the charge above paid for.
    assert calls <= c.entries;
    r := budget.Finish(r);
  }

  method ValidateRootUntil(
    fs: Filesystem, o: Owner, path: Bytes, fd: Inode, budget: NativeDirectoryBudget, z: ValidationSizes)
    returns (r: Result<(), Failure>)
    requires budget.Valid() && o.Valid() && |path| < SIZE_LIMIT
    modifies budget, budget.clock
    ensures budget.Valid() && Later(old(budget.state), old(budget.clock.now), budget.state, budget.clock.now)
    ensures r.Ok? ==> BoundedOwner(fs, o, path) && RootCheck(fs, path, fd).Ok?
    ensures r.Err? && Mismatch(r.error) ==> !(BoundedOwner(fs, o, path) && RootCheck(fs, path, fd).Ok?)
    ensures r.Ok? ==> Calls(old(budget.state)) + RootCalls(path) <= Calls(budget.state)
  {
    hide NativeDirectoryBudget.Valid, BoundedOwner;
    r := ValidateOwnerUntil(fs, o, path, budget, z);
    if r.Err? {
      return;
    }
    var observed := Call(LstatPath(fs, path), z.metadata, budget);
    if observed.Err? {
      return Err(observed.error);
    }
    var actual := Call<Inode>(Ok(fd), z.metadata, budget);
    if actual.Err? {
      return Err(actual.error);
    }
    if !Look(fs, observed.value).Directory? || observed.value != actual.value {
      return Err(Ownership(IdentityMismatch));
    }
    r := budget.Check();
  }

  /** Every path and every child name on the chain is within the limits. */
  ghost predicate Sized(limits: Limits, h: Handle) {
    && |h.path| <= limits.maxPathBytes
    && (h.Child? ==> |h.name| <= limits.maxComponentBytes && Sized(limits, h.parent))
  }

  /** A handle and, before it, every parent up to the root, all from one budget. */
  method ValidateHandle(fs: Filesystem, h: Handle, budget: NativeDirectoryBudget, depth: nat, z: ValidationSizes)
    returns (r: Result<(), Failure>)
    requires budget.Valid() && RootOf(h).owner.Valid()
    modifies budget, budget.clock
    ensures budget.Valid() && Later(old(budget.state), old(budget.clock.now), budget.state, budget.clock.now)
    ensures r.Ok? ==> Bounded(fs, h) && depth + Depth(h) <= budget.limits.maxDepth
    ensures r.Err? && Mismatch(r.error) ==> !Bounded(fs, h)
    ensures r.Ok? ==> Calls(old(budget.state)) + PrepaidCalls(h) <= Calls(budget.state)
    ensures r.Ok? ==> Sized(budget.limits, h)
    decreases h
  {
    hide NativeDirectoryBudget.Valid, BoundedOwner, RootCheck, EntryCheck;
    r := budget.Check();
    if r.Err? {
      return;
    }
    if depth > budget.limits.maxDepth || |h.path| > budget.limits.maxPathBytes {
      return Err(Capacity);
    }
    r := budget.Charge(Fee(0, 0, z.frame, 0, 3, z.frame));
    if r.Err? {
      return;
    }
    match h
    case Root(owner, path, fd) => r := ValidateRootUntil(fs, owner, path, fd, budget, z);
    case Child(parent, name, _, fd) =>
      r := ValidateHandle(fs, parent, budget, depth + 1, z);
      if r.Ok? {
        r := ValidateEntryUntil(fs, parent.fd, name, fd, budget, z);
      }
  }

  /**
   * Bounded validation.  Success is success of ordinary validation, whatever the depth; a
   * reported mismatch is real; and every refusal ends the budget for all its clones.
   */
  method ValidateUntil(fs: Filesystem, h: Handle, budget: NativeDirectoryBudget, z: ValidationSizes)
    returns (r: Result<(), Failure>)
    requires budget.Valid() && RootOf(h).owner.Valid()
    modifies budget, budget.clock
    ensures budget.Valid() && Later(old(budget.state), old(budget.clock.now), budget.state, budget.clock.now)
    ensures r.Ok? ==> Bounded(fs, h) && Ordinary(fs, h).Ok? && Depth(h) <= budget.limits.maxDepth
    ensures r.Ok? ==> Stands(fs, h) && !budget.Refused()
    ensures r.Err? ==> budget.state.denied
    ensures r.Err? && Mismatch(r.error) ==> !Bounded(fs, h)
    ensures old(budget.Refused()) ==> r.Err?
    ensures r.Ok? ==> Calls(old(budget.state)) + PrepaidCalls(h) <= Calls(budget.state)
    ensures r.Ok? ==> Sized(budget.limits, h)
  {
    hide NativeDirectoryBudget.Valid, Bounded, Ordinary, Stands;
    r := budget.Charge(Fee(1, 0, z.scope, 0, 2, z.scope));
    if r.Ok? {
      r := budget.Check();
    }
    if r.Ok? {
      var observed := ValidateHandle(fs, h, budget, 0, z);
      r := budget.Finish(observed);
      BoundedIsOrdinary(fs, h);
      OrdinaryAcceptance(fs, h);
    }
    if r.Err? {
      budget.Deny();
    }
  }
}
