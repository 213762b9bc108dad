/**
 * The validation that storage operations make before and after their native call: the same
 * identity decisions as bounded validation, with both budgets and the outer health checked
 * around every step, and composed denial on every refusal.
 */
module FetchValidation {
  import opened AcquireCost
  import opened Budget
  import opened Denial
  import opened Lookup
  import opened Machine
  import opened Validation
  import opened Wrappers

  /** The outcome keeps the consumed handle, refused or not. */
  datatype Validated = Validated(input: Handle, cause: Option<Cause>)

  method Checkpoint(work: Work) returns (r: Step<(), Cause>)
    requires work.Valid()
    modifies work.core, work.core.clock, work.native`refusals, work.outer`refusals
    ensures work.Valid() && Later(old(work.core.state), old(work.core.clock.now), work.core.state, work.core.clock.now)
    ensures r.Done? ==> work.Quiet()
    ensures old(work.outerDenyAttempted) ==> !r.Done?
  {
    var first := work.core.Check();
    if first.Err? {
      return Refused(CoreRefused);
    }
    var funded := work.native.Check();
    if !funded {
      return Refused(NativeRefused);
    }
    var composed := work.Check();
    if composed.Unwinding? {
      return Unwinding;
    }
    var second := work.core.Check();
    funded := work.native.Check();
    return if second.Err? then Refused(CoreRefused)
           else if !funded then Refused(NativeRefused)
           else if composed.Refused? then Refused(CheckpointRefused)
           else Done(());
  }

  /** What a phase costs depends on native value sizes and name lengths. */
  method AnyFee() returns (fee: Fee)
  {
    var operations: Size :| operations >= 0;
    var calls: Size :| calls >= 0;
    var declared: Size :| declared >= 0;
    var strings: Size :| strings >= 0;
    var entries: Size :| entries >= 0;
    var cpu: Size :| cpu >= 0;
    fee := Fee(operations, calls, declared, strings, entries, cpu);
  }

  method Pay(work: Work) returns (r: Step<(), Cause>)
    requires work.Valid()
    modifies work.core, work.core.clock
    ensures work.Valid() && Later(old(work.core.state), old(work.core.clock.now), work.core.state, work.core.clock.now)
    ensures !r.Unwinding?
  {
    var fee := AnyFee();
    var paid := work.core.Charge(fee);
    return if paid.Err? then Refused(CoreRefused) else Done(());
  }

  /** Pays for a phase and reserves the slot that will keep its result. */
  method Prepare(work: Work) returns (r: Step<(), Cause>)
    requires work.Valid()
    modifies work.core, work.core.clock, work.native`refusals, work.outer`refusals, work`allocationFailures
    ensures work.Valid() && Later(old(work.core.state), old(work.core.clock.now), work.core.state, work.core.clock.now)
    ensures r.Done? ==> work.Quiet()
  {
    hide Work.Valid;
    var _ :- Checkpoint(work);
    var _ :- Pay(work);
    var grows := *;
    if grows {
      var _ :- Pay(work);
      var _ :- Checkpoint(work);
      var granted := work.Allocate();
      if !granted {
        return Refused(AllocationRefused);
      }
      var _ :- Pay(work);
    }
    r := Checkpoint(work);
  }

  /** A prepared native phase; its result is kept before it is judged. */
  method Phase<T>(work: Work, answer: Result<T, Error>) returns (r: Step<T, Cause>)
    requires work.Valid()
    modifies work.core, work.core.clock, work.native`refusals, work.outer`refusals, work`allocationFailures
    ensures work.Valid() && Later(old(work.core.state), old(work.core.clock.now), work.core.state, work.core.clock.now)
    ensures r.Done? ==> work.Quiet()
    ensures r.Done? ==> answer == Ok(r.value)
  {
    hide Work.Valid;
    var _ :- Prepare(work);
    var observed := Native(answer);
    var _ :- Checkpoint(work);
    return if observed.Err? then Refused(OwnershipRefused) else Done(observed.value);
  }

  /** A prepared identity decision. */
  method Decide(work: Work, accepted: bool) returns (r: Step<(), Cause>)
    requires work.Valid()
    modifies work.core, work.core.clock, work.native`refusals, work.outer`refusals, work`allocationFailures
    ensures work.Valid() && Later(old(work.core.state), old(work.core.clock.now), work.core.state, work.core.clock.now)
    ensures r.Done? ==> work.Quiet()
    ensures r.Done? ==> accepted
  {
    hide Work.Valid;
    var _ :- Prepare(work);
    var _ :- Checkpoint(work);
    return if accepted then Done(()) else Refused(OwnershipRefused);
  }

  /** One ancestor; a name that is missing is passed over. */
  method FetchAncestor(fs: Filesystem, names: seq<Name>, work: Work) returns (r: Step<(), Cause>)
    requires work.Valid()
    modifies work.core, work.core.clock, work.native`refusals, work.outer`refusals, work`allocationFailures
    ensures work.Valid() && Later(old(work.core.state), old(work.core.clock.now), work.core.state, work.core.clock.now)
    ensures r.Done? ==> work.Quiet()
    ensures r.Done? ==> AncestorOk(fs, names)
  {
    hide Work.Valid;
    var _ :- Prepare(work);
    var observed := Native(Lstat(fs, names));
    var _ :- Checkpoint(work);
    if observed.Err? {
      return if observed.error.NotFound? then Done(()) else Refused(OwnershipRefused);
    }
    r := Decide(work, Look(fs, observed.value).Directory?);
  }

  method FetchAncestors(fs: Filesystem, names: seq<Name>, work: Work) returns (r: Step<(), Cause>)
    requires work.Valid()
    modifies work.core, work.core.clock, work.native`refusals, work.outer`refusals, work`allocationFailures
    ensures work.Valid() && Later(old(work.core.state), old(work.core.clock.now), work.core.state, work.core.clock.now)
    ensures r.Done? ==> work.Quiet()
    ensures r.Done? ==> AncestorsOk(fs, names)
  {
    hide Work.Valid;
    var k := |names| + 1;
    while k > 0
      invariant 0 <= k <= |names| + 1 && work.Valid()
      invariant Later(old(work.core.state), old(work.core.clock.now), work.core.state, work.core.clock.now)
      invariant work.Quiet()
      invariant forall j :: k <= j <= |names| ==> AncestorOk(fs, names[..j])
    {
      k := k - 1;
      var _ :- FetchAncestor(fs, names[..k], work);
    }
    return Done(());
  }

  method FetchOpens(fs: Filesystem, names: seq<Name>, work: Work) returns (r: Step<Inode, Cause>)
    requires work.Valid()
    modifies work.core, work.core.clock, work.native`refusals, work.outer`refusals, work`allocationFailures
    ensures work.Valid() && Later(old(work.core.state), old(work.core.clock.now), work.core.state, work.core.clock.now)
    ensures r.Done? ==> work.Quiet()
    ensures r.Done? ==> OpenWalk(fs, fs.root, names) == Ok(r.value)
  {
    hide Work.Valid;
    var resolved :- Phase(work, OpenWalk(fs, fs.root, []));
    for k := 0 to |names|
      invariant work.Valid()
      invariant Later(old(work.core.state), old(work.core.clock.now), work.core.state, work.core.clock.now)
      invariant work.Quiet()
      invariant OpenWalk(fs, fs.root, names[..k]) == Ok(resolved)
    {
      if |names[k]| > work.core.limits.maxComponentBytes {
        return Refused(CoreRefused);
      }
      var _ :- Decide(work, true);
      var next := Entry(fs, resolved, names[k]);
      OpenExtends(fs, fs.root, names[..k], names[k]);
      assert names[..k + 1] == names[..k] + [names[k]];
      resolved :- Phase(work, if next.Ok? then OpenWalk(fs, next.value, []) else next);
    }
    assert names[..|names|] == names;
    return Done(resolved);
  }

  method FetchPins(fs: Filesystem, o: Owner, resolved: Inode, work: Work) returns (r: Step<(), Cause>)
    requires work.Valid()
    modifies work.core, work.core.clock, work.native`refusals, work.outer`refusals, work`allocationFailures
    ensures work.Valid() && Later(old(work.core.state), old(work.core.clock.now), work.core.state, work.core.clock.now)
    ensures r.Done? ==> work.Quiet()
    ensures r.Done? ==> resolved == o.directory && LockPinned(fs, o)
  {
    hide Work.Valid;
    var walked :- Phase<Inode>(work, Ok(resolved));
    var retained :- Phase<Inode>(work, Ok(o.directory));
    var _ :- Decide(work, Look(fs, walked).Directory? && walked == retained);
    var named :- Phase(work, Entry(fs, resolved, LOCK_NAME));
    var held :- Phase<Inode>(work, Ok(o.lock));
    var _ :- Decide(work, Look(fs, named).Regular? && Look(fs, named).links == 1 && named == held);
    r := Checkpoint(work);
  }

  method FetchOwner(fs: Filesystem, o: Owner, path: Bytes, work: Work) returns (r: Step<(), Cause>)
    requires work.Valid() && o.Valid()
    modifies work.core, work.core.clock, work.native`refusals, work.outer`refusals, work`allocationFailures
    ensures work.Valid() && Later(old(work.core.state), old(work.core.clock.now), work.core.state, work.core.clock.now)
    ensures r.Done? ==> work.Quiet()
    ensures r.Done? ==> BoundedOwner(fs, o, path)
  {
    hide Work.Valid;
    var _ :- Decide(work, path != [] && path[0] == SLASH && path == o.canonical);
    var names := Components(path);
    var initial :- Phase(work, Lstat(fs, names));
    var _ :- FetchAncestors(fs, names, work);
    var _ :- Decide(work, Look(fs, initial).Directory? && initial == o.directoryIdentity);
    var resolved :- FetchOpens(fs, names, work);
    r := FetchPins(fs, o, resolved, work);
  }

  method FetchRoot(fs: Filesystem, o: Owner, path: Bytes, fd: Inode, work: Work) returns (r: Step<(), Cause>)
    requires work.Valid() && o.Valid()
    modifies work.core, work.core.clock, work.native`refusals, work.outer`refusals, work`allocationFailures
    ensures work.Valid() && Later(old(work.core.state), old(work.core.clock.now), work.core.state, work.core.clock.now)
    ensures r.Done? ==> work.Quiet()
    ensures r.Done? ==> BoundedOwner(fs, o, path) && RootCheck(fs, path, fd).Ok?
  {
    hide Work.Valid, BoundedOwner, LstatPath;
    var _ :- FetchOwner(fs, o, path, work);
    var named :- Phase(work, LstatPath(fs, path));
    var actual :- Phase<Inode>(work, Ok(fd));
    var _ :- Decide(work, Look(fs, named).Directory? && named == actual);
    r := Checkpoint(work);
  }

  /** A handle after every parent up to the root. */
  method FetchHandle(fs: Filesystem, h: Handle, depth: nat, work: Work) returns (r: Step<(), Cause>)
    requires work.Valid() && RootOf(h).owner.Valid()
    modifies work.core, work.core.clock, work.native`refusals, work.outer`refusals, work`allocationFailures
    ensures work.Valid() && Later(old(work.core.state), old(work.core.clock.now), work.core.state, work.core.clock.now)
    ensures r.Done? ==> work.Quiet()
    ensures r.Done? ==> Bounded(fs, h) && depth + Depth(h) <= work.core.limits.maxDepth
    ensures r.Done? ==> Sized(work.core.limits, h)
    decreases h
  {
    hide Work.Valid, BoundedOwner, RootCheck, EntryCheck;
    var _ :- Checkpoint(work);
    if depth > work.core.limits.maxDepth || |h.path| > work.core.limits.maxPathBytes {
      return Refused(CoreRefused);
    }
    var _ :- Pay(work);
    match h
    case Root(owner, path, fd) => r := FetchRoot(fs, owner, path, fd, work);
    case Child(parent, name, _, fd) =>
      var _ :- FetchHandle(fs, parent, depth + 1, work);
      r := FetchEntry(fs, parent.fd, name, fd, work);
  }

  method FetchEntry(fs: Filesystem, parent: Inode, name: Name, fd: Inode, work: Work) returns (r: Step<(), Cause>)
    requires work.Valid()
    modifies work.core, work.core.clock, work.native`refusals, work.outer`refusals, work`allocationFailures
    ensures work.Valid() && Later(old(work.core.state), old(work.core.clock.now), work.core.state, work.core.clock.now)
    ensures r.Done? ==> work.Quiet()
    ensures r.Done? ==> OneComponent(name) && EntryCheck(fs, parent, name, fd).Ok?
    ensures r.Done? ==> |name| <= work.core.limits.maxComponentBytes
  {
    hide Work.Valid;
    if |name| > work.core.limits.maxComponentBytes {
      return Refused(CoreRefused);
    }
    var _ :- Decide(work, OneComponent(name));
    var _ :- Decide(work, 0 !in name);
    var actual :- Phase<Inode>(work, Ok(fd));
    var walked :- Phase<Inode>(work, Ok(fd));
    var named :- Phase(work, LstatAt(fs, parent, name));
    var _ :- Decide(work, Look(fs, actual).Directory? && named == walked);
    r := Checkpoint(work);
  }

  /** Denies both budgets, then the composed check once; panics are caught one by one. */
  method DenyAll(work: Work)
    requires work.Valid()
    modifies work, work.core, work.native, work.outer
    ensures work.Valid() && work.outerDenyAttempted && work.core.state == old(work.core.state).(denied := true)
  {
    work.core.Deny();
    var _ := work.native.Deny();
    var _ := work.DenyFromValidation();
  }

  /**
   * Consumes a retained handle.  Success accepts what ordinary validation accepts and
   * denies nothing; every refusal has made the outer denial before it returns.
   */
  method ValidateForFetch(fs: Filesystem, h: Handle, work: Work) returns (r: Validated)
    requires work.Valid() && RootOf(h).owner.Valid()
    modifies work, work.core, work.core.clock, work.native, work.outer
    ensures work.Valid() && r.input == h
    ensures r.cause.None? ==> Bounded(fs, h) && Ordinary(fs, h).Ok? && Stands(fs, h) && work.Quiet()
    ensures r.cause.None? ==> Sized(work.core.limits, h) && Depth(h) <= work.core.limits.maxDepth
    ensures r.cause.None? ==> work.outerDenyAttempted == old(work.outerDenyAttempted)
    ensures r.cause.Some? ==> work.outerDenyAttempted
    ensures work.core.state.expiry <= work.native.expiry
  {
    hide Bounded, Ordinary, Stands;
    var result := Traverse(fs, h, work);
    BoundedIsOrdinary(fs, h);
    OrdinaryAcceptance(fs, h);
    if result.Done? {
      return Validated(h, None);
    }
    DenyAll(work);
    return Validated(h, Some(if result.Refused? then result.refusal else Unwound));
  }

  method Traverse(fs: Filesystem, h: Handle, work: Work) returns (r: Step<(), Cause>)
    requires work.Valid() && RootOf(h).owner.Valid()
    modifies work.core, work.core.clock, work.native`refusals, work.outer`refusals, work`allocationFailures
    ensures work.Valid() && work.core.state.expiry <= work.native.expiry
    ensures r.Done? ==> Bounded(fs, h) && work.Quiet()
    ensures r.Done? ==> Sized(work.core.limits, h) && Depth(h) <= work.core.limits.maxDepth
  {
    hide Bounded;
    var capped := work.core.CapExpiry(work.native.expiry);
    if capped.Err? {
      return Refused(CoreRefused);
    }
    var _ :- Checkpoint(work);
    var _ :- Pay(work);
    var _ :- FetchHandle(fs, h, 0, work);
    r := Checkpoint(work);
  }
}
