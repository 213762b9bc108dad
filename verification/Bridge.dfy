/**
 * Consuming bridges: an opened store becomes a canonical log, and a log is read and
 * restored.  Every exit keeps the native store or log, and the shared directory, in exactly
 * one place, and every refusal makes the outer denial exactly once.
 */
module Bridge {
  import opened Budget
  import opened Denial
  import opened FetchValidation
  import opened Lookup
  import opened Validation
  import opened Wrappers

  /** The native store, and the log it is converted into, carry one identity. */
  datatype Store = Store(id: nat)
  datatype Log = Log(id: nat)

  /** A producer returns the log, or an error that owns what it consumed. */
  datatype Conversion = Converted(log: Log) | Unconverted(store: Store)
  datatype Reading = Read(log: Log, records: seq<nat>) | Unread(log: Log)

  datatype SharedDirectory = SharedDirectory(id: nat, parent: Handle)

  function One(b: bool): nat {
    if b then 1 else 0
  }

  /** A storage producer: it checks as often as it likes, and denies its own budget first. */
  method Producer(work: Work) returns (ok: bool)
    requires work.Valid()
    modifies work, work.core, work.core.clock, work.native, work.outer
    ensures work.Valid() && (ok ==> work.Quiet())
  {
    ok := true;
    var n: nat :| n >= 0;
    while n > 0 && ok
      invariant work.Valid() && (ok ==> work.Quiet())
    {
      var checked := work.Check();
      ok := checked.Done?;
      n := n - 1;
    }
    var fails, denies := *, *;
    ok := ok && !fails;
    if !ok && denies {
      var _ := work.native.Deny();
      var _ := work.DenyFromProducer();
    }
  }

  /**
   * The start of either bridge: the directory deadline is capped before anything is paid;
   * `cost` is its checked fixed fee, none when that overflows.
   */
  method Begin(work: Work, cost: Option<Fee>) returns (r: Step<(), Cause>)
    requires work.Valid()
    modifies work.core, work.core.clock, work.native`refusals, work.outer`refusals
    ensures work.Valid()
    ensures r.Done? ==> work.Quiet() && !old(work.core.Refused()) && !work.native.denied && cost.Some?
    ensures r.Done? ==> Covers(old(work.core.state).usage, cost.value, work.core.state.usage)
  {
    var capped := work.core.CapExpiry(work.native.expiry);
    if capped.Err? {
      return Refused(CoreRefused);
    }
    var _ :- work.Check();
    if cost.None? {
      return Refused(CoreRefused);
    }
    var paid := work.core.Charge(cost.value);
    if paid.Err? {
      return Refused(CoreRefused);
    }
    r := work.Check();
  }

  /** The usage reports, and the last check. */
  method Conclude(work: Work) returns (r: Step<(), Cause>)
    requires work.Valid()
    modifies work.core, work.core.clock, work.native`refusals, work.outer`refusals
    ensures work.Valid()
    ensures r.Done? ==> !work.outerDenyAttempted && work.Quiet() && !work.core.Refused()
  {
    var _ :- work.Check();
    var spent := work.core.Spent();
    var reported := work.native.Report();
    var _ :- work.Check();
    return if spent.Err? then Refused(CoreRefused) else if !reported then Refused(NativeRefused) else Done(());
  }

  /** The validations of the parent directory before and after one native call. */
  class Reports {
    var pre: Option<Validated>
    var post: Option<Validated>
    var pending: Option<Handle>

    constructor ()
      ensures pre.None? && post.None? && pending.None?
    {
      pre, post, pending := None, None, None;
    }

    /** Both validations of this parent succeeded. */
    ghost predicate Both(parent: Handle)
      reads this
    {
      pre == Some(Validated(parent, None)) && post == Some(Validated(parent, None))
    }

    method Retain(parent: Handle, work: Work) returns (r: Step<(), Cause>)
      requires work.Valid()
      modifies this`pending, work.core, work.core.clock, work.native`refusals, work.outer`refusals
      ensures work.Valid()
      ensures r.Done? ==> pending == Some(parent) && work.Quiet()
    {
      hide Work.Valid;
      var _ :- work.Check();
      var _ :- Pay(work);
      var _ :- work.Check();
      pending := Some(parent);
      r := work.Check();
    }

    /** Consumes the pending handle; its whole outcome is kept before it is judged. */
    method Validate(fs: Filesystem, work: Work, before: bool) returns (r: Step<(), Cause>)
      requires work.Valid() && pending.Some? && RootOf(pending.value).owner.Valid()
      modifies this, work, work.core, work.core.clock, work.native, work.outer
      ensures work.Valid()
      ensures if before then post == old(post) else pre == old(pre)
      ensures r.Done? ==>
                && (if before then pre else post) == Some(Validated(old(pending).value, None))
                && Ordinary(fs, old(pending).value).Ok? && Stands(fs, old(pending).value) && work.Quiet()
    {
      hide Ordinary, Stands, Work.Valid;
      var _ :- work.Check();
      var input := pending.value;
      pending := None;
      var actual := ValidateForFetch(fs, input, work);
      if before {
        pre := Some(actual);
      } else {
        post := Some(actual);
      }
      var _ :- work.Check();
      return if actual.cause.None? then Done(()) else Refused(if before then PreValidationRefused else PostValidationRefused);
    }

    /** Retains and validates the parent in one go. */
    method Revalidate(fs: Filesystem, parent: Handle, work: Work, before: bool) returns (r: Step<(), Cause>)
      requires work.Valid() && RootOf(parent).owner.Valid()
      modifies this, work, work.core, work.core.clock, work.native, work.outer
      ensures work.Valid()
      ensures if before then post == old(post) else pre == old(pre)
      ensures r.Done? ==>
                && (if before then pre else post) == Some(Validated(parent, None))
                && Ordinary(fs, parent).Ok? && Stands(fs, parent) && work.Quiet()
    {
      hide Ordinary, Stands, Work.Valid;
      var _ :- Retain(parent, work);
      r := Validate(fs, work, before);
    }
  }

  // ---------------------------------------------------------------- the native producers

  datatype Request = Request(start: nat, maxBytes: nat, maxRecords: nat)

  /** One native read that returned: what was asked of which log, and the records it gave. */
  datatype Reply = Reply(request: Request, log: Log, records: seq<nat>)

  /** The native producers: each consumes its store or log and gives it back, whatever happens. */
  class Storage {
    ghost var conversions: seq<Store>  // every successful native conversion so far
    ghost var replies: seq<Reply>      // every successful native read so far
    ghost var pinned: bool             // the directory pin is borrowed

    constructor ()
      ensures conversions == [] && replies == [] && !pinned
    {
      conversions, replies, pinned := [], [], false;
    }

    method Convert(store: Store, work: Work) returns (r: Conversion)
      requires work.Valid()
      modifies this`conversions, work, work.core, work.core.clock, work.native, work.outer
      ensures work.Valid() && (r.Converted? ==> work.Quiet())
      ensures if r.Converted? then r.log == Log(store.id) else r.store == store
      ensures conversions == old(conversions) + if r.Converted? then [store] else []
    {
      var ok := Producer(work);
      r := if ok then Converted(Log(store.id)) else Unconverted(store);
      conversions := conversions + if ok then [store] else [];
    }

    /** Borrows the directory pin, unless another operation has it or has poisoned it. */
    method Borrow() returns (ok: bool)
      modifies this`pinned
      ensures pinned == ok
    {
      ok := *;
      pinned := ok;
    }

    method ReadFrom(log: Log, request: Request, work: Work) returns (r: Reading)
      requires work.Valid() && pinned
      modifies this`replies, work, work.core, work.core.clock, work.native, work.outer
      ensures work.Valid() && r.log == log && (r.Read? ==> work.Quiet())
      ensures replies == old(replies) + if r.Read? then [Reply(request, log, r.records)] else []
    {
      var ok := Producer(work);
      var records := AnyRecords();
      r := if ok then Read(log, records) else Unread(log);
      replies := replies + if ok then [Reply(request, log, records)] else [];
    }
  }

  // ---------------------------------------------------------------- conversion

  class Scope {
    const reports: Reports
    var native: Option<Conversion>
    var remaining: Option<Store>
    var early: Option<(Store, SharedDirectory)>
    var directory: Option<SharedDirectory>

    constructor (store: Store, shared: SharedDirectory)
      ensures Holds(store.id, shared) && early.Some? && fresh(reports)
    {
      reports := new Reports();
      native, remaining, directory := None, None, None;
      early := Some((store, shared));
    }

    /** Exactly one of the three places holds the native store or log. */
    ghost predicate HoldsNative(id: nat)
      reads this`native, this`remaining, this`early
    {
      && One(native.Some?) + One(remaining.Some?) + One(early.Some?) == 1
      && (native.Some? ==> (if native.value.Converted? then native.value.log.id else native.value.store.id) == id)
      && (remaining.Some? ==> remaining.value.id == id)
      && (early.Some? ==> early.value.0.id == id)
    }

    /** Exactly one of the two places holds the shared directory. */
    ghost predicate HoldsDirectory(shared: SharedDirectory)
      reads this`directory, this`early
    {
      && One(directory.Some?) + One(early.Some?) == 1
      && (directory.Some? ==> directory.value == shared)
      && (early.Some? ==> early.value.1 == shared)
    }

    ghost predicate Holds(id: nat, shared: SharedDirectory)
      reads this`native, this`remaining, this`early, this`directory
    {
      HoldsNative(id) && HoldsDirectory(shared)
    }

    /** A log: the native log beside its directory, and both constructor reports. */
    ghost predicate IsLog(id: nat, shared: SharedDirectory)
      reads this, reports
    {
      && native == Some(Converted(Log(id))) && remaining.None? && early.None? && directory == Some(shared)
      && reports.Both(shared.parent)
    }

    /** A store that was converted since is still here, as its log. */
    ghost predicate Keeps(before: seq<Store>, store: Store, storage: Storage)
      reads this`native, storage
    {
      storage.conversions == before + if native.Some? && native.value.Converted? then [store] else []
    }

    /** Moves the input apart; nothing between the moves can fail. */
    method Split()
      requires early.Some? && native.None? && remaining.None? && directory.None?
      modifies this`early, this`remaining, this`directory
      ensures early.None? && remaining == Some(old(early).value.0) && directory == Some(old(early).value.1)
    {
      var input := early.value;
      early := None;
      remaining := Some(input.0);
      directory := Some(input.1);
    }

    /** Everything before the native conversion. */
    method Enter(fs: Filesystem, work: Work, cost: Option<Fee>, ghost id: nat, ghost shared: SharedDirectory)
      returns (r: Step<(), Cause>)
      requires work.Valid() && Holds(id, shared) && early.Some? && RootOf(shared.parent).owner.Valid()
      modifies this, reports, work, work.core, work.core.clock, work.native, work.outer
      ensures work.Valid() && Holds(id, shared)
      ensures r.Done? ==> remaining.Some? && directory.Some? && reports.pre == Some(Validated(shared.parent, None))
      ensures native == old(native)
      ensures r.Done? ==> work.Quiet() && !old(work.core.Refused()) && !old(work.native.denied) && cost.Some?
    {
      hide Ordinary, Stands, Work.Valid;
      var _ :- Begin(work, cost);
      Split();
      var _ :- work.Check();
      var _ :- reports.Revalidate(fs, directory.value.parent, work, true);
      r := work.Check();
    }

    /** The native conversion; its whole result is kept before the next check. */
    method Convert(storage: Storage, work: Work, ghost id: nat, ghost shared: SharedDirectory)
      returns (r: Step<(), Cause>)
      requires work.Valid() && Holds(id, shared) && remaining.Some?
      modifies this`remaining, this`native, storage`conversions, work, work.core, work.core.clock, work.native
      modifies work.outer
      ensures work.Valid() && Holds(id, shared) && Keeps(old(storage.conversions), Store(id), storage)
      ensures r.Done? ==> native == Some(Converted(Log(id))) && work.Quiet()
    {
      hide Work.Valid;
      var input := remaining.value;
      remaining := None;
      var converted := storage.Convert(input, work);
      native := Some(converted);
      var _ :- work.Check();
      return if converted.Converted? then Done(()) else Refused(ProducerRefused);
    }

    method Run(
      fs: Filesystem, storage: Storage, work: Work, cost: Option<Fee>, ghost id: nat, ghost shared: SharedDirectory)
      returns (r: Step<(), Cause>)
      requires work.Valid() && Holds(id, shared) && early.Some? && RootOf(shared.parent).owner.Valid()
      modifies this, reports, storage`conversions, work, work.core, work.core.clock, work.native, work.outer
      ensures work.Valid() && Holds(id, shared) && Keeps(old(storage.conversions), Store(id), storage)
      ensures r.Done? ==>
                && IsLog(id, shared) && !work.outerDenyAttempted
                && Ordinary(fs, shared.parent).Ok? && Stands(fs, shared.parent)
      ensures r.Done? ==>
                && work.Quiet() && !work.core.Refused()
                && !old(work.core.Refused()) && !old(work.native.denied) && cost.Some?
    {
      hide Ordinary, Stands, Work.Valid;
      var _ :- Enter(fs, work, cost, id, shared);
      var _ :- Convert(storage, work, id, shared);
      var _ :- reports.Revalidate(fs, directory.value.parent, work, false);
      r := Conclude(work);
    }
  }

  /**
   * Converts a store into a log.  The outer denial is made exactly once by a refusal and
   * never by a success; both keep the store, as a log once it is one, and its directory.
   */
  method IntoShardLogUntil(
    fs: Filesystem, store: Store, shared: SharedDirectory, storage: Storage, cost: Option<Fee>,
    core: NativeDirectoryBudget, native: FetchBudget, outer: Health)
    returns (failure: Option<Cause>, scope: Scope)
    requires core.Valid() && !outer.premature && RootOf(shared.parent).owner.Valid()
    modifies storage`conversions, core, core.clock, native, outer
    ensures core.Valid() && !outer.premature && fresh(scope) && fresh(scope.reports)
    ensures outer.denies == old(outer.denies) + One(failure.Some?)
    ensures failure.Some? ==> core.state.denied && native.Attempted()
    ensures scope.Holds(store.id, shared) && scope.Keeps(old(storage.conversions), store, storage)
    ensures failure.None? ==>
              && scope.IsLog(store.id, shared) && Ordinary(fs, shared.parent).Ok? && Stands(fs, shared.parent)
              && native.refusals == old(native.refusals) && outer.refusals == old(outer.refusals) && !core.Refused()
    ensures old(core.Refused()) || old(native.denied) || cost.None? ==> failure.Some?
  {
    hide Ordinary, Stands;
    scope := new Scope(store, shared);
    var work := new Work(core, native, outer);
    var observed := scope.Run(fs, storage, work, cost, store.id, shared);
    failure := None;
    if !observed.Done? {
      failure := Some(if observed.Refused? then observed.refusal else Unwound);
      work.DenyBridge();
    }
  }

  // ---------------------------------------------------------------- reads

  /** A settled read: its records, the returned native log, and the original context. */
  datatype ReadComplete = ReadComplete(records: seq<nat>, log: Log, context: Scope, reports: Reports)

  class ReadScope {
    const reports: Reports
    var native: Option<Reading>
    var remaining: Option<Log>
    var early: Option<Scope>
    var context: Option<Scope>

    constructor (input: Scope)
      ensures early == Some(input) && context.None? && native.None? && remaining.None? && fresh(reports)
    {
      reports := new Reports();
      native, remaining, context := None, None, None;
      early := Some(input);
    }

    /**
     * The log object, and in it the directory and the constructor's reports, is in exactly
     * one place, and so is the native log: in that object, or in this read.
     */
    ghost predicate Holds(log: Scope, id: nat, shared: SharedDirectory)
      reads this`native, this`remaining, this`early, this`context, log, log.reports
    {
      && One(early.Some?) + One(context.Some?) == 1 && (if early.Some? then early.value else context.value) == log
      && log.directory == Some(shared) && log.early.None? && log.remaining.None? && log.reports.Both(shared.parent)
      && One(log.native.Some?) + One(remaining.Some?) + One(native.Some?) == 1
      && (log.native.Some? ==> log.native == Some(Converted(Log(id))))
      && (remaining.Some? ==> remaining.value.id == id)
      && (native.Some? ==> native.value.log.id == id)
    }

    /** Whatever the producer has given since is still in this read, whole. */
    ghost predicate Keeps(before: seq<Reply>, request: Request, storage: Storage)
      reads this`native, storage
    {
      storage.replies ==
        before + if native.Some? && native.value.Read? then [Reply(request, native.value.log, native.value.records)] else []
    }

    /** Moves the input into the context, and its native log into this read. */
    method Prepare(work: Work, cost: Option<Fee>, log: Scope, ghost id: nat, ghost shared: SharedDirectory)
      returns (r: Step<(), Cause>)
      requires work.Valid() && Holds(log, id, shared) && early.Some? && early.value.native.Some?
      modifies this`early, this`context, this`remaining, log`native, work.core, work.core.clock, work.native`refusals
      modifies work.outer`refusals
      ensures work.Valid() && Holds(log, id, shared)
      ensures r.Done? ==> context == Some(log) && remaining.Some?
      ensures r.Done? ==> work.Quiet() && !old(work.core.Refused()) && !old(work.native.denied) && cost.Some?
    {
      hide Work.Valid;
      var _ :- Begin(work, cost);
      context := early;
      early := None;
      var input := context.value;
      remaining := Some(input.native.value.log);
      input.native := None;
      r := work.Check();
    }

    /** The native read; its whole result is kept before the next check. */
    method ReadNative(
      storage: Storage, request: Request, work: Work, ghost log: Scope, ghost id: nat, ghost shared: SharedDirectory)
      returns (r: Step<(), Cause>)
      requires work.Valid() && Holds(log, id, shared) && context == Some(log) && remaining.Some?
      modifies this`remaining, this`native, storage`replies, storage`pinned, work, work.core, work.core.clock
      modifies work.native, work.outer
      ensures work.Valid() && Holds(log, id, shared) && context == Some(log)
      ensures Keeps(old(storage.replies), request, storage)
      ensures r.Done? ==> native.Some? && native.value.Read? && work.Quiet()
    {
      hide Work.Valid;
      var _ :- work.Check();
      var borrowed := storage.Borrow();
      var _ :- work.Check();
      if !borrowed {
        return Refused(PinBusy);
      }
      var input := remaining.value;
      remaining := None;
      var reading := storage.ReadFrom(input, request, work);
      native := Some(reading);
      var _ :- work.Check();
      return if reading.Read? then Done(()) else Refused(ProducerRefused);
    }

    method Run(
      fs: Filesystem, storage: Storage, request: Request, work: Work, cost: Option<Fee>, log: Scope,
      ghost id: nat, ghost shared: SharedDirectory)
      returns (r: Step<(), Cause>)
      requires work.Valid() && Holds(log, id, shared) && early.Some? && early.value.native.Some?
      requires RootOf(shared.parent).owner.Valid() && reports != log.reports && native.None?
      modifies this, reports, log`native, storage`replies, storage`pinned, work, work.core, work.core.clock
      modifies work.native, work.outer
      ensures work.Valid() && Holds(log, id, shared) && Keeps(old(storage.replies), request, storage)
      ensures r.Done? ==>
                && context == Some(log) && native.Some? && native.value.Read? && reports.Both(shared.parent)
                && !work.outerDenyAttempted && Ordinary(fs, shared.parent).Ok? && Stands(fs, shared.parent)
      ensures r.Done? ==>
                && work.Quiet() && !work.core.Refused()
                && !old(work.core.Refused()) && !old(work.native.denied) && cost.Some?
    {
      hide Ordinary, Stands, Work.Valid;
      var _ :- Prepare(work, cost, log, id, shared);
      var _ :- reports.Revalidate(fs, log.directory.value.parent, work, true);
      var _ :- ReadNative(storage, request, work, log, id, shared);
      var _ :- reports.Revalidate(fs, log.directory.value.parent, work, false);
      r := Conclude(work);
    }
  }

  method AnyRecords() returns (records: seq<nat>)
  {
    records := [];
    var n: nat :| n >= 0;
    while n > 0 {
      var record: nat :| record >= 0;
      records := records + [record];
      n := n - 1;
    }
  }

  /**
   * One consuming read.  Success gives exactly the records of the native read, and the same
   * context without its native log; a refusal after the native read still keeps them.
   */
  method ReadFromUntil(
    fs: Filesystem, log: Scope, storage: Storage, request: Request, cost: Option<Fee>,
    core: NativeDirectoryBudget, native: FetchBudget, outer: Health, ghost id: nat, ghost shared: SharedDirectory)
    returns (r: Result<ReadComplete, Cause>, scope: ReadScope)
    requires core.Valid() && !outer.premature && RootOf(shared.parent).owner.Valid() && log.IsLog(id, shared)
    modifies log`native, storage`replies, storage`pinned, core, core.clock, native, outer
    ensures core.Valid() && !outer.premature && fresh(scope)
    ensures outer.denies == old(outer.denies) + One(r.Err?)
    ensures r.Err? ==> core.state.denied && native.Attempted() && scope.Holds(log, id, shared)
    ensures r.Err? ==> scope.Keeps(old(storage.replies), request, storage)
    ensures r.Ok? ==> storage.replies == old(storage.replies) + [Reply(request, Log(id), r.value.records)]
    ensures r.Ok? ==>
              && Stands(fs, shared.parent) && !core.Refused()
              && native.refusals == old(native.refusals) && outer.refusals == old(outer.refusals)
    ensures old(core.Refused()) || old(native.denied) || cost.None? ==> r.Err?
    ensures r.Ok? ==>
              && r.value.context == log && r.value.log == Log(id) && log.native.None?
              && scope.context.None? && scope.native.None? && scope.remaining.None? && scope.early.None?
              && r.value.reports.Both(shared.parent) && Ordinary(fs, shared.parent).Ok?
  {
    hide Ordinary, Stands;
    scope := new ReadScope(log);
    var work := new Work(core, native, outer);
    var observed := scope.Run(fs, storage, request, work, cost, log, id, shared);
    if observed.Done? {
      r := Ok(ReadComplete(scope.native.value.records, scope.native.value.log, scope.context.value, scope.reports));
      scope.native, scope.context := None, None;
    } else {
      r := Err(if observed.Refused? then observed.refusal else Unwound);
      work.DenyBridge();
    }
  }

  /** Restores the log: the returned native log goes back into the original context. */
  method IntoLog(complete: ReadComplete, ghost id: nat, ghost shared: SharedDirectory) returns (log: Scope)
    requires complete.log == Log(id) && complete.context.native.None? && complete.context.directory == Some(shared)
    requires complete.context.remaining.None? && complete.context.early.None?
    requires complete.context.reports.Both(shared.parent)
    modifies complete.context`native
    ensures log == complete.context && log.IsLog(id, shared)
  {
    log := complete.context;
    log.native := Some(Converted(complete.log));
  }

  /** The replies to the first requests, one by one. */
  function Replies(requests: seq<Request>, log: Log, records: seq<seq<nat>>): seq<Reply>
    requires |records| <= |requests|
  {
    seq(|records|, i requires 0 <= i < |records| => Reply(requests[i], log, records[i]))
  }

  /**
   * Any number of read and restore rounds.  While they succeed the log stays the same log,
   * and each round gives the records of its own native read; the first refusal still holds
   * the log and what that read gave, and makes the only outer denial.
   */
  method Rounds(
    fs: Filesystem, log: Scope, storage: Storage, requests: seq<Request>, cost: Option<Fee>,
    core: NativeDirectoryBudget, native: FetchBudget, outer: Health, ghost id: nat, ghost shared: SharedDirectory)
    returns (records: seq<seq<nat>>, failed: Option<ReadScope>)
    requires core.Valid() && !outer.premature && RootOf(shared.parent).owner.Valid() && log.IsLog(id, shared)
    modifies log`native, storage`replies, storage`pinned, core, core.clock, native, outer
    ensures core.Valid() && !outer.premature && |records| <= |requests|
    ensures outer.denies == old(outer.denies) + One(failed.Some?)
    ensures failed.None? ==> log.IsLog(id, shared) && |records| == |requests|
    ensures failed.None? ==> storage.replies == old(storage.replies) + Replies(requests, Log(id), records)
    ensures failed.Some? ==> failed.value.Holds(log, id, shared) && core.state.denied && native.Attempted()
    ensures failed.Some? ==>
              && |records| < |requests|
              && var before := old(storage.replies) + Replies(requests, Log(id), records);
                 failed.value.Keeps(before, requests[|records|], storage)
  {
    records := [];
    for i := 0 to |requests|
      invariant core.Valid() && !outer.premature && log.IsLog(id, shared)
      invariant outer.denies == old(outer.denies)
      invariant |records| == i && storage.replies == old(storage.replies) + Replies(requests, Log(id), records)
    {
      var r, scope := ReadFromUntil(fs, log, storage, requests[i], cost, core, native, outer, id, shared);
      if r.Err? {
        return records, Some(scope);
      }
      NextReply(requests, Log(id), records, r.value.records);
      records := records + [r.value.records];
      var restored := IntoLog(r.value, id, shared);
    }
    return records, None;
  }

  lemma NextReply(requests: seq<Request>, log: Log, records: seq<seq<nat>>, next: seq<nat>)
    requires |records| < |requests|
    ensures Replies(requests, log, records + [next])
         == Replies(requests, log, records) + [Reply(requests[|records|], log, next)]
  {
  }
}
