/**
 * Atomic file replacement: write a new temporary, sync its data, rename it over the
 * destination and sync the parent directory, under one shared budget.
 *
 * Every native call may fail or unwind, every test observer may unwind and every admission
 * may refuse.  A panic is the value `Unwind`.
 */
module Replacement {
  import opened Budget
  import opened Disk
  import opened Machine
  import opened Wrappers

  // ---------------------------------------------------------------- crash outcomes

  /** Some crash of `d` finds `found` under `name`. */
  ghost predicate CanFind(d: Directory, name: Name, found: Option<Inode>) {
    exists k :: 0 <= k <= |d.pending| && Lookup(AfterCrash(d, k), name) == found
  }

  /** Every crash of `d` finds under `name` what some crash of `start` found. */
  ghost predicate OnlyOld(start: Directory, d: Directory, name: Name) {
    forall k :: 0 <= k <= |d.pending| ==> CanFind(start, name, Lookup(AfterCrash(d, k), name))
  }

  /** `inode` holds exactly `body`, durably. */
  ghost predicate Complete(d: Directory, inode: Inode, body: seq<Byte>) {
    inode in d.files && d.files[inode].durable == Some(body)
  }

  /** Every crash of `d` finds an old file under `name`, or the complete new one. */
  ghost predicate OldOrNew(start: Directory, d: Directory, name: Name, inode: Inode, body: seq<Byte>) {
    forall k :: 0 <= k <= |d.pending| ==>
      var found := Lookup(AfterCrash(d, k), name);
      CanFind(start, name, found) || (found == Some(inode) && Complete(d, inode, body))
  }

  /** Files that existed at the start keep their content. */
  ghost predicate OthersKept(start: Directory, d: Directory) {
    forall i :: i in start.files ==> i in d.files && d.files[i] == start.files[i]
  }

  lemma StartIsOld(d: Directory, name: Name)
    ensures OnlyOld(d, d, name)
  {
  }

  lemma OldIsSafe(start: Directory, d: Directory, name: Name, inode: Inode, body: seq<Byte>)
    requires OnlyOld(start, d, name)
    ensures OldOrNew(start, d, name, inode, body)
  {
  }

  /** Linking another name changes nothing under `name`. */
  lemma LinkElsewhere(start: Directory, d: Directory, name: Name, other: Name, inode: Inode)
    requires OnlyOld(start, d, name) && other != name
    ensures OnlyOld(start, Create(d, other, inode), name)
  {
    var op := Link(other, inode);
    forall k | 0 <= k <= |d.pending| + 1
      ensures CanFind(start, name, Lookup(AfterCrash(Create(d, other, inode), k), name))
    {
      CrashAfterPerform(d, op, k);
      CrashWithEverything(d);
      assert AfterCrash(Create(d, other, inode), k) == AfterCrash(Perform(d, op), k);
      assert CanFind(start, name, Lookup(AfterCrash(d, |d.pending|), name));
      if k <= |d.pending| { assert CanFind(start, name, Lookup(AfterCrash(d, k), name)); }
    }
  }

  /** Changing only file data changes no crash's names. */
  lemma DataOnly(start: Directory, d: Directory, d': Directory, name: Name)
    requires OnlyOld(start, d, name) && d'.durable == d.durable && d'.pending == d.pending
    ensures OnlyOld(start, d', name)
  {
    forall k | 0 <= k <= |d.pending| ensures CanFind(start, name, Lookup(AfterCrash(d', k), name)) {
      assert CanFind(start, name, Lookup(AfterCrash(d, k), name));
    }
  }

  /** The commit point: renaming a complete, durable file over the destination. */
  lemma RenameCommits(start: Directory, d: Directory, temporary: Name, name: Name, inode: Inode, body: seq<Byte>)
    requires OnlyOld(start, d, name) && OthersKept(start, d) && temporary != name
    requires Lookup(Live(d), temporary) == Some(inode) && Complete(d, inode, body)
    ensures OldOrNew(start, Perform(d, Rename(temporary, name)), name, inode, body)
    ensures OthersKept(start, Perform(d, Rename(temporary, name)))
    ensures Lookup(Live(Perform(d, Rename(temporary, name))), name) == Some(inode)
    ensures temporary !in Live(Perform(d, Rename(temporary, name)))
  {
    var op := Rename(temporary, name);
    var d' := Perform(d, op);
    forall k | 0 <= k <= |d'.pending|
      ensures var found := Lookup(AfterCrash(d', k), name);
              CanFind(start, name, found) || (found == Some(inode) && Complete(d', inode, body))
    {
      CrashAfterPerform(d, op, k);
      if k <= |d.pending| { assert CanFind(start, name, Lookup(AfterCrash(d, k), name)); }
    }
    CrashAfterPerform(d, op, |d.pending| + 1);
    CrashWithEverything(d');
  }

  /** A directory sync, whole or partial, never adds a crash outcome. */
  lemma SyncKeepsSafe(start: Directory, d: Directory, name: Name, inode: Inode, body: seq<Byte>, k: nat)
    requires OldOrNew(start, d, name, inode, body) && OthersKept(start, d) && k <= |d.pending|
    ensures OldOrNew(start, PartialSync(d, k), name, inode, body) && OthersKept(start, PartialSync(d, k))
    ensures Live(PartialSync(d, k)) == Live(d)
  {
    var d' := PartialSync(d, k);
    CrashAfterPartialSync(d, k, 0);
    forall j | 0 <= j <= |d'.pending|
      ensures var found := Lookup(AfterCrash(d', j), name);
              CanFind(start, name, found) || (found == Some(inode) && Complete(d', inode, body))
    {
      CrashAfterPartialSync(d, k, j);
      assert var found := Lookup(AfterCrash(d, k + j), name);
             CanFind(start, name, found) || (found == Some(inode) && Complete(d, inode, body));
    }
  }

  /** Writing or syncing the new file leaves the destination and every old file alone. */
  lemma NewFileOnly(start: Directory, d: Directory, name: Name, inode: Inode, file: File, body: seq<Byte>)
    requires OnlyOld(start, d, name) && OthersKept(start, d) && inode !in start.files
    ensures var d' := d.(files := d.files[inode := file]);
            && OnlyOld(start, d', name) && OthersKept(start, d')
            && OldOrNew(start, d', name, inode, body)
            && Live(d') == Live(d)
  {
    var d' := d.(files := d.files[inode := file]);
    DataOnly(start, d, d', name);
    OldIsSafe(start, d', name, inode, body);
  }

  /** Creating the temporary leaves the destination and every old file alone. */
  lemma CreateElsewhere(start: Directory, d: Directory, name: Name, other: Name, inode: Inode, body: seq<Byte>)
    requires OnlyOld(start, d, name) && OthersKept(start, d) && inode !in start.files && other != name
    ensures var d' := Create(d, other, inode);
            && OnlyOld(start, d', name) && OthersKept(start, d')
            && OldOrNew(start, d', name, inode, body)
            && Lookup(Live(d'), other) == Some(inode)
  {
    LinkElsewhere(start, d, name, other, inode);
    OldIsSafe(start, Create(d, other, inode), name, inode, body);
    CrashAfterPerform(d, Link(other, inode), |d.pending| + 1);
    CrashWithEverything(Perform(d, Link(other, inode)));
  }

  // ---------------------------------------------------------------- the other names

  /** Every crash of `d` finds under `name` what some crash of `start` found, or `inode`. */
  ghost predicate OldOrInode(start: Directory, d: Directory, name: Name, inode: Inode) {
    forall k :: 0 <= k <= |d.pending| ==>
      var found := Lookup(AfterCrash(d, k), name);
      CanFind(start, name, found) || found == Some(inode)
  }

  /**
   * The names a replacement does not commit: the temporary may hold the new inode, and no
   * other name but the destination can be told from the start.
   */
  ghost predicate NamesKept(start: Directory, d: Directory, temporary: Name, destination: Name, inode: Inode) {
    && OldOrInode(start, d, temporary, inode)
    && forall name: Name :: name != temporary && name != destination ==> OnlyOld(start, d, name)
  }

  lemma StartKeepsNames(d: Directory, temporary: Name, destination: Name, inode: Inode)
    ensures NamesKept(d, d, temporary, destination, inode)
  {
    forall name: Name ensures OnlyOld(d, d, name) {
      StartIsOld(d, name);
    }
    assert OnlyOld(d, d, temporary);
  }

  /** What one more operation leaves under a name it does not touch. */
  lemma PerformElsewhere(start: Directory, d: Directory, op: NameOp, name: Name)
    requires OnlyOld(start, d, name)
    requires Lookup(ApplyOp(Live(d), op), name) == Lookup(Live(d), name)
    ensures OnlyOld(start, Perform(d, op), name)
  {
    hide ApplyOp, AfterCrash, Lookup, Live;
    var d' := Perform(d, op);
    forall k | 0 <= k <= |d'.pending| ensures CanFind(start, name, Lookup(AfterCrash(d', k), name)) {
      CrashAfterPerform(d, op, k);
      CrashWithEverything(d);
      assert CanFind(start, name, Lookup(AfterCrash(d, |d.pending|), name));
      if k <= |d.pending| { assert CanFind(start, name, Lookup(AfterCrash(d, k), name)); }
    }
  }

  /** Linking or renaming between the two names of a replacement leaves every other alone. */
  lemma PerformKeepsNames(
    start: Directory, d: Directory, op: NameOp, temporary: Name, destination: Name, inode: Inode)
    requires NamesKept(start, d, temporary, destination, inode) && temporary !in Live(start)
    requires op == Link(temporary, inode) || op == Rename(temporary, destination)
    requires temporary != destination
    ensures NamesKept(start, Perform(d, op), temporary, destination, inode)
  {
    hide Live, AfterCrash, OnlyOld, CanFind;
    var d' := Perform(d, op);
    forall name: Name | name != temporary && name != destination ensures OnlyOld(start, d', name) {
      PerformElsewhere(start, d, op, name);
    }
    forall k | 0 <= k <= |d'.pending|
      ensures var found := Lookup(AfterCrash(d', k), temporary);
              CanFind(start, temporary, found) || found == Some(inode)
    {
      CrashAfterPerform(d, op, k);
      FindsLive(start, temporary);
    }
  }

  lemma CreateKeepsNames(start: Directory, d: Directory, temporary: Name, destination: Name, inode: Inode)
    requires NamesKept(start, d, temporary, destination, inode) && temporary !in Live(start)
    requires temporary != destination
    ensures NamesKept(start, Create(d, temporary, inode), temporary, destination, inode)
  {
    hide NamesKept;
    var op := Link(temporary, inode);
    PerformKeepsNames(start, d, op, temporary, destination, inode);
    DataKeepsNames(start, Perform(d, op), Create(d, temporary, inode), temporary, destination, inode);
  }

  lemma FindsLive(d: Directory, name: Name)
    ensures CanFind(d, name, Lookup(Live(d), name))
  {
    CrashWithEverything(d);
    assert Lookup(AfterCrash(d, |d.pending|), name) == Lookup(Live(d), name);
  }

  lemma DataKeepsNames(
    start: Directory, d: Directory, d': Directory, temporary: Name, destination: Name, inode: Inode)
    requires NamesKept(start, d, temporary, destination, inode)
    requires d'.durable == d.durable && d'.pending == d.pending
    ensures NamesKept(start, d', temporary, destination, inode)
  {
    hide CanFind, Lookup;
    assert forall k :: 0 <= k <= |d.pending| ==> AfterCrash(d', k) == AfterCrash(d, k);
    forall name: Name | name != temporary && name != destination ensures OnlyOld(start, d', name) {
      DataOnly(start, d, d', name);
    }
  }

  lemma SyncKeepsOld(start: Directory, d: Directory, name: Name, k: nat)
    requires OnlyOld(start, d, name) && k <= |d.pending|
    ensures OnlyOld(start, PartialSync(d, k), name)
  {
    hide AfterCrash, CanFind, Lookup;
    var d' := PartialSync(d, k);
    forall j | 0 <= j <= |d'.pending| ensures CanFind(start, name, Lookup(AfterCrash(d', j), name)) {
      CrashAfterPartialSync(d, k, j);
    }
  }

  lemma SyncKeepsNames(
    start: Directory, d: Directory, temporary: Name, destination: Name, inode: Inode, k: nat)
    requires NamesKept(start, d, temporary, destination, inode) && k <= |d.pending|
    ensures NamesKept(start, PartialSync(d, k), temporary, destination, inode)
  {
    hide AfterCrash, CanFind, Lookup, OnlyOld;
    var d' := PartialSync(d, k);
    forall j | 0 <= j <= |d'.pending|
      ensures var found := Lookup(AfterCrash(d', j), temporary);
              CanFind(start, temporary, found) || found == Some(inode)
    {
      CrashAfterPartialSync(d, k, j);
    }
    forall name: Name | name != temporary && name != destination ensures OnlyOld(start, d', name) {
      SyncKeepsOld(start, d, name, k);
    }
  }

  lemma FullSyncIsPartial(d: Directory)
    ensures SyncDirectory(d) == PartialSync(d, |d.pending|)
  {
    CrashWithEverything(d);
    assert d.pending[|d.pending|..] == [];
  }

  // ---------------------------------------------------------------- limits and cost

  datatype ReplacementLimits = ReplacementLimits(maxBodyBytes: Size, maxWriteCalls: Size, maxWriteBytes: Size)

  /** Sizes of the producer's own values, which the model leaves open. */
  datatype Sizes = Sizes(scope: Size, replacement: Size, error: Size, outcome: Size, metadata: Size)

  datatype Cost = Cost(declaredBytes: Size, stringBytes: Size, entries: Size, callSlots: Size)

  /** One literal component: not empty, not a dot name, without separator or NUL. */
  predicate ValidName(name: Name) {
    name != [] && name != [DOT] && name != [DOT, DOT] && SLASH !in name && 0 !in name
  }

  /** Checked producer cost, refused for bad names, bad limits or overflow. */
  function ReplacementCost(
    temporary: Name, destination: Name, bodyCapacity: Size, limits: ReplacementLimits, sizes: Sizes): (r: Option<Cost>)
    ensures r.Some? ==>
              && temporary != destination && ValidName(temporary) && ValidName(destination)
              && bodyCapacity <= limits.maxBodyBytes && limits.maxWriteCalls > 0 && limits.maxWriteBytes > 0
              && r.value.callSlots == limits.maxWriteCalls + 6
              && r.value.stringBytes == 2 * (|temporary| + 1) + 3 * (|destination| + 1)
              && r.value.declaredBytes == sizes.scope + sizes.replacement + sizes.error + r.value.stringBytes
                                          + bodyCapacity + r.value.callSlots * sizes.outcome
              && r.value.entries == r.value.callSlots + 10
  {
    if bodyCapacity > limits.maxBodyBytes || limits.maxWriteCalls == 0 || limits.maxWriteBytes == 0
      || temporary == destination || !ValidName(temporary) || !ValidName(destination)
      || |temporary| >= SIZE_LIMIT || |destination| >= SIZE_LIMIT then None
    else
      match (CheckedAdd(limits.maxWriteCalls, 6), CheckedAdd(|temporary|, 1), CheckedAdd(|destination|, 1))
      case (Some(slots), Some(t), Some(n)) =>
        (match (CheckedMul(t, 2), CheckedMul(n, 3), CheckedMul(slots, sizes.outcome), CheckedAdd(slots, 10))
         case (Some(t2), Some(n3), Some(outcomes), Some(entries)) =>
           (match CheckedAdd(t2, n3)
            case Some(strings) =>
              (match Total6(sizes.scope, sizes.replacement, sizes.error, strings, bodyCapacity, outcomes)
               case Some(declared) => Some(Cost(declared, strings, entries, slots))
               case None => None)
            case None => None)
         case _ => None)
      case _ => None
  }

  /** Exactly when the cost is given: good names and limits, and totals that fit the machine. */
  lemma CostIsExact(
    temporary: Name, destination: Name, bodyCapacity: Size, limits: ReplacementLimits, sizes: Sizes)
    ensures var slots := limits.maxWriteCalls + 6;
            var strings := 2 * (|temporary| + 1) + 3 * (|destination| + 1);
            ReplacementCost(temporary, destination, bodyCapacity, limits, sizes).Some? <==>
            && temporary != destination && ValidName(temporary) && ValidName(destination)
            && bodyCapacity <= limits.maxBodyBytes && limits.maxWriteCalls > 0 && limits.maxWriteBytes > 0
            && slots + 10 < SIZE_LIMIT
            && sizes.scope + sizes.replacement + sizes.error + strings + bodyCapacity + slots * sizes.outcome < SIZE_LIMIT
  {
    hide ValidName;
    assert (limits.maxWriteCalls + 6) * sizes.outcome >= 0;
  }

  function Total6(a: Size, b: Size, c: Size, d: Size, e: Size, f: Size): (r: Option<Size>)
    ensures r == if a + b + c + d + e + f < SIZE_LIMIT then Some(a + b + c + d + e + f) else None
  {
    match CheckedAdd(a, b)
    case None => None
    case Some(ab) =>
      (match CheckedAdd(ab, c)
       case None => None
       case Some(abc) =>
         (match CheckedAdd(abc, d)
          case None => None
          case Some(abcd) =>
            (match CheckedAdd(abcd, e)
             case None => None
             case Some(abcde) => CheckedAdd(abcde, f))))
  }

  // ---------------------------------------------------------------- outcomes

  datatype Phase = TemporaryMetadata | Write | Flush | SyncData | RenameFile | SyncParentDirectory | FinalMetadata

  datatype IoError = Interrupted | Other

  /** What a stat reports of an open descriptor. */
  datatype Stat = Stat(isFile: bool, device: nat, inode: nat)

  datatype Identity = Identity(device: nat, inode: nat)

  datatype Outcome =
    | WriteOutcome(offset: nat, requested: nat, written: Result<nat, IoError>)
    | UnitOutcome(phase: Phase, result: Result<(), IoError>)
    | MetadataOutcome(phase: Phase, stat: Result<Stat, IoError>)

  function PhaseOf(o: Outcome): Phase {
    match o
    case WriteOutcome(_, _, _) => Write
    case UnitOutcome(phase, _) => phase
    case MetadataOutcome(phase, _) => phase
  }

  /** The call returned an error that ends a replacement: any, but an interrupted write. */
  predicate Errs(o: Outcome) {
    match o
    case WriteOutcome(_, _, written) => written == Err(Other)
    case UnitOutcome(_, result) => result.Err?
    case MetadataOutcome(_, stat) => stat.Err?
  }

  /** The stat found a plain file with this identity. */
  predicate Identifies(o: Outcome, id: Identity) {
    o.MetadataOutcome? && o.stat.Ok? && o.stat.value.isFile && id == Identity(o.stat.value.device, o.stat.value.inode)
  }

  /** The identity a stat leaves: that of a plain file, or none. */
  ghost predicate Found(o: Outcome, id: Option<Identity>) {
    if id.Some? then Identifies(o, id.value) else forall x :: !Identifies(o, x)
  }

  /** A write asks for a nonempty chunk of the body, no longer than one call may be. */
  predicate Chunk(o: Outcome, body: seq<Byte>, limits: ReplacementLimits) {
    o.WriteOutcome? ==> 0 < o.requested <= limits.maxWriteBytes && o.offset + o.requested <= |body|
  }

  ghost predicate AllChunks(outcomes: seq<Outcome>, body: seq<Byte>, limits: ReplacementLimits) {
    forall o :: o in outcomes ==> Chunk(o, body, limits)
  }

  lemma ChunkAppend(outcomes: seq<Outcome>, o: Outcome, body: seq<Byte>, limits: ReplacementLimits)
    requires AllChunks(outcomes, body, limits) && Chunk(o, body, limits)
    ensures AllChunks(outcomes + [o], body, limits)
  {
  }

  /** What a successful replacement may have seen: good results, and interrupted writes. */
  predicate Good(o: Outcome) {
    !Errs(o) && (o.WriteOutcome? ==> o.written != Ok(0))
  }

  ghost predicate AllGood(outcomes: seq<Outcome>) {
    forall o :: o in outcomes ==> Good(o)
  }

  lemma GoodAppend(outcomes: seq<Outcome>, o: Outcome)
    requires Good(o)
    ensures AllGood(outcomes) ==> AllGood(outcomes + [o])
  {
  }

  function Phases(outcomes: seq<Outcome>): seq<Phase> {
    seq(|outcomes|, i requires 0 <= i < |outcomes| => PhaseOf(outcomes[i]))
  }

  datatype ReplacementFailure =
    | BudgetRefused | InvalidInput | Allocation | DirectoryRefused
    | Io(index: nat) | WriteZero(index: nat) | IdentityChanged | Unwound

  /** How a phase ends: it returns, fails, or panics. */
  datatype Flow = Continue | Fail(failure: ReplacementFailure) | Unwind

  /** How far a replacement got: `writes` write calls, then `tail` of the five last phases. */
  datatype Trail = Nothing | Reached(writes: nat, tail: nat) | Settled(writes: nat)

  const TAIL: seq<Phase> := [Flush, SyncData, RenameFile, SyncParentDirectory, FinalMetadata]

  function Spell(t: Trail): seq<Phase> {
    match t
    case Nothing => []
    case Reached(writes, tail) =>
      [TemporaryMetadata] + seq(writes, _ => Write) + TAIL[..if tail <= 5 then tail else 5]
    case Settled(writes) =>
      // The rename unwound without a result; only its prepaid settlement follows.
      [TemporaryMetadata] + seq(writes, _ => Write) + TAIL[..2] + [SyncParentDirectory]
  }

  lemma SpellStep(t: Trail, outcomes: seq<Outcome>, o: Outcome, t': Trail)
    requires Phases(outcomes) == Spell(t)
    requires match t
             case Nothing => t' == Reached(0, 0) && PhaseOf(o).TemporaryMetadata?
             case Reached(w, n) =>
               || (n == 0 && t' == Reached(w + 1, 0) && PhaseOf(o).Write?)
               || (n < 5 && t' == Reached(w, n + 1) && PhaseOf(o) == TAIL[n])
               || (n == 2 && t' == Settled(w) && PhaseOf(o).SyncParentDirectory?)
             case Settled(_) => false
    ensures Phases(outcomes + [o]) == Spell(t')
  {
    assert Phases(outcomes + [o]) == Phases(outcomes) + [PhaseOf(o)];
    if t.Reached? {
      var w := t.writes;
      if t' == Reached(w + 1, 0) && t.tail == 0 && PhaseOf(o).Write? {
        assert seq(w + 1, _ => Write) == seq(w, _ => Write) + [Write];
      } else if t'.Reached? {
        assert TAIL[..t.tail + 1] == TAIL[..t.tail] + [TAIL[t.tail]];
      }
    }
  }

  // ---------------------------------------------------------------- the replacement

  class Scope {
    const temporary: Name
    const destination: Name
    const body: seq<Byte>
    const limits: ReplacementLimits
    const sizes: Sizes
    const budget: NativeDirectoryBudget
    const inode: Inode          // the inode a successful creation will get
    ghost const start: Directory

    var disk: Directory
    var file: Option<Inode>
    var outcomes: seq<Outcome>
    var written: nat
    var unfinished: Option<Phase>
    var unwindPhase: Option<Phase>
    var renameAttempted: bool
    var renamed: bool
    var syncAttempted: bool
    var synced: bool
    var temporaryIdentity: Option<Identity>
    var finalIdentity: Option<Identity>

    ghost var history: seq<Directory>  // every directory state so far: the crash points
    ghost var trail: Trail
    ghost var syncs: nat               // parent syncs started
    ghost var directoryRefused: bool   // a bounded directory operation refused
    ghost var allocationFailed: bool   // a reservation failed
    ghost var validations: nat         // revalidations that passed
    ghost var admitted: nat            // physical calls paid for

    constructor (
      disk: Directory, inode: Inode, temporary: Name, destination: Name, body: seq<Byte>,
      limits: ReplacementLimits, sizes: Sizes, budget: NativeDirectoryBudget)
      requires temporary != destination && inode !in disk.files && budget.Valid()
      ensures Entered() && Safe() && fresh(this) && admitted == 0
      ensures this.start == this.disk == disk && this.temporary == temporary && this.destination == destination
      ensures this.body == body && this.limits == limits && this.sizes == sizes && this.budget == budget
      ensures this.inode == inode && !allocationFailed && outcomes == []
    {
      this.disk := disk;
      this.inode := inode;
      this.temporary := temporary;
      this.destination := destination;
      this.body := body;
      this.limits := limits;
      this.sizes := sizes;
      this.budget := budget;
      this.start := disk;
      this.history := [disk];
      this.trail := Nothing;
      this.syncs := 0;
      this.directoryRefused, this.allocationFailed, this.validations, this.admitted := false, false, 0, 0;
      file := None;
      outcomes := [];
      written := 0;
      unfinished := None;
      unwindPhase := None;
      renameAttempted, renamed, syncAttempted, synced := false, false, false, false;
      temporaryIdentity := None;
      finalIdentity := None;
      new;
      StartIsOld(disk, destination);
      OldIsSafe(disk, disk, destination, inode, body);
      StartKeepsNames(disk, temporary, destination, inode);
    }

    // -------------------------------------------------------------- invariants

    /** Every call admitted since was paid from the budget. */
    twostate predicate Prepaid()
      reads this`admitted, budget
    {
      && old(admitted) <= admitted
      && admitted - old(admitted) <= budget.state.usage.calls - old(budget.state.usage.calls)
    }

    /** Nothing but good results has been recorded since. */
    twostate predicate StillGood()
      reads this`outcomes
    {
      AllGood(old(outcomes)) ==> AllGood(outcomes)
    }

    /**
     * Every crash point so far keeps the old file or has the complete new one, and every
     * other name.  A temporary that was there already is refused before anything changes.
     */
    ghost predicate Safe()
      reads this`history, this`disk, this`syncs, this`syncAttempted, this`renamed, this`renameAttempted
      reads this`validations
    {
      && history != [] && history[|history| - 1] == disk
      && (forall d :: d in history ==> CrashPointSafe(d))
      && (temporary in Live(start) ==> history == [start] && !renameAttempted)
      && temporary != destination && inode !in start.files
      && (syncs == if syncAttempted then 1 else 0)
      && (renamed ==> renameAttempted) && (renameAttempted ==> validations > 0)
    }

    ghost predicate CrashPointSafe(d: Directory)
    {
      && OldOrNew(start, d, destination, inode, body) && OthersKept(start, d)
      && NamesKept(start, d, temporary, destination, inode)
    }

    ghost predicate Traced()
      reads this`outcomes, this`trail, this`temporaryIdentity, this`admitted
    {
      && Phases(outcomes) == Spell(trail) && |outcomes| <= admitted && AllChunks(outcomes, body, limits)
      && (temporaryIdentity.Some? ==> outcomes != [] && Identifies(outcomes[0], temporaryIdentity.value))
      && (trail.Reached? ==> trail.tail <= 5)
      && (!trail.Nothing? ==> trail.writes <= limits.maxWriteCalls)
    }

    /** Before the temporary exists. */
    ghost predicate Entered()
      reads this`disk, this`written, this`trail, this`outcomes, this`renameAttempted, this`renamed, this`syncAttempted
      reads this`directoryRefused, this`validations, this`temporaryIdentity, this`admitted
    {
      && !directoryRefused && validations == 0
      && disk == start && OnlyOld(start, disk, destination)
      && written == 0 && trail.Nothing? && Traced() && !renameAttempted && !renamed && !syncAttempted
    }

    /** The temporary holds exactly the bytes written, and the destination is untouched. */
    ghost predicate Preparing()
      reads this`file, this`disk, this`written, this`trail, this`outcomes, this`renameAttempted, this`renamed
      reads this`syncAttempted
      reads this`temporaryIdentity, this`admitted
    {
      && file == Some(inode) && !renameAttempted && !renamed && !syncAttempted && Traced()
      && OnlyOld(start, disk, destination) && temporary !in Live(start)
      && Lookup(Live(disk), temporary) == Some(inode)
      && inode in disk.files && written <= |body| && disk.files[inode].data == body[..written]
    }

    lemma Here()
      requires Safe()
      ensures CrashPointSafe(disk)
    {
      assert disk in history;
    }

    /** Records one physical effect on the directory: a possible crash point. */
    method SetDisk(d: Directory)
      requires Safe() && CrashPointSafe(d) && temporary !in Live(start)
      modifies this`disk, this`history
      ensures Safe() && disk == d
    {
      disk := d;
      history := history + [d];
    }

    method Record(o: Outcome, ghost t: Trail)
      requires |outcomes| < admitted
      requires Traced() && Phases(outcomes + [o]) == Spell(t) && Chunk(o, body, limits)
      requires (t.Reached? ==> t.tail <= 5) && (!t.Nothing? ==> t.writes <= limits.maxWriteCalls)
      modifies this`outcomes, this`trail, this`unfinished
      ensures Traced() && trail == t && outcomes == old(outcomes) + [o] && unfinished.None?
    {
      hide AllChunks, OnlyOld, OldOrNew, CanFind, OthersKept, NamesKept, Phases, Spell, Live, budget.Valid;
      ChunkAppend(outcomes, o, body, limits);
      outcomes := outcomes + [o];
      trail := t;
      unfinished := None;
    }

    /**
     * The failure has its cause: in the retained outcomes, in the history of the budget, or
     * in an answer of the environment.  A panic never becomes one.
     */
    ghost predicate Explained(f: ReplacementFailure)
      reads this`outcomes, this`trail, this`written, this`temporaryIdentity, this`finalIdentity
      reads this`directoryRefused, this`allocationFailed, budget
    {
      match f
      case BudgetRefused =>
        budget.EverRefused() || (trail.Reached? && trail.writes == limits.maxWriteCalls && written < |body|)
      case InvalidInput => |temporary| + |destination| >= SIZE_LIMIT
      case Allocation => allocationFailed
      case DirectoryRefused => directoryRefused
      case Io(i) => i < |outcomes| && Errs(outcomes[i])
      case WriteZero(i) => i < |outcomes| && outcomes[i].WriteOutcome? && outcomes[i].written == Ok(0)
      case IdentityChanged => temporaryIdentity.None? || finalIdentity.None? || finalIdentity != temporaryIdentity
      case Unwound => false
    }

    // -------------------------------------------------------------- phases

    /** Admission of one physical call: a charge, then a check. */
    method AdmitCall(calls: Size, work: Size) returns (f: Flow)
      requires budget.Valid()
      modifies this`admitted, budget, budget.clock
      ensures budget.Valid() && !f.Unwind? && (f.Continue? ==> !budget.Refused())
      ensures f.Fail? ==> f == Fail(BudgetRefused) && Explained(f.failure)
      ensures Prepaid() && (f.Continue? ==> admitted == old(admitted) + calls)
      ensures old(Traced()) ==> Traced() && (f.Continue? ==> |outcomes| + calls <= admitted)
      ensures old(Preparing()) ==> Preparing()
      ensures old(Settleable()) ==> Settleable()
    {
      hide AllChunks, budget.Valid, budget.EverRefused, Phases, Spell, OnlyOld, Live, Lookup;
      var charged := budget.Charge(Fee(0, calls, 0, 0, 0, work));
      if charged.Err? {
        return Fail(BudgetRefused);
      }
      admitted := admitted + calls;
      f := CheckBudget();
    }

    method CheckBudget() returns (f: Flow)
      requires budget.Valid()
      modifies budget, budget.clock
      ensures budget.Valid() && !f.Unwind? && (f.Continue? ==> !budget.Refused())
      ensures f.Fail? ==> f == Fail(BudgetRefused) && Explained(f.failure)
      ensures Prepaid()
    {
      var checked := budget.Check();
      return if checked.Err? then Fail(BudgetRefused) else Continue;
    }

    /** The exclusive creation: only under a name that is free. */
    method LinkTemporary()
      requires Entered() && Safe() && temporary !in Live(disk)
      modifies this`disk, this`history
      ensures Safe() && temporary !in Live(start) && OnlyOld(start, disk, destination)
      ensures Lookup(Live(disk), temporary) == Some(inode)
      ensures inode in disk.files && disk.files[inode].data == []
    {
      hide AllChunks, OnlyOld, OldOrNew, CanFind, OthersKept, NamesKept, Phases, Spell, Live, Lookup, ApplyOps;
      hide AfterCrash;
      Here();
      CreateElsewhere(start, disk, destination, temporary, inode, body);
      CreateKeepsNames(start, disk, temporary, destination, inode);
      SetDisk(Create(disk, temporary, inode));
    }

    /** The bounded exclusive open: it can refuse or panic before or after creating the file. */
    method OpenTemporary() returns (f: Flow)
      requires Entered() && Safe() && budget.Valid()
      modifies this`disk, this`history, this`file, this`directoryRefused, budget, budget.clock
      ensures Safe() && budget.Valid()
      ensures f.Continue? ==> Preparing() && !directoryRefused
      ensures f.Fail? ==> Explained(f.failure)
      ensures Prepaid()
    {
      hide AllChunks, OnlyOld, OldOrNew, CanFind, OthersKept, NamesKept, Phases, Spell, Live, Lookup, Safe;
      hide budget.Valid, budget.EverRefused;
      var unwinds := *;
      if unwinds {
        return Unwind;
      }
      var refused := AskDirectory();
      if refused || temporary in Live(disk) {
        f := RefuseDirectory();
        return;
      }
      LinkTemporary();
      var panics := *;
      if panics {
        return Unwind;
      }
      var late := AskDirectory();
      if late {
        f := RefuseDirectory();
        return;
      }
      file := Some(inode);
      f := CheckBudget();
    }

    /** What the bounded directory operation underneath answers, for reasons of its own. */
    method AskDirectory() returns (refused: bool)
      modifies this`directoryRefused
      ensures directoryRefused == (old(directoryRefused) || refused)
    {
      refused := *;
      directoryRefused := directoryRefused || refused;
    }

    /** A directory operation that refused has denied the budget. */
    method RefuseDirectory() returns (f: Flow)
      requires budget.Valid()
      modifies this`directoryRefused, budget
      ensures budget.Valid() && f == Fail(DirectoryRefused) && Explained(f.failure)
      ensures Prepaid()
    {
      hide budget.Valid;
      budget.Deny();
      directoryRefused := true;
      return Fail(DirectoryRefused);
    }

    /** The physical stat: its result is recorded, and the identity it found is kept. */
    method StatCall(phase: Phase) returns (index: nat)
      requires Traced() && |outcomes| < admitted
      requires (phase.TemporaryMetadata? && trail.Nothing?)
            || (phase.FinalMetadata? && trail.Reached? && trail.tail == 4)
      modifies this`outcomes, this`trail, this`unfinished, this`temporaryIdentity, this`finalIdentity
      ensures Traced() && trail == if phase.FinalMetadata? then Reached(old(trail).writes, 5) else Reached(0, 0)
      ensures index == |old(outcomes)| && |outcomes| == index + 1 && outcomes[index].MetadataOutcome?
      ensures outcomes[index].stat.Ok? ==> StillGood()
      ensures phase.TemporaryMetadata? ==> Found(outcomes[index], temporaryIdentity) && finalIdentity == old(finalIdentity)
      ensures phase.FinalMetadata? ==> Found(outcomes[index], finalIdentity) && temporaryIdentity == old(temporaryIdentity)
    {
      hide AllChunks, Phases, Spell, AllGood;
      if phase.TemporaryMetadata? {
        NothingRecorded();
      }
      var stat := NativeStat();
      var identity := if stat.Ok? && stat.value.isFile
                      then Some(Identity(stat.value.device, stat.value.inode)) else None;
      index := |outcomes|;
      ghost var t := if phase.FinalMetadata? then Reached(trail.writes, 5) else Reached(0, 0);
      SpellStep(trail, outcomes, MetadataOutcome(phase, stat), t);
      Record(MetadataOutcome(phase, stat), t);
      if phase.TemporaryMetadata? {
        temporaryIdentity := identity;
      } else {
        finalIdentity := identity;
      }
      if stat.Ok? {
        GoodAppend(old(outcomes), outcomes[index]);
      }
    }

    /** Stats the open descriptor and keeps its identity before looking at the clock. */
    method Metadata(phase: Phase) returns (f: Flow)
      requires Traced() && budget.Valid()
      requires (phase.TemporaryMetadata? && trail.Nothing?)
            || (phase.FinalMetadata? && trail.Reached? && trail.tail == 4)
      modifies this`admitted, this`outcomes, this`trail, this`unfinished, this`temporaryIdentity, this`finalIdentity
      modifies budget, budget.clock
      ensures Traced() && budget.Valid()
      ensures f.Continue? ==>
                trail == if phase.FinalMetadata? then Reached(old(trail).writes, 5) else Reached(0, 0)
      ensures trail == old(trail)
           || trail == if phase.FinalMetadata? then Reached(old(trail).writes, 5) else Reached(0, 0)
      ensures f.Fail? ==> Explained(f.failure)
      ensures f.Continue? ==> StillGood()
      ensures f.Continue? ==> (if phase.FinalMetadata? then finalIdentity else temporaryIdentity).Some?
      ensures f.Continue? && phase.FinalMetadata? ==>
                && finalIdentity.Some? && outcomes != []
                && Identifies(outcomes[|outcomes| - 1], finalIdentity.value)
      ensures Prepaid()
    {
      hide AllChunks, OnlyOld, OldOrNew, CanFind, OthersKept, NamesKept, Phases, Spell, Live, budget.Valid;
      hide budget.EverRefused, Traced, AllGood;
      f := AdmitCall(1, sizes.metadata);
      if !f.Continue? {
        return;
      }
      unfinished := Some(phase);
      var unwinds, late := *, *;
      if unwinds {
        return Unwind;
      }
      var index := StatCall(phase);
      if late {
        return Unwind;
      }
      f := CheckBudget();
      if f.Continue? {
        var identity := if phase.TemporaryMetadata? then temporaryIdentity else finalIdentity;
        f := if outcomes[index].stat.Err? then Fail(Io(index))
             else if identity.None? then Fail(IdentityChanged)
             else Continue;
      }
    }

    method NativeStat() returns (stat: Result<Stat, IoError>)
    {
      var isFile, ok, interrupted := *, *, *;
      var device: nat :| device >= 0;
      var ino: nat :| ino >= 0;
      stat := if ok then Ok(Stat(isFile, device, ino)) else Err(if interrupted then Interrupted else Other);
    }

    /** The physical write: full, short, zero, interrupted or failed; a panic may have written some. */
    method WriteCall(requested: nat) returns (f: Flow)
      requires |outcomes| < admitted
      requires Preparing() && Safe() && 0 < requested <= |body| - written && requested <= limits.maxWriteBytes
      requires trail.Reached? && trail.tail == 0 && trail.writes < limits.maxWriteCalls
      modifies this`disk, this`history, this`written, this`outcomes, this`trail, this`unfinished
      ensures Safe() && Traced() && (f.Continue? || f.Unwind?)
      ensures f.Unwind? ==> trail == old(trail)
      ensures f.Continue? ==>
                && Preparing() && trail == Reached(old(trail).writes + 1, 0)
                && |outcomes| == |old(outcomes)| + 1 && outcomes[|old(outcomes)|].WriteOutcome?
                && outcomes == old(outcomes) + [outcomes[|old(outcomes)|]]
                && var result := outcomes[|old(outcomes)|].written;
                   written == old(written) + if result.Ok? then result.value else 0
    {
      hide AllChunks, OnlyOld, OldOrNew, CanFind, OthersKept, NamesKept, Phases, Spell, Live, Lookup, ApplyOps;
      hide AfterCrash;
      var offset := written;
      unfinished := Some(Write);
      var ok, interrupted, unwinds := *, *, *;
      var count: nat :| 0 <= count <= requested;
      // A write that returns an error transferred nothing; one that unwinds may have.
      if ok || unwinds {
        Here();
        NewFileOnly(start, disk, destination, inode, File(body[..offset] + body[offset..offset + count], None), body);
        DataKeepsNames(start, disk, Append(disk, inode, body[offset..offset + count]), temporary, destination, inode);
        SetDisk(Append(disk, inode, body[offset..offset + count]));
        assert body[..offset] + body[offset..offset + count] == body[..offset + count];
      }
      if unwinds {
        return Unwind;
      }
      var result: Result<nat, IoError> := if ok then Ok(count) else Err(if interrupted then Interrupted else Other);
      if ok {
        written := written + count;
      }
      SpellStep(trail, outcomes, WriteOutcome(offset, requested, result), Reached(trail.writes + 1, 0));
      Record(WriteOutcome(offset, requested, result), Reached(trail.writes + 1, 0));
      return Continue;
    }

    /** One admitted write of the next chunk: an interrupted one is retried, an empty one refused. */
    method WriteChunk(requested: nat) returns (f: Flow)
      requires Preparing() && Safe() && budget.Valid()
      requires trail.Reached? && trail.tail == 0 && trail.writes < limits.maxWriteCalls
      requires 0 < requested <= |body| - written && requested <= limits.maxWriteBytes
      modifies this`admitted, this`disk, this`history, this`written, this`outcomes, this`trail, this`unfinished
      modifies budget, budget.clock
      ensures Safe() && Traced() && budget.Valid()
      ensures f.Continue? ==> Preparing()
      ensures trail == old(trail) || trail == Reached(old(trail).writes + 1, 0)
      ensures f.Continue? ==> trail == Reached(old(trail).writes + 1, 0)
      ensures f.Fail? ==> Explained(f.failure)
      ensures f.Continue? ==> StillGood()
      ensures Prepaid()
    {
      hide AllChunks, budget.Valid, Scope.Safe, Phases, Spell, OnlyOld, Live, Lookup, AllGood;
      f := AdmitCall(1, if requested < SIZE_LIMIT then requested else SIZE_LIMIT - 1);
      if !f.Continue? {
        return;
      }
      var index := |outcomes|;
      f := WriteCall(requested);
      if f.Continue? && Good(outcomes[index]) {
        GoodAppend(old(outcomes), outcomes[index]);
      }
      var late := *;
      if f.Unwind? || late {
        return Unwind;
      }
      f := CheckBudget();
      if f.Continue? {
        f := match outcomes[index].written
             case Ok(n) => if n == 0 then Fail(WriteZero(index)) else Continue
             case Err(Interrupted) => Continue
             case Err(Other) => Fail(Io(index));
      }
    }

    /** The chunked write loop, bounded by the configured number of write calls. */
    method WriteAll() returns (f: Flow)
      requires Preparing() && Safe() && budget.Valid() && trail == Reached(0, 0) && limits.maxWriteBytes > 0
      modifies this`admitted, this`disk, this`history, this`written, this`outcomes, this`trail, this`unfinished
      modifies budget, budget.clock
      ensures Safe() && Traced() && budget.Valid()
      ensures trail.Reached? && trail.tail == 0
      ensures f.Continue? ==> Preparing() && written == |body|
      ensures f.Fail? ==> Explained(f.failure)
      ensures f.Continue? ==> StillGood()
      ensures Prepaid()
    {
      hide AllChunks, OnlyOld, OldOrNew, CanFind, OthersKept, NamesKept, Phases, Spell, Live, budget.Valid, AllGood;
      var calls := 0;
      while written < |body|
        invariant Preparing() && Safe() && budget.Valid()
        invariant trail == Reached(calls, 0) && calls <= limits.maxWriteCalls && StillGood() && Prepaid()
        decreases limits.maxWriteCalls - calls
      {
        if calls >= limits.maxWriteCalls {
          return Fail(BudgetRefused);
        }
        var rest := |body| - written;
        f := WriteChunk(if rest < limits.maxWriteBytes then rest else limits.maxWriteBytes);
        if !f.Continue? {
          return;
        }
        calls := calls + 1;
      }
      return Continue;
    }

    /** The flush or data sync itself; a successful data sync makes the written bytes durable. */
    method FileCall(phase: Phase) returns (f: Flow)
      requires |outcomes| < admitted
      requires Preparing() && Safe() && trail.Reached?
      requires (phase.Flush? && trail.tail == 0) || (phase.SyncData? && trail.tail == 1)
      modifies this`disk, this`history, this`outcomes, this`trail, this`unfinished
      ensures Safe() && Traced() && (f.Continue? || f.Unwind?)
      ensures f.Unwind? ==> trail == old(trail)
      ensures f.Continue? ==>
                && Preparing() && trail == Reached(old(trail).writes, old(trail).tail + 1)
                && |outcomes| == |old(outcomes)| + 1 && outcomes[|old(outcomes)|].UnitOutcome?
                && outcomes == old(outcomes) + [outcomes[|old(outcomes)|]]
                && (phase.SyncData? && outcomes[|old(outcomes)|].result.Ok? ==>
                      disk.files[inode].durable == Some(body[..written]))
    {
      hide AllChunks, OnlyOld, OldOrNew, CanFind, OthersKept, NamesKept, Phases, Spell, Live, Lookup, ApplyOps;
      hide AfterCrash;
      unfinished := Some(phase);
      var ok, interrupted, unwinds := *, *, *;
      if unwinds {
        return Unwind;
      }
      if ok && phase.SyncData? {
        Here();
        NewFileOnly(start, disk, destination, inode, File(body[..written], Some(body[..written])), body);
        DataKeepsNames(start, disk, SyncFile(disk, inode), temporary, destination, inode);
        SetDisk(SyncFile(disk, inode));
      }
      var result: Result<(), IoError> := if ok then Ok(()) else Err(if interrupted then Interrupted else Other);
      ghost var t := Reached(trail.writes, trail.tail + 1);
      SpellStep(trail, outcomes, UnitOutcome(phase, result), t);
      Record(UnitOutcome(phase, result), t);
      return Continue;
    }

    /** Flush or data sync of the temporary. */
    method FileUnit(phase: Phase) returns (f: Flow)
      requires Preparing() && Safe() && budget.Valid()
      requires trail.Reached? && ((phase.Flush? && trail.tail == 0) || (phase.SyncData? && trail.tail == 1))
      modifies this`admitted, this`disk, this`history, this`outcomes, this`trail, this`unfinished, budget, budget.clock
      ensures Safe() && Traced() && budget.Valid()
      ensures trail == old(trail) || trail == Reached(old(trail).writes, old(trail).tail + 1)
      ensures f.Continue? ==>
                && Preparing() && trail == Reached(old(trail).writes, old(trail).tail + 1)
                && (phase.SyncData? ==> disk.files[inode].durable == Some(body[..written]))
      ensures f.Fail? ==> Explained(f.failure)
      ensures f.Continue? ==> StillGood()
      ensures Prepaid()
    {
      hide AllChunks, budget.Valid, budget.EverRefused, Scope.Safe, Phases, Spell, OnlyOld, Live, Lookup, AllGood;
      f := AdmitCall(1, 0);
      if !f.Continue? {
        return;
      }
      var index := |outcomes|;
      f := FileCall(phase);
      if f.Continue? && outcomes[index].result.Ok? {
        GoodAppend(old(outcomes), outcomes[index]);
      }
      var late := *;
      if f.Unwind? || late {
        return Unwind;
      }
      f := CheckBudget();
      if f.Continue? && outcomes[index].result.Err? {
        f := Fail(Io(index));
      }
    }

    /** Bounded revalidation of parent and file; any refusal of it denies the budget. */
    method ValidateFile() returns (f: Flow)
      requires Safe() && budget.Valid()
      modifies this`directoryRefused, this`validations, budget, budget.clock
      ensures Safe() && budget.Valid()
      ensures f.Continue? ==> validations == old(validations) + 1 && directoryRefused == old(directoryRefused)
      ensures f.Fail? ==> Explained(f.failure)
      ensures Prepaid()
    {
      hide OnlyOld, OldOrNew, CanFind, OthersKept, NamesKept, Live, budget.Valid;
      var panics := *;
      if panics {
        return Unwind;
      }
      var refused := AskDirectory();
      if refused {
        f := RefuseDirectory();
        return;
      }
      validations := validations + 1;
      f := CheckBudget();
    }

    /** The physical parent sync: a successful one hardens every name, another one a prefix. */
    method SyncNames(full: bool)
      requires Safe() && !syncAttempted && renameAttempted
      modifies this`disk, this`history, this`unfinished, this`syncAttempted, this`syncs
      ensures Safe() && syncAttempted && syncs == 1
      ensures Live(disk) == Live(old(disk)) && disk.files == old(disk).files
      ensures full ==> disk == SyncDirectory(old(disk))
    {
      hide OnlyOld, OldOrNew, CanFind, OthersKept, NamesKept, Live, Lookup, ApplyOps, AfterCrash;
      syncAttempted := true;
      syncs := syncs + 1;
      unfinished := Some(SyncParentDirectory);
      var k: nat :| k <= |disk.pending|;
      k := if full then |disk.pending| else k;
      Here();
      SyncKeepsSafe(start, disk, destination, inode, body, k);
      SyncKeepsNames(start, disk, temporary, destination, inode, k);
      FullSyncIsPartial(disk);
      SetDisk(PartialSync(disk, k));
    }

    /** The prepaid parent sync: started at most once per replacement. */
    method SyncParent() returns (f: Flow, index: nat)
      requires |outcomes| < admitted
      requires Safe() && Traced() && !syncAttempted && renameAttempted
      requires trail.Reached? && (trail.tail == 2 || trail.tail == 3)
      modifies this`disk, this`history, this`outcomes, this`trail, this`unfinished
      modifies this`syncAttempted, this`synced, this`syncs
      ensures Safe() && Traced() && syncAttempted && syncs == 1
      ensures f.Continue? || f.Unwind?
      ensures f.Unwind? ==> trail == old(trail)
      ensures f.Continue? ==>
                && trail == (if old(trail).tail == 3 then Reached(old(trail).writes, 4) else Settled(old(trail).writes))
                && index == |old(outcomes)| && |outcomes| == index + 1
                && outcomes[index].UnitOutcome? && (synced <==> outcomes[index].result.Ok?)
                && outcomes == old(outcomes) + [outcomes[index]]
                && (synced ==> disk == SyncDirectory(old(disk)))
      ensures Live(disk) == Live(old(disk)) && disk.files == old(disk).files
    {
      hide AllChunks, OldOrNew, OthersKept, NamesKept, Phases, Spell, Live;
      index := |outcomes|;
      var ok, interrupted, unwinds := *, *, *;
      SyncNames(ok && !unwinds);
      if unwinds {
        return Unwind, index;
      }
      synced := ok;
      var result: Result<(), IoError> := if ok then Ok(()) else Err(if interrupted then Interrupted else Other);
      ghost var t := if trail.tail == 3 then Reached(trail.writes, 4) else Settled(trail.writes);
      SpellStep(trail, outcomes, UnitOutcome(SyncParentDirectory, result), t);
      Record(UnitOutcome(SyncParentDirectory, result), t);
      return Continue, index;
    }

    /** The sync after a successful rename: success makes the new name durable. */
    method SyncRenamed() returns (f: Flow)
      requires |outcomes| < admitted
      requires Safe() && Traced() && budget.Valid() && renamed && renameAttempted && !syncAttempted
      requires trail.Reached? && trail.tail == 3
      requires Lookup(Live(disk), destination) == Some(inode) && temporary !in Live(disk) && Complete(disk, inode, body)
      modifies this`disk, this`history, this`outcomes, this`trail, this`unfinished
      modifies this`syncAttempted, this`synced, this`syncs, budget, budget.clock
      ensures Safe() && Traced() && budget.Valid() && trail.Reached? && syncAttempted
      ensures f.Continue? ==> synced && Committed() && trail.tail == 4
      ensures f.Fail? ==> Explained(f.failure)
      ensures f.Continue? ==> StillGood()
      ensures Prepaid()
    {
      hide AllChunks, OnlyOld, OldOrNew, CanFind, OthersKept, NamesKept, Phases, Spell, Live, ApplyOps, AfterCrash;
      hide budget.Valid, Safe, Traced, AllGood;
      ghost var committing := disk;
      var index;
      f, index := SyncParent();
      if f.Unwind? {
        return;
      }
      if synced {
        GoodAppend(old(outcomes), outcomes[index]);
      }
      var late := *;
      if late {
        return Unwind;
      }
      f := CheckBudget();
      if f.Continue? && !synced {
        f := Fail(Io(index));
      }
      if f.Continue? {
        FullSyncNames(committing);
      }
    }

    /** The effect of a rename: the commit point. */
    method ApplyRename()
      requires Safe() && OnlyOld(start, disk, destination) && temporary !in Live(start)
      requires Lookup(Live(disk), temporary) == Some(inode) && Complete(disk, inode, body)
      modifies this`disk, this`history
      ensures Safe()
      ensures Lookup(Live(disk), destination) == Some(inode) && temporary !in Live(disk) && Complete(disk, inode, body)
    {
      hide AllChunks, OnlyOld, OldOrNew, CanFind, OthersKept, NamesKept, Phases, Spell, Live, Lookup, ApplyOps;
      hide AfterCrash;
      Here();
      RenameCommits(start, disk, temporary, destination, inode, body);
      PerformKeepsNames(start, disk, Rename(temporary, destination), temporary, destination, inode);
      SetDisk(Perform(disk, Rename(temporary, destination)));
    }

    /** The rename itself; a panic may leave it done or not done. */
    method RenameCall() returns (f: Flow, index: nat)
      requires |outcomes| + 1 < admitted
      requires Preparing() && Safe() && trail.Reached? && trail.tail == 2 && Complete(disk, inode, body)
      requires validations > 0
      modifies this`disk, this`history, this`outcomes, this`trail, this`unfinished, this`renameAttempted, this`renamed
      ensures Safe() && Traced() && renameAttempted && !syncAttempted && trail.Reached?
      ensures f.Unwind? ==> trail.tail == 2 && !renamed
      ensures f.Continue? ==> trail.tail == 3 && index == |old(outcomes)| && |outcomes| == index + 1
      ensures f.Continue? ==> outcomes == old(outcomes) + [outcomes[index]]
      ensures f.Continue? ==> outcomes[index].UnitOutcome? && (renamed <==> outcomes[index].result.Ok?)
      ensures f.Continue? || f.Unwind?
      ensures renamed ==>
                Lookup(Live(disk), destination) == Some(inode) && temporary !in Live(disk) && Complete(disk, inode, body)
      ensures admitted == old(admitted) && |outcomes| < admitted
    {
      hide AllChunks, OnlyOld, OldOrNew, CanFind, OthersKept, NamesKept, Phases, Spell, Live, Lookup, ApplyOps;
      hide AfterCrash;
      renameAttempted := true;
      unfinished := Some(RenameFile);
      index := |outcomes|;
      var ok, interrupted, unwinds, applied := *, *, *, *;
      if (ok && !unwinds) || (unwinds && applied) {
        ApplyRename();
      }
      if unwinds {
        return Unwind, index;
      }
      renamed := ok;
      var result: Result<(), IoError> := if ok then Ok(()) else Err(if interrupted then Interrupted else Other);
      SpellStep(trail, outcomes, UnitOutcome(RenameFile, result), Reached(trail.writes, 3));
      Record(UnitOutcome(RenameFile, result), Reached(trail.writes, 3));
      return Continue, index;
    }

    /**
     * The rename and its mandatory parent sync.  Both calls are admitted together before
     * the rename; a rename that succeeded is synced whatever the clock says.
     */
    method RenameAndSync() returns (f: Flow)
      requires Preparing() && Safe() && budget.Valid() && trail.Reached? && trail.tail == 2
      requires Complete(disk, inode, body) && validations > 0
      modifies this`admitted, this`disk, this`history, this`outcomes, this`trail, this`unfinished
      modifies this`renameAttempted, this`renamed, this`syncAttempted, this`synced, this`syncs
      modifies budget, budget.clock
      ensures Safe() && Traced() && budget.Valid() && trail.Reached? && Settleable()
      ensures f.Fail? && renamed ==> syncAttempted
      ensures f.Continue? ==> renamed && syncAttempted && synced && Committed() && trail.tail == 4
      ensures f.Fail? ==> Explained(f.failure)
      ensures f.Continue? ==> StillGood()
      ensures Prepaid()
    {
      hide Live, Lookup, Complete, budget.Valid, Safe, Traced, AllGood;
      var nameBytes := |temporary| + |destination|;
      if nameBytes >= SIZE_LIMIT {
        return Fail(InvalidInput);
      }
      f := AdmitCall(2, nameBytes);
      if !f.Continue? {
        return;
      }
      var index;
      f, index := RenameCall();
      var late := *;
      if f.Unwind? || late {
        return Unwind;
      }
      if renamed {
        GoodAppend(old(outcomes), outcomes[index]);
      }
      if !renamed {
        f := CheckBudget();
        return if f.Continue? then Fail(Io(index)) else f;
      }
      f := SyncRenamed();
    }

    /** A pending parent sync can still be started: what an unwind relies on. */
    ghost predicate Settleable()
      reads this`renameAttempted, this`syncAttempted, this`trail, this`outcomes, this`admitted
    {
      renameAttempted && !syncAttempted ==>
        trail.Reached? && (trail.tail == 2 || trail.tail == 3) && |outcomes| < admitted
    }

    /** The complete body is durable under the destination, and the temporary name is gone. */
    ghost predicate Committed()
      reads this`disk
    {
      && disk.pending == []
      && Lookup(disk.durable, destination) == Some(inode) && temporary !in disk.durable
      && Complete(disk, inode, body)
    }

    /** The temporary, created and recognized. */
    method CreateTemporary() returns (f: Flow)
      requires Entered() && Safe() && budget.Valid()
      modifies this`admitted, this`disk, this`history, this`file, this`outcomes, this`trail, this`unfinished
      modifies this`temporaryIdentity, this`finalIdentity, this`directoryRefused, budget, budget.clock
      ensures Safe() && Traced() && budget.Valid()
      ensures f.Continue? ==> Preparing() && trail == Reached(0, 0) && !directoryRefused && StillGood()
      ensures f.Fail? ==> Explained(f.failure)
      ensures Prepaid()
    {
      hide AllChunks, OnlyOld, OldOrNew, CanFind, OthersKept, NamesKept, Phases, Spell, Live, Lookup, budget.Valid;
      hide Safe, Traced, AllGood;
      f := OpenTemporary();
      if f.Continue? {
        f := Metadata(TemporaryMetadata);
      }
    }

    /** Everything before the commit: the temporary exists, complete and synced. */
    method PrepareTemporary() returns (f: Flow)
      requires Entered() && Safe() && budget.Valid() && limits.maxWriteBytes > 0
      modifies this`admitted, this`disk, this`history, this`file, this`written, this`outcomes, this`trail
      modifies this`unfinished
      modifies this`temporaryIdentity, this`finalIdentity, this`directoryRefused, this`validations, budget, budget.clock
      ensures Safe() && Traced() && budget.Valid()
      ensures f.Continue? ==>
                && Preparing() && trail.Reached? && trail.tail == 2
                && Complete(disk, inode, body) && validations == 1 && !directoryRefused
      ensures f.Fail? ==> Explained(f.failure)
      ensures f.Continue? ==> StillGood()
      ensures Prepaid()
    {
      hide AllChunks, OnlyOld, OldOrNew, CanFind, OthersKept, NamesKept, Phases, Spell, Live, Lookup, budget.Valid;
      hide Safe, Traced, AllGood;
      f := CreateTemporary();
      if !f.Continue? {
        return;
      }
      f := WriteAll();
      if !f.Continue? {
        return;
      }
      f := FileUnit(Flush);
      if !f.Continue? {
        return;
      }
      f := FileUnit(SyncData);
      if !f.Continue? {
        return;
      }
      assert body[..written] == body;
      f := ValidateFile();
    }

    lemma NothingRecorded()
      requires Traced() && trail.Nothing?
      ensures outcomes == []
    {
      assert |outcomes| == |Phases(outcomes)|;
    }

    lemma FirstStat()
      requires Traced() && temporaryIdentity.Some?
      ensures outcomes != [] && Identifies(outcomes[0], temporaryIdentity.value)
    {
    }

    /** The final stat of the descriptor must find the file that was created. */
    method Recognize() returns (f: Flow)
      requires Traced() && budget.Valid() && trail.Reached? && trail.tail == 4
      modifies this`admitted, this`outcomes, this`trail, this`unfinished, this`temporaryIdentity, this`finalIdentity
      modifies budget, budget.clock
      ensures Traced() && budget.Valid()
      ensures trail == old(trail) || trail == Reached(old(trail).writes, 5)
      ensures f.Continue? ==> trail.Reached? && trail.tail == 5 && Recognized() && !budget.Refused() && StillGood()
      ensures f.Fail? ==> Explained(f.failure)
      ensures Prepaid()
    {
      hide AllChunks, budget.Valid, Phases, Spell, AllGood, Traced;
      f := Metadata(FinalMetadata);
      if !f.Continue? {
        return;
      }
      if finalIdentity != temporaryIdentity {
        return Fail(IdentityChanged);
      }
      FirstStat();
      f := CheckBudget();
    }

    method Run() returns (f: Flow)
      requires Entered() && Safe() && budget.Valid() && limits.maxWriteBytes > 0
      modifies this, budget, budget.clock
      ensures Safe() && Traced() && budget.Valid() && Settleable()
      ensures f.Fail? && renamed ==> syncAttempted
      ensures f.Continue? ==>
                && Committed() && renamed && synced && trail.Reached? && trail.tail == 5
                && Recognized() && !budget.Refused()
                && validations == 2 && !directoryRefused && allocationFailed == old(allocationFailed)
      ensures f.Fail? ==> Explained(f.failure)
      ensures f.Continue? ==> StillGood()
      ensures Prepaid()
    {
      hide AllChunks, OnlyOld, OldOrNew, CanFind, OthersKept, NamesKept, Phases, Spell, Live, Lookup, budget.Valid;
      hide Safe, Traced, Complete, AllGood, Scope.Explained, Scope.Recognized, Scope.Preparing;
      f := PrepareTemporary();
      if !f.Continue? {
        return;
      }
      f := RenameAndSync();
      if !f.Continue? {
        return;
      }
      f := ValidateFile();
      if !f.Continue? {
        return;
      }
      f := Recognize();
    }

    /** The first stat and the last one found the same plain file. */
    ghost predicate Recognized()
      reads this`outcomes, this`temporaryIdentity, this`finalIdentity
    {
      && outcomes != [] && temporaryIdentity.Some? && temporaryIdentity == finalIdentity
      && Identifies(outcomes[0], temporaryIdentity.value)
      && Identifies(outcomes[|outcomes| - 1], temporaryIdentity.value)
    }

    /** Fallible reservations and the copies of three names, each between budget checks. */
    method Reserve() returns (f: Flow)
      requires budget.Valid()
      modifies this`allocationFailed, budget, budget.clock
      ensures budget.Valid() && !f.Unwind? && (f.Continue? ==> allocationFailed == old(allocationFailed))
      ensures f.Fail? ==> Explained(f.failure)
      ensures Prepaid()
    {
      hide budget.Valid;
      f := CheckBudget();
      for i := 0 to 4
        invariant Prepaid()
        invariant budget.Valid() && !f.Unwind? && (f.Continue? ==> allocationFailed == old(allocationFailed))
        invariant f.Fail? ==> Explained(f.failure)
      {
        if !f.Continue? {
          return;
        }
        var refused := AskAllocator();
        if refused {
          return Fail(Allocation);
        }
        f := CheckBudget();
      }
    }

    method AskAllocator() returns (refused: bool)
      modifies this`allocationFailed
      ensures allocationFailed == (old(allocationFailed) || refused)
    {
      refused := *;
      allocationFailed := allocationFailed || refused;
    }

    /** After a panic: deny first, then settle a rename that has no parent sync yet. */
    method RetainUnwind()
      requires Safe() && Traced() && budget.Valid() && Settleable()
      modifies this, budget
      ensures Safe() && Traced() && budget.Valid() && budget.state.denied
      ensures renameAttempted == old(renameAttempted) && renamed == old(renamed)
      ensures renameAttempted ==> syncAttempted
      ensures unwindPhase == old(unfinished)
      ensures Prepaid()
    {
      budget.Deny();
      unwindPhase := unfinished;
      if renameAttempted && !syncAttempted {
        var settled, _ := SyncParent();
      }
    }

    /** The end of every replacement: an error or a panic leaves the budget denied. */
    method Leave(f: Flow) returns (failure: Option<ReplacementFailure>)
      requires Safe() && Traced() && budget.Valid() && Settleable()
      requires f.Fail? ==> Explained(f.failure) && (renamed ==> syncAttempted)
      requires f.Continue? ==> renamed && synced && syncAttempted && !budget.Refused()
      modifies this, budget
      ensures ExitGuarantee(this) && budget.Valid()
      ensures failure.None? <==> f.Continue?
      ensures f.Continue? ==> disk == old(disk) && trail == old(trail) && !budget.Refused()
      ensures f.Continue? ==>
                && temporaryIdentity == old(temporaryIdentity) && finalIdentity == old(finalIdentity)
                && validations == old(validations) && directoryRefused == old(directoryRefused)
                && allocationFailed == old(allocationFailed) && outcomes == old(outcomes)
      ensures failure.Some? ==> budget.state.denied
      ensures failure == Some(Unwound) && renameAttempted ==> syncs == 1
      ensures failure.Some? && !failure.value.Unwound? ==> Explained(failure.value)
      ensures Prepaid()
      ensures |outcomes| <= admitted
    {
      hide AllChunks, Phases, Spell, budget.Valid, budget.EverRefused, OldOrNew, OthersKept, NamesKept;
      match f {
        case Continue => failure := None;
        case Fail(failed) =>
          budget.Deny();
          failure := Some(failed);
        case Unwind =>
          RetainUnwind();
          failure := Some(Unwound);
      }
      OutcomesFit(this);
    }
  }

  lemma FullSyncNames(d: Directory)
    ensures SyncDirectory(d).durable == Live(d)
  {
  }

  // ---------------------------------------------------------------- the operation

  /** What every exit of a replacement guarantees. */
  ghost predicate ExitGuarantee(s: Scope)
    reads s
  {
    && s.Safe() && s.Traced()
    && |s.outcomes| <= s.limits.maxWriteCalls + 6 && |s.outcomes| <= s.admitted
    && s.syncs <= 1
    && (s.renamed ==> s.syncs == 1)
    && (s.temporary in Live(s.start) ==> s.history == [s.start])
  }

  lemma OutcomesFit(s: Scope)
    requires s.Traced()
    ensures |s.outcomes| <= s.limits.maxWriteCalls + 6
  {
    assert |s.outcomes| == |Phases(s.outcomes)| == |Spell(s.trail)|;
  }

  /**
   * Replaces one literal file.  Whatever write results, refusals and panics occur, every
   * crash point finds the old file or the complete body under the destination; success
   * means the complete body is durable there; every error leaves the budget denied.
   */
  method ReplaceFileUntil(
    disk: Directory, inode: Inode, pathBytes: Size, temporary: Name, destination: Name,
    body: seq<Byte>, bodyCapacity: Size, limits: ReplacementLimits, sizes: Sizes, budget: NativeDirectoryBudget)
    returns (failure: Option<ReplacementFailure>, scope: Option<Scope>)
    requires budget.Valid() && inode !in disk.files && |body| <= bodyCapacity
    modifies budget, budget.clock
    ensures budget.Valid()
    ensures failure.Some? ==> budget.state.denied
    ensures scope.Some? ==>
              && ExitGuarantee(scope.value) && scope.value.start == disk
              && scope.value.body == body && scope.value.destination == destination
              && scope.value.temporary == temporary && scope.value.inode == inode
    ensures failure == Some(Unwound) && scope.Some? && scope.value.renameAttempted ==> scope.value.syncs == 1
    ensures scope.Some? ==> old(budget.state.usage.calls) + |scope.value.outcomes| <= budget.state.usage.calls
    ensures failure.Some? && scope.Some? && !failure.value.Unwound? ==> scope.value.Explained(failure.value)
    ensures failure.None? ==>
              scope.Some? && scope.value.Committed() && scope.value.trail.Reached? && scope.value.trail.tail == 5
    ensures failure.None? ==>
              && scope.value.Recognized()
              && scope.value.validations == 2 && !scope.value.directoryRefused && !scope.value.allocationFailed
              && AllGood(scope.value.outcomes) && !budget.Refused()
    ensures old(budget.Refused()) ==> failure == Some(BudgetRefused) && scope.None?
    ensures temporary in Live(disk) ==> failure.Some?
    ensures failure.None? || scope.Some? ==>
              && LengthsFit(budget.limits, pathBytes, temporary, destination)
              && ReplacementCost(temporary, destination, bodyCapacity, limits, sizes).Some?
    ensures scope.None? ==>
              || failure == Some(BudgetRefused)
              || (failure == Some(InvalidInput)
                  && !(LengthsFit(budget.limits, pathBytes, temporary, destination)
                       && ReplacementCost(temporary, destination, bodyCapacity, limits, sizes).Some?))
  {
    hide LengthsFit, AllGood, Live, ReplacementCost, NativeDirectoryBudget.Valid, Scope.Entered, Scope.Explained;
    hide Scope.Committed, ExitGuarantee;
    var admitted := Prepare(pathBytes, temporary, destination, bodyCapacity, limits, sizes, budget);
    if admitted.Err? {
      budget.Deny();
      return Some(admitted.error), None;
    }
    var s := new Scope(disk, inode, temporary, destination, body, limits, sizes, budget);
    NothingBad();
    var f := s.Reserve();
    if f.Continue? {
      f := s.Run();
    }
    failure := s.Leave(f);
    return failure, Some(s);
  }

  lemma NothingBad()
    ensures AllGood([])
  {
  }

  /** Both names, and the paths they end, are within the limits of the budget. */
  ghost predicate LengthsFit(limits: Limits, pathBytes: Size, temporary: Name, destination: Name) {
    && |temporary| <= limits.maxComponentBytes && |destination| <= limits.maxComponentBytes
    && pathBytes + 1 + |temporary| <= limits.maxPathBytes
    && pathBytes + 1 + |destination| <= limits.maxPathBytes
  }

  /** Entry checks: deadline, name and path lengths, cost, and the charge for it. */
  method Prepare(
    pathBytes: Size, temporary: Name, destination: Name, bodyCapacity: Size,
    limits: ReplacementLimits, sizes: Sizes, budget: NativeDirectoryBudget)
    returns (r: Result<Cost, ReplacementFailure>)
    requires budget.Valid()
    modifies budget, budget.clock
    ensures budget.Valid()
    ensures r.Ok? ==>
              && LengthsFit(budget.limits, pathBytes, temporary, destination)
              && ReplacementCost(temporary, destination, bodyCapacity, limits, sizes) == Some(r.value)
    ensures r.Err? ==>
              || r.error.BudgetRefused?
              || (r.error.InvalidInput?
                  && !(LengthsFit(budget.limits, pathBytes, temporary, destination)
                       && ReplacementCost(temporary, destination, bodyCapacity, limits, sizes).Some?))
    ensures old(budget.state.usage.calls) <= budget.state.usage.calls
    ensures old(budget.Refused()) ==> r == Err(BudgetRefused)
  {
    var checked := budget.Check();
    if checked.Err? {
      return Err(BudgetRefused);
    }
    if |temporary| > budget.limits.maxComponentBytes || |destination| > budget.limits.maxComponentBytes
      || pathBytes + 1 + |temporary| > budget.limits.maxPathBytes
      || pathBytes + 1 + |destination| > budget.limits.maxPathBytes {
      return Err(InvalidInput);
    }
    var cost := ReplacementCost(temporary, destination, bodyCapacity, limits, sizes);
    if cost.None? {
      return Err(InvalidInput);
    }
    var c := cost.value;
    checked := budget.Charge(Fee(1, 0, c.declaredBytes, c.stringBytes, c.entries, c.declaredBytes));
    if checked.Err? {
      return Err(BudgetRefused);
    }
    checked := budget.Check();
    if checked.Err? {
      return Err(BudgetRefused);
    }
    return Ok(c);
  }
}
