/**
 * Bounded directory acquisition: a no-follow walk that may create missing directories, an
 * advisory lock, and a second walk that revalidates every ancestor.
 *
 * Every successful creation is an obligation to sync the new child and its parent.  Both
 * syncs are prepaid, and they are attempted whatever expiry, native error or observer panic
 * follows.  Native results, clock readings, allocator excess and observer panics are
 * arbitrary.  Where the source returns its `Invariant` failure, the model asserts.
 */
module Acquire {
  import opened AcquireCost
  import opened Machine
  import opened Wrappers

  datatype Phase =
    | DirectoryOpened | DirectoryMetadata | DirectoryCreated | ChildSynced | ParentSynced
    | LockCreated | LockOpened | LockMetadata | AdvisoryLock | NamedLockMetadata

  datatype ErrorKind = NotFound | AlreadyExists | WouldBlock | OtherError

  datatype Identity = Identity(device: nat, inode: nat)

  /** An open descriptor pins one inode: its identity and type never change. */
  datatype Fd = Fd(identity: Identity, isDir: bool, isFile: bool)

  /** How a descriptor was opened: in which directory, by which name. */
  datatype Origin = Origin(parent: Target, name: Bytes)

  datatype Slot = Slot(fd: Fd, taken: bool, identity: Option<Identity>, origin: Origin)

  datatype Stat = Stat(identity: Identity, isDir: bool, isFile: bool, links: nat)

  /** The descriptor a call acts on. */
  datatype Target = Filesystem | Dir(index: nat) | LockFile

  datatype Outcome = Opened(target: Target) | Seen(stat: Stat) | Done

  /** A recorded call; `name` is empty when the call needs only the descriptor. */
  datatype Observation = Observation(phase: Phase, on: Target, name: Bytes, result: Result<Outcome, ErrorKind>)

  datatype Creation = CreateDirectory | CreateLock

  datatype Obligation = Obligation(parent: nat, ordinal: nat, kind: Creation, created: bool)

  datatype Owner = Owner(canonical: Bytes, directoryIdentity: Identity, lockIdentity: Identity, directory: Fd, lock: Fd)

  datatype Failure =
    | Expired | Refused(spelling: SpellingError) | CostOverflow | FeeRefused
    | Capacity | Allocation | Native(index: nat) | IdentityMismatch | Unwound

  /** How a phase ends: with a value, a failure, or a panic that keeps unwinding. */
  datatype Flow<+T> = Value(value: T) | Fail(failure: Failure) | Panic {
    predicate IsFailure() {
      !Value?
    }

    function PropagateFailure<U>(): Flow<U>
      requires !Value?
    {
      match this
      case Fail(failure) => Fail(failure)
      case Panic => Panic
    }

    function Extract(): T
      requires Value?
    {
      value
    }

    /** The same failure or panic at another type. */
    function Then<U>(): Flow<U> {
      match this
      case Fail(failure) => Fail(failure)
      case _ => Panic
    }
  }

  // ---------------------------------------------------------------- settlement

  predicate Creates(o: Observation) {
    o.result.Ok? && (o.phase.DirectoryCreated? || o.phase.LockCreated?)
  }

  predicate Syncs(o: Observation) {
    o.phase.ChildSynced? || o.phase.ParentSynced?
  }

  /** A maximal piece of the call history: one call, or a creation with its settlement. */
  datatype Block =
    | Single(only: Observation)
    | DirectoryBlock(mkdir: Observation, reopen: Observation, childSync: Option<Observation>, parentSync: Observation)
    | LockBlock(create: Observation, lockSync: Observation, parentSync: Observation)

  function SpellBlock(b: Block): seq<Observation> {
    match b
    case Single(o) => [o]
    case DirectoryBlock(mkdir, reopen, childSync, parentSync) =>
      [mkdir, reopen] + (if childSync.Some? then [childSync.value] else []) + [parentSync]
    case LockBlock(create, lockSync, parentSync) => [create, lockSync, parentSync]
  }

  /**
   * Exactly once: a creation is followed by one sync of the child, if it could be opened,
   * and one sync of the directory it was created in.  No other call creates or syncs.
   */
  ghost predicate WellFormed(b: Block) {
    match b
    case Single(o) => !Creates(o) && !Syncs(o)
    case DirectoryBlock(mkdir, reopen, childSync, parentSync) =>
      && Creates(mkdir) && mkdir.phase.DirectoryCreated?
      && reopen.phase.DirectoryOpened? && reopen.on == mkdir.on && reopen.name == mkdir.name
      && (childSync.Some? <==> reopen.result.Ok?)
      && (childSync.Some? ==>
            childSync.value.phase.ChildSynced? && reopen.result.value == Opened(childSync.value.on))
      && parentSync.phase.ParentSynced? && parentSync.on == mkdir.on
    case LockBlock(create, lockSync, parentSync) =>
      && Creates(create) && create.phase.LockCreated?
      && lockSync.phase.ChildSynced? && lockSync.on.LockFile?
      && parentSync.phase.ParentSynced? && parentSync.on == create.on
  }

  function Spell(blocks: seq<Block>): seq<Observation>
    decreases |blocks|
  {
    if blocks == [] then [] else Spell(blocks[..|blocks| - 1]) + SpellBlock(blocks[|blocks| - 1])
  }

  ghost predicate AllWellFormed(blocks: seq<Block>) {
    forall b :: b in blocks ==> WellFormed(b)
  }

  lemma SpellAppend(blocks: seq<Block>, b: Block)
    ensures Spell(blocks + [b]) == Spell(blocks) + SpellBlock(b)
    ensures AllWellFormed(blocks) && WellFormed(b) ==> AllWellFormed(blocks + [b])
  {
    assert (blocks + [b])[..|blocks|] == blocks;
  }

  function CreatedIn(blocks: seq<Block>): nat
    decreases |blocks|
  {
    if blocks == [] then 0
    else CreatedIn(blocks[..|blocks| - 1]) + if blocks[|blocks| - 1].DirectoryBlock? then 1 else 0
  }

  lemma CreatedAppend(blocks: seq<Block>, b: Block)
    ensures CreatedIn(blocks + [b]) == CreatedIn(blocks) + if b.DirectoryBlock? then 1 else 0
  {
    assert (blocks + [b])[..|blocks|] == blocks;
  }

  function Tally(s: seq<Observation>, p: Observation -> bool): nat {
    if s == [] then 0 else (if p(s[0]) then 1 else 0) + Tally(s[1..], p)
  }

  lemma {:induction false} TallyAppend(s: seq<Observation>, t: seq<Observation>, p: Observation -> bool)
    ensures Tally(s + t, p) == Tally(s, p) + Tally(t, p)
    decreases |s|
  {
    if s == [] {
      assert s + t == t;
    } else {
      TallyAppend(s[1..], t, p);
      assert (s + t)[1..] == s[1..] + t;
    }
  }

  predicate SyncsParent(o: Observation) {
    o.phase.ParentSynced?
  }

  lemma TallySingle(o: Observation, p: Observation -> bool)
    ensures Tally([o], p) == if p(o) then 1 else 0
  {
    assert [o][1..] == [];
  }

  /** Counting one more observation. */
  lemma TallyOne(s: seq<Observation>, o: Observation, p: Observation -> bool)
    ensures Tally(s + [o], p) == Tally(s, p) + if p(o) then 1 else 0
  {
    TallyAppend(s, [o], p);
    TallySingle(o, p);
  }

  lemma BlockTally(b: Block, p: Observation -> bool)
    ensures Tally(SpellBlock(b), p) ==
            match b
            case Single(o) => (if p(o) then 1 else 0)
            case LockBlock(o, l, s) => (if p(o) then 1 else 0) + (if p(l) then 1 else 0) + (if p(s) then 1 else 0)
            case DirectoryBlock(o, l, c, s) =>
              (if p(o) then 1 else 0) + (if p(l) then 1 else 0)
              + (if c.Some? && p(c.value) then 1 else 0) + (if p(s) then 1 else 0)
  {
    hide Tally;
    match b
    case Single(o) => TallySingle(o, p);
    case LockBlock(o, l, s) =>
      TallySingle(o, p);
      TallyOne([o], l, p);
      TallyOne([o] + [l], s, p);
      assert [o] + [l] + [s] == [o, l, s];
    case DirectoryBlock(o, l, c, s) =>
      TallySingle(o, p);
      TallyOne([o], l, p);
      assert [o] + [l] == [o, l];
      if c.Some? {
        TallyOne([o, l], c.value, p);
        TallyOne([o, l] + [c.value], s, p);
      } else {
        TallyOne([o, l], s, p);
        assert [o, l] + [] == [o, l];
      }
  }

  lemma BlockBalanced(b: Block)
    requires WellFormed(b)
    ensures Tally(SpellBlock(b), Creates) == Tally(SpellBlock(b), SyncsParent)
  {
    BlockTally(b, Creates);
    BlockTally(b, SyncsParent);
  }

  /** In a settled history there are exactly as many parent syncs as successful creations. */
  lemma {:induction false} OneSyncPerCreation(blocks: seq<Block>)
    requires AllWellFormed(blocks)
    ensures Tally(Spell(blocks), Creates) == Tally(Spell(blocks), SyncsParent)
    decreases |blocks|
  {
    if blocks != [] {
      var n := |blocks| - 1;
      OneSyncPerCreation(blocks[..n]);
      BlockBalanced(blocks[n]);
      TallyAppend(Spell(blocks[..n]), SpellBlock(blocks[n]), Creates);
      TallyAppend(Spell(blocks[..n]), SpellBlock(blocks[n]), SyncsParent);
    }
  }

  /**
   * The creation at `i` is settled at `j`: a created directory is reopened, synced if it
   * reopened, and then its parent is synced; a created lock file and then its parent are.
   */
  ghost predicate SettledAt(s: seq<Observation>, i: nat, j: nat) {
    && i + 1 < j < |s| && s[j].phase.ParentSynced? && s[j].on == s[i].on
    && if s[i].phase.LockCreated? then j == i + 2 && s[i + 1].phase.ChildSynced? && s[i + 1].on.LockFile?
       else
         && s[i + 1].phase.DirectoryOpened? && s[i + 1].on == s[i].on && s[i + 1].name == s[i].name
         && if s[i + 1].result.Err? then j == i + 2
            else j == i + 3 && s[i + 2].phase.ChildSynced? && s[i + 1].result.value == Opened(s[i + 2].on)
  }

  lemma BlockSettles(b: Block)
    requires WellFormed(b) && !b.Single?
    ensures SettledAt(SpellBlock(b), 0, |SpellBlock(b)| - 1)
    ensures forall i :: 0 < i < |SpellBlock(b)| ==> !Creates(SpellBlock(b)[i])
  {
  }

  lemma SettledBefore(s: seq<Observation>, after: seq<Observation>, i: nat, j: nat)
    requires SettledAt(s, i, j)
    ensures SettledAt(s + after, i, j)
  {
  }

  lemma SettledAfter(before: seq<Observation>, s: seq<Observation>, j: nat)
    requires SettledAt(s, 0, j)
    ensures SettledAt(before + s, |before|, |before| + j)
  {
    var all, n := before + s, |before|;
    assert all[n] == s[0] && all[n + 1] == s[1] && all[n + j] == s[j];
    if j == 3 {
      assert all[n + 2] == s[2];
    }
  }

  /** In a settled history every successful creation is settled. */
  lemma {:induction false} EveryCreationSettles(blocks: seq<Block>, i: nat)
    requires AllWellFormed(blocks) && i < |Spell(blocks)| && Creates(Spell(blocks)[i])
    ensures exists j :: SettledAt(Spell(blocks), i, j)
    decreases |blocks|
  {
    var n := |blocks| - 1;
    var before, b := Spell(blocks[..n]), blocks[n];
    assert Spell(blocks) == before + SpellBlock(b) && WellFormed(b) && AllWellFormed(blocks[..n]);
    hide Creates, SettledAt, Spell, SpellBlock, WellFormed, AllWellFormed;
    if i < |before| {
      assert before[i] == Spell(blocks)[i];
      EveryCreationSettles(blocks[..n], i);
      var j :| SettledAt(before, i, j);
      SettledBefore(before, SpellBlock(b), i, j);
    } else {
      var k := i - |before|;
      assert SpellBlock(b)[k] == Spell(blocks)[i];
      NotSingle(b, k);
      BlockSettles(b);
      SettledAfter(before, SpellBlock(b), |SpellBlock(b)| - 1);
    }
  }

  lemma NotSingle(b: Block, k: nat)
    requires WellFormed(b) && k < |SpellBlock(b)| && Creates(SpellBlock(b)[k])
    ensures !b.Single? && k == 0
  {
  }

  /** One parent sync per successful creation, and each creation settled in its place. */
  ghost predicate SettledHistory(s: seq<Observation>) {
    && Tally(s, Creates) == Tally(s, SyncsParent)
    && forall i :: 0 <= i < |s| && Creates(s[i]) ==> exists j :: SettledAt(s, i, j)
  }

  lemma BlocksSettle(blocks: seq<Block>)
    requires AllWellFormed(blocks)
    ensures SettledHistory(Spell(blocks))
  {
    hide Creates, SettledAt, AllWellFormed;
    OneSyncPerCreation(blocks);
    forall i | 0 <= i < |Spell(blocks)| && Creates(Spell(blocks)[i]) ensures exists j :: SettledAt(Spell(blocks), i, j) {
      EveryCreationSettles(blocks, i);
    }
  }

  /** The same descriptors in the same slots; identities are only filled in. */
  ghost predicate SameSlots(a: seq<Slot>, b: seq<Slot>) {
    && |a| == |b|
    && forall i :: 0 <= i < |a| ==>
         b[i].fd == a[i].fd && b[i].taken == a[i].taken && b[i].origin == a[i].origin
         && (a[i].identity.Some? ==> b[i].identity == a[i].identity)
  }

  lemma SameSlotsReflexive(a: seq<Slot>)
    ensures SameSlots(a, a)
  {
  }

  /** Slots are only added, and their identities only filled in. */
  ghost predicate Grown(a: seq<Slot>, b: seq<Slot>) {
    && |a| <= |b|
    && forall i :: 0 <= i < |a| ==>
         b[i].fd == a[i].fd && b[i].taken == a[i].taken && b[i].origin == a[i].origin
         && (a[i].identity.Some? ==> b[i].identity == a[i].identity)
  }

  /** The slots before slot `i` was given away. */
  ghost function Untaken(slots: seq<Slot>, i: nat): seq<Slot> {
    if i < |slots| then slots[i := slots[i].(taken := false)] else slots
  }

  lemma GrownChain(a: seq<Slot>, b: seq<Slot>, c: seq<Slot>)
    requires (a <= b || Grown(a, b)) && (b <= c || SameSlots(b, c) || Grown(b, c))
    ensures Grown(a, c)
  {
  }

  /** A walk so far: kept directories whose identities were recorded. */
  ghost predicate Walked(walk: seq<nat>, slots: seq<Slot>) {
    forall i :: 0 <= i < |walk| ==>
      walk[i] < |slots| && slots[walk[i]].fd.isDir && slots[walk[i]].identity == Some(slots[walk[i]].fd.identity)
  }

  /** The second walk reached, ancestor by ancestor, the very inodes of the first. */
  ghost predicate Matched(first: seq<nat>, second: seq<nat>, slots: seq<Slot>) {
    && |second| <= |first|
    && forall i :: 0 <= i < |second| ==>
         && first[i] < |slots| && second[i] < |slots|
         && slots[first[i]].fd.identity == slots[second[i]].fd.identity
  }

  lemma WalksGrow(first: seq<nat>, second: seq<nat>, a: seq<Slot>, b: seq<Slot>)
    requires Grown(a, b)
    ensures Walked(first, a) ==> Walked(first, b)
    ensures Matched(first, second, a) ==> Matched(first, second, b)
  {
  }

  lemma WalksUntaken(first: seq<nat>, second: seq<nat>, slots: seq<Slot>, i: nat)
    requires Walked(first, Untaken(slots, i)) && Matched(first, second, Untaken(slots, i))
    ensures Walked(first, slots) && Matched(first, second, slots)
  {
  }

  lemma WalkedAppend(walk: seq<nat>, i: nat, slots: seq<Slot>)
    requires Walked(walk, slots) && Walked([i], slots)
    ensures Walked(walk + [i], slots)
  {
    assert [i][0] == i;
  }

  lemma NothingMatched(first: seq<nat>, slots: seq<Slot>)
    ensures Matched(first, [], slots)
  {
  }

  // ---------------------------------------------------------------- where calls are made

  /** The call is made in the `i`-th directory of the walk and names the next component. */
  predicate StepOf(on: Target, name: Bytes, walk: seq<nat>, comps: seq<Bytes>, i: nat) {
    i < |walk| && i < |comps| && on == Dir(walk[i]) && name == comps[i]
  }

  /** The call names the lock file in the last directory of the walk. */
  predicate AtEnd(on: Target, name: Bytes, walk: seq<nat>, comps: seq<Bytes>) {
    |comps| < |walk| && on == Dir(walk[|comps|]) && name == LOCK_NAME
  }

  /**
   * Every call that names something is made in its place: directories are opened from the
   * root or one component below a walk, and created only one component below the first
   * walk; the lock is opened at the end of the first walk and named at the end of the second.
   */
  ghost predicate Placed(phase: Phase, on: Target, name: Bytes, first: seq<nat>, second: seq<nat>, comps: seq<Bytes>) {
    match phase
    case DirectoryOpened =>
      || (on == Filesystem && name == [SLASH])
      || (exists i :: StepOf(on, name, first, comps, i))
      || (exists i :: StepOf(on, name, second, comps, i))
    case DirectoryCreated => exists i :: StepOf(on, name, first, comps, i)
    case LockCreated => AtEnd(on, name, first, comps)
    case LockOpened => AtEnd(on, name, first, comps)
    case NamedLockMetadata => AtEnd(on, name, second, comps)
    case _ => name == []
  }

  ghost predicate AllPlaced(outcomes: seq<Observation>, first: seq<nat>, second: seq<nat>, comps: seq<Bytes>) {
    forall o :: o in outcomes ==> Placed(o.phase, o.on, o.name, first, second, comps)
  }

  lemma PlacedGrows(
    phase: Phase, on: Target, name: Bytes, first: seq<nat>, second: seq<nat>, first': seq<nat>, second': seq<nat>, comps: seq<Bytes>)
    requires first <= first' && second <= second' && Placed(phase, on, name, first, second, comps)
    ensures Placed(phase, on, name, first', second', comps)
  {
    if i :| StepOf(on, name, first, comps, i) {
      assert StepOf(on, name, first', comps, i);
    }
    if i :| StepOf(on, name, second, comps, i) {
      assert StepOf(on, name, second', comps, i);
    }
  }

  lemma AllPlacedGrows(
    outcomes: seq<Observation>, first: seq<nat>, second: seq<nat>, first': seq<nat>, second': seq<nat>, comps: seq<Bytes>)
    requires first <= first' && second <= second' && AllPlaced(outcomes, first, second, comps)
    ensures AllPlaced(outcomes, first', second', comps)
  {
    hide Placed;
    forall o | o in outcomes ensures Placed(o.phase, o.on, o.name, first', second', comps) {
      PlacedGrows(o.phase, o.on, o.name, first, second, first', second', comps);
    }
  }

  /** A directory is created only right after it was missing, an old lock opened only after a lost race. */
  ghost predicate Caused(before: seq<Observation>, phase: Phase, on: Target, name: Bytes) {
    && (phase.DirectoryCreated? ==>
          before != [] && before[|before| - 1] == Observation(DirectoryOpened, on, name, Err(NotFound)))
    && (phase.LockOpened? ==>
          before != [] && before[|before| - 1] == Observation(LockCreated, on, name, Err(AlreadyExists)))
  }

  ghost predicate AllCaused(outcomes: seq<Observation>)
    decreases |outcomes|
  {
    outcomes == [] ||
    (var n := |outcomes| - 1;
     AllCaused(outcomes[..n]) && Caused(outcomes[..n], outcomes[n].phase, outcomes[n].on, outcomes[n].name))
  }

  /** The record of an open that gave slot `i`. */
  function OpenOf(origin: Origin, i: nat): Observation {
    Observation(DirectoryOpened, origin.parent, origin.name, Ok(Opened(Dir(i))))
  }

  ghost predicate LockSeen(outcomes: seq<Observation>) {
    exists o :: o in outcomes && OpensLock(o)
  }

  predicate OpensLock(o: Observation) {
    (o.phase.LockCreated? || o.phase.LockOpened?) && o.result == Ok(Opened(LockFile))
  }

  ghost predicate LockTaken(outcomes: seq<Observation>) {
    exists o :: o in outcomes && TakesLock(o)
  }

  predicate TakesLock(o: Observation) {
    o.phase.AdvisoryLock? && o.on == LockFile && o.result == Ok(Done)
  }

  ghost predicate NamedSeen(outcomes: seq<Observation>, named: Stat) {
    exists o :: o in outcomes && NamesLock(o, named)
  }

  predicate NamesLock(o: Observation, named: Stat) {
    o.phase.NamedLockMetadata? && o.result == Ok(Seen(named))
  }

  /** Every kept descriptor, and the name seen last, is in the record. */
  ghost predicate AllRecorded(
    outcomes: seq<Observation>, slots: seq<Slot>, lock: Option<Fd>, owner: Option<Owner>, named: Option<Stat>)
  {
    && (forall i :: 0 <= i < |slots| ==> OpenOf(slots[i].origin, i) in outcomes)
    && (lock.Some? || owner.Some? ==> LockSeen(outcomes))
    && (named.Some? ==> NamedSeen(outcomes, named.value))
  }

  ghost predicate EvidenceOk(
    held: bool, outcomes: seq<Observation>, first: seq<nat>, second: seq<nat>, comps: seq<Bytes>,
    slots: seq<Slot>, lock: Option<Fd>, owner: Option<Owner>, named: Option<Stat>)
  {
    && AllPlaced(outcomes, first, second, comps) && AllCaused(outcomes)
    && AllRecorded(outcomes, slots, lock, owner, named) && (held ==> LockTaken(outcomes))
  }

  lemma EvidenceRecord(
    held: bool, outcomes: seq<Observation>, o: Observation, first: seq<nat>, second: seq<nat>, comps: seq<Bytes>,
    slots: seq<Slot>, lock: Option<Fd>, owner: Option<Owner>, named: Option<Stat>)
    requires EvidenceOk(held, outcomes, first, second, comps, slots, lock, owner, named)
    requires Placed(o.phase, o.on, o.name, first, second, comps) && Caused(outcomes, o.phase, o.on, o.name)
    ensures EvidenceOk(held, outcomes + [o], first, second, comps, slots, lock, owner, named)
  {
    hide Placed, Caused;
    var more := outcomes + [o];
    assert more[..|outcomes|] == outcomes && more[|outcomes|] == o;
    assert forall x :: x in outcomes ==> x in more;
  }

  lemma EvidenceSlot(
    held: bool, outcomes: seq<Observation>, first: seq<nat>, second: seq<nat>, comps: seq<Bytes>,
    slots: seq<Slot>, lock: Option<Fd>, owner: Option<Owner>, named: Option<Stat>, slot: Slot)
    requires EvidenceOk(held, outcomes, first, second, comps, slots, lock, owner, named)
    requires OpenOf(slot.origin, |slots|) in outcomes
    ensures EvidenceOk(held, outcomes, first, second, comps, slots + [slot], lock, owner, named)
  {
    hide AllPlaced, AllCaused, LockSeen, LockTaken, NamedSeen;
  }

  /** Slots that only changed beside their origins are still recorded. */
  lemma EvidenceSlots(
    held: bool, outcomes: seq<Observation>, first: seq<nat>, second: seq<nat>, comps: seq<Bytes>,
    slots: seq<Slot>, slots': seq<Slot>, lock: Option<Fd>, lock': Option<Fd>, owner: Option<Owner>, owner': Option<Owner>,
    named: Option<Stat>)
    requires EvidenceOk(held, outcomes, first, second, comps, slots, lock, owner, named)
    requires |slots| == |slots'| && forall i :: 0 <= i < |slots| ==> slots'[i].origin == slots[i].origin
    requires lock'.Some? || owner'.Some? ==> lock.Some? || owner.Some?
    ensures EvidenceOk(held, outcomes, first, second, comps, slots', lock', owner', named)
  {
    hide AllPlaced, AllCaused, LockSeen, LockTaken, NamedSeen;
  }

  lemma EvidenceLock(
    held: bool, outcomes: seq<Observation>, first: seq<nat>, second: seq<nat>, comps: seq<Bytes>,
    slots: seq<Slot>, lock: Option<Fd>, owner: Option<Owner>, named: Option<Stat>, fd: Fd, o: Observation)
    requires EvidenceOk(held, outcomes, first, second, comps, slots, lock, owner, named)
    requires o in outcomes && OpensLock(o)
    ensures EvidenceOk(held, outcomes, first, second, comps, slots, Some(fd), owner, named)
  {
    hide AllPlaced, AllCaused, LockTaken, NamedSeen;
  }

  lemma EvidenceNamed(
    held: bool, outcomes: seq<Observation>, first: seq<nat>, second: seq<nat>, comps: seq<Bytes>,
    slots: seq<Slot>, lock: Option<Fd>, owner: Option<Owner>, named: Option<Stat>, stat: Stat, o: Observation)
    requires EvidenceOk(held, outcomes, first, second, comps, slots, lock, owner, named)
    requires o in outcomes && NamesLock(o, stat)
    ensures EvidenceOk(held, outcomes, first, second, comps, slots, lock, owner, Some(stat))
  {
    hide AllPlaced, AllCaused, LockSeen, LockTaken;
  }

  lemma EvidenceWalks(
    held: bool, outcomes: seq<Observation>, first: seq<nat>, second: seq<nat>,
    first': seq<nat>, second': seq<nat>, comps: seq<Bytes>,
    slots: seq<Slot>, lock: Option<Fd>, owner: Option<Owner>, named: Option<Stat>)
    requires EvidenceOk(held, outcomes, first, second, comps, slots, lock, owner, named) && first <= first'
    requires second <= second'
    ensures EvidenceOk(held, outcomes, first', second', comps, slots, lock, owner, named)
  {
    hide AllCaused, AllRecorded, Placed, LockTaken;
    AllPlacedGrows(outcomes, first, second, first', second', comps);
  }

  /** Where the `i`-th directory of a walk was opened. */
  function OriginAt(walk: seq<nat>, comps: seq<Bytes>, i: nat): Origin
    requires i < |walk| && i <= |comps|
  {
    if i == 0 then Origin(Filesystem, [SLASH]) else Origin(Dir(walk[i - 1]), comps[i - 1])
  }

  /** Each directory of a walk was opened in the one before it, by the next component. */
  ghost predicate Chained(walk: seq<nat>, slots: seq<Slot>, comps: seq<Bytes>) {
    && |walk| <= |comps| + 1
    && forall i :: 0 <= i < |walk| ==> LinkAt(walk, slots, comps, i)
  }

  ghost predicate LinkAt(walk: seq<nat>, slots: seq<Slot>, comps: seq<Bytes>, i: nat)
    requires i < |walk| && i <= |comps|
  {
    walk[i] < |slots| && slots[walk[i]].origin == OriginAt(walk, comps, i)
  }

  lemma NothingChained(slots: seq<Slot>, comps: seq<Bytes>)
    ensures Chained([], slots, comps)
  {
  }

  lemma ChainGrows(walk: seq<nat>, a: seq<Slot>, b: seq<Slot>, comps: seq<Bytes>)
    requires Chained(walk, a, comps) && Grown(a, b)
    ensures Chained(walk, b, comps)
  {
    hide OriginAt;
    forall i | 0 <= i < |walk| ensures LinkAt(walk, b, comps, i) {
      assert LinkAt(walk, a, comps, i);
    }
  }

  lemma ChainUntaken(walk: seq<nat>, slots: seq<Slot>, i: nat, comps: seq<Bytes>)
    requires Chained(walk, Untaken(slots, i), comps)
    ensures Chained(walk, slots, comps)
  {
    hide OriginAt;
    var before := Untaken(slots, i);
    forall k | 0 <= k < |walk| ensures LinkAt(walk, slots, comps, k) {
      assert LinkAt(walk, before, comps, k);
    }
  }

  lemma ChainAppend(walk: seq<nat>, next: nat, slots: seq<Slot>, comps: seq<Bytes>)
    requires Chained(walk, slots, comps) && |walk| <= |comps| && next < |slots|
    requires slots[next].origin == if walk == [] then Origin(Filesystem, [SLASH])
                                   else Origin(Dir(walk[|walk| - 1]), comps[|walk| - 1])
    ensures Chained(walk + [next], slots, comps)
  {
    var longer := walk + [next];
    forall i | 0 <= i < |longer| ensures LinkAt(longer, slots, comps, i) {
      if i < |walk| {
        assert LinkAt(walk, slots, comps, i);
      }
    }
  }

  lemma StartChain(root: nat, slots: seq<Slot>, comps: seq<Bytes>)
    requires root < |slots| && slots[root].origin == Origin(Filesystem, [SLASH])
    ensures Chained([root], slots, comps)
  {
    assert [] + [root] == [root];
    ChainAppend([], root, slots, comps);
  }

  /** The recorded opens descend the path: from the root, each component inside the one before. */
  ghost predicate Descended(walk: seq<nat>, comps: seq<Bytes>, outcomes: seq<Observation>) {
    && |walk| == |comps| + 1
    && Observation(DirectoryOpened, Filesystem, [SLASH], Ok(Opened(Dir(walk[0])))) in outcomes
    && forall i {:trigger comps[i]} :: 0 <= i < |comps| ==>
         Observation(DirectoryOpened, Dir(walk[i]), comps[i], Ok(Opened(Dir(walk[i + 1])))) in outcomes
  }

  lemma ChainDescends(
    walk: seq<nat>, comps: seq<Bytes>, outcomes: seq<Observation>,
    slots: seq<Slot>, lock: Option<Fd>, owner: Option<Owner>, named: Option<Stat>)
    requires Chained(walk, slots, comps) && |walk| == |comps| + 1 && AllRecorded(outcomes, slots, lock, owner, named)
    ensures Descended(walk, comps, outcomes)
  {
    assert LinkAt(walk, slots, comps, 0);
    assert OpenOf(slots[walk[0]].origin, walk[0]) in outcomes;
    forall i {:trigger comps[i]} | 0 <= i < |comps|
      ensures Observation(DirectoryOpened, Dir(walk[i]), comps[i], Ok(Opened(Dir(walk[i + 1])))) in outcomes
    {
      assert LinkAt(walk, slots, comps, i + 1);
      assert OpenOf(slots[walk[i + 1]].origin, walk[i + 1]) in outcomes;
    }
  }

  /**
   * The whole record of a success: both walks descend the path, the lock was opened in the
   * last directory of the first, and its name was seen in the last directory of the second.
   */
  ghost predicate Witnessed(outcomes: seq<Observation>, first: seq<nat>, second: seq<nat>, named: Stat, comps: seq<Bytes>) {
    && Descended(first, comps, outcomes) && Descended(second, comps, outcomes)
    && (exists o :: o in outcomes && OpensLock(o) && AtEnd(o.on, o.name, first, comps))
    && (exists o :: o in outcomes && TakesLock(o))
    && (exists o :: o in outcomes && NamesLock(o, named) && AtEnd(o.on, o.name, second, comps))
  }

  lemma SuccessWitnessed(
    outcomes: seq<Observation>, first: seq<nat>, second: seq<nat>, comps: seq<Bytes>,
    slots: seq<Slot>, named: Stat)
    requires AllPlaced(outcomes, first, second, comps) && LockSeen(outcomes) && LockTaken(outcomes)
    requires AllRecorded(outcomes, slots, None, None, Some(named))
    requires Chained(first, slots, comps) && Chained(second, slots, comps)
    requires |first| == |second| == |comps| + 1
    ensures Witnessed(outcomes, first, second, named, comps)
  {
    ChainDescends(first, comps, outcomes, slots, None, None, Some(named));
    ChainDescends(second, comps, outcomes, slots, None, None, Some(named));
    hide Descended, Chained;
    var o :| o in outcomes && OpensLock(o);
    assert AtEnd(o.on, o.name, first, comps);
    var p :| p in outcomes && NamesLock(p, named);
    assert AtEnd(p.on, p.name, second, comps);
  }

  /** What a finished acquisition proved about the directory and lock it hands over. */
  ghost predicate Acquired(
    o: Owner, first: seq<nat>, second: seq<nat>, slots: seq<Slot>, named: Option<Stat>, comps: seq<Bytes>)
  {
    && |first| == |second| == |comps| + 1 && Walked(first, slots) && Matched(first, second, slots)
    && Chained(first, slots, comps) && Chained(second, slots, comps)
    && o.directory == slots[first[|comps|]].fd && o.directory.isDir && o.directoryIdentity == o.directory.identity
    && o.lock.isFile && o.lockIdentity == o.lock.identity
    && named.Some? && named.value.isFile && named.value.links == 1 && named.value.identity == o.lock.identity
  }

  // ---------------------------------------------------------------- invariants

  const NOTHING := Usage(0, 0, 0, 0, 0)

  /** The ledger stays inside the ceiling while reservations are exact. */
  ghost predicate MoneyOk(
    path: Bytes, z: Sizes, ceiling: Option<Cost>, usage: Usage, denied: bool, feeRefused: bool, due: Usage, exact: bool)
  {
    && (ceiling.None? ==> !denied && !feeRefused && usage == NOTHING)
    && (ceiling.Some? ==>
          && Normalized(path) && |path| < SIZE_LIMIT && |Components(path)| < SIZE_LIMIT
          && ceiling == CostOf(|Components(path)|, |path|, z)
          && 0 <= usage.calls <= ceiling.value.calls
          && (exact ==> Ledger(usage, due, |Components(path)|, |path|, z) && !denied && !feeRefused))
  }

  /** Every recorded call was prepaid beside the prepaid closes, and none started late. */
  ghost predicate TraceOk(
    outcomes: seq<Observation>, blocks: seq<Block>, tail: seq<Observation>, lateStarts: nat,
    ceiling: Option<Cost>, calls: int)
  {
    && outcomes == Spell(blocks) + tail && AllWellFormed(blocks) && lateStarts == 0
    && (outcomes != [] ==> ceiling.Some? && |outcomes| + ceiling.value.files + 1 <= calls)
  }

  /** Recorded identities are the pinned ones; a held lock is in exactly one place. */
  ghost predicate CustodyOk(directories: seq<Slot>, lock: Option<Fd>, lockHeld: bool, owner: Option<Owner>) {
    && (forall i :: 0 <= i < |directories| ==>
          directories[i].identity.Some? ==> directories[i].identity.value == directories[i].fd.identity)
    && !(lock.Some? && owner.Some?)
    && (lockHeld ==> lock.Some? || owner.Some?)
  }

  ghost predicate Idle(createdDirectories: nat, blocks: seq<Block>, tail: seq<Observation>) {
    tail == [] && createdDirectories == CreatedIn(blocks)
  }

  /** A successful creation whose two syncs, and reopening, are prepaid and still due. */
  ghost predicate Unsettled(
    o: Obligation, createdDirectories: nat, blocks: seq<Block>, tail: seq<Observation>,
    directories: seq<Slot>, lock: Option<Fd>, calls: int, recorded: nat, ceiling: Option<Cost>, comps: seq<Bytes>)
  {
    && |tail| == 1 && Creates(tail[0]) && tail[0].on == Dir(o.parent)
    && o.parent < |directories| && !directories[o.parent].taken
    && ceiling.Some?
    && (o.kind.CreateDirectory? ==>
          && tail[0].phase.DirectoryCreated? && o.ordinal < |comps| && tail[0].name == comps[o.ordinal]
          && createdDirectories == CreatedIn(blocks) + 1
          && recorded + ceiling.value.files + 4 <= calls
          && |directories| < ceiling.value.files)
    && (o.kind.CreateLock? ==>
          && tail[0].phase.LockCreated? && lock.Some?
          && createdDirectories == CreatedIn(blocks)
          && recorded + ceiling.value.files + 3 <= calls)
  }

  /** The last call reported that the held lock file has no name, or other names too. */
  predicate LastSawLinks(outcomes: seq<Observation>) {
    && outcomes != [] && outcomes[|outcomes| - 1].phase.LockMetadata?
    && var last := outcomes[|outcomes| - 1].result;
    && last.Ok? && last.value.Seen? && last.value.stat.links != 1
  }

  /** What was seen is not what may be acquired. */
  ghost predicate Mistrusted(
    slots: seq<Slot>, lock: Option<Fd>, outcomes: seq<Observation>, first: seq<nat>, second: seq<nat>, named: Option<Stat>)
  {
    || (exists i :: 0 <= i < |slots| && !slots[i].fd.isDir)
    || (lock.Some? && !lock.value.isFile)
    || LastSawLinks(outcomes)
    || (|second| < |first| && slots != [] && first[|second|] < |slots|
        && slots[|slots| - 1].fd.identity != slots[first[|second|]].fd.identity)
    || (lock.Some? && named.Some?
        && (!named.value.isFile || named.value.links != 1 || named.value.identity != lock.value.identity))
  }

  /** What a settlement can report: a failed call, or a panic. */
  predicate Physical(f: Failure) {
    f.Native? || f.Unwound?
  }

  /** A name that another process created first is not an error of the acquisition. */
  predicate Raced(o: Observation) {
    (o.phase.DirectoryCreated? || o.phase.LockCreated?) && o.result == Err(AlreadyExists)
  }

  /** Nor is a component that the first walk finds missing, as long as it may be created. */
  predicate Excused(outcomes: seq<Observation>, i: nat, second: seq<nat>)
    requires i < |outcomes|
  {
    || Raced(outcomes[i])
    || (second == [] && outcomes[i].phase.DirectoryOpened? && outcomes[i].on.Dir? && outcomes[i].result == Err(NotFound)
        && !(i > 0 && outcomes[i - 1].phase.DirectoryCreated?))
  }

  /** What a successful acquisition may have seen: good answers, lost races, components to create. */
  predicate Acceptable(o: Observation) {
    match o.result
    case Ok(Seen(stat)) =>
      && (o.phase.DirectoryMetadata? ==> stat.isDir)
      && (o.phase.LockMetadata? || o.phase.NamedLockMetadata? ==> stat.links == 1)
      && (o.phase.NamedLockMetadata? ==> stat.isFile)
    case Ok(_) => true
    case Err(kind) => Raced(o) || (o.phase.DirectoryOpened? && o.on.Dir? && kind.NotFound?)
  }

  ghost predicate Clean(outcomes: seq<Observation>) {
    forall o :: o in outcomes ==> Acceptable(o)
  }

  lemma CleanAppend(outcomes: seq<Observation>, o: Observation)
    requires Acceptable(o)
    ensures Clean(outcomes) ==> Clean(outcomes + [o])
  {
  }

  // ---------------------------------------------------------------- the attempt

  class Attempt {
    const path: Bytes
    const limits: AcquireLimits
    const sizes: Sizes
    const expiry: nat
    const clock: Clock

    var ceiling: Option<Cost>
    var usage: Usage
    var creationAttempts: nat
    var createdDirectories: nat
    var denied: bool
    var outcomes: seq<Observation>
    var directories: seq<Slot>
    var firstWalk: seq<nat>
    var panics: nat                  // occupied panic slots, of four
    var obligation: Option<Obligation>
    var lockHeld: bool
    var lock: Option<Fd>
    var owner: Option<Owner>

    ghost var exact: bool            // every reservation so far got exactly what it asked for
    ghost var due: Usage             // setup fees still to be paid
    ghost var feeRefused: bool       // some fee was refused for capacity
    ghost var expirySeen: bool       // a clock check has observed the deadline
    ghost var lateStarts: nat        // calls started after that, outside settlement
    ghost var blocks: seq<Block>
    ghost var tail: seq<Observation> // calls of a creation that is not settled yet
    ghost var lostPanics: nat
    ghost var allocationFailed: bool
    ghost var secondWalk: seq<nat>
    ghost var namedLock: Option<Stat>

    constructor (path: Bytes, limits: AcquireLimits, sizes: Sizes, expiry: nat, clock: Clock)
      ensures Fresh()
      ensures this.path == path && this.limits == limits && this.sizes == sizes
      ensures this.expiry == expiry && this.clock == clock
    {
      this.path := path;
      this.limits := limits;
      this.sizes := sizes;
      this.expiry := expiry;
      this.clock := clock;
      ceiling := None;
      usage := NOTHING;
      creationAttempts, createdDirectories := 0, 0;
      denied := false;
      outcomes, directories, firstWalk := [], [], [];
      panics := 0;
      obligation := None;
      lockHeld := false;
      lock, owner := None, None;
      exact, due, feeRefused := true, NOTHING, false;
      expirySeen, lateStarts := false, 0;
      blocks, tail, lostPanics, secondWalk := [], [], 0, [];
      namedLock := None;
      allocationFailed := false;
    }

    // -------------------------------------------------------------- invariants

    ghost function Comps(): seq<Bytes> {
      if path == [] then [] else Components(path)
    }

    ghost function Count(): nat {
      |Comps()|
    }

    /** What was done is in the record, and was done in its place. */
    ghost predicate Evidence()
      reads this`outcomes, this`firstWalk, this`secondWalk, this`directories, this`lock, this`lockHeld, this`owner
      reads this`namedLock
    {
      EvidenceOk(lockHeld, outcomes, firstWalk, secondWalk, Comps(), directories, lock, owner, namedLock)
    }

    /** Nothing unacceptable has been recorded since. */
    twostate predicate StillClean()
      reads this`outcomes
    {
      Clean(old(outcomes)) ==> Clean(outcomes)
    }

    /** This is a place for such a call. */
    ghost predicate MayCall(phase: Phase, on: Target, name: Bytes)
      reads this`firstWalk, this`secondWalk
    {
      Placed(phase, on, name, firstWalk, secondWalk, Comps())
    }

    ghost predicate Money()
      reads this`ceiling, this`usage, this`denied, this`feeRefused, this`due, this`exact
    {
      MoneyOk(path, sizes, ceiling, usage, denied, feeRefused, due, exact)
    }

    ghost predicate Trace()
      reads this`outcomes, this`blocks, this`tail, this`lateStarts, this`ceiling, this`usage
    {
      TraceOk(outcomes, blocks, tail, lateStarts, ceiling, usage.calls)
    }

    ghost predicate Custody()
      reads this`directories, this`lock, this`lockHeld, this`owner
    {
      CustodyOk(directories, lock, lockHeld, owner)
    }

    /** Creation counters, and what an unsettled creation looks like. */
    ghost predicate Creating()
      reads this`obligation, this`creationAttempts, this`createdDirectories, this`blocks, this`tail
      reads this`directories, this`lock, this`usage, this`outcomes, this`ceiling
    {
      && createdDirectories <= creationAttempts <= limits.maxCreatedDirectories
      && if obligation.Some? && obligation.value.created
         then Unsettled(obligation.value, createdDirectories, blocks, tail, directories, lock,
                        usage.calls, |outcomes|, ceiling, Comps())
         else Idle(createdDirectories, blocks, tail)
    }

    /** The failure has its cause in the retained attempt. */
    ghost predicate Explained(f: Failure)
      reads this`outcomes, this`expirySeen, this`feeRefused, this`panics, this`creationAttempts
      reads this`allocationFailed, this`directories, this`lock, this`firstWalk, this`secondWalk, this`namedLock, clock
    {
      match f
      case Expired => expirySeen && expiry <= clock.now
      case Refused(_) => !Accepts(path, limits)
      case CostOverflow => Accepts(path, limits) && CostOf(|Components(path)|, |path|, sizes).None?
      case FeeRefused => feeRefused
      case Capacity => creationAttempts >= limits.maxCreatedDirectories
      case Allocation => allocationFailed
      case Native(i) => i < |outcomes| && outcomes[i].result.Err? && !Excused(outcomes, i, secondWalk)
      case Unwound => panics > 0
      case IdentityMismatch => Mistrusted(directories, lock, outcomes, firstWalk, secondWalk, namedLock)
    }

    // -------------------------------------------------------------- clock and fees

    method ReadClock() returns (r: Flow<()>)
      modifies this`expirySeen, clock
      ensures !r.Panic?
      ensures r.Value? ==> expirySeen == old(expirySeen) && !denied && clock.now < expiry
      ensures expiry <= old(clock.now) ==> r == Fail(Expired)
      ensures r == Fail(Capacity) ==> denied
      ensures r.Fail? ==> r.failure.Expired? || r.failure.Capacity?
      ensures r.Fail? && !old(denied) ==> Explained(r.failure)
    {
      var now := clock.Read();
      if now >= expiry {
        expirySeen := true;
        return Fail(Expired);
      }
      if denied {
        return Fail(Capacity);
      }
      return Value(());
    }

    /** Charges the attempt's own ceiling; a capacity refusal is final. */
    method Fee(calls: nat, bytes: nat, strings: nat, entries: nat, work: nat) returns (r: Flow<()>)
      requires ceiling.Some?
      modifies this`usage, this`denied, this`feeRefused, this`expirySeen, clock
      ensures !r.Panic?
      ensures r.Value? ==>
                && usage == Add(old(usage), calls, bytes, strings, entries, work) && !denied
                && Under(usage, ceiling.value) && feeRefused == old(feeRefused) && expirySeen == old(expirySeen)
      ensures r.Fail? ==> usage == old(usage) && r != Fail(IdentityMismatch) && !r.failure.Native?
      ensures r.Fail? && Under(Add(old(usage), calls, bytes, strings, entries, work), ceiling.value) ==>
                denied == old(denied) && feeRefused == old(feeRefused) && (r.failure.Expired? || r.failure.Capacity?)
      ensures r == Fail(Capacity) ==> old(denied)
      ensures r.Fail? && !old(denied) ==> Explained(r.failure)
    {
      var _ :- ReadClock();
      // Ceilings are machine sizes, so a sum that overflows is also above its ceiling.
      var next := Add(usage, calls, bytes, strings, entries, work);
      if !Under(next, ceiling.value) {
        denied := true;
        feeRefused := true;
        return Fail(FeeRefused);
      }
      usage := next;
      return Value(());
    }

    /** The fee for `calls` calls naming `nameBytes` bytes: scratch, slots and work. */
    method EntryFee(calls: nat, nameBytes: nat) returns (r: Flow<()>)
      requires Money() && ceiling.Some? && nameBytes <= |path| + LOCK_BYTES
      requires usage.calls + calls <= ceiling.value.calls
      modifies this`usage, this`denied, this`feeRefused, this`expirySeen, clock
      ensures Money() && !r.Panic?
      ensures r.Value? ==> usage.calls == old(usage).calls + calls && expirySeen == old(expirySeen) && !denied
      ensures r.Fail? ==> usage == old(usage) && r != Fail(IdentityMismatch) && !r.failure.Native? && (exact ==> r.failure.Expired?)
      ensures r.Fail? && !old(denied) ==> Explained(r.failure)
    {
      hide Mistrusted, Ledger, CostOf, Under, Scratch, ScanWork;
      var scratch, slots, work := Scratch(calls, nameBytes), 4 * calls, ScanWork(calls, nameBytes);
      if exact {
        EntryFits(calls, nameBytes);
      }
      if scratch >= SIZE_LIMIT || slots >= SIZE_LIMIT || work >= SIZE_LIMIT {
        feeRefused := true;
        return Fail(FeeRefused);
      }
      r := Fee(calls, scratch, scratch, slots, work);
    }

    /** Prepays calls; what was recorded and what is owed stay prepaid. */
    method Entry(calls: nat, nameBytes: nat) returns (r: Flow<()>)
      requires Money() && ceiling.Some? && nameBytes <= |path| + LOCK_BYTES
      requires usage.calls + calls <= ceiling.value.calls
      modifies this`usage, this`denied, this`feeRefused, this`expirySeen, clock
      ensures Money() && !r.Panic?
      ensures (old(Trace()) ==> Trace()) && (old(Creating()) ==> Creating())
      ensures r.Value? ==> usage.calls == old(usage).calls + calls && expirySeen == old(expirySeen) && !denied
      ensures r.Fail? ==> usage == old(usage) && r != Fail(IdentityMismatch) && !r.failure.Native? && (exact ==> r.failure.Expired?)
      ensures r.Fail? && !old(denied) ==> Explained(r.failure)
    {
      hide Attempt.Explained, MoneyOk, CreatedIn, Spell, AllWellFormed, Creates;
      r := EntryFee(calls, nameBytes);
    }

    lemma EntryFits(calls: nat, nameBytes: nat)
      requires Money() && ceiling.Some? && exact && nameBytes <= |path| + LOCK_BYTES
      requires usage.calls + calls <= ceiling.value.calls
      ensures var scratch, slots, work := Scratch(calls, nameBytes), 4 * calls, ScanWork(calls, nameBytes);
              var next := Add(usage, calls, scratch, scratch, slots, work);
              && scratch < SIZE_LIMIT && slots < SIZE_LIMIT && work < SIZE_LIMIT
              && Ledger(next, due, Count(), |path|, sizes) && Under(next, ceiling.value)
    {
      hide CostOf, Scratch, ScanWork, SetupDeclared, SetupEntries, SetupWork, CallBytes, CallWork;
      LedgerCall(usage, due, Count(), |path|, sizes, calls, nameBytes);
      var scratch, slots, work := Scratch(calls, nameBytes), 4 * calls, ScanWork(calls, nameBytes);
      CeilingCovers(Add(usage, calls, scratch, scratch, slots, work), due, Count(), |path|, sizes);
    }

    /** Pays part of the setup; with exact reservations it cannot be refused for capacity. */
    method SetupFee(bytes: nat, strings: nat, entries: nat, work: nat) returns (r: Flow<()>)
      requires Money() && ceiling.Some?
      requires exact ==> bytes <= due.declared && strings <= due.strings && entries <= due.entries && work <= due.work
      modifies this`usage, this`denied, this`feeRefused, this`expirySeen, this`due, clock
      ensures Money() && !r.Panic?
      ensures usage.calls == old(usage).calls
      ensures r.Value? ==>
                due == Usage(0, old(due).declared - bytes, old(due).strings - strings,
                             old(due).entries - entries, old(due).work - work)
      ensures r.Fail? ==> exact ==> r.failure.Expired?
      ensures r.Value? ==> expirySeen == old(expirySeen) && !denied
      ensures r.Fail? && !old(denied) ==> Explained(r.failure)
    {
      hide Mistrusted, Ledger, CostOf, Under;
      if exact {
        LedgerSetup(usage, due, Count(), |path|, sizes, bytes, strings, entries, work);
        CeilingCovers(Add(usage, 0, bytes, strings, entries, work),
                      Usage(0, due.declared - bytes, due.strings - strings, due.entries - entries, due.work - work),
                      Count(), |path|, sizes);
      }
      var _ :- Fee(0, bytes, strings, entries, work);
      due := Usage(0, due.declared - bytes, due.strings - strings, due.entries - entries, due.work - work);
      return Value(());
    }

    /** Pays for what a reservation returned beyond the request, which exactness excludes. */
    method ExcessFee(excess: Size, unit: Size, strings: bool) returns (r: Flow<()>)
      requires Money() && ceiling.Some?
      modifies this`usage, this`denied, this`feeRefused, this`expirySeen, this`due, this`exact, clock
      ensures Money() && !r.Panic?
      ensures usage.calls == old(usage).calls
      ensures exact == (old(exact) && excess == 0)
      ensures r.Value? && exact ==> due == old(due).(calls := 0)
      ensures r.Fail? ==> exact ==> r.failure.Expired?
      ensures r.Value? ==> expirySeen == old(expirySeen) && !denied
      ensures r.Fail? && !old(denied) ==> Explained(r.failure)
    {
      hide Mistrusted, CostOf, Times, SetupDeclared, SetupEntries, SetupWork, CallBytes, CallWork;
      exact := exact && excess == 0;
      var bytes := Times(excess, unit);
      if bytes >= SIZE_LIMIT {
        feeRefused := true;
        return Fail(FeeRefused);
      }
      r := SetupFee(bytes, if strings then bytes else 0, if strings then 0 else excess, bytes);
    }

    /** A fallible reservation: the allocator may fail, be slow or return more. */
    method TryReserve() returns (r: Flow<Size>)
      modifies this`expirySeen, this`allocationFailed, clock
      ensures !r.Panic?
      ensures r.Fail? ==> r.failure.Allocation? || r.failure.Expired? || denied
      ensures r.Value? ==> expirySeen == old(expirySeen) && !denied
      ensures r.Fail? && !old(denied) ==> Explained(r.failure)
    {
      var fails := *;
      var excess: Size :| excess >= 0;
      var _ :- ReadClock();
      if fails {
        allocationFailed := true;
        return Fail(Allocation);
      }
      return Value(excess);
    }

    /**
     * Everything before the first physical call: spelling, ceiling, fixed fees, prepaid
     * closes of every descriptor, the path copy and the three reserved vectors.
     */
    method Prepare() returns (r: Flow<()>)
      requires Money() && ceiling.None? && exact
      modifies this`ceiling, this`usage, this`denied, this`feeRefused, this`expirySeen, this`due, this`exact
      modifies this`allocationFailed, clock
      ensures Money() && !r.Panic?
      ensures r.Value? ==> ceiling.Some? && usage.calls == ceiling.value.files + 1
      ensures exact ==> !feeRefused
      ensures r.Value? ==> expirySeen == old(expirySeen) && !denied
      ensures expiry <= old(clock.now) ==> r == Fail(Expired)
      ensures r.Fail? ==> Explained(r.failure)
    {
      hide Mistrusted, CostOf, Ledger, SetupWork, SetupDeclared, SetupEntries, ArrayBytes, Times;
      var _ :- ReadClock();
      var n :- SetCeiling();
      var _ :- PayFixed(n);
      var pathExcess :- TryReserve();
      var _ :- ExcessFee(pathExcess, 1, true);
      var _ :- ReadClock();
      var _ :- ReserveVectors(n);
      r := ReadClock();
    }

    /** The fixed values, every component scan, every future close and the path copy. */
    method PayFixed(n: Size) returns (r: Flow<()>)
      requires Money() && ceiling.Some? && n == Count() && exact && usage == NOTHING
      requires due == Usage(0, SetupDeclared(n, |path|, sizes), |path|, SetupEntries(n), SetupWork(n, |path|, sizes))
      modifies this`usage, this`denied, this`feeRefused, this`expirySeen, this`due, clock
      ensures Money() && !r.Panic? && !feeRefused
      ensures r.Value? ==>
                && usage.calls == ceiling.value.files + 1
                && due.declared == ArrayBytes(n, sizes) == due.work
                && due.entries == (12 * n + 40) + (2 * n + 3) + (n + 1) && due.strings == 0
      ensures r.Value? ==> expirySeen == old(expirySeen) && !denied
      ensures r.Fail? && !old(denied) ==> Explained(r.failure)
    {
      hide Mistrusted, CostOf, Ledger, SetupWork, ArrayBytes, Times;
      var bytes := |path|;
      var fixed := FixedBytes(sizes);
      SetupParts(n, bytes, sizes);
      var _ :- SetupFee(fixed, 0, 16, fixed);
      var _ :- SetupFee(0, 0, 0, 4 * Times(n + 1, bytes));
      var _ :- Entry(ceiling.value.files + 1, 0);
      r := SetupFee(bytes, bytes, 1, 2 * bytes);
    }

    method SetCeiling() returns (r: Flow<Size>)
      requires Money() && ceiling.None? && exact
      modifies this`ceiling, this`due
      ensures Money() && !r.Panic?
      ensures r.Value? ==>
                && ceiling.Some? && r.value == Count() && usage == NOTHING && !denied && |path| < SIZE_LIMIT
                && due == Usage(0, SetupDeclared(r.value, |path|, sizes), |path|,
                                SetupEntries(r.value), SetupWork(r.value, |path|, sizes))
      ensures r.Fail? ==> Explained(r.failure)
    {
      var spelled := Spelling(path, limits);
      if spelled.Err? {
        return Fail(Refused(spelled.error));
      }
      var cost := CostOf(spelled.value, |path|, sizes);
      if cost.None? {
        return Fail(CostOverflow);
      }
      var n := spelled.value;
      ceiling := cost;
      due := Usage(0, SetupDeclared(n, |path|, sizes), |path|, SetupEntries(n), SetupWork(n, |path|, sizes));
      return Value(n);
    }

    /** The observation, descriptor and walk vectors: three fees, then three reservations. */
    method ReserveVectors(n: Size) returns (r: Flow<()>)
      requires Money() && ceiling.Some? && n == Count()
      requires exact ==>
                 && due.declared == ArrayBytes(n, sizes) == due.work
                 && due.entries == (12 * n + 40) + (2 * n + 3) + (n + 1) && due.strings == 0
      modifies this`usage, this`denied, this`feeRefused, this`expirySeen, this`due, this`exact, this`allocationFailed
      modifies clock
      ensures Money() && !r.Panic?
      ensures usage.calls == old(usage).calls
      ensures exact ==> !feeRefused
      ensures r.Value? ==> expirySeen == old(expirySeen) && !denied
      ensures r.Fail? && !old(denied) ==> Explained(r.failure)
    {
      hide Mistrusted, CostOf, Ledger, Times, ArrayBytes;
      var calls, files := ceiling.value.calls, ceiling.value.files;
      ArrayParts(n, sizes);
      var _ :- SetupFee(Times(calls, sizes.observation), 0, calls, Times(calls, sizes.observation));
      var _ :- SetupFee(Times(files, sizes.fileSlot), 0, files, Times(files, sizes.fileSlot));
      var _ :- SetupFee(Times(n + 1, sizes.word), 0, n + 1, Times(n + 1, sizes.word));
      var excess :- TryReserve();
      var _ :- ExcessFee(excess, sizes.observation, false);
      excess :- TryReserve();
      var _ :- ExcessFee(excess, sizes.fileSlot, false);
      excess :- TryReserve();
      r := ExcessFee(excess, sizes.word, false);
    }

    // -------------------------------------------------------------- native calls

    /** The descriptor and walk vectors stay inside what was reserved for them. */
    ghost predicate Reserved()
      reads this`ceiling, this`directories, this`firstWalk
    {
      if ceiling.None? then directories == [] && firstWalk == []
      else |directories| <= ceiling.value.files && |firstWalk| <= ceiling.value.components + 1
    }

    ghost predicate Always()
      reads this`ceiling, this`usage, this`denied, this`feeRefused, this`due, this`exact
      reads this`outcomes, this`blocks, this`tail, this`lateStarts
      reads this`directories, this`lock, this`lockHeld, this`owner
      reads this`obligation, this`creationAttempts, this`createdDirectories
      reads this`firstWalk, this`secondWalk, this`namedLock
    {
      Money() && Trace() && Custody() && Creating() && Reserved() && Evidence()
    }

    /** Between phases: no creation is open, the deadline is unseen, every call was paid. */
    ghost predicate Ready()
      reads this`ceiling, this`usage, this`denied, this`feeRefused, this`due, this`exact
      reads this`outcomes, this`blocks, this`tail, this`lateStarts, this`expirySeen
      reads this`directories, this`lock, this`lockHeld, this`owner
      reads this`obligation, this`creationAttempts, this`createdDirectories
      reads this`firstWalk, this`secondWalk, this`namedLock
    {
      && Always() && obligation.None? && !expirySeen && !denied && ceiling.Some?
      && |outcomes| + ceiling.value.files + 1 <= usage.calls
    }

    /** The descriptor exists and has not been given away. */
    ghost predicate Usable(on: Target)
      reads this`directories
    {
      on.Dir? ==> on.index < |directories| && !directories[on.index].taken
    }

    /** An entry fee between phases. */
    method Pay(calls: nat, nameBytes: nat) returns (r: Flow<()>)
      requires Ready() && nameBytes <= |path| + LOCK_BYTES && usage.calls + calls <= ceiling.value.calls
      modifies this`usage, this`denied, this`feeRefused, this`expirySeen, clock
      ensures Always() && !r.Panic?
      ensures r.Value? ==>
                && Ready() && usage.calls == old(usage).calls + calls
                && |outcomes| + ceiling.value.files + 1 + calls <= usage.calls
      ensures r.Fail? ==> usage == old(usage) && r != Fail(IdentityMismatch) && !r.failure.Native?
      ensures r.Fail? ==> Explained(r.failure)
    {
      hide Mistrusted, MoneyOk, TraceOk, CustodyOk, Unsettled, Idle, EvidenceOk;
      r := Entry(calls, nameBytes);
      assert Trace();
      assert Creating();
    }

    /** Keeps the actual result of a started call; its slot was prepaid and reserved. */
    method Record(o: Observation, settling: bool) returns (index: nat)
      requires Trace() && ceiling.Some? && |outcomes| + ceiling.value.files + 2 <= usage.calls
      requires settling || !expirySeen
      requires Evidence() && MayCall(o.phase, o.on, o.name) && Caused(outcomes, o.phase, o.on, o.name)
      modifies this`outcomes, this`tail, this`lateStarts
      ensures Trace() && Evidence() && index == |old(outcomes)|
      ensures outcomes == old(outcomes) + [o] && tail == old(tail) + [o]
    {
      hide EvidenceOk, Placed, Caused, Spell, AllWellFormed, Attempt.Comps;
      lateStarts := lateStarts + if expirySeen && !settling then 1 else 0;
      EvidenceRecord(lockHeld, outcomes, o, firstWalk, secondWalk, Comps(), directories, lock, owner, namedLock);
      index := |outcomes|;
      outcomes := outcomes + [o];
      tail := tail + [o];
    }

    ghost method Close(b: Block)
      requires Trace() && tail == SpellBlock(b) && WellFormed(b)
      modifies this`blocks, this`tail
      ensures Trace() && tail == [] && blocks == old(blocks) + [b]
      ensures CreatedIn(blocks) == CreatedIn(old(blocks)) + if b.DirectoryBlock? then 1 else 0
    {
      SpellAppend(blocks, b);
      CreatedAppend(blocks, b);
      blocks := blocks + [b];
      tail := [];
    }

    method NativeError() returns (kind: ErrorKind)
    {
      var missing, present, blocked := *, *, *;
      kind := if missing then NotFound else if present then AlreadyExists else if blocked then WouldBlock else OtherError;
    }

    /** What the kernel opened: any inode at all. */
    method NativeFd() returns (fd: Fd)
    {
      var isDir, isFile := *, *;
      var device: nat :| device >= 0;
      var inode: nat :| inode >= 0;
      fd := Fd(Identity(device, inode), isDir, isFile);
    }

    /** The observer sees the recorded call and may panic; then the clock is checked. */
    method Observe() returns (r: Flow<()>)
      modifies this`expirySeen, clock
      ensures r.Value? ==> expirySeen == old(expirySeen) && !denied && clock.now < expiry
      ensures r.Fail? ==> r.failure.Expired? || (r.failure.Capacity? && denied)
      ensures r.Fail? && !old(denied) ==> Explained(r.failure)
    {
      var observerPanics := *;
      if observerPanics {
        return Panic;
      }
      r := ReadClock();
    }

    method RememberIdentity(i: nat)
      requires Ready() && i < |directories|
      modifies this`directories
      ensures Ready() && SameSlots(old(directories), directories)
      ensures |directories| == |old(directories)| && directories[i].fd == old(directories)[i].fd
      ensures directories[i].identity == Some(directories[i].fd.identity)
    {
      hide MoneyOk, TraceOk, Idle, EvidenceOk;
      var next := directories[i := directories[i].(identity := Some(directories[i].fd.identity))];
      EvidenceSlots(lockHeld, outcomes, firstWalk, secondWalk, Comps(), directories, next, lock, lock, owner, owner,
        namedLock);
      directories := next;
    }

    /** One open; a new descriptor is kept before anything else can happen. */
    method PhysicalOpen(parent: Target, name: Bytes, asLock: bool, create: bool, settling: bool)
      returns (index: nat, found: Option<Target>)
      requires Trace() && Custody() && Evidence() && ceiling.Some? && Usable(parent)
      requires |outcomes| + ceiling.value.files + 2 <= usage.calls
      requires settling || !expirySeen
      requires if asLock then lock.None? && owner.None? && !lockHeld else |directories| < ceiling.value.files
      requires var phase := if !asLock then DirectoryOpened else if create then LockCreated else LockOpened;
               MayCall(phase, parent, name) && Caused(outcomes, phase, parent, name)
      modifies this`outcomes, this`tail, this`lateStarts, this`directories, this`lock
      ensures Trace() && Custody() && Evidence() && index == |old(outcomes)|
      ensures var phase := if !asLock then DirectoryOpened else if create then LockCreated else LockOpened;
              && |outcomes| == index + 1 && outcomes == old(outcomes) + [outcomes[index]]
              && outcomes[index] == Observation(phase, parent, name, outcomes[index].result)
              && tail == old(tail) + [outcomes[index]]
              && (found.Some? <==> outcomes[index].result.Ok?)
              && (found.Some? ==> outcomes[index].result.value == Opened(found.value))
      ensures old(directories) <= directories
      ensures asLock ==> directories == old(directories) && (found.Some? ==> found.value.LockFile? && lock.Some?)
      ensures !asLock ==> lock == old(lock) && |directories| == |old(directories)| + if found.Some? then 1 else 0
      ensures !asLock && found.Some? ==>
                && found.value == Dir(|old(directories)|) && Usable(found.value)
                && directories[|old(directories)|].origin == Origin(parent, name)
      ensures found.None? ==> lock == old(lock)
    {
      hide EvidenceOk, Placed, Caused, TraceOk;
      var ok := *;
      var kind := NativeError();
      var fd := NativeFd();
      var phase := if !asLock then DirectoryOpened else if create then LockCreated else LockOpened;
      found := if !ok then None else if asLock then Some(LockFile) else Some(Dir(|directories|));
      var o := Observation(phase, parent, name, if ok then Ok(Opened(found.value)) else Err(kind));
      index := Record(o, settling);
      assert o in outcomes;
      if ok && asLock {
        EvidenceLock(lockHeld, outcomes, firstWalk, secondWalk, Comps(), directories, lock, owner, namedLock, fd, o);
        lock := Some(fd);
      } else if ok {
        var slot := Slot(fd, false, None, Origin(parent, name));
        EvidenceSlot(lockHeld, outcomes, firstWalk, secondWalk, Comps(), directories, lock, owner, namedLock, slot);
        directories := directories + [slot];
      }
    }

    /** A directory open outside any creation, as a finished call. */
    method OpenCall(parent: Target, name: Bytes) returns (i: nat, found: Option<Target>)
      requires Trace() && Custody() && Evidence() && tail == [] && ceiling.Some? && !expirySeen && Usable(parent)
      requires |directories| < ceiling.value.files && MayCall(DirectoryOpened, parent, name)
      requires |outcomes| + ceiling.value.files + 2 <= usage.calls
      modifies this`outcomes, this`tail, this`blocks, this`lateStarts, this`directories, this`lock
      ensures Trace() && Custody() && Evidence() && tail == [] && CreatedIn(blocks) == CreatedIn(old(blocks))
      ensures lock == old(lock) && i == |old(outcomes)|
      ensures |outcomes| == i + 1 && outcomes == old(outcomes) + [outcomes[i]]
      ensures outcomes[i] == Observation(DirectoryOpened, parent, name, outcomes[i].result)
      ensures old(directories) <= directories && |directories| == |old(directories)| + if found.Some? then 1 else 0
      ensures found.Some? <==> outcomes[i].result.Ok?
      ensures found.Some? ==>
                && found.value == Dir(|old(directories)|) && Usable(found.value)
                && directories[|old(directories)|].origin == Origin(parent, name)
    {
      hide TraceOk, CustodyOk, CreatedIn, EvidenceOk, Placed;
      i, found := PhysicalOpen(parent, name, false, false, false);
      Close(Single(outcomes[i]));
    }

    method PlainOpen(parent: Target, name: Bytes) returns (i: nat, found: Option<nat>)
      requires Ready() && Usable(parent) && |directories| < ceiling.value.files
      requires MayCall(DirectoryOpened, parent, name)
      requires |outcomes| + ceiling.value.files + 2 <= usage.calls
      modifies this`outcomes, this`tail, this`blocks, this`lateStarts, this`directories, this`lock
      ensures Ready() && lock == old(lock) && i == |old(outcomes)|
      ensures |outcomes| == i + 1 && outcomes == old(outcomes) + [outcomes[i]]
      ensures outcomes[i] == Observation(DirectoryOpened, parent, name, outcomes[i].result)
      ensures old(directories) <= directories
      ensures found.Some? <==> outcomes[i].result.Ok?
      ensures found.Some? ==>
                && |directories| == |old(directories)| + 1 && found.value == |old(directories)|
                && Usable(Dir(found.value))
                && directories[found.value].origin == Origin(parent, name)
      ensures found.None? ==> directories == old(directories)
    {
      hide MoneyOk, TraceOk, CustodyOk, Unsettled, CreatedIn, EvidenceOk, Placed;
      var target: Option<Target>;
      i, target := OpenCall(parent, name);
      assert Money();
      assert Creating() && Reserved();
      found := if target.Some? then Some(target.value.index) else None;
    }

    /** A prepaid directory open inside the run. */
    method Open(parent: Target, name: Bytes) returns (r: Flow<(nat, Option<nat>)>)
      requires Ready() && Usable(parent) && |name| <= |path| + LOCK_BYTES && MayCall(DirectoryOpened, parent, name)
      requires usage.calls + 1 <= ceiling.value.calls && |directories| < ceiling.value.files
      modifies this`usage, this`denied, this`feeRefused, this`expirySeen, clock
      modifies this`outcomes, this`tail, this`blocks, this`lateStarts, this`directories, this`lock
      ensures Always() && obligation.None? && usage.calls <= old(usage).calls + 1 && lock == old(lock)
      ensures old(directories) <= directories && |directories| <= |old(directories)| + 1
      ensures r.Value? ==>
                var (i, found) := r.value;
                && Ready() && i == |old(outcomes)| && |outcomes| == i + 1 && outcomes == old(outcomes) + [outcomes[i]]
                && outcomes[i] == Observation(DirectoryOpened, parent, name, outcomes[i].result)
                && (found.Some? <==> outcomes[i].result.Ok?)
                && (found.Some? ==>
                      && |directories| == |old(directories)| + 1 && found.value == |old(directories)|
                      && Usable(Dir(found.value)) && directories[found.value].origin == Origin(parent, name))
                && (found.None? ==> directories == old(directories))
      ensures r.Fail? ==> Explained(r.failure) && !r.failure.Native?
    {
      hide Mistrusted, Attempt.Always, Placed;
      var paid := Pay(1, |name|);
      r := paid.Then();
      if paid.Value? {
        var i, found := PlainOpen(parent, name);
        var seen := Observe();
        r := if seen.Value? then Value((i, found)) else seen.Then();
      }
    }

    /** Records a prepaid call that neither creates nor syncs. */
    method Note(o: Observation) returns (index: nat)
      requires Ready() && !Creates(o) && !Syncs(o) && MayCall(o.phase, o.on, o.name)
      requires Caused(outcomes, o.phase, o.on, o.name)
      requires |outcomes| + ceiling.value.files + 2 <= usage.calls
      modifies this`outcomes, this`tail, this`blocks, this`lateStarts
      ensures Ready() && index == |outcomes| - 1 && outcomes == old(outcomes) + [o]
    {
      hide Mistrusted, MoneyOk, TraceOk, CustodyOk, Unsettled, CreatedIn, EvidenceOk, Placed, Caused;
      index := Record(o, false);
      Close(Single(o));
    }

    /** Such a call, after which the observer sees its record. */
    method Call(o: Observation) returns (r: Flow<nat>)
      requires Ready() && !Creates(o) && !Syncs(o) && MayCall(o.phase, o.on, o.name)
      requires Caused(outcomes, o.phase, o.on, o.name)
      requires |outcomes| + ceiling.value.files + 2 <= usage.calls
      modifies this`outcomes, this`tail, this`blocks, this`lateStarts, this`expirySeen, clock
      ensures Always() && obligation.None?
      ensures r.Value? ==> Ready() && r.value == |outcomes| - 1 && outcomes == old(outcomes) + [o] && !denied
      ensures r.Fail? ==> Explained(r.failure) && r != Fail(IdentityMismatch)
    {
      hide Mistrusted, MoneyOk, TraceOk, CustodyOk, Unsettled, CreatedIn, EvidenceOk, Placed, Caused;
      var i := Note(o);
      var seen := Observe();
      return if seen.Value? then Value(i) else seen.Then();
    }

    /** Stats a kept descriptor: a directory, or the lock with exactly one link. */
    method Metadata(on: Target) returns (r: Flow<Identity>)
      requires Ready() && Usable(on) && !on.Filesystem? && (on.LockFile? ==> lock.Some?)
      requires usage.calls + 1 <= ceiling.value.calls
      modifies this`usage, this`denied, this`feeRefused, this`expirySeen, clock
      modifies this`outcomes, this`tail, this`blocks, this`lateStarts, this`directories
      ensures Always() && usage.calls <= old(usage).calls + 1
      ensures SameSlots(old(directories), directories)
      ensures r.Value? ==>
                && Ready()
                && (on.Dir? ==>
                      && r.value == directories[on.index].fd.identity && directories[on.index].fd.isDir
                      && directories[on.index].identity == Some(r.value))
                && (on.LockFile? ==> r.value == lock.value.identity && lock.value.isFile)
      ensures r.Fail? ==> Explained(r.failure)
      ensures r == Fail(IdentityMismatch) ==>
                if on.Dir? then !directories[on.index].fd.isDir else !lock.value.isFile || LastSawLinks(outcomes)
      ensures r.Value? ==> StillClean()
    {
      hide Attempt.Always, SameSlots, Clean;
      SameSlotsReflexive(directories);
      var paid := Pay(1, 0);
      if !paid.Value? {
        return paid.Then();
      }
      var fd := if on.Dir? then directories[on.index].fd else lock.value;
      var ok := *;
      var links: nat :| links >= 0;
      var kind := NativeError();
      var stat := Stat(fd.identity, fd.isDir, fd.isFile, links);
      var phase := if on.Dir? then DirectoryMetadata else LockMetadata;
      var called := Call(Observation(phase, on, [], if ok then Ok(Seen(stat)) else Err(kind)));
      if !called.Value? {
        return called.Then();
      }
      if !ok {
        return Fail(Native(called.value));
      }
      if (on.Dir? && !stat.isDir) || (on.LockFile? && (!stat.isFile || stat.links != 1)) {
        return Fail(IdentityMismatch);
      }
      CleanAppend(old(outcomes), outcomes[called.value]);
      if on.Dir? {
        RememberIdentity(on.index);
      }
      return Value(stat.identity);
    }

    // -------------------------------------------------------------- settlement

    /** Keeps a panic payload in one of four slots. */
    method SavePanic()
      modifies this`panics, this`lostPanics
      ensures if old(panics) < 4 then panics == old(panics) + 1 && lostPanics == old(lostPanics)
              else panics == old(panics) && lostPanics == old(lostPanics) + 1
    {
      if panics < 4 {
        panics := panics + 1;
      } else {
        lostPanics := lostPanics + 1;
      }
    }

    /** The end of one settlement call: an observer panic is caught, an error is kept. */
    method Caught(index: nat) returns (failed: Option<Failure>)
      requires index < |outcomes| && !Excused(outcomes, index, secondWalk)
      modifies this`panics, this`lostPanics
      ensures failed.None? ==> outcomes[index].result.Ok?
      ensures Kept(old(panics), old(lostPanics), 1, failed)
      ensures failed.Some? ==> Explained(failed.value) && Physical(failed.value)
    {
      var observerPanics := *;
      if observerPanics {
        SavePanic();
        return Some(Unwound);
      }
      return if outcomes[index].result.Ok? then None else Some(Native(index));
    }

    /** At most `k` more panics were saved, none when nothing failed, and none was lost in four. */
    ghost predicate Kept(panics': nat, lost': nat, k: nat, failed: Option<Failure>)
      reads this`panics, this`lostPanics
    {
      && panics' <= panics <= panics' + k
      && (failed.None? ==> panics == panics')
      && (panics' + k <= 4 ==> lostPanics == lost')
    }

    /** One prepaid sync of a settlement; the result and a panic are kept, never retried. */
    method SettleSync(phase: Phase, on: Target) returns (failed: Option<Failure>, ghost o: Observation)
      requires Trace() && Evidence() && ceiling.Some? && |outcomes| + ceiling.value.files + 2 <= usage.calls
      requires Usable(on) && (phase.ChildSynced? || phase.ParentSynced?)
      modifies this`outcomes, this`tail, this`lateStarts, this`panics, this`lostPanics
      ensures Trace() && Evidence() && |outcomes| == |old(outcomes)| + 1 && old(outcomes) <= outcomes
      ensures tail == old(tail) + [o] && o.phase == phase && o.on == on
      ensures (failed.None? ==> o.result.Ok? && StillClean())
      ensures Kept(old(panics), old(lostPanics), 1, failed)
      ensures failed.Some? ==> Explained(failed.value) && Physical(failed.value)
    {
      hide Mistrusted, TraceOk, EvidenceOk, Clean;
      var ok := *;
      var kind := NativeError();
      var call := Observation(phase, on, [], if ok then Ok(Done) else Err(kind));
      o := call;
      var i := Record(call, true);
      failed := Caught(i);
      if ok {
        CleanAppend(old(outcomes), call);
      }
    }

    /** A later panic hides an earlier failure; otherwise the first failure is reported. */
    static function Combine(failed: Option<Failure>, next: Option<Failure>): (r: Option<Failure>)
      ensures r.None? <==> failed.None? && next.None?
      ensures r == Some(Unwound) <==> failed == Some(Unwound) || next == Some(Unwound)
      ensures failed.Some? && next != Some(Unwound) ==> r == failed
    {
      if next.None? then failed
      else if next.value.Unwound? || failed.None? then next
      else failed
    }

    /** Reopens a created directory, so that it can be synced too. */
    method SettleReopen(o: Obligation) returns (child: Option<Target>, failed: Option<Failure>, ghost reopen: Observation)
      requires Always() && obligation == Some(o) && o.created && o.kind.CreateDirectory?
      modifies this`outcomes, this`tail, this`lateStarts, this`directories, this`lock, this`panics, this`lostPanics
      ensures Trace() && Custody() && Evidence() && lock == old(lock) && |outcomes| == |old(outcomes)| + 1
      ensures tail == old(tail) + [reopen]
      ensures reopen.phase.DirectoryOpened? && reopen.on == Dir(o.parent) && reopen.name == old(tail)[0].name
      ensures child.Some? <==> reopen.result.Ok?
      ensures child.Some? ==> reopen.result.value == Opened(child.value) && child.value.Dir? && Usable(child.value)
      ensures old(directories) <= directories && Usable(Dir(o.parent))
      ensures |directories| == |old(directories)| + if child.Some? then 1 else 0
      ensures o.ordinal < Count()
      ensures failed.None? ==>
                && child == Some(Dir(|old(directories)|))
                && directories[|old(directories)|].origin == Origin(Dir(o.parent), Comps()[o.ordinal])
      ensures Kept(old(panics), old(lostPanics), 1, failed)
      ensures failed.Some? ==> Explained(failed.value) && Physical(failed.value)
      ensures failed.None? ==> StillClean()
    {
      hide Mistrusted, Attempt.Always, TraceOk, CustodyOk, EvidenceOk, Placed, Attempt.Comps, Clean;
      CreationPlaced(o);
      var i;
      i, child := PhysicalOpen(Dir(o.parent), Components(path)[o.ordinal], false, false, true);
      reopen := outcomes[i];
      if child.Some? {
        CleanAppend(old(outcomes), reopen);
      }
      failed := Caught(i);
    }

    /** The created directory may be opened where it was created, by the name it got. */
    lemma CreationPlaced(o: Obligation)
      requires Always() && obligation == Some(o) && o.created && o.kind.CreateDirectory?
      ensures path != [] && Comps() == Components(path) && o.ordinal < Count()
      ensures tail != [] && tail[0].phase.DirectoryCreated? && tail[0].name == Comps()[o.ordinal]
      ensures outcomes != [] && outcomes[|outcomes| - 1] == tail[0]
      ensures MayCall(DirectoryOpened, Dir(o.parent), Comps()[o.ordinal])
      ensures Trace() && Custody() && Evidence() && Usable(Dir(o.parent)) && ceiling.Some?
      ensures |directories| < ceiling.value.files && |outcomes| + ceiling.value.files + 4 <= usage.calls
    {
      hide MoneyOk, CustodyOk, CreatedIn, AllCaused, AllRecorded, Spell, Components;
      assert tail[0] in outcomes && outcomes[|outcomes| - 1] == tail[0];
    }

    /** Syncs the reopened child, if there is one, then the parent. */
    method SettleBoth(o: Obligation, child: Option<Target>, ghost mkdir: Observation, ghost reopen: Observation)
      returns (childFailed: Option<Failure>, parentFailed: Option<Failure>)
      requires Trace() && Evidence() && ceiling.Some? && |outcomes| + ceiling.value.files + 3 <= usage.calls
      requires tail == [mkdir, reopen] && Creates(mkdir) && mkdir.phase.DirectoryCreated? && mkdir.on == Dir(o.parent)
      requires reopen.phase.DirectoryOpened? && reopen.on == Dir(o.parent) && reopen.name == mkdir.name
      requires (child.Some? <==> reopen.result.Ok?)
      requires child.Some? ==> reopen.result.value == Opened(child.value) && Usable(child.value)
      requires Usable(Dir(o.parent))
      modifies this`outcomes, this`tail, this`blocks, this`lateStarts, this`panics, this`lostPanics
      ensures Trace() && Evidence() && tail == [] && CreatedIn(blocks) == CreatedIn(old(blocks)) + 1
      ensures Kept(old(panics), old(lostPanics), 2, Combine(childFailed, parentFailed))
      ensures childFailed.Some? ==> Explained(childFailed.value) && Physical(childFailed.value)
      ensures parentFailed.Some? ==> Explained(parentFailed.value) && Physical(parentFailed.value)
      ensures old(outcomes) <= outcomes
      ensures childFailed.None? && parentFailed.None? ==> StillClean()
    {
      hide Mistrusted, TraceOk, CreatedIn, EvidenceOk, Clean;
      childFailed := None;
      ghost var childSync: Option<Observation> := None;
      if child.Some? {
        ghost var s;
        childFailed, s := SettleSync(ChildSynced, child.value);
        childSync := Some(s);
      }
      ghost var parentSync;
      parentFailed, parentSync := SettleSync(ParentSynced, Dir(o.parent));
      ghost var block := DirectoryBlock(mkdir, reopen, childSync, parentSync);
      assert tail == SpellBlock(block);
      Close(block);
    }

    /** The calls of a directory settlement: reopen, then sync. */
    method SettleCalls(o: Obligation) returns (failed: Option<Failure>)
      requires Always() && obligation == Some(o) && o.created && o.kind.CreateDirectory?
      modifies this`outcomes, this`tail, this`blocks, this`lateStarts, this`directories, this`lock
      modifies this`panics, this`lostPanics
      ensures Trace() && Custody() && Evidence() && tail == [] && CreatedIn(blocks) == CreatedIn(old(blocks)) + 1
      ensures lock == old(lock)
      ensures old(directories) <= directories && |directories| <= |old(directories)| + 1
      ensures o.ordinal < Count()
      ensures failed.None? ==>
                && |directories| == |old(directories)| + 1 && Usable(Dir(|old(directories)|))
                && directories[|old(directories)|].origin == Origin(Dir(o.parent), Comps()[o.ordinal])
      ensures Kept(old(panics), old(lostPanics), 3, failed)
      ensures failed.Some? ==> Explained(failed.value) && Physical(failed.value)
      ensures failed.None? ==> StillClean()
    {
      hide Mistrusted, MoneyOk, TraceOk, CustodyOk, CreatedIn, EvidenceOk, Attempt.Comps, Clean;
      ghost var mkdir := tail[0];
      assert tail == [mkdir];
      var child;
      ghost var reopen;
      child, failed, reopen := SettleReopen(o);
      assert tail == [mkdir, reopen];
      var childFailed, parentFailed := SettleBoth(o, child, mkdir, reopen);
      failed := Combine(Combine(failed, childFailed), parentFailed);
    }

    method SettleDirectory(o: Obligation) returns (failed: Option<Failure>)
      requires Always() && obligation == Some(o) && o.created && o.kind.CreateDirectory?
      modifies this`outcomes, this`tail, this`blocks, this`lateStarts, this`directories, this`lock
      modifies this`obligation, this`panics, this`lostPanics
      ensures Always() && obligation.None? && lock == old(lock)
      ensures old(directories) <= directories && |directories| <= |old(directories)| + 1
      ensures o.ordinal < Count()
      ensures failed.None? ==>
                && |directories| == |old(directories)| + 1 && Usable(Dir(|old(directories)|))
                && directories[|old(directories)|].origin == Origin(Dir(o.parent), Comps()[o.ordinal])
      ensures Kept(old(panics), old(lostPanics), 3, failed)
      ensures failed.Some? ==> Explained(failed.value) && Physical(failed.value)
      ensures failed.None? ==> StillClean()
    {
      hide MoneyOk, TraceOk, CustodyOk, CreatedIn, EvidenceOk, Attempt.Comps, Attempt.Explained, Clean;
      failed := SettleCalls(o);
      assert Money();
      obligation := None;
      assert Creating();
    }

    /** Syncs the created lock file, then the directory it was created in. */
    method SettleLockSyncs(o: Obligation, ghost create: Observation)
      returns (childFailed: Option<Failure>, parentFailed: Option<Failure>)
      requires Trace() && Evidence() && ceiling.Some? && |outcomes| + ceiling.value.files + 3 <= usage.calls
      requires tail == [create] && Creates(create) && create.phase.LockCreated? && create.on == Dir(o.parent)
      requires Usable(Dir(o.parent))
      modifies this`outcomes, this`tail, this`blocks, this`lateStarts, this`panics, this`lostPanics
      ensures Trace() && Evidence() && tail == [] && CreatedIn(blocks) == CreatedIn(old(blocks))
      ensures Kept(old(panics), old(lostPanics), 2, Combine(childFailed, parentFailed))
      ensures childFailed.Some? ==> Explained(childFailed.value) && Physical(childFailed.value)
      ensures parentFailed.Some? ==> Explained(parentFailed.value) && Physical(parentFailed.value)
      ensures old(outcomes) <= outcomes
      ensures childFailed.None? && parentFailed.None? ==> StillClean()
    {
      hide Mistrusted, TraceOk, CreatedIn, EvidenceOk, Clean;
      ghost var lockSync, parentSync;
      childFailed, lockSync := SettleSync(ChildSynced, LockFile);
      parentFailed, parentSync := SettleSync(ParentSynced, Dir(o.parent));
      ghost var block := LockBlock(create, lockSync, parentSync);
      assert tail == SpellBlock(block);
      Close(block);
    }

    method SettleLock(o: Obligation) returns (failed: Option<Failure>)
      requires Always() && obligation == Some(o) && o.created && o.kind.CreateLock?
      modifies this`outcomes, this`tail, this`blocks, this`lateStarts, this`obligation, this`panics, this`lostPanics
      ensures Always() && obligation.None?
      ensures Kept(old(panics), old(lostPanics), 2, failed)
      ensures failed.Some? ==> Explained(failed.value) && Physical(failed.value)
      ensures failed.None? ==> StillClean()
    {
      hide Mistrusted, MoneyOk, TraceOk, CustodyOk, CreatedIn, EvidenceOk, Clean;
      assert tail == [tail[0]];
      var childFailed, parentFailed := SettleLockSyncs(o, tail[0]);
      failed := Combine(childFailed, parentFailed);
      obligation := None;
      assert Money();
      assert Custody();
      assert Creating();
    }

    /** Settles an open creation, whatever happened; a settled attempt has no obligation. */
    method Settle() returns (r: Flow<()>)
      requires Always()
      modifies this`outcomes, this`tail, this`blocks, this`lateStarts, this`directories, this`lock
      modifies this`obligation, this`panics, this`lostPanics
      ensures Always() && obligation.None? && lock == old(lock) && !r.Panic?
      ensures old(directories) <= directories && |directories| <= |old(directories)| + 1
      ensures old(obligation).Some? && old(obligation).value.created && r.Value? ==>
                |directories| == |old(directories)|
                                 + (if old(obligation).value.kind.CreateDirectory? then 1 else 0)
      ensures r.Value? && |directories| > |old(directories)| ==>
                && Usable(Dir(|old(directories)|)) && old(obligation).Some? && old(obligation).value.ordinal < Count()
                && directories[|old(directories)|].origin
                   == Origin(Dir(old(obligation).value.parent), Comps()[old(obligation).value.ordinal])
      ensures Kept(old(panics), old(lostPanics), 3, if r.Value? then None else Some(Unwound))
      ensures old(obligation).None? || !old(obligation).value.created ==>
                && r.Value? && panics == old(panics) && lostPanics == old(lostPanics) && directories == old(directories)
                && outcomes == old(outcomes)
      ensures r.Fail? ==> Explained(r.failure)
      ensures r.Value? ==> StillClean()
    {
      hide Mistrusted, MoneyOk, TraceOk, CustodyOk, CreatedIn, EvidenceOk, Attempt.Comps, Clean;
      if obligation.None? {
        return Value(());
      }
      var o := obligation.value;
      if !o.created {
        obligation := None;
        return Value(());
      }
      var failed: Option<Failure>;
      if o.kind.CreateDirectory? {
        failed := SettleDirectory(o);
      } else {
        failed := SettleLock(o);
      }
      return if failed.Some? then Fail(failed.value) else Value(());
    }

    // -------------------------------------------------------------- creation

    /** No successful creation is open: every return that is not a panic. */
    ghost predicate Settled()
      reads this`obligation
    {
      obligation.None? || !obligation.value.created
    }

    lemma NameFits(ordinal: nat)
      requires Always() && ceiling.Some? && ordinal < Count()
      ensures path != [] && Comps() == Components(path) && |Comps()[ordinal]| <= |path|
    {
      NormalizedIsRendered(path);
      assert Components(path)[ordinal] in Components(path);
    }

    /** One component below the first walk is a place to open or create a directory. */
    lemma StepPlaced(parent: nat, ordinal: nat)
      requires ordinal < Count() && StepOf(Dir(parent), Comps()[ordinal], firstWalk, Comps(), ordinal)
      ensures MayCall(DirectoryOpened, Dir(parent), Comps()[ordinal])
      ensures MayCall(DirectoryCreated, Dir(parent), Comps()[ordinal])
    {
    }

    /** The mkdir itself, recorded; a failed one is a finished call. */
    method MkdirCall(parent: nat, name: Bytes) returns (created: bool, index: nat)
      requires MayCall(DirectoryCreated, Dir(parent), name) && Caused(outcomes, DirectoryCreated, Dir(parent), name)
      requires Trace() && Evidence() && tail == [] && ceiling.Some? && !expirySeen
      requires |outcomes| + ceiling.value.files + 2 <= usage.calls
      modifies this`outcomes, this`tail, this`blocks, this`lateStarts
      ensures Trace() && Evidence() && |outcomes| == |old(outcomes)| + 1 && index == |old(outcomes)|
      ensures outcomes == old(outcomes) + [outcomes[index]]
      ensures outcomes[index].phase.DirectoryCreated? && (outcomes[index].result.Ok? <==> created)
      ensures CreatedIn(blocks) == CreatedIn(old(blocks))
      ensures !created ==> tail == []
      ensures created ==>
                && |tail| == 1 && Creates(tail[0]) && tail[0].phase.DirectoryCreated?
                && tail[0].on == Dir(parent) && tail[0].name == name
    {
      hide TraceOk, CreatedIn, EvidenceOk, Placed, Caused;
      created := *;
      var kind := NativeError();
      var o := Observation(DirectoryCreated, Dir(parent), name, if created then Ok(Done) else Err(kind));
      index := Record(o, false);
      if !created {
        Close(Single(o));
      }
    }

    /** Counts the attempt and owes a settlement for what it created. */
    method OweDirectory(parent: nat, ordinal: nat, created: bool)
      requires Money() && Trace() && Custody() && Reserved() && Evidence() && ceiling.Some?
      requires createdDirectories == CreatedIn(blocks) <= creationAttempts < limits.maxCreatedDirectories
      requires Usable(Dir(parent)) && ordinal < Count() && |directories| < ceiling.value.files
      requires |outcomes| + ceiling.value.files + 4 <= usage.calls
      requires if !created then tail == []
               else && |tail| == 1 && Creates(tail[0]) && tail[0].phase.DirectoryCreated?
                    && tail[0].on == Dir(parent) && tail[0].name == Comps()[ordinal]
      modifies this`obligation, this`creationAttempts, this`createdDirectories
      ensures Always() && obligation == Some(Obligation(parent, ordinal, CreateDirectory, created))
    {
      hide MoneyOk, TraceOk, CustodyOk, CreatedIn, Creates, EvidenceOk, Attempt.Comps;
      creationAttempts := creationAttempts + 1;
      createdDirectories := createdDirectories + if created then 1 else 0;
      obligation := Some(Obligation(parent, ordinal, CreateDirectory, created));
    }

    /** The prepaid mkdir: success opens an obligation before anything can observe it. */
    method Mkdir(parent: nat, ordinal: nat) returns (created: bool, index: nat)
      requires Ready() && Usable(Dir(parent)) && ordinal < Count() && |directories| < ceiling.value.files
      requires StepOf(Dir(parent), Comps()[ordinal], firstWalk, Comps(), ordinal)
      requires Caused(outcomes, DirectoryCreated, Dir(parent), Comps()[ordinal])
      requires creationAttempts < limits.maxCreatedDirectories
      requires |outcomes| + ceiling.value.files + 5 <= usage.calls
      modifies this`outcomes, this`tail, this`blocks, this`lateStarts
      modifies this`obligation, this`creationAttempts, this`createdDirectories
      ensures Always() && obligation == Some(Obligation(parent, ordinal, CreateDirectory, created))
      ensures |outcomes| == |old(outcomes)| + 1 && index == |old(outcomes)|
      ensures outcomes == old(outcomes) + [outcomes[index]]
      ensures outcomes[index].phase.DirectoryCreated? && (outcomes[index].result.Ok? <==> created)
      ensures Acceptable(outcomes[index]) ==> StillClean()
      ensures created ==> Acceptable(outcomes[index])
    {
      hide MoneyOk, TraceOk, CustodyOk, CreatedIn, Creates, EvidenceOk, Placed, Caused, StepOf, Attempt.Comps, Clean;
      NameFits(ordinal);
      StepPlaced(parent, ordinal);
      created, index := MkdirCall(parent, Components(path)[ordinal]);
      if Acceptable(outcomes[index]) {
        CleanAppend(old(outcomes), outcomes[index]);
      }
      OweDirectory(parent, ordinal, created);
    }

    /** A creation that failed leaves nothing to settle. */
    method Forget()
      requires Always() && Settled() && ceiling.Some? && !expirySeen && !denied
      requires |outcomes| + ceiling.value.files + 1 <= usage.calls
      modifies this`obligation
      ensures Ready()
    {
      hide MoneyOk, TraceOk, CustodyOk, Unsettled, Idle, EvidenceOk;
      obligation := None;
    }

    /** Creates one missing component, or opens it when another process created it first. */
    method CreateMissing(parent: nat, ordinal: nat) returns (r: Flow<nat>)
      requires Ready() && Usable(Dir(parent)) && ordinal < Count() && |directories| < ceiling.value.files
      requires StepOf(Dir(parent), Comps()[ordinal], firstWalk, Comps(), ordinal)
      requires Caused(outcomes, DirectoryCreated, Dir(parent), Comps()[ordinal])
      requires usage.calls + 5 <= ceiling.value.calls && panics == 0
      modifies this`usage, this`denied, this`feeRefused, this`expirySeen, clock
      modifies this`outcomes, this`tail, this`blocks, this`lateStarts, this`directories, this`lock
      modifies this`obligation, this`creationAttempts, this`createdDirectories, this`panics, this`lostPanics
      ensures Always() && lock == old(lock) && usage.calls <= old(usage).calls + 5
      ensures old(directories) <= directories && |directories| <= |old(directories)| + 1
      ensures !r.Panic? ==> Settled()
      ensures Kept(0, old(lostPanics), 3, if r.Fail? then Some(Unwound) else None)
      ensures r.Value? ==>
                && Ready() && |directories| == |old(directories)| + 1 && r.value == |old(directories)|
                && Usable(Dir(r.value))
                && directories[r.value].origin == Origin(Dir(parent), Comps()[ordinal])
      ensures r.Fail? ==> Explained(r.failure)
      ensures r.Value? ==> StillClean()
    {
      hide Attempt.Explained, Attempt.Always, Attempt.Comps, Caused, StepOf, Clean, Acceptable;
      if creationAttempts >= limits.maxCreatedDirectories {
        AtLimit();
        return Fail(Capacity);
      }
      NameFits(ordinal);
      var paid := Pay(4, |Components(path)[ordinal]|);
      if !paid.Value? {
        return paid.Then();
      }
      var created, i := Mkdir(parent, ordinal);
      if created {
        r := AfterMkdir();
      } else {
        r := MkdirRaced(parent, ordinal, i);
      }
    }

    /** After a failed mkdir: only a component that exists by now may be opened instead. */
    method MkdirRaced(parent: nat, ordinal: nat, i: nat) returns (r: Flow<nat>)
      requires Always() && !expirySeen && !denied && Settled() && Usable(Dir(parent)) && ceiling.Some?
      requires |outcomes| + ceiling.value.files + 1 <= usage.calls && i == |outcomes| - 1 && outcomes[i].result.Err?
      requires outcomes[i].phase.DirectoryCreated? && ordinal < Count()
      requires StepOf(Dir(parent), Comps()[ordinal], firstWalk, Comps(), ordinal)
      requires usage.calls + 1 <= ceiling.value.calls && |directories| < ceiling.value.files
      modifies this`usage, this`denied, this`feeRefused, this`expirySeen, clock, this`obligation
      modifies this`outcomes, this`tail, this`blocks, this`lateStarts, this`directories, this`lock
      ensures Always() && lock == old(lock) && usage.calls <= old(usage).calls + 1 && Settled()
      ensures old(directories) <= directories && |directories| <= |old(directories)| + 1
      ensures r.Value? ==>
                && Ready() && |directories| == |old(directories)| + 1 && r.value == |old(directories)|
                && Usable(Dir(r.value))
                && directories[r.value].origin == Origin(Dir(parent), Comps()[ordinal])
      ensures r.Fail? ==> Explained(r.failure)
      ensures r.Value? ==> Acceptable(old(outcomes)[i]) && StillClean()
    {
      hide Mistrusted, Attempt.Always, Attempt.Comps, Placed, StepOf, Clean;
      NameFits(ordinal);
      StepPlaced(parent, ordinal);
      var kind := outcomes[i].result.error;
      var observerPanics := *;
      if observerPanics {
        return Panic;
      }
      Forget();
      var timely := ReadClock();
      if !timely.Value? {
        return timely.Then();
      }
      if !kind.AlreadyExists? {
        return Fail(Native(i));
      }
      var reopened := Open(Dir(parent), Components(path)[ordinal]);
      if !reopened.Value? {
        return reopened.Then();
      }
      if reopened.value.1.Some? {
        CleanAppend(old(outcomes), outcomes[reopened.value.0]);
      }
      return if reopened.value.1.Some? then Value(reopened.value.1.value) else Fail(Native(reopened.value.0));
    }

    /** After a successful mkdir: the observer, the settlement, then the clock. */
    method AfterMkdir() returns (r: Flow<nat>)
      requires Always() && !expirySeen && !denied && obligation.Some? && obligation.value.created
      requires obligation.value.kind.CreateDirectory? && panics == 0
      modifies this`expirySeen, clock
      modifies this`outcomes, this`tail, this`blocks, this`lateStarts, this`directories, this`lock
      modifies this`obligation, this`panics, this`lostPanics
      ensures Always() && lock == old(lock)
      ensures old(directories) <= directories && |directories| <= |old(directories)| + 1
      ensures !r.Panic? ==> obligation.None?
      ensures Kept(0, old(lostPanics), 3, if r.Fail? then Some(Unwound) else None)
      ensures r.Value? ==>
                && Ready() && |directories| == |old(directories)| + 1 && r.value == |old(directories)|
                && Usable(Dir(r.value))
                && old(obligation).value.ordinal < Count()
                && directories[r.value].origin
                   == Origin(Dir(old(obligation).value.parent), Comps()[old(obligation).value.ordinal])
      ensures r.Fail? ==> Explained(r.failure)
      ensures r.Value? ==> StillClean()
    {
      hide Mistrusted, MoneyOk, CustodyOk, CreatedIn, EvidenceOk, Attempt.Comps, Clean;
      var observerPanics := *;
      if observerPanics {
        return Panic;
      }
      var settled := Settle();
      if !settled.Value? {
        return settled.Then();
      }
      var timely := ReadClock();
      return if timely.Value? then Value(|directories| - 1) else timely.Then();
    }

    // -------------------------------------------------------------- the lock

    /** The exclusive open itself, recorded; a failed one is a finished call. */
    method LockCall(root: nat) returns (created: bool, index: nat)
      requires Trace() && Custody() && Evidence() && tail == [] && ceiling.Some? && !expirySeen && Usable(Dir(root))
      requires lock.None? && owner.None? && !lockHeld && |outcomes| + ceiling.value.files + 2 <= usage.calls
      requires AtEnd(Dir(root), LOCK_NAME, firstWalk, Comps())
      modifies this`outcomes, this`tail, this`blocks, this`lateStarts, this`directories, this`lock
      ensures Trace() && Custody() && Evidence() && |outcomes| == |old(outcomes)| + 1 && index == |old(outcomes)|
      ensures directories == old(directories) && (created <==> lock.Some?)
      ensures outcomes[index] == Observation(LockCreated, Dir(root), LOCK_NAME, outcomes[index].result)
      ensures (outcomes[index].result.Ok? <==> created)
      ensures CreatedIn(blocks) == CreatedIn(old(blocks))
      ensures !created ==> tail == []
      ensures created ==> |tail| == 1 && Creates(tail[0]) && tail[0].phase.LockCreated? && tail[0].on == Dir(root)
      ensures outcomes == old(outcomes) + [outcomes[index]]
    {
      hide TraceOk, CustodyOk, CreatedIn, EvidenceOk, Attempt.Comps;
      var found;
      index, found := PhysicalOpen(Dir(root), LOCK_NAME, true, true, false);
      created := found.Some?;
      if !created {
        Close(Single(outcomes[index]));
      }
    }

    /** The exclusive creation of the lock file, kept apart from opening an existing one. */
    method CreateLockFile(root: nat) returns (created: bool, index: nat)
      requires Ready() && Usable(Dir(root)) && lock.None? && owner.None? && !lockHeld
      requires |outcomes| + ceiling.value.files + 4 <= usage.calls
      requires AtEnd(Dir(root), LOCK_NAME, firstWalk, Comps())
      modifies this`outcomes, this`tail, this`blocks, this`lateStarts, this`directories, this`lock, this`obligation
      ensures Always() && obligation == Some(Obligation(root, 0, CreateLock, created))
      ensures directories == old(directories) && (created <==> lock.Some?)
      ensures |outcomes| == |old(outcomes)| + 1 && index == |old(outcomes)|
      ensures outcomes[index] == Observation(LockCreated, Dir(root), LOCK_NAME, outcomes[index].result)
      ensures (outcomes[index].result.Ok? <==> created)
      ensures outcomes == old(outcomes) + [outcomes[index]]
    {
      hide MoneyOk, TraceOk, CustodyOk, CreatedIn, Creates, EvidenceOk, AtEnd, Attempt.Comps;
      created, index := LockCall(root);
      assert Money() && Reserved();
      obligation := Some(Obligation(root, 0, CreateLock, created));
      assert Creating();
    }

    method PlainOpenLock(root: nat) returns (i: nat, found: bool)
      requires Ready() && Usable(Dir(root)) && lock.None? && owner.None? && !lockHeld
      requires |outcomes| + ceiling.value.files + 2 <= usage.calls
      requires AtEnd(Dir(root), LOCK_NAME, firstWalk, Comps())
      requires outcomes != []
      requires outcomes[|outcomes| - 1] == Observation(LockCreated, Dir(root), LOCK_NAME, Err(AlreadyExists))
      modifies this`outcomes, this`tail, this`blocks, this`lateStarts, this`directories, this`lock
      ensures Ready() && directories == old(directories) && i < |outcomes|
      ensures found <==> lock.Some?
      ensures outcomes[i].phase.LockOpened? && (found <==> outcomes[i].result.Ok?)
      ensures i == |old(outcomes)| && outcomes == old(outcomes) + [outcomes[i]]
    {
      hide MoneyOk, TraceOk, CustodyOk, Unsettled, CreatedIn, EvidenceOk, Attempt.Comps;
      var target;
      i, target := PhysicalOpen(Dir(root), LOCK_NAME, true, false, false);
      Close(Single(outcomes[i]));
      found := target.Some?;
      assert Money();
      assert Creating();
    }

    /** Opens a lock file that already exists. */
    method OpenExistingLock(root: nat) returns (r: Flow<()>)
      requires Ready() && Usable(Dir(root)) && lock.None? && owner.None? && !lockHeld
      requires usage.calls + 1 <= ceiling.value.calls
      requires AtEnd(Dir(root), LOCK_NAME, firstWalk, Comps())
      requires outcomes != []
      requires outcomes[|outcomes| - 1] == Observation(LockCreated, Dir(root), LOCK_NAME, Err(AlreadyExists))
      modifies this`usage, this`denied, this`feeRefused, this`expirySeen, clock
      modifies this`outcomes, this`tail, this`blocks, this`lateStarts, this`directories, this`lock
      ensures Always() && directories == old(directories) && usage.calls <= old(usage).calls + 1
      ensures r.Value? ==> Ready() && lock.Some?
      ensures r.Fail? ==> Explained(r.failure)
      ensures r.Value? ==> StillClean()
    {
      hide Mistrusted, Attempt.Always, AtEnd, Attempt.Comps, Clean;
      var paid := Pay(1, LOCK_BYTES);
      if !paid.Value? {
        return paid.Then();
      }
      var i, found := PlainOpenLock(root);
      if found {
        CleanAppend(old(outcomes), outcomes[i]);
      }
      var seen := Observe();
      return if !seen.Value? then seen.Then() else if found then Value(()) else Fail(Native(i));
    }

    method OpenLock(root: nat) returns (r: Flow<()>)
      requires Ready() && Usable(Dir(root)) && lock.None? && owner.None? && !lockHeld
      requires usage.calls + 4 <= ceiling.value.calls && panics == 0
      requires AtEnd(Dir(root), LOCK_NAME, firstWalk, Comps())
      modifies this`usage, this`denied, this`feeRefused, this`expirySeen, clock
      modifies this`outcomes, this`tail, this`blocks, this`lateStarts, this`directories, this`lock
      modifies this`obligation, this`panics, this`lostPanics
      ensures Always() && directories == old(directories) && usage.calls <= old(usage).calls + 4
      ensures !r.Panic? ==> Settled()
      ensures Kept(0, old(lostPanics), 3, if r.Fail? then Some(Unwound) else None)
      ensures r.Value? ==> Ready() && lock.Some?
      ensures r.Fail? ==> Explained(r.failure)
      ensures r.Value? ==> StillClean()
    {
      hide Mistrusted, Attempt.Always, AtEnd, Attempt.Comps, Clean;
      var paid := Pay(3, LOCK_BYTES);
      if !paid.Value? {
        return paid.Then();
      }
      var created, i := CreateLockFile(root);
      if Acceptable(outcomes[i]) {
        CleanAppend(old(outcomes), outcomes[i]);
      }
      var observerPanics := *;
      if observerPanics {
        return Panic;
      }
      if created {
        r := SettleAndCheck();
      } else {
        r := LockRaced(root, i);
      }
    }

    /** After a failed creation: only a lock file that exists by now may be opened instead. */
    method LockRaced(root: nat, i: nat) returns (r: Flow<()>)
      requires Always() && !expirySeen && !denied && Settled() && Usable(Dir(root)) && ceiling.Some?
      requires |outcomes| + ceiling.value.files + 1 <= usage.calls && i == |outcomes| - 1 && outcomes[i].result.Err?
      requires outcomes[i] == Observation(LockCreated, Dir(root), LOCK_NAME, outcomes[i].result)
      requires usage.calls + 1 <= ceiling.value.calls && lock.None? && owner.None? && !lockHeld
      requires AtEnd(Dir(root), LOCK_NAME, firstWalk, Comps())
      modifies this`usage, this`denied, this`feeRefused, this`expirySeen, clock, this`obligation
      modifies this`outcomes, this`tail, this`blocks, this`lateStarts, this`directories, this`lock
      ensures Always() && Settled() && directories == old(directories) && usage.calls <= old(usage).calls + 1
      ensures r.Value? ==> Ready() && lock.Some?
      ensures r.Fail? ==> Explained(r.failure)
      ensures r.Value? ==> Acceptable(old(outcomes)[i]) && StillClean()
    {
      hide Mistrusted, Attempt.Always, AtEnd, Attempt.Comps, Clean;
      var kind := outcomes[i].result.error;
      Forget();
      var timely := ReadClock();
      if !timely.Value? {
        return timely.Then();
      }
      if !kind.AlreadyExists? {
        return Fail(Native(i));
      }
      r := OpenExistingLock(root);
    }

    method SettleAndCheck() returns (r: Flow<()>)
      requires Always() && !expirySeen && !denied && obligation.Some? && obligation.value.created
      requires obligation.value.kind.CreateLock? && panics == 0
      modifies this`expirySeen, clock
      modifies this`outcomes, this`tail, this`blocks, this`lateStarts, this`directories, this`lock
      modifies this`obligation, this`panics, this`lostPanics
      ensures Always() && obligation.None? && directories == old(directories) && lock == old(lock) && !r.Panic?
      ensures Kept(0, old(lostPanics), 3, if r.Fail? then Some(Unwound) else None)
      ensures r.Value? ==> Ready()
      ensures r.Fail? ==> Explained(r.failure)
      ensures r.Value? ==> StillClean()
    {
      hide Mistrusted, MoneyOk, CustodyOk, CreatedIn, EvidenceOk, Clean;
      var failed := SettleLock(obligation.value);
      if failed.Some? {
        return Fail(failed.value);
      }
      r := ReadClock();
    }

    /** Opens or creates the lock file, stats it, then takes the advisory lock. */
    method AcquireLock(root: nat) returns (r: Flow<Identity>)
      requires Ready() && Usable(Dir(root)) && lock.None? && owner.None? && !lockHeld
      requires usage.calls + 6 <= ceiling.value.calls && panics == 0
      requires AtEnd(Dir(root), LOCK_NAME, firstWalk, Comps())
      modifies this`usage, this`denied, this`feeRefused, this`expirySeen, clock, this`lockHeld
      modifies this`outcomes, this`tail, this`blocks, this`lateStarts, this`directories, this`lock
      modifies this`obligation, this`panics, this`lostPanics
      ensures Always() && SameSlots(old(directories), directories) && usage.calls <= old(usage).calls + 6
      ensures |directories| == |old(directories)| && Usable(Dir(root))
      ensures !r.Panic? ==> Settled()
      ensures Kept(0, old(lostPanics), 3, if r.Fail? then Some(Unwound) else None)
      ensures r.Value? ==> Ready() && lock.Some? && lockHeld && r.value == lock.value.identity
      ensures r.Fail? ==> Explained(r.failure)
      ensures r.Value? ==> StillClean()
    {
      hide Mistrusted, Attempt.Always, AtEnd, Attempt.Comps, Clean;
      var present := OpenLock(root);
      if !present.Value? {
        return present.Then();
      }
      var identity := Metadata(LockFile);
      if !identity.Value? {
        return identity.Then();
      }
      var locked := TryLock();
      return if locked.Value? then identity else locked.Then();
    }

    method HoldLock(held: bool)
      requires Ready() && lock.Some? && (held ==> LockTaken(outcomes))
      modifies this`lockHeld
      ensures Ready() && lockHeld == held
    {
      hide MoneyOk, TraceOk, Unsettled, Idle, AllPlaced, AllCaused, AllRecorded, LockTaken;
      lockHeld := held;
    }

    /** The native lock attempt: held exactly when its record says so. */
    method LockAttempt() returns (ok: bool, index: nat)
      requires Ready() && lock.Some? && |outcomes| + ceiling.value.files + 2 <= usage.calls
      modifies this`outcomes, this`tail, this`blocks, this`lateStarts, this`lockHeld
      ensures Ready() && lockHeld == ok && index < |outcomes|
      ensures outcomes[index].phase.AdvisoryLock? && (ok <==> outcomes[index].result.Ok?)
      ensures ok ==> StillClean()
    {
      hide Mistrusted, Attempt.Always, Clean;
      ok := *;
      var kind := NativeError();
      var o := Observation(AdvisoryLock, LockFile, [], if ok then Ok(Done) else Err(kind));
      index := Note(o);
      assert o in outcomes;
      if ok {
        CleanAppend(old(outcomes), o);
      }
      HoldLock(ok);
    }

    method TryLock() returns (r: Flow<()>)
      requires Ready() && lock.Some? && usage.calls + 1 <= ceiling.value.calls
      modifies this`usage, this`denied, this`feeRefused, this`expirySeen, clock, this`lockHeld
      modifies this`outcomes, this`tail, this`blocks, this`lateStarts
      ensures Always() && obligation.None? && usage.calls <= old(usage).calls + 1
      ensures r.Value? ==> Ready() && lockHeld
      ensures r.Fail? ==> Explained(r.failure)
      ensures r.Value? ==> StillClean()
    {
      hide Mistrusted, Attempt.Always, Clean;
      var paid := Pay(1, 0);
      if !paid.Value? {
        return paid.Then();
      }
      var ok, index := LockAttempt();
      r := Observe();
      if r.Value? && !ok {
        r := Fail(Native(index));
      }
    }

    // -------------------------------------------------------------- the walks

    lemma Ceiling()
      requires Always() && ceiling.Some?
      ensures path != [] && Comps() == Components(path) && ceiling.value.components == Count()
      ensures ceiling.value.calls == 12 * Count() + 40 && ceiling.value.files == 2 * Count() + 3
    {
    }

    /** Opens a directory that must be there. */
    method Follow(parent: Target, name: Bytes) returns (r: Flow<nat>)
      requires Ready() && Usable(parent) && |name| <= |path| + LOCK_BYTES && MayCall(DirectoryOpened, parent, name)
      requires parent.Filesystem? || secondWalk != []
      requires usage.calls + 1 <= ceiling.value.calls && |directories| < ceiling.value.files
      modifies this`usage, this`denied, this`feeRefused, this`expirySeen, clock
      modifies this`outcomes, this`tail, this`blocks, this`lateStarts, this`directories, this`lock
      ensures Always() && obligation.None? && usage.calls <= old(usage).calls + 1 && lock == old(lock)
      ensures old(directories) <= directories && |directories| <= |old(directories)| + 1
      ensures r.Value? ==>
                && Ready() && |directories| == |old(directories)| + 1 && r.value == |old(directories)|
                && Usable(Dir(r.value))
                && directories[r.value].origin == Origin(parent, name)
      ensures r.Fail? ==> Explained(r.failure)
      ensures r.Value? ==> StillClean()
    {
      hide Mistrusted, Attempt.Always, Placed, Clean;
      var found := Open(parent, name);
      if !found.Value? {
        return found.Then();
      }
      if found.value.1.Some? {
        CleanAppend(old(outcomes), outcomes[found.value.0]);
      }
      return if found.value.1.Some? then Value(found.value.1.value) else Fail(Native(found.value.0));
    }

    /** One component of the first walk: open it, or create it when it is missing. */
    method OpenOrCreate(parent: nat, ordinal: nat) returns (r: Flow<nat>)
      requires Ready() && Usable(Dir(parent)) && ordinal < Count() && |directories| < ceiling.value.files
      requires StepOf(Dir(parent), Comps()[ordinal], firstWalk, Comps(), ordinal)
      requires usage.calls + 6 <= ceiling.value.calls && panics == 0
      modifies this`usage, this`denied, this`feeRefused, this`expirySeen, clock
      modifies this`outcomes, this`tail, this`blocks, this`lateStarts, this`directories, this`lock
      modifies this`obligation, this`creationAttempts, this`createdDirectories, this`panics, this`lostPanics
      ensures Always() && lock == old(lock) && usage.calls <= old(usage).calls + 6
      ensures old(directories) <= directories && |directories| <= |old(directories)| + 1
      ensures !r.Panic? ==> Settled()
      ensures Kept(0, old(lostPanics), 3, if r.Fail? then Some(Unwound) else None)
      ensures r.Value? ==>
                && Ready() && |directories| == |old(directories)| + 1 && r.value == |old(directories)|
                && Usable(Dir(r.value))
                && directories[r.value].origin == Origin(Dir(parent), Comps()[ordinal])
      ensures r.Fail? ==> Explained(r.failure)
      ensures r.Value? ==> StillClean()
    {
      hide Mistrusted, Attempt.Always, Attempt.Comps, Placed, StepOf, Clean;
      NameFits(ordinal);
      StepPlaced(parent, ordinal);
      var found := Open(Dir(parent), Components(path)[ordinal]);
      if !found.Value? {
        return found.Then();
      }
      if Acceptable(outcomes[found.value.0]) {
        CleanAppend(old(outcomes), outcomes[found.value.0]);
      }
      if found.value.1.Some? {
        return Value(found.value.1.value);
      }
      if !outcomes[found.value.0].result.error.NotFound? {
        return Fail(Native(found.value.0));
      }
      r := CreateMissing(parent, ordinal);
    }

    /** One step of the first walk, down to the recorded identity. */
    method Descend(parent: nat, ordinal: nat) returns (r: Flow<nat>)
      requires Ready() && Usable(Dir(parent)) && ordinal < Count() && |directories| < ceiling.value.files
      requires StepOf(Dir(parent), Comps()[ordinal], firstWalk, Comps(), ordinal)
      requires usage.calls + 7 <= ceiling.value.calls && panics == 0
      modifies this`usage, this`denied, this`feeRefused, this`expirySeen, clock
      modifies this`outcomes, this`tail, this`blocks, this`lateStarts, this`directories, this`lock
      modifies this`obligation, this`creationAttempts, this`createdDirectories, this`panics, this`lostPanics
      ensures Always() && lock == old(lock) && usage.calls <= old(usage).calls + 7
      ensures Grown(old(directories), directories)
      ensures !r.Panic? ==> Settled()
      ensures Kept(0, old(lostPanics), 3, if r.Fail? then Some(Unwound) else None)
      ensures r.Value? ==>
                && Ready() && |directories| == |old(directories)| + 1 && r.value == |old(directories)|
                && Usable(Dir(r.value)) && Walked([r.value], directories)
                && directories[r.value].origin == Origin(Dir(parent), Comps()[ordinal])
      ensures r.Fail? ==> Explained(r.failure)
      ensures r.Value? ==> StillClean()
    {
      hide Mistrusted, Attempt.Always, Attempt.Comps, StepOf, Clean;
      r := OpenOrCreate(parent, ordinal);
      if r.Value? {
        var identity := Metadata(Dir(r.value));
        if !identity.Value? {
          r := identity.Then();
        }
      }
    }

    /** The start of the first walk. */
    method OpenRoot() returns (r: Flow<nat>)
      requires Ready() && usage.calls + 2 <= ceiling.value.calls && directories == [] && ceiling.value.files > 0
      modifies this`usage, this`denied, this`feeRefused, this`expirySeen, clock
      modifies this`outcomes, this`tail, this`blocks, this`lateStarts, this`directories, this`lock
      ensures Always() && obligation.None? && lock == old(lock) && usage.calls <= old(usage).calls + 2
      ensures r.Value? ==>
                Ready() && |directories| == 1 && r.value == 0 && Usable(Dir(0)) && Walked([r.value], directories)
                && directories[0].origin == Origin(Filesystem, [SLASH])
      ensures r.Fail? ==> Explained(r.failure)
      ensures r.Value? ==> StillClean()
    {
      hide Mistrusted, Attempt.Always, Clean;
      r := Follow(Filesystem, [SLASH]);
      if r.Value? {
        var identity := Metadata(Dir(r.value));
        if !identity.Value? {
          r := identity.Then();
        }
      }
    }

    /** Adds a directory to the first walk, in its reserved slot. */
    method Visit(i: nat)
      requires Ready() && |firstWalk| <= ceiling.value.components
      modifies this`firstWalk
      ensures Ready() && firstWalk == old(firstWalk) + [i]
    {
      hide MoneyOk, TraceOk, CustodyOk, Unsettled, Idle, EvidenceOk;
      EvidenceWalks(lockHeld, outcomes, firstWalk, secondWalk, firstWalk + [i], secondWalk, Comps(), directories, lock,
        owner, namedLock);
      firstWalk := firstWalk + [i];
    }

    /** Walks from the root to the directory, creating what is missing. */
    method FirstWalk() returns (r: Flow<nat>)
      requires Ready() && usage.calls == ceiling.value.files + 1 && directories == [] && firstWalk == [] && panics == 0
      modifies this`usage, this`denied, this`feeRefused, this`expirySeen, clock, this`firstWalk
      modifies this`outcomes, this`tail, this`blocks, this`lateStarts, this`directories, this`lock
      modifies this`obligation, this`creationAttempts, this`createdDirectories, this`panics, this`lostPanics
      ensures Always() && lock == old(lock)
      ensures !r.Panic? ==> Settled()
      ensures Kept(0, old(lostPanics), 3, if r.Fail? then Some(Unwound) else None)
      ensures r.Value? ==>
                && Ready() && usage.calls <= ceiling.value.files + 3 + 7 * Count()
                && Walked(firstWalk, directories) && Chained(firstWalk, directories, Comps())
                && |firstWalk| == |directories| == Count() + 1
                && r.value == firstWalk[Count()] && Usable(Dir(r.value))
      ensures r.Fail? ==> Explained(r.failure)
      ensures r.Value? ==> StillClean()
    {
      hide Attempt.Always, Attempt.Explained, Attempt.Comps, Grown, SameSlots, Walked, Chained, Clean;
      Ceiling();
      var n := ceiling.value.components;
      var start := OpenRoot();
      if !start.Value? {
        return start;
      }
      var parent := start.value;
      StartChain(parent, directories, Comps());
      Visit(parent);
      assert firstWalk == [parent];
      for ordinal := 0 to n
        invariant Ready() && lock == old(lock) && ceiling == old(ceiling)
        invariant usage.calls <= ceiling.value.files + 3 + 7 * ordinal
        invariant Walked(firstWalk, directories) && |firstWalk| == |directories| == ordinal + 1
        invariant Chained(firstWalk, directories, Comps())
        invariant StillClean()
        invariant parent == firstWalk[ordinal] && Usable(Dir(parent))
        invariant panics == 0 && lostPanics == old(lostPanics)
      {
        ghost var before := directories;
        var child := Descend(parent, ordinal);
        if !child.Value? {
          return child;
        }
        WalksGrow(firstWalk, [], before, directories);
        ChainGrows(firstWalk, before, directories, Comps());
        parent := child.value;
        ChainAppend(firstWalk, parent, directories, Comps());
        WalkedAppend(firstWalk, parent, directories);
        Visit(parent);
      }
      return Value(parent);
    }

    /** The current directory of the second walk must be the inode the first walk found there. */
    method Compare(current: nat, ordinal: nat) returns (r: Flow<()>)
      requires Ready() && Usable(Dir(current)) && usage.calls + 1 <= ceiling.value.calls
      requires Walked(firstWalk, directories) && |secondWalk| == ordinal < |firstWalk| && current == |directories| - 1
      modifies this`usage, this`denied, this`feeRefused, this`expirySeen, clock
      modifies this`outcomes, this`tail, this`blocks, this`lateStarts, this`directories
      ensures Always() && obligation.None? && usage.calls <= old(usage).calls + 1
      ensures SameSlots(old(directories), directories)
      ensures r.Value? ==>
                && Ready() && Usable(Dir(current)) && firstWalk[ordinal] < |directories|
                && directories[firstWalk[ordinal]].fd.identity == directories[current].fd.identity
      ensures r.Fail? ==> Explained(r.failure)
      ensures r == Fail(IdentityMismatch) ==>
                && Usable(Dir(current)) && firstWalk[ordinal] < |directories|
                && (!directories[current].fd.isDir
                    || directories[firstWalk[ordinal]].fd.identity != directories[current].fd.identity)
      ensures r.Value? ==> StillClean()
    {
      hide Attempt.Always, Chained, Clean;
      var actual := Metadata(Dir(current));
      if !actual.Value? {
        return actual.Then();
      }
      var expected := directories[firstWalk[ordinal]].identity.value;
      return if actual.value == expected then Value(()) else Fail(IdentityMismatch);
    }

    /** Where the next directory of the second walk was to be opened. */
    ghost function NextOrigin(): Origin
      reads this`secondWalk
      requires |secondWalk| <= Count()
    {
      if secondWalk == [] then Origin(Filesystem, [SLASH])
      else Origin(Dir(secondWalk[|secondWalk| - 1]), Comps()[|secondWalk| - 1])
    }

    ghost method Pass(i: nat)
      requires Ready()
      modifies this`secondWalk
      ensures Ready() && secondWalk == old(secondWalk) + [i]
    {
      hide MoneyOk, TraceOk, CustodyOk, Unsettled, Idle, EvidenceOk;
      EvidenceWalks(lockHeld, outcomes, firstWalk, secondWalk, firstWalk, secondWalk + [i], Comps(), directories, lock,
        owner, namedLock);
      secondWalk := secondWalk + [i];
    }

    /** Compares the current directory and makes it part of the second walk. */
    method Revisit(current: nat, ordinal: nat) returns (r: Flow<()>)
      requires Ready() && Usable(Dir(current)) && usage.calls + 1 <= ceiling.value.calls
      requires Walked(firstWalk, directories) && Matched(firstWalk, secondWalk, directories)
      requires |secondWalk| == ordinal < |firstWalk| && ordinal <= Count() && current == |directories| - 1
      requires Chained(secondWalk, directories, Comps()) && directories[current].origin == NextOrigin()
      modifies this`usage, this`denied, this`feeRefused, this`expirySeen, clock, this`secondWalk
      modifies this`outcomes, this`tail, this`blocks, this`lateStarts, this`directories
      ensures Always() && obligation.None? && usage.calls <= old(usage).calls + 1
      ensures Grown(old(directories), directories) && |directories| == |old(directories)|
      ensures r.Value? ==>
                && Ready() && Usable(Dir(current)) && secondWalk == old(secondWalk) + [current]
                && Walked(firstWalk, directories) && Matched(firstWalk, secondWalk, directories)
                && Chained(secondWalk, directories, Comps())
      ensures r.Fail? ==> Explained(r.failure)
      ensures r.Value? ==> StillClean()
    {
      hide Attempt.Always, Attempt.Comps, Chained, Clean;
      r := Compare(current, ordinal);
      if r.Value? {
        WalksGrow(firstWalk, secondWalk, old(directories), directories);
        ChainGrows(secondWalk, old(directories), directories, Comps());
        ChainAppend(secondWalk, current, directories, Comps());
        Pass(current);
      }
    }

    lemma SecondStepPlaced(current: nat, ordinal: nat)
      requires ordinal < Count() && |secondWalk| == ordinal + 1 && secondWalk[ordinal] == current
      ensures MayCall(DirectoryOpened, Dir(current), Comps()[ordinal])
    {
      assert StepOf(Dir(current), Comps()[ordinal], secondWalk, Comps(), ordinal);
    }

    /** Opens the next component of the second walk. */
    method Advance(current: nat, ordinal: nat) returns (r: Flow<nat>)
      requires Ready() && Usable(Dir(current)) && ordinal < Count() && |directories| < ceiling.value.files
      requires usage.calls + 1 <= ceiling.value.calls
      requires |secondWalk| == ordinal + 1 && secondWalk[ordinal] == current
      requires Chained(secondWalk, directories, Comps())
      requires Walked(firstWalk, directories) && Matched(firstWalk, secondWalk, directories)
      modifies this`usage, this`denied, this`feeRefused, this`expirySeen, clock
      modifies this`outcomes, this`tail, this`blocks, this`lateStarts, this`directories, this`lock
      ensures Always() && obligation.None? && usage.calls <= old(usage).calls + 1 && lock == old(lock)
      ensures Grown(old(directories), directories)
      ensures r.Value? ==>
                && Ready() && |directories| == |old(directories)| + 1 && r.value == |directories| - 1
                && Usable(Dir(r.value))
                && Walked(firstWalk, directories) && Matched(firstWalk, secondWalk, directories)
                && Chained(secondWalk, directories, Comps()) && directories[r.value].origin == NextOrigin()
      ensures r.Fail? ==> Explained(r.failure)
      ensures r.Value? ==> StillClean()
    {
      hide Attempt.Explained, Attempt.Always, Attempt.Comps, Placed, Chained, Walked, Matched, Clean;
      NameFits(ordinal);
      SecondStepPlaced(current, ordinal);
      r := Follow(Dir(current), Components(path)[ordinal]);
      GrownChain(old(directories), old(directories), directories);
      WalksGrow(firstWalk, secondWalk, old(directories), directories);
      ChainGrows(secondWalk, old(directories), directories, Comps());
    }

    /** Walks the literal path again and compares every ancestor, the root included. */
    method SecondWalk() returns (r: Flow<nat>)
      requires Ready() && usage.calls + 2 * Count() + 2 <= ceiling.value.calls
      requires Walked(firstWalk, directories) && |firstWalk| == |directories| == Count() + 1 && secondWalk == []
      modifies this`usage, this`denied, this`feeRefused, this`expirySeen, clock, this`secondWalk
      modifies this`outcomes, this`tail, this`blocks, this`lateStarts, this`directories, this`lock
      ensures Always() && obligation.None? && lock == old(lock) && Grown(old(directories), directories)
      ensures usage.calls <= old(usage).calls + 2 * Count() + 2
      ensures r.Value? ==>
                && Ready() && |secondWalk| == Count() + 1 && r.value == secondWalk[Count()] && Usable(Dir(r.value))
                && Walked(firstWalk, directories) && Matched(firstWalk, secondWalk, directories)
                && Chained(secondWalk, directories, Comps())
      ensures r.Fail? ==> Explained(r.failure)
      ensures r.Value? ==> StillClean()
    {
      hide Mistrusted, Attempt.Always, Attempt.Comps, Chained, Grown, SameSlots, Walked, Matched, Clean;
      Ceiling();
      var n := ceiling.value.components;
      NothingMatched(firstWalk, directories);
      NothingChained(directories, Comps());
      var found := Follow(Filesystem, [SLASH]);
      GrownChain(old(directories), old(directories), directories);
      if !found.Value? {
        return found;
      }
      WalksGrow(firstWalk, secondWalk, old(directories), directories);
      ChainGrows(secondWalk, old(directories), directories, Comps());
      var current := found.value;
      for ordinal := 0 to n + 1
        invariant Ready() && lock == old(lock) && ceiling == old(ceiling)
        invariant |directories| == n + 2 + (if ordinal <= n then ordinal else n)
        invariant usage.calls <= old(usage).calls + 2 * ordinal + (if ordinal <= n then 1 else 0)
        invariant Grown(old(directories), directories) && Usable(Dir(current))
        invariant |secondWalk| == ordinal && (ordinal > n ==> secondWalk[n] == current) && n == Count()
        invariant StillClean()
        invariant current == |directories| - 1 && Chained(secondWalk, directories, Comps())
        invariant ordinal <= n ==> directories[current].origin == NextOrigin()
        invariant Walked(firstWalk, directories) && Matched(firstWalk, secondWalk, directories)
      {
        ghost var before := directories;
        var same := Revisit(current, ordinal);
        GrownChain(old(directories), before, directories);
        if !same.Value? {
          return same.Then();
        }
        if ordinal < n {
          before := directories;
          found := Advance(current, ordinal);
          GrownChain(old(directories), before, directories);
          if !found.Value? {
            return found;
          }
          current := found.value;
        }
      }
      return Value(current);
    }

    // -------------------------------------------------------------- completion

    /** Stats a file, by name or by descriptor, without deciding anything yet. */
    method StatLock(phase: Phase, on: Target, name: Bytes, stat: Stat) returns (r: Flow<()>)
      requires Ready() && Usable(on) && usage.calls + 1 <= ceiling.value.calls && |name| <= LOCK_BYTES
      requires MayCall(phase, on, name)
      requires phase.NamedLockMetadata? || phase.LockMetadata?
      modifies this`usage, this`denied, this`feeRefused, this`expirySeen, clock
      modifies this`outcomes, this`tail, this`blocks, this`lateStarts
      ensures Always() && obligation.None? && usage.calls <= old(usage).calls + 1
      ensures r.Value? ==> Ready() && outcomes == old(outcomes) + [Observation(phase, on, name, Ok(Seen(stat)))]
      ensures r != Fail(IdentityMismatch)
      ensures r.Fail? ==> Explained(r.failure)
    {
      hide Mistrusted, Attempt.Always, Placed;
      var paid := Pay(1, |name|);
      if !paid.Value? {
        return paid.Then();
      }
      var ok := *;
      var kind := NativeError();
      var called := Call(Observation(phase, on, name, if ok then Ok(Seen(stat)) else Err(kind)));
      return if !called.Value? then called.Then() else if ok then Value(()) else Fail(Native(called.value));
    }

    ghost method NoteNamed(stat: Stat, o: Observation)
      requires Ready() && o in outcomes && NamesLock(o, stat)
      modifies this`namedLock
      ensures Ready() && namedLock == Some(stat)
    {
      hide MoneyOk, TraceOk, CustodyOk, Unsettled, Idle, EvidenceOk;
      EvidenceNamed(lockHeld, outcomes, firstWalk, secondWalk, Comps(), directories, lock, owner, namedLock, stat, o);
      namedLock := Some(stat);
    }

    /** Looks the lock file up by name, in the last directory of the second walk. */
    method SeeNamedLock(current: nat) returns (r: Flow<Stat>)
      requires Ready() && Usable(Dir(current)) && usage.calls + 1 <= ceiling.value.calls
      requires AtEnd(Dir(current), LOCK_NAME, secondWalk, Comps())
      modifies this`usage, this`denied, this`feeRefused, this`expirySeen, clock, this`namedLock
      modifies this`outcomes, this`tail, this`blocks, this`lateStarts
      ensures Always() && obligation.None? && usage.calls <= old(usage).calls + 1
      ensures r.Value? ==>
                && Ready() && namedLock == Some(r.value)
                && outcomes == old(outcomes) + [Observation(NamedLockMetadata, Dir(current), LOCK_NAME, Ok(Seen(r.value)))]
      ensures r.Fail? ==> Explained(r.failure) && !r.failure.IdentityMismatch?
    {
      hide Attempt.Always, Attempt.Explained, AtEnd, Attempt.Comps;
      var anything := NativeFd();
      var links: nat :| links >= 0;
      var named := Stat(anything.identity, anything.isDir, anything.isFile, links);
      LockNameFits();
      var seen := StatLock(NamedLockMetadata, Dir(current), LOCK_NAME, named);
      if !seen.Value? {
        return seen.Then();
      }
      NoteNamed(named, outcomes[|outcomes| - 1]);
      return Value(named);
    }

    /** The lock file that the second walk's directory names must be the held one, with one link. */
    method CheckNamedLock(current: nat) returns (r: Flow<()>)
      requires Ready() && Usable(Dir(current)) && lock.Some? && usage.calls + 2 <= ceiling.value.calls
      requires AtEnd(Dir(current), LOCK_NAME, secondWalk, Comps())
      modifies this`usage, this`denied, this`feeRefused, this`expirySeen, clock, this`namedLock
      modifies this`outcomes, this`tail, this`blocks, this`lateStarts
      ensures Always() && obligation.None? && usage.calls <= old(usage).calls + 2
      ensures r.Value? ==>
                && Ready() && namedLock.Some? && namedLock.value.isFile && namedLock.value.links == 1
                && namedLock.value.identity == lock.value.identity
      ensures r.Fail? ==> Explained(r.failure)
      ensures r == Fail(IdentityMismatch) ==>
                && namedLock.Some?
                && (!namedLock.value.isFile || namedLock.value.links != 1
                    || namedLock.value.identity != lock.value.identity || LastSawLinks(outcomes))
      ensures r.Value? ==> StillClean()
    {
      hide Attempt.Always, AtEnd, Attempt.Comps, Clean;
      var named := SeeNamedLock(current);
      if !named.Value? {
        return named.Then();
      }
      ghost var before := outcomes;
      var links: nat :| links >= 0;
      var held := Stat(lock.value.identity, lock.value.isDir, lock.value.isFile, links);
      r := StatLock(LockMetadata, LockFile, [], held);
      var seen := named.value;
      if r.Value? && (!seen.isFile || seen.links != 1 || held.links != 1 || seen.identity != held.identity) {
        r := Fail(IdentityMismatch);
      }
      if r.Value? {
        CleanAppend(old(outcomes), before[|before| - 1]);
        CleanAppend(before, outcomes[|outcomes| - 1]);
      }
    }

    /** Moves the directory and the lock, one time, into the owner. */
    method TakeOwner(root: nat, directoryIdentity: Identity, lockIdentity: Identity)
      requires Ready() && Usable(Dir(root)) && lock.Some? && owner.None? && clock.now < expiry
      modifies this`directories, this`lock, this`owner
      ensures Ready() && lock.None?
      ensures owner == Some(Owner(path, directoryIdentity, lockIdentity, old(directories)[root].fd, old(lock).value))
      ensures directories == old(directories)[root := old(directories)[root].(taken := true)]
    {
      hide MoneyOk, TraceOk, Unsettled, Idle, EvidenceOk;
      var slot := directories[root];
      var next := directories[root := slot.(taken := true)];
      var given := Some(Owner(path, directoryIdentity, lockIdentity, slot.fd, lock.value));
      EvidenceSlots(lockHeld, outcomes, firstWalk, secondWalk, Comps(), directories, next, lock, None, owner, given,
        namedLock);
      directories := next;
      owner := given;
      lock := None;
    }

    /** Revalidates the held lock and directory, then completes the owner. */
    method HandOver(root: nat, lockIdentity: Identity) returns (r: Flow<()>)
      requires Ready() && Usable(Dir(root)) && lock.Some? && owner.None? && lockIdentity == lock.value.identity
      requires usage.calls + 2 <= ceiling.value.calls
      modifies this`usage, this`denied, this`feeRefused, this`expirySeen, clock
      modifies this`outcomes, this`tail, this`blocks, this`lateStarts, this`directories, this`lock, this`owner
      ensures Always() && obligation.None?
      ensures r.Value? ==>
                && Grown(old(directories), Untaken(directories, root)) && root < |directories|
                && owner.Some? && owner.value.lock == old(lock).value && owner.value.directory == directories[root].fd
                && owner.value.directory.isDir && owner.value.directoryIdentity == owner.value.directory.identity
                && owner.value.lock.isFile && owner.value.lockIdentity == owner.value.lock.identity
                && lock.None? && !denied && owner.value.canonical == path && clock.now < expiry
      ensures r.Fail? ==> Explained(r.failure)
      ensures r.Value? ==> StillClean()
    {
      hide Mistrusted, Attempt.Always, Clean;
      var held := Metadata(LockFile);
      if !held.Value? {
        return held.Then();
      }
      // The source compares the identities again; an open descriptor cannot change its own.
      assert held.value == lockIdentity;
      var identity := Metadata(Dir(root));
      if !identity.Value? {
        return identity.Then();
      }
      var timely := ReadClock();
      if !timely.Value? {
        return timely;
      }
      TakeOwner(root, identity.value, lockIdentity);
      r := Observe();
    }

    lemma Accounted()
      requires Always() && obligation.None?
      ensures outcomes == Spell(blocks) && AllWellFormed(blocks) && lateStarts == 0
      ensures createdDirectories == CreatedIn(blocks) <= creationAttempts <= limits.maxCreatedDirectories
      ensures outcomes != [] ==>
                ceiling.Some? && |outcomes| + ceiling.value.files + 1 <= usage.calls <= ceiling.value.calls
      ensures exact ==> !feeRefused && !denied
      ensures ceiling.Some? ==> Normalized(path)
      ensures Reserved() && Evidence()
      ensures (owner.Some? ==> lock.None?) && (lockHeld ==> lock.Some? || owner.Some?)
    {
      hide Ledger, Components, CostOf, Normalized, AllWellFormed, CreatedIn, EvidenceOk;
      assert Spell(blocks) + [] == Spell(blocks);
    }

    /** The state a new attempt starts in. */
    ghost predicate Fresh()
      reads this
    {
      && Always() && ceiling.None? && obligation.None? && exact && !expirySeen && panics == 0 && lostPanics == 0
      && lock.None? && owner.None? && !lockHeld && directories == [] && firstWalk == [] && secondWalk == []
      && outcomes == []
    }

    method Start() returns (r: Flow<()>)
      requires Fresh()
      modifies this`ceiling, this`usage, this`denied, this`feeRefused, this`expirySeen, this`due, this`exact
      modifies this`allocationFailed, clock
      ensures Always() && !r.Panic?
      ensures r.Value? ==> Ready() && usage.calls == ceiling.value.files + 1
      ensures expiry <= old(clock.now) ==> r == Fail(Expired)
      ensures r.Fail? ==> Explained(r.failure)
    {
      hide Mistrusted, MoneyOk, CustodyOk, Unsettled, CreatedIn, Spell, EvidenceOk;
      r := Prepare();
      assert Trace();
      assert Creating();
    }

    lemma StillUsable(start: seq<Slot>, slots: seq<Slot>, root: nat)
      requires Grown(start, slots) && root < |start| && !start[root].taken
      ensures root < |slots| && !slots[root].taken
    {
    }

    /** The second half: both walks are compared and ownership is handed over. */
    method Complete(root: nat, lockIdentity: Identity) returns (r: Flow<()>)
      requires Ready() && lock.Some? && owner.None? && lockIdentity == lock.value.identity
      requires usage.calls + 2 * Count() + 6 <= ceiling.value.calls
      requires Walked(firstWalk, directories) && Chained(firstWalk, directories, Comps())
      requires |firstWalk| == |directories| == Count() + 1 && secondWalk == []
      requires Usable(Dir(root)) && root == firstWalk[Count()]
      modifies this`usage, this`denied, this`feeRefused, this`expirySeen, clock, this`secondWalk, this`namedLock
      modifies this`outcomes, this`tail, this`blocks, this`lateStarts, this`directories, this`lock, this`owner
      ensures Always() && obligation.None?
      ensures r.Value? ==>
                && owner.Some? && lock.None? && !denied && owner.value.canonical == path && clock.now < expiry
                && Acquired(owner.value, firstWalk, secondWalk, directories, namedLock, Comps())
      ensures r.Fail? ==> Explained(r.failure)
      ensures r.Value? ==> StillClean()
    {
      hide Mistrusted, Attempt.Always, Attempt.Comps, SameSlots, Walked, Matched, Chained, Untaken, Grown, Clean;
      ghost var start := directories;
      var current := SecondWalk();
      if !current.Value? {
        return current.Then();
      }
      ChainGrows(firstWalk, start, directories, Comps());
      StillUsable(start, directories, root);
      r := CheckNamedLock(current.value);
      if r.Value? {
        ghost var before := directories;
        r := HandOver(root, lockIdentity);
        if r.Value? {
          WalksGrow(firstWalk, secondWalk, before, Untaken(directories, root));
          WalksUntaken(firstWalk, secondWalk, directories, root);
          ChainGrows(firstWalk, before, Untaken(directories, root), Comps());
          ChainGrows(secondWalk, before, Untaken(directories, root), Comps());
          ChainUntaken(firstWalk, directories, root, Comps());
          ChainUntaken(secondWalk, directories, root, Comps());
        }
      }
    }

    /** Everything after the first walk. */
    method LockAndComplete(root: nat) returns (r: Flow<()>)
      requires Ready() && lock.None? && owner.None? && !lockHeld && panics == 0 && lostPanics == 0
      requires usage.calls <= ceiling.value.files + 3 + 7 * Count()
      requires Walked(firstWalk, directories) && Chained(firstWalk, directories, Comps())
      requires |firstWalk| == |directories| == Count() + 1 && secondWalk == []
      requires Usable(Dir(root)) && root == firstWalk[Count()]
      modifies this`usage, this`denied, this`feeRefused, this`expirySeen, clock, this`lockHeld, this`secondWalk
      modifies this`namedLock
      modifies this`outcomes, this`tail, this`blocks, this`lateStarts, this`directories, this`lock, this`owner
      modifies this`obligation, this`panics, this`lostPanics
      ensures Always()
      ensures !r.Panic? ==> Settled()
      ensures Kept(0, 0, 3, if r.Fail? then Some(Unwound) else None)
      ensures r.Value? ==>
                && owner.Some? && lock.None? && lockHeld && !denied && owner.value.canonical == path
                && clock.now < expiry
                && Acquired(owner.value, firstWalk, secondWalk, directories, namedLock, Comps())
      ensures r.Fail? ==> Explained(r.failure)
      ensures r.Value? ==> StillClean()
    {
      hide Attempt.Always, Attempt.Explained, Attempt.Comps, Grown, SameSlots, Walked, Matched, Chained, Acquired;
      hide Clean;
      Ceiling();
      ghost var before := directories;
      var lockIdentity := AcquireLock(root);
      if !lockIdentity.Value? {
        return lockIdentity.Then();
      }
      GrownChain(before, before, directories);
      WalksGrow(firstWalk, [], before, directories);
      ChainGrows(firstWalk, before, directories, Comps());
      r := Complete(root, lockIdentity.value);
    }

    /** Saves a panic and settles what it left open. */
    method WindUp(ran: Flow<()>) returns (failure: Option<Failure>)
      requires Always() && (!ran.Panic? ==> Settled())
      requires Kept(0, 0, 3, if ran.Fail? then Some(Unwound) else None)
      requires ran.Fail? ==> Explained(ran.failure)
      modifies this`outcomes, this`tail, this`blocks, this`lateStarts, this`directories, this`lock
      modifies this`obligation, this`panics, this`lostPanics
      ensures Always() && obligation.None? && lostPanics == 0 && lock == old(lock)
      ensures failure.None? <==> ran.Value?
      ensures failure.Some? ==> Explained(failure.value)
      ensures ran.Value? ==> panics == 0 && directories == old(directories) && outcomes == old(outcomes)
      ensures ran.Fail? ==> failure == Some(ran.failure) && outcomes == old(outcomes)
    {
      hide Attempt.Always, Mistrusted;
      if ran.Panic? {
        SavePanic();
      }
      // A run that succeeded or failed has settled already, so this cannot fail after success.
      var _ := Settle();
      return match ran case Value(_) => None case Fail(failed) => Some(failed) case Panic => Some(Unwound);
    }

    lemma AtLimit()
      ensures Explained(Capacity) <==> creationAttempts >= limits.maxCreatedDirectories
    {
    }

    /** Settles, then gives the owner away on success, or denies the attempt. */
    method Finish(ran: Flow<()>) returns (r: Result<Owner, Failure>)
      requires Always() && (!ran.Panic? ==> Settled())
      requires Kept(0, 0, 3, if ran.Fail? then Some(Unwound) else None)
      requires ran.Value? ==> owner.Some? && lock.None? && lockHeld && !denied && ceiling.Some?
      requires ran.Fail? ==> Explained(ran.failure)
      modifies this`outcomes, this`tail, this`blocks, this`lateStarts, this`directories, this`lock
      modifies this`obligation, this`panics, this`lostPanics, this`owner, this`denied
      ensures Left(this) && SettledHistory(outcomes)
      ensures r.Ok? <==> ran.Value?
      ensures ran.Fail? ==> r == Err(ran.failure) && outcomes == old(outcomes)
      ensures r.Err? <==> denied
      ensures r.Err? ==> Explained(r.error)
      ensures r == Err(Capacity) ==> creationAttempts == limits.maxCreatedDirectories
      ensures owner.Some? ==> lock.None? && r.Err?
      ensures lockHeld ==> r.Ok? || lock.Some? || owner.Some?
      ensures r.Ok? ==>
                && r.value == old(owner).value && lockHeld && lock.None? && panics == 0 && Normalized(path)
                && directories == old(directories) && LockSeen(outcomes) && LockTaken(outcomes)
                && outcomes == old(outcomes)
    {
      hide SettledHistory, AllWellFormed, CreatedIn, Spell, Normalized, Attempt.Always, Attempt.Explained;
      hide Attempt.Comps, LockSeen, LockTaken, AllPlaced, AllCaused;
      var failure := WindUp(ran);
      Accounted();
      BlocksSettle(blocks);
      if failure.None? {
        r := Ok(owner.value);
        owner := None;
      } else {
        r := Err(failure.value);
        if failure.value.Capacity? {
          AtLimit();
        }
        denied := true;
      }
    }

    method Run() returns (r: Flow<()>)
      requires Fresh()
      modifies this, clock
      ensures Always()
      ensures !r.Panic? ==> Settled()
      ensures Kept(0, 0, 3, if r.Fail? then Some(Unwound) else None)
      ensures r.Value? ==>
                && owner.Some? && lock.None? && lockHeld && !denied && owner.value.canonical == path && ceiling.Some?
                && clock.now < expiry
                && Acquired(owner.value, firstWalk, secondWalk, directories, namedLock, Comps())
      ensures expiry <= old(clock.now) ==> r == Fail(Expired) && outcomes == old(outcomes)
      ensures r.Fail? ==> Explained(r.failure)
      ensures r.Value? ==> StillClean()
    {
      hide Attempt.Always, Attempt.Explained, Attempt.Comps, Walked, Chained, Acquired, Clean;
      r := Start();
      if !r.Value? {
        return;
      }
      var root := FirstWalk();
      if !root.Value? {
        return root.Then();
      }
      r := LockAndComplete(root.value);
    }
  }

  /** What every acquisition leaves behind, as far as money, calls and custody go. */
  ghost predicate Left(a: Attempt)
    reads a
  {
    && a.obligation.None? && a.outcomes == Spell(a.blocks) && AllWellFormed(a.blocks)
    && a.createdDirectories == CreatedIn(a.blocks) <= a.creationAttempts <= a.limits.maxCreatedDirectories
    && a.lateStarts == 0 && a.lostPanics == 0
    && (a.outcomes != [] ==>
          a.ceiling.Some? && |a.outcomes| + a.ceiling.value.files + 1 <= a.usage.calls <= a.ceiling.value.calls)
    && (a.exact ==> !a.feeRefused)
    && (a.ceiling.None? ==> a.directories == [] && a.firstWalk == [])
    && (a.ceiling.Some? ==>
          |a.directories| <= a.ceiling.value.files && |a.firstWalk| <= a.ceiling.value.components + 1)
    && AllPlaced(a.outcomes, a.firstWalk, a.secondWalk, a.Comps()) && AllCaused(a.outcomes)
    && AllRecorded(a.outcomes, a.directories, a.lock, a.owner, a.namedLock)
    && (a.lockHeld ==> LockTaken(a.outcomes))
  }

  /**
   * One acquisition, whatever the kernel, the clock, the allocator and the observer do.
   */
  method AcquireDirectory(path: Bytes, limits: AcquireLimits, sizes: Sizes, expiry: nat, clock: Clock)
    returns (r: Result<Owner, Failure>, a: Attempt)
    modifies clock
    ensures fresh(a) && a.path == path && a.limits == limits && a.expiry == expiry && a.clock == clock
    ensures Left(a) && SettledHistory(a.outcomes)
    ensures r.Err? <==> a.denied
    ensures r.Err? ==> a.Explained(r.error)
    ensures r.Ok? ==> clock.now < expiry
    ensures expiry <= old(clock.now) ==> r == Err(Expired) && a.outcomes == []
    ensures r == Err(Capacity) ==> a.creationAttempts == limits.maxCreatedDirectories
    ensures a.owner.Some? ==> a.lock.None? && r.Err?
    ensures a.lockHeld ==> r.Ok? || a.lock.Some? || a.owner.Some?
    ensures r.Ok? ==>
              && a.lockHeld && a.lock.None? && a.panics == 0
              && r.value.canonical == path && Normalized(path)
              && Acquired(r.value, a.firstWalk, a.secondWalk, a.directories, a.namedLock, a.Comps())
              && Witnessed(a.outcomes, a.firstWalk, a.secondWalk, a.namedLock.value, a.Comps()) && Clean(a.outcomes)
  {
    hide Clean, SettledHistory, Witnessed, AllPlaced, AllCaused, AllRecorded, AllWellFormed, LockSeen, LockTaken;
    hide Walked, Matched, Chained;
    hide Attempt.Always, Attempt.Comps, Attempt.Explained;
    a := new Attempt(path, limits, sizes, expiry, clock);
    Nothing();
    var ran := a.Run();
    r := a.Finish(ran);
    if r.Ok? {
      ForgetLock(a.outcomes, a.directories, a.lock, a.owner, a.namedLock);
      SuccessWitnessed(a.outcomes, a.firstWalk, a.secondWalk, a.Comps(), a.directories, a.namedLock.value);
    }
  }

  lemma Nothing()
    ensures Clean([])
  {
  }

  lemma ForgetLock(outcomes: seq<Observation>, slots: seq<Slot>, lock: Option<Fd>, owner: Option<Owner>, named: Option<Stat>)
    requires AllRecorded(outcomes, slots, lock, owner, named)
    ensures AllRecorded(outcomes, slots, None, None, named)
  {
  }
}
