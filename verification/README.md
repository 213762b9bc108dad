# shard-stream: storage ownership and indexing, modelled in Dafny

shard-stream keeps append-only shards on local disk.  This project models the parts of it
that have to stay right under every failure, and proves what they promise:

- the segmented ordered indexes (`DenseMap`, `AppendMap`): a dense-key map in a deque of
  aligned segments, and an insertion-ordered map with a hash lookup over it;
- the shared directory budget (`Budget`): cumulative counters, a deadline that only moves
  earlier, and a refusal that nothing undoes;
- directory acquisition (`AcquireCost`, `Acquire`): a cost ceiling computed from the path
  alone, two no-follow walks, creation of missing directories, an advisory lock, and
  prepaid syncs that are attempted after expiry, native errors and observer panics;
- atomic file replacement and no-replace publication (`Disk`, `Replacement`,
  `Publication`) on a directory that may crash after any effect;
- bounded validation of directory handles (`Lookup`, `Validation`) against the ordinary
  recursive validation, on a filesystem with symlinks, permissions and canonicalization;
- the consuming bridges (`Denial`, `FetchValidation`, `Bridge`): store to log, and log to
  read and back, with composed denial and linear custody;
- the byte-bounded channel (`Channel`) as a state machine over its atomic steps.

## Reading the model

Native results, clock readings (which never decrease), allocator behaviour, observer and
callback panics, and the actions of other clones or threads are arbitrary: they are
nondeterministic choices in methods, or universally quantified parameters of lemmas.  A
panic is an explicit value (`Unwind`, `Panic`, `Unwinding`), so that "whatever unwinds" is
a statement about all runs.  Source branches that report a broken internal invariant are
not modelled as results: the model asserts that they cannot be reached.  Machine sizes are
64-bit with checked sums; the sizes of native values are arbitrary.

`AcquireDirectory`, `ReplaceFileUntil`, `PublicationIsSafe`, `PublicationIsExact`,
`OrdinaryAcceptance`, `ValidateUntil`, `IntoShardLogUntil`, `Rounds`, `BytesAreConserved`,
`ItemsAreFifo`, `FirstRefusalIsFinal` and the two `Replay` methods are the main results;
most other rows are the steps they are built from.

Two laws hold only under a condition, which is stated exactly:

- A list of charges whose totals fit is accepted in every order only if no single charge
  has more string than declared bytes.  `Budget.OrderCanDecide` gives two charges that are
  accepted in one order and refused in the other; `Budget.ExactFit` is the equivalence.
- Bounded and ordinary validation do not accept the same handles.
  `Validation.OrdinaryAcceptsUnreadable` gives a handle that only the ordinary form
  accepts; `Validation.BoundedIsOrdinary` is the equivalence, and it contains the
  refinement that the deadline API promises.

## Model

| member | source | states |
|---|---|---|
| `DenseMap.Locate` | crates/ordered-segment-map/src/dense.rs:330-341 | dividing the key by the segment capacity, relative to the first segment's block, names the one segment and offset that hold the key, for any unaligned first segment |
| `DenseMap.LayoutPush` | crates/ordered-segment-map/src/dense.rs:127-160 | appending keeps blocks consecutive and segments inside one block each, and appends exactly one value to the flattened contents |
| `DenseMap.LayoutTrim` | crates/ordered-segment-map/src/dense.rs:188-238 | removing a prefix of the first segment, or all of it, keeps the alignment invariant and drops exactly that prefix of the contents |
| `DenseMap.LayoutSet` | crates/ordered-segment-map/src/dense.rs:172-178 | mutation through a found position changes one value and no layout |
| `DenseMap.IterationIsSuffix` | crates/ordered-segment-map/src/dense.rs:278-303 | iterating from a found position yields the pairs of the retained suffix in key order |
| `DenseMap.DenseOrderedMap.constructor` | crates/ordered-segment-map/src/dense.rs:85-96 | a new map is valid and empty at any first key |
| `DenseMap.DenseOrderedMap.Position` | crates/ordered-segment-map/src/dense.rs:330-341 | a position is found exactly for keys in [first, next), and no subtraction or conversion on the way can fail |
| `DenseMap.DenseOrderedMap.Get` | crates/ordered-segment-map/src/dense.rs:165-168 | the value of the reference sequence at key minus first key, or nothing outside |
| `DenseMap.DenseOrderedMap.Push` | crates/ordered-segment-map/src/dense.rs:127-160 | which of the errors is returned and exactly when; success appends one value, restarting at any key when empty; failure changes nothing and gives the value back |
| `DenseMap.DenseOrderedMap.Set` | crates/ordered-segment-map/src/dense.rs:172-178 | replaces exactly the addressed value and returns the old one |
| `DenseMap.DenseOrderedMap.PopFront` | crates/ordered-segment-map/src/dense.rs:188-202 | removes and returns the first key and value, across segment ends |
| `DenseMap.DenseOrderedMap.TruncateBefore` | crates/ordered-segment-map/src/dense.rs:207-238 | removes exactly the retained keys below the bound and returns their number, without moving past the next key |
| `DenseMap.DenseOrderedMap.IterFromIsSuffix` | crates/ordered-segment-map/src/dense.rs:278-303 | `iter_from` yields exactly the retained pairs from the clamped key on |
| `DenseMap.DenseOrderedMap.IterFromPairs` | crates/ordered-segment-map/src/dense.rs:278-303 | the i-th pair of `iter_from` is the i-th key from the clamped start on with the value of the contents there, and there are as many pairs as retained keys from there |
| `DenseMap.DenseOrderedMap.BinarySearchBy` | crates/ordered-segment-map/src/dense.rs:311-328 | for a comparator ordered Less, Equal, Greater: a matching key if there is one, otherwise the exact insertion key; the loop never leaves the retained range |
| `DenseMap.DenseOrderedMap.Perform` | crates/ordered-segment-map/src/dense.rs:127-238 | every operation, with its refusals, is one step of the reference (first key, values) |
| `DenseMap.DenseOrderedMap.Replay` | crates/ordered-segment-map/src/dense.rs:127-341 | any run of operations refines the reference run, and afterwards every lookup answers from it |
| `AppendMap.IndexOf` | crates/ordered-segment-map/src/sparse.rs:84-145 | the first index of a key in an association list, or its length |
| `AppendMap.CollectKeepsFirstKeysLastValues` | crates/ordered-segment-map/src/sparse.rs:225-256 | inserting any pair list into nothing gives each key once, by first occurrence, with its last value |
| `AppendMap.FirstOccurrencesAreTheKeys` | crates/ordered-segment-map/src/sparse.rs:225-240 | the collected keys are exactly the keys that occur |
| `AppendMap.InsertAllExtends` | crates/ordered-segment-map/src/sparse.rs:242-256 | insertions into any list with distinct keys: every old key keeps its place, new keys follow by first occurrence, and each key has its last value |
| `AppendMap.FoundIndex` | crates/ordered-segment-map/src/sparse.rs:84-145 | whatever satisfying slot the hash table returns, it names the key's one index, also under hash collisions |
| `AppendMap.IndexedPush` | crates/ordered-segment-map/src/sparse.rs:100-117 | inserting a new key keeps lookup slots in bijection with retained ordinals |
| `AppendMap.IndexedPop` | crates/ordered-segment-map/src/sparse.rs:168-180 | removing the oldest entry and its slot keeps the bijection |
| `AppendMap.OrderedAppendMap.Find` | crates/ordered-segment-map/src/sparse.rs:84-145 | under the weak promise of the hash table, a slot is found exactly for retained keys |
| `AppendMap.OrderedAppendMap.InsertPrehashed` | crates/ordered-segment-map/src/sparse.rs:84-117 | replaces in place, keeping the ordinal, or appends; returns the previous value; fails exactly when a new key finds no ordinal or length left |
| `AppendMap.OrderedAppendMap.GetPrehashed` | crates/ordered-segment-map/src/sparse.rs:131-145 | the value of the association list, or nothing |
| `AppendMap.OrderedAppendMap.PopFront` | crates/ordered-segment-map/src/sparse.rs:168-180 | removes the oldest pair; its lookup slot is always found |
| `AppendMap.OrderedAppendMap.TruncateFront` | crates/ordered-segment-map/src/sparse.rs:183-189 | removes min(count, length) oldest pairs and returns that number |
| `AppendMap.OrderedAppendMap.Extend` | crates/ordered-segment-map/src/sparse.rs:242-256 | the insertions in order: old keys keep their place, new ones follow by first occurrence, each key has its last value; no failure while key and length space remain, and a failure leaves the insertions of a proper prefix |
| `AppendMap.OrderedAppendMap.FromIter` | crates/ordered-segment-map/src/sparse.rs:225-240 | keys by first occurrence with their last values, for every pair list that fits |
| `AppendMap.OrderedAppendMap.Replay` | crates/ordered-segment-map/src/sparse.rs:84-189 | any run of inserts, replacements and prefix removals, with re-insertion, refines the association list while key and length space remain, and up to the failing change otherwise |
| `Budget.AdmitIsExact` | crates/shard-stream-core/src/native_directory_budget.rs:287-342 | checked admission accepts a fee exactly when the mathematical totals fit every limit, entries counting as work too |
| `Budget.ChargeIsExact` | crates/shard-stream-core/src/native_directory_budget.rs:287-342 | in any state a charge is accepted exactly when it is on time, the budget neither denied nor poisoned, and the plain totals fit; which error is answered otherwise, and what each answer leaves behind |
| `Budget.RefusalIsTerminal` | crates/shard-stream-core/src/native_directory_budget.rs:223-407 | after any refused section no charge can succeed |
| `Budget.TerminalStays` | crates/shard-stream-core/src/native_directory_budget.rs:223-407 | no later section of any clone revives a refused budget |
| `Budget.RunAccounts` | crates/shard-stream-core/src/native_directory_budget.rs:223-342 | over any run usage is the sum of the accepted charges and within every limit, and the deadline is the minimum of the original one and all caps |
| `Budget.FirstRefusalIsFinal` | crates/shard-stream-core/src/native_directory_budget.rs:223-407 | in every run in clock order, after the first refusal or denial every later charge and cap is refused |
| `Budget.SpendIsTotal` | crates/shard-stream-core/src/native_directory_budget.rs:287-342 | charging a list in order succeeds only within the limits and ends in the totals |
| `Budget.OrderedAlike` | crates/shard-stream-core/src/native_directory_budget.rs:287-342 | every accepted order of the same charges ends in the same usage |
| `Budget.ExactFit` | crates/shard-stream-core/src/native_directory_budget.rs:287-342 | a list is accepted in every order if and only if its totals fit and no single charge has more string than declared bytes |
| `Budget.OrderCanDecide` | crates/shard-stream-core/src/native_directory_budget.rs:287-342 | two charges that are accepted in one order and refused in the other |
| `Budget.ChargesSpend` | crates/shard-stream-core/src/native_directory_budget.rs:287-342 | before the deadline a run of charges answers as charging the list |
| `Budget.RefusedRunIsTerminal` | crates/shard-stream-core/src/native_directory_budget.rs:223-407 | a run in clock order in which some section refused is over |
| `Budget.NativeDirectoryBudget.EverRefusedIsRefused` | crates/shard-stream-core/src/native_directory_budget.rs:223-407 | the same of the shared object, whose state is at all times the run of every section by every clone |
| `Budget.NativeDirectoryBudget.Charge` | crates/shard-stream-core/src/native_directory_budget.rs:287-342 | under interference by other clones: the answer and the new usage are those of the exact charge on the state just before its section, or the original deadline had passed; accepted usage covers the usage at the call plus the fee; refused if and only if the budget is then terminal; a refusal is in the history |
| `Budget.NativeDirectoryBudget.CapExpiry` | crates/shard-stream-core/src/native_directory_budget.rs:223-240 | the deadline becomes the minimum of its value just before the section and the cap, also when the cap itself refuses; which refusal is answered, and when |
| `Budget.NativeDirectoryBudget.Deny` | crates/shard-stream-core/src/native_directory_budget.rs:280-286 | sets the sticky denial and nothing else |
| `Budget.NativeDirectoryBudget.Completed` | crates/shard-stream-core/src/native_directory_budget.rs:343-361 | success keeps the observed value and leaves a usable budget; a native error is reported as itself or as late, never lost and never invented; every error is final |
| `Budget.NativeDirectoryBudget.CompletedOptional` | crates/shard-stream-core/src/native_directory_budget.rs:362-384 | as before, where only a timely missing name becomes an empty answer |
| `Budget.NativeDirectoryBudget.Finish` | crates/shard-stream-core/src/native_directory_budget.rs:385-407 | any error of a composed phase leaves the budget denied and keeps its native cause |
| `AcquireCost.JoinSplit` | crates/shard-stream-core/src/directory_acquire_native.rs:26-51 | splitting a path at separators loses nothing |
| `AcquireCost.SplitJoin` | crates/shard-stream-core/src/directory_acquire_native.rs:750-756 | the components of a joined path are the names it was joined from |
| `AcquireCost.NormalizedIsRendered` | crates/shard-stream-core/src/directory_acquire_native.rs:26-51 | an accepted spelling is the rendering of its components, which are normal and free of separators and NUL |
| `AcquireCost.RenderedIsNormalized` | crates/shard-stream-core/src/directory_acquire_native.rs:26-51 | the converse: rendering any list of such names gives an accepted spelling with those components |
| `AcquireCost.Spelling` | crates/shard-stream-core/src/directory_acquire_native.rs:26-51 | accepts exactly the absolute, NUL-free, normalized spellings inside both limits, and returns the number of components |
| `AcquireCost.CostClosedForm` | crates/shard-stream-core/src/directory_acquire_native.rs:52-97 | when no checked step overflows the ceiling is the closed form in components and bytes |
| `AcquireCost.CeilingCovers` | crates/shard-stream-core/src/directory_acquire_native.rs:52-97 | a ledger that is linear in the prepaid calls, with its setup still due, stays under the ceiling on all five axes |
| `AcquireCost.LedgerCall` | crates/shard-stream-core/src/directory_acquire_native.rs:263-267 | paying for any number of calls with any accepted name keeps the ledger |
| `Acquire.OneSyncPerCreation` | crates/shard-stream-core/src/directory_acquire_native.rs:470-545 | a settled history has exactly as many parent syncs as successful creations |
| `Acquire.EveryCreationSettles` | crates/shard-stream-core/src/directory_acquire_native.rs:470-648 | in a settled history each successful creation is followed at once by its settlement: a directory is reopened, synced exactly if it reopened, and its own parent synced; a lock file and its parent are synced |
| `Acquire.SuccessWitnessed` | crates/shard-stream-core/src/directory_acquire_native.rs:649-728 | what the record of a success shows: in both walks the root opened from the filesystem and then each component, by its own name, in the directory before it; the lock created or opened in the last directory of the first walk and locked; its name looked up in the last directory of the second |
| `Acquire.Attempt.Fee` | crates/shard-stream-core/src/directory_acquire_native.rs:223-262 | adds exactly the fee or nothing; a refusal for capacity happens only above the ceiling and is final |
| `Acquire.Attempt.Entry` | crates/shard-stream-core/src/directory_acquire_native.rs:263-267 | with exact reservations only expiry can refuse an entry that the call ceiling allows, and what is recorded or owed stays prepaid |
| `Acquire.Attempt.Prepare` | crates/shard-stream-core/src/directory_acquire_native.rs:268-297 | prepays every close beside the setup; with exact reservations no fee is refused |
| `Acquire.Attempt.ReserveVectors` | crates/shard-stream-core/src/directory_acquire_native.rs:298-332 | the three vectors are paid for, and their excess, within the ledger |
| `Acquire.Attempt.Record` | crates/shard-stream-core/src/directory_acquire_native.rs:339-345 | a started call is recorded in a prepaid slot, on the directory and by the component where such a call belongs, and none starts after an observed expiry outside settlement |
| `Acquire.Attempt.PhysicalOpen` | crates/shard-stream-core/src/directory_acquire_native.rs:353-409 | a new descriptor is kept in its slot together with the record of the open |
| `Acquire.Attempt.Metadata` | crates/shard-stream-core/src/directory_acquire_native.rs:428-464 | only a directory, or a regular lock file with one link, is accepted, a mismatch is reported only of others, and the remembered identity is the pinned one |
| `Acquire.Attempt.SettleDirectory` | crates/shard-stream-core/src/directory_acquire_native.rs:470-545 | closes the creation with one reopening by the created name, a child sync exactly if it reopened, and one parent sync; success means all three succeeded; at most three panics are kept |
| `Acquire.Attempt.SettleLock` | crates/shard-stream-core/src/directory_acquire_native.rs:470-545 | closes the lock creation with one lock sync and one parent sync; success means both succeeded |
| `Acquire.Attempt.Settle` | crates/shard-stream-core/src/directory_acquire_native.rs:470-545 | leaves no obligation, and does nothing when there is none |
| `Acquire.Attempt.CreateMissing` | crates/shard-stream-core/src/directory_acquire_native.rs:546-598 | at most five calls; a directory is created only right after it was found missing in the same place; returns with the creation settled, or panics with it open and prepaid; a raced name is opened instead, and no other failed creation is passed over |
| `Acquire.Attempt.AcquireLock` | crates/shard-stream-core/src/directory_acquire_native.rs:599-648 | at most six calls; success holds the advisory lock of the kept file, by a recorded call that took it |
| `Acquire.Attempt.FirstWalk` | crates/shard-stream-core/src/directory_acquire_native.rs:649-678 | one kept, identified directory per component and the root, each opened or created in the one before it by the next component of the path, within two calls and seven per component |
| `Acquire.Attempt.SecondWalk` | crates/shard-stream-core/src/directory_acquire_native.rs:680-697 | success opened every component again, each in the one before it, and reached the very inodes of the first walk at every ancestor, the root included |
| `Acquire.Attempt.CheckNamedLock` | crates/shard-stream-core/src/directory_acquire_native.rs:698-728 | success means the lock named in the last directory of the second walk is a regular file with one link and the held file's identity, and the held file has one link too |
| `Acquire.Attempt.HandOver` | crates/shard-stream-core/src/directory_acquire_native.rs:729-747 | before the deadline the directory and the lock move once into an owner whose identities are the pinned ones |
| `Acquire.Attempt.Run` | crates/shard-stream-core/src/directory_acquire_native.rs:649-748 | no return without a panic leaves a creation unsettled; success is a complete, locked, revalidated owner |
| `Acquire.Attempt.Finish` | crates/shard-stream-core/src/directory_acquire_native.rs:768-796 | saves a panic in a free slot, settles what it left open, denies exactly on failure, and gives the owner away once |
| `Acquire.AcquireDirectory` | crates/shard-stream-core/src/directory_acquire_native.rs:762-796 | on every exit: no obligation, as many parent syncs as creations with each creation settled in its place, every recorded open and creation in the directory and by the component it belongs to, no creation but of a name just found missing, every kept descriptor in the record, no lost panic, no late start, recorded calls within the prepaid calls minus the prepaid closes, descriptors and walk within what was reserved, no refused fee while reservations are exact, created at most attempted at most allowed, a held lock in exactly one place and taken by a recorded call, and each failure explained by what the attempt retained: the deadline passed and seen, the failing call and not a lost race, the creation limit reached, a refused fee or reservation, a spelling outside the limits, a saved panic, or an identity that does not fit; a deadline that has passed already starts no call; success comes before the deadline, is a validated owner whose two recorded descents follow the path, and has seen no failed call but lost races and missing components |
| `Disk.CrashAfterPerform` | crates/shard-stream-core/src/owned_file_replacement.rs:542-657 | a crash after a name operation finds a prefix of the old operations, or all of them and the new one |
| `Disk.CrashAfterPartialSync` | crates/shard-stream-core/src/owned_file_replacement.rs:513-525 | a sync that hardened a prefix leaves only crash results that were possible before |
| `Replacement.RenameCommits` | crates/shard-stream-core/src/owned_file_replacement.rs:542-657 | renaming a complete synced temporary over the destination leaves, in every crash, the old file or the complete body |
| `Replacement.PerformKeepsNames` | crates/shard-stream-core/src/owned_file_replacement.rs:542-657 | creating the temporary or renaming it over the destination leaves every other name, in every crash, as some crash of the start had it; the temporary name holds the new file or what it could hold before |
| `Replacement.SyncKeepsSafe` | crates/shard-stream-core/src/owned_file_replacement.rs:513-525 | any partial parent sync keeps that |
| `Replacement.SyncKeepsNames` | crates/shard-stream-core/src/owned_file_replacement.rs:513-525 | any partial parent sync keeps that of every other name |
| `Replacement.CostIsExact` | crates/shard-stream-core/src/owned_file_replacement.rs:381-426 | a cost is given exactly for two different literal names within the limits whose closed-form totals fit the machine |
| `Replacement.SpellStep` | crates/shard-stream-core/src/owned_file_replacement.rs:542-657 | each recorded outcome extends the trace by its one allowed next phase |
| `Replacement.Scope.OpenTemporary` | crates/shard-stream-core/src/owned_file_replacement.rs:543-553 | the temporary is created only under a name that is free, and otherwise nothing has changed; success leaves an empty new file |
| `Replacement.Scope.WriteCall` | crates/shard-stream-core/src/owned_file_replacement.rs:542-657 | short, zero, interrupted and failing writes of one bounded chunk: the temporary holds exactly the prefix that was reported written |
| `Replacement.Scope.WriteChunk` | crates/shard-stream-core/src/owned_file_replacement.rs:542-657 | an interrupted write is not a failure, an empty one is, and each other failure names its failing call |
| `Replacement.Scope.WriteAll` | crates/shard-stream-core/src/owned_file_replacement.rs:542-657 | success wrote the whole body within the call limit |
| `Replacement.Scope.SyncParent` | crates/shard-stream-core/src/owned_file_replacement.rs:513-525 | started at most once per replacement, and success makes every name durable |
| `Replacement.Scope.RenameAndSync` | crates/shard-stream-core/src/owned_file_replacement.rs:542-657 | a rename that succeeded is synced whatever the clock says; success is a durable new name |
| `Replacement.Scope.Run` | crates/shard-stream-core/src/owned_file_replacement.rs:542-657 | every crash point safe, the trace in shape, every call prepaid, and success committed, revalidated before and after, with only good results and the first and the last stat on one plain file |
| `Replacement.Scope.RetainUnwind` | crates/shard-stream-core/src/owned_file_replacement.rs:526-541 | denies first, and settles a rename that was attempted without a parent sync |
| `Replacement.ReplaceFileUntil` | crates/shard-stream-core/src/owned_file_replacement.rs:675-788 | for every write result, refusal and panic: each crash point has the old file or the complete body under the destination, all other files, and every other name as the start could have it; an existing temporary is refused and nothing has changed; the outcomes spell an allowed trace of at most max_write_calls + 6, each prepaid from the budget, with writes of bounded chunks; at most one parent sync and exactly one if renamed; errors leave the budget denied, and a denied or late budget refuses at once; success is durable, on time, revalidated twice and without a failed call but interrupted writes; a failure other than a panic names its failing call, or a refusal in the budget's own history, or the exhausted write calls, or an answer of the environment; names or limits outside their bounds are refused before anything else |
| `Publication.ClocksOnlyCutShort` | crates/shard-stream-core/src/owned_directory_handle.rs:288-334 | clock checks only make the effects a prefix |
| `Publication.UntilIsPlainWithClocks` | crates/shard-stream-core/src/owned_directory_handle.rs:255-334 | the deadline form is the plain form with clock checks between |
| `Publication.OkIsTimely` | crates/shard-stream-core/src/owned_directory_handle.rs:346-355 | a run that is still going has read every one of its clock checks before the deadline |
| `Publication.DeadlineStops` | crates/shard-stream-core/src/owned_directory_handle.rs:346-355 | when a clock check is the first that is late, the run refuses with exactly the effects of the phases before that check |
| `Publication.PhaseStep` | crates/shard-stream-core/src/owned_directory_handle.rs:255-281 | each phase leads to the next stage or to a safe stop, partial parent syncs included |
| `Publication.PublicationIsExact` | crates/shard-stream-core/src/owned_directory_handle.rs:255-334 | a publication succeeds if and only if its name and parent are good, the source is the file under its name, the final name is free, every native call succeeds, and no clock check is late |
| `Publication.PublicationIsSafe` | crates/shard-stream-core/src/owned_directory_handle.rs:255-334 | every crash point keeps a durable source reachable under its source or final name and replaces no name; an existing final name is refused; success leaves exactly the final name, durably |
| `Publication.Publisher.PublishNewFile` | crates/shard-stream-core/src/owned_directory_handle.rs:255-334 | the same of the directory changed in place, with or without a deadline: safe at every crash point, successful exactly when granted and on time, and unchanged when the deadline has passed already |
| `Lookup.OpenIsReach` | crates/shard-stream-core/src/directory_validation_until.rs:372-391 | the descriptor walk succeeds exactly where every step is a directory that may be read |
| `Lookup.ReachIsWalk` | crates/shard-stream-core/src/directory_validation_until.rs:349-390 | where the descriptor walk goes, a symlink-following lookup goes too |
| `Lookup.ReachIsReal` | crates/shard-stream-core/src/directory_ownership.rs:225-251 | canonicalizing a path of plain directories gives the path itself |
| `Lookup.AncestorsReach` | crates/shard-stream-core/src/directory_ownership.rs:262-277 | if the path exists and every ancestor is a real directory, the descriptor walk reaches the same inode |
| `Validation.ScanIsAncestors` | crates/shard-stream-core/src/directory_ownership.rs:262-277 | the ancestor scan succeeds exactly if each prefix is a real directory or missing |
| `Validation.OwnerAcceptance` | crates/shard-stream-core/src/directory_ownership.rs:225-277 | for a valid owner the two lookups, the ancestor scan and the canonical name together mean one plain descent: the canonical components lead through real directories to the owned one, which names the owned lock, a regular file with one link |
| `Validation.OrdinaryAcceptance` | crates/shard-stream-core/src/owned_directory_handle.rs:160-170 | ordinary validation accepts a handle of any depth if and only if every name still leads to what was retained: the root owner's, the root's own path to its directory, and each child's name, looked up in its parent, to that child's directory |
| `Validation.OwnersAgree` | crates/shard-stream-core/src/directory_validation_until.rs:337-413 | for a valid owner the bounded and ordinary root policies differ only in the permission to read on the way |
| `Validation.BoundedIsOrdinary` | crates/shard-stream-core/src/owned_directory_handle.rs:160-170 | for a handle of any depth: bounded validation accepts if and only if ordinary validation accepts, the root is named canonically, the way may be read and each child name is one component |
| `Validation.OrdinaryAcceptsUnreadable` | crates/shard-stream-core/src/directory_validation_until.rs:337-413 | a concrete root that only ordinary validation accepts |
| `Validation.CheckedAncestors` | crates/shard-stream-core/src/directory_validation_until.rs:354-369 | success means every ancestor is fine, in at most one call each, and a reported mismatch is real |
| `Validation.CheckedOpens` | crates/shard-stream-core/src/directory_validation_until.rs:372-391 | success is the descriptor walk's result, in at most one call per component and the root |
| `Validation.CheckedRoot` | crates/shard-stream-core/src/directory_validation_until.rs:337-413 | success implies the bounded root policy, a reported mismatch its failure, and the calls stay within the published cost |
| `Validation.RootCostIsClosed` | crates/shard-stream-core/src/directory_validation_until.rs:220-284 | the cost is the closed form in the path's length on all four axes, and is refused exactly when that overflows |
| `Validation.ValidateEntryUntil` | crates/shard-stream-core/src/owned_directory_until.rs:319-356 | success means a single-component name within the limits that names the retained directory, with three prepaid calls, and a reported mismatch is real |
| `Validation.ValidateHandle` | crates/shard-stream-core/src/owned_directory_until.rs:266-318 | recursion over the parent chain from one budget, within the depth, path and name limits, with every native call prepaid and both directions of the decision |
| `Validation.ValidateUntil` | crates/shard-stream-core/src/owned_directory_until.rs:434-443 | success implies ordinary success at any depth, so that every name on the chain leads to what was retained, on time, within the limits and with every native call prepaid; a reported mismatch is real, and every refusal leaves the budget denied |
| `Denial.Work.Check` | crates/shard-stream-core/src/owned_pinned_shard_log.rs:132-156 | passes only if both budgets and the outer health do, and so never after the outer denial; keeps the denial state |
| `Denial.Work.DenyOuter` | crates/shard-stream-core/src/owned_pinned_shard_log.rs:175-183 | called only after both budgets were denied, and an unwinding attempt is the only one |
| `Denial.Work.DenyBridge` | crates/shard-stream-core/src/owned_pinned_shard_log.rs:184-190 | both budgets first, then the one outer denial |
| `Denial.Work.DenyFromValidation` | crates/shard-stream-core/src/owned_pinned_shard_log.rs:208-219 | the validator's callback makes the outer denial after both budgets |
| `Denial.Work.DenyFromProducer` | crates/shard-stream-core/src/owned_pinned_shard_log.rs:220-228 | the storage producer's callback denies the directory budget before the outer denial |
| `FetchValidation.Checkpoint` | crates/shard-stream-core/src/owned_directory_validation_checked.rs:233-257 | both budgets around the composed check; never passes after the outer denial |
| `FetchValidation.FetchOwner` | crates/shard-stream-core/src/directory_validation_checked.rs:20-173 | success implies the bounded root policy |
| `FetchValidation.FetchHandle` | crates/shard-stream-core/src/owned_directory_validation_checked.rs:762-908 | success implies the bounded policy for the whole parent chain within the depth, path and name limits, and that no check or reservation on the way failed |
| `FetchValidation.DenyAll` | crates/shard-stream-core/src/owned_directory_validation_checked.rs:448-462 | denies both budgets, then the composed check once |
| `FetchValidation.ValidateForFetch` | crates/shard-stream-core/src/owned_directory_validation_checked.rs:930-982 | keeps the consumed handle; success implies ordinary success and its meaning, that no check or reservation failed, and denies nothing; every refusal or unwinding has made the outer denial; the directory deadline is capped to the storage deadline |
| `Bridge.Reports.Validate` | crates/shard-stream-core/src/owned_pinned_shard_log.rs:296-334 | the whole validation outcome is kept before it is judged |
| `Bridge.Scope.Convert` | crates/shard-stream-core/src/owned_pinned_shard_log.rs:335-391 | the native store, or the log it became, stays in exactly one place, and it is a log exactly if the native conversion succeeded |
| `Bridge.Scope.Run` | crates/shard-stream-core/src/owned_pinned_shard_log.rs:335-391 | on every exit store and directory are each in exactly one place; success is a log with both validations |
| `Bridge.IntoShardLogUntil` | crates/shard-stream-core/src/owned_pinned_shard_log.rs:776-807 | a refusing conversion calls the outer denial exactly once, after both budgets were denied, even if it unwinds; a successful one never does, and had every check pass; custody is linear, and a store that was converted natively is kept as its log also by a late refusal; a budget that is denied or late, or a cost that overflows, refuses |
| `Bridge.ReadScope.Prepare` | crates/shard-stream-core/src/owned_pinned_shard_read.rs:193-237 | the log moves into the context and its native log into the read, each still in one place |
| `Bridge.ReadScope.ReadNative` | crates/shard-stream-core/src/owned_pinned_shard_read.rs:306-349 | the native read is made once, with the caller's request, under a borrowed pin; whatever it returned is kept whole before the next check |
| `Bridge.ReadScope.Run` | crates/shard-stream-core/src/owned_pinned_shard_read.rs:306-367 | every exit keeps the native log in one place, the records the native read returned, and the constructor's reports |
| `Bridge.ReadFromUntil` | crates/shard-stream-core/src/owned_pinned_shard_read.rs:781-873 | one outer denial on refusal and none on success; success returns exactly the records of the one native read of this request, the same context, and the native log once, with every check passed; a refusal after the native read keeps its records |
| `Bridge.IntoLog` | crates/shard-stream-core/src/owned_pinned_shard_read.rs:470-480 | the restored log is the same object with its directory and constructor reports unchanged |
| `Bridge.Rounds` | crates/shard-stream-core/src/owned_pinned_shard_read.rs:781-873 | any number of read and restore rounds keeps the log, and each round gives the records of its own native read; the first refusal still holds the log and what that read returned, and makes the only outer denial |
| `Channel.StepKeepsInv` | crates/shard-stream-core/src/channel.rs:57-190 | every atomic step keeps used bytes equal to the live charges, within the budget, and the queue exact |
| `Channel.BytesAreConserved` | crates/shard-stream-core/src/channel.rs:57-190 | so does every interleaving from a new channel |
| `Channel.AdmissionIsExact` | crates/shard-stream-core/src/channel.rs:57-68 | in every interleaving a reservation adds its charge if and only if it fits beside the live charges, and a drained channel has no bytes used |
| `Channel.ReleaseNeverUnderflows` | crates/shard-stream-core/src/channel.rs:70-73 | no release of any interleaving subtracts more than the counter holds |
| `Channel.DeliveryIsFifo` | crates/shard-stream-core/src/channel.rs:166-215 | what was sent is what was taken followed by what is queued |
| `Channel.ItemsAreFifo` | crates/shard-stream-core/src/channel.rs:166-215 | in every interleaving the items received are the items sent, in order and unchanged, and while the receiver is there all the others are still queued |

## Left out

- HTTP client, retry sleeps, JSON and environment parsing: network plumbing.
- Benchmarks and examples: measurement code.
- The `shardlog` crate: its store, log and storage budget appear only through what the
  bridges need of them; a producer may check any number of times, denies its own budget
  before calling back, and returns; which records a read finds is its own affair.
- The append, collection, write and shard-directory bridges: the same protocol as the
  conversion and the read.
- fencing, ids and replication: declarations and plain data.
- Display, Debug, Error sources and observation accessors: one-branch reads.
- `iter_mut`, `values_mut`, `reserve` and capacity accessors of the maps: they add nothing
  beyond `Set` and the layout invariant.
- The configured ceilings of the directory budget and of the bridges, which only sum
  constants: `native_directory_cost` and the two bridge cost functions.  A bridge takes its
  checked cost as a parameter, and the model charges arbitrary fees where the other
  constants are spent.
- Kernel behaviour that changes names during a validation: the source promises nothing then.
- Refusals that only the environment decides, such as a failed reservation or a refused
  directory operation, are recorded as such: why they happen is not modelled.
- The open operations of the deadline handle API: they compose the validation modelled here
  with one open each.
- Acquire.Attempt.PhysicalOpen: a descriptor's identity and type are fixed when it is
  opened, as an open inode's are; its link count may change at any time.
- Acquire.Attempt.HandOver: the second comparison of the lock's identity is an assertion,
  because an open descriptor cannot change its own.
- Replacement.Scope.ValidateFile: the bounded revalidation of parent and file is one step
  that may refuse or unwind; what it decides is modelled in `Validation`.
- Replacement.Scope.WriteCall: a write that reports an error, interruption included, is
  taken to have written nothing, as the write interface promises.
- Publication.Effect: whether the final name is one literal component, and whether the
  file belongs to this parent, are parameters; the phases are run from a list so that the
  two forms can be compared.
- FetchValidation.Phase: the vector that keeps every native result is not modelled, only
  that its growth may be refused.
- Budget.NativeDirectoryBudget.Deny: lock poisoning is an event of the shared state; a
  panic inside the lock itself is not modelled.
- The value of `available_bytes` in a channel refusal: it is read again after the refusal
  and carries no exact promise.
