/**
 * No-replace publication: link an already written file under its final name, sync the
 * parent, unlink the temporary name and sync again.
 *
 * The plain form and the deadline form are the same sequence of phases; the deadline form
 * has clock checks between them.  A run executes the phases in order and stops at the
 * first one that refuses.  `Env` fixes how every native call and clock check answers.
 */
module Publication {
  import opened Disk
  import opened Wrappers

  datatype Phase =
    | ClockCheck
    | CheckName
    | ValidateParent
    | ValidateSource
    | SameParent
    | SyncSource
    | LinkFinal
    | ValidateFinal
    | SyncParent
    | UnlinkSource

  const PLAIN: seq<Phase> := [
    CheckName, ValidateParent, ValidateSource, SameParent, SyncSource, LinkFinal, ValidateFinal,
    SyncParent, ValidateSource, ValidateFinal, UnlinkSource, SyncParent, ValidateFinal, ValidateParent]

  const UNTIL_ENTRY: seq<Phase> := [
    ClockCheck, CheckName, ClockCheck, ClockCheck, ValidateParent, ClockCheck, ValidateSource, SameParent]
  const UNTIL_LINK: seq<Phase> := [
    ClockCheck, SyncSource, ClockCheck, LinkFinal, ClockCheck, ValidateFinal, ClockCheck, SyncParent]
  const UNTIL_UNLINK: seq<Phase> := [
    ClockCheck, ValidateSource, ClockCheck, ValidateFinal, ClockCheck, UnlinkSource, ClockCheck, SyncParent]
  const UNTIL_CLOSE: seq<Phase> := [ClockCheck, ValidateFinal, ClockCheck, ValidateParent, ClockCheck]

  const UNTIL: seq<Phase> := UNTIL_ENTRY + (UNTIL_LINK + (UNTIL_UNLINK + UNTIL_CLOSE))

  /** How one native call answers; a failed directory sync may harden a prefix. */
  datatype Reply = Reply(ok: bool, hardened: nat)

  datatype Env = Env(native: nat -> Reply, expired: nat -> bool)

  /** The file being published and where. */
  datatype Request = Request(source: Name, inode: Inode, final: Name, nameOk: bool, sameParent: bool)

  /** `crashPoints` are the directory states after each effect, from the start on. */
  datatype Run = Run(disk: Directory, ok: bool, natives: nat, clocks: nat, crashPoints: seq<Directory>)

  function Begin(d: Directory): Run {
    Run(d, true, 0, 0, [d])
  }

  /** The effect of one non-clock phase, and whether the next phase may start. */
  function Effect(q: Request, d: Directory, phase: Phase, reply: Reply): (Directory, bool) {
    match phase
    case ClockCheck => (d, true)
    case CheckName => (d, q.nameOk)
    case ValidateParent => (d, reply.ok)
    case ValidateSource => (d, reply.ok && Lookup(Live(d), q.source) == Some(q.inode))
    case SameParent => (d, q.sameParent)
    case SyncSource => if reply.ok then (SyncFile(d, q.inode), true) else (d, false)
    case LinkFinal =>
      if reply.ok && q.final !in Live(d) && q.source in Live(d)
      then (Perform(d, Link(q.final, Live(d)[q.source])), true)
      else (d, false)
    case ValidateFinal => (d, reply.ok && Lookup(Live(d), q.final) == Some(q.inode))
    case SyncParent =>
      if reply.ok then (SyncDirectory(d), true)
      else (PartialSync(d, if reply.hardened <= |d.pending| then reply.hardened else |d.pending|), false)
    case UnlinkSource =>
      if reply.ok && q.source in Live(d) then (Perform(d, Unlink(q.source)), true) else (d, false)
  }

  function Advance(q: Request, env: Env, r: Run, phase: Phase): Run {
    if !r.ok then r
    else if phase.ClockCheck? then r.(ok := !env.expired(r.clocks), clocks := r.clocks + 1)
    else
      var (d, ok) := Effect(q, r.disk, phase, env.native(r.natives));
      Run(d, ok, r.natives + 1, r.clocks, r.crashPoints + [d])
  }

  function Execute(q: Request, env: Env, start: Directory, phases: seq<Phase>): Run
    decreases |phases|
  {
    if phases == [] then Begin(start)
    else Advance(q, env, Execute(q, env, start, phases[..|phases| - 1]), phases[|phases| - 1])
  }

  // ---------------------------------------------------------------- the deadline form

  function WithoutClocks(phases: seq<Phase>): seq<Phase>
    decreases |phases|
  {
    if phases == [] then []
    else
      var front := WithoutClocks(phases[..|phases| - 1]);
      if phases[|phases| - 1].ClockCheck? then front else front + [phases[|phases| - 1]]
  }

  /** A timed run has done a prefix of a plain one, and all of it as long as it is going. */
  ghost predicate CutShort(timed: Run, plain: Run) {
    && timed.crashPoints <= plain.crashPoints
    && (timed.ok ==> plain.ok && timed.disk == plain.disk && timed.natives == plain.natives
                     && timed.crashPoints == plain.crashPoints)
  }

  lemma ClockStep(q: Request, env: Env, timed: Run, plain: Run)
    requires CutShort(timed, plain)
    ensures CutShort(Advance(q, env, timed, ClockCheck), plain)
  {
  }

  lemma NativeStep(q: Request, env: Env, timed: Run, plain: Run, phase: Phase)
    requires CutShort(timed, plain) && !phase.ClockCheck?
    ensures CutShort(Advance(q, env, timed, phase), Advance(q, env, plain, phase))
  {
    hide Effect;
  }

  /** Clock checks only cut a run short: its effects are a prefix of the plain run's. */
  lemma {:induction false} ClocksOnlyCutShort(q: Request, env: Env, start: Directory, phases: seq<Phase>)
    ensures CutShort(Execute(q, env, start, phases), Execute(q, env, start, WithoutClocks(phases)))
    decreases |phases|
  {
    hide Advance, CutShort;
    if phases == [] {
      NothingCut(start);
    } else {
      var n := |phases| - 1;
      var front, last := phases[..n], phases[n];
      ClocksOnlyCutShort(q, env, start, front);
      var shorter := WithoutClocks(front);
      var timed, plain := Execute(q, env, start, front), Execute(q, env, start, shorter);
      if last.ClockCheck? {
        ClockStep(q, env, timed, plain);
      } else {
        assert (shorter + [last])[..|shorter|] == shorter && (shorter + [last])[|shorter|] == last;
        NativeStep(q, env, timed, plain, last);
      }
    }
  }

  lemma NothingCut(start: Directory)
    ensures CutShort(Begin(start), Begin(start))
  {
  }

  function ClockCount(phases: seq<Phase>): nat
    decreases |phases|
  {
    if phases == [] then 0
    else ClockCount(phases[..|phases| - 1]) + if phases[|phases| - 1].ClockCheck? then 1 else 0
  }

  /** The first `n` clock readings of the run were before the deadline. */
  ghost predicate Timely(env: Env, n: nat) {
    forall c :: 0 <= c < n ==> !env.expired(c)
  }

  /** The same run, but for the clock readings. */
  ghost predicate Alike(timed: Run, plain: Run) {
    timed == plain.(clocks := timed.clocks)
  }

  /** A run that is still going has read every clock check before the deadline. */
  lemma {:induction false} OkIsTimely(q: Request, env: Env, start: Directory, phases: seq<Phase>)
    ensures var r := Execute(q, env, start, phases);
            r.ok ==> r.clocks == ClockCount(phases) && Timely(env, r.clocks)
    decreases |phases|
  {
    if phases != [] {
      hide Effect;
      OkIsTimely(q, env, start, phases[..|phases| - 1]);
    }
  }

  /** Clock checks before the deadline change nothing. */
  lemma {:induction false} TimelyIsPlain(q: Request, env: Env, start: Directory, phases: seq<Phase>)
    requires Timely(env, ClockCount(phases))
    ensures Alike(Execute(q, env, start, phases), Execute(q, env, start, WithoutClocks(phases)))
    decreases |phases|
  {
    if phases != [] {
      hide Effect;
      var n := |phases| - 1;
      var front, last := phases[..n], phases[n];
      TimelyIsPlain(q, env, start, front);
      OkIsTimely(q, env, start, front);
      var shorter := WithoutClocks(front);
      if !last.ClockCheck? {
        assert (shorter + [last])[..|shorter|] == shorter && (shorter + [last])[|shorter|] == last;
      }
    }
  }

  lemma {:induction false} ClocksBefore(phases: seq<Phase>, k: nat)
    requires k < |phases| && phases[k].ClockCheck?
    ensures ClockCount(phases[..k]) < ClockCount(phases)
    decreases |phases|
  {
    var n := |phases| - 1;
    if k < n {
      ClocksBefore(phases[..n], k);
      assert phases[..n][..k] == phases[..k];
    }
  }

  /**
   * An elapsed deadline stops the run: when the check at `k` is the first that is late, the
   * run refuses, with exactly the effects of the phases before that check.
   */
  lemma DeadlineStops(q: Request, env: Env, start: Directory, phases: seq<Phase>, k: nat)
    requires k < |phases| && phases[k].ClockCheck?
    requires Timely(env, ClockCount(phases[..k])) && env.expired(ClockCount(phases[..k]))
    ensures var r := Execute(q, env, start, phases);
            var before := Execute(q, env, start, WithoutClocks(phases[..k]));
            !r.ok && r.disk == before.disk && r.natives == before.natives && r.crashPoints == before.crashPoints
  {
    hide Effect, WithoutClocks;
    TimelyIsPlain(q, env, start, phases[..k]);
    OkIsTimely(q, env, start, phases[..k]);
    ExecuteStep(q, env, start, phases, k + 1);
    hide Execute;
    StoppedEarly(q, env, start, phases, k + 1);
  }

  lemma {:induction false} StripAppend(a: seq<Phase>, b: seq<Phase>)
    ensures WithoutClocks(a + b) == WithoutClocks(a) + WithoutClocks(b)
    decreases |b|
  {
    if b == [] {
      assert a + b == a;
    } else {
      var n := |b| - 1;
      StripAppend(a, b[..n]);
      assert (a + b)[..|a| + n] == a + b[..n] && (a + b)[|a| + n] == b[n];
    }
  }

  /** `table[k]` counts the plain phases among the first `k`. */
  lemma {:induction false} StripPrefix(phases: seq<Phase>, plain: seq<Phase>, table: seq<nat>, k: nat)
    requires |table| == |phases| + 1 && table[0] == 0 && k <= |phases|
    requires forall i :: 0 <= i < |table| ==> table[i] <= |plain|
    requires forall i {:trigger phases[i - 1]} :: 0 < i <= |phases| ==>
               if phases[i - 1].ClockCheck? then table[i] == table[i - 1]
               else table[i] == table[i - 1] + 1 && plain[table[i - 1]] == phases[i - 1]
    ensures WithoutClocks(phases[..k]) == plain[..table[k]]
  {
    if k > 0 {
      StripPrefix(phases, plain, table, k - 1);
      assert phases[..k][..k - 1] == phases[..k - 1] && phases[..k][k - 1] == phases[k - 1];
    }
  }

  lemma EntryIsPlain()
    ensures WithoutClocks(UNTIL_ENTRY) == [CheckName, ValidateParent, ValidateSource, SameParent]
  {
    StripPrefix(UNTIL_ENTRY, [CheckName, ValidateParent, ValidateSource, SameParent], [0, 0, 1, 1, 1, 2, 2, 3, 4], 8);
    assert UNTIL_ENTRY[..8] == UNTIL_ENTRY;
  }

  lemma LinkIsPlain()
    ensures WithoutClocks(UNTIL_LINK) == [SyncSource, LinkFinal, ValidateFinal, SyncParent]
  {
    StripPrefix(UNTIL_LINK, [SyncSource, LinkFinal, ValidateFinal, SyncParent], [0, 0, 1, 1, 2, 2, 3, 3, 4], 8);
    assert UNTIL_LINK[..8] == UNTIL_LINK;
  }

  lemma UnlinkIsPlain()
    ensures WithoutClocks(UNTIL_UNLINK) == [ValidateSource, ValidateFinal, UnlinkSource, SyncParent]
  {
    StripPrefix(UNTIL_UNLINK, [ValidateSource, ValidateFinal, UnlinkSource, SyncParent], [0, 0, 1, 1, 2, 2, 3, 3, 4],
      8);
    assert UNTIL_UNLINK[..8] == UNTIL_UNLINK;
  }

  lemma CloseIsPlain()
    ensures WithoutClocks(UNTIL_CLOSE) == [ValidateFinal, ValidateParent]
  {
    StripPrefix(UNTIL_CLOSE, [ValidateFinal, ValidateParent], [0, 0, 1, 1, 2, 2], 5);
    assert UNTIL_CLOSE[..5] == UNTIL_CLOSE;
  }

  /** The deadline form is the plain form with clock checks put in between. */
  lemma UntilIsPlainWithClocks()
    ensures WithoutClocks(UNTIL) == PLAIN
  {
    hide WithoutClocks;
    EntryIsPlain();
    LinkIsPlain();
    UnlinkIsPlain();
    CloseIsPlain();
    StripAppend(UNTIL_UNLINK, UNTIL_CLOSE);
    StripAppend(UNTIL_LINK, UNTIL_UNLINK + UNTIL_CLOSE);
    StripAppend(UNTIL_ENTRY, UNTIL_LINK + (UNTIL_UNLINK + UNTIL_CLOSE));
  }

  // ---------------------------------------------------------------- what every crash finds

  /** Every crash of `d` still finds the file, under its source or its final name. */
  ghost predicate Reachable(q: Request, d: Directory) {
    forall k :: 0 <= k <= |d.pending| ==> FoundAfter(q, d, k)
  }

  ghost predicate FoundAfter(q: Request, d: Directory, k: nat)
    requires k <= |d.pending|
  {
    var names := AfterCrash(d, k);
    Lookup(names, q.source) == Some(q.inode) || Lookup(names, q.final) == Some(q.inode)
  }

  /** Every crash of `d` finds the file under its source name. */
  ghost predicate SourceDurable(q: Request, d: Directory) {
    forall k :: 0 <= k <= |d.pending| ==> Lookup(AfterCrash(d, k), q.source) == Some(q.inode)
  }

  /** No name that existed at the start, except the source, has another meaning in `d`. */
  ghost predicate NothingReplaced(q: Request, start: Directory, d: Directory) {
    forall name :: name in Live(start) && name != q.source ==> Lookup(Live(d), name) == Some(Live(start)[name])
  }

  function Linked(q: Request, start: Directory): Names {
    Live(start)[q.final := q.inode]
  }

  /** The directory after the first `n` plain phases all succeeded. */
  ghost predicate Shape(q: Request, start: Directory, n: nat, d: Directory) {
    && (n <= 5 ==> d.durable == start.durable && d.pending == start.pending)
    && (n >= 3 ==> Lookup(Live(start), q.source) == Some(q.inode))
    && (n >= 5 && q.inode in d.files ==> d.files[q.inode].durable == Some(d.files[q.inode].data))
    && (n >= 6 ==> q.final !in Live(start))
    && (6 <= n <= 7 ==> d.durable == start.durable && d.pending == start.pending + [Link(q.final, q.inode)])
    && (8 <= n <= 10 ==> d.durable == Linked(q, start) && d.pending == [])
    && (n == 11 ==> d.durable == Linked(q, start) && d.pending == [Unlink(q.source)])
    && (n >= 12 ==> d.durable == Linked(q, start) - {q.source} && d.pending == [])
  }

  /** The live names at each stage. */
  lemma ShapeNames(q: Request, start: Directory, n: nat, d: Directory)
    requires Shape(q, start, n, d)
    ensures Live(d) == if n <= 5 then Live(start)
                       else if n <= 10 then Linked(q, start)
                       else Linked(q, start) - {q.source}
    ensures NothingReplaced(q, start, d)
  {
    if 6 <= n <= 7 {
      CrashAfterPerform(start, Link(q.final, q.inode), |start.pending| + 1);
      CrashWithEverything(d);
    } else if n == 11 {
      assert d.pending[..0] == [] && ApplyOps(d.durable, []) == d.durable;
      assert Live(d) == ApplyOp(d.durable, Unlink(q.source));
    }
  }

  lemma ShapeReachable(q: Request, start: Directory, n: nat, d: Directory)
    requires Shape(q, start, n, d) && SourceDurable(q, start)
    ensures Reachable(q, d)
  {
    CrashWithEverything(start);
    ShapeNames(q, start, n, d);
    forall k | 0 <= k <= |d.pending| ensures FoundAfter(q, d, k) {
      if n <= 5 {
        assert Lookup(AfterCrash(start, k), q.source) == Some(q.inode);
      } else if n <= 7 {
        CrashAfterPerform(start, Link(q.final, q.inode), k);
        assert AfterCrash(d, k) == AfterCrash(Perform(start, Link(q.final, q.inode)), k);
        if k <= |start.pending| {
          assert Lookup(AfterCrash(start, k), q.source) == Some(q.inode);
        }
      } else if n == 11 {
        CrashWithEverything(d);
        assert k == 0 || k == |d.pending|;
      } else {
        CrashWithEverything(d);
      }
    }
  }

  /** A failed directory sync hides no file and changes no live name. */
  lemma PartialSyncReachable(q: Request, start: Directory, d: Directory, k: nat)
    requires k <= |d.pending|
    ensures Reachable(q, d) ==> Reachable(q, PartialSync(d, k))
    ensures Live(PartialSync(d, k)) == Live(d)
    ensures NothingReplaced(q, start, d) ==> NothingReplaced(q, start, PartialSync(d, k))
  {
    CrashAfterPartialSync(d, k, 0);
    if Reachable(q, d) {
      forall j | 0 <= j <= |PartialSync(d, k).pending| ensures FoundAfter(q, PartialSync(d, k), j) {
        CrashAfterPartialSync(d, k, j);
        assert FoundAfter(q, d, k + j);
      }
    }
  }

  /**
   * A crash point is safe: the file is reachable if its source name was durable, no
   * existing name changed, and an existing final name blocks every name change.
   */
  ghost predicate PointSafe(q: Request, start: Directory, d: Directory) {
    && (SourceDurable(q, start) ==> Reachable(q, d))
    && NothingReplaced(q, start, d)
    && (q.final in Live(start) ==> Live(d) == Live(start))
  }

  lemma ShapeIsSafe(q: Request, start: Directory, n: nat, d: Directory)
    requires Shape(q, start, n, d)
    ensures PointSafe(q, start, d)
  {
    ShapeNames(q, start, n, d);
    if SourceDurable(q, start) {
      ShapeReachable(q, start, n, d);
    }
  }

  /** A successful plain phase leads to the next stage. */
  lemma PhaseShape(q: Request, start: Directory, n: nat, d: Directory, reply: Reply)
    requires n < |PLAIN| && Shape(q, start, n, d)
    requires Live(d) == if n <= 5 then Live(start)
                        else if n <= 10 then Linked(q, start)
                        else Linked(q, start) - {q.source}
    requires Effect(q, d, PLAIN[n], reply).1
    ensures Shape(q, start, n + 1, Effect(q, d, PLAIN[n], reply).0)
  {
    hide Live, ApplyOps;
  }

  /** A phase that refuses changes nothing, or hardens a prefix of the pending operations. */
  lemma RefusedEffect(q: Request, d: Directory, phase: Phase, reply: Reply)
    requires !Effect(q, d, phase, reply).1
    ensures var d' := Effect(q, d, phase, reply).0;
            d' == d || exists k :: 0 <= k <= |d.pending| && d' == PartialSync(d, k)
  {
    hide Live, ApplyOps, PartialSync;
    var k := if reply.hardened <= |d.pending| then reply.hardened else |d.pending|;
    assert phase.SyncParent? ==> Effect(q, d, phase, reply).0 == PartialSync(d, k);
  }

  /** One plain phase from its stage: either the next stage, or a safe stop. */
  lemma PhaseStep(q: Request, start: Directory, n: nat, d: Directory, reply: Reply)
    requires n < |PLAIN| && Shape(q, start, n, d)
    ensures var (d', ok) := Effect(q, d, PLAIN[n], reply);
            && (ok ==> Shape(q, start, n + 1, d'))
            && PointSafe(q, start, d')
  {
    hide Effect, Shape, Live, Reachable, SourceDurable, NothingReplaced;
    var (d', ok) := Effect(q, d, PLAIN[n], reply);
    ShapeNames(q, start, n, d);
    ShapeIsSafe(q, start, n, d);
    if ok {
      PhaseShape(q, start, n, d, reply);
      ShapeIsSafe(q, start, n + 1, d');
    } else {
      RefusedEffect(q, d, PLAIN[n], reply);
      if d' != d {
        var k :| 0 <= k <= |d.pending| && d' == PartialSync(d, k);
        PartialSyncReachable(q, start, d, k);
      }
    }
  }

  lemma ExecuteStep(q: Request, env: Env, start: Directory, phases: seq<Phase>, n: nat)
    requires 0 < n <= |phases|
    ensures Execute(q, env, start, phases[..n])
         == Advance(q, env, Execute(q, env, start, phases[..n - 1]), phases[n - 1])
  {
    assert phases[..n][..n - 1] == phases[..n - 1] && phases[..n][n - 1] == phases[n - 1];
  }

  /** One executed phase of a run whose crash points were safe so far. */
  lemma StageStep(q: Request, env: Env, start: Directory, n: nat, r: Run)
    requires n < |PLAIN| && (r.ok ==> Shape(q, start, n, r.disk))
    requires forall d :: d in r.crashPoints ==> PointSafe(q, start, d)
    ensures var r' := Advance(q, env, r, PLAIN[n]);
            && (r'.ok ==> Shape(q, start, n + 1, r'.disk))
            && forall d :: d in r'.crashPoints ==> PointSafe(q, start, d)
  {
    hide Shape, PointSafe, Effect;
    assert !PLAIN[n].ClockCheck?;
    if r.ok {
      PhaseStep(q, start, n, r.disk, env.native(r.natives));
    }
  }

  lemma {:induction false} PlainStage(q: Request, env: Env, start: Directory, n: nat)
    requires n <= |PLAIN|
    ensures var r := Execute(q, env, start, PLAIN[..n]);
            && (r.ok ==> Shape(q, start, n, r.disk))
            && forall d :: d in r.crashPoints ==> PointSafe(q, start, d)
  {
    if n == 0 {
      ShapeIsSafe(q, start, 0, start);
      assert PLAIN[..0] == [];
    } else {
      hide Shape, PointSafe, Execute, Advance;
      PlainStage(q, env, start, n - 1);
      ExecuteStep(q, env, start, PLAIN, n);
      StageStep(q, env, start, n - 1, Execute(q, env, start, PLAIN[..n - 1]));
    }
  }

  /**
   * Publication, with or without a deadline: every crash point is safe, and success leaves
   * exactly the final name.
   */
  lemma PublicationIsSafe(q: Request, env: Env, start: Directory, timed: bool)
    ensures var r := Execute(q, env, start, if timed then UNTIL else PLAIN);
            && (forall d :: d in r.crashPoints ==> PointSafe(q, start, d))
            && (r.ok ==> Published(q, start, r.disk))
            && (q.final in Live(start) ==> !r.ok)
  {
    hide Execute, WithoutClocks, PointSafe, Published, Shape, Live;
    var plain := Execute(q, env, start, PLAIN);
    PlainStage(q, env, start, |PLAIN|);
    assert PLAIN[..|PLAIN|] == PLAIN;
    if plain.ok {
      ShapePublished(q, start, plain.disk);
    }
    if timed {
      ClocksOnlyCutShort(q, env, start, UNTIL);
      UntilIsPlainWithClocks();
    }
  }

  lemma ShapePublished(q: Request, start: Directory, d: Directory)
    requires Shape(q, start, |PLAIN|, d)
    ensures Published(q, start, d) && q.final !in Live(start)
  {
    hide Live;
  }

  /** What a publication is refused for, if not for its deadline. */
  ghost predicate Granted(q: Request, env: Env, start: Directory) {
    && q.nameOk && q.sameParent && Lookup(Live(start), q.source) == Some(q.inode) && q.final !in Live(start)
    && forall n :: 0 <= n < |PLAIN| && n != 0 && n != 3 ==> env.native(n).ok
  }

  /** What has been granted after the first `n` plain phases. */
  ghost predicate GrantedUntil(q: Request, env: Env, start: Directory, n: nat) {
    && (n > 0 ==> q.nameOk) && (n > 3 ==> q.sameParent)
    && (n > 2 ==> Lookup(Live(start), q.source) == Some(q.inode)) && (n > 5 ==> q.final !in Live(start))
    && forall i :: 0 <= i < n && i != 0 && i != 3 ==> env.native(i).ok
  }

  /** A plain phase continues exactly when it is granted. */
  lemma PhaseIsExact(q: Request, env: Env, start: Directory, n: nat, d: Directory)
    requires n < |PLAIN| && Shape(q, start, n, d) && GrantedUntil(q, env, start, n)
    requires Live(d) == if n <= 5 then Live(start)
                        else if n <= 10 then Linked(q, start)
                        else Linked(q, start) - {q.source}
    ensures Effect(q, d, PLAIN[n], env.native(n)).1 <==> GrantedUntil(q, env, start, n + 1)
  {
    hide Live, PartialSync, SyncDirectory, SyncFile, Perform;
    assert GrantedUntil(q, env, start, n + 1) ==> (n != 0 && n != 3 ==> env.native(n).ok);
  }

  lemma {:induction false} PlainIsExact(q: Request, env: Env, start: Directory, n: nat)
    requires n <= |PLAIN|
    ensures var r := Execute(q, env, start, PLAIN[..n]);
            && (r.ok <==> GrantedUntil(q, env, start, n))
            && (r.ok ==> r.natives == n)
  {
    if n == 0 {
      assert PLAIN[..0] == [];
    } else {
      hide Shape, Effect, Execute, Live, GrantedUntil, PointSafe;
      PlainIsExact(q, env, start, n - 1);
      PlainStage(q, env, start, n - 1);
      ExecuteStep(q, env, start, PLAIN, n);
      var r := Execute(q, env, start, PLAIN[..n - 1]);
      assert !PLAIN[n - 1].ClockCheck?;
      if r.ok {
        ShapeNames(q, start, n - 1, r.disk);
        PhaseIsExact(q, env, start, n - 1, r.disk);
      } else {
        GrantedShorter(q, env, start, n);
      }
    }
  }

  lemma GrantedShorter(q: Request, env: Env, start: Directory, n: nat)
    requires n > 0
    ensures GrantedUntil(q, env, start, n) ==> GrantedUntil(q, env, start, n - 1)
  {
  }

  lemma GrantedIsUntil(q: Request, env: Env, start: Directory)
    ensures Granted(q, env, start) <==> GrantedUntil(q, env, start, |PLAIN|)
  {
  }

  /** Exactly when a publication succeeds: it is granted, and no clock check is late. */
  lemma PublicationIsExact(q: Request, env: Env, start: Directory, timed: bool)
    ensures var r := Execute(q, env, start, if timed then UNTIL else PLAIN);
            r.ok <==> Granted(q, env, start) && (timed ==> Timely(env, ClockCount(UNTIL)))
  {
    hide Execute, WithoutClocks, ClockCount, Granted, GrantedUntil, Timely, CutShort;
    PlainIsExact(q, env, start, |PLAIN|);
    assert PLAIN[..|PLAIN|] == PLAIN;
    GrantedIsUntil(q, env, start);
    if timed {
      UntilIsPlainWithClocks();
      OkIsTimely(q, env, start, UNTIL);
      OkIsPlain(q, env, start, UNTIL);
      if Timely(env, ClockCount(UNTIL)) {
        TimelyIsPlain(q, env, start, UNTIL);
      }
    }
  }

  lemma OkIsPlain(q: Request, env: Env, start: Directory, phases: seq<Phase>)
    ensures Execute(q, env, start, phases).ok ==> Execute(q, env, start, WithoutClocks(phases)).ok
  {
    hide Execute, WithoutClocks;
    ClocksOnlyCutShort(q, env, start, phases);
  }

  /** Success: exactly the final name is left, durably, with durable content. */
  ghost predicate Published(q: Request, start: Directory, d: Directory) {
    && d.pending == []
    && d.durable == Live(start)[q.final := q.inode] - {q.source}
    && Lookup(d.durable, q.final) == Some(q.inode) && q.source !in d.durable
    && (q.inode in d.files ==> d.files[q.inode].durable == Some(d.files[q.inode].data))
  }

  // ---------------------------------------------------------------- in place

  /** The directory that publication changes in place. */
  class Publisher {
    var disk: Directory
    var natives: nat
    var clocks: nat
    ghost var crashPoints: seq<Directory>

    constructor (disk: Directory)
      ensures this.disk == disk && At(Begin(disk))
    {
      this.disk := disk;
      natives, clocks := 0, 0;
      crashPoints := [disk];
    }

    ghost predicate At(r: Run)
      reads this
    {
      r == Run(disk, r.ok, natives, clocks, crashPoints)
    }

    /** One phase; a refusal ends the publication. */
    method Perform(q: Request, env: Env, phase: Phase, ghost r: Run) returns (ok: bool)
      requires At(r) && r.ok
      modifies this
      ensures At(Advance(q, env, r, phase)) && ok == Advance(q, env, r, phase).ok
    {
      if phase.ClockCheck? {
        ok := !env.expired(clocks);
        clocks := clocks + 1;
      } else {
        var (d, continues) := Effect(q, disk, phase, env.native(natives));
        disk := d;
        natives := natives + 1;
        crashPoints := crashPoints + [d];
        ok := continues;
      }
    }

    /** Performs the phases in order and stops at the first refusal. */
    method PerformAll(q: Request, env: Env, phases: seq<Phase>) returns (ok: bool)
      requires At(Begin(disk))
      modifies this
      ensures var r := Execute(q, env, old(disk), phases);
              At(r) && r.ok == ok
    {
      hide Effect, Advance;
      ok := true;
      ghost var r := Begin(disk);
      var k := 0;
      while k < |phases| && ok
        invariant 0 <= k <= |phases| && At(r) && r.ok == ok
        invariant r == Execute(q, env, old(disk), phases[..k])
      {
        ok := Perform(q, env, phases[k], r);
        k := k + 1;
        ExecuteStep(q, env, old(disk), phases, k);
        r := Advance(q, env, r, phases[k - 1]);
      }
      StoppedEarly(q, env, old(disk), phases, k);
    }

    /** Publishes, with or without a deadline. */
    method PublishNewFile(q: Request, env: Env, timed: bool) returns (ok: bool)
      requires At(Begin(disk))
      modifies this
      ensures forall d :: d in crashPoints ==> PointSafe(q, old(disk), d)
      ensures ok ==> Published(q, old(disk), disk)
      ensures ok <==> Granted(q, env, old(disk)) && (timed ==> Timely(env, ClockCount(UNTIL)))
      ensures timed && env.expired(0) ==> !ok && disk == old(disk) && crashPoints == [old(disk)]
    {
      hide PointSafe, Published, Execute, Live, Granted, ClockCount, WithoutClocks, Timely;
      ok := PerformAll(q, env, if timed then UNTIL else PLAIN);
      PublicationIsSafe(q, env, old(disk), timed);
      PublicationIsExact(q, env, old(disk), timed);
      if timed && env.expired(0) {
        LateAtOnce(q, env, old(disk));
      }
    }
  }

  /** A deadline that has passed already leaves the directory as it was. */
  lemma LateAtOnce(q: Request, env: Env, start: Directory)
    requires env.expired(0)
    ensures var r := Execute(q, env, start, UNTIL);
            !r.ok && r.disk == start && r.crashPoints == [start]
  {
    assert UNTIL[..0] == [];
    assert UNTIL[0] == ClockCheck;
    DeadlineStops(q, env, start, UNTIL, 0);
  }

  /** After a refusal the remaining phases do nothing. */
  lemma {:induction false} StoppedEarly(q: Request, env: Env, start: Directory, phases: seq<Phase>, k: nat)
    requires k <= |phases| && (k == |phases| || !Execute(q, env, start, phases[..k]).ok)
    ensures Execute(q, env, start, phases) == Execute(q, env, start, phases[..k])
    decreases |phases| - k
  {
    if k == |phases| {
      assert phases[..k] == phases;
    } else {
      assert phases[..k + 1][..k] == phases[..k];
      StoppedEarly(q, env, start, phases, k + 1);
    }
  }
}
