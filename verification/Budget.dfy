/**
 * Shared directory budget: cumulative counters, a deadline that can only move earlier and
 * a refusal that cannot be undone.  Every clone spends the same state, under one lock.
 */
module Budget {
  import opened Machine
  import opened Wrappers

  datatype Limits = Limits(
    maxDepth: Size, maxComponentBytes: Size, maxPathBytes: Size, maxOperations: Size,
    maxCalls: Size, maxEntries: Size, maxDeclaredBytes: Size, maxWorkBytes: Size)

  /** The arguments of one charge; also used for cumulative totals. */
  datatype Fee = Fee(operations: Size, calls: Size, declared: Size, strings: Size, entries: Size, work: Size)

  datatype Usage = Usage(
    operations: Size, calls: Size, declaredBytes: Size, stringBytes: Size, entries: Size, workBytes: Size)

  const NO_USAGE := Usage(0, 0, 0, 0, 0, 0)

  datatype OwnershipError = Contended | IdentityMismatch | Unsupported | NotFound | OtherIo

  datatype Failure =
    | Expired(completed: Option<OwnershipError>)
    | Capacity
    | Poisoned
    | Denied
    | Ownership(error: OwnershipError)

  /** The failure carries this native error, on time or late. */
  predicate Blames(f: Failure, e: OwnershipError) {
    f == Ownership(e) || f == Expired(Some(e))
  }

  datatype State = State(expiry: nat, usage: Usage, denied: bool, poisoned: bool)

  // ---------------------------------------------------------------- arithmetic

  /** Adds one fee axis by axis with checked sums; an entry also costs one unit of work. */
  function Sum(u: Usage, f: Fee): Option<Usage> {
    match (CheckedAdd(u.operations, f.operations), CheckedAdd(u.calls, f.calls),
           CheckedAdd(u.declaredBytes, f.declared), CheckedAdd(u.stringBytes, f.strings),
           CheckedAdd(u.entries, f.entries), CheckedAdd(f.work, f.entries))
    case (Some(operations), Some(calls), Some(declared), Some(strings), Some(entries), Some(work)) =>
      (match CheckedAdd(u.workBytes, work)
       case Some(total) => Some(Usage(operations, calls, declared, strings, entries, total))
       case None => None)
    case _ => None
  }

  predicate Within(limits: Limits, u: Usage) {
    && u.operations <= limits.maxOperations
    && u.calls <= limits.maxCalls
    && u.declaredBytes <= limits.maxDeclaredBytes
    && u.stringBytes <= u.declaredBytes
    && u.entries <= limits.maxEntries
    && u.workBytes <= limits.maxWorkBytes
  }

  function Admit(limits: Limits, u: Usage, f: Fee): Option<Usage> {
    var next := Sum(u, f);
    if next.Some? && Within(limits, next.value) then next else None
  }

  // ---------------------------------------------------------------- atomic sections

  /** Every section that takes the lock, and the one clock check made before it. */
  datatype Event =
    | EarlyEvent(now: nat)
    | ChargeEvent(now: nat, fee: Fee)
    | CapEvent(now: nat, earlier: nat)
    | DenyEvent(now: nat)
    | PoisonEvent(now: nat)

  function Min(a: nat, b: nat): nat {
    if a <= b then a else b
  }

  function Answer(limits: Limits, original: nat, s: State, e: Event): Result<(), Failure> {
    match e
    case EarlyEvent(now) => if now >= original then Err(Expired(None)) else Ok(())
    case ChargeEvent(now, fee) =>
      if now >= s.expiry then Err(Expired(None))
      else if s.poisoned then Err(Poisoned)
      else if s.denied then Err(Denied)
      else if Admit(limits, s.usage, fee).None? then Err(Capacity)
      else Ok(())
    case CapEvent(now, earlier) =>
      if s.poisoned then Err(Poisoned)
      else if now >= Min(s.expiry, earlier) then Err(Expired(None))
      else if s.denied then Err(Denied)
      else Ok(())
    case _ => Ok(())
  }

  function Next(limits: Limits, original: nat, s: State, e: Event): State {
    match e
    case EarlyEvent(_) => s
    case ChargeEvent(_, fee) =>
      match Answer(limits, original, s, e) {
        case Ok(_) => s.(usage := Admit(limits, s.usage, fee).value)
        case Err(Capacity) => s.(denied := true)
        case _ => s
      }
    case CapEvent(_, earlier) =>
      s.(expiry := Min(s.expiry, earlier), denied := s.denied || s.poisoned)
    case DenyEvent(_) => s.(denied := true)
    case PoisonEvent(_) => s.(poisoned := true)
  }

  /** Reading a refusal: an answered error, or the denial itself. */
  ghost predicate Refuses(limits: Limits, original: nat, s: State, e: Event) {
    e.DenyEvent? || Answer(limits, original, s, e).Err?
  }

  /** No charge can succeed any more. */
  ghost predicate Terminal(s: State, now: nat) {
    s.denied || s.poisoned || now >= s.expiry
  }

  // ---------------------------------------------------------------- whole runs

  function Run(limits: Limits, original: nat, events: seq<Event>): State
    decreases |events|
  {
    if events == [] then State(original, NO_USAGE, false, false)
    else Next(limits, original, Run(limits, original, events[..|events| - 1]), events[|events| - 1])
  }

  ghost predicate InClockOrder(events: seq<Event>) {
    forall i, j :: 0 <= i < j < |events| ==> events[i].now <= events[j].now
  }

  /** Mathematical totals of the accepted charges of a run, axis by axis. */
  datatype Totals = Totals(operations: int, calls: int, declared: int, strings: int, entries: int, work: int)

  function Plus(t: Totals, f: Fee): Totals {
    Totals(t.operations + f.operations, t.calls + f.calls, t.declared + f.declared,
           t.strings + f.strings, t.entries + f.entries, t.work + f.work + f.entries)
  }

  function AsTotals(u: Usage): Totals {
    Totals(u.operations, u.calls, u.declaredBytes, u.stringBytes, u.entries, u.workBytes)
  }

  function AcceptedTotals(limits: Limits, original: nat, events: seq<Event>): Totals
    decreases |events|
  {
    if events == [] then Totals(0, 0, 0, 0, 0, 0)
    else
      var before, e := events[..|events| - 1], events[|events| - 1];
      var t := AcceptedTotals(limits, original, before);
      if e.ChargeEvent? && Answer(limits, original, Run(limits, original, before), e).Ok? then Plus(t, e.fee) else t
  }

  /** A refusal leaves a state in which no charge can succeed. */
  lemma RefusalIsTerminal(limits: Limits, original: nat, s: State, e: Event)
    requires s.expiry <= original && Refuses(limits, original, s, e)
    ensures Terminal(Next(limits, original, s, e), e.now)
  {
  }

  /** Nothing that happens later revives a refused budget. */
  lemma TerminalStays(limits: Limits, original: nat, s: State, now: nat, e: Event)
    requires Terminal(s, now) && now <= e.now
    ensures Terminal(Next(limits, original, s, e), e.now)
    ensures e.ChargeEvent? || e.CapEvent? ==> Answer(limits, original, s, e).Err?
  {
  }

  lemma AdmitIsExact(limits: Limits, u: Usage, f: Fee)
    ensures Admit(limits, u, f).Some? <==> Fits(limits, Plus(AsTotals(u), f))
    ensures Admit(limits, u, f).Some? ==> AsTotals(Admit(limits, u, f).value) == Plus(AsTotals(u), f)
  {
  }

  /** Totals within every limit, with the string bytes inside the declared bytes. */
  ghost predicate Fits(limits: Limits, t: Totals) {
    && t.operations <= limits.maxOperations
    && t.calls <= limits.maxCalls
    && t.strings <= t.declared <= limits.maxDeclaredBytes
    && t.entries <= limits.maxEntries
    && t.work <= limits.maxWorkBytes
  }

  /** What one charge answers, and what it leaves behind, in plain totals. */
  ghost predicate ChargeSettles(limits: Limits, s: State, now: nat, fee: Fee, s': State, r: Result<(), Failure>) {
    var total := Plus(AsTotals(s.usage), fee);
    if now >= s.expiry then r == Err(Expired(None)) && s' == s
    else if s.poisoned then r == Err(Poisoned) && s' == s
    else if s.denied then r == Err(Denied) && s' == s
    else if !Fits(limits, total) then r == Err(Capacity) && s' == s.(denied := true)
    else r == Ok(()) && AsTotals(s'.usage) == total && s' == s.(usage := s'.usage)
  }

  /**
   * In any state: a charge is accepted exactly when it is on time, the budget is neither
   * denied nor poisoned, and the plain totals fit.
   */
  lemma ChargeIsExact(limits: Limits, original: nat, s: State, now: nat, fee: Fee)
    ensures var e := ChargeEvent(now, fee);
            && (Answer(limits, original, s, e).Ok? <==>
                now < s.expiry && !s.denied && !s.poisoned && Fits(limits, Plus(AsTotals(s.usage), fee)))
            && ChargeSettles(limits, s, now, fee, Next(limits, original, s, e), Answer(limits, original, s, e))
  {
    hide Admit, Fits, Plus, AsTotals;
    AdmitIsExact(limits, s.usage, fee);
  }

  /** `expiry` is the earliest of the original deadline and every cap of the run. */
  ghost predicate EarliestDeadline(original: nat, events: seq<Event>, expiry: nat) {
    && expiry <= original
    && (forall i :: 0 <= i < |events| && events[i].CapEvent? ==> expiry <= events[i].earlier)
    && (expiry == original || exists i :: 0 <= i < |events| && events[i].CapEvent? && events[i].earlier == expiry)
  }

  /**
   * Over any run: usage is the sum of the accepted charges and within every limit, and the
   * deadline is the minimum of the original one and all caps.
   */
  lemma {:induction false} RunAccounts(limits: Limits, original: nat, events: seq<Event>)
    ensures var s := Run(limits, original, events);
            && AsTotals(s.usage) == AcceptedTotals(limits, original, events)
            && Within(limits, s.usage)
            && EarliestDeadline(original, events, s.expiry)
    decreases |events|
  {
    if events != [] {
      hide EarliestDeadline;
      var n := |events| - 1;
      var before, e := events[..n], events[n];
      RunAccounts(limits, original, before);
      var s := Run(limits, original, before);
      if e.ChargeEvent? {
        AdmitIsExact(limits, s.usage, e.fee);
      }
      assert events == before + [e];
      EarliestStep(original, before, e, s.expiry);
    } else {
      assert EarliestDeadline(original, events, original);
    }
  }

  /** One more section keeps the deadline the earliest: only a cap can move it. */
  lemma EarliestStep(original: nat, before: seq<Event>, e: Event, expiry: nat)
    requires EarliestDeadline(original, before, expiry)
    ensures EarliestDeadline(original, before + [e], if e.CapEvent? then Min(expiry, e.earlier) else expiry)
  {
    var events := before + [e];
    assert forall i :: 0 <= i < |before| ==> events[i] == before[i];
    assert events[|before|] == e;
    if expiry != original {
      var i :| 0 <= i < |before| && before[i].CapEvent? && before[i].earlier == expiry;
      assert events[i].CapEvent? && events[i].earlier == expiry;
    }
  }

  /**
   * The first refusal is final: after any refused charge, cap or check, or any denial, no
   * later charge and no later cap succeeds, whichever clone makes it.
   */
  lemma {:induction false} FirstRefusalIsFinal(limits: Limits, original: nat, events: seq<Event>, i: nat, j: nat)
    requires InClockOrder(events) && i < j < |events|
    requires Refuses(limits, original, Run(limits, original, events[..i]), events[i])
    ensures var s := Run(limits, original, events[..j]);
            && Terminal(s, events[j].now)
            && (events[j].ChargeEvent? || events[j].CapEvent? ==> Answer(limits, original, s, events[j]).Err?)
    decreases j
  {
    var k := j - 1;
    var s := Run(limits, original, events[..k]);
    assert events[..j][..k] == events[..k] && events[..j][k] == events[k];
    RunAccounts(limits, original, events[..k]);
    if i == k {
      RefusalIsTerminal(limits, original, s, events[k]);
    } else {
      FirstRefusalIsFinal(limits, original, events, i, k);
      TerminalStays(limits, original, s, events[k].now, events[k]);
    }
    TerminalStays(limits, original, Run(limits, original, events[..j]), events[k].now, events[j]);
  }

  // ---------------------------------------------------------------- orders of charging

  /** Charging a list of fees in order, starting from nothing; None at the first refusal. */
  function SpendAll(limits: Limits, fees: seq<Fee>): Option<Usage>
    decreases |fees|
  {
    if fees == [] then Some(NO_USAGE)
    else
      match SpendAll(limits, fees[..|fees| - 1])
      case Some(u) => Admit(limits, u, fees[|fees| - 1])
      case None => None
  }

  function Total(fees: seq<Fee>): Totals
    decreases |fees|
  {
    if fees == [] then Totals(0, 0, 0, 0, 0, 0) else Plus(Total(fees[..|fees| - 1]), fees[|fees| - 1])
  }

  ghost predicate StringsInsideDeclared(fees: seq<Fee>) {
    forall f :: f in fees ==> f.strings <= f.declared
  }

  lemma {:induction false} SpendIsTotal(limits: Limits, fees: seq<Fee>)
    ensures SpendAll(limits, fees).Some? ==>
              Fits(limits, Total(fees)) && AsTotals(SpendAll(limits, fees).value) == Total(fees)
    ensures StringsInsideDeclared(fees) && Fits(limits, Total(fees)) ==> SpendAll(limits, fees).Some?
    decreases |fees|
  {
    if fees != [] {
      var n := |fees| - 1;
      SpendIsTotal(limits, fees[..n]);
      TotalStrings(fees[..n]);
      assert fees[n] in fees && forall f :: f in fees[..n] ==> f in fees;
      if SpendAll(limits, fees[..n]).Some? {
        AdmitIsExact(limits, SpendAll(limits, fees[..n]).value, fees[n]);
      }
    }
  }

  lemma {:induction false} TotalStrings(fees: seq<Fee>)
    ensures StringsInsideDeclared(fees) ==> Total(fees).strings <= Total(fees).declared
    decreases |fees|
  {
    if fees != [] {
      var n := |fees| - 1;
      TotalStrings(fees[..n]);
      assert fees[n] in fees && forall f :: f in fees[..n] ==> f in fees;
    }
  }

  /** A total splits at any element. */
  lemma {:induction false} TotalWithout(fees: seq<Fee>, i: nat)
    requires i < |fees|
    ensures Total(fees) == Plus(Total(fees[..i] + fees[i + 1..]), fees[i])
    decreases |fees|
  {
    var n := |fees| - 1;
    var rest := fees[..i] + fees[i + 1..];
    if i == n {
      assert rest == fees[..n];
    } else {
      TotalWithout(fees[..n], i);
      var shorter := fees[..n][..i] + fees[..n][i + 1..];
      assert fees[..n][i] == fees[i];
      assert rest[..n - 1] == shorter && rest[n - 1] == fees[n];
      assert Total(rest) == Plus(Total(shorter), fees[n]);
    }
  }

  /** The total does not depend on the order. */
  lemma {:induction false} TotalOfOrder(a: seq<Fee>, b: seq<Fee>)
    requires multiset(a) == multiset(b)
    ensures Total(a) == Total(b)
    decreases |a|
  {
    if a == [] {
      assert |multiset(b)| == 0;
    } else {
      var n, f := |a| - 1, a[|a| - 1];
      assert f in multiset(a);
      var i :| 0 <= i < |b| && b[i] == f;
      var rest := b[..i] + b[i + 1..];
      assert b == b[..i] + [f] + b[i + 1..];
      assert a == a[..n] + [f];
      assert multiset(rest) == multiset(b) - multiset{f} == multiset(a) - multiset{f} == multiset(a[..n]);
      TotalOfOrder(a[..n], rest);
      TotalWithout(b, i);
    }
  }

  lemma {:induction false} SpendPrefix(limits: Limits, fees: seq<Fee>, k: nat)
    requires k <= |fees| && SpendAll(limits, fees).Some?
    ensures SpendAll(limits, fees[..k]).Some?
    decreases |fees|
  {
    if k < |fees| {
      SpendPrefix(limits, fees[..|fees| - 1], k);
      assert fees[..|fees| - 1][..k] == fees[..k];
    } else {
      assert fees[..k] == fees;
    }
  }

  ghost predicate AcceptedInEveryOrder(limits: Limits, fees: seq<Fee>) {
    forall p: seq<Fee> :: multiset(p) == multiset(fees) ==> SpendAll(limits, p).Some?
  }

  lemma MoveToFront(before: seq<Fee>, f: Fee, after: seq<Fee>)
    ensures multiset([f] + (before + after)) == multiset(before + [f] + after)
  {
  }

  /** Any fee could come first, and then it is charged alone. */
  lemma EachFeeAlone(limits: Limits, fees: seq<Fee>, f: Fee)
    requires AcceptedInEveryOrder(limits, fees) && f in fees
    ensures f.strings <= f.declared
  {
    var i :| 0 <= i < |fees| && fees[i] == f;
    var p := [f] + (fees[..i] + fees[i + 1..]);
    assert fees == fees[..i] + [fees[i]] + fees[i + 1..];
    MoveToFront(fees[..i], f, fees[i + 1..]);
    SpendPrefix(limits, p, 1);
    assert p[..1] == [f] && [f][..0] == [];
    SpendIsTotal(limits, [f]);
  }

  /** Every accepted order of the same fees ends in the same usage, inside the limits. */
  lemma OrderedAlike(limits: Limits, fees: seq<Fee>, p: seq<Fee>)
    requires multiset(p) == multiset(fees)
    ensures SpendAll(limits, p).Some? ==>
              AsTotals(SpendAll(limits, p).value) == Total(fees) && Fits(limits, Total(fees))
    ensures Fits(limits, Total(fees)) && StringsInsideDeclared(fees) ==> SpendAll(limits, p).Some?
  {
    SpendIsTotal(limits, p);
    TotalOfOrder(p, fees);
    forall f | f in p ensures f in fees {
      assert f in multiset(p);
      assert f in multiset(fees);
    }
  }

  /**
   * Exact fit, whatever the order: a list of fees is accepted in every order if and only
   * if its totals fit the limits and no single fee has more string than declared bytes.
   */
  lemma ExactFit(limits: Limits, fees: seq<Fee>)
    ensures AcceptedInEveryOrder(limits, fees) <==> Fits(limits, Total(fees)) && StringsInsideDeclared(fees)
  {
    if AcceptedInEveryOrder(limits, fees) {
      OrderedAlike(limits, fees, fees);
      forall f | f in fees ensures f.strings <= f.declared {
        EachFeeAlone(limits, fees, f);
      }
    }
    if Fits(limits, Total(fees)) && StringsInsideDeclared(fees) {
      forall p: seq<Fee> | multiset(p) == multiset(fees) ensures SpendAll(limits, p).Some? {
        OrderedAlike(limits, fees, p);
      }
    }
  }

  /** Order matters without that condition: the same two fees, refused and accepted. */
  lemma OrderCanDecide(limits: Limits)
    requires limits.maxDeclaredBytes >= 1
    ensures var named, room := Fee(0, 0, 0, 1, 0, 0), Fee(0, 0, 1, 0, 0, 0);
            && SpendAll(limits, [named, room]).None?
            && SpendAll(limits, [room, named]).Some?
  {
    var named, room := Fee(0, 0, 0, 1, 0, 0), Fee(0, 0, 1, 0, 0, 0);
    assert [named, room][..1] == [named] && [room, named][..1] == [room];
    assert [named][..0] == [] && [room][..0] == [];
    assert SpendAll(limits, [named]).None?;
    assert SpendAll(limits, [room]) == Some(Usage(0, 0, 1, 0, 0, 0));
  }

  /** Before the deadline, a run of charges alone answers exactly as `SpendAll`. */
  lemma {:induction false} ChargesSpend(limits: Limits, original: nat, events: seq<Event>, fees: seq<Fee>)
    requires |events| == |fees|
    requires forall i :: 0 <= i < |events| ==> events[i].ChargeEvent? && events[i].now < original && events[i].fee == fees[i]
    ensures var s, spent := Run(limits, original, events), SpendAll(limits, fees);
            && s.expiry == original && !s.poisoned
            && (spent.Some? <==> !s.denied)
            && (spent.Some? ==> s.usage == spent.value)
    decreases |events|
  {
    if events != [] {
      var n := |events| - 1;
      ChargesSpend(limits, original, events[..n], fees[..n]);
    }
  }

  // ---------------------------------------------------------------- the shared object

  /** At least this fee has been spent between the two usages. */
  ghost predicate Covers(u: Usage, f: Fee, u': Usage) {
    && u.operations + f.operations <= u'.operations && u.calls + f.calls <= u'.calls
    && u.declaredBytes + f.declared <= u'.declaredBytes && u.stringBytes + f.strings <= u'.stringBytes
    && u.entries + f.entries <= u'.entries && u.workBytes + f.work + f.entries <= u'.workBytes
  }

  /** No axis of the usage went down. */
  ghost predicate NoRefund(u: Usage, u': Usage) {
    && u.operations <= u'.operations && u.calls <= u'.calls && u.declaredBytes <= u'.declaredBytes
    && u.stringBytes <= u'.stringBytes && u.entries <= u'.entries && u.workBytes <= u'.workBytes
  }

  /** What any number of later sections, by any clone, can have done to a budget. */
  ghost predicate Later(s: State, now: nat, s': State, now': nat) {
    && now <= now'
    && s'.expiry <= s.expiry
    && NoRefund(s.usage, s'.usage)
    && (s.denied ==> s'.denied)
    && (s.poisoned ==> s'.poisoned)
  }

  lemma SectionIsLater(limits: Limits, original: nat, s: State, e: Event)
    ensures Later(s, e.now, Next(limits, original, s, e), e.now)
  {
  }

  /** The events happened in clock order, none after `now`. */
  ghost predicate Timely(events: seq<Event>, now: nat) {
    InClockOrder(events) && forall e :: e in events ==> e.now <= now
  }

  /** The section that ended the run answered an error. */
  ghost predicate EndsRefused(limits: Limits, original: nat, events: seq<Event>) {
    events != [] && Answer(limits, original, Run(limits, original, events[..|events| - 1]), events[|events| - 1]).Err?
  }

  /** Some section of the run answered an error; a denial by itself answers none. */
  ghost predicate RefusedOnce(limits: Limits, original: nat, events: seq<Event>) {
    exists i :: 0 <= i <= |events| && EndsRefused(limits, original, events[..i])
  }

  lemma RefusedStays(limits: Limits, original: nat, events: seq<Event>, more: seq<Event>)
    requires events <= more && RefusedOnce(limits, original, events)
    ensures RefusedOnce(limits, original, more)
  {
    var i :| 0 <= i <= |events| && EndsRefused(limits, original, events[..i]);
    assert more[..i] == events[..i];
  }

  lemma RefusedNow(limits: Limits, original: nat, events: seq<Event>)
    requires EndsRefused(limits, original, events)
    ensures RefusedOnce(limits, original, events)
  {
    assert events[..|events|] == events;
  }

  lemma TimelyPrefix(events: seq<Event>, now: nat)
    requires Timely(events, now) && events != []
    ensures var n := |events| - 1;
            events[n].now <= now && Timely(events[..n], events[n].now)
  {
    assert events[|events| - 1] in events;
  }

  /** A run in which some section refused is over. */
  lemma {:induction false} RefusedRunIsTerminal(limits: Limits, original: nat, events: seq<Event>, now: nat)
    requires Timely(events, now) && RefusedOnce(limits, original, events)
    ensures Terminal(Run(limits, original, events), now)
    decreases |events|
  {
    hide Next, Answer, Timely;
    var i :| 0 <= i <= |events| && EndsRefused(limits, original, events[..i]);
    var n := |events| - 1;
    var front, last := events[..n], events[n];
    TimelyPrefix(events, now);
    if i <= n {
      assert front[..i] == events[..i];
      RefusedRunIsTerminal(limits, original, front, last.now);
      TerminalStays(limits, original, Run(limits, original, front), last.now, last);
    } else {
      assert events[..i] == events;
      RunAccounts(limits, original, front);
      RefusalIsTerminal(limits, original, Run(limits, original, front), last);
    }
  }

  lemma Extends(limits: Limits, original: nat, events: seq<Event>, e: Event)
    requires Timely(events, e.now)
    ensures Timely(events + [e], e.now)
    ensures Run(limits, original, events + [e]) == Next(limits, original, Run(limits, original, events), e)
    ensures EndsRefused(limits, original, events + [e]) <==> Answer(limits, original, Run(limits, original, events), e).Err?
  {
    assert (events + [e])[..|events|] == events;
    assert forall i :: 0 <= i < |events| ==> events[i] in events;
  }

  class NativeDirectoryBudget {
    const limits: Limits
    const originalExpiry: nat
    const clock: Clock
    var state: State

    ghost var events: seq<Event>  // every section so far, by every clone

    /** The state is what the run of all sections so far, in clock order, leads to. */
    ghost predicate Valid()
      reads this, clock
    {
      && state == Run(limits, originalExpiry, events) && Timely(events, clock.now)
      && state.expiry <= originalExpiry && Within(limits, state.usage)
    }

    ghost predicate Refused()
      reads this, clock
    {
      Terminal(state, clock.now)
    }

    /** The last section was `e`. */
    ghost predicate Ended(e: Event)
      reads this
    {
      events != [] && events[|events| - 1] == e
    }

    /** Some section so far answered an error. */
    ghost predicate EverRefused()
      reads this
    {
      RefusedOnce(limits, originalExpiry, events)
    }

    /** A section that refused is final for the object, whatever came after it. */
    lemma EverRefusedIsRefused()
      requires Valid() && EverRefused()
      ensures Refused()
    {
      RefusedRunIsTerminal(limits, originalExpiry, events, clock.now);
    }

    /** The state before the last section. */
    ghost function Before(): State
      reads this
    {
      Run(limits, originalExpiry, if events == [] then [] else events[..|events| - 1])
    }

    constructor (limits: Limits, originalExpiry: nat, clock: Clock)
      ensures Valid() && state == State(originalExpiry, NO_USAGE, false, false) && events == []
      ensures this.limits == limits && this.originalExpiry == originalExpiry && this.clock == clock
    {
      this.limits := limits;
      this.originalExpiry := originalExpiry;
      this.clock := clock;
      this.state := State(originalExpiry, NO_USAGE, false, false);
      this.events := [];
    }

    /** One atomic section at a fresh clock reading. */
    method Step(e: Event) returns (r: Result<(), Failure>)
      requires Valid() && e.now == clock.now
      modifies this
      ensures Valid() && Later(old(state), clock.now, state, clock.now)
      ensures events == old(events) + [e] && Before() == old(state)
      ensures state == Next(limits, originalExpiry, old(state), e)
      ensures r == Answer(limits, originalExpiry, old(state), e)
      ensures r.Err? ==> EverRefused()
      ensures r.Err? || e.DenyEvent? ==> Refused()
    {
      hide Run, RefusedOnce, EndsRefused, Timely, Later;
      r := Answer(limits, originalExpiry, state, e);
      Extends(limits, originalExpiry, events, e);
      SectionIsLater(limits, originalExpiry, state, e);
      state := Next(limits, originalExpiry, state, e);
      events := events + [e];
      assert events[..|events| - 1] == old(events);
      if r.Err? {
        RefusedNow(limits, originalExpiry, events);
      }
    }

    /** A fresh clock reading. */
    method Now() returns (now: nat)
      requires Valid()
      modifies clock
      ensures Valid() && now == clock.now >= old(clock.now)
    {
      hide Run;
      now := clock.Read();
    }

    /** Other threads: any number of sections through other clones, at later times. */
    method Others()
      requires Valid()
      modifies this, clock
      ensures Valid() && Later(old(state), old(clock.now), state, clock.now) && old(events) <= events
    {
      hide NativeDirectoryBudget.Valid;
      var n: nat :| n >= 0;
      while n > 0
        invariant Valid() && Later(old(state), old(clock.now), state, clock.now) && old(events) <= events
      {
        var now := Now();
        assert DenyEvent(now).now == now;
        var e: Event :| e.now == now;
        var _ := Step(e);
        n := n - 1;
      }
    }

    /** Prepays a fee: a check of the original deadline, then one locked section. */
    method Charge(fee: Fee) returns (r: Result<(), Failure>)
      requires Valid()
      modifies this, clock
      ensures Valid() && Later(old(state), old(clock.now), state, clock.now) && old(events) <= events
      ensures r.Err? <==> Refused()
      ensures old(Refused()) ==> r.Err?
      ensures r.Err? ==> EverRefused()
      ensures r.Ok? ==>
                && Ended(ChargeEvent(clock.now, fee)) && NoRefund(old(state).usage, Before().usage)
                && Admit(limits, Before().usage, fee) == Some(state.usage)
      ensures r.Ok? ==> Covers(old(state).usage, fee, state.usage)
      ensures || (Ended(ChargeEvent(clock.now, fee)) && ChargeSettles(limits, Before(), clock.now, fee, state, r))
              || (Ended(EarlyEvent(clock.now)) && clock.now >= originalExpiry && r == Err(Expired(None)))
      ensures r.Err? ==> forall e :: !Blames(r.error, e)
    {
      hide NativeDirectoryBudget.Valid, NativeDirectoryBudget.EverRefused, Run, ChargeSettles;
      var now := Now();
      r := Step(EarlyEvent(now));
      if r.Err? {
        return;
      }
      Others();
      now := Now();
      ChargeIsExact(limits, originalExpiry, state, now, fee);
      r := Step(ChargeEvent(now, fee));
    }

    method Check() returns (r: Result<(), Failure>)
      requires Valid()
      modifies this, clock
      ensures Valid() && Later(old(state), old(clock.now), state, clock.now) && old(events) <= events
      ensures r.Err? <==> Refused()
      ensures old(Refused()) ==> r.Err?
      ensures r.Err? ==> EverRefused()
      ensures r.Err? ==> forall e :: !Blames(r.error, e)
    {
      hide NativeDirectoryBudget.Valid, NativeDirectoryBudget.EverRefused, Run;
      r := Charge(Fee(0, 0, 0, 0, 0, 0));
    }

    /** Moves the deadline earlier; the minimum is kept even when this refuses. */
    method CapExpiry(earlier: nat) returns (r: Result<(), Failure>)
      requires Valid()
      modifies this, clock
      ensures Valid() && Later(old(state), old(clock.now), state, clock.now) && old(events) <= events
      ensures Ended(CapEvent(clock.now, earlier)) && state.expiry == Min(Before().expiry, earlier)
      ensures r == if Before().poisoned then Err(Poisoned)
                   else if clock.now >= Before().expiry || clock.now >= earlier then Err(Expired(None))
                   else if Before().denied then Err(Denied)
                   else Ok(())
      ensures r.Err? <==> Refused()
      ensures old(Refused()) ==> r.Err?
      ensures r.Err? ==> EverRefused()
    {
      hide NativeDirectoryBudget.Valid, NativeDirectoryBudget.EverRefused, Run;
      Others();
      var now := Now();
      r := Step(CapEvent(now, earlier));
    }

    method Deny()
      requires Valid()
      modifies this
      ensures Valid() && state == old(state).(denied := true) && events == old(events) + [DenyEvent(clock.now)]
      ensures old(EverRefused()) ==> EverRefused()
    {
      hide NativeDirectoryBudget.Valid, Run, RefusedOnce;
      var _ := Step(DenyEvent(clock.now));
      if old(EverRefused()) {
        RefusedStays(limits, originalExpiry, old(events), events);
      }
    }

    method AbsoluteExpiry() returns (expiry: nat)
      requires Valid()
      modifies this, clock
      ensures Valid() && Later(old(state), old(clock.now), state, clock.now) && old(events) <= events
      ensures state.expiry == expiry
    {
      hide NativeDirectoryBudget.Valid, NativeDirectoryBudget.EverRefused, Run;
      Others();
      expiry := state.expiry;
    }

    /** What has been spent so far, unless the lock is poisoned. */
    method Spent() returns (r: Result<Usage, Failure>)
      requires Valid()
      modifies this, clock
      ensures Valid() && Later(old(state), old(clock.now), state, clock.now) && old(events) <= events
      ensures r == if state.poisoned then Err(Poisoned) else Ok(state.usage)
    {
      hide NativeDirectoryBudget.Valid, NativeDirectoryBudget.EverRefused, Run;
      Others();
      return if state.poisoned then Err(Poisoned) else Ok(state.usage);
    }

    /** Classifies a completed native phase; its own error is never lost. */
    method Completed<T>(observed: Result<T, OwnershipError>) returns (r: Result<T, Failure>)
      requires Valid()
      modifies this, clock
      ensures Valid() && Later(old(state), old(clock.now), state, clock.now) && old(events) <= events
      ensures r.Err? ==> Refused()
      ensures r.Ok? ==> !Refused()
      ensures old(Refused()) ==> r.Err?
      ensures r.Ok? ==> observed == Ok(r.value)
      ensures observed.Err? ==> r == Err(Expired(Some(observed.error))) || r == Err(Ownership(observed.error))
      ensures r.Err? ==> forall e :: Blames(r.error, e) ==> observed == Err(e)
    {
      hide NativeDirectoryBudget.Valid, NativeDirectoryBudget.EverRefused, Run;
      var now := Now();
      var expiry := AbsoluteExpiry();
      if now >= expiry {
        Others();
        Deny();
        return Err(Expired(if observed.Err? then Some(observed.error) else None));
      }
      Others();
      if observed.Err? {
        Deny();
        return Err(Ownership(observed.error));
      }
      var checked := Check();
      if checked.Err? {
        return Err(checked.error);
      }
      return Ok(observed.value);
    }

    /** As `Completed`, but a timely missing name is an answer, not a refusal. */
    method CompletedOptional<T>(observed: Result<T, OwnershipError>) returns (r: Result<Option<T>, Failure>)
      requires Valid()
      modifies this, clock
      ensures Valid() && Later(old(state), old(clock.now), state, clock.now) && old(events) <= events
      ensures r.Err? ==> Refused()
      ensures r.Ok? ==> !Refused()
      ensures old(Refused()) ==> r.Err?
      ensures r.Ok? ==> r.value == if observed.Ok? then Some(observed.value) else None
      ensures r.Ok? && observed.Err? ==> observed.error.NotFound?
      ensures r.Err? ==> forall e :: Blames(r.error, e) ==> observed == Err(e)
    {
      hide NativeDirectoryBudget.Valid, NativeDirectoryBudget.EverRefused, Run;
      var now := Now();
      var expiry := AbsoluteExpiry();
      if now >= expiry {
        Others();
        Deny();
        return Err(Expired(if observed.Err? then Some(observed.error) else None));
      }
      Others();
      if observed.Err? && observed.error.NotFound? {
        var checked := Check();
        match checked
        case Ok(_) => return Ok(None);
        case Err(Expired(_)) => return Err(Expired(Some(observed.error)));
        case Err(failure) => return Err(failure);
      }
      var completed := Completed(observed);
      if completed.Err? {
        return Err(completed.error);
      }
      return Ok(Some(completed.value));
    }

    /** Ends a composed phase: any refusal is made final for every clone. */
    method Finish<T>(observed: Result<T, Failure>) returns (r: Result<T, Failure>)
      requires Valid()
      modifies this, clock
      ensures Valid() && Later(old(state), old(clock.now), state, clock.now) && old(events) <= events
      ensures r.Err? ==> state.denied
      ensures r.Ok? ==> !Refused()
      ensures old(Refused()) ==> r.Err?
      ensures r.Ok? ==> observed == Ok(r.value)
      ensures observed.Err? && observed.error.Ownership? ==>
                r == observed || r == Err(Expired(Some(observed.error.error)))
      ensures r.Err? ==> forall e :: Blames(r.error, e) ==> observed.Err? && Blames(observed.error, e)
    {
      hide NativeDirectoryBudget.Valid, NativeDirectoryBudget.EverRefused, Run;
      var now := Now();
      var expiry := AbsoluteExpiry();
      r := observed;
      if now >= expiry {
        match observed
        case Err(Ownership(error)) => r := Err(Expired(Some(error)));
        case Err(Expired(Some(error))) => r := Err(Expired(Some(error)));
        case _ => r := Err(Expired(None));
      } else if observed.Ok? {
        Others();
        var checked := Check();
        if checked.Err? {
          r := Err(checked.error);
        }
      }
      if r.Err? {
        Others();
        Deny();
      }
    }
  }
}
