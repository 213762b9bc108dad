/**
 * Composed denial: one operation spends a directory budget and a storage budget, asks an
 * outer health check before each step, and, when it refuses, denies both budgets before it
 * denies the outer health exactly once.
 */
module Denial {
  import opened Budget

  /** How a step ends: with a value, refused, or unwinding with a panic. */
  datatype Step<+T, +E> = Done(value: T) | Refused(refusal: E) | Unwinding {
    predicate IsFailure() {
      !Done?
    }

    function PropagateFailure<U>(): Step<U, E>
      requires !Done?
    {
      match this
      case Refused(e) => Refused(e)
      case Unwinding => Unwinding
    }

    function Extract(): T
      requires Done?
    {
      value
    }
  }

  datatype Cause =
    | CoreRefused | NativeRefused | CheckpointRefused | OwnershipRefused | AllocationRefused
    | PreValidationRefused | ProducerRefused | PostValidationRefused | PinBusy | Unwound

  /** The storage budget of the log: unseen, except that its denial is final. */
  class FetchBudget {
    const expiry: nat
    var denied: bool
    ghost var denyPanicked: bool
    ghost var refusals: nat  // checks and reports that did not pass

    ghost predicate Attempted()
      reads this
    {
      denied || denyPanicked
    }

    method Check() returns (ok: bool)
      modifies this`refusals
      ensures denied ==> !ok
      ensures refusals == old(refusals) + if ok then 0 else 1
    {
      var spent := *;
      ok := !denied && !spent;
      refusals := refusals + if ok then 0 else 1;
    }

    /** Whether the usage can be reported. */
    method Report() returns (ok: bool)
      modifies this`refusals
      ensures refusals == old(refusals) + if ok then 0 else 1
    {
      ok := *;
      refusals := refusals + if ok then 0 else 1;
    }

    method Deny() returns (panicked: bool)
      modifies this
      ensures Attempted() && (!panicked ==> denied)
    {
      panicked := *;
      var late := *;
      if !panicked || late {
        denied := true;
      }
      denyPanicked := denyPanicked || panicked;
    }
  }

  /** The caller's health check and its denial; both may panic. */
  class Health {
    ghost var denies: nat
    ghost var premature: bool  // denied while one of the two budgets was not
    ghost var refusals: nat    // checks that refused or panicked

    method Check() returns (r: Step<(), ()>)
      modifies this`refusals
      ensures refusals == old(refusals) + if r.Done? then 0 else 1
    {
      var ok, panics := *, *;
      r := if panics then Unwinding else if ok then Done(()) else Refused(());
      refusals := refusals + if r.Done? then 0 else 1;
    }

    method Deny(ghost ready: bool) returns (panicked: bool)
      modifies this
      ensures denies == old(denies) + 1 && premature == (old(premature) || !ready)
    {
      panicked := *;
      denies := denies + 1;
      premature := premature || !ready;
    }
  }

  /** The shared control state of one operation. */
  class Work {
    const core: NativeDirectoryBudget
    const native: FetchBudget
    const outer: Health
    var coreDenyAttempted: bool
    var nativeDenyAttempted: bool
    var outerDenyAttempted: bool
    var outerDenyReturned: bool
    ghost var allocationFailures: nat

    ghost const before: nat  // outer denials made by earlier operations

    constructor (core: NativeDirectoryBudget, native: FetchBudget, outer: Health)
      requires core.Valid() && !outer.premature
      ensures Valid() && !outerDenyAttempted && before == outer.denies
      ensures this.core == core && this.native == native && this.outer == outer
    {
      this.core := core;
      this.native := native;
      this.outer := outer;
      coreDenyAttempted, nativeDenyAttempted, outerDenyAttempted, outerDenyReturned := false, false, false, false;
      before := outer.denies;
      allocationFailures := 0;
    }

    /** The outer denial has been made at most once, and only after both budgets were denied. */
    ghost predicate Valid()
      reads this`coreDenyAttempted, this`nativeDenyAttempted, this`outerDenyAttempted, this`outerDenyReturned
      reads core, core.clock, native, outer
    {
      && core.Valid() && !outer.premature
      && outer.denies == before + (if outerDenyAttempted then 1 else 0)
      && (coreDenyAttempted ==> core.state.denied)
      && (nativeDenyAttempted ==> native.Attempted())
      && (outerDenyAttempted ==> coreDenyAttempted && nativeDenyAttempted)
      && (outerDenyReturned ==> outerDenyAttempted)
    }

    /** No check of the storage budget or of the outer health, and no reservation, has failed since. */
    twostate predicate Quiet()
      reads native`refusals, outer`refusals, this`allocationFailures
    {
      && native.refusals == old(native.refusals) && outer.refusals == old(outer.refusals)
      && allocationFailures == old(allocationFailures)
    }

    method Allocate() returns (ok: bool)
      modifies this`allocationFailures
      ensures allocationFailures == old(allocationFailures) + if ok then 0 else 1
    {
      ok := *;
      allocationFailures := allocationFailures + if ok then 0 else 1;
    }

    /** Both budgets and the outer health, and then both budgets again. */
    method Check() returns (r: Step<(), Cause>)
      requires Valid()
      modifies core, core.clock, native`refusals, outer`refusals
      ensures Valid() && Later(old(core.state), old(core.clock.now), core.state, core.clock.now)
      ensures old(outerDenyAttempted) ==> !r.Done?
      ensures r.Done? ==> Quiet() && !core.Refused() && !native.denied
      ensures old(core.Refused()) ==> !r.Done?
    {
      var first := core.Check();
      if first.Err? {
        return Refused(CoreRefused);
      }
      var funded := native.Check();
      if !funded {
        return Refused(NativeRefused);
      }
      var healthy := outer.Check();
      if healthy.Unwinding? {
        return Unwinding;
      }
      var second := core.Check();
      funded := native.Check();
      return if second.Err? then Refused(CoreRefused)
             else if !funded then Refused(NativeRefused)
             else if healthy.Refused? then Refused(CheckpointRefused)
             else Done(());
    }

    method DenyCore()
      requires Valid()
      modifies this`coreDenyAttempted, core
      ensures Valid() && coreDenyAttempted
    {
      if !coreDenyAttempted {
        coreDenyAttempted := true;
        core.Deny();
      }
    }

    method DenyNative()
      requires Valid()
      modifies this`nativeDenyAttempted, native
      ensures Valid() && nativeDenyAttempted
    {
      if !nativeDenyAttempted {
        nativeDenyAttempted := true;
        // A panic is kept by the caller of this step; the attempt is not repeated.
        var _ := native.Deny();
      }
    }

    /** An attempt that unwinds is still the only attempt. */
    method DenyOuter() returns (panicked: bool)
      requires Valid() && coreDenyAttempted && nativeDenyAttempted
      modifies this`outerDenyAttempted, this`outerDenyReturned, outer
      ensures Valid() && outerDenyAttempted
      ensures panicked ==> !old(outerDenyAttempted)
    {
      panicked := false;
      if !outerDenyAttempted {
        outerDenyAttempted := true;
        panicked := outer.Deny(core.state.denied && native.Attempted());
        outerDenyReturned := !panicked;
      }
    }

    /** The bridge's own denial, after any refusal; panics are caught one by one. */
    method DenyBridge()
      requires Valid()
      modifies this, core, native, outer
      ensures Valid() && outerDenyAttempted
    {
      DenyCore();
      DenyNative();
      var _ := DenyOuter();
    }

    /** Called by the validator, which has already denied both budgets. */
    method DenyFromValidation() returns (panicked: bool)
      requires Valid() && core.state.denied && native.Attempted()
      modifies this, outer
      ensures Valid() && outerDenyAttempted
    {
      coreDenyAttempted, nativeDenyAttempted := true, true;
      panicked := DenyOuter();
    }

    /** Called by a storage producer, which has denied only its own budget. */
    method DenyFromProducer() returns (panicked: bool)
      requires Valid() && native.Attempted()
      modifies this, core, outer
      ensures Valid() && outerDenyAttempted
    {
      nativeDenyAttempted := true;
      DenyCore();
      panicked := DenyOuter();
    }
  }
}
