/**
 * The expectations of the stack test over the trusted-stack model: the
 * test compartment's error handler, trusted-stack exhaustion by
 * self-recursion, a stack too small for the callee, and stacks with a
 * permission removed or with no tag, on a fault and on a call.
 */
module StackTests {
  import opened Common
  import opened TrustedStacks

  /** The `mcause` value of a CHERI exception (`priv::MCAUSE_CHERI`). */
  const MCAUSE_CHERI: nat := 0x1c

  /**
   * `compartment_error_handler`: a CHERI fault with `mtval == 0` (a forced
   * unwind from a callee) resumes the compartment; anything else unwinds.
   */
  function ErrorHandler(mcause: nat, mtval: nat): (b: ErrorRecoveryBehaviour)
    ensures b == InstallContext <==> mcause == MCAUSE_CHERI && mtval == 0
    ensures b == ForceUnwindBehaviour <==> mcause != MCAUSE_CHERI || mtval != 0
  {
    if mcause == MCAUSE_CHERI && mtval == 0 then InstallContext else ForceUnwindBehaviour
  }

  /** The compartments of the test: the test itself and the helper it calls. */
  const TestCompartment := ExportTable(1, true)
  const HelperCompartment := ExportTable(2, true)

  /** A well-formed stack pointer `available` bytes above its base. */
  function GoodStack(available: nat): (s: StackCapability)
    ensures CallStackValid(s) && s.Available() == available
  {
    StackCapability(true, StackPermissions, 0x1000, 0x1000 + available)
  }

  /** A thread in the test compartment that has called into the helper. */
  method InHelper() returns (ts: TrustedStack)
    ensures fresh(ts) && fresh(ts.frames) && ts.Valid() && !ts.exited
    ensures ts.Live() == [Frame(0x2000, TestCompartment, 0), Frame(0x1400 - CallSpillSize, HelperCompartment, 0)]
    ensures ts.nFrames == 8
  {
    ts := new TrustedStack(8, 1, Frame(0x2000, TestCompartment, 0));
    var o, calleeStack := ts.Call(GoodStack(0x400), HelperCompartment, 0);
    assert o == InCallee;
  }

  /**
   * Self-recursion through a callback until the trusted stack is full: the
   * calls succeed until every frame is in use, and the next one is refused
   * with `-ENOTENOUGHTRUSTEDSTACK`.
   */
  method ExhaustTrustedStack(ts: TrustedStack) returns (calls: nat, last: SwitchOutcome)
    requires ts.Valid() && !ts.exited
    modifies ts, ts.frames
    ensures ts.Valid() && !ts.exited
    ensures calls == ts.nFrames - old(ts.frameoffset)
    ensures |ts.Live()| == ts.nFrames + 1
    ensures last == CallRefused(ENOTENOUGHTRUSTEDSTACK)
  {
    calls := 0;
    var calleeStack;
    last, calleeStack := ts.Call(GoodStack(0x400), HelperCompartment, 0);
    while last == InCallee
      invariant ts.Valid() && !ts.exited
      invariant last == InCallee ==> calls + 1 + old(ts.frameoffset) == ts.frameoffset
      invariant last != InCallee ==> calls + old(ts.frameoffset) == ts.frameoffset
      invariant last == InCallee || last == CallRefused(ENOTENOUGHTRUSTEDSTACK)
      invariant last == CallRefused(ENOTENOUGHTRUSTEDSTACK) ==> ts.frameoffset == ts.nFrames
      decreases ts.nFrames - ts.frameoffset, if last == InCallee then 1 else 0
    {
      calls := calls + 1;
      last, calleeStack := ts.Call(GoodStack(0x400), HelperCompartment, 0);
    }
  }

  /**
   * A callee needing more than 128 bytes but at most 144: a 144- or 160-byte
   * stack is enough, a 128-byte one is refused with `-ENOTENOUGHSTACK`.
   * `test_with_small_stack` adds room for the switcher's spills to the
   * size it is given, so the caller's stack at the call is that much larger.
   */
  method TestStackRequirement(minimumStack: nat) returns (outcomes: seq<SwitchOutcome>)
    requires 128 < minimumStack <= 144
    ensures outcomes == [InCallee, InCallee, CallRefused(ENOTENOUGHSTACK)]
  {
    var ts := new TrustedStack(8, 1, Frame(0x2000, TestCompartment, 0));
    var o, calleeStack := ts.Call(GoodStack(144 + CallSpillSize), HelperCompartment, minimumStack);
    outcomes := [o];
    o := ts.Return(Ok(0));
    assert o == ReturnedToCaller(Ok(0));
    o, calleeStack := ts.Call(GoodStack(160 + CallSpillSize), HelperCompartment, minimumStack);
    outcomes := outcomes + [o];
    o := ts.Return(Ok(0));
    o, calleeStack := ts.Call(GoodStack(128 + CallSpillSize), HelperCompartment, minimumStack);
    outcomes := outcomes + [o];
  }

  /**
   * The helper recurses until its stack is exhausted and faults with less
   * room than the register context needs: no handler runs, and the test
   * sees `-ECOMPARTMENTFAIL`.
   */
  method TestExhaustThreadStack(available: nat) returns (o: SwitchOutcome)
    requires available < FaultSpillSize
    ensures o == ReturnedToCaller(Err(ECOMPARTMENTFAIL))
  {
    var ts := InHelper();
    o := ts.Fault(GoodStack(available));
  }

  /**
   * The helper exhausts its stack and then calls out with less room than
   * the switcher's spills need: the callee never runs, the helper is not
   * unwound, and it sees an error return.
   */
  method TestExhaustThreadStackSpill(available: nat) returns (o: SwitchOutcome, depth: nat)
    requires available < CallSpillSize
    ensures o == CallRefused(ENOTENOUGHSTACK)
    ensures depth == 2
  {
    var ts := InHelper();
    var calleeStack;
    o, calleeStack := ts.Call(GoodStack(available), TestCompartment, 0);
    depth := ts.frameoffset + 1;
  }

  /**
   * The helper faults with one stack permission removed: its handler runs
   * exactly when the stack is still mostly valid, and either way the test
   * sees `-ECOMPARTMENTFAIL`.
   */
  method TestPermissionsOnFault(removed: Permission) returns (handlerRan: bool, o: SwitchOutcome)
    requires removed in StackPermissions
    ensures handlerRan <==> removed !in StackRequiredPermissions
    ensures o == ReturnedToCaller(Err(ECOMPARTMENTFAIL))
  {
    var ts := InHelper();
    var stack := StackCapability(true, StackPermissions - {removed}, 0x1000, 0x1400);
    o := ts.Fault(stack);
    handlerRan := o == InHandler;
    WithoutOnePermission(removed);
    if o == InHandler {
      o := ts.HandlerReturn(ForceUnwindBehaviour);
    }
    assert |ts.Live()| == 1;
  }

  /** The helper calls out with one stack permission removed: the test sees `-ECOMPARTMENTFAIL`. */
  method TestPermissionsOnCall(removed: Permission) returns (o: SwitchOutcome)
    requires removed in StackPermissions
    ensures o == ReturnedToCaller(Err(ECOMPARTMENTFAIL))
  {
    var ts := InHelper();
    var stack := StackCapability(true, StackPermissions - {removed}, 0x1000, 0x1400);
    assert removed !in stack.permissions;
    var calleeStack;
    o, calleeStack := ts.Call(stack, HelperCompartment, 0);
    assert |ts.Live()| == 1;
  }

  /** The helper faults with an untagged stack: no handler, and `-ECOMPARTMENTFAIL`. */
  method TestStackInvalidOnFault() returns (o: SwitchOutcome)
    ensures o == ReturnedToCaller(Err(ECOMPARTMENTFAIL))
  {
    var ts := InHelper();
    o := ts.Fault(StackCapability(false, StackPermissions, 0x1000, 0x1400));
  }

  /** The helper calls out with an untagged stack: the callee never runs, and `-ECOMPARTMENTFAIL`. */
  method TestStackInvalidOnCall() returns (o: SwitchOutcome)
    ensures o == ReturnedToCaller(Err(ECOMPARTMENTFAIL))
  {
    var ts := InHelper();
    var calleeStack;
    o, calleeStack := ts.Call(StackCapability(false, StackPermissions, 0x1000, 0x1400), HelperCompartment, 0);
  }

  /** A second fault inside the handler unwinds without re-entering it. */
  method TestDoubleFault() returns (first: SwitchOutcome, second: SwitchOutcome)
    ensures first == InHandler
    ensures second == ReturnedToCaller(Err(ECOMPARTMENTFAIL))
  {
    var ts := InHelper();
    first := ts.Fault(GoodStack(0x400));
    second := ts.Fault(GoodStack(0x400));
  }
}
