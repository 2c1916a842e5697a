/**
 * The trusted stack: the per-thread record of every cross-compartment call
 * in flight, and the switcher's transitions over it.  A call pushes a frame
 * recording the caller's stack pointer and the callee's export table; a
 * return pops it; a fault in the callee either enters the callee's error
 * handler (bumping the frame's `errorHandlerCount` to odd) or forcibly
 * unwinds the frame, returning `-ECOMPARTMENTFAIL` to the caller.  Popping
 * the entry frame ends the thread.
 *
 * The saved register area is modelled as a layout: the list of fields with
 * their sizes, and the byte offset C's layout rules give each of them.
 */
module TrustedStacks {
  import opened Common

  /** `sizeof(void *)`: a CHERIoT capability is 8 bytes. */
  const PointerSize: nat := 8

  // ---------------------------------------------------------------------
  // Register save area layout

  /** The capability registers saved in the trusted stack, `c1` to `c15`. */
  datatype Register = CRA | CSP | CGP | CTP | CT0 | CT1 | CT2 | CS0 | CS1 | CA0 | CA1 | CA2 | CA3 | CA4 | CA5

  /** `CHERI::RegisterNumber`: the hardware index of each register. */
  function RegisterNumber(r: Register): (n: nat)
    ensures 1 <= n <= 15
  {
    match r
    case CRA => 1  case CSP => 2  case CGP => 3  case CTP => 4  case CT0 => 5
    case CT1 => 6  case CT2 => 7  case CS0 => 8  case CS1 => 9  case CA0 => 10
    case CA1 => 11 case CA2 => 12 case CA3 => 13 case CA4 => 14 case CA5 => 15
  }

  /** The register with hardware index `n`, `c1` to `c15`. */
  function RegisterOf(n: nat): (r: Register)
    requires 1 <= n <= 15
    ensures RegisterNumber(r) == n
  {
    match n
    case 1 => CRA  case 2 => CSP  case 3 => CGP  case 4 => CTP  case 5 => CT0
    case 6 => CT1  case 7 => CT2  case 8 => CS0  case 9 => CS1  case 10 => CA0
    case 11 => CA1 case 12 => CA2 case 13 => CA3 case 14 => CA4 case _ => CA5
  }

  /** The fields of `TrustedStackGeneric` that precede the frames. */
  datatype FieldName = Mepcc | Saved(r: Register) | HazardPointers | Mstatus | Mcause
                     | FrameOffset | ThreadID | Padding
                     | FrameCsp | FrameCalleeExportTable | FrameErrorHandlerCount

  /** A field's name, size and alignment in bytes. */
  datatype FieldDecl = FieldDecl(name: FieldName, size: nat, align: nat)

  /** `mepcc`, then `cra` (`c1`) to `ca5` (`c15`) in register-number order: 16 pointers. */
  const RegisterSaveArea: seq<FieldDecl> :=
    seq(16, n requires 0 <= n < 16 =>
              FieldDecl(if n == 0 then Mepcc else Saved(RegisterOf(n)), PointerSize, PointerSize))

  /** The header fields in declaration order, without `CONFIG_MSHWM` (`size_t` is 4 bytes). */
  const TrustedStackFields: seq<FieldDecl> := RegisterSaveArea + [
    FieldDecl(HazardPointers, PointerSize, PointerSize),
    FieldDecl(Mstatus, 4, 4),
    FieldDecl(Mcause, 4, 4),
    FieldDecl(FrameOffset, 2, 2),
    FieldDecl(ThreadID, 2, 2),
    FieldDecl(Padding, 4, 1)
  ]

  /** The fields of `TrustedStackFrame`. */
  const FrameFields: seq<FieldDecl> := [
    FieldDecl(FrameCsp, PointerSize, PointerSize),
    FieldDecl(FrameCalleeExportTable, PointerSize, PointerSize),
    FieldDecl(FrameErrorHandlerCount, 2, 2)
  ]

  /** The smallest multiple of `align` that is at least `offset`. */
  function AlignUp(offset: nat, align: nat): (r: nat)
    ensures offset <= r
  {
    if align == 0 || offset % align == 0 then offset else offset + (align - offset % align)
  }

  /** The offset just past the first `n` fields, laid out by C's rules. */
  function FieldsEnd(fields: seq<FieldDecl>, n: nat): nat
    requires n <= |fields|
  {
    if n == 0 then 0 else AlignUp(FieldsEnd(fields, n - 1), fields[n - 1].align) + fields[n - 1].size
  }

  /** `offsetof`: the byte offset of field `i`. */
  function OffsetOf(fields: seq<FieldDecl>, i: nat): nat
    requires i < |fields|
  {
    AlignUp(FieldsEnd(fields, i), fields[i].align)
  }

  /** `sizeof` of a structure whose strictest alignment is a pointer's. */
  function SizeOf(fields: seq<FieldDecl>): nat
  {
    AlignUp(FieldsEnd(fields, |fields|), PointerSize)
  }

  /** After `n` pointer-sized, pointer-aligned fields the offset is `n` pointers. */
  lemma {:induction false} PointerFieldsEnd(fields: seq<FieldDecl>, n: nat)
    requires n <= |fields|
    requires forall k :: 0 <= k < n ==> fields[k].size == PointerSize && fields[k].align == PointerSize
    ensures FieldsEnd(fields, n) == PointerSize * n
  {
    if n > 0 {
      PointerFieldsEnd(fields, n - 1);
      assert (PointerSize * (n - 1)) % PointerSize == 0;
    }
  }

  /**
   * The register-offset static asserts: the field saving register `n` lies
   * `n` pointers into the trusted stack, and `mepcc` at its start.
   */
  lemma RegisterOffsets(r: Register)
    ensures TrustedStackFields[RegisterNumber(r)].name == Saved(r)
    ensures OffsetOf(TrustedStackFields, RegisterNumber(r)) == PointerSize * RegisterNumber(r)
    ensures TrustedStackFields[0].name == Mepcc && OffsetOf(TrustedStackFields, 0) == 0
  {
    var n := RegisterNumber(r);
    assert TrustedStackFields[n] == RegisterSaveArea[n];
    assert RegisterOf(n) == r by {
      match r
      case CRA => case CSP => case CGP => case CTP => case CT0 => case CT1 => case CT2 => case CS0 =>
      case CS1 => case CA0 => case CA1 => case CA2 => case CA3 => case CA4 => case CA5 =>
    }
    PointerFieldsEnd(TrustedStackFields, n);
    assert (PointerSize * n) % PointerSize == 0;
  }

  /** A frame is 24 bytes and the header 152, so `TrustedStack` (one frame) is 176: a multiple of 16. */
  lemma TrustedStackSize()
    ensures SizeOf(FrameFields) == 24
    ensures SizeOf(TrustedStackFields) == 152
    ensures (SizeOf(TrustedStackFields) + 1 * SizeOf(FrameFields)) % 16 == 0
  {
    PointerFieldsEnd(TrustedStackFields, 16);
    PointerFieldsEnd(FrameFields, 2);
    var f := TrustedStackFields;
    assert FieldsEnd(f, 17) == 136 by { assert f[16].size == PointerSize && f[16].align == PointerSize; }
    assert FieldsEnd(f, 18) == 140 by { assert f[17] == FieldDecl(Mstatus, 4, 4); }
    assert FieldsEnd(f, 19) == 144 by { assert f[18] == FieldDecl(Mcause, 4, 4); }
    assert FieldsEnd(f, 20) == 146 by { assert f[19] == FieldDecl(FrameOffset, 2, 2); }
    assert FieldsEnd(f, 21) == 148 by { assert f[20] == FieldDecl(ThreadID, 2, 2); }
    assert FieldsEnd(f, 22) == 152 by { assert f[21] == FieldDecl(Padding, 4, 1); }
  }

  // ---------------------------------------------------------------------
  // Stack capabilities

  /** The permission bits of a capability. */
  datatype Permission = Global | LoadGlobal | Store | LoadMutable | StoreLocal | Load
                      | LoadStoreCapability | AccessSystemRegisters | Execute | Unseal | Seal | User0

  /** The permissions of a compartment's stack as the switcher hands it out. */
  const StackPermissions: set<Permission> := {Load, Store, LoadStoreCapability, LoadMutable, LoadGlobal, StoreLocal}

  /** What the switcher needs to spill a register frame onto the stack. */
  const StackRequiredPermissions: set<Permission> := {Load, Store, LoadStoreCapability}

  /** The stack pointer of a thread: its tag, permissions, base and address. */
  datatype StackCapability = StackCapability(tagged: bool, permissions: set<Permission>, base: nat, address: nat)
  {
    /** Bytes below the stack pointer. */
    function Available(): nat
    {
      if address >= base then address - base else 0
    }
  }

  /**
   * `stack_is_mostly_valid`: the required permissions can be derived from
   * the given ones, so the switcher can spill a register frame and run the
   * error handler.
   */
  predicate StackIsMostlyValid(permissions: set<Permission>): (ok: bool)
    ensures ok <==> Load in permissions && Store in permissions && LoadStoreCapability in permissions
  {
    StackRequiredPermissions <= permissions
  }

  /** Removing one permission from a stack leaves it mostly valid exactly when it is not a required one. */
  lemma WithoutOnePermission(p: Permission)
    requires p in StackPermissions
    ensures StackIsMostlyValid(StackPermissions - {p}) <==> p !in StackRequiredPermissions
  {
    if p in StackRequiredPermissions {
      assert p !in StackPermissions - {p};
    }
  }

  /** The stack a call accepts: tagged and carrying every stack permission. */
  predicate CallStackValid(stack: StackCapability)
  {
    stack.tagged && StackPermissions <= stack.permissions
  }

  /** A stack valid for a call is valid for spilling on a fault. */
  lemma CallStackIsMostlyValid(stack: StackCapability)
    requires CallStackValid(stack)
    ensures StackIsMostlyValid(stack.permissions)
  {
  }

  /** The stack a call needs for the switcher's spills: four capabilities. */
  const CallSpillSize: nat := 4 * PointerSize

  /**
   * The stack a fault needs before the error handler can run: the register
   * context, `mepcc` and `c1` to `c15`, as laid out in the save area.
   */
  const FaultSpillSize: nat := 16 * PointerSize

  /** The register context a fault spills is exactly the save area of the trusted stack. */
  lemma FaultSpillIsSaveArea()
    ensures FaultSpillSize == FieldsEnd(RegisterSaveArea, |RegisterSaveArea|)
  {
    PointerFieldsEnd(RegisterSaveArea, 16);
  }

  /**
   * The bounds of the stack a callee runs on: the addresses from `base` up
   * to, but not including, `top`.
   */
  datatype BoundedStack = BoundedStack(base: nat, top: nat)
  {
    predicate Contains(a: nat)
    {
      base <= a < top
    }

    function Size(): nat
    {
      if top >= base then top - base else 0
    }
  }

  /**
   * The stack handed to a callee: the caller's stack cut off below the
   * switcher's spills, which sit just under the caller's stack pointer, so
   * the spills and everything the caller has pushed lie outside it.
   */
  function CalleeStackOf(stack: StackCapability): (c: BoundedStack)
    ensures forall a: nat :: c.Contains(a) <==> stack.base <= a < stack.address - CallSpillSize
    ensures c.Size() == if stack.Available() >= CallSpillSize then stack.Available() - CallSpillSize else 0
  {
    BoundedStack(stack.base, if stack.address >= CallSpillSize then stack.address - CallSpillSize else 0)
  }

  // ---------------------------------------------------------------------
  // Frames and the switcher's decisions

  /** The callee's export table, as far as faults need it: whether it has an error handler. */
  datatype ExportTable = ExportTable(compartment: nat, hasErrorHandler: bool)

  /** `TrustedStackFrame`. */
  datatype Frame = Frame(csp: nat, calleeExportTable: ExportTable, errorHandlerCount: u16)
  {
    /** The low bit of the count: a fault is being handled. */
    predicate InHandler()
    {
      errorHandlerCount % 2 == 1
    }
  }

  /** Incrementing a `uint16_t`, wrapping at 65536. */
  function IncrementCount(c: u16): (r: u16)
    ensures r == if c == UINT16_MAX then 0 else c + 1
  {
    (c + 1) % (UINT16_MAX + 1)
  }

  /** Each increment flips the parity, wrap-around included, so two restore it. */
  lemma IncrementFlipsParity(c: u16)
    ensures IncrementCount(c) % 2 != c % 2
    ensures IncrementCount(IncrementCount(c)) % 2 == c % 2
  {
  }

  /** How the switcher treats a cross-compartment call. */
  datatype CallDecision = UnwindCaller | Refuse(errno: Errno) | Enter

  /**
   * The checks on a call, in order: a stack that is not a valid stack
   * unwinds the caller; a full trusted stack is refused with
   * `-ENOTENOUGHTRUSTEDSTACK`; a stack without room for the switcher's
   * spills and the callee's declared minimum is refused with
   * `-ENOTENOUGHSTACK`; otherwise the callee is entered.
   */
  function DecideCall(stack: StackCapability, framesFull: bool, minimumStack: nat): (d: CallDecision)
    ensures d == UnwindCaller <==> !CallStackValid(stack)
    ensures d == Refuse(ENOTENOUGHTRUSTEDSTACK) <==> CallStackValid(stack) && framesFull
    ensures d == Refuse(ENOTENOUGHSTACK) <==>
              CallStackValid(stack) && !framesFull && stack.Available() < CallSpillSize + minimumStack
    ensures d == Enter <==> CallStackValid(stack) && !framesFull && CallSpillSize + minimumStack <= stack.Available()
  {
    if !CallStackValid(stack) then UnwindCaller
    else if framesFull then Refuse(ENOTENOUGHTRUSTEDSTACK)
    else if stack.Available() < CallSpillSize + minimumStack then Refuse(ENOTENOUGHSTACK)
    else Enter
  }

  /** More stack never turns an admitted call into a refused one. */
  lemma DecideCallMonotone(stack: StackCapability, framesFull: bool, minimumStack: nat, larger: StackCapability)
    requires DecideCall(stack, framesFull, minimumStack) == Enter
    requires larger.tagged && larger.permissions == stack.permissions && larger.Available() >= stack.Available()
    ensures DecideCall(larger, framesFull, minimumStack) == Enter
  {
  }

  /** What happens on a fault. */
  datatype FaultDecision = EnterHandler | ForceUnwind

  /**
   * A fault enters the callee's error handler when the frame is not already
   * handling one, the callee has a handler, and the stack is tagged, has
   * the permissions a spill needs and room for the register context;
   * anything else unwinds the frame.
   */
  function DecideFault(top: Frame, stack: StackCapability): (d: FaultDecision)
    ensures d == EnterHandler <==>
              !top.InHandler() && top.calleeExportTable.hasErrorHandler
              && stack.tagged && StackIsMostlyValid(stack.permissions) && FaultSpillSize <= stack.Available()
  {
    if top.InHandler() then ForceUnwind
    else if top.calleeExportTable.hasErrorHandler && stack.tagged && StackIsMostlyValid(stack.permissions)
            && FaultSpillSize <= stack.Available()
    then EnterHandler
    else ForceUnwind
  }

  /** A stack exhausted below the register context never runs the error handler. */
  lemma ExhaustedStackUnwinds(top: Frame, stack: StackCapability)
    requires stack.Available() < FaultSpillSize
    ensures DecideFault(top, stack) == ForceUnwind
  {
  }

  /** A double fault never re-enters the handler. */
  lemma DoubleFaultUnwinds(top: Frame, stack: StackCapability)
    requires top.InHandler()
    ensures DecideFault(top, stack) == ForceUnwind
  {
  }

  /** What the error handler asks for when it returns. */
  datatype ErrorRecoveryBehaviour = InstallContext | ForceUnwindBehaviour

  /** Where control goes after a switcher transition. */
  datatype SwitchOutcome =
    | InCallee                      // running in the compartment of the top frame
    | InHandler                     // running the top frame's error handler
    | ReturnedToCaller(ret: Status) // the top frame was popped; its caller sees `ret`
    | CallRefused(errno: Errno)     // the call was refused; the caller sees `-errno`
    | ThreadExited                  // the entry frame was popped

  // ---------------------------------------------------------------------
  // The trusted stack

  /** `TrustedStackGeneric<NFrames>`: the frame array and the cursor. */
  class TrustedStack {
    const nFrames: nat
    /** Never modified after creation. */
    const threadID: u16
    const frames: array<Frame>
    /** The index of the top frame (the model counts frames, not bytes). */
    var frameoffset: nat
    /** The entry frame has been popped. */
    var exited: bool

    ghost predicate Valid()
      reads this
    {
      frames.Length == nFrames + 1 && frameoffset <= nFrames
    }

    /** The frames in use, entry frame first. */
    ghost function Live(): (live: seq<Frame>)
      requires Valid()
      reads this, frames
      ensures 1 <= |live| <= nFrames + 1
    {
      frames[..frameoffset + 1]
    }

    /** A thread starts with one frame, describing its entry point. */
    constructor (nFrames: nat, threadID: u16, entry: Frame)
      ensures Valid() && !exited
      ensures this.nFrames == nFrames && this.threadID == threadID
      ensures Live() == [entry]
      ensures fresh(frames)
    {
      this.nFrames := nFrames;
      this.threadID := threadID;
      frames := new Frame[nFrames + 1](_ => entry);
      frameoffset := 0;
      exited := false;
    }

    /**
     * A cross-compartment call with the caller's stack `stack` into a
     * callee needing `minimumStack` bytes.  An entered call spills below
     * the caller's stack pointer, pushes a frame whose `csp` points at the
     * spills, and hands the callee `calleeStack`, whose upper limit is that
     * saved `csp`: every address the callee can reach lies below it, and
     * there are at least `minimumStack` of them.
     */
    method Call(stack: StackCapability, callee: ExportTable, minimumStack: nat)
      returns (o: SwitchOutcome, calleeStack: Option<BoundedStack>)
      requires Valid() && !exited
      modifies this, frames
      ensures Valid()
      ensures var d := DecideCall(stack, old(frameoffset) == nFrames, minimumStack);
              && (d == Enter ==>
                    o == InCallee && !exited
                    && Live() == old(Live()) + [Frame(CalleeStackOf(stack).top, callee, 0)]
                    && calleeStack == Some(CalleeStackOf(stack))
                    && calleeStack.value.top == Live()[|Live()| - 1].csp
                    && (forall a: nat :: calleeStack.value.Contains(a) ==> a < Live()[|Live()| - 1].csp)
                    && minimumStack <= calleeStack.value.Size())
              && (d.Refuse? ==> o == CallRefused(d.errno) && !exited && Live() == old(Live()) && calleeStack == None)
              && (d == UnwindCaller ==> UnwoundOnce(old(Live()), Live(), exited, o) && calleeStack == None)
    {
      var d := DecideCall(stack, frameoffset == nFrames, minimumStack);
      match d {
        case UnwindCaller =>
          o := Unwind();
          calleeStack := None;
        case Refuse(errno) =>
          o := CallRefused(errno);
          calleeStack := None;
        case Enter =>
          calleeStack := Some(CalleeStackOf(stack));
          frames[frameoffset + 1] := Frame(calleeStack.value.top, callee, 0);
          frameoffset := frameoffset + 1;
          o := InCallee;
          assert Live() == old(Live()) + [Frame(calleeStack.value.top, callee, 0)];
      }
    }

    /** A normal return with `value`: pop the top frame; popping the entry frame ends the thread. */
    method Return(value: Status) returns (o: SwitchOutcome)
      requires Valid() && !exited
      modifies this
      ensures Valid()
      ensures |old(Live())| == 1 ==> o == ThreadExited && exited && Live() == old(Live())
      ensures |old(Live())| > 1 ==>
                o == ReturnedToCaller(value) && !exited && Live() == old(Live())[..|old(Live())| - 1]
    {
      if frameoffset == 0 {
        exited := true;
        o := ThreadExited;
      } else {
        frameoffset := frameoffset - 1;
        o := ReturnedToCaller(value);
      }
    }

    /** Forcibly unwind the top frame: its caller sees `-ECOMPARTMENTFAIL`. */
    method Unwind() returns (o: SwitchOutcome)
      requires Valid() && !exited
      modifies this
      ensures Valid()
      ensures UnwoundOnce(old(Live()), Live(), exited, o)
    {
      if frameoffset == 0 {
        exited := true;
        o := ThreadExited;
      } else {
        frameoffset := frameoffset - 1;
        o := ReturnedToCaller(Err(ECOMPARTMENTFAIL));
      }
    }

    /**
     * A fault in the compartment of the top frame, with `stack` the stack
     * pointer at the time.  Entering the handler makes the count odd.
     */
    method Fault(stack: StackCapability) returns (o: SwitchOutcome)
      requires Valid() && !exited
      modifies this, frames
      ensures Valid()
      ensures var top := old(frames[frameoffset]);
              && (DecideFault(top, stack) == EnterHandler ==>
                    o == InHandler && !exited
                    && Live() == old(Live())[|old(Live())| - 1 := top.(errorHandlerCount := IncrementCount(top.errorHandlerCount))]
                    && Live()[|Live()| - 1].InHandler())
              && (DecideFault(top, stack) == ForceUnwind ==> UnwoundOnce(old(Live()), Live(), exited, o))
    {
      var top := frames[frameoffset];
      if DecideFault(top, stack) == EnterHandler {
        IncrementFlipsParity(top.errorHandlerCount);
        frames[frameoffset] := top.(errorHandlerCount := IncrementCount(top.errorHandlerCount));
        o := InHandler;
      } else {
        o := Unwind();
      }
    }

    /**
     * The error handler of the top frame returns: the count becomes even
     * again; `InstallContext` resumes the compartment, anything else unwinds.
     */
    method HandlerReturn(behaviour: ErrorRecoveryBehaviour) returns (o: SwitchOutcome)
      requires Valid() && !exited && frames[frameoffset].InHandler()
      modifies this, frames
      ensures Valid()
      ensures var top := old(frames[frameoffset]);
              var back := old(Live())[|old(Live())| - 1 := top.(errorHandlerCount := IncrementCount(top.errorHandlerCount))];
              && !back[|back| - 1].InHandler()
              && (behaviour == InstallContext ==> o == InCallee && !exited && Live() == back)
              && (behaviour == ForceUnwindBehaviour ==> UnwoundOnce(back, Live(), exited, o))
    {
      var top := frames[frameoffset];
      IncrementFlipsParity(top.errorHandlerCount);
      frames[frameoffset] := top.(errorHandlerCount := IncrementCount(top.errorHandlerCount));
      if behaviour == InstallContext {
        o := InCallee;
      } else {
        o := Unwind();
      }
    }
  }

  /**
   * One forced unwind from `before` to `after`: the top frame is gone and
   * its caller sees `-ECOMPARTMENTFAIL`, or, if it was the entry frame, the
   * thread exits.
   */
  ghost predicate UnwoundOnce(before: seq<Frame>, after: seq<Frame>, exited: bool, o: SwitchOutcome)
  {
    && |before| >= 1
    && (|before| == 1 ==> o == ThreadExited && exited && after == before)
    && (|before| > 1 ==> o == ReturnedToCaller(Err(ECOMPARTMENTFAIL)) && !exited
                         && after == before[..|before| - 1])
  }
}
