# CHERIoT RTOS futexes, multiwaiters, trusted stack and string helpers in Dafny

This project models five parts of the CHERIoT RTOS core and proves properties about them.

- **Scheduler futexes** (`scheduler.dfy`, module `Scheduler`). This covers:
  - the priority-sorted futex waiting list;
  - waking up to `count` waiters on a futex word;
  - priority inheritance:
    - the owner of a lock is boosted to the highest priority among its waiters;
    - waiters are retargeted when the owner changes;
    - boosts are reset on wake;
  - the decisions of `futex_timed_wait` and `futex_wake`;
  - `get_thread`, `typed_op` and `thread_systemtick_get`.

  The scheduler is a class. Its fields are the waiting list, the threads readied in wake order, the `priority_boost` calls made, and the running thread's futex fields. Its methods walk the list with loops that are proved against specification functions (`Woken`, `StillWaiting`, `BoostUpdatedAll`, `BoostResetAll`).
- **Multiwaiters** (`multiwaiter.dfy`, module `MultiWaiters`). This covers:
  - `multiwaiter_wait`, split at the point where the thread sleeps (`Wait`, then `Resume`);
  - `set_events` and `get_results` over an array of `EventWaiterSource`s;
  - a bounded message queue with non-blocking send and receive;
  - replays of the multiwaiter test's scenarios.
- **Timeouts** (`timeout.dfy`, module `Timeouts`). The timeout record and its saturating `elapse`, both as a value and as an object updated in place.
- **String helpers** (`strings.dfy`, modules `Strings` and `StringsProofs`):
  - `memchr`, `memrchr`, `strnlen`, and `strtol`/`strtoul` with 32-bit `long`, over byte sequences;
  - round-trip lemmas;
  - the misc test's expectations.
- **Trusted stack** (`tstack.dfy`, module `TrustedStacks`). This covers:
  - the field layout of `TrustedStackGeneric`, with its register-offset static asserts;
  - the switcher's decisions on calls and faults;
  - a class holding the frame array and the top-frame cursor, with call, return, forced unwind, fault and error-handler return.

  `stacktest.dfy` (module `StackTests`) replays the stack test's expectations against it.

Each error code is a constructor of `Common.Errno`. A C return value `-E` is modelled as `Err(E)`, and a non-negative return value `n` as `Ok(n)`.

Inputs that the code reads from the environment are parameters:
- whether a pointer check passes;
- the value at a futex address;
- how `Thread::suspend` returned;
- whether memory was freed while the thread slept;
- the yield predicates of the current thread.

## Model

| member | source | states |
|---|---|---|
| Timeouts.FromRemaining | tests/misc-test.cc:33-36 | `Timeout{r}` as a value: nothing elapsed, r remaining |
| Timeouts.Elapsed | tests/misc-test.cc:38-57 | `elapse(ticks)`: a finite remaining drops by ticks and stops at 0; an unlimited one is kept; elapsed becomes min(UINT32_MAX, elapsed + ticks), the saturating add |
| Timeouts.ZeroTimeoutNeverBlocks | tests/misc-test.cc:33-36 | a zero timeout does not block |
| Timeouts.ElapseSaturates | tests/misc-test.cc:38-47 | elapsing a timeout with 0 remaining and UINT32_MAX elapsed leaves both values unchanged |
| Timeouts.UnlimitedStaysUnlimited | tests/misc-test.cc:49-57 | an unlimited timeout stays unlimited and still blocks after any elapse |
| Timeouts.ElapseComposes | tests/misc-test.cc:17-28 | elapsing by a and then by b is one elapse by a + b, capped at UINT32_MAX: saturation loses nothing |
| Timeouts.ExhaustedNeverBlocks | tests/misc-test.cc:17-28 | once the elapsed ticks reach the remaining count, a finite timeout no longer blocks |
| Timeouts.Timeout.constructor | tests/misc-test.cc:34 | `Timeout{r}` holds remaining r and nothing elapsed |
| Timeouts.Timeout.WithElapsed | tests/misc-test.cc:39 | `Timeout{elapsed, remaining}` holds both values as given |
| Timeouts.Timeout.Elapse | tests/misc-test.cc:42-53 | the in-place `elapse` leaves the object holding exactly `Elapsed` of its old value |
| Timeouts.CheckTimeouts | tests/misc-test.cc:29-58 | replayed on the in-place class: the zero timeout does not block; {UINT32_MAX, 0} is still {UINT32_MAX, 0} after `elapse(42)`; the unlimited timeout keeps its remaining value and still blocks |
| Strings.MemChr | tests/misc-test.cc:60-95 | the index of the first occurrence of `(unsigned char)c` among the first n bytes, NULs included; null exactly when there is none; null for n = 0 |
| Strings.MemRChr | tests/misc-test.cc:97-132 | the index of the last occurrence among the first n bytes; null exactly when there is none |
| Strings.MemChrMemRChrAgree | tests/misc-test.cc:115-118 | memchr and memrchr are null together, and the first occurrence is at or before the last; they are equal exactly when the byte occurs once |
| Strings.StrNLen | tests/misc-test.cc:381-387 | at most maxlen, no NUL before the result, and the result is maxlen or indexes a NUL |
| Strings.StrNLenIsMinStrLen | tests/misc-test.cc:381-387 | on a terminated string, strnlen(s, m) = min(m, strlen(s)) |
| Strings.StrToUL | sdk/include/stdlib.h:419-430 | the result lies in 0..ULONG_MAX (32-bit), the end index lies within the string, and nothing converted gives 0 |
| Strings.StrToL | sdk/include/stdlib.h:407-416 | the result lies in LONG_MIN..LONG_MAX (32-bit), and nothing converted gives 0 |
| StringsProofs.DecimalRoundTrip | tests/misc-test.cc:144-146 | strtoul and strtol in base 10 read back every in-range decimal rendering, ending just past its last digit |
| StringsProofs.StrToLNegativeRoundTrip | tests/misc-test.cc:147-149 | strtol reads back "-" plus the decimal rendering of m down to LONG_MIN, in base 10 and in base 0 |
| StringsProofs.DecimalOutOfRangeClamps | sdk/include/stdlib.h:407-430 | out of range, strtoul reads a decimal above ULONG_MAX as ULONG_MAX and strtol one above LONG_MAX as LONG_MAX and its negation below LONG_MIN as LONG_MIN, each consuming every digit |
| StringsProofs.StrToULHexPrefix | tests/misc-test.cc:151-153 | in base 0, "0x" plus hex digits converts in base 16, and the end index stops at the following non-digit |
| StringsProofs.CheckStrtolZero | tests/misc-test.cc:144 | strtol("0", 10) = 0 |
| StringsProofs.CheckStrtoulMax | tests/misc-test.cc:145-146 | strtoul("4294967295", 10) = UINT32_MAX |
| StringsProofs.CheckStrtolMin | tests/misc-test.cc:147-148 | strtol("-2147483648", 10) = INT32_MIN |
| StringsProofs.CheckStrtolMinusOne | tests/misc-test.cc:149 | strtol("-1", 0) = -1 |
| StringsProofs.CheckStrtoulPrefix | tests/misc-test.cc:151-153 | strtoul("0x123 45", &r, 0) = 0x123, with r five bytes in |
| StringsProofs.CheckMemChr | tests/misc-test.cc:72-95 | each memchr expectation of the misc test |
| StringsProofs.CheckMemRChr | tests/misc-test.cc:109-132 | each memrchr expectation of the misc test |
| StringsProofs.CheckStrNLen | tests/misc-test.cc:381-387 | strnlen("Hello world", 3) = 3 and strnlen("Hello world", SIZE_MAX) = 11 |
| Scheduler.GetThread | sdk/core/scheduler/main.cc:208-215 | null exactly for id 0 or an id above the thread count; otherwise slot id - 1, inside the table |
| Scheduler.GetThreadInjective | sdk/core/scheduler/main.cc:208-215 | distinct valid ids name distinct threads |
| Scheduler.BoostFor | sdk/core/scheduler/main.cc:61-80 | the boost is at least the given priority and at least the priority of every waiter boosting the thread, and it equals one of them |
| Scheduler.BoostForIsMaximum | sdk/core/scheduler/main.cc:61-80 | any bound on the given priority and on every boosting waiter bounds the boost, so the boost is the maximum whatever the list order |
| Scheduler.BoostForIgnoresOthers | sdk/core/scheduler/main.cc:70-80 | waiters that boost nobody, or another thread, leave the given priority unchanged |
| Scheduler.BoostUpdated | sdk/core/scheduler/main.cc:82-95 | a priority-inheriting waiter on `key` now boosts the new owner; no waiter's futex changes; waiters elsewhere are unchanged |
| Scheduler.BoostReset | sdk/core/scheduler/main.cc:97-119 | a waiter on `key` no longer boosts the waker; waiters boosting another owner, and waiters elsewhere, are unchanged |
| Scheduler.BoostUpdateTargetsKeyOnly | sdk/core/scheduler/main.cc:82-95 | over the whole list, every priority-inheriting waiter on `key` boosts the owner, and nothing else changes |
| Scheduler.BoostResetTargetsKeyOnly | sdk/core/scheduler/main.cc:97-119 | over the whole list, no waiter on `key` boosts the waker, and nothing else changes |
| Scheduler.UpdatedOwnerInheritsFromKey | sdk/core/scheduler/main.cc:505-510 | after the update, the owner's boost is at least the priority of every priority-inheriting waiter on `key` |
| Scheduler.BoostUpdatedAsWritten | sdk/core/scheduler/main.cc:86-95 | the code as written: every priority-inheriting waiter's address becomes `key`, and the waiter is retargeted when `key` is non-zero |
| Scheduler.BoostResetAsWritten | sdk/core/scheduler/main.cc:107-119 | the code as written: every priority-inheriting waiter's address becomes `key`, and a waiter boosting the waker is cleared when `key` is non-zero |
| Scheduler.BoostUpdateMovesOtherWaiters | sdk/core/scheduler/main.cc:88-92 | as written, a waiter on another futex is moved onto `key` and woken by the next wake of `key`; the intended update leaves it alone |
| Scheduler.BoostResetDropsOtherBoosts | sdk/core/scheduler/main.cc:109-117 | as written, a waiter on another futex held by the same owner stops boosting it; the intended reset keeps its boost |
| Scheduler.BoostUpdateCounterexample | sdk/core/scheduler/main.cc:88-92 | thread 3, waiting on 0x2000, is dragged onto 0x1000 by an update of 0x1000 |
| Scheduler.WokenIsPrefixOfOnKey | sdk/core/scheduler/main.cc:158-179 | the wake readies exactly the first min(count, n) of the n waiters on `key`, in list order |
| Scheduler.WakePartitionsList | sdk/core/scheduler/main.cc:166-179 | woken and remaining waiters together are the old list, as a multiset |
| Scheduler.WakeAllLeavesNoneOnKey | sdk/core/scheduler/main.cc:166-179 | when count covers every waiter on `key`, none remains on it, and the rest keep their order |
| Scheduler.WakeKeepsPriorityOrder | sdk/core/scheduler/main.cc:49-52 | on a priority-sorted list, the woken threads are in priority order and the list stays sorted |
| Scheduler.BoostKeepsPriorityOrder | sdk/core/scheduler/main.cc:49-52 | retargeting or resetting boosts keeps a priority-sorted list sorted |
| Scheduler.WakeYield | sdk/core/scheduler/main.cc:560-575 | iff conditions for each kind: NoYield when nothing woke or the caller is alone at the top; YieldLater with peers before a full tick; otherwise YieldNow |
| Scheduler.SystemTick | sdk/core/scheduler/main.cc:432-440 | hi * 2^32 + lo is the 64-bit tick count |
| Scheduler.SystemTickInjective | sdk/core/scheduler/main.cc:432-440 | the two halves determine the tick count |
| Scheduler.TypedOp | sdk/core/scheduler/main.cc:249-276 | a handle that fails to unseal gives -EINVAL and runs nothing; otherwise fn's result is returned, with a yield exactly when fn asked for one |
| Scheduler.Scheduler.constructor | sdk/core/scheduler/main.cc:49-52 | the initial waiting list and current thread; nothing readied or boosted yet |
| Scheduler.Scheduler.WakeWaiters | sdk/core/scheduler/main.cc:158-194 | the list becomes `StillWaiting` and the readied threads grow by `Woken`; the PI flag is set iff a woken waiter inherits; woke lies between the list wakes and count, and equals them without multiwaiters; a priority-sorted list stays sorted |
| Scheduler.Scheduler.PriorityBoostUpdate | sdk/core/scheduler/main.cc:86-95 | the waiting list becomes `BoostUpdatedAll` of the old list; runs the intended `==` comparison rather than the assignment at line 90 (see Findings) |
| Scheduler.Scheduler.PriorityBoostReset | sdk/core/scheduler/main.cc:107-119 | the waiting list becomes `BoostResetAll` of the old list; runs the intended `==` comparison rather than the assignment at line 111 (see Findings); a priority-sorted list stays sorted |
| Scheduler.Scheduler.FutexTimedWait | sdk/core/scheduler/main.cc:457-511 | bad pointers give -EINVAL and change nothing; a changed word gives 0 and changes nothing; a PI wait on an invalid owner or on itself gives -EINVAL after setting the wait fields; otherwise the thread sleeps as `SleepEffect` states; priority boosts use the intended `==` comparisons of lines 90 and 111 (see Findings) |
| Scheduler.Scheduler.Sleep | sdk/core/scheduler/main.cc:505-541 | PI waiters are retargeted and the owner is boosted, then unboosted; the wait address ends at 0; the result is -ETIMEDOUT iff the timer woke the thread (or the key was 0), -EINVAL iff the memory was freed, and 0 otherwise; priority boosts use the intended `==` comparisons of lines 90 and 111 (see Findings) |
| Scheduler.Scheduler.FutexWake | sdk/core/scheduler/main.cc:544-611 | an invalid pointer gives -EINVAL and changes nothing; otherwise it wakes as `WakeWaiters` does and returns the count and the `WakeYield` decision; when a PI waiter woke, the waker's boosts through `key` are reset and it is reboosted from the remaining waiters; priority boosts use the intended `==` comparisons of lines 90 and 111 (see Findings); a priority-sorted list stays sorted |
| MultiWaiters.MessageQueue.constructor | tests/multiwaiter-test.cc:77-81 | an empty queue of the given capacity |
| MultiWaiters.MessageQueue.Send | tests/multiwaiter-test.cc:82-85 | with room, the message is appended and 0 returned; when full, -ETIMEDOUT and nothing changes |
| MultiWaiters.MessageQueue.Receive | tests/multiwaiter-test.cc:117-119 | the oldest message is removed and returned (FIFO); when empty, -ETIMEDOUT and nothing changes |
| MultiWaiters.Reported | tests/multiwaiter-test.cc:65-75 | an event's result value is 1 exactly when it fired and 0 exactly when it did not; its source is kept |
| MultiWaiters.SetEvents | sdk/core/scheduler/main.cc:679-683 | Error iff some event is malformed; Wake iff all are well formed and one has fired |
| MultiWaiters.EventsFit | sdk/core/scheduler/main.cc:662-665 | the intended check admits count exactly when count events fit in the buffer's bytes |
| MultiWaiters.EventsFitAsWritten | sdk/core/scheduler/main.cc:662-665 | the check as written admits count exactly when count size_t's fit in the buffer |
| MultiWaiters.EventsFitMeansInBounds | sdk/core/scheduler/main.cc:662-665 | for a buffer of L events, the intended check admits count iff count <= L |
| MultiWaiters.EventsFitAsWrittenOverruns | sdk/core/scheduler/main.cc:665 | the check as written admits 4 events for a one-event buffer, which the intended check refuses |
| MultiWaiters.EventsFitAsWrittenIsWeaker | sdk/core/scheduler/main.cc:662-665 | every count the intended check admits is admitted as written |
| MultiWaiters.MultiWaiter.constructor | tests/multiwaiter-test.cc:23-28 | a waiter of the given capacity waiting on nothing |
| MultiWaiters.MultiWaiter.GetResults | sdk/core/scheduler/main.cc:699-707 | each of the first count events gets its `Reported` value and the rest are untouched; the waiter is cleared; it reports true iff some event fired |
| MultiWaiters.MultiWaiter.Wait | sdk/core/scheduler/main.cc:648-698 | the checks run in order, giving -EINVAL (handle that does not unseal, too many events, bad events pointer, bad timeout), -EBUSY (already waiting) and -EINVAL (malformed event), each with the events untouched; a fired event gives 0 with every result written; nothing fired with a non-blocking timeout gives -ETIMEDOUT with every result 0; otherwise the thread sleeps, registered on count events, with the events untouched; events beyond count are never touched. The events pointer is checked for count 16-byte events, the intended size rather than the one at line 665 (see Findings) |
| MultiWaiters.MultiWaiter.SetEventsOf | sdk/core/scheduler/main.cc:679 | the scan over the array returns `SetEvents` of its first count events |
| MultiWaiters.MultiWaiter.Resume | sdk/core/scheduler/main.cc:688-709 | memory freed while sleeping gives -EINVAL; otherwise the results are written, with 0 iff some event fired and -ETIMEDOUT otherwise |
| MultiWaiters.TestFutexEvents | tests/multiwaiter-test.cc:31-64 | the null event, the futex already ready and the futex changed later by a background thread return -EINVAL, 0 and 0; the waiter is idle again afterwards |
| MultiWaiters.TestTwoFutexes | tests/multiwaiter-test.cc:66-75 | with two futexes of which only the second changes, the wait returns 0 and the results are 0 and 1 |
| MultiWaiters.TestQueueSend | tests/multiwaiter-test.cc:87-101 | the blocked send returns 0 after the background receive, with the event reported ready and the queue empty |
| MultiWaiters.TestQueueReceive | tests/multiwaiter-test.cc:103-119 | the blocked receive returns 0 after the background send, with the event reported ready, and the next receive yields 1 and empties the queue |
| MultiWaiters.TestQueueAndFutex | tests/multiwaiter-test.cc:121-131 | on an empty queue and a futex that changes, the wait returns 0 with the queue result 0 and the futex result 1 |
| MultiWaiters.TestMultiwaiter | tests/multiwaiter-test.cc:17-136 | the seven waits of the multiwaiter test return -EINVAL and then 0 six times, in order |
| TrustedStacks.RegisterNumber | sdk/core/switcher/tstack.h:97-111 | the hardware numbers of the saved registers lie in 1..15 |
| TrustedStacks.PointerFieldsEnd | sdk/core/switcher/tstack.h:47-62 | n pointer-sized fields laid out from offset 0 end at n pointers |
| TrustedStacks.RegisterOffsets | sdk/core/switcher/tstack.h:92-111 | the field saving register n is that register and lies at offset sizeof(void*) * n; mepcc is at offset 0 |
| TrustedStacks.TrustedStackSize | sdk/core/switcher/tstack.h:75-90 | a frame is 24 bytes, the header 152, and the header plus one frame a multiple of 16 |
| TrustedStacks.WithoutOnePermission | tests/stack-test.cc:62-70 | the stack permissions minus one permission stay mostly valid iff the removed one is not Load, Store or LoadStoreCapability |
| TrustedStacks.StackIsMostlyValid | tests/stack-test.cc:57-70 | a stack is mostly valid exactly when its permissions include Load, Store and LoadStoreCapability |
| TrustedStacks.CallStackIsMostlyValid | tests/stack-test.cc:57-70 | a stack that a call accepts can take a spilled register frame |
| TrustedStacks.FaultSpillIsSaveArea | sdk/core/switcher/tstack.h:47-62 | the register context a fault spills is the 16-pointer save area of mepcc and c1 to c15, 128 bytes |
| TrustedStacks.CalleeStackOf | sdk/core/switcher/tstack.h:13-20 | the callee's stack holds exactly the addresses from the caller stack's base up to, and not including, the switcher's spills below the caller's stack pointer, so its size is the caller's available stack less the spill space |
| TrustedStacks.IncrementCount | sdk/core/switcher/tstack.h:27-34 | the uint16_t increment wraps from 65535 to 0 |
| TrustedStacks.IncrementFlipsParity | sdk/core/switcher/tstack.h:27-34 | each increment flips the handler bit, wrap-around included, and two restore it |
| TrustedStacks.DecideCall | tests/stack-test.cc:87-197 | an invalid stack unwinds the caller; a full trusted stack gives -ENOTENOUGHTRUSTEDSTACK; a stack without room for the four spilled capabilities plus the callee's minimum gives -ENOTENOUGHSTACK; otherwise the callee is entered (each an iff) |
| TrustedStacks.DecideCallMonotone | tests/stack-test.cc:135-142 | more available stack never turns an entered call into a refused one |
| TrustedStacks.DecideFault | tests/stack-test.cc:150-191 | the handler runs iff the frame is not already handling a fault, the callee has a handler, the stack is tagged with Load, Store and LoadStoreCapability, and it has room for the 128-byte register context |
| TrustedStacks.ExhaustedStackUnwinds | tests/stack-test.cc:150-154 | a fault on a stack with less room than the register context never runs the handler |
| TrustedStacks.DoubleFaultUnwinds | sdk/core/switcher/tstack.h:30-32 | a fault inside the error handler forcibly unwinds |
| TrustedStacks.TrustedStack.constructor | sdk/core/switcher/tstack.h:83-88 | a new trusted stack holds exactly its entry frame |
| TrustedStacks.TrustedStack.Call | sdk/core/switcher/tstack.h:13-26 | an entered call pushes a frame holding the stack pointer below the switcher's spills and the callee's export table, and hands the callee a stack whose upper limit is that saved csp: every address the callee can reach lies below it, and there are at least the callee's minimum of them; a refused call changes nothing and hands out no stack; an invalid stack unwinds once |
| TrustedStacks.TrustedStack.Return | sdk/core/switcher/tstack.h:83-88 | a return pops the top frame and hands the value to the caller; popping the entry frame exits the thread |
| TrustedStacks.TrustedStack.Unwind | sdk/core/switcher/tstack.h:30-32 | a forced unwind pops one frame, and its caller sees -ECOMPARTMENTFAIL; on the entry frame the thread exits |
| TrustedStacks.TrustedStack.Fault | sdk/core/switcher/tstack.h:27-34 | entering the handler makes the top frame's count odd and changes nothing else; otherwise one forced unwind |
| TrustedStacks.TrustedStack.HandlerReturn | sdk/core/switcher/tstack.h:27-34 | the count becomes even again; InstallContext resumes the callee; ForceUnwind unwinds once |
| StackTests.ErrorHandler | tests/stack-test.cc:15-29 | InstallContext exactly for a CHERI fault with mtval 0, ForceUnwind otherwise |
| StackTests.ExhaustTrustedStack | tests/stack-test.cc:145-148 | self-recursion makes nFrames - depth calls that succeed, until every frame is in use, and one further call that is refused with -ENOTENOUGHTRUSTEDSTACK |
| StackTests.InHelper | tests/stack-test.cc:163-197 | a thread of the test compartment that has called into the helper holds exactly the entry frame and the helper's frame |
| StackTests.TestStackRequirement | tests/stack-test.cc:87-142 | for a callee needing more than 128 bytes and at most 144, calls with 144- and 160-byte stacks (plus the spill room `test_with_small_stack` adds) enter the callee and one with 128 bytes is refused with -ENOTENOUGHSTACK |
| StackTests.TestExhaustThreadStack | tests/stack-test.cc:150-153 | a fault on an exhausted stack, with less room than the register context, runs no handler and gives -ECOMPARTMENTFAIL |
| StackTests.TestExhaustThreadStackSpill | tests/stack-test.cc:155-161 | a call from an exhausted stack, with less room than the switcher's spills, is refused with an error return to the helper, which stays on the trusted stack and is not unwound |
| StackTests.TestPermissionsOnFault | tests/stack-test.cc:163-173 | for every stack permission removed before a fault, the handler runs exactly when the removed one is not Load, Store or LoadStoreCapability, and the test sees -ECOMPARTMENTFAIL |
| StackTests.TestPermissionsOnCall | tests/stack-test.cc:175-184 | for every stack permission removed before a call, the test sees -ECOMPARTMENTFAIL |
| StackTests.TestStackInvalidOnFault | tests/stack-test.cc:186-190 | a fault with an untagged stack gives -ECOMPARTMENTFAIL |
| StackTests.TestStackInvalidOnCall | tests/stack-test.cc:192-196 | a call with an untagged stack gives -ECOMPARTMENTFAIL |
| StackTests.TestDoubleFault | sdk/core/switcher/tstack.h:27-34 | a first fault in the helper enters its handler; a second one inside the handler gives -ECOMPARTMENTFAIL |

## Left out

- Thread scheduling itself:
  - the run queues;
  - `Thread::suspend` and `Thread::ready` beyond their effect on the futex list;
  - `Thread::priority_boost`, whose calls are recorded in `boostCalls`;
  - `yield()` and `Timer::ensure_tick()`, whose choice is returned as a `FutexWakeKind`.
- Concurrency:
  - the waiting list does not change while a thread sleeps;
  - background threads in the tests become state changes made between `Wait` and `Resume`.
- `Scheduler.Scheduler.WakeWaiters` and `Scheduler.Scheduler.FutexWake` require `count >= 1`. The list walk's stop test (`walk_thread_list`) is not part of this model, so its behaviour for `count == 0` is not modelled.
- `MultiWaiterInternal::wake_waiters` is not part of this model. The number of multiwaiters it wakes is chosen nondeterministically, at most the leftover count.
- `multiwait.h` and `queue.h` are not part of this model:
  - event readiness, `set_events` and `get_results` follow what the multiwaiter test expects of them;
  - the queue is a bounded FIFO of `int`s with non-blocking send and receive only;
  - a full or empty queue is assumed to give `-ETIMEDOUT`.
- `multiwaiter_create` and `multiwaiter_delete` are left out. Allocation and deallocation go through the allocator compartment, which is not part of this model; the delete check at the end of the multiwaiter test is left out with them.
- `MultiWaiters.MultiWaiter.Wait`: the timeout's elapse during `mw.wait(timeout)` is not modelled; the sleep itself is the `Sleeping` outcome.
- The switcher's assembly is not part of this model:
  - the order of the call checks (stack validity, then trusted-stack space, then minimum stack) and the permissions a call needs come from the stack test's expectations;
  - `frameoffset` counts frames rather than bytes;
  - the register spill contents are not modelled.
- A forced unwind pops one frame and hands `-ECOMPARTMENTFAIL` to the caller, as the stack test expects. Unwinding through several frames on repeated faults is a sequence of such steps.
- `Scheduler.Scheduler.PriorityBoostUpdate`, `Scheduler.Scheduler.PriorityBoostReset`, `Scheduler.Scheduler.FutexTimedWait`, `Scheduler.Scheduler.Sleep`, `Scheduler.Scheduler.FutexWake` and `MultiWaiters.MultiWaiter.Wait` run the corrected conditions of the Findings table, not `sdk/core/scheduler/main.cc` lines 90, 111 and 665 as written; the code as written is modelled by `Scheduler.BoostUpdatedAsWritten`, `Scheduler.BoostResetAsWritten` and `MultiWaiters.EventsFitAsWritten`.
- `TrustedStacks.TrustedStack.Call` models the callee's stack by its bounds only; the permissions the switcher leaves on it and the contents of the spills above the saved csp are not modelled.
- `TrustedStacks.DecideCall` and `TrustedStacks.DecideFault`: the spill sizes are taken from the source's descriptions, not from the switcher's assembly. A call spills four capabilities (32 bytes), as the comment in `test_with_small_stack` says. A fault needs room for the 16-pointer register context of the save area (128 bytes). The stack test expects only an error return when a call has no room for the spill; the model gives `-ENOTENOUGHSTACK`, as for a stack below the callee's minimum.
- `TrustedStacks.TrustedStackSize`: the layout with `CONFIG_MSHWM` (the two extra words and 12 bytes of padding) is not modelled.
- The exact stack need of `test_with_small_stack` depends on its assembly. The stack test's minimum is abstracted as a number above 128 and at most 144.
- `priv::MCAUSE_CHERI` is taken as 0x1c, the CHERI exception code; `priv/riscv.h` is not part of this model.
- `heap_address_is_valid`, interrupts, timers, `thread_sleep` and the rest of the scheduler's API are left out.
- Strings:
  - locale handling and `errno` on overflow are not modelled;
  - bases other than 0 and 2..36 convert nothing;
  - the implementations of `memchr`, `memrchr`, `strnlen`, `strtol` and `strtoul` are not part of this model, so the model follows the C standard and the misc test's expectations.

The wake order follows the code: waiters are woken in list order, and the list is sorted by priority rather than by arrival.

## Findings

| source | as written | input that shows it | evidently intended | confidence | as-written member | corrected member |
|---|---|---|---|---|---|---|
| sdk/core/scheduler/main.cc:90 | `thread->futexWaitAddress = key` assigns in the condition of `priority_boost_update` | a priority-inheriting thread 3 waiting on 0x2000, then `priority_boost_update(0x1000, 2)`: it is moved onto 0x1000 and boosts thread 2 | `==`: retarget only the waiters on `key` | high; not executed | Scheduler.BoostUpdateMovesOtherWaiters | Scheduler.BoostUpdated |
| sdk/core/scheduler/main.cc:111 | the same assignment in `priority_boost_reset` | a waiter on another futex that boosts the waker, then `priority_boost_reset(key, waker)` with key non-zero: it stops boosting the owner of its own lock | `==`: reset only the boosts made through `key` | high; not executed | Scheduler.BoostResetDropsOtherBoosts | Scheduler.BoostReset |
| sdk/core/scheduler/main.cc:665 | the events pointer is checked for `newEventsCount * sizeof(newEventsCount)` bytes, 4 per event | a multiwaiter of capacity 4, a buffer of one 16-byte event, count 4: the check passes and `set_events` reads three events past the buffer | `newEventsCount * sizeof(EventWaiterSource)` | high; not executed | MultiWaiters.EventsFitAsWrittenOverruns | MultiWaiters.EventsFitMeansInBounds |
