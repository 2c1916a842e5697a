/**
 * The futex bookkeeping of the scheduler compartment: the priority-sorted
 * list of threads blocked on futex words, waking up to `count` of them,
 * priority inheritance (boosting the owner of a lock by the priorities of
 * its waiters), the decision logic of `futex_timed_wait` and `futex_wake`,
 * and the small pure helpers around them.
 *
 * Addresses (`ptraddr_t`) are 32-bit.  `Thread::suspend` is not modelled
 * step by step: its outcome (woken by a futex wake, or by the timer) is an
 * input of the operation that suspends.
 */
module Scheduler {
  import opened Common

  type ThreadId = u16
  type Priority = u8
  type Address = u32

  /** The boosted-thread value of a priority-inheriting waiter that boosts nobody. */
  const FutexBoostNotThread: u16 := UINT16_MAX

  /** The futex fields of a thread, with its id and its priority. */
  datatype ThreadRecord = ThreadRecord(
    id: ThreadId,
    priority: Priority,
    futexWaitAddress: Address,
    futexPriorityInheriting: bool,
    futexPriorityBoostedThread: u16)

  /** One call of `Thread::priority_boost(priority)` on the thread `thread`. */
  datatype BoostCall = BoostCall(thread: ThreadId, priority: Priority)

  /** The scheduler's answer to "should the waker yield?". */
  datatype FutexWakeKind = NoYield | YieldLater | YieldNow

  /** How a thread suspended on a futex came back. */
  datatype SuspendOutcome =
    | WokenByFutex  // readied by a futex wake: its wait address is left as it was
    | TimedOut      // readied by the timer: its wait address was cleared to 0

  // ---------------------------------------------------------------------
  // get_thread

  /**
   * `get_thread(id)`: thread ids run from 1 to the configured number of
   * threads and name slot `id - 1` of the thread table; any other id gives
   * null.
   */
  function GetThread(threadsNum: nat, threadId: u16): (slot: Option<nat>)
    ensures slot.None? <==> threadId == 0 || threadId > threadsNum
    ensures slot.Some? ==> slot.value < threadsNum && slot.value + 1 == threadId
  {
    if threadId > threadsNum || threadId == 0 then None else Some(threadId - 1)
  }

  /** Distinct valid ids name distinct slots. */
  lemma GetThreadInjective(threadsNum: nat, a: u16, b: u16)
    requires GetThread(threadsNum, a).Some? && GetThread(threadsNum, a) == GetThread(threadsNum, b)
    ensures a == b
  {
  }

  // ---------------------------------------------------------------------
  // Priority inheritance

  /** A waiter that lends its priority to the thread `threadId`. */
  predicate Boosts(t: ThreadRecord, threadId: u16)
  {
    t.futexPriorityInheriting && t.futexPriorityBoostedThread == threadId
  }

  /**
   * `priority_boost_for_thread(threadId, priority)`: the maximum of
   * `priority` and the priorities of every waiter that boosts `threadId`,
   * folded over the list in order.
   */
  function BoostFor(waiting: seq<ThreadRecord>, threadId: u16, priority: Priority): (r: Priority)
    ensures r >= priority
    ensures forall t :: t in waiting && Boosts(t, threadId) ==> t.priority <= r
    ensures r == priority || exists t :: t in waiting && Boosts(t, threadId) && t.priority == r
    decreases |waiting|
  {
    if waiting == [] then priority
    else
      var p := if Boosts(waiting[0], threadId) then Max(priority, waiting[0].priority) else priority;
      var r := BoostFor(waiting[1..], threadId, p);
      assert forall t :: t in waiting ==> t == waiting[0] || t in waiting[1..];
      r
  }

  /** The boost does not depend on the order of the waiting list. */
  lemma {:induction false} BoostForIsMaximum(waiting: seq<ThreadRecord>, threadId: u16, priority: Priority, bound: Priority)
    requires priority <= bound
    requires forall t :: t in waiting && Boosts(t, threadId) ==> t.priority <= bound
    ensures BoostFor(waiting, threadId, priority) <= bound
  {
  }

  /** Waiters that boost no-one (or someone else) never raise the boost. */
  lemma {:induction false} BoostForIgnoresOthers(waiting: seq<ThreadRecord>, threadId: u16, priority: Priority)
    requires forall t :: t in waiting ==> !Boosts(t, threadId)
    ensures BoostFor(waiting, threadId, priority) == priority
  {
  }

  /**
   * `priority_boost_update(key, threadId)` for one waiter, as its comment
   * intends: a priority-inheriting waiter on `key` now boosts the new
   * owner `threadId`; every other waiter is left alone.
   */
  function BoostUpdated(t: ThreadRecord, key: Address, threadId: u16): (r: ThreadRecord)
    ensures t.futexPriorityInheriting && t.futexWaitAddress == key ==> Boosts(r, threadId)
    ensures r.futexWaitAddress == t.futexWaitAddress
    ensures r.id == t.id && r.priority == t.priority && r.futexPriorityInheriting == t.futexPriorityInheriting
    ensures t.futexWaitAddress != key || !t.futexPriorityInheriting ==> r == t
  {
    if t.futexPriorityInheriting && t.futexWaitAddress == key
    then t.(futexPriorityBoostedThread := threadId) else t
  }

  /**
   * `priority_boost_reset(key, threadId)` for one waiter, as its comment
   * intends: a priority-inheriting waiter on `key` that boosts `threadId`
   * stops boosting anyone; a waiter on `key` that boosts another thread (a
   * new owner that took the lock meanwhile) keeps boosting it.
   */
  function BoostReset(t: ThreadRecord, key: Address, threadId: u16): (r: ThreadRecord)
    ensures t.futexWaitAddress == key && threadId != FutexBoostNotThread ==> !Boosts(r, threadId)
    ensures r.futexWaitAddress == t.futexWaitAddress
    ensures r.id == t.id && r.priority == t.priority && r.futexPriorityInheriting == t.futexPriorityInheriting
    ensures t.futexWaitAddress != key || t.futexPriorityBoostedThread != threadId ==> r == t
  {
    if t.futexPriorityInheriting && t.futexWaitAddress == key && t.futexPriorityBoostedThread == threadId
    then t.(futexPriorityBoostedThread := FutexBoostNotThread) else t
  }

  /** The waiting list after `priority_boost_update(key, threadId)`. */
  function BoostUpdatedAll(waiting: seq<ThreadRecord>, key: Address, threadId: u16): (r: seq<ThreadRecord>)
    ensures |r| == |waiting|
    ensures forall k :: 0 <= k < |r| ==> r[k] == BoostUpdated(waiting[k], key, threadId)
  {
    seq(|waiting|, k requires 0 <= k < |waiting| => BoostUpdated(waiting[k], key, threadId))
  }

  /** The waiting list after `priority_boost_reset(key, threadId)`. */
  function BoostResetAll(waiting: seq<ThreadRecord>, key: Address, threadId: u16): (r: seq<ThreadRecord>)
    ensures |r| == |waiting|
    ensures forall k :: 0 <= k < |r| ==> r[k] == BoostReset(waiting[k], key, threadId)
  {
    seq(|waiting|, k requires 0 <= k < |waiting| => BoostReset(waiting[k], key, threadId))
  }

  /**
   * `priority_boost_update(key, owner)` makes all of the priority-inheriting
   * threads blocked on `key` boost `owner`; no thread changes futex and
   * threads on other futexes are untouched.
   */
  lemma BoostUpdateTargetsKeyOnly(waiting: seq<ThreadRecord>, key: Address, owner: u16)
    ensures var r := BoostUpdatedAll(waiting, key, owner);
            && (forall k :: 0 <= k < |r| ==> r[k].futexWaitAddress == waiting[k].futexWaitAddress)
            && (forall k :: 0 <= k < |r| && waiting[k].futexPriorityInheriting && waiting[k].futexWaitAddress == key ==>
                  Boosts(r[k], owner))
            && (forall k :: 0 <= k < |r| && waiting[k].futexWaitAddress != key ==> r[k] == waiting[k])
  {
  }

  /**
   * `priority_boost_reset(key, owner)` leaves no thread blocked on `key`
   * boosting `owner`; no thread changes futex, and threads on other
   * futexes or boosting another owner are untouched.
   */
  lemma BoostResetTargetsKeyOnly(waiting: seq<ThreadRecord>, key: Address, owner: u16)
    requires owner != FutexBoostNotThread
    ensures var r := BoostResetAll(waiting, key, owner);
            && (forall k :: 0 <= k < |r| ==> r[k].futexWaitAddress == waiting[k].futexWaitAddress)
            && (forall k :: 0 <= k < |r| && waiting[k].futexWaitAddress == key ==> !Boosts(r[k], owner))
            && (forall k :: 0 <= k < |r| && (waiting[k].futexWaitAddress != key || waiting[k].futexPriorityBoostedThread != owner) ==>
                  r[k] == waiting[k])
  {
  }

  /**
   * After `priority_boost_update(key, owner)` the owner's boosted priority
   * is at least that of every priority-inheriting thread blocked on `key`.
   */
  lemma UpdatedOwnerInheritsFromKey(waiting: seq<ThreadRecord>, key: Address, owner: u16, priority: Priority)
    ensures forall k :: 0 <= k < |waiting| && waiting[k].futexPriorityInheriting && waiting[k].futexWaitAddress == key ==>
              waiting[k].priority <= BoostFor(BoostUpdatedAll(waiting, key, owner), owner, priority)
  {
    var updated := BoostUpdatedAll(waiting, key, owner);
    forall k | 0 <= k < |waiting| && waiting[k].futexPriorityInheriting && waiting[k].futexWaitAddress == key
      ensures waiting[k].priority <= BoostFor(updated, owner, priority)
    {
      assert updated[k] in updated && Boosts(updated[k], owner);
    }
  }

  /**
   * `priority_boost_update` AS WRITTEN: the condition
   * `thread->futexWaitAddress = key` assigns instead of comparing.  Every
   * priority-inheriting waiter gets its wait address overwritten with `key`
   * and, when `key` is non-zero, is retargeted at `threadId`, whatever futex
   * it was waiting on.
   */
  function BoostUpdatedAsWritten(t: ThreadRecord, key: Address, threadId: u16): (r: ThreadRecord)
    ensures !t.futexPriorityInheriting ==> r == t
    ensures t.futexPriorityInheriting ==> r.futexWaitAddress == key
    ensures r.futexPriorityBoostedThread ==
              if t.futexPriorityInheriting && key != 0 then threadId else t.futexPriorityBoostedThread
    ensures r.id == t.id && r.priority == t.priority && r.futexPriorityInheriting == t.futexPriorityInheriting
  {
    if t.futexPriorityInheriting then
      var t' := t.(futexWaitAddress := key);
      if key != 0 then t'.(futexPriorityBoostedThread := threadId) else t'
    else t
  }

  /**
   * `priority_boost_reset` AS WRITTEN: the same assignment in the
   * condition; a priority-inheriting waiter that boosted `threadId` stops
   * boosting anyone when `key` is non-zero, whatever futex it waited on.
   */
  function BoostResetAsWritten(t: ThreadRecord, key: Address, threadId: u16): (r: ThreadRecord)
    ensures !t.futexPriorityInheriting ==> r == t
    ensures t.futexPriorityInheriting ==> r.futexWaitAddress == key
    ensures r.futexPriorityBoostedThread ==
              if t.futexPriorityInheriting && key != 0 && t.futexPriorityBoostedThread == threadId
              then FutexBoostNotThread else t.futexPriorityBoostedThread
    ensures r.id == t.id && r.priority == t.priority && r.futexPriorityInheriting == t.futexPriorityInheriting
  {
    if t.futexPriorityInheriting then
      var t' := t.(futexWaitAddress := key);
      if key != 0 && t.futexPriorityBoostedThread == threadId
      then t'.(futexPriorityBoostedThread := FutexBoostNotThread) else t'
    else t
  }

  /**
   * The input that shows the assignment-for-comparison: a priority-inheriting
   * waiter on another futex is moved onto `key` and retargeted by
   * `priority_boost_update(key, owner)` as written, so a later wake of `key`
   * readies it; the intended update leaves it alone.
   */
  lemma BoostUpdateMovesOtherWaiters(w: ThreadRecord, key: Address, owner: u16)
    requires w.futexPriorityInheriting && w.futexWaitAddress != key && key != 0
    requires w.futexPriorityBoostedThread != owner
    ensures BoostUpdatedAsWritten(w, key, owner).futexWaitAddress == key
    ensures Boosts(BoostUpdatedAsWritten(w, key, owner), owner)
    ensures BoostUpdated(w, key, owner) == w
    ensures Woken([BoostUpdatedAsWritten(w, key, owner)], key, 1) == [BoostUpdatedAsWritten(w, key, owner)]
    ensures Woken([BoostUpdated(w, key, owner)], key, 1) == []
  {
  }

  /**
   * The same assignment in `priority_boost_reset(key, owner)` as written: a
   * priority-inheriting waiter on another futex that the same owner holds
   * stops boosting it and is moved onto `key`; the intended reset leaves it
   * boosting the owner.
   */
  lemma BoostResetDropsOtherBoosts(w: ThreadRecord, key: Address, owner: u16)
    requires Boosts(w, owner) && w.futexWaitAddress != key && key != 0 && owner != FutexBoostNotThread
    ensures !Boosts(BoostResetAsWritten(w, key, owner), owner)
    ensures BoostResetAsWritten(w, key, owner).futexWaitAddress == key
    ensures BoostReset(w, key, owner) == w && Boosts(BoostReset(w, key, owner), owner)
  {
  }

  /** A concrete instance: thread 3 waiting on 0x2000 is dragged onto 0x1000. */
  lemma BoostUpdateCounterexample()
    ensures var w := ThreadRecord(3, 5, 0x2000, true, FutexBoostNotThread);
            BoostUpdatedAsWritten(w, 0x1000, 2).futexWaitAddress == 0x1000 &&
            BoostUpdated(w, 0x1000, 2) == w
  {
  }

  // ---------------------------------------------------------------------
  // Waking: which waiters the helper readies

  /**
   * The waiters `futex_wake(key, count)` readies: walking the list in order,
   * every waiter whose wait address is `key`, until `count` have been woken.
   */
  function Woken(waiting: seq<ThreadRecord>, key: Address, count: nat): seq<ThreadRecord>
    decreases |waiting|
  {
    if waiting == [] || count == 0 then []
    else if waiting[0].futexWaitAddress == key then [waiting[0]] + Woken(waiting[1..], key, count - 1)
    else Woken(waiting[1..], key, count)
  }

  /** The waiters left on the list after that walk, in their order. */
  function StillWaiting(waiting: seq<ThreadRecord>, key: Address, count: nat): seq<ThreadRecord>
    decreases |waiting|
  {
    if waiting == [] || count == 0 then waiting
    else if waiting[0].futexWaitAddress == key then StillWaiting(waiting[1..], key, count - 1)
    else [waiting[0]] + StillWaiting(waiting[1..], key, count)
  }

  /** One step of the wake walk, on the head of what is left of the list. */
  lemma WakeStep(s: seq<ThreadRecord>, key: Address, left: nat)
    requires s != [] && left > 0
    ensures s[0].futexWaitAddress == key ==>
              Woken(s, key, left) == [s[0]] + Woken(s[1..], key, left - 1)
              && StillWaiting(s, key, left) == StillWaiting(s[1..], key, left - 1)
    ensures s[0].futexWaitAddress != key ==>
              Woken(s, key, left) == Woken(s[1..], key, left)
              && StillWaiting(s, key, left) == [s[0]] + StillWaiting(s[1..], key, left)
  {
  }

  /** Removing or keeping the next thread of a list split into `kept` and `rest`. */
  lemma WalkStep(kept: seq<ThreadRecord>, rest: seq<ThreadRecord>, i: nat)
    requires i == |kept| && rest != []
    ensures (kept + rest)[i] == rest[0]
    ensures (kept + rest)[..i] + (kept + rest)[i + 1..] == kept + rest[1..]
    ensures kept + rest == (kept + [rest[0]]) + rest[1..]
  {
    assert (kept + rest)[..i] == kept;
    assert (kept + rest)[i + 1..] == rest[1..];
  }

  /** Every waiter on `key`, in list order. */
  function OnKey(waiting: seq<ThreadRecord>, key: Address): (r: seq<ThreadRecord>)
    ensures forall t :: t in r ==> t in waiting && t.futexWaitAddress == key
    decreases |waiting|
  {
    if waiting == [] then []
    else if waiting[0].futexWaitAddress == key then [waiting[0]] + OnKey(waiting[1..], key)
    else OnKey(waiting[1..], key)
  }

  /**
   * The helper wakes exactly the first `min(count, n)` of the `n` waiters on
   * `key`, in list order: only matching waiters, never more than `count`, and
   * none that a wake of that size should have reached is skipped.
   */
  lemma {:induction false} WokenIsPrefixOfOnKey(waiting: seq<ThreadRecord>, key: Address, count: nat)
    ensures Woken(waiting, key, count) == OnKey(waiting, key)[..Min(count, |OnKey(waiting, key)|)]
    decreases |waiting|
  {
    if waiting == [] || count == 0 {
    } else if waiting[0].futexWaitAddress == key {
      WokenIsPrefixOfOnKey(waiting[1..], key, count - 1);
    } else {
      WokenIsPrefixOfOnKey(waiting[1..], key, count);
    }
  }

  /** Waking loses no waiter and invents none: woken and remaining partition the list. */
  lemma {:induction false} WakePartitionsList(waiting: seq<ThreadRecord>, key: Address, count: nat)
    ensures multiset(Woken(waiting, key, count)) + multiset(StillWaiting(waiting, key, count))
            == multiset(waiting)
    decreases |waiting|
  {
    if waiting == [] || count == 0 {
    } else {
      assert waiting == [waiting[0]] + waiting[1..];
      if waiting[0].futexWaitAddress == key {
        WakePartitionsList(waiting[1..], key, count - 1);
      } else {
        WakePartitionsList(waiting[1..], key, count);
      }
    }
  }

  /** When fewer than `count` waiters match, none on `key` remains. */
  lemma {:induction false} WakeAllLeavesNoneOnKey(waiting: seq<ThreadRecord>, key: Address, count: nat)
    requires |OnKey(waiting, key)| <= count
    ensures OnKey(StillWaiting(waiting, key, count), key) == []
    ensures StillWaiting(waiting, key, count) == Unmatched(waiting, key)
    decreases |waiting|
  {
    if waiting == [] {
    } else if waiting[0].futexWaitAddress == key {
      WakeAllLeavesNoneOnKey(waiting[1..], key, count - 1);
    } else {
      WakeAllLeavesNoneOnKey(waiting[1..], key, count);
    }
  }

  /** The waiters not on `key`, in list order. */
  function Unmatched(waiting: seq<ThreadRecord>, key: Address): (r: seq<ThreadRecord>)
    ensures forall t :: t in r ==> t in waiting && t.futexWaitAddress != key
    decreases |waiting|
  {
    if waiting == [] then []
    else if waiting[0].futexWaitAddress == key then Unmatched(waiting[1..], key)
    else [waiting[0]] + Unmatched(waiting[1..], key)
  }

  /** The futex waiting list is kept in descending priority order. */
  ghost predicate PrioritySorted(s: seq<ThreadRecord>)
  {
    forall i, j :: 0 <= i < j < |s| ==> s[i].priority >= s[j].priority
  }

  /** Both halves of a wake are drawn from the list. */
  lemma {:induction false} WakeDrawsFromList(waiting: seq<ThreadRecord>, key: Address, count: nat, t: ThreadRecord)
    requires t in Woken(waiting, key, count) || t in StillWaiting(waiting, key, count)
    ensures t in waiting
  {
    WakePartitionsList(waiting, key, count);
    assert t in multiset(waiting);
  }

  /** A sorted list with a head no lower than its tail. */
  lemma SortedCons(x: ThreadRecord, s: seq<ThreadRecord>)
    requires PrioritySorted(s)
    requires forall t :: t in s ==> t.priority <= x.priority
    ensures PrioritySorted([x] + s)
  {
    forall i, j | 0 <= i < j < |[x] + s| ensures ([x] + s)[i].priority >= ([x] + s)[j].priority {
      if i == 0 {
        assert ([x] + s)[j] == s[j - 1];
        assert s[j - 1] in s;
      } else {
        assert ([x] + s)[i] == s[i - 1] && ([x] + s)[j] == s[j - 1];
      }
    }
  }

  /**
   * Waking keeps the list sorted and wakes in priority order: the woken
   * threads, in wake order, are themselves sorted by priority.
   */
  lemma {:induction false} WakeKeepsPriorityOrder(waiting: seq<ThreadRecord>, key: Address, count: nat)
    requires PrioritySorted(waiting)
    ensures PrioritySorted(Woken(waiting, key, count))
    ensures PrioritySorted(StillWaiting(waiting, key, count))
    decreases |waiting|
  {
    if waiting == [] || count == 0 {
    } else {
      var x := waiting[0];
      var rest := waiting[1..];
      assert PrioritySorted(rest) by {
        forall i, j | 0 <= i < j < |rest| ensures rest[i].priority >= rest[j].priority {
          assert rest[i] == waiting[i + 1] && rest[j] == waiting[j + 1];
        }
      }
      assert below: forall t :: t in rest ==> t.priority <= x.priority by {
        forall t | t in rest ensures t.priority <= x.priority {
          var k :| 0 <= k < |rest| && rest[k] == t;
          assert waiting[k + 1] == t;
        }
      }
      var c' := if x.futexWaitAddress == key then count - 1 else count;
      WakeKeepsPriorityOrder(rest, key, c');
      forall t | t in Woken(rest, key, c') || t in StillWaiting(rest, key, c') ensures t in rest {
        WakeDrawsFromList(rest, key, c', t);
      }
      if x.futexWaitAddress == key {
        SortedCons(x, Woken(rest, key, c'));
      } else {
        SortedCons(x, StillWaiting(rest, key, c'));
      }
    }
  }

  /** Retargeting and resetting boosts keep every priority, so the list stays sorted. */
  lemma BoostKeepsPriorityOrder(waiting: seq<ThreadRecord>, key: Address, threadId: u16)
    requires PrioritySorted(waiting)
    ensures PrioritySorted(BoostUpdatedAll(waiting, key, threadId))
    ensures PrioritySorted(BoostResetAll(waiting, key, threadId))
  {
  }

  /** The priority-inheritance flag the helper returns. */
  predicate AnyPriorityInheriting(woken: seq<ThreadRecord>)
  {
    exists t :: t in woken && t.futexPriorityInheriting
  }

  lemma PriorityInheritingSnoc(woken: seq<ThreadRecord>, t: ThreadRecord)
    ensures AnyPriorityInheriting(woken + [t]) == (AnyPriorityInheriting(woken) || t.futexPriorityInheriting)
  {
    if t.futexPriorityInheriting {
      assert t in woken + [t];
    }
    if AnyPriorityInheriting(woken) {
      var w :| w in woken && w.futexPriorityInheriting;
      assert w in woken + [t];
    }
  }

  // ---------------------------------------------------------------------
  // Pure decisions

  /**
   * The yield decision of `futex_wake`: no yield when nothing woke; yield at
   * once when the caller is no longer the highest priority runnable thread;
   * otherwise, with peers at its priority, yield at once after a full tick
   * and ask for a tick later before that.
   */
  function WakeYield(woke: nat, isHighestPriority: bool, hasPriorityPeers: bool, hasRunForFullTick: bool): (k: FutexWakeKind)
    ensures k == NoYield <==> woke == 0 || (isHighestPriority && !hasPriorityPeers)
    ensures k == YieldLater <==> woke > 0 && isHighestPriority && hasPriorityPeers && !hasRunForFullTick
    ensures k == YieldNow <==> woke > 0 && (!isHighestPriority || (hasPriorityPeers && hasRunForFullTick))
  {
    if woke > 0 then
      if !isHighestPriority then YieldNow
      else if hasPriorityPeers then (if hasRunForFullTick then YieldNow else YieldLater)
      else NoYield
    else NoYield
  }

  /** `thread_systemtick_get`: the 64-bit tick count split into 32-bit halves. */
  datatype SystickReturn = SystickReturn(lo: u32, hi: u32)

  function SystemTick(ticks: nat): (r: SystickReturn)
    requires ticks < 0x1_0000_0000_0000_0000
    ensures r.hi * 0x1_0000_0000 + r.lo == ticks
  {
    SystickReturn(ticks % 0x1_0000_0000, ticks / 0x1_0000_0000)
  }

  /** The two halves determine the tick count: the split is injective. */
  lemma SystemTickInjective(a: nat, b: nat)
    requires a < 0x1_0000_0000_0000_0000 && b < 0x1_0000_0000_0000_0000
    requires SystemTick(a) == SystemTick(b)
    ensures a == b
  {
  }

  /** What an operation run under `typed_op` returns: a plain int, or an int and a yield flag. */
  datatype OpResult = Plain(ret: Status) | WithYield(ret: Status, shouldYield: bool)

  /** The result of `typed_op`, and whether it called `yield()` before returning. */
  datatype TypedOpOutcome = TypedOpOutcome(ret: Status, yielded: bool)

  /**
   * `typed_op(sealed, fn)`: a handle that does not unseal to the expected
   * type gives `-EINVAL` without running `fn`; otherwise `fn`'s result is
   * returned, after a yield when `fn` asked for one.
   */
  function TypedOp(unsealed: bool, result: OpResult): (r: TypedOpOutcome)
    ensures !unsealed ==> r == TypedOpOutcome(Err(EINVAL), false)
    ensures unsealed ==> r.ret == result.ret
    ensures r.yielded <==> unsealed && result.WithYield? && result.shouldYield
  {
    if !unsealed then TypedOpOutcome(Err(EINVAL), false)
    else match result
      case Plain(ret) => TypedOpOutcome(ret, false)
      case WithYield(ret, y) => TypedOpOutcome(ret, y)
  }

  // ---------------------------------------------------------------------
  // The scheduler state

  /**
   * The futex state of the scheduler: the waiting list, the threads that
   * futex wakes made runnable (in wake order), the calls made to
   * `priority_boost`, and the running thread's own futex fields.
   */
  class Scheduler {
    /** `CONFIG_THREADS_NUM`. */
    const threadsNum: nat
    /** `SCHEDULER_MULTIWAITER`: whether leftover wakes go to multiwaiters. */
    const useMultiwaiters: bool
    /** `futexWaitingList`. */
    var waiting: seq<ThreadRecord>
    /** Threads passed to `Thread::ready(WakeReason::Futex)`, in order. */
    var readied: seq<ThreadRecord>
    /** Calls of `Thread::priority_boost`, in order. */
    var boostCalls: seq<BoostCall>
    /** The thread running the call. */
    var current: ThreadRecord

    ghost predicate Valid()
      reads this
    {
      1 <= current.id <= threadsNum
    }

    constructor (threadsNum: nat, useMultiwaiters: bool, current: ThreadRecord, waiting: seq<ThreadRecord>)
      requires 1 <= current.id <= threadsNum
      ensures Valid()
      ensures this.threadsNum == threadsNum && this.useMultiwaiters == useMultiwaiters
      ensures this.current == current && this.waiting == waiting
      ensures readied == [] && boostCalls == []
    {
      this.threadsNum := threadsNum;
      this.useMultiwaiters := useMultiwaiters;
      this.current := current;
      this.waiting := waiting;
      this.readied := [];
      this.boostCalls := [];
    }

    /**
     * The `futex_wake(key, count)` helper: walk the waiting list in order,
     * readying each waiter on `key` until `count` have been woken, then
     * offer what is left of `count` to multiwaiters blocked on `key`, which
     * wake at most that many.  Returns whether a woken waiter was priority
     * inheriting, and the total woken.
     */
    method WakeWaiters(key: Address, count: u32) returns (shouldRecalculatePriorityBoost: bool, woke: nat)
      requires count >= 1
      modifies this`waiting, this`readied
      ensures waiting == StillWaiting(old(waiting), key, count)
      ensures readied == old(readied) + Woken(old(waiting), key, count)
      ensures shouldRecalculatePriorityBoost == AnyPriorityInheriting(Woken(old(waiting), key, count))
      ensures |Woken(old(waiting), key, count)| <= woke <= count
      ensures !useMultiwaiters ==> woke == |Woken(old(waiting), key, count)|
      ensures PrioritySorted(old(waiting)) ==> PrioritySorted(waiting)
    {
      ghost var list := waiting;
      ghost var kept: seq<ThreadRecord> := [];
      ghost var rest := waiting;
      ghost var wokenSoFar: seq<ThreadRecord> := [];
      var left: nat := count;
      var i := 0;
      woke := 0;
      shouldRecalculatePriorityBoost := false;
      while i < |waiting| && left != 0
        invariant i == |kept| && waiting == kept + rest
        invariant readied == old(readied) + wokenSoFar
        invariant woke == |wokenSoFar| && left + woke == count
        invariant Woken(list, key, count) == wokenSoFar + Woken(rest, key, left)
        invariant StillWaiting(list, key, count) == kept + StillWaiting(rest, key, left)
        invariant shouldRecalculatePriorityBoost == AnyPriorityInheriting(wokenSoFar)
        decreases |rest|
      {
        var thread := waiting[i];
        WalkStep(kept, rest, i);
        WakeStep(rest, key, left);
        if thread.futexWaitAddress == key {
          shouldRecalculatePriorityBoost := shouldRecalculatePriorityBoost || thread.futexPriorityInheriting;
          // Thread::ready takes the thread off the waiting list.
          waiting := waiting[..i] + waiting[i + 1..];
          readied := readied + [thread];
          PriorityInheritingSnoc(wokenSoFar, thread);
          assert wokenSoFar + ([thread] + Woken(rest[1..], key, left - 1))
              == (wokenSoFar + [thread]) + Woken(rest[1..], key, left - 1);
          wokenSoFar := wokenSoFar + [thread];
          left := left - 1;
          woke := woke + 1;
        } else {
          assert kept + ([thread] + StillWaiting(rest[1..], key, left))
              == (kept + [thread]) + StillWaiting(rest[1..], key, left);
          kept := kept + [thread];
          i := i + 1;
        }
        rest := rest[1..];
      }
      assert left == 0 || rest == [];
      if useMultiwaiters && left > 0 {
        // MultiWaiterInternal::wake_waiters(key, left) wakes at most `left`.
        var multiwaitersWoken: nat :| multiwaitersWoken <= left;
        left := left - multiwaitersWoken;
        woke := woke + multiwaitersWoken;
      }
      if PrioritySorted(list) {
        WakeKeepsPriorityOrder(list, key, count);
      }
    }

    /**
     * `priority_boost_update(key, threadId)`, walking the list in place, with
     * the comparison intended (`BoostUpdatedAsWritten` is the code as written).
     */
    method PriorityBoostUpdate(key: Address, threadId: u16)
      modifies this`waiting
      ensures waiting == BoostUpdatedAll(old(waiting), key, threadId)
    {
      var i := 0;
      while i < |waiting|
        invariant 0 <= i <= |waiting| == |old(waiting)|
        invariant forall k :: 0 <= k < i ==> waiting[k] == BoostUpdated(old(waiting)[k], key, threadId)
        invariant forall k :: i <= k < |waiting| ==> waiting[k] == old(waiting)[k]
      {
        waiting := waiting[i := BoostUpdated(waiting[i], key, threadId)];
        i := i + 1;
      }
    }

    /**
     * `priority_boost_reset(key, threadId)`, walking the list in place, with
     * the comparison intended (`BoostResetAsWritten` is the code as written).
     */
    method PriorityBoostReset(key: Address, threadId: u16)
      modifies this`waiting
      ensures waiting == BoostResetAll(old(waiting), key, threadId)
      ensures PrioritySorted(old(waiting)) ==> PrioritySorted(waiting)
    {
      var i := 0;
      while i < |waiting|
        invariant 0 <= i <= |waiting| == |old(waiting)|
        invariant forall k :: 0 <= k < i ==> waiting[k] == BoostReset(old(waiting)[k], key, threadId)
        invariant forall k :: i <= k < |waiting| ==> waiting[k] == old(waiting)[k]
      {
        waiting := waiting[i := BoostReset(waiting[i], key, threadId)];
        i := i + 1;
      }
      if PrioritySorted(old(waiting)) {
        BoostKeepsPriorityOrder(old(waiting), key, threadId);
      }
    }

    /**
     * `futex_timed_wait(timeout, address, expected, flags)`.  `word` is the
     * value at `address` when the call reads it, `key` the address itself,
     * `outcome` how `Thread::suspend` returned, and `stillValid` whether the
     * futex's memory was still allocated when the thread woke.
     */
    method FutexTimedWait(timeoutValid: bool, addressReadable: bool, key: Address, word: u32,
                          expected: u32, priorityInheriting: bool, outcome: SuspendOutcome,
                          stillValid: bool) returns (r: Status)
      requires Valid()
      modifies this`waiting, this`boostCalls, this`current
      ensures Valid() && current.id == old(current).id
      // Bad pointers are rejected before anything changes.
      ensures !timeoutValid || !addressReadable ==>
                r == Err(EINVAL) && waiting == old(waiting) && boostCalls == old(boostCalls) && current == old(current)
      // A word that no longer holds `expected` returns success without sleeping.
      ensures timeoutValid && addressReadable && word != expected ==>
                r == Ok(0) && waiting == old(waiting) && boostCalls == old(boostCalls) && current == old(current)
      // A priority-inheriting wait on a word naming no thread, or the caller,
      // fails after the wait fields were set.
      ensures timeoutValid && addressReadable && word == expected && priorityInheriting
              && !ValidOwner(word % 0x1_0000) ==>
                r == Err(EINVAL) && waiting == old(waiting) && boostCalls == old(boostCalls)
                && current == old(current).(futexWaitAddress := key, futexPriorityInheriting := true)
      // Otherwise the thread sleeps: see `Sleep`.
      ensures Sleeps(timeoutValid, addressReadable, word, expected, priorityInheriting) ==>
                SleepEffect(old(current), old(waiting), old(boostCalls), current, waiting, boostCalls,
                            key, priorityInheriting, word % 0x1_0000, outcome, stillValid, r)
    {
      if !timeoutValid || !addressReadable {
        return Err(EINVAL);
      }
      if word != expected {
        return Ok(0);
      }
      current := current.(futexWaitAddress := key, futexPriorityInheriting := priorityInheriting);
      // The low 16 bits of a priority-inheriting futex hold the owner's id.
      var owningThreadId: u16 := word % 0x1_0000;
      if priorityInheriting {
        var owningThread := GetThread(threadsNum, owningThreadId);
        if owningThread.None? || owningThread.value == current.id - 1 {
          return Err(EINVAL);
        }
      }
      r := Sleep(key, priorityInheriting, owningThreadId, outcome, stillValid);
    }

    /**
     * What happens once `futex_timed_wait` decides to sleep: with priority
     * inheritance, the other waiters are retargeted at the owner and the
     * owner is boosted by the caller and its waiters, then unboosted on
     * return; the wait address is 0 again afterwards; a timer wake (or a
     * wait on address 0) is a timeout, a futex wake on memory freed
     * meanwhile is `-EINVAL`, any other futex wake success.
     */
    ghost predicate SleepEffect(before: ThreadRecord, waitingBefore: seq<ThreadRecord>, callsBefore: seq<BoostCall>,
                                after: ThreadRecord, waitingAfter: seq<ThreadRecord>, callsAfter: seq<BoostCall>,
                                key: Address, priorityInheriting: bool, owner: u16, outcome: SuspendOutcome,
                                stillValid: bool, r: Status)
    {
      && after == before.(futexWaitAddress := 0, futexPriorityInheriting := priorityInheriting)
      && (r == Err(ETIMEDOUT) <==> outcome == TimedOut || key == 0)
      && (r == Err(EINVAL) <==> outcome == WokenByFutex && key != 0 && !stillValid)
      && (r == Ok(0) <==> outcome == WokenByFutex && key != 0 && stillValid)
      && (!priorityInheriting ==> waitingAfter == waitingBefore && callsAfter == callsBefore)
      && (priorityInheriting ==>
            waitingAfter == BoostUpdatedAll(waitingBefore, key, owner)
            && callsAfter == callsBefore
               + [BoostCall(owner, BoostFor(waitingAfter, owner, before.priority)),
                  BoostCall(owner, BoostFor(waitingAfter, owner, 0))])
    }

    /** The sleeping half of `futex_timed_wait`, from the boost to the return value. */
    method Sleep(key: Address, priorityInheriting: bool, owner: u16, outcome: SuspendOutcome,
                 stillValid: bool) returns (r: Status)
      requires current.futexWaitAddress == key && current.futexPriorityInheriting == priorityInheriting
      modifies this`waiting, this`boostCalls, this`current
      ensures SleepEffect(old(current),
                          old(waiting), old(boostCalls), current, waiting, boostCalls,
                          key, priorityInheriting, owner, outcome, stillValid, r)
      ensures current.id == old(current).id
    {
      var priority := current.priority;
      if priorityInheriting {
        PriorityBoostUpdate(key, owner);
        boostCalls := boostCalls + [BoostCall(owner, BoostFor(waiting, owner, priority))];
      }
      // Thread::suspend: a timer wake clears the wait address, a futex wake keeps it.
      var timedOut := outcome == TimedOut || current.futexWaitAddress == 0;
      current := current.(futexWaitAddress := 0);
      if priorityInheriting {
        boostCalls := boostCalls + [BoostCall(owner, BoostFor(waiting, owner, 0))];
      }
      if timedOut {
        r := Err(ETIMEDOUT);
      } else if !stillValid {
        r := Err(EINVAL);
      } else {
        r := Ok(0);
      }
    }

    /** An owner id that `futex_timed_wait` accepts: a thread, and not the caller. */
    predicate ValidOwner(owner: u16)
      reads this
    {
      GetThread(threadsNum, owner).Some? && owner != current.id
    }

    /** Whether `futex_timed_wait` reaches `Thread::suspend`. */
    predicate Sleeps(timeoutValid: bool, addressReadable: bool, word: u32, expected: u32, priorityInheriting: bool)
      reads this
    {
      timeoutValid && addressReadable && word == expected
      && (priorityInheriting ==> ValidOwner(word % 0x1_0000))
    }

    /**
     * The public `futex_wake(address, count)`: `-EINVAL` for an invalid
     * pointer; otherwise wake through the helper, drop the caller's
     * priority boost when a priority-inheriting waiter woke, and return the
     * number woken with the yield decision.
     */
    method FutexWake(addressValid: bool, key: Address, count: u32, isHighestPriority: bool,
                     hasPriorityPeers: bool, hasRunForFullTick: bool)
      returns (r: Status, shouldYield: FutexWakeKind)
      requires count >= 1
      modifies this`waiting, this`readied, this`boostCalls
      ensures !addressValid ==>
                r == Err(EINVAL) && shouldYield == NoYield
                && waiting == old(waiting) && readied == old(readied) && boostCalls == old(boostCalls)
      ensures addressValid ==>
                var woken := Woken(old(waiting), key, count);
                && readied == old(readied) + woken
                && r.Ok? && |woken| <= r.value <= count
                && (!useMultiwaiters ==> r.value == |woken|)
                && shouldYield == WakeYield(r.value, isHighestPriority, hasPriorityPeers, hasRunForFullTick)
      ensures addressValid && !AnyPriorityInheriting(Woken(old(waiting), key, count)) ==>
                waiting == StillWaiting(old(waiting), key, count) && boostCalls == old(boostCalls)
      ensures addressValid && AnyPriorityInheriting(Woken(old(waiting), key, count)) ==>
                var still := StillWaiting(old(waiting), key, count);
                waiting == BoostResetAll(still, key, current.id)
                && boostCalls == old(boostCalls) + [BoostCall(current.id, BoostFor(waiting, current.id, 0))]
      ensures PrioritySorted(old(waiting)) ==> PrioritySorted(waiting)
    {
      if !addressValid {
        return Err(EINVAL), NoYield;
      }
      var shouldResetPriority, woke := WakeWaiters(key, count);
      shouldYield := WakeYield(woke, isHighestPriority, hasPriorityPeers, hasRunForFullTick);
      if shouldResetPriority {
        PriorityBoostReset(key, current.id);
        boostCalls := boostCalls + [BoostCall(current.id, BoostFor(waiting, current.id, 0))];
      }
      r := Ok(woke);
    }
  }
}
