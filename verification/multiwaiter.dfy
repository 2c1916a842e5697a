/**
 * Multiwaiters: waiting on several event sources at once.  An event names a
 * futex word (with the value it is expected to hold), or a message queue
 * the caller wants to send to or receive from.  `multiwaiter_wait`
 * validates its arguments, registers the events, sleeps while none is
 * ready, and overwrites each event's `value` with 1 (ready) or 0 (not
 * ready).  The call is split at its suspension point: `Wait` runs up to
 * `mw.wait(timeout)`, `Resume` runs after the thread is woken.
 */
module MultiWaiters {
  import opened Common
  import opened Timeouts
  import Scheduler

  type Address = Scheduler.Address

  // ---------------------------------------------------------------------
  // Message queues

  /** A bounded FIFO queue of `int` messages. */
  class MessageQueue {
    const capacity: nat
    var items: seq<int>

    ghost predicate Valid()
      reads this
    {
      |items| <= capacity
    }

    constructor (capacity: nat)
      ensures Valid() && this.capacity == capacity && items == []
    {
      this.capacity := capacity;
      items := [];
    }

    /** Room for at least one more message: a send would not block. */
    predicate CanSend()
      reads this
    {
      |items| < capacity
    }

    /** A message waiting: a receive would not block. */
    predicate CanReceive()
      reads this
    {
      |items| > 0
    }

    /**
     * `queue_send` with a zero timeout: append the message when there is
     * room, otherwise fail with `-ETIMEDOUT` and change nothing.
     */
    method Send(value: int) returns (r: Status)
      requires Valid()
      modifies this
      ensures Valid()
      ensures old(CanSend()) ==> r == Ok(0) && items == old(items) + [value]
      ensures !old(CanSend()) ==> r == Err(ETIMEDOUT) && items == old(items)
    {
      if |items| < capacity {
        items := items + [value];
        r := Ok(0);
      } else {
        r := Err(ETIMEDOUT);
      }
    }

    /**
     * `queue_receive` with a zero timeout: take the oldest message when
     * there is one, otherwise fail with `-ETIMEDOUT` and change nothing.
     */
    method Receive() returns (r: Status, value: int)
      requires Valid()
      modifies this
      ensures Valid()
      ensures old(CanReceive()) ==> r == Ok(0) && value == old(items)[0] && items == old(items)[1..]
      ensures !old(CanReceive()) ==> r == Err(ETIMEDOUT) && items == old(items)
    {
      if |items| > 0 {
        value := items[0];
        items := items[1..];
        r := Ok(0);
      } else {
        r := Err(ETIMEDOUT);
        value := 0;
      }
    }
  }

  // ---------------------------------------------------------------------
  // Events

  /** What an event waits for. */
  datatype EventSource =
    | NoSource                          // a null or unusable pointer
    | FutexWord(address: Address)       // a futex word; `value` holds the expected contents
    | QueueSend(queue: MessageQueue)    // space in `queue`
    | QueueReceive(queue: MessageQueue) // a message in `queue`
  {
    /** The queue the event reads, if any. */
    function Objects(): set<object>
    {
      if QueueSend? || QueueReceive? then {queue} else {}
    }
  }

  /** `EventWaiterSource`: the source, and a value that is input and result. */
  datatype EventWaiterSource = EventWaiterSource(source: EventSource, value: u32)

  /** The futex words readable by the caller, with their contents. */
  type Memory = map<Address, u32>

  /** An event `set_events` accepts: a queue, or a futex word the caller can read. */
  predicate WellFormed(e: EventWaiterSource, memory: Memory)
  {
    match e.source
    case NoSource => false
    case FutexWord(a) => a in memory
    case _ => true
  }

  /**
   * An event that has fired: a futex word that no longer holds the expected
   * value, a queue with room (send) or with a message (receive).
   */
  predicate Ready(e: EventWaiterSource, memory: Memory)
    reads e.source.Objects()
  {
    match e.source
    case NoSource => false
    case FutexWord(a) => a in memory && memory[a] != e.value
    case QueueSend(q) => q.CanSend()
    case QueueReceive(q) => q.CanReceive()
  }

  /** The result `get_results` writes into an event. */
  function Reported(e: EventWaiterSource, memory: Memory): (r: EventWaiterSource)
    reads e.source.Objects()
    ensures r.source == e.source
    ensures r.value == 1 <==> Ready(e, memory)
    ensures r.value == 0 <==> !Ready(e, memory)
  {
    e.(value := if Ready(e, memory) then 1 else 0)
  }

  /** The queues a sequence of events reads. */
  function QueuesOf(events: seq<EventWaiterSource>): set<object>
  {
    set i, o | 0 <= i < |events| && o in events[i].source.Objects() :: o
  }

  ghost predicate AllWellFormed(events: seq<EventWaiterSource>, memory: Memory)
  {
    forall i :: 0 <= i < |events| ==> WellFormed(events[i], memory)
  }

  ghost predicate AnyReady(events: seq<EventWaiterSource>, memory: Memory)
    reads QueuesOf(events)
  {
    exists i :: 0 <= i < |events| && Ready(events[i], memory)
  }

  /** What `set_events` decides. */
  datatype EventOperationResult = Error | Sleep | Wake

  /** `set_events`: a malformed event is an error; otherwise wake when one has fired. */
  ghost function SetEvents(events: seq<EventWaiterSource>, memory: Memory): (r: EventOperationResult)
    reads QueuesOf(events)
    ensures r == Error <==> !AllWellFormed(events, memory)
    ensures r == Wake <==> AllWellFormed(events, memory) && AnyReady(events, memory)
  {
    if !AllWellFormed(events, memory) then Error
    else if AnyReady(events, memory) then Wake
    else Sleep
  }

  /** The size in bytes of `size_t` on the 32-bit target. */
  const SizeofSizeT: nat := 4
  /** The size in bytes of `EventWaiterSource`: an 8-byte capability and a 4-byte value, padded to 16. */
  const SizeofEventWaiterSource: nat := 16

  /**
   * The events-pointer length check AS WRITTEN: `newEventsCount *
   * sizeof(newEventsCount)` bytes must fit in the buffer, which measures
   * the buffer in `size_t`s rather than in events.
   */
  function EventsFitAsWritten(count: nat, bufferBytes: nat): (ok: bool)
    ensures ok <==> count <= bufferBytes / SizeofSizeT
  {
    count * SizeofSizeT <= bufferBytes
  }

  /** The intended check: `newEventsCount * sizeof(EventWaiterSource)` bytes. */
  function EventsFit(count: nat, bufferBytes: nat): (ok: bool)
    ensures ok <==> count <= bufferBytes / SizeofEventWaiterSource
  {
    count * SizeofEventWaiterSource <= bufferBytes
  }

  /** The intended check admits a count exactly when the buffer holds that many events. */
  lemma EventsFitMeansInBounds(count: nat, length: nat)
    ensures EventsFit(count, length * SizeofEventWaiterSource) <==> count <= length
  {
  }

  /**
   * The check as written lets through four times too many events: a buffer
   * of one event passes a count of 4, and `set_events` then reads past it.
   */
  lemma EventsFitAsWrittenOverruns()
    ensures EventsFitAsWritten(4, 1 * SizeofEventWaiterSource)
    ensures !EventsFit(4, 1 * SizeofEventWaiterSource)
  {
  }

  /** Every count the intended check admits, the written one admits too. */
  lemma EventsFitAsWrittenIsWeaker(count: nat, bufferBytes: nat)
    requires EventsFit(count, bufferBytes)
    ensures EventsFitAsWritten(count, bufferBytes)
  {
  }

  // ---------------------------------------------------------------------
  // The multiwaiter

  /** How far `multiwaiter_wait` got. */
  datatype WaitOutcome =
    | Returned(ret: Status)  // the call returned without sleeping
    | Sleeping               // the thread is blocked in `mw.wait(timeout)`

  /** A multiwaiter: its capacity and the number of events it is waiting on. */
  class MultiWaiter {
    const capacity: nat
    var size: nat

    ghost predicate Valid()
      reads this
    {
      size <= capacity
    }

    /** `multiwaiter_create(timeout, heap, &mw, capacity)` once the allocation succeeded. */
    constructor (capacity: nat)
      ensures Valid() && this.capacity == capacity && size == 0
    {
      this.capacity := capacity;
      size := 0;
    }

    /**
     * `get_results`: overwrite each of the first `count` events' value with
     * 1 when it has fired and 0 otherwise, forget the registered events,
     * and report whether any fired.
     */
    method GetResults(events: array<EventWaiterSource>, count: nat, memory: Memory) returns (found: bool)
      requires count <= events.Length && count <= capacity
      modifies this, events
      ensures Valid() && size == 0
      ensures forall i :: 0 <= i < count ==> events[i] == Reported(old(events[i]), memory)
      ensures forall i :: count <= i < events.Length ==> events[i] == old(events[i])
      ensures found <==> AnyReady(old(events[..count]), memory)
    {
      ghost var before := events[..count];
      var i := 0;
      found := false;
      while i < count
        invariant 0 <= i <= count
        invariant forall k :: 0 <= k < i ==> events[k] == Reported(old(events[k]), memory)
        invariant forall k :: i <= k < events.Length ==> events[k] == old(events[k])
        invariant found <==> exists k :: 0 <= k < i && Ready(before[k], memory)
      {
        assert before[i] == events[i];
        events[i] := Reported(events[i], memory);
        found := found || events[i].value == 1;
        i := i + 1;
      }
      size := 0;
    }

    /**
     * `multiwaiter_wait(timeout, mw, events, count)` up to the point where
     * it sleeps.  `handleValid` says whether `typed_op` could unseal the
     * waiter handle (this object is the waiter it names); `timeoutValid` and
     * `eventsValid` are the pointer checks on `timeout` and `events` (whose
     * buffer is `events.Length` events long), and `memory` the futex words
     * the caller can read.  The checks run in this order: the handle, too
     * many events, the events pointer (sized in events, as intended; see
     * `EventsFitAsWritten` for the check as written), the timeout pointer,
     * a busy waiter, then `set_events`.  Every error return leaves the
     * events untouched, and no return touches the events beyond `count`.
     */
    method Wait(handleValid: bool, timeoutValid: bool, timeout: TimeoutValue, eventsValid: bool,
                events: array<EventWaiterSource>, count: nat, memory: Memory) returns (outcome: WaitOutcome)
      requires Valid()
      modifies this, events
      ensures Valid()
      ensures !handleValid ==> outcome == Returned(Err(EINVAL))
      ensures handleValid && count > capacity ==> outcome == Returned(Err(EINVAL))
      ensures handleValid && count <= capacity && !(eventsValid && EventsFit(count, events.Length * SizeofEventWaiterSource))
              ==> outcome == Returned(Err(EINVAL))
      ensures PointersChecked(handleValid, eventsValid, events, count) && !timeoutValid ==> outcome == Returned(Err(EINVAL))
      ensures PointersChecked(handleValid, eventsValid, events, count) && timeoutValid && old(size) > 0
              ==> outcome == Returned(Err(EBUSY))
      ensures outcome == Returned(Err(EINVAL)) || outcome == Returned(Err(EBUSY)) ==> events[..] == old(events[..])
      ensures forall i :: count <= i < events.Length ==> events[i] == old(events[i])
      ensures outcome == Returned(Ok(0)) || outcome.Sleeping? ==>
                count <= events.Length && AllWellFormed(old(events[..count]), memory)
      // Nothing fired and the timeout allows no sleep: every result is 0.
      ensures outcome == Returned(Err(ETIMEDOUT)) ==>
                !timeout.MayBlock() && count <= events.Length
                && forall i :: 0 <= i < count ==> events[i] == old(events[i]).(value := 0)
      // A fired event: every result is written and the call returns 0.
      ensures outcome == Returned(Ok(0)) ==>
                AnyReady(old(events[..count]), memory)
                && forall i :: 0 <= i < count ==> events[i] == Reported(old(events[i]), memory)
      ensures Admitted(handleValid, timeoutValid, eventsValid, events, count, old(size)) ==>
                (outcome == Returned(Err(EINVAL)) <==> !AllWellFormed(old(events[..count]), memory))
                && (outcome.Sleeping? <==> AllWellFormed(old(events[..count]), memory)
                                           && !AnyReady(old(events[..count]), memory) && timeout.MayBlock())
                && (AllWellFormed(old(events[..count]), memory) && AnyReady(old(events[..count]), memory)
                    ==> outcome == Returned(Ok(0)))
                && (AllWellFormed(old(events[..count]), memory) && !AnyReady(old(events[..count]), memory) && !timeout.MayBlock()
                    ==> outcome == Returned(Err(ETIMEDOUT)))
      ensures outcome.Sleeping? ==> size == count && events[..] == old(events[..])
      ensures !outcome.Sleeping? ==> size == old(size)
    {
      if !handleValid {
        return Returned(Err(EINVAL));
      }
      if count > capacity {
        return Returned(Err(EINVAL));
      }
      if !eventsValid || !EventsFit(count, events.Length * SizeofEventWaiterSource) {
        return Returned(Err(EINVAL));
      }
      EventsFitMeansInBounds(count, events.Length);
      if !timeoutValid {
        return Returned(Err(EINVAL));
      }
      if size > 0 {
        return Returned(Err(EBUSY));
      }
      var decision := SetEventsOf(events, count, memory);
      match decision {
        case Error =>
          return Returned(Err(EINVAL));
        case Sleep =>
          if timeout.MayBlock() {
            size := count;
            return Sleeping;
          }
          var found := GetResults(events, count, memory);
          assert !found;
          forall i | 0 <= i < count ensures events[i] == old(events[i]).(value := 0) {
            assert old(events[..count])[i] == old(events[i]);
          }
          return Returned(Err(ETIMEDOUT));
        case Wake =>
          var found := GetResults(events, count, memory);
          assert found;
          return Returned(Ok(0));
      }
    }

    /** The handle, the count and the events pointer, checked before the timeout, passed. */
    predicate PointersChecked(handleValid: bool, eventsValid: bool, events: array<EventWaiterSource>, count: nat)
      reads this
    {
      handleValid && count <= capacity && eventsValid && EventsFit(count, events.Length * SizeofEventWaiterSource)
    }

    /** Every check before `set_events` passed, and the buffer holds `count` events. */
    predicate Admitted(handleValid: bool, timeoutValid: bool, eventsValid: bool, events: array<EventWaiterSource>, count: nat, size: nat)
      reads this
    {
      PointersChecked(handleValid, eventsValid, events, count) && timeoutValid && size == 0
      && count <= events.Length
    }

    /** `set_events` over the first `count` events, scanning them in order. */
    method SetEventsOf(events: array<EventWaiterSource>, count: nat, memory: Memory) returns (r: EventOperationResult)
      requires count <= events.Length
      ensures r == SetEvents(events[..count], memory)
    {
      var i := 0;
      var anyReady := false;
      while i < count
        invariant 0 <= i <= count
        invariant forall k :: 0 <= k < i ==> WellFormed(events[k], memory)
        invariant anyReady <==> exists k :: 0 <= k < i && Ready(events[k], memory)
      {
        if !WellFormed(events[i], memory) {
          assert events[..count][i] == events[i];
          return Error;
        }
        anyReady := anyReady || Ready(events[i], memory);
        i := i + 1;
      }
      assert forall k :: 0 <= k < count ==> events[..count][k] == events[k];
      r := if anyReady then Wake else Sleep;
    }

    /**
     * The rest of `multiwaiter_wait` once `mw.wait(timeout)` returns:
     * `-EINVAL` if the waiter or the events were freed meanwhile, otherwise
     * the results against the state at wake-up, and `-ETIMEDOUT` when none
     * fired.
     */
    method Resume(stillValid: bool, events: array<EventWaiterSource>, count: nat, memory: Memory) returns (r: Status)
      requires Valid() && size == count && count <= events.Length
      modifies this, events
      ensures !stillValid ==> r == Err(EINVAL) && size == old(size) && events[..] == old(events[..])
      ensures stillValid ==>
                size == 0
                && (forall i :: 0 <= i < count ==> events[i] == Reported(old(events[i]), memory))
                && (r == Ok(0) <==> AnyReady(old(events[..count]), memory))
                && (r != Ok(0) ==> r == Err(ETIMEDOUT))
      ensures Valid()
    {
      if !stillValid {
        return Err(EINVAL);
      }
      var found := GetResults(events, count, memory);
      r := if found then Ok(0) else Err(ETIMEDOUT);
    }
  }

  // ---------------------------------------------------------------------
  // The multiwaiter test, replayed.  Background threads become the state
  // changes made between `Wait` and `Resume`.

  /**
   * The whole test: the return value of each `multiwaiter_wait` in turn,
   * after the wake-up where the call sleeps.
   */
  method TestMultiwaiter() returns (rets: seq<Status>)
    ensures rets == [Err(EINVAL), Ok(0), Ok(0), Ok(0), Ok(0), Ok(0), Ok(0)]
  {
    var mw := new MultiWaiter(4);
    var events := new EventWaiterSource[4](_ => EventWaiterSource(NoSource, 0));
    var futex: Address := 0x2000;
    var futex2: Address := 0x2004;
    var memory: Memory := map[futex := 0, futex2 := 0];
    rets := TestFutexEvents(mw, events, futex, memory);
    var r := TestTwoFutexes(mw, events, futex, futex2, memory);
    rets := rets + [r];
    var queue := new MessageQueue(1);
    var s := queue.Send(0);
    assert s == Ok(0);
    r := TestQueueSend(mw, events, queue, memory);
    rets := rets + [r];
    var value;
    r, value := TestQueueReceive(mw, events, queue, memory);
    rets := rets + [r];
    r := TestQueueAndFutex(mw, events, queue, futex, memory);
    rets := rets + [r];
  }

  /** The single-futex cases: a null pointer, a word already changed, a word changed later. */
  method TestFutexEvents(mw: MultiWaiter, events: array<EventWaiterSource>, futex: Address, memory: Memory)
    returns (rets: seq<Status>)
    requires mw.Valid() && mw.size == 0 && mw.capacity == 4 && events.Length == 4
    requires futex in memory
    modifies mw, events
    ensures mw.Valid() && mw.size == 0
    ensures rets == [Err(EINVAL), Ok(0), Ok(0)]
  {
    var memory := memory;
    // A null futex pointer is rejected.
    events[0] := EventWaiterSource(NoSource, 0);
    assert events[..1][0] == EventWaiterSource(NoSource, 0);
    var o := mw.Wait(true, true, TimeoutValue(0, 5), true, events, 1, memory);
    assert o == Returned(Err(EINVAL));

    // One futex, already ready.
    memory := memory[futex := 0];
    events[0] := EventWaiterSource(FutexWord(futex), 1);
    assert events[..1][0] == EventWaiterSource(FutexWord(futex), 1);
    o := mw.Wait(true, true, TimeoutValue(0, 50), true, events, 1, memory);
    assert o == Returned(Ok(0));

    // One futex, not yet ready: a background thread sets it to 1.
    events[0] := EventWaiterSource(FutexWord(futex), 0);
    assert events[..1][0] == EventWaiterSource(FutexWord(futex), 0);
    o := mw.Wait(true, true, TimeoutValue(0, 51), true, events, 1, memory);
    assert o == Sleeping;
    memory := memory[futex := 1];
    var r := mw.Resume(true, events, 1, memory);
    rets := [Err(EINVAL), Ok(0), r];
  }

  /** Two futex words not yet ready, of which a background thread changes only the second. */
  method TestTwoFutexes(mw: MultiWaiter, events: array<EventWaiterSource>, futex: Address, futex2: Address, memory: Memory)
    returns (r: Status)
    requires mw.Valid() && mw.size == 0 && mw.capacity == 4 && events.Length == 4
    requires futex != futex2
    modifies mw, events
    ensures mw.Valid() && mw.size == 0
    ensures r == Ok(0) && events[0].value == 0 && events[1].value == 1
  {
    var memory := memory[futex := 0][futex2 := 2];
    events[0] := EventWaiterSource(FutexWord(futex), 0);
    events[1] := EventWaiterSource(FutexWord(futex2), 2);
    assert events[..2][0] == events[0] && events[..2][1] == events[1];
    var o := mw.Wait(true, true, TimeoutValue(0, 52), true, events, 2, memory);
    assert o == Sleeping;
    memory := memory[futex2 := 3];
    r := mw.Resume(true, events, 2, memory);
    assert r == Ok(0);
  }

  /** Blocked on send to a full queue until a background receive makes room. */
  method TestQueueSend(mw: MultiWaiter, events: array<EventWaiterSource>, queue: MessageQueue, memory: Memory)
    returns (r: Status)
    requires mw.Valid() && mw.size == 0 && mw.capacity == 4 && events.Length == 4
    requires queue.Valid() && queue.capacity == 1 && queue.items == [0]
    modifies mw, events, queue
    ensures mw.Valid() && mw.size == 0 && queue.Valid() && queue.items == []
    ensures r == Ok(0) && events[0].value == 1
  {
    events[0] := EventWaiterSource(QueueSend(queue), 0);
    assert events[..1][0] == EventWaiterSource(QueueSend(queue), 0);
    var o := mw.Wait(true, true, TimeoutValue(0, 53), true, events, 1, memory);
    assert o == Sleeping;
    var received, value := queue.Receive();
    assert received == Ok(0) && value == 0;
    r := mw.Resume(true, events, 1, memory);
    assert r == Ok(0);
    assert events[0].value == 1;
  }

  /** Blocked on receive until a background send of 1, which the next receive returns. */
  method TestQueueReceive(mw: MultiWaiter, events: array<EventWaiterSource>, queue: MessageQueue, memory: Memory)
    returns (r: Status, value: int)
    requires mw.Valid() && mw.size == 0 && mw.capacity == 4 && events.Length == 4
    requires queue.Valid() && queue.capacity == 1 && queue.items == []
    modifies mw, events, queue
    ensures mw.Valid() && mw.size == 0 && queue.Valid() && queue.items == []
    ensures r == Ok(0) && events[0].value == 1 && value == 1
  {
    events[0] := EventWaiterSource(QueueReceive(queue), 0);
    assert events[..1][0] == EventWaiterSource(QueueReceive(queue), 0);
    var o := mw.Wait(true, true, FromRemaining(10), true, events, 1, memory);
    assert o == Sleeping;
    var s := queue.Send(1);
    assert s == Ok(0);
    r := mw.Resume(true, events, 1, memory);
    assert r == Ok(0);
    assert events[0].value == 1;
    var received;
    received, value := queue.Receive();
    assert received == Ok(0) && value == 1;
  }

  /** An empty queue and a futex that fires: only the futex reports ready. */
  method TestQueueAndFutex(mw: MultiWaiter, events: array<EventWaiterSource>, queue: MessageQueue, futex: Address, memory: Memory)
    returns (r: Status)
    requires mw.Valid() && mw.size == 0 && mw.capacity == 4 && events.Length == 4
    requires queue.Valid() && queue.items == [] && futex in memory
    modifies mw, events
    ensures mw.Valid() && mw.size == 0
    ensures r == Ok(0) && events[0].value == 0 && events[1].value == 1
  {
    var memory := memory[futex := 0];
    events[0] := EventWaiterSource(QueueReceive(queue), 0);
    events[1] := EventWaiterSource(FutexWord(futex), 0);
    assert events[..2][0] == events[0] && events[..2][1] == events[1];
    var o := mw.Wait(true, true, TimeoutValue(0, 54), true, events, 2, memory);
    assert o == Sleeping;
    memory := memory[futex := 1];
    r := mw.Resume(true, events, 2, memory);
    assert r == Ok(0);
    assert events[0].value == 0;
    assert events[1].value == 1;
  }
}
