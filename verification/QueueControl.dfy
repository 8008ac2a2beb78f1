/** The bookkeeping of one queue: how many messages it holds, the two int8_t lock counters,
    and the two lists of waiting tasks. Each operation is one critical section. */
module QueueControl {
  import opened ListHeap

  const UNLOCKED := -1
  const LOCKED_UNMODIFIED := 0

  /** `wokenRx` and `wokenTx` hold the tasks that were taken off a waiting list because of
      an event and have not tried again yet. */
  datatype Control = Control(
    length: nat,
    messages: nat,
    txLock: int,
    rxLock: int,
    waitRx: seq<Task>,
    waitTx: seq<Task>,
    wokenRx: set<Task>,
    wokenTx: set<Task>)

  /** The lock counters are int8_t. */
  function Increment8(c: int): int {
    if c == 127 then -128 else c + 1
  }

  function WakeRx(c: Control): Control {
    if c.waitRx == [] then c else c.(waitRx := c.waitRx[1..], wokenRx := c.wokenRx + {c.waitRx[0]})
  }

  function WakeTx(c: Control): Control {
    if c.waitTx == [] then c else c.(waitTx := c.waitTx[1..], wokenTx := c.wokenTx + {c.waitTx[0]})
  }

  /** Up to `n` waiting tasks are woken, from the head. */
  function DrainRx(c: Control, n: int): Control
    decreases n
  {
    if n <= 0 || c.waitRx == [] then c else DrainRx(WakeRx(c), n - 1)
  }

  function DrainTx(c: Control, n: int): Control
    decreases n
  {
    if n <= 0 || c.waitTx == [] then c else DrainTx(WakeTx(c), n - 1)
  }

  function Retried(c: Control, t: Task): Control {
    c.(wokenRx := c.wokenRx - {t}, wokenTx := c.wokenTx - {t})
  }

  predicate CanSend(c: Control, overwrite: bool) {
    c.messages < c.length || overwrite
  }

  /** An overwrite of a full queue (of length 1) leaves the number of messages alone. */
  function Posted(c: Control, overwrite: bool): Control {
    c.(messages := if overwrite && 0 < c.messages then c.messages else c.messages + 1)
  }

  function TaskSend(c: Control, t: Task, overwrite: bool): Control {
    var r := Retried(c, t);
    if CanSend(c, overwrite) then WakeRx(Posted(r, overwrite)) else r
  }

  function TaskReceive(c: Control, t: Task): Control {
    var r := Retried(c, t);
    if 0 < c.messages then WakeTx(r.(messages := r.messages - 1)) else r
  }

  /** A peek leaves the message, so the next waiting receiver is woken for it. */
  function TaskPeek(c: Control, t: Task): Control {
    var r := Retried(c, t);
    if 0 < c.messages then WakeRx(r) else r
  }

  function Locked(c: Control): Control {
    c.(rxLock := if c.rxLock == UNLOCKED then LOCKED_UNMODIFIED else c.rxLock,
       txLock := if c.txLock == UNLOCKED then LOCKED_UNMODIFIED else c.txLock)
  }

  function UnlockedTx(c: Control): Control {
    DrainRx(c, c.txLock).(txLock := UNLOCKED)
  }

  function UnlockedRx(c: Control): Control {
    DrainTx(c, c.rxLock).(rxLock := UNLOCKED)
  }

  function IsrSend(c: Control, overwrite: bool): Control {
    if !CanSend(c, overwrite) then c
    else if c.txLock == UNLOCKED then WakeRx(Posted(c, overwrite))
    else Posted(c, overwrite).(txLock := Increment8(c.txLock))
  }

  function IsrReceive(c: Control): Control {
    if c.messages == 0 then c
    else if c.rxLock == UNLOCKED then WakeTx(c.(messages := c.messages - 1))
    else c.(messages := c.messages - 1, rxLock := Increment8(c.rxLock))
  }

  /** vListInsert puts the task at position `at`, which its priority decides. */
  function Inserted(waiting: seq<Task>, t: Task, at: nat): seq<Task> {
    if at <= |waiting| then waiting[..at] + [t] + waiting[at..] else waiting + [t]
  }

  function TakenOff(waiting: seq<Task>, t: Task): seq<Task> {
    if waiting == [] then []
    else if waiting[0] == t then waiting[1..]
    else [waiting[0]] + TakenOff(waiting[1..], t)
  }

  /** The queue structure itself; every method body is one critical section, or the part
      of one that touches the queue. */
  class Queue {
    const length: nat
    var messagesWaiting: nat
    var txLock: int
    var rxLock: int
    var tasksWaitingToReceive: seq<Task>
    var tasksWaitingToSend: seq<Task>
    ghost var wokenRx: set<Task>
    ghost var wokenTx: set<Task>

    ghost function View(): Control
      reads this
    {
      Control(length, messagesWaiting, txLock, rxLock, tasksWaitingToReceive, tasksWaitingToSend, wokenRx, wokenTx)
    }

    constructor (length: nat)
      requires 0 < length
      ensures View() == Control(length, 0, UNLOCKED, UNLOCKED, [], [], {}, {})
    {
      this.length, messagesWaiting, txLock, rxLock := length, 0, UNLOCKED, UNLOCKED;
      tasksWaitingToReceive, tasksWaitingToSend, wokenRx, wokenTx := [], [], {}, {};
    }

    /** xTaskRemoveFromEventList on xTasksWaitingToReceive. */
    method RemoveReceiver()
      requires tasksWaitingToReceive != []
      modifies this
      ensures View() == WakeRx(old(View()))
    {
      wokenRx := wokenRx + {tasksWaitingToReceive[0]};
      tasksWaitingToReceive := tasksWaitingToReceive[1..];
    }

    /** xTaskRemoveFromEventList on xTasksWaitingToSend. */
    method RemoveSender()
      requires tasksWaitingToSend != []
      modifies this
      ensures View() == WakeTx(old(View()))
    {
      wokenTx := wokenTx + {tasksWaitingToSend[0]};
      tasksWaitingToSend := tasksWaitingToSend[1..];
    }

    /** The first critical section of xQueueGenericSend, run by task `t`. */
    method TrySend(ghost t: Task, overwrite: bool) returns (passed: bool)
      requires overwrite ==> length == 1
      modifies this
      ensures View() == TaskSend(old(View()), t, overwrite)
      ensures passed == (overwrite || old(messagesWaiting) < length)
      ensures messagesWaiting == old(messagesWaiting) + if old(messagesWaiting) < length then 1 else 0
    {
      wokenRx, wokenTx := wokenRx - {t}, wokenTx - {t};
      passed := messagesWaiting < length || overwrite;
      if passed {
        var waiting := messagesWaiting;
        if overwrite && 0 < waiting {
          waiting := waiting - 1;
        }
        messagesWaiting := waiting + 1;
        if tasksWaitingToReceive != [] {
          RemoveReceiver();
        }
      }
    }

    /** The first critical section of xQueueGenericReceive, run by task `t`. */
    method TryReceive(ghost t: Task, justPeeking: bool) returns (passed: bool)
      modifies this
      ensures View() == if justPeeking then TaskPeek(old(View()), t) else TaskReceive(old(View()), t)
      ensures passed == (0 < old(messagesWaiting))
      ensures messagesWaiting == old(messagesWaiting) - if passed && !justPeeking then 1 else 0
    {
      wokenRx, wokenTx := wokenRx - {t}, wokenTx - {t};
      passed := 0 < messagesWaiting;
      if passed {
        if !justPeeking {
          messagesWaiting := messagesWaiting - 1;
          if tasksWaitingToSend != [] {
            RemoveSender();
          }
        } else if tasksWaitingToReceive != [] {
          RemoveReceiver();
        }
      }
    }

    /** prvLockQueue. */
    method Lock()
      modifies this
      ensures View() == Locked(old(View()))
    {
      if rxLock == UNLOCKED {
        rxLock := LOCKED_UNMODIFIED;
      }
      if txLock == UNLOCKED {
        txLock := LOCKED_UNMODIFIED;
      }
    }

    /** The first critical section of prvUnlockQueue. */
    method UnlockTx()
      modifies this
      ensures View() == UnlockedTx(old(View()))
    {
      var count := txLock;
      while LOCKED_UNMODIFIED < count
        invariant DrainRx(View(), count) == DrainRx(old(View()), old(txLock))
        invariant txLock == old(txLock)
      {
        if tasksWaitingToReceive != [] {
          RemoveReceiver();
        } else {
          break;
        }
        count := count - 1;
      }
      txLock := UNLOCKED;
    }

    /** The second critical section of prvUnlockQueue. */
    method UnlockRx()
      modifies this
      ensures View() == UnlockedRx(old(View()))
    {
      var count := rxLock;
      while LOCKED_UNMODIFIED < count
        invariant DrainTx(View(), count) == DrainTx(old(View()), old(rxLock))
        invariant rxLock == old(rxLock)
      {
        if tasksWaitingToSend != [] {
          RemoveSender();
          count := count - 1;
        } else {
          break;
        }
      }
      rxLock := UNLOCKED;
    }

    /** xQueueGenericSendFromISR; xQueueGiveFromISR is the case without overwrite. */
    method SendFromISR(overwrite: bool) returns (passed: bool)
      requires overwrite ==> length == 1
      modifies this
      ensures View() == IsrSend(old(View()), overwrite)
      ensures passed == (overwrite || old(messagesWaiting) < length)
      ensures messagesWaiting == old(messagesWaiting) + if old(messagesWaiting) < length then 1 else 0
    {
      passed := messagesWaiting < length || overwrite;
      if passed {
        var lock := txLock;
        if !(overwrite && 0 < messagesWaiting) {
          messagesWaiting := messagesWaiting + 1;
        }
        if lock == UNLOCKED {
          if tasksWaitingToReceive != [] {
            RemoveReceiver();
          }
        } else {
          txLock := Increment8(lock);
        }
      }
    }

    /** xQueueReceiveFromISR. */
    method ReceiveFromISR() returns (passed: bool)
      modifies this
      ensures View() == IsrReceive(old(View()))
      ensures passed == (0 < old(messagesWaiting))
      ensures messagesWaiting == old(messagesWaiting) - if passed then 1 else 0
    {
      passed := 0 < messagesWaiting;
      if passed {
        var lock := rxLock;
        messagesWaiting := messagesWaiting - 1;
        if lock == UNLOCKED {
          if tasksWaitingToSend != [] {
            RemoveSender();
          }
        } else {
          rxLock := Increment8(lock);
        }
      }
    }
  }
}
