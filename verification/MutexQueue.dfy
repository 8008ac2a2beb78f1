/** A queue used as a mutex (queue.c) together with the scheduler, step by step. */
module MutexQueueObject {
  import opened ListHeap
  import opened Scheduler
  import opened Mutexes
  import opened TaskSchedulerObject

  class MutexQueue {
    const id: nat                       // its waiting list
    const recursive: bool
    const scheduler: TaskScheduler
    var messagesWaiting: nat            // uxMessagesWaiting
    var mutexHolder: Option<Task>       // pxMutexHolder
    var recursiveCallCount: nat         // u.uxRecursiveCallCount

    constructor (id: nat, recursive: bool, scheduler: TaskScheduler)
      ensures this.id == id && this.recursive == recursive && this.scheduler == scheduler
      ensures View() == World(scheduler.State(), map[id := Mutex(recursive, 1, None, 0)])
    {
      this.id, this.recursive, this.scheduler := id, recursive, scheduler;
      messagesWaiting, mutexHolder, recursiveCallCount := 1, None, 0;
    }

    function View(): World
      reads this, scheduler
    {
      World(scheduler.State(), map[id := Mutex(recursive, messagesWaiting, mutexHolder, recursiveCallCount)])
    }

    /** The part of xQueueGenericReceive that takes the message of a mutex. */
    method TryTake() returns (taken: bool)
      requires scheduler.currentTCB in scheduler.tcbs
      modifies this, scheduler
      ensures View() == Taken(old(View()), id)
      ensures taken <==> old(messagesWaiting) != 0
    {
      taken := messagesWaiting != 0;
      if taken {
        messagesWaiting := 0;
        var holder := scheduler.IncrementMutexHeldCount();
        mutexHolder := Some(holder);
      }
    }

    /** The part of xQueueGenericReceive in which a task that is about to block lends its
        priority to the holder. */
    method LendPriority()
      requires mutexHolder.Some? ==> mutexHolder.value in scheduler.tcbs
      modifies scheduler
      ensures View() == Step(old(View()), InheritFor(id))
    {
      if mutexHolder.Some? {
        scheduler.PriorityInherit(mutexHolder.value);
      }
    }

    /** xQueueGenericSend on a mutex that its holder gives back. */
    method Give()
      requires mutexHolder == Some(scheduler.currentTCB)
      requires scheduler.currentTCB in scheduler.tcbs && 0 < scheduler.tcbs[scheduler.currentTCB].mutexesHeld
      modifies this, scheduler
      ensures View() == Given(old(View()), id)
    {
      hide Disinherit, RemoveFromEventList;
      var _ := scheduler.PriorityDisinherit();
      mutexHolder := None;
      messagesWaiting := 1;
      if scheduler.lists.Items(EventList(id)) != [] {
        var _ := scheduler.RemoveFromEventList(id);
      } else {
        assert RemoveFromEventList(scheduler.State(), id) == scheduler.State()
          by { NobodyToRemove(scheduler.State(), id); }
      }
    }

    /** xQueueTakeMutexRecursive without a block time. */
    method TakeRecursive() returns (taken: bool)
      requires recursive && scheduler.currentTCB in scheduler.tcbs && scheduler.State().IsReady(scheduler.currentTCB)
      modifies this, scheduler
      ensures View() == Step(old(View()), Mutexes.TakeRecursive(id))
      ensures taken <==> mutexHolder == Some(scheduler.currentTCB)
    {
      taken := true;
      if mutexHolder == Some(scheduler.currentTCB) {
        recursiveCallCount := recursiveCallCount + 1;
      } else {
        taken := TryTake();
        if taken {
          recursiveCallCount := recursiveCallCount + 1;
        }
      }
    }

    /** xQueueGiveMutexRecursive. */
    method GiveRecursive() returns (given: bool)
      requires recursive && scheduler.State().IsReady(scheduler.currentTCB)
      requires mutexHolder == Some(scheduler.currentTCB) ==>
        0 < recursiveCallCount && scheduler.currentTCB in scheduler.tcbs
        && 0 < scheduler.tcbs[scheduler.currentTCB].mutexesHeld
      modifies this, scheduler
      ensures View() == Step(old(View()), Mutexes.GiveRecursive(id))
      ensures given <==> old(mutexHolder) == Some(old(scheduler.currentTCB))
    {
      hide Disinherit, RemoveFromEventList;
      given := mutexHolder == Some(scheduler.currentTCB);
      if given {
        recursiveCallCount := recursiveCallCount - 1;
        if recursiveCallCount == 0 {
          Give();
        }
      }
    }
  }

  lemma NobodyToRemove(k: Kernel, id: nat)
    requires k.h.Items(EventList(id)) == []
    ensures RemoveFromEventList(k, id) == k
  {}
}
