/**
 The task processor in the form the C code has it: queues are records on the heap that the hash
 table points to, and every operation updates them in place.  Each method is proved to do what the
 transition system says; the callbacks of client tasks and of service tasks are the methods they
 call back into.
 */
module TaskProcessor {
  import opened Options
  import opened TaskModel
  import opened QueueInvariant
  import opened ProcessorInvariant
  import opened ProcessorSteps
  import opened ProcessorRuns

  class TaskQueue {
    const key: QueueKey
    const autoStart: bool
    const autoRemove: bool
    const service: bool
    const hasFinally: bool
    var tasks: seq<Task>
    var currentTask: Option<Task>
    var idle: bool
    var deferRemove: bool
    var cancelled: bool
    ghost var log: Log
    const index: nat

    constructor (key: QueueKey, autoStart: bool, autoRemove: bool, service: bool, hasFinally: bool, index: nat)
      ensures this.index == index
      ensures View() == Queue(key, autoStart, autoRemove, service, hasFinally, [], None, false, false, false, NO_LOG)
    {
      this.key, this.autoStart, this.autoRemove := key, autoStart, autoRemove;
      this.service, this.hasFinally := service, hasFinally;
      tasks, currentTask := [], None;
      idle, deferRemove, cancelled := false, false, false;
      log := NO_LOG;
      this.index := index;
    }

    ghost function View(): Queue
      reads this
    {
      Queue(key, autoStart, autoRemove, service, hasFinally, tasks, currentTask, idle, deferRemove, cancelled, log)
    }

    /** g_ptr_array_foreach with the cancel-and-delete callback, then g_ptr_array_set_size(0).  The cancel
        callback of a pending service task finds no action to cancel, and that of a pending request only
        answers it. */
    method CancelPending()
      requires forall n :: 0 <= n < |tasks| ==> Fresh(tasks[n], service)
      modifies this`tasks, this`log
      ensures View() == old(View()).(
        tasks := [],
        log := old(log).(dropped := old(log).dropped + Ids(old(tasks)), deleted := old(log).deleted + Ids(old(tasks)),
                         replies := old(log).replies + RepliesTo(old(tasks), Cancelled)))
    {
      var n := 0;
      while n < |tasks|
        invariant 0 <= n <= |tasks| && tasks == old(tasks)
        invariant log == old(log).(dropped := old(log).dropped + Ids(tasks[..n]),
                                   deleted := old(log).deleted + Ids(tasks[..n]),
                                   replies := old(log).replies + RepliesTo(tasks[..n], Cancelled))
      {
        ghost var t := tasks[n];
        RepliesToSnoc(tasks[..n], t, Cancelled);
        assert tasks[..n + 1] == tasks[..n] + [t];
        log := log.(dropped := log.dropped + [t.id], deleted := log.deleted + [t.id],
                    replies := log.replies + ReplyTo(t, Cancelled));
        n := n + 1;
      }
      assert tasks[..n] == tasks;
      tasks := [];
    }

    /** g_ptr_array_foreach with the delete callback: a request that is still unanswered dies. */
    method FreePending()
      modifies this`tasks, this`log
      ensures View() == Freed(old(View()))
    {
      var n := 0;
      while n < |tasks|
        invariant 0 <= n <= |tasks| && tasks == old(tasks)
        invariant log == old(log).(dropped := old(log).dropped + Ids(tasks[..n]),
                                   deleted := old(log).deleted + Ids(tasks[..n]),
                                   replies := old(log).replies + RepliesTo(tasks[..n], Died))
      {
        ghost var t := tasks[n];
        RepliesToSnoc(tasks[..n], t, Died);
        assert tasks[..n + 1] == tasks[..n] + [t];
        log := log.(dropped := log.dropped + [t.id], deleted := log.deleted + [t.id],
                    replies := log.replies + ReplyTo(t, Died));
        n := n + 1;
      }
      assert tasks[..n] == tasks;
      tasks := [];
    }

    /** rsu_task_complete, rsu_task_fail and the first half of rsu_task_cancel: reply unless that was done. */
    method Reply(r: Reply)
      requires currentTask.Some? && currentTask.value.Client?
      modifies this`currentTask, this`log
      ensures View() == Replied(old(View()), r)
      ensures currentTask == Some(old(currentTask).value.(invocation := false))
    {
      if currentTask.value.invocation {
        log := log.(replies := log.replies + [(currentTask.value.id, r)]);
        currentTask := Some(currentTask.value.(invocation := false));
      }
    }

    /** The first pending task becomes the current one. */
    method TakeFirst()
      requires tasks != []
      modifies this`tasks, this`currentTask, this`log, this`cancelled, this`idle
      ensures View() == Begun(old(View()))
    {
      cancelled, idle := false, false;
      currentTask := Some(tasks[0]);
      tasks := tasks[1..];
      log := log.(started := log.started + [currentTask.value.id]);
    }

    method Push(id: nat, command: Command)
      modifies this`tasks, this`log
      ensures View() == Pushed(old(View()), id, command)
    {
      tasks := tasks + [NewTask(service, id, command)];
      log := log.(added := log.added + [id]);
    }

    /** The result of t_action is stored in p_action. */
    method SetAction(o: Outcome)
      requires currentTask.Some? && currentTask.value.Service?
      modifies this`currentTask, this`log
      ensures View() == Acted(old(View()), o)
    {
      currentTask := Some(currentTask.value.(action := o.action));
      log := log.(everFailed := log.everFailed || (o.failed && !o.action));
    }

    /** The delete callback on the current task. */
    method DeleteCurrent()
      modifies this`currentTask, this`log
      ensures View() == Ended(old(View()))
    {
      if currentTask.Some? {
        log := log.(ended := log.ended + [currentTask.value.id], deleted := log.deleted + [currentTask.value.id],
                    replies := log.replies + ReplyTo(currentTask.value, Died));
        currentTask := None;
      }
    }
  }

  lemma {:induction false} RepliesToSnoc(ts: seq<Task>, t: Task, r: Reply)
    ensures RepliesTo(ts + [t], r) == RepliesTo(ts, r) + ReplyTo(t, r)
    ensures Ids(ts + [t]) == Ids(ts) + [t.id]
  {
    if ts == [] {
      assert [t][1..] == [];
    } else {
      RepliesToSnoc(ts[1..], t, r);
      assert (ts + [t])[1..] == ts[1..] + [t];
    }
  }

  class Processor {
    var taskQueues: map<QueueKey, TaskQueue>
    var runningTasks: nat
    var quitting: bool
    // The pointers that tasks and callbacks carry: every queue ever allocated, and the queue of every task added.
    var heap: seq<TaskQueue>
    var owner: seq<nat>
    // What the queues look like, and which of them the hash table points to.
    ghost var all: seq<Queue>
    ghost var table: map<QueueKey, nat>
    // The sources pending in the main loop and the actions in flight.
    ghost var dispatches: multiset<nat>
    ghost var completions: multiset<nat>
    ghost var actions: multiset<nat>
    ghost var finallies: multiset<nat>
    ghost var quits: nat

    constructor ()
      ensures Valid() && View() == INITIAL && heap == []
    {
      taskQueues, runningTasks, quitting := map[], 0, false;
      heap, all, table, owner, quits := [], [], map[], [], 0;
      dispatches, completions, actions, finallies := multiset{}, multiset{}, multiset{}, multiset{};
    }

    ghost predicate OnHeap(queue: TaskQueue)
      reads this`heap
    {
      queue.index < |heap| && heap[queue.index] == queue
    }

    /** What the object `queue` looks like is what the view says. */
    ghost predicate Shown(n: nat)
      requires n < |heap|
      reads this`heap, this`all, heap[n]
    {
      n < |all| && heap[n].index == n && all[n] == heap[n].View()
    }

    ghost predicate Tabled()
      reads this`heap, this`all, this`table, this`taskQueues
    {
      && |all| == |heap|
      && table.Keys == taskQueues.Keys
      && (forall k :: k in taskQueues ==>
           OnHeap(taskQueues[k]) && table[k] == taskQueues[k].index && taskQueues[k].key == k)
    }

    ghost predicate Valid()
      reads this`heap, this`all, this`table, this`taskQueues, heap
    {
      Tabled() && (forall n: nat :: n < |heap| ==> heap[n].index == n && Shown(n))
    }

    ghost function View(): State
      reads this
    {
      State(all, table, runningTasks, quitting, dispatches, completions, actions, finallies, quits, owner)
    }

    /** Only the object `queue` has changed, and the view has followed it. */
    twostate lemma StillValid(queue: TaskQueue)
      requires old(Valid()) && Tabled() && heap == old(heap) && OnHeap(queue)
      requires all == old(all)[queue.index := queue.View()]
      requires forall n: nat :: n < |heap| && heap[n] != queue ==> unchanged(heap[n])
      ensures Valid()
    {
      forall n: nat | n < |heap|
        ensures Shown(n)
      {
        assert old(Shown(n));
      }
    }

    lemma Facts(queue: TaskQueue)
      requires Valid() && OnHeap(queue)
      ensures Tabled() && all[queue.index] == queue.View() && |all| == |heap|
    {
      assert Shown(queue.index);
    }

    lemma Found(key: QueueKey)
      requires Valid() && key in taskQueues
      ensures key in table && OnHeap(taskQueues[key]) && table[key] == taskQueues[key].index &&
        taskQueues[key].key == key
    {}

    method AddQueue(key: QueueKey, autoStart: bool, autoRemove: bool, service: bool, hasFinally: bool)
      requires Valid() && key !in taskQueues
      modifies this
      ensures Valid() && old(heap) <= heap && fresh(heap[|old(heap)|..])
      ensures View() == TaskModel.AddQueue(old(View()), key, autoStart, autoRemove, service, hasFinally)
    {
      hide Shown;
      var queue := new TaskQueue(key, autoStart, autoRemove, service, hasFinally, |heap|);
      taskQueues := taskQueues[key := queue];
      table := table[key := queue.index];
      heap, all := heap + [queue], all + [queue.View()];
      AddedValid(queue);
    }

    twostate lemma AddedValid(new queue: TaskQueue)
      requires old(Valid()) && Tabled()
      requires queue.index == |old(heap)| && heap == old(heap) + [queue] && all == old(all) + [queue.View()]
      requires forall n: nat :: n < |old(heap)| ==> unchanged(old(heap[n]))
      ensures Valid()
    {
      forall n: nat | n < |heap|
        ensures Shown(n)
      {
        assert n < |old(heap)| ==> old(Shown(n));
      }
    }

    /** The queue leaves the hash table. */
    method Unlink(queue: TaskQueue)
      requires Valid()
      modifies this`taskQueues, this`table
      ensures Valid()
      ensures View() == old(View()).(table := old(table) - {queue.key})
    {
      hide Shown;
      taskQueues := taskQueues - {queue.key};
      table := table - {queue.key};
    }

    /** The free callback of the hash table. */
    method Free(queue: TaskQueue)
      requires Valid() && OnHeap(queue)
      modifies this`all, this`finallies, queue`tasks, queue`log
      ensures Valid()
      ensures View() == old(View()).(
        all := old(all)[queue.index := Freed(old(all[queue.index]))],
        finallies := if queue.hasFinally then old(finallies) + multiset{queue.index} else old(finallies))
    {
      hide Freed, Valid, Shown;
      Facts(queue);
      queue.FreePending();
      all := all[queue.index := queue.View()];
      if queue.hasFinally { finallies := finallies + multiset{queue.index}; }
      StillValid(queue);
    }

    /** g_hash_table_remove, with the free callback it makes. */
    method RemoveQueue(queue: TaskQueue)
      requires Valid() && OnHeap(queue)
      modifies this`taskQueues, this`table, this`all, this`finallies, queue`tasks, queue`log
      ensures Valid()
      ensures View() == TaskModel.RemoveQueue(old(View()), queue.index)
    {
      hide Freed, Valid, Shown, Tabled;
      Facts(queue);
      Unlink(queue);
      Free(queue);
    }

    /** g_idle_add of the dispatch callback. */
    method Schedule(queue: TaskQueue)
      requires Valid() && OnHeap(queue)
      modifies this`all, this`dispatches, queue`idle
      ensures Valid()
      ensures View() == Scheduled(old(View()), queue.index)
    {
      hide Valid, Shown;
      Facts(queue);
      queue.idle := true;
      all := all[queue.index := queue.View()];
      dispatches := dispatches + multiset{queue.index};
      StillValid(queue);
    }

    method TaskCompleted(key: QueueKey)
      requires Valid() && key in taskQueues
      modifies this, taskQueues[key]
      ensures Valid() && heap == old(heap) && old(taskQueues[key]).deferRemove == old(taskQueues[key].deferRemove)
      ensures View() == TaskModel.TaskCompleted(old(View()), old(table[key]))
    {
      hide Ended, Freed, TaskModel.TaskCompleted, TaskModel.RemoveQueue, Scheduled, Valid, Shown, Tabled;
      Found(key);
      var queue := taskQueues[key];
      Facts(queue);
      TaskCompletedSteps(View(), queue.index);
      DropCurrent(queue);
      EndedFlags(old(queue.View()));
      if quitting && runningTasks == 0 {
        quits := quits + 1;
      } else if queue.deferRemove {
        RemoveQueue(queue);
      } else if |queue.tasks| > 0 {
        Schedule(queue);
      } else if queue.autoRemove {
        RemoveQueue(queue);
      }
    }

    /** The current task is deleted and no longer counted as running. */
    method DropCurrent(queue: TaskQueue)
      requires Valid() && OnHeap(queue)
      modifies this`all, this`runningTasks, queue`currentTask, queue`log
      ensures Valid()
      ensures queue.View() == Ended(old(queue.View()))
      ensures View() == old(View()).(all := old(all)[queue.index := Ended(old(all[queue.index]))],
                                     running := Decrement(old(runningTasks)))
    {
      hide Ended, Valid, Shown;
      Facts(queue);
      queue.DeleteCurrent();
      all := all[queue.index := queue.View()];
      runningTasks := Decrement(runningTasks);
      StillValid(queue);
    }

    ghost predicate InTable(queue: TaskQueue)
      reads this`taskQueues
    {
      queue.key in taskQueues && taskQueues[queue.key] == queue
    }

    // ---------- the current task ----------

    method SetCurrent(queue: TaskQueue, t: Task)
      requires Valid() && OnHeap(queue)
      modifies this`all, queue`currentTask
      ensures Valid()
      ensures queue.View() == old(queue.View()).(current := Some(t))
      ensures View() == Put(old(View()), queue.index, queue.View())
    {
      hide Valid, Shown;
      Facts(queue);
      queue.currentTask := Some(t);
      all := all[queue.index := queue.View()];
      StillValid(queue);
    }

    method Answer(queue: TaskQueue, r: Reply)
      requires Valid() && OnHeap(queue)
      requires queue.currentTask.Some? && queue.currentTask.value.Client?
      modifies this`all, queue`currentTask, queue`log
      ensures Valid()
      ensures queue.View() == Replied(old(queue.View()), r)
      ensures queue.currentTask == Some(old(queue.currentTask).value.(invocation := false))
      ensures View() == Put(old(View()), queue.index, queue.View())
    {
      hide Valid, Shown, Replied;
      Facts(queue);
      queue.Reply(r);
      all := all[queue.index := queue.View()];
      StillValid(queue);
    }

    /** For the log: the current task did what it was asked to do. */
    ghost method MarkRan(queue: TaskQueue)
      requires Valid() && OnHeap(queue) && queue.currentTask.Some?
      modifies this`all, queue`log
      ensures Valid()
      ensures queue.View() == Ran(old(queue.View()))
      ensures View() == Put(old(View()), queue.index, queue.View())
    {
      hide Valid, Shown;
      Facts(queue);
      queue.log := queue.log.(ran := queue.log.ran + [queue.currentTask.value.id]);
      all := all[queue.index := queue.View()];
      StillValid(queue);
    }

    // ---------- cancelling ----------

    /** rsu_service_task_cancel_cb: an action in flight is cancelled and the task completed there and then. */
    method CancelServiceTask(queue: TaskQueue)
      requires Valid() && OnHeap(queue) && InTable(queue)
      requires queue.currentTask.Some? && queue.currentTask.value.Service?
      modifies this, queue
      ensures Valid() && heap == old(heap) && queue.deferRemove == old(queue.deferRemove)
      ensures View() == TaskModel.CancelCurrent(old(View()), queue.index)
    {
      hide Valid, Shown, Tabled, TaskModel.TaskCompleted;
      Found(queue.key);
      Facts(queue);
      var t := queue.currentTask.value;
      if t.action {
        SetCurrent(queue, t.(action := false));
        actions := actions - multiset{t.id};
        TaskCompleted(queue.key);
      }
    }

    /** rsu_async_task_cancelled, which the cancellable calls the first time if it is connected: the action is
        cancelled and a completion idle added in its place. */
    method ActionCancelled(queue: TaskQueue)
      requires Valid() && OnHeap(queue)
      requires queue.currentTask.Some? && queue.currentTask.value.Client?
      modifies this`all, this`actions, this`completions, queue`currentTask
      ensures Valid()
      ensures View() == Abandoned(old(View()), queue.index)
      ensures queue.currentTask == Some(old(queue.currentTask).value.(cancellable := Fired, failed := true))
      ensures actions == old(actions) - multiset{queue.currentTask.value.id}
      ensures completions == old(completions) + multiset{queue.currentTask.value.id}
    {
      hide Valid, Shown, Tabled;
      Facts(queue);
      var t := queue.currentTask.value;
      actions := actions - multiset{t.id};
      SetCurrent(queue, t.(cancellable := Fired, failed := true));
      completions := completions + multiset{t.id};
    }

    /** rsu_task_cancel: reply, and cancel the action through the cancellable if the task has one. */
    method CancelClientTask(queue: TaskQueue)
      requires Valid() && OnHeap(queue)
      requires queue.currentTask.Some? && queue.currentTask.value.Client?
      modifies this, queue
      ensures Valid() && heap == old(heap) && queue.deferRemove == old(queue.deferRemove)
      ensures View() == TaskModel.CancelCurrent(old(View()), queue.index)
      ensures queue.currentTask.Some? && queue.currentTask.value.Client? && !queue.currentTask.value.invocation
      ensures queue.currentTask.value.id == old(queue.currentTask.value.id)
      ensures queue.currentTask.value.command == Deferred ==> queue.currentTask.value.cancellable != Armed
    {
      hide Valid, Shown, Tabled, Replied, TaskModel.CancelCurrent, Abandoned;
      Facts(queue);
      ClientCancelSteps(View(), queue.index);
      RepliedFlags(queue.View(), Cancelled);
      Answer(queue, Cancelled);
      var t := queue.currentTask.value;
      if t.command == Deferred && t.cancellable == Armed {
        if t.connected {
          ActionCancelled(queue);
        } else {
          SetCurrent(queue, t.(cancellable := Fired));
        }
      }
    }

    /** prv_task_queue_cancel. */
    method CancelQueue(queue: TaskQueue)
      requires Valid() && OnHeap(queue) && InTable(queue)
      requires forall n :: 0 <= n < |queue.tasks| ==> Fresh(queue.tasks[n], queue.service)
      modifies this, queue
      ensures Valid() && heap == old(heap) && queue.deferRemove == old(queue.deferRemove)
      ensures View() == TaskModel.CancelQueue(old(View()), queue.index)
    {
      hide Valid, Shown, Tabled, Dropped, TaskModel.CancelCurrent, TaskModel.RemoveQueue;
      Facts(queue);
      DroppedFlags(queue.View());
      EmptyQueue(queue);
      if queue.currentTask.Some? {
        if queue.currentTask.value.Service? {
          CancelServiceTask(queue);
        } else {
          CancelClientTask(queue);
        }
      } else if queue.autoRemove {
        RemoveQueue(queue);
      }
    }

    /** The first half of prv_task_queue_cancel. */
    method EmptyQueue(queue: TaskQueue)
      requires Valid() && OnHeap(queue)
      requires forall n :: 0 <= n < |queue.tasks| ==> Fresh(queue.tasks[n], queue.service)
      modifies this`all, this`dispatches, queue`tasks, queue`log, queue`cancelled, queue`idle
      ensures Valid()
      ensures queue.View() == Dropped(old(queue.View()))
      ensures View() == Put(old(View()), queue.index, queue.View()).(
        dispatches := if old(queue.idle) then old(dispatches) - multiset{queue.index} else old(dispatches))
    {
      hide Valid, Shown;
      Facts(queue);
      queue.cancelled := true;
      queue.CancelPending();
      queue.log := queue.log.(everCancelled := true, primed := false);
      if queue.idle {
        dispatches := dispatches - multiset{queue.index};
        queue.idle := false;
      }
      all := all[queue.index := queue.View()];
      StillValid(queue);
    }

    // ---------- adding and starting ----------

    /** The new task goes to the end of the pending list. */
    method Enqueue(queue: TaskQueue, command: Command)
      requires Valid() && OnHeap(queue)
      modifies this`all, this`owner, queue`tasks, queue`log
      ensures Valid()
      ensures queue.View() == Pushed(old(queue.View()), |old(owner)|, command)
      ensures View() == Put(old(View()), queue.index, queue.View()).(owner := old(owner) + [queue.index])
    {
      hide Valid, Shown, Pushed;
      Facts(queue);
      queue.Push(|owner|, command);
      owner := owner + [queue.index];
      all := all[queue.index := queue.View()];
      StillValid(queue);
    }

    /** rsu_task_queue_add_task. */
    method AddTask(queue: TaskQueue, command: Command)
      requires Valid() && OnHeap(queue)
      modifies this`all, this`owner, this`dispatches, queue`tasks, queue`log, queue`idle
      ensures Valid()
      ensures View() == TaskModel.AddTask(old(View()), queue.index, command)
    {
      hide Valid, Shown, Tabled, Pushed, TaskModel.AddTask;
      Facts(queue);
      AddTaskSteps(View(), queue.index, command);
      Enqueue(queue, command);
      if !queue.deferRemove {
        if queue.autoStart {
          if queue.currentTask.None? && !queue.idle {
            Schedule(queue);
          }
        }
      }
    }

    /** For the log: the queue has been started. */
    ghost method Prime(queue: TaskQueue)
      requires Valid() && OnHeap(queue)
      modifies this`all, queue`log
      ensures Valid()
      ensures queue.View() == old(queue.View()).(log := old(queue.log).(primed := true))
      ensures View() == Put(old(View()), queue.index, queue.View())
    {
      hide Valid, Shown;
      Facts(queue);
      queue.log := queue.log.(primed := true);
      all := all[queue.index := queue.View()];
      StillValid(queue);
    }

    /** rsu_task_queue_start. */
    method StartQueue(queue: TaskQueue)
      requires Valid() && OnHeap(queue)
      modifies this`all, this`dispatches, queue`log, queue`idle
      ensures Valid()
      ensures View() == TaskModel.StartQueue(old(View()), queue.index)
    {
      hide Valid, Shown, Tabled, TaskModel.StartQueue;
      Facts(queue);
      StartQueueSteps(View(), queue.index);
      if !queue.deferRemove {
        Prime(queue);
        if queue.currentTask.None? && !queue.idle {
          Schedule(queue);
        }
      }
    }

    // ---------- processing ----------

    /** The first pending task becomes the current one. */
    method Take(queue: TaskQueue)
      requires Valid() && OnHeap(queue) && queue.tasks != []
      modifies this`all, queue`tasks, queue`currentTask, queue`log, queue`cancelled, queue`idle
      ensures Valid()
      ensures queue.View() == Begun(old(queue.View()))
      ensures View() == Put(old(View()), queue.index, queue.View())
    {
      hide Valid, Shown, Begun;
      Facts(queue);
      queue.TakeFirst();
      all := all[queue.index := queue.View()];
      StillValid(queue);
    }

    /** The first task becomes the current one and is counted as running. */
    method Begin(queue: TaskQueue)
      requires Valid() && OnHeap(queue) && queue.tasks != []
      modifies this, queue
      ensures Valid() && heap == old(heap) && taskQueues == old(taskQueues)
      ensures queue.currentTask == Some(old(queue.tasks)[0]) && queue.tasks == old(queue.tasks)[1..]
      ensures View() == Starting(old(View()), queue.index)
    {
      hide Valid, Shown, Tabled;
      Facts(queue);
      dispatches := dispatches - multiset{queue.index};
      Take(queue);
      runningTasks := runningTasks + 1;
    }

    /** prv_task_queue_process_task. */
    method ProcessTask(queue: TaskQueue, o: Outcome)
      requires Valid() && OnHeap(queue) && InTable(queue) && queue.tasks != []
      requires forall n :: 0 <= n < |queue.tasks| ==> Fresh(queue.tasks[n], queue.service)
      modifies this, queue
      ensures Valid() && heap == old(heap)
      ensures View() == TaskModel.Dispatch(old(View()), queue.index, o)
    {
      hide Valid, Shown, Tabled, TaskModel.Process, Fresh, Begun;
      Begin(queue);
      if queue.currentTask.value.Service? {
        ProcessServiceTask(queue, o);
      } else if queue.currentTask.value.command == Deferred {
        ProcessAsyncTask(queue, o);
      } else {
        ProcessSyncTask(queue, o);
      }
    }

    /** The call of t_action. */
    method CallAction(queue: TaskQueue, o: Outcome)
      requires Valid() && OnHeap(queue) && queue.currentTask.Some? && queue.currentTask.value.Service?
      modifies this`all, this`actions, queue`currentTask, queue`log
      ensures Valid()
      ensures queue.currentTask.Some?
      ensures View() == ServiceBegun(old(View()), queue.index, o)
    {
      hide Valid, Shown, Acted, ServiceBegun;
      Facts(queue);
      ServiceBegunIs(View(), queue.index, o);
      if o.action { actions := actions + multiset{queue.currentTask.value.id}; }
      queue.SetAction(o);
      all := all[queue.index := queue.View()];
      StillValid(queue);
    }

    /** rsu_service_task_process_cb. */
    method ProcessServiceTask(queue: TaskQueue, o: Outcome)
      requires Valid() && OnHeap(queue) && InTable(queue)
      requires queue.currentTask.Some? && queue.currentTask.value.Service?
      requires forall n :: 0 <= n < |queue.tasks| ==> Fresh(queue.tasks[n], queue.service)
      modifies this, queue
      ensures Valid() && heap == old(heap)
      ensures View() == TaskModel.Process(old(View()), queue.index, o)
    {
      hide Valid, Shown, Tabled, ServiceBegun, TaskModel.CancelQueue, TaskModel.TaskCompleted, Ran, Fresh;
      Facts(queue);
      CallAction(queue, o);
      Facts(queue);
      if o.failed {
        CancelQueue(queue);
      } else if !o.action {
        MarkRan(queue);
        Found(queue.key);
        TaskCompleted(queue.key);
      }
    }

    /** prv_process_sync_task. */
    method ProcessSyncTask(queue: TaskQueue, o: Outcome)
      requires Valid() && OnHeap(queue) && InTable(queue)
      requires queue.currentTask.Some? && queue.currentTask.value.Client? && queue.currentTask.value.command != Deferred
      modifies this, queue
      ensures Valid() && heap == old(heap)
      ensures View() == TaskModel.Process(old(View()), queue.index, o)
    {
      hide Valid, Shown, Tabled, Replied, TaskModel.TaskCompleted, Ran;
      Facts(queue);
      Answer(queue, if queue.currentTask.value.command == Answered then Value else Error);
      Overwrite(old(all), queue.index, queue.View(), Ran(queue.View()));
      MarkRan(queue);
      Found(queue.key);
      TaskCompleted(queue.key);
    }

    /** prv_process_async_task and the device function it calls: the cancellable is created, and the handler
        connected if an action is in flight; otherwise the completion idle is added at once. */
    method ProcessAsyncTask(queue: TaskQueue, o: Outcome)
      requires Valid() && OnHeap(queue)
      requires queue.currentTask.Some? && queue.currentTask.value.Client? && queue.currentTask.value.command == Deferred
      modifies this, queue
      ensures Valid() && heap == old(heap)
      ensures View() == TaskModel.Process(old(View()), queue.index, o)
    {
      hide Valid, Shown, Tabled;
      Facts(queue);
      var t := queue.currentTask.value;
      SetCurrent(queue, t.(cancellable := Armed, connected := o.action, failed := !o.action && o.failed));
      if o.action {
        actions := actions + multiset{t.id};
      } else {
        completions := completions + multiset{t.id};
      }
    }

    // ---------- callbacks ----------

    /** rsu_service_task_begin_action_cb. */
    method ServiceActionEnds(queue: TaskQueue, ok: bool)
      requires Valid() && OnHeap(queue) && InTable(queue)
      requires queue.currentTask.Some? && queue.currentTask.value.Service?
      requires queue.currentTask.value.id < |owner| && owner[queue.currentTask.value.id] == queue.index
      modifies this, queue
      ensures Valid() && heap == old(heap)
      ensures View() == TaskModel.ActionReply(old(View()), old(queue.currentTask).value.id, ok)
    {
      hide Valid, Shown, Tabled, TaskModel.TaskCompleted, Ran;
      Facts(queue);
      var t := queue.currentTask.value;
      SetCurrent(queue, t.(action := false));
      actions := actions - multiset{t.id};
      Overwrite(old(all), queue.index, queue.View(), Ran(queue.View()));
      MarkRan(queue);
      Found(queue.key);
      TaskCompleted(queue.key);
    }

    /** The end of a client's action: note the error, disconnect the cancel handler, complete from an idle. */
    method ClientActionEnds(queue: TaskQueue, ok: bool)
      requires Valid() && OnHeap(queue)
      requires queue.currentTask.Some? && queue.currentTask.value.Client?
      requires queue.currentTask.value.id < |owner| && owner[queue.currentTask.value.id] == queue.index
      modifies this, queue
      ensures Valid() && heap == old(heap)
      ensures View() == TaskModel.ActionReply(old(View()), old(queue.currentTask).value.id, ok)
    {
      hide Valid, Shown, Tabled;
      Facts(queue);
      var t := queue.currentTask.value;
      actions := actions - multiset{t.id};
      SetCurrent(queue, t.(failed := t.failed || !ok, connected := false));
      completions := completions + multiset{t.id};
    }

    /** rsu_async_task_complete, with prv_async_task_complete. */
    method CompletionIdle(queue: TaskQueue)
      requires Valid() && OnHeap(queue) && InTable(queue)
      requires queue.currentTask.Some? && queue.currentTask.value.Client?
      requires queue.currentTask.value.id < |owner| && owner[queue.currentTask.value.id] == queue.index
      modifies this, queue
      ensures Valid() && heap == old(heap)
      ensures View() == TaskModel.CompletionIdle(old(View()), old(queue.currentTask).value.id)
    {
      hide Valid, Shown, Tabled, Replied, TaskModel.TaskCompleted, Ran;
      Facts(queue);
      completions := completions - multiset{queue.currentTask.value.id};
      Answer(queue, if queue.currentTask.value.failed then Error else Value);
      Overwrite(old(all), queue.index, queue.View(), Ran(queue.View()));
      MarkRan(queue);
      Found(queue.key);
      TaskCompleted(queue.key);
    }

    /** prv_task_queue_finally_cb. */
    method FinallyIdle(queue: TaskQueue)
      requires Valid() && OnHeap(queue)
      modifies this`all, this`finallies, queue`log
      ensures Valid()
      ensures View() == TaskModel.FinallyIdle(old(View()), queue.index)
    {
      hide Valid, Shown;
      Facts(queue);
      finallies := finallies - multiset{queue.index};
      queue.log := queue.log.(finals := queue.log.finals + [queue.cancelled]);
      all := all[queue.index := queue.View()];
      StillValid(queue);
    }

    // ---------- removing and quitting ----------

    /** defer_remove is set when the queue is at work. */
    method Defer(queue: TaskQueue)
      requires Valid() && OnHeap(queue) && !queue.deferRemove
      modifies this`all, queue`deferRemove, queue`log
      ensures Valid()
      ensures queue.View() == Deferring(old(queue.View()))
      ensures View() == Put(old(View()), queue.index, queue.View())
    {
      hide Valid, Shown;
      Facts(queue);
      queue.deferRemove := queue.currentTask.Some?;
      queue.log := queue.log.(everCancelled := queue.log.everCancelled || queue.deferRemove);
      all := all[queue.index := queue.View()];
      StillValid(queue);
    }

    /** prv_free_queue_for_source and prv_free_queue_for_sink. */
    method RemoveOne(sel: Selector, queue: TaskQueue)
      requires Valid() && OnHeap(queue) && InTable(queue)
      requires forall n :: 0 <= n < |queue.tasks| ==> Fresh(queue.tasks[n], queue.service)
      modifies this, queue
      ensures Valid() && heap == old(heap)
      ensures View() == TaskModel.RemoveOne(old(View()), sel, queue.index)
    {
      hide Valid, Shown, Tabled, Deferring, TaskModel.CancelQueue, TaskModel.RemoveQueue, Fresh, Selects;
      Facts(queue);
      DeferringFlags(queue.View());
      if Selects(sel, queue.key) && !queue.deferRemove {
        Defer(queue);
        CancelQueue(queue);
        if !queue.deferRemove {
          RemoveQueue(queue);
        }
      }
    }

    // ---------- from the invariant to the preconditions ----------

    lemma Ready(i: nat)
      requires Valid() && Inv(View()) && Live(View(), i)
      ensures i < |heap| && heap[i].index == i && OnHeap(heap[i]) && InTable(heap[i])
      ensures i < |all| && all[i] == heap[i].View()
      ensures forall n :: 0 <= n < |heap[i].tasks| ==> Fresh(heap[i].tasks[n], heap[i].service)
    {
      hide Settled, Owned, InOrder, Conserved, Answers;
      Reach(i);
      QueueFacts(View(), i);
      Found(heap[i].key);
    }

    lemma Reach(i: nat)
      requires Valid() && i < |all|
      ensures i < |heap| && heap[i].index == i && OnHeap(heap[i]) && all[i] == heap[i].View()
    {
      assert heap[i].index == i && Shown(i);
    }

    /** rsu_task_processor_set_quitting; `order` is the order in which the hash table is walked. */
    method SetQuitting(order: seq<nat>)
      requires Valid() && Inv(View()) && Walk(View(), order)
      modifies this, heap
      ensures Valid() && heap == old(heap)
      ensures View() == TaskModel.SetQuitting(old(View()), order)
    {
      hide Valid, Shown, Tabled, Inv, Touches, Live, TaskModel.CancelQueue;
      quitting := true;
      if runningTasks > 0 {
        QuittingCore(old(View()), quits);
        WalkSame(old(View()), View(), order);
        CancelAllQueues(order);
      } else {
        quits := quits + 1;
      }
    }

    /** prv_cancel_all_queues. */
    method CancelAllQueues(order: seq<nat>)
      requires Valid() && Inv(View()) && Walk(View(), order)
      modifies this, heap
      ensures Valid() && heap == old(heap)
      ensures View() == CancelAll(old(View()), order)
    {
      hide Valid, Shown, Tabled, Core, Settled, Touches, TaskModel.CancelQueue, Fresh;
      var n := 0;
      while n < |order|
        invariant 0 <= n <= |order| && heap == old(heap)
        invariant Valid() && Inv(View()) && Walk(View(), order[n..])
        invariant CancelAll(View(), order[n..]) == CancelAll(old(View()), order)
      {
        var i := order[n];
        assert order[n..][0] == i && order[n..][1..] == order[n + 1..];
        Ready(i);
        ghost var s := View();
        CancelQueueCore(s, i);
        CancelQueue(heap[i]);
        WalkGoesOn(s, View(), order[n..]);
        n := n + 1;
      }
    }

    /** rsu_task_processor_remove_queues_for_source and _for_sink; `order` is the order of the walk. */
    method RemoveQueuesFor(sel: Selector, order: seq<nat>)
      requires Valid() && Inv(View()) && Walk(View(), order)
      requires forall n :: 0 <= n < |order| && Selects(sel, all[order[n]].key) ==> Removable(all[order[n]])
      modifies this, heap
      ensures Valid() && heap == old(heap)
      ensures View() == RemoveFor(old(View()), sel, order)
    {
      hide Valid, Shown, Tabled, Core, Settled, Touches, TaskModel.RemoveOne, Fresh, Removable, Selects;
      var n := 0;
      while n < |order|
        invariant 0 <= n <= |order| && heap == old(heap)
        invariant Valid() && Inv(View()) && Walk(View(), order[n..])
        invariant forall m :: 0 <= m < |order[n..]| && Selects(sel, all[order[n..][m]].key) ==>
          Removable(all[order[n..][m]])
        invariant RemoveFor(View(), sel, order[n..]) == RemoveFor(old(View()), sel, order)
      {
        var i := order[n];
        assert order[n..][0] == i && order[n..][1..] == order[n + 1..];
        Ready(i);
        ghost var s := View();
        RemoveOneCore(s, sel, i);
        RemoveOne(sel, heap[i]);
        WalkGoesOn(s, View(), order[n..]);
        n := n + 1;
      }
    }

    // ---------- every event ----------

    /** What comes from outside finds the processor ready: every event that can come is handled by one of the
        methods above, whose preconditions hold, and leaves the processor in the state the model says. */
    method Handle(e: Event)
      requires Valid() && Inv(View()) && May(View(), e)
      modifies this, heap
      ensures Valid() && old(heap) <= heap
      ensures Safe(old(View()), e) && View() == Step(old(View()), e) && Inv(View())
    {
      hide Valid, Shown, Tabled, Inv, Touches, Live, May, Safe, Step;
      MayIsSafe(View(), e);
      StepKeepsInv(View(), e);
      match e
      case QueueAdded(_, _, _, _, _) => HandleCall(e);
      case TaskAdded(_, _) => HandleCall(e);
      case QueueStarted(_) => HandleCall(e);
      case QueueCancelled(_) => HandleSweep(e);
      case QueuesRemoved(_, _) => HandleSweep(e);
      case QuitRequested(_) => HandleSweep(e);
      case DispatchRuns(_, _) => HandleCallback(e);
      case ActionEnds(_, _) => HandleCallback(e);
      case CompletionRuns(_) => HandleCallback(e);
      case FinallyRuns(_) => HandleCallback(e);
    }

    method HandleCall(e: Event)
      requires e.QueueAdded? || e.TaskAdded? || e.QueueStarted?
      requires Valid() && Inv(View()) && May(View(), e) && Safe(View(), e)
      modifies this, heap
      ensures Valid() && old(heap) <= heap
      ensures View() == Step(old(View()), e)
    {
      hide Valid, Shown, Tabled, Inv, Live, TaskModel.AddQueue, TaskModel.AddTask, TaskModel.StartQueue, Fresh;
      match e
      case QueueAdded(key, autoStart, autoRemove, service, hasFinally) =>
        NotInTable(key);
        AddQueue(key, autoStart, autoRemove, service, hasFinally);
      case TaskAdded(i, command) => Ready(i); AddTask(heap[i], command);
      case QueueStarted(i) => Ready(i); StartQueue(heap[i]);
    }

    lemma NotInTable(key: QueueKey)
      requires Valid() && key !in table
      ensures key !in taskQueues
    {}

    method HandleSweep(e: Event)
      requires e.QueueCancelled? || e.QueuesRemoved? || e.QuitRequested?
      requires Valid() && Inv(View()) && May(View(), e) && Safe(View(), e)
      modifies this, heap
      ensures Valid() && old(heap) <= heap
      ensures View() == Step(old(View()), e)
    {
      hide Valid, Shown, Tabled, Inv, TaskModel.CancelQueue, TaskModel.SetQuitting, RemoveFor, Fresh, Removable,
        Selects;
      match e
      case QueueCancelled(i) => Ready(i); CancelQueue(heap[i]);
      case QueuesRemoved(sel, order) => RemoveQueuesFor(sel, order);
      case QuitRequested(order) => SetQuitting(order);
    }

    method HandleCallback(e: Event)
      requires e.DispatchRuns? || e.ActionEnds? || e.CompletionRuns? || e.FinallyRuns?
      requires Valid() && Inv(View()) && Safe(View(), e)
      modifies this, heap
      ensures Valid() && old(heap) <= heap
      ensures View() == Step(old(View()), e)
    {
      hide Valid, Shown, Tabled, Inv, Live, Fresh, Dispatch, ActionReply, TaskModel.CompletionIdle,
        TaskModel.FinallyIdle;
      match e
      case DispatchRuns(i, outcome) =>
        Ready(i);
        ProcessTask(heap[i], outcome);
      case ActionEnds(id, ok) =>
        Ready(owner[id]);
        if heap[owner[id]].currentTask.value.Service? {
          ServiceActionEnds(heap[owner[id]], ok);
        } else {
          ClientActionEnds(heap[owner[id]], ok);
        }
      case CompletionRuns(id) =>
        Ready(owner[id]);
        CompletionIdle(heap[owner[id]]);
      case FinallyRuns(i) =>
        Reach(i);
        FinallyIdle(heap[i]);
    }
  }

  lemma WalkSame(s: State, s': State, order: seq<nat>)
    requires Walk(s, order) && s'.all == s.all && s'.table == s.table
    ensures Walk(s', order)
  {}

  lemma Overwrite<T>(a: seq<T>, i: nat, x: T, y: T)
    requires i < |a|
    ensures a[i := x][i := y] == a[i := y]
  {}

  lemma DeferringFlags(q: Queue)
    ensures Deferring(q).service == q.service && Deferring(q).tasks == q.tasks
    ensures !q.deferRemove ==> Deferring(q).deferRemove == q.current.Some?
  {}

  /** The current request's action is cancelled and a completion idle added in its place. */
  ghost function Abandoned(s: State, i: nat): State
    requires i < |s.all| && s.all[i].current.Some? && s.all[i].current.value.Client?
  {
    var t := s.all[i].current.value;
    s.(all := s.all[i := s.all[i].(current := Some(t.(cancellable := Fired, failed := true)))],
       actions := s.actions - multiset{t.id}, completions := s.completions + multiset{t.id})
  }

  lemma ClientCancelSteps(s: State, i: nat)
    requires i < |s.all| && s.all[i].current.Some? && s.all[i].current.value.Client?
    ensures
      var q1 := Replied(s.all[i], Cancelled);
      var s1 := Put(s, i, q1);
      var t1 := s.all[i].current.value.(invocation := false);
      q1.current == Some(t1) &&
      TaskModel.CancelCurrent(s, i) ==
      if t1.command != Deferred || t1.cancellable != Armed then s1
      else if t1.connected then Abandoned(s1, i)
      else Put(s1, i, q1.(current := Some(t1.(cancellable := Fired))))
  {
    hide Replied;
    RepliedFlags(s.all[i], Cancelled);
    var q1, t := Replied(s.all[i], Cancelled), s.all[i].current.value;
    assert q1.(current := Some(t.(invocation := false))) == q1;
    if t.command == Deferred && t.cancellable == Armed {
      assert t.connected ==> Cancelling(t) == t.(invocation := false, cancellable := Fired, failed := true);
    } else {
      assert Cancelling(t) == t.(invocation := false);
    }
  }

  lemma RepliedFlags(q: Queue, r: Reply)
    requires q.current.Some? && q.current.value.Client?
    ensures Replied(q, r).current == Some(q.current.value.(invocation := false))
  {}

  lemma DroppedFlags(q: Queue)
    ensures Dropped(q).key == q.key && Dropped(q).current == q.current && Dropped(q).autoRemove == q.autoRemove
  {}

  ghost function Pushed(q: Queue, id: nat, command: Command): Queue {
    q.(tasks := q.tasks + [NewTask(q.service, id, command)], log := q.log.(added := q.log.added + [id]))
  }

  /** The action of the current service task has been called. */
  ghost function Acted(q: Queue, o: Outcome): Queue
    requires q.current.Some? && q.current.value.Service?
  {
    q.(current := Some(q.current.value.(action := o.action)),
       log := q.log.(everFailed := q.log.everFailed || (o.failed && !o.action)))
  }

  lemma ServiceBegunIs(s: State, i: nat, o: Outcome)
    requires i < |s.all| && s.all[i].current.Some? && s.all[i].current.value.Service?
    ensures Acted(s.all[i], o).current.Some?
    ensures ServiceBegun(s, i, o) ==
      s.(all := s.all[i := Acted(s.all[i], o)],
         actions := if o.action then s.actions + multiset{s.all[i].current.value.id} else s.actions)
  {}

  lemma AddTaskSteps(s: State, i: nat, command: Command)
    requires i < |s.all|
    ensures
      var q1 := Pushed(s.all[i], |s.owner|, command);
      var s1 := Put(s, i, q1).(owner := s.owner + [i]);
      TaskModel.AddTask(s, i, command) == if q1.autoStart && Wakes(q1) then Scheduled(s1, i) else s1
  {
    var q1 := Pushed(s.all[i], |s.owner|, command);
    Overwrite(s.all, i, q1, q1.(idle := true));
  }

  lemma StartQueueSteps(s: State, i: nat)
    requires i < |s.all|
    ensures
      var q := s.all[i];
      var s1 := Put(s, i, q.(log := q.log.(primed := true)));
      TaskModel.StartQueue(s, i) == if q.deferRemove then s else if Wakes(q) then Scheduled(s1, i) else s1
  {
    var q := s.all[i];
    var q1 := q.(log := q.log.(primed := true));
    StartedQueue(q);
    assert s.all[i := s.all[i]] == s.all;
    Overwrite(s.all, i, q1, q1.(idle := true));
  }

  lemma StartedQueue(q: Queue)
    ensures
      var q1 := q.(log := q.log.(primed := true));
      q.(idle := q.idle || Wakes(q), log := q.log.(primed := q.log.primed || !q.deferRemove)) ==
      if q.deferRemove then q else if Wakes(q) then q1.(idle := true) else q1
  {
    if q.deferRemove {
      assert q.log.(primed := q.log.primed) == q.log;
      assert q.(idle := q.idle, log := q.log) == q;
    }
  }

  ghost function Scheduled(s: State, i: nat): State
    requires i < |s.all|
  {
    s.(all := s.all[i := s.all[i].(idle := true)], dispatches := s.dispatches + multiset{i})
  }

  lemma TaskCompletedSteps(s: State, i: nat)
    requires i < |s.all|
    ensures
      var s1 := s.(all := s.all[i := Ended(s.all[i])], running := Decrement(s.running));
      TaskModel.TaskCompleted(s, i) ==
      match NextFor(s.all[i], s.quitting && s1.running == 0)
      case Quit => s1.(quits := s1.quits + 1)
      case Remove => TaskModel.RemoveQueue(s1, i)
      case Again => Scheduled(s1, i)
      case Rest => s1
  {
    hide Freed;
    EndedFlags(s.all[i]);
  }

  lemma EndedFlags(q: Queue)
    ensures Ended(q).key == q.key && Ended(q).hasFinally == q.hasFinally && Ended(q).tasks == q.tasks
    ensures Ended(q).deferRemove == q.deferRemove && Ended(q).autoRemove == q.autoRemove
  {}
}
