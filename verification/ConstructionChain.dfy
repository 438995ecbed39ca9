/**
 Chains of service tasks.

 A new device is built by a queue of service tasks that removes itself when it is done.  As long
 as none of its tasks fails, such a queue ends in exactly one of two ways, and its finally callback
 is told which.  When a task does fail without an action in flight, the queue never ends.
 */
module ConstructionChain {
  import opened Options
  import opened TaskModel
  import opened QueueInvariant
  import opened ProcessorInvariant
  import opened ProcessorSteps
  import opened ProcessorRuns
  import opened ProcessorTheorems
  import opened ProcessorEffects

  /** A self-removing queue of service tasks, none of which failed. */
  predicate Building(q: Queue) {
    q.service && q.autoRemove && !q.log.everFailed
  }

  /** While it is live nothing was cancelled, everything that ended has run, and once it has tasks it is
      not without work; when it is gone it was cancelled exactly if some task did not run. */
  ghost predicate ChainQueue(q: Queue, live: bool) {
    && (live ==> !q.log.everCancelled && q.log.ran == q.log.ended)
    && (live && q.log.added != [] ==> q.tasks != [] || q.current.Some?)
    && (!live && q.log.added != [] ==> (q.cancelled <==> q.log.ran != q.log.added))
  }

  ghost predicate ChainAt(s: State, i: nat)
    requires i < |s.all|
  {
    Building(s.all[i]) && !s.quitting ==> ChainQueue(s.all[i], Live(s, i))
  }

  ghost predicate Chains(s: State) {
    forall i: nat :: i < |s.all| ==> ChainAt(s, i)
  }

  // ---------- one queue ----------

  /** A chain that has not been cancelled has started what it has taken off its list. */
  lemma ChainCounts(q: Queue)
    requires QueueInv(q) && !q.log.everCancelled
    ensures q.log.started == q.log.added[..Head(q)]
    ensures |q.log.added| == |q.tasks| + |q.log.ended| + |CurrentIds(q)|
    ensures !q.cancelled && !q.deferRemove
  {
    hide Shuffle, Conserved, Answers;
    ShuffleNothing(q.log.started, q.log.added[..Head(q)]);
  }

  /** A task of a chain has run and is completed. */
  lemma RanEnds(q1: Queue, q': Queue)
    requires QueueInv(q1) && q1.current.Some? && Building(q1)
    requires !q1.log.everCancelled && q1.log.ran == q1.log.ended
    requires q' == AfterEnd(Ran(q1), NextFor(Ran(q1), false))
    ensures ChainQueue(q', NextFor(Ran(q1), false) != Remove)
  {
    hide InOrder, Conserved, Answers, Phases, Shuffle;
    ChainCounts(q1);
    var id := q1.current.value.id;
    var q2 := Ran(q1);
    assert q2.log.ran == q2.log.ended + [id];
    if q1.tasks == [] {
      StartedIsAdded(q1);
      assert Freed(Ended(q2)).log.ran == q1.log.added;
      assert Ended(q2).tasks == [];
    }
  }

  lemma StartedIsAdded(q: Queue)
    requires InOrder(q) && q.tasks == [] && q.current.Some?
    requires q.log.started == q.log.added[..Head(q)]
    ensures q.log.added == q.log.ended + [q.current.value.id]
  {
    hide Shuffle;
    assert q.log.added[..Head(q)] == q.log.added;
  }

  /** A chain at work or waiting is cancelled: it is gone, and not all of it ran. */
  lemma CutShort(q: Queue, q': Queue)
    requires QueueInv(q) && ChainQueue(q, true) && Building(q) && q.log.added != []
    requires q'.log.added == q.log.added && q'.log.ran == q.log.ran && q'.cancelled
    ensures ChainQueue(q', false)
  {
    hide InOrder, Conserved, Answers, Phases, Shuffle;
    ChainCounts(q);
    assert |q'.log.ran| < |q'.log.added|;
  }

  // ---------- one event ----------

  lemma OthersStayChains(s: State, s': State, i: nat)
    requires Chains(s) && Touches(s, s', i)
    requires Building(s'.all[i]) && !s'.quitting ==> ChainQueue(s'.all[i], Live(s', i))
    ensures Chains(s')
  {
    hide ChainQueue, Building;
    forall j: nat | j < |s'.all| ensures ChainAt(s', j) {
      assert ChainAt(s, j);
    }
  }

  /** Completing the task that has just run. */
  lemma CompletedChain(s1: State, i: nat, q1: Queue)
    requires Live(s1, i) && s1.all[i] == Ran(q1) && !s1.quitting
    requires QueueInv(q1) && q1.current.Some? && !q1.log.everCancelled && q1.log.ran == q1.log.ended
    requires Building(q1)
    ensures i < |TaskCompleted(s1, i).all|
    ensures ChainQueue(TaskCompleted(s1, i).all[i], Live(TaskCompleted(s1, i), i))
  {
    hide QueueInv, ChainQueue, Building, AfterEnd, Ran, NextFor;
    var next := NextFor(Ran(q1), false);
    RanEnds(q1, AfterEnd(Ran(q1), next));
    AfterEndKey(Ran(q1), next);
  }

  lemma EndedKey(q: Queue)
    ensures Ended(q).key == q.key && Freed(q).key == q.key
  {}

  lemma AfterEndKey(q: Queue, next: Next)
    ensures AfterEnd(q, next).key == q.key
  {
    hide Ended, Freed;
    EndedKey(q);
    EndedKey(Ended(q));
  }

  /** What cancelling does to a live self-removing queue of services that has not failed. */
  lemma CancelShape(s: State, i: nat)
    requires Core(s) && Live(s, i) && s.all[i].service && s.all[i].autoRemove && !s.quitting
    requires s.all[i].current.Some? ==> s.all[i].current.value.Service? && s.all[i].current.value.action
    ensures
      var s' := CancelQueue(s, i);
      && !Live(s', i) && |s'.all| == |s.all| && s'.all[i].cancelled
      && s'.all[i].log.added == s.all[i].log.added && s'.all[i].log.ran == s.all[i].log.ran
  {
    hide Core, Shuffle, Linked;
    QueueFacts(s, i);
    CancelQueueSteps(s, i);
    var q := s.all[i];
    if q.current.Some? {
      var q1 := Dropped(q).(current := Some(q.current.value.(action := false)));
      assert NextFor(q1, false) == Remove;
      CancelledEnd(q, q1);
    }
  }

  lemma CancelledEnd(q: Queue, q1: Queue)
    requires q.current.Some? && q1 == Dropped(q).(current := q1.current) && q1.current.Some?
    ensures AfterEnd(q1, Remove).cancelled && AfterEnd(q1, Remove).log.added == q.log.added
    ensures AfterEnd(q1, Remove).log.ran == q.log.ran && AfterEnd(q1, Remove).key == q.key
  {}

  lemma CancelChain(s: State, i: nat)
    requires Core(s) && Live(s, i) && SettledQueue(s, s.all[i])
    requires !s.quitting && Building(s.all[i]) && ChainQueue(s.all[i], true)
    ensures i < |CancelQueue(s, i).all| && ChainQueue(CancelQueue(s, i).all[i], Live(CancelQueue(s, i), i))
  {
    hide Core, CancelQueue, QueueInv;
    QueueFacts(s, i);
    LiveInRange(s, i);
    KindOfCurrent(s.all[i]);
    CancelShape(s, i);
    if s.all[i].log.added != [] {
      CutShort(s.all[i], CancelQueue(s, i).all[i]);
    }
  }

  lemma KindOfCurrent(q: Queue)
    requires QueueInv(q)
    ensures q.current.Some? ==> q.current.value.Service? == q.service
  {}

  /** A live chain that runs its next task. */
  lemma BegunChain(s: State, i: nat)
    requires Inv(s) && Dispatchable(s, i) && !s.quitting && Building(s.all[i]) && ChainQueue(s.all[i], true)
    ensures var q := Starting(s, i).all[i];
            QueueInv(q) && Building(q) && ChainQueue(q, true) && q.current.Some? && q.current.value.Service?
            && q.log.added != []
  {
    hide Core, Settled, Shuffle;
    InvOfQueue(s, i);
    BegunKeeps(s.all[i]);
    ChainCounts(s.all[i]);
    KindOfCurrent(Begun(s.all[i]));
  }

  lemma InvOfQueue(s: State, i: nat)
    requires Core(s) && i < |s.all|
    ensures QueueInv(s.all[i])
  {
    hide QueueInv;
    assert Linked(s, i);
  }

  lemma ServiceBegunChain(s: State, i: nat, o: Outcome)
    requires i < |s.all| && s.all[i].current.Some? && s.all[i].current.value.Service?
    requires ChainQueue(s.all[i], true)
    ensures ChainQueue(ServiceBegun(s, i, o).all[i], true)
    ensures o.action || !o.failed ==> ServiceBegun(s, i, o).all[i].log.everFailed == s.all[i].log.everFailed
    ensures o.failed && !o.action ==> ServiceBegun(s, i, o).all[i].log.everFailed
    ensures Live(s, i) ==> Live(ServiceBegun(s, i, o), i)
  {}

  lemma ProcessChain(s: State, i: nat, o: Outcome)
    requires Core(s) && Live(s, i) && s.all[i].current.Some? && s.all[i].current.value.Service?
    requires Detached(s, i) && SettledExcept(s, i) && !s.quitting
    requires Building(s.all[i]) && ChainQueue(s.all[i], true)
    ensures |Process(s, i, o).all| == |s.all|
    ensures Building(Process(s, i, o).all[i]) ==> ChainQueue(Process(s, i, o).all[i], Live(Process(s, i, o), i))
  {
    hide Core, QueueInv, ChainQueue, CurrentChange, Touches, CancelQueue, TaskCompleted, SettledExcept, SettledQueue,
      Detached;
    var s1 := ServiceBegun(s, i, o);
    ServiceBegunChange(s, i, o);
    ServiceBegunChain(s, i, o);
    CurrentUpdate(s, s1, i, s1.all[i]);
    if o.failed {
      if o.action { CancelChain(s1, i); } else { FailedStays(s1, i); }
    } else if !o.action {
      ChainFlags(s1.all[i]);
      RanKey(s1.all[i]);
      CompletedChain(Put(s1, i, Ran(s1.all[i])), i, s1.all[i]);
    }
  }

  lemma RanKey(q: Queue)
    ensures Ran(q).key == q.key
  {}

  lemma ChainFlags(q: Queue)
    requires ChainQueue(q, true)
    ensures !q.log.everCancelled && q.log.ran == q.log.ended
  {}

  lemma FailedStays(s: State, i: nat)
    requires Core(s) && Live(s, i) && s.all[i].log.everFailed
    ensures i < |CancelQueue(s, i).all| && CancelQueue(s, i).all[i].log.everFailed
  {
    hide Core, CancelQueue, Settled;
    CancelQueueCore(s, i);
  }

  lemma DispatchChain(s: State, i: nat, o: Outcome)
    requires Inv(s) && Dispatchable(s, i) && !s.quitting && Building(s.all[i]) && ChainQueue(s.all[i], true)
    ensures |Dispatch(s, i, o).all| == |s.all|
    ensures Building(Dispatch(s, i, o).all[i]) ==> ChainQueue(Dispatch(s, i, o).all[i], Live(Dispatch(s, i, o), i))
  {
    hide Core, Settled, Process, ChainQueue, Building, SettledExcept, Detached, QueueInv, Touches, Live;
    StartingCore(s, i);
    DispatchableFacts(s, i);
    BegunChain(s, i);
    ProcessChain(Starting(s, i), i, o);
  }

  lemma ReplyChain(s: State, id: nat, ok: bool)
    requires Inv(s) && id in s.actions && Held(s, id) && !s.quitting
    requires Building(s.all[s.owner[id]]) && ChainQueue(s.all[s.owner[id]], true)
    ensures |ActionReply(s, id, ok).all| == |s.all|
    ensures ChainQueue(ActionReply(s, id, ok).all[s.owner[id]], Live(ActionReply(s, id, ok), s.owner[id]))
  {
    hide Inv, QueueInv, TaskCompleted, Ran, SettledQueue, Shuffle;
    PendingFacts(s, id);
    var i := s.owner[id];
    KindOfCurrent(s.all[i]);
    var q1 := s.all[i].(current := Some(s.all[i].current.value.(action := false)));
    CurrentKeeps(s.all[i], q1.current.value);
    RanKey(q1);
    CompletedChain(s.(all := s.all[i := Ran(q1)], actions := s.actions - multiset{id}), i, q1);
  }

  lemma QuietChain(s: State, i: nat, command: Command)
    requires i < |s.all| && Building(s.all[i])
    ensures Live(s, i) && ChainQueue(s.all[i], true) ==>
      ChainQueue(AddTask(s, i, command).all[i], true) && Live(AddTask(s, i, command), i)
    ensures Live(s, i) && ChainQueue(s.all[i], true) ==>
      ChainQueue(StartQueue(s, i).all[i], true) && Live(StartQueue(s, i), i)
    ensures !Live(s, i) && ChainQueue(s.all[i], false) ==>
      ChainQueue(FinallyIdle(s, i).all[i], false) && !Live(FinallyIdle(s, i), i)
  {}

  lemma BuildingBefore(q: Queue, q': Queue)
    requires Grows(q, q') && Building(q')
    ensures Building(q)
  {}

  /** A single-queue event on a queue of services. */
  lemma TouchChain(s: State, e: Event, s': State, i: nat)
    requires Inv(s) && Chains(s) && May(s, e) && Safe(s, e) && s' == Step(s, e)
    requires Concerns(s, e, i) && !e.CompletionRuns?
    requires i < |s'.all| && Building(s'.all[i]) && !s'.quitting && Touches(s, s', i)
    ensures ChainQueue(s'.all[i], Live(s', i))
  {
    hide Core, Settled, QueueInv, ChainQueue, Building, AddTask, StartQueue, Dispatch, ActionReply, CancelQueue,
      FinallyIdle, SettledQueue, Grows;
    BuildingBefore(s.all[i], s'.all[i]);
    assert ChainAt(s, i);
    match e
    case TaskAdded(_, command) => QuietChain(s, i, command);
    case QueueStarted(_) => QuietChain(s, i, Deferred);
    case DispatchRuns(_, o) => DispatchChain(s, i, o);
    case ActionEnds(id, ok) => ReplyChain(s, id, ok);
    case QueueCancelled(_) => SettledSplit(s, i); CancelChain(s, i);
    case FinallyRuns(_) => QuietChain(s, i, Deferred);
  }

  lemma CompletionIsClient(s: State, id: nat)
    requires Inv(s) && Safe(s, CompletionRuns(id))
    ensures !s.all[s.owner[id]].service
  {
    hide Settled;
    InvOfQueue(s, s.owner[id]);
  }

  // ---------- walks over the table ----------

  lemma {:induction false} RemoveForSpares(s: State, sel: Selector, order: seq<nat>, j: nat)
    requires Inv(s) && Walk(s, order) && j < |s.all| && !Plain(s.all[j])
    requires forall n :: 0 <= n < |order| && Selects(sel, s.all[order[n]].key) ==> Plain(s.all[order[n]])
    ensures j < |RemoveFor(s, sel, order).all| && RemoveFor(s, sel, order).all[j] == s.all[j]
    ensures Live(RemoveFor(s, sel, order), j) <==> Live(s, j)
    ensures RemoveFor(s, sel, order).quitting == s.quitting
    decreases |order|
  {
    hide Core, Settled, CancelQueue, RemoveQueue, Selects;
    if order != [] {
      var s1 := RemoveOne(s, sel, order[0]);
      RemoveOneCore(s, sel, order[0]);
      WalkGoesOn(s, s1, order);
      RemoveForSpares(s1, sel, order[1..], j);
    }
  }

  lemma RemoveForChains(s: State, sel: Selector, order: seq<nat>)
    requires Inv(s) && Chains(s) && Walk(s, order)
    requires forall n :: 0 <= n < |order| && Selects(sel, s.all[order[n]].key) ==> Plain(s.all[order[n]])
    ensures Chains(RemoveFor(s, sel, order))
  {
    hide Inv, RemoveFor, ChainQueue;
    var s' := RemoveFor(s, sel, order);
    RemoveForSizes(s, sel, order);
    forall j: nat | j < |s'.all| && Building(s'.all[j]) && !s'.quitting
      ensures ChainQueue(s'.all[j], Live(s', j))
    {
      BuildingBefore(s.all[j], s'.all[j]);
      RemoveForSpares(s, sel, order, j);
      assert ChainAt(s, j);
    }
  }

  lemma RemoveForSizes(s: State, sel: Selector, order: seq<nat>)
    requires Inv(s) && Walk(s, order)
    requires forall n :: 0 <= n < |order| && Selects(sel, s.all[order[n]].key) ==> Removable(s.all[order[n]])
    ensures AllGrow(s, RemoveFor(s, sel, order)) && |RemoveFor(s, sel, order).all| == |s.all|
  {
    hide Inv, RemoveOne, AllGrow;
    RemoveForGrows(s, sel, order);
    RemoveForSize(s, sel, order);
  }

  lemma AddQueueChains(s: State, key: QueueKey, autoStart: bool, autoRemove: bool, service: bool, hasFinally: bool)
    requires Inv(s) && Chains(s) && key !in s.table
    ensures Chains(AddQueue(s, key, autoStart, autoRemove, service, hasFinally))
  {
    hide Inv;
    var s' := AddQueue(s, key, autoStart, autoRemove, service, hasFinally);
    forall j: nat | j < |s'.all| ensures ChainAt(s', j) {
      if j < |s.all| {
        assert ChainAt(s, j);
        assert Live(s', j) <==> Live(s, j);
      }
    }
  }

  lemma QuittingChains(s: State)
    requires s.quitting
    ensures Chains(s)
  {}

  lemma QuittingLasts(s: State, order: seq<nat>)
    requires Inv(s) && Walk(s, order)
    ensures SetQuitting(s, order).quitting
  {
    hide Core, Settled;
    if s.running > 0 {
      QuittingCore(s, s.quits);
      CancelAllCalms(s.(quitting := true), order);
    }
  }

  lemma StepKeepsChains(s: State, e: Event)
    requires Inv(s) && Chains(s) && May(s, e) && Safe(s, e)
    ensures Chains(Step(s, e))
  {
    hide Inv, Chains, ChainQueue, Building, AddQueue, AddTask, StartQueue, Dispatch, ActionReply, CompletionIdle,
      CancelQueue, RemoveFor, SetQuitting, FinallyIdle, Touches, Walk;
    match e
    case QueueAdded(key, autoStart, autoRemove, service, hasFinally) =>
      AddQueueChains(s, key, autoStart, autoRemove, service, hasFinally);
    case QueuesRemoved(sel, order) => WalksSelect(s, sel, order); RemoveForChains(s, sel, order);
    case QuitRequested(order) => QuittingLasts(s, order); QuittingChains(SetQuitting(s, order));
    case _ =>
      var i := StepTouches(s, e);
      TouchChains(s, e, i);
  }

  lemma WalksSelect(s: State, sel: Selector, order: seq<nat>)
    requires May(s, QueuesRemoved(sel, order))
    ensures forall n :: 0 <= n < |order| && Selects(sel, s.all[order[n]].key) ==> Plain(s.all[order[n]])
  {}

  lemma TouchChains(s: State, e: Event, i: nat)
    requires Inv(s) && Chains(s) && May(s, e) && Safe(s, e) && Touches(s, Step(s, e), i)
    requires Concerns(s, e, i)
    ensures Chains(Step(s, e))
  {
    hide Inv, Chains, ChainQueue, Step, QueueInv, Grows;
    var s' := Step(s, e);
    if Building(s'.all[i]) && !s'.quitting {
      if e.CompletionRuns? {
        CompletionIsClient(s, e.task);
        BuildingBefore(s.all[i], s'.all[i]);
      } else {
        TouchChain(s, e, s', i);
      }
    }
    OthersStayChains(s, s', i);
  }

  // ---------- whole runs ----------

  lemma {:induction false} RunKeepsChains(ss: seq<State>, es: seq<Event>, n: nat)
    requires Run(ss, es) && n < |ss|
    ensures Chains(ss[n])
    decreases n
  {
    hide Inv, Step, ChainQueue;
    if n > 0 {
      RunKeepsChains(ss, es, n - 1);
      RunKeepsInv(ss, es, n - 1);
      StepKeepsChains(ss[n - 1], es[n - 1]);
    }
  }

  /** A chain of service tasks with a finally callback, none of which failed, outside shutdown: once its
      queue has left the table all its tasks are deleted and the callback has been scheduled or made, once;
      it is told that the chain was not cancelled exactly if every task ran, in the order of adding. */
  lemma ChainEndsOneWay(ss: seq<State>, es: seq<Event>, n: nat, i: nat)
    requires Run(ss, es) && n < |ss| && i < |ss[n].all|
    requires Building(ss[n].all[i]) && ss[n].all[i].hasFinally && ss[n].all[i].log.added != [] && !ss[n].quitting
    ensures
      var s := ss[n];
      var q := s.all[i];
      if Live(s, i) then
        s.finallies[i] == 0 && q.log.finals == [] && q.log.ran == q.log.ended
      else
        && s.finallies[i] + |q.log.finals| == 1
        && (q.log.finals != [] ==> q.log.finals == [q.cancelled])
        && multiset(q.log.deleted) == multiset(q.log.added)
        && (!q.cancelled <==> q.log.ran == q.log.added)
  {
    hide QueueInv, Owned, Settled, Run;
    RunKeepsInv(ss, es, n);
    RunKeepsChains(ss, es, n);
    var s := ss[n];
    assert Linked(s, i) && ChainAt(s, i);
    Accounted(s.all[i]);
    if !Live(s, i) && s.all[i].log.finals != [] {
      assert s.all[i].log.finals[0] == s.all[i].cancelled;
    }
  }

  /** The record that the first task of a chain uses and the last one frees: while any task of the chain is
      still current, so that its action or its callback may yet use the record, the last task has not been
      deleted; and it is deleted at most once. */
  lemma RecordOutlivesItsUse(ss: seq<State>, es: seq<Event>, n: nat, i: nat)
    requires Run(ss, es) && n < |ss| && i < |ss[n].all|
    requires Building(ss[n].all[i]) && !ss[n].quitting && ss[n].all[i].log.added != []
    ensures
      var q := ss[n].all[i];
      var last := q.log.added[|q.log.added|-1];
      && (q.current.Some? || q.tasks != [] ==> last !in q.log.deleted)
      && multiset(q.log.deleted)[last] <= 1
      && (!Live(ss[n], i) ==> multiset(q.log.deleted)[last] == 1)
  {
    hide QueueInv, Owned, Settled, Run;
    RunKeepsInv(ss, es, n);
    RunKeepsChains(ss, es, n);
    assert Linked(ss[n], i) && ChainAt(ss[n], i);
    var q := ss[n].all[i];
    var last := q.log.added[|q.log.added|-1];
    AccountFor(q, i, ss[n].owner, last);
    if q.current.Some? || q.tasks != [] { LastIsWaiting(q, last); }
  }

  lemma LastIsWaiting(q: Queue, last: nat)
    requires QueueInv(q) && !q.log.everCancelled && q.log.added != [] && last == q.log.added[|q.log.added|-1]
    requires q.current.Some? || q.tasks != []
    ensures multiset(CurrentIds(q))[last] + multiset(Ids(q.tasks))[last] >= 1
  {
    hide Shuffle, Conserved, Answers, Phases;
    ChainCounts(q);
    if q.tasks == [] {
      StartedIsAdded(q);
      InMultiset(CurrentIds(q), 0);
    } else {
      assert Ids(q.tasks)[|q.tasks|-1] == last;
      InMultiset(Ids(q.tasks), |q.tasks|-1);
    }
  }

  // ---------- a task that fails without an action ----------

  /** The current task of queue i is a service task with nothing in flight. */
  predicate Stuck(s: State, i: nat) {
    Live(s, i) && s.all[i].current.Some? && s.all[i].current.value.Service? && !s.all[i].current.value.action
  }

  /** A dispatched service task is left without a callback exactly if it fails and starts no action. */
  lemma FailingTaskSticks(s: State, i: nat, o: Outcome)
    requires Inv(s) && Dispatchable(s, i) && s.all[i].service
    ensures Stuck(Dispatch(s, i, o), i) <==> o.failed && !o.action
  {
    hide Core, Settled, SettledExcept, Detached, QueueInv, Shuffle, Touches, Process, CancelQueue;
    StartingCore(s, i);
    DispatchableFacts(s, i);
    var s1 := Starting(s, i);
    var s2 := ServiceBegun(s1, i, o);
    ServiceBegunChange(s1, i, o);
    CurrentUpdate(s1, s2, i, s2.all[i]);
    ProcessSteps(s1, i, o);
    if o.failed {
      CancelStuck(s2, i);
    } else if !o.action {
      CompletedIsIdle(Put(s2, i, Ran(s2.all[i])), i);
    }
  }

  lemma CompletedIsIdle(s: State, i: nat)
    requires i < |s.all|
    ensures TaskCompleted(s, i).all[i].current.None?
  {}

  /** Cancelling the queue of a service task: the task goes if it has an action in flight, and stays if not. */
  lemma CancelStuck(s: State, i: nat)
    requires Core(s) && Live(s, i) && s.all[i].current.Some? && s.all[i].current.value.Service?
    ensures |CancelQueue(s, i).all| == |s.all|
    ensures s.all[i].current.value.action ==> CancelQueue(s, i).all[i].current.None?
    ensures !s.all[i].current.value.action ==>
      CancelQueue(s, i).all[i].current == s.all[i].current && Live(CancelQueue(s, i), i)
  {
    hide Core, TaskCompleted, Dropped;
    EmptiedCore(s, i);
    CancelQueueSteps(s, i);
    var s1 := Emptied(s, i);
    var t := s.all[i].current.value;
    if t.action {
      CompletedIsIdle(
        Put(s1, i, s1.all[i].(current := Some(t.(action := false)))).(actions := s1.actions - multiset{t.id}), i);
    }
  }

  lemma StuckIsAlone(s: State, e: Event, i: nat)
    requires Inv(s) && Stuck(s, i) && May(s, e) && Safe(s, e)
    ensures Concerns(s, e, i) ==> e.TaskAdded? || e.QueueStarted? || e.QueueCancelled?
  {
    hide QueueInv, Settled;
    BusyHasNoIdle(s, i);
    assert Linked(s, i);
  }

  lemma BusyHasNoIdle(s: State, i: nat)
    requires Core(s) && i < |s.all| && s.all[i].current.Some?
    ensures i !in s.dispatches
  {
    hide Shuffle;
    assert Linked(s, i);
  }

  lemma {:induction false} CancelAllStuck(s: State, order: seq<nat>, i: nat)
    requires Inv(s) && Walk(s, order) && Stuck(s, i)
    ensures Stuck(CancelAll(s, order), i) && CancelAll(s, order).all[i].current == s.all[i].current
    decreases |order|
  {
    hide Core, Settled, CancelQueue;
    if order != [] {
      var s1 := CancelQueue(s, order[0]);
      CancelQueueCore(s, order[0]);
      WalkGoesOn(s, s1, order);
      if order[0] == i { CancelStuck(s, i); }
      CancelAllStuck(s1, order[1..], i);
    }
  }

  lemma StuckStays(s: State, e: Event, i: nat)
    requires Inv(s) && May(s, e) && Safe(s, e) && Stuck(s, i)
    ensures Stuck(Step(s, e), i) && Step(s, e).all[i].current == s.all[i].current
  {
    hide Core, Settled, Dispatch, ActionReply, CompletionIdle, CancelQueue, RemoveFor, CancelAll;
    StuckIsAlone(s, e, i);
    match e
    case QueueAdded(_, _, _, _, _) =>
    case QueuesRemoved(sel, order) =>
      StuckIsService(s, i);
      RemoveForSpares(s, sel, order, i);
    case QuitRequested(order) =>
      StuckRuns(s, i);
      QuittingCore(s, s.quits);
      CancelAllStuck(s.(quitting := true), order, i);
    case _ =>
      var j := StepTouches(s, e);
      if j == i && e.QueueCancelled? { CancelStuck(s, i); }
  }

  lemma StuckIsService(s: State, i: nat)
    requires Inv(s) && Stuck(s, i)
    ensures !Plain(s.all[i])
  {
    hide Settled, Shuffle;
    InvOfQueue(s, i);
  }

  lemma StuckRuns(s: State, i: nat)
    requires Core(s) && Stuck(s, i)
    ensures s.running > 0
  {
    CurrentIsLive(s, i);
  }

  /** A task that failed without an action never completes, whatever happens, and the service then never
      gets to quit: something is always counted as running and no quit idle is added any more. */
  lemma {:induction false} StuckForever(ss: seq<State>, es: seq<Event>, m: nat, n: nat, i: nat)
    requires Run(ss, es) && m <= n < |ss| && Stuck(ss[m], i)
    ensures Stuck(ss[n], i) && ss[n].all[i].current == ss[m].all[i].current
    ensures ss[n].running > 0 && ss[n].quits == ss[m].quits
    decreases n
  {
    hide Core, Settled, Step, Stuck, May, Safe;
    if m < n {
      StuckForever(ss, es, m, n - 1, i);
      RunKeepsInv(ss, es, n - 1);
      StuckInRange(ss[n - 1], i);
      StuckStays(ss[n - 1], es[n - 1], i);
      StepEffects(ss[n - 1], es[n - 1]);
    }
    RunKeepsInv(ss, es, n);
    StuckInRange(ss[n], i);
    StuckRuns(ss[n], i);
  }

  lemma StuckInRange(s: State, i: nat)
    requires Stuck(s, i)
    ensures i < |s.all|
  {}
}
