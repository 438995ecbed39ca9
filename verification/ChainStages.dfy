/**
 The construction chain of a device as the task processor runs it, seen as the registry sees it: its queue runs
 and has got past the subscription task or not, or it is stuck, or the queue is gone.  Whatever happens to the
 processor, the chain goes from one of these stages only to one the registry expects.
 */
module ChainStages {
  import opened Options
  import opened TaskModel
  import opened QueueInvariant
  import opened ProcessorInvariant
  import opened ProcessorSteps
  import opened ProcessorRuns
  import opened ProcessorTheorems
  import opened ProcessorEffects
  import opened ConstructionChain
  import R = RegistryModel

  // ---------- starting, running and failing ----------

  /** No task was started, none ran and none failed. */
  predicate Still(q: Queue, q': Queue) {
    && q'.log.added == q.log.added && q'.log.started == q.log.started && q'.log.ran == q.log.ran
    && q'.log.everFailed == q.log.everFailed
  }

  /** No task was started and none failed; at most one ran. */
  predicate Quiet(q: Queue, q': Queue) {
    q'.log.started == q.log.started && q'.log.everFailed == q.log.everFailed && OneRan(q, q')
  }

  predicate OneRan(q: Queue, q': Queue) {
    |q.log.added| <= |q'.log.added| && |q'.log.ran| <= |q.log.ran| + 1
  }

  lemma StillIsQuiet(q: Queue, q': Queue)
    requires Still(q, q')
    ensures Quiet(q, q')
  {}

  lemma EndedStill(q: Queue)
    ensures Still(q, Ended(q))
  {
    hide ReplyTo;
  }

  lemma FreedStill(q: Queue)
    ensures Still(q, Freed(q))
  {
    hide RepliesTo, Ids;
  }

  lemma AfterEndStill(q: Queue, next: Next)
    ensures Still(q, AfterEnd(q, next))
  {
    hide Ended, Freed;
    EndedStill(q);
    FreedStill(Ended(q));
  }

  lemma CompletedStill(s: State, i: nat)
    requires i < |s.all|
    ensures Still(s.all[i], TaskCompleted(s, i).all[i])
  {
    hide AfterEnd, NextFor, Still;
    AfterEndStill(s.all[i], NextFor(s.all[i], s.quitting && Decrement(s.running) == 0));
  }

  lemma RepliedStill(q: Queue, r: Reply)
    ensures Still(q, Replied(q, r))
  {}

  lemma RanQuiet(q: Queue)
    ensures Quiet(q, Ran(q)) && Ran(q).log.added == q.log.added
  {}

  lemma CancelCurrentStill(s: State, i: nat)
    requires i < |s.all| && s.all[i].current.Some?
    ensures Still(s.all[i], CancelCurrent(s, i).all[i])
  {
    hide TaskCompleted, Replied, Cancelling, Reachable;
    var t := s.all[i].current.value;
    RepliedStill(s.all[i], Cancelled);
    if t.Service? && t.action {
      CompletedStill(Put(s, i, s.all[i].(current := Some(t.(action := false)))).(actions := s.actions - multiset{t.id}),
        i);
    }
  }

  lemma CancelStill(s: State, i: nat)
    requires i < |s.all|
    ensures Still(s.all[i], CancelQueue(s, i).all[i])
  {
    hide CancelCurrent;
    CancelQueueSteps(s, i);
    var s1 := Emptied(s, i);
    if s.all[i].current.Some? { CancelCurrentStill(s1, i); }
  }

  lemma RemoveOneStill(s: State, sel: Selector, i: nat)
    requires i < |s.all|
    ensures Still(s.all[i], RemoveOne(s, sel, i).all[i])
  {
    hide CancelQueue, Selects;
    CancelStill(Put(s, i, Deferring(s.all[i])), i);
  }

  lemma {:induction false} RemoveForStill(s: State, sel: Selector, order: seq<nat>, j: nat)
    requires Inv(s) && Walk(s, order) && j < |s.all|
    requires forall n :: 0 <= n < |order| && Selects(sel, s.all[order[n]].key) ==> Removable(s.all[order[n]])
    ensures j < |RemoveFor(s, sel, order).all| && Still(s.all[j], RemoveFor(s, sel, order).all[j])
    decreases |order|
  {
    hide Core, Settled, RemoveOne, Selects, Removable, Grows;
    if order != [] {
      var s1 := RemoveOne(s, sel, order[0]);
      RemoveOneCore(s, sel, order[0]);
      WalkGoesOn(s, s1, order);
      RemoveOneStill(s, sel, order[0]);
      RemoveForStill(s1, sel, order[1..], j);
    }
  }

  lemma {:induction false} CancelAllStill(s: State, order: seq<nat>, j: nat)
    requires Inv(s) && Walk(s, order) && j < |s.all|
    ensures j < |CancelAll(s, order).all| && Still(s.all[j], CancelAll(s, order).all[j])
    decreases |order|
  {
    hide Core, Settled, CancelQueue, Grows;
    if order != [] {
      var s1 := CancelQueue(s, order[0]);
      CancelQueueCore(s, order[0]);
      WalkGoesOn(s, s1, order);
      CancelStill(s, order[0]);
      CancelAllStill(s1, order[1..], j);
    }
  }

  lemma ServiceProcessStarts(s: State, i: nat, o: Outcome)
    requires i < |s.all| && s.all[i].current.Some? && s.all[i].current.value.Service?
    ensures
      var q, q' := s.all[i], Process(s, i, o).all[i];
      && q'.log.started == q.log.started && OneRan(q, q')
      && q'.log.everFailed == (q.log.everFailed || (o.failed && !o.action))
  {
    hide CancelQueue, TaskCompleted, Ran;
    var s1 := ServiceBegun(s, i, o);
    CancelStill(s1, i);
    RanQuiet(s1.all[i]);
    CompletedStill(Put(s1, i, Ran(s1.all[i])), i);
  }

  /** Dispatching a service task starts it and notes a failure. */
  lemma DispatchStarts(s: State, i: nat, o: Outcome)
    requires i < |s.all| && s.all[i].tasks != [] && s.all[i].tasks[0].Service?
    ensures i < |Dispatch(s, i, o).all|
    ensures
      var q, q' := s.all[i], Dispatch(s, i, o).all[i];
      && q'.log.started == q.log.started + [q.tasks[0].id] && OneRan(q, q')
      && q'.log.everFailed == (q.log.everFailed || (o.failed && !o.action))
  {
    hide Process;
    ServiceProcessStarts(Starting(s, i), i, o);
  }

  lemma ActionEndQuiet(s: State, id: nat, ok: bool)
    requires Safe(s, ActionEnds(id, ok))
    ensures Quiet(s.all[s.owner[id]], ActionReply(s, id, ok).all[s.owner[id]])
  {
    hide TaskCompleted, Ran;
    var i := s.owner[id];
    var q := s.all[i];
    if q.current.value.Service? {
      var q1 := q.(current := Some(q.current.value.(action := false)));
      RanQuiet(q1);
      CompletedStill(s.(all := s.all[i := Ran(q1)], actions := s.actions - multiset{id}), i);
    }
  }

  lemma CompletionQuiet(s: State, id: nat)
    requires Safe(s, CompletionRuns(id))
    ensures s.owner[id] < |CompletionIdle(s, id).all| &&
      Quiet(s.all[s.owner[id]], CompletionIdle(s, id).all[s.owner[id]])
  {
    hide TaskCompleted, Ran, Replied;
    var i := s.owner[id];
    var r := if s.all[i].current.value.failed then Error else Value;
    RepliedStill(s.all[i], r);
    RanQuiet(Replied(s.all[i], r));
    CompletedStill(s.(all := s.all[i := Ran(Replied(s.all[i], r))], completions := s.completions - multiset{id}), i);
  }

  lemma SmallQuiet(s: State, i: nat, command: Command)
    requires i < |s.all|
    ensures Quiet(s.all[i], AddTask(s, i, command).all[i]) && Quiet(s.all[i], StartQueue(s, i).all[i])
    ensures Quiet(s.all[i], FinallyIdle(s, i).all[i])
  {}

  /** Only its own dispatch starts a task of a queue or makes one fail. */
  lemma OthersQuiet(s: State, e: Event, i: nat)
    requires Inv(s) && May(s, e) && Safe(s, e) && i < |s.all| && !(e.DispatchRuns? && e.queue == i)
    ensures i < |Step(s, e).all| && Quiet(s.all[i], Step(s, e).all[i])
  {
    hide Core, Settled, AddTask, StartQueue, Dispatch, ActionReply, CompletionIdle, CancelQueue, RemoveFor,
      SetQuitting, FinallyIdle, Quiet, Grows;
    match e
    case QueueAdded(_, _, _, _, _) => AddedQuiet(s, e, i);
    case QueuesRemoved(sel, order) =>
      RemoveForStill(s, sel, order, i);
      StillIsQuiet(s.all[i], RemoveFor(s, sel, order).all[i]);
    case QuitRequested(order) => QuitQuiet(s, order, i);
    case _ =>
      var j := StepTouches(s, e);
      if j == i {
        OwnQuiet(s, e, i);
      } else {
        SameQuiet(s.all[i]);
      }
  }

  lemma SameQuiet(q: Queue)
    ensures Quiet(q, q)
  {}

  lemma AddedQuiet(s: State, e: Event, i: nat)
    requires e.QueueAdded? && Safe(s, e) && i < |s.all|
    ensures i < |Step(s, e).all| && Quiet(s.all[i], Step(s, e).all[i])
  {}

  lemma QuitQuiet(s: State, order: seq<nat>, j: nat)
    requires Inv(s) && Walk(s, order) && j < |s.all|
    ensures j < |SetQuitting(s, order).all| && Quiet(s.all[j], SetQuitting(s, order).all[j])
  {
    hide Core, Settled, Quiet;
    SameQuiet(s.all[j]);
    if s.running > 0 {
      QuittingCore(s, s.quits);
      CancelAllStill(s.(quitting := true), order, j);
      StillIsQuiet(s.all[j], SetQuitting(s, order).all[j]);
    }
  }

  lemma OwnQuiet(s: State, e: Event, i: nat)
    requires Inv(s) && May(s, e) && Safe(s, e) && i < |s.all| && Concerns(s, e, i) && !e.DispatchRuns?
    requires i < |Step(s, e).all|
    ensures Quiet(s.all[i], Step(s, e).all[i])
  {
    hide Core, Settled, AddTask, StartQueue, ActionReply, CompletionIdle, CancelQueue, FinallyIdle, Quiet;
    match e
    case TaskAdded(_, command) => SmallQuiet(s, i, command);
    case QueueStarted(_) => SmallQuiet(s, i, Deferred);
    case ActionEnds(id, ok) => ActionEndQuiet(s, id, ok);
    case CompletionRuns(id) => CompletionQuiet(s, id);
    case QueueCancelled(_) =>
      CancelStill(s, i);
      StillIsQuiet(s.all[i], CancelQueue(s, i).all[i]);
    case FinallyRuns(_) => SmallQuiet(s, i, Deferred);
  }

  // ---------- queues that are gone ----------

  /** A queue of services that is gone stays gone, and so does its flag. */
  lemma GoneStays(s: State, e: Event, i: nat)
    requires Inv(s) && May(s, e) && Safe(s, e) && i < |s.all| && !Live(s, i) && s.all[i].service
    ensures i < |Step(s, e).all| && !Live(Step(s, e), i) && Step(s, e).all[i].cancelled == s.all[i].cancelled
  {
    hide Core, Settled, AddTask, StartQueue, Dispatch, ActionReply, CompletionIdle, CancelQueue, RemoveFor, CancelAll,
      Grows;
    match e
    case QueueAdded(_, _, _, _, _) =>
    case QueuesRemoved(sel, order) => RemoveForSpares(s, sel, order, i);
    case QuitRequested(order) =>
      if s.running > 0 {
        QuittingCore(s, s.quits);
        assert i !in order;
        CancelAllSpares(s.(quitting := true), order, i);
      }
    case _ =>
      var j := StepTouches(s, e);
      if j == i { GoneConcerns(s, e, i); }
  }

  /** Nothing but its finally callback still comes to a queue that is gone. */
  lemma GoneConcerns(s: State, e: Event, i: nat)
    requires Inv(s) && May(s, e) && Safe(s, e) && i < |s.all| && !Live(s, i) && Concerns(s, e, i)
    ensures e == FinallyRuns(i)
  {}

  // ---------- the stages ----------

  /** The chain in queue i as the registry sees it, when b is its subscription task. */
  function Stage(s: State, i: nat, b: nat): R.Chain
    requires i < |s.all|
  {
    if !Live(s, i) then R.Over(s.all[i].cancelled)
    else if ConstructionChain.Stuck(s, i) then R.Stuck
    else R.Running(b in s.all[i].log.ended)
  }

  /** The registry's events of a chain, as steps between stages. */
  predicate Follows(x: R.Chain, y: R.Chain) {
    || y == x
    || (x == R.Running(false) && y == R.Running(true))
    || (x == R.Running(true) && y == R.Stuck)
    || (x.Running? && y == R.Over(true))
    || (x == R.Running(true) && y == R.Over(false))
  }

  /** The queue holds the three tasks of a chain. */
  ghost predicate IsChain(s: State, i: nat, a: nat, b: nat, c: nat) {
    i < |s.all| && s.all[i].service && s.all[i].autoRemove && s.all[i].log.added == [a, b, c]
  }

  /** Of the tasks of a chain only the last may fail without having started an action. */
  predicate FailsLast(s: State, e: Event, i: nat, c: nat) {
    e.DispatchRuns? && e.queue == i && i < |s.all| && s.all[i].tasks != [] && e.outcome.failed && !e.outcome.action ==>
      s.all[i].tasks[0].id == c
  }

  lemma ChainService(s: State, i: nat)
    requires Inv(s) && i < |s.all| && s.all[i].service && s.all[i].tasks != []
    ensures s.all[i].tasks[0].Service?
  {
    hide Settled, InOrder, Conserved, Answers, Owned;
    assert Linked(s, i);
  }

  lemma DispatchIsOwn(s: State, i: nat, o: Outcome)
    requires Inv(s) && May(s, DispatchRuns(i, o))
    ensures Dispatchable(s, i)
  {
    IdleFacts(s, i);
  }

  /** A chain in which a task has failed is stuck. */
  lemma {:induction false} FailedIsStuck(ss: seq<State>, es: seq<Event>, n: nat, i: nat, c: nat)
    requires Run(ss, es) && n < |ss| && i < |ss[n].all| && ss[n].all[i].service && ss[n].all[i].log.everFailed
    requires forall k :: 0 <= k < n ==> FailsLast(ss[k], es[k], i, c)
    ensures Stuck(ss[n], i)
    decreases n
  {
    hide Core, Settled, Step, May, Safe, Stuck, FailsLast;
    assert n > 0;
    var s, e := ss[n - 1], es[n - 1];
    RunKeepsInv(ss, es, n - 1);
    if i < |s.all| {
      StepGrows(s, e);
      SameService(s, Step(s, e), i);
      if s.all[i].log.everFailed {
        FailedIsStuck(ss, es, n - 1, i, c);
        StuckStays(s, e, i);
      } else {
        NewlyFailed(s, e, i, c);
      }
    } else {
      NewIsSound(s, e, i);
    }
  }

  lemma SameService(s: State, s': State, i: nat)
    requires AllGrow(s, s') && i < |s.all|
    ensures s'.all[i].service == s.all[i].service
  {
    assert Grows(s.all[i], s'.all[i]);
  }

  lemma NewlyFailed(s: State, e: Event, i: nat, c: nat)
    requires Inv(s) && May(s, e) && Safe(s, e) && i < |s.all| && i < |Step(s, e).all| && s.all[i].service
    requires !s.all[i].log.everFailed && Step(s, e).all[i].log.everFailed && FailsLast(s, e, i, c)
    ensures Stuck(Step(s, e), i)
  {
    hide Core, Settled, Dispatch, AddTask, StartQueue, ActionReply, CompletionIdle, CancelQueue, RemoveFor,
      SetQuitting, FinallyIdle, Stuck;
    if e.DispatchRuns? && e.queue == i {
      DispatchIsOwn(s, i, e.outcome);
      ChainService(s, i);
      DispatchStarts(s, i, e.outcome);
      FailingTaskSticks(s, i, e.outcome);
    } else {
      OthersQuiet(s, e, i);
    }
  }

  lemma NewIsSound(s: State, e: Event, i: nat)
    requires Inv(s) && May(s, e) && Safe(s, e) && |s.all| <= i < |Step(s, e).all|
    ensures !Step(s, e).all[i].log.everFailed
  {
    hide Core, Settled, AddTask, StartQueue, Dispatch, ActionReply, CompletionIdle, CancelQueue, RemoveFor,
      SetQuitting, FinallyIdle, Grows;
    match e
    case QueueAdded(_, _, _, _, _) =>
    case QueuesRemoved(sel, order) => RemoveForSizes(s, sel, order);
    case QuitRequested(order) => QuitSize(s, order);
    case _ => var j := StepTouches(s, e);
  }

  // ---------- order within a chain ----------

  /** A live chain that has not failed has run what it has ended, in the order of adding. */
  lemma LiveChain(s: State, i: nat)
    requires Inv(s) && Chains(s) && Live(s, i) && !s.quitting && Building(s.all[i])
    ensures
      var q := s.all[i];
      && q.log.ran == q.log.ended && q.log.ended <= q.log.added && |q.log.ended| + |CurrentIds(q)| == Head(q)
      && Ids(q.tasks) == q.log.added[Head(q)..]
  {
    hide Settled, Shuffle, Conserved, Answers, Owned, Phases;
    LiveInRange(s, i);
    var q := s.all[i];
    assert Linked(s, i) && ChainAt(s, i);
    ChainCounts(q);
    assert q.log.ended <= q.log.started;
  }

  lemma NothingTwice(s: State, i: nat)
    requires Core(s) && i < |s.all|
    ensures NoDup(s.all[i].log.added)
  {
    hide QueueInv;
    assert Linked(s, i);
  }

  lemma TwoEnded(q: Queue, a: nat, b: nat, c: nat)
    requires q.log.added == [a, b, c] && q.log.ended <= q.log.added && |q.log.ended| >= 2
    ensures b in q.log.ended
  {
    assert q.log.ended[1] == q.log.added[1] == b;
  }

  /** When the last task of a chain is the next one, the subscription task has ended. */
  lemma LastComesLast(s: State, i: nat, a: nat, b: nat, c: nat)
    requires Inv(s) && Chains(s) && IsChain(s, i, a, b, c) && Live(s, i) && !s.quitting && !s.all[i].log.everFailed
    requires s.all[i].current.None? && s.all[i].tasks != [] && s.all[i].tasks[0].id == c
    ensures b in s.all[i].log.ended
  {
    hide Inv, Chains, Live;
    LiveChain(s, i);
    DistinctTasks(s, i, a, b, c);
    var q := s.all[i];
    assert c == Ids(q.tasks)[0] == q.log.added[Head(q)];
    TwoEnded(q, a, b, c);
  }

  lemma DistinctTasks(s: State, i: nat, a: nat, b: nat, c: nat)
    requires Inv(s) && IsChain(s, i, a, b, c)
    ensures c != a && c != b
  {
    hide Core, Settled;
    NothingTwice(s, i);
    var added := s.all[i].log.added;
    assert added[0] == a && added[1] == b && added[2] == c;
  }

  // ---------- the chain goes as the registry expects ----------

  lemma StaysEnded(s: State, s': State, i: nat, b: nat)
    requires AllGrow(s, s') && i < |s.all| && b in s.all[i].log.ended
    ensures b in s'.all[i].log.ended
  {
    assert Grows(s.all[i], s'.all[i]);
    var n :| 0 <= n < |s.all[i].log.ended| && s.all[i].log.ended[n] == b;
    assert s'.all[i].log.ended[n] == b;
  }

  /** What makes a chain stuck is the dispatch of its last task. */
  lemma StuckByLast(s: State, e: Event, i: nat, a: nat, b: nat, c: nat)
    requires Inv(s) && Chains(s) && IsChain(s, i, a, b, c) && Live(s, i) && !s.quitting && !s.all[i].log.everFailed
    requires May(s, e) && Safe(s, e) && FailsLast(s, e, i, c)
    requires i < |Step(s, e).all| && Stuck(Step(s, e), i)
    ensures b in s.all[i].log.ended
  {
    hide Core, Settled, Dispatch, AddTask, StartQueue, ActionReply, CompletionIdle, CancelQueue, RemoveFor,
      SetQuitting, FinallyIdle, Chains, Stuck;
    if e.DispatchRuns? && e.queue == i {
      DispatchIsOwn(s, i, e.outcome);
      FailingTaskSticks(s, i, e.outcome);
      LastComesLast(s, i, a, b, c);
    } else {
      OthersDoNotStick(s, e, i);
    }
  }

  /** Only its dispatch leaves a service task without a callback. */
  lemma OthersDoNotStick(s: State, e: Event, i: nat)
    requires Inv(s) && May(s, e) && Safe(s, e) && i < |s.all| && i < |Step(s, e).all|
    requires !(e.DispatchRuns? && e.queue == i) && !s.all[i].log.everFailed
    ensures !Stuck(Step(s, e), i)
  {
    hide Core, QueueInv, Step, May, Safe;
    OthersQuiet(s, e, i);
    StepKeepsInv(s, e);
    if Stuck(Step(s, e), i) {
      StuckHasFailed(Step(s, e), i);
    }
  }

  lemma StuckHasFailed(s: State, i: nat)
    requires Inv(s) && Stuck(s, i)
    ensures s.all[i].log.everFailed
  {
    hide Core;
    assert SettledQueue(s, s.all[i]);
  }

  /** No event runs two tasks of a queue of services. */
  lemma OneRuns(s: State, e: Event, i: nat)
    requires Inv(s) && May(s, e) && Safe(s, e) && i < |s.all| && s.all[i].service
    ensures i < |Step(s, e).all| && OneRan(s.all[i], Step(s, e).all[i])
  {
    hide Core, Settled, Dispatch, AddTask, StartQueue, ActionReply, CompletionIdle, CancelQueue, RemoveFor,
      SetQuitting, FinallyIdle, OneRan;
    if e.DispatchRuns? && e.queue == i {
      DispatchIsOwn(s, i, e.outcome);
      ChainService(s, i);
      DispatchStarts(s, i, e.outcome);
    } else {
      OthersQuiet(s, e, i);
    }
  }

  /** A chain that goes without having been cancelled had run its subscription task before its last step. */
  lemma EndsAfterJoining(s: State, e: Event, i: nat, a: nat, b: nat, c: nat)
    requires Inv(s) && Chains(s) && IsChain(s, i, a, b, c) && Live(s, i) && !s.quitting && !s.all[i].log.everFailed
    requires May(s, e) && Safe(s, e) && Chains(Step(s, e))
    requires i < |Step(s, e).all| && Building(Step(s, e).all[i]) && !Step(s, e).quitting
    requires !Live(Step(s, e), i) && !Step(s, e).all[i].cancelled
    ensures b in s.all[i].log.ended
  {
    hide Inv, Chains, Live, Step, May, Safe;
    LiveChain(s, i);
    OneRuns(s, e, i);
    GoneRan(Step(s, e), i);
    TwoEnded(s.all[i], a, b, c);
  }

  lemma GoneRan(s: State, i: nat)
    requires Chains(s) && i < |s.all| && Building(s.all[i]) && !s.quitting && !Live(s, i) && !s.all[i].cancelled
    requires s.all[i].log.added != []
    ensures |s.all[i].log.ran| == |s.all[i].log.added|
  {
    assert ChainAt(s, i);
  }

  /** What the registry expects of a chain is what the task processor does: as long as no task but the last fails
      without having started an action, and outside shutdown, whatever event comes next takes the chain to a stage
      that the registry's events lead to. */
  lemma ChainFollowsRegistry(ss: seq<State>, es: seq<Event>, n: nat, i: nat, a: nat, b: nat, c: nat)
    requires Run(ss, es) && n < |es| && IsChain(ss[n], i, a, b, c) && !ss[n].quitting && !ss[n + 1].quitting
    requires forall k :: 0 <= k <= n ==> FailsLast(ss[k], es[k], i, c)
    ensures i < |ss[n + 1].all| && Follows(Stage(ss[n], i, b), Stage(ss[n + 1], i, b))
  {
    hide Inv, Chains, Step, May, Safe, Live, Stuck, FailsLast;
    var s, e := ss[n], es[n];
    RunKeepsInv(ss, es, n);
    RunKeepsChains(ss, es, n);
    RunKeepsChains(ss, es, n + 1);
    StepGrows(s, e);
    SameService(s, Step(s, e), i);
    if !Live(s, i) {
      GoneStays(s, e, i);
    } else if Stuck(s, i) {
      StuckStays(s, e, i);
      StuckIsLive(Step(s, e), i);
    } else {
      SoundFollows(ss, es, n, i, a, b, c);
    }
  }

  lemma StuckIsLive(s: State, i: nat)
    requires Stuck(s, i)
    ensures Live(s, i)
  {}

  lemma SoundFollows(ss: seq<State>, es: seq<Event>, n: nat, i: nat, a: nat, b: nat, c: nat)
    requires Run(ss, es) && n < |es| && IsChain(ss[n], i, a, b, c) && !ss[n].quitting && !ss[n + 1].quitting
    requires forall k :: 0 <= k <= n ==> FailsLast(ss[k], es[k], i, c)
    requires Inv(ss[n]) && Chains(ss[n]) && Chains(ss[n + 1]) && AllGrow(ss[n], ss[n + 1])
    requires Live(ss[n], i) && !Stuck(ss[n], i)
    ensures Follows(Stage(ss[n], i, b), Stage(ss[n + 1], i, b))
  {
    hide Inv, Chains, Step, May, Safe, Live, Stuck, FailsLast;
    var s, e, s' := ss[n], es[n], ss[n + 1];
    if s.all[i].log.everFailed { FailedIsStuck(ss, es, n, i, c); }
    if !Live(s', i) {
      if !s'.all[i].cancelled {
        NotFailedNow(ss, es, n, i, c);
        EndsAfterJoining(s, e, i, a, b, c);
      }
    } else if Stuck(s', i) {
      StuckByLast(s, e, i, a, b, c);
    } else if b in s.all[i].log.ended {
      StaysEnded(s, s', i, b);
    }
  }

  lemma NotFailedNow(ss: seq<State>, es: seq<Event>, n: nat, i: nat, c: nat)
    requires Run(ss, es) && n < |es| && i < |ss[n].all| && ss[n].all[i].service && ss[n].all[i].autoRemove
    requires AllGrow(ss[n], ss[n + 1]) && !Live(ss[n + 1], i)
    requires forall k :: 0 <= k <= n ==> FailsLast(ss[k], es[k], i, c)
    ensures Building(ss[n + 1].all[i])
  {
    hide Step, May, Safe, FailsLast, Live, Stuck;
    assert Grows(ss[n].all[i], ss[n + 1].all[i]);
    if ss[n + 1].all[i].log.everFailed {
      FailedIsStuck(ss, es, n + 1, i, c);
      StuckIsLive(ss[n + 1], i);
    }
  }

  /** Every such step between stages is an event that the registry's chain may take. */
  lemma FollowsIsEvent(r: R.Registry, udn: string, y: R.Chain) returns (e: R.Event)
    requires udn in r.building && Follows(r.building[udn].chain, y) && y != r.building[udn].chain
    ensures R.May(r, e) && !e.Available? && !e.Unavailable? && !e.Changed?
    ensures R.Safe(r, e) ==> udn in R.Step(r, e).building && R.Step(r, e).building[udn].chain == y
  {
    match y
    case Running(_) => e := R.Subscribing(udn);
    case Stuck => e := R.DeclareFailed(udn);
    case Over(cancelled) => e := R.ChainGone(udn, cancelled);
  }
}
