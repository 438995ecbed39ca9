/**
 What the callers of the task processor may rely on over a whole run: a queue is what it was asked to be, nothing
 of it runs before it is started, a request stays the one that was made, and a shutdown, once asked for, lasts.
 */
module ProcessorPromises {
  import opened Options
  import opened TaskModel
  import opened QueueInvariant
  import opened ProcessorInvariant
  import opened ProcessorSteps
  import opened ProcessorRuns
  import opened ProcessorTheorems
  import opened ProcessorEffects

  // ---------- shutdown ----------

  lemma {:induction false} RemoveForQuitting(s: State, sel: Selector, order: seq<nat>)
    requires Inv(s) && Walk(s, order)
    requires forall n :: 0 <= n < |order| && Selects(sel, s.all[order[n]].key) ==> Removable(s.all[order[n]])
    ensures RemoveFor(s, sel, order).quitting == s.quitting
    decreases |order|
  {
    hide Core, Settled, RemoveOne, Grows, Selects, Removable;
    if order != [] {
      var s1 := RemoveOne(s, sel, order[0]);
      RemoveOneCore(s, sel, order[0]);
      WalkGoesOn(s, s1, order);
      RemoveForQuitting(s1, sel, order[1..]);
    }
  }

  lemma {:induction false} CancelAllQuitting(s: State, order: seq<nat>)
    requires Inv(s) && Walk(s, order)
    ensures CancelAll(s, order).quitting == s.quitting
    decreases |order|
  {
    hide Core, Settled, CancelQueue, Grows;
    if order != [] {
      var s1 := CancelQueue(s, order[0]);
      CancelQueueCore(s, order[0]);
      WalkGoesOn(s, s1, order);
      CancelAllQuitting(s1, order[1..]);
    }
  }

  lemma StepQuitting(s: State, e: Event)
    requires Inv(s) && May(s, e) && Safe(s, e)
    ensures Step(s, e).quitting <==> s.quitting || e.QuitRequested?
  {
    hide Core, Settled, Dispatch, AddTask, StartQueue, ActionReply, CompletionIdle, CancelQueue, RemoveFor,
      CancelAll, FinallyIdle, Selects, Removable, Plain, Grows;
    match e
    case QueueAdded(_, _, _, _, _) =>
    case QueuesRemoved(sel, order) => RemoveForQuitting(s, sel, order);
    case QuitRequested(order) =>
      if s.running > 0 {
        QuitStart(s);
        CancelAllQuitting(s.(quitting := true), order);
      }
    case _ => var j := StepTouches(s, e);
  }

  /** The processor is quitting exactly if it has been asked to, once and for all, and then a task is current or
      the quit idle has been added. */
  lemma {:induction false} QuitLasts(ss: seq<State>, es: seq<Event>, n: nat)
    requires Run(ss, es) && n < |ss|
    ensures ss[n].quitting <==> exists m :: 0 <= m < n && es[m].QuitRequested?
    ensures ss[n].quitting ==> ss[n].quits > 0 || exists i :: 0 <= i < |ss[n].all| && ss[n].all[i].current.Some?
    decreases n
  {
    hide Inv, Step, May, Safe;
    RunKeepsInv(ss, es, n);
    if n > 0 {
      QuitLasts(ss, es, n - 1);
      RunKeepsInv(ss, es, n - 1);
      StepQuitting(ss[n - 1], es[n - 1]);
    }
    if ss[n].quitting && ss[n].quits == 0 { SomeoneRuns(ss[n]); }
  }

  lemma SomeoneRuns(s: State)
    requires Inv(s) && s.quitting && s.quits == 0
    ensures exists i :: 0 <= i < |s.all| && s.all[i].current.Some?
  {
    hide Linked;
    BusyOne(s.all);
  }

  lemma {:induction false} BusyOne(all: seq<Queue>)
    requires Total(all, Busy) > 0
    ensures exists i :: 0 <= i < |all| && all[i].current.Some?
  {
    var last := |all| - 1;
    if all[last].current.None? {
      BusyOne(all[..last]);
      var i :| 0 <= i < |all[..last]| && all[..last][i].current.Some?;
      assert all[i].current.Some?;
    }
  }

  // ---------- queues that have not been started ----------

  predicate Sleeps(q: Queue) {
    !q.autoStart && !q.idle && q.current.None? && q.log.started == []
  }

  lemma EmptiedSleeps(s: State, i: nat)
    requires i < |s.all| && Sleeps(s.all[i])
    ensures Sleeps(Emptied(s, i).all[i]) && Sleeps(RemoveQueue(s, i).all[i])
  {
    hide RepliesTo, Ids;
  }

  lemma CancelSleeps(s: State, i: nat)
    requires i < |s.all| && Sleeps(s.all[i])
    ensures Sleeps(CancelQueue(s, i).all[i])
  {
    hide Emptied, RemoveQueue, CancelCurrent;
    CancelQueueSteps(s, i);
    EmptiedSleeps(s, i);
    EmptiedSleeps(Emptied(s, i), i);
  }

  lemma RemoveOneSleeps(s: State, sel: Selector, i: nat)
    requires i < |s.all| && Sleeps(s.all[i])
    ensures Sleeps(RemoveOne(s, sel, i).all[i])
  {
    hide CancelQueue, RemoveQueue, RemoveOne, Named;
    RemoveOneSteps(s, sel, i);
    CancelSleeps(s, i);
    EmptiedSleeps(CancelQueue(s, i), i);
  }

  lemma OwnSleeps(s: State, e: Event, i: nat)
    requires Inv(s) && May(s, e) && Safe(s, e) && i < |s.all| && i < |Step(s, e).all| && Concerns(s, e, i)
    requires Sleeps(s.all[i]) && !e.QueueStarted?
    ensures Sleeps(Step(s, e).all[i])
  {
    hide Core, Settled, Dispatch, ActionReply, CompletionIdle, CancelQueue;
    match e
    case TaskAdded(_, command) =>
    case DispatchRuns(_, o) => IdleFacts(s, i);
    case ActionEnds(id, ok) =>
    case CompletionRuns(id) =>
    case QueueCancelled(_) => CancelSleeps(s, i);
    case FinallyRuns(_) =>
  }

  lemma StepSleeps(s: State, e: Event, i: nat)
    requires Inv(s) && May(s, e) && Safe(s, e) && i < |s.all| && Sleeps(s.all[i])
    requires !(e.QueueStarted? && e.queue == i)
    ensures i < |Step(s, e).all| && Sleeps(Step(s, e).all[i])
  {
    hide Core, Settled, Dispatch, AddTask, StartQueue, ActionReply, CompletionIdle, CancelQueue, RemoveFor,
      CancelAll, FinallyIdle, RemoveOne, Selects, Removable, Plain, Grows, Sleeps;
    match e
    case QueueAdded(_, _, _, _, _) =>
    case QueuesRemoved(sel, order) =>
      if i in order {
        var t := RemoveForReaches(s, sel, order, i);
        RemoveOneSleeps(t, sel, i);
      } else {
        RemoveForPasses(s, sel, order, i);
      }
    case QuitRequested(order) =>
      if s.running > 0 {
        QuitStart(s);
        if i in order {
          var t := CancelAllReaches(s.(quitting := true), order, i);
          CancelSleeps(t, i);
        } else {
          CancelAllSpares(s.(quitting := true), order, i);
        }
      }
    case _ =>
      var j := StepTouches(s, e);
      if j == i { OwnSleeps(s, e, i); }
  }

  /** Nothing of a queue that does not start by itself begins before it is started, in any run, whatever is added
      to it; and no idle is pending for it. */
  lemma {:induction false} NothingBeforeStart(ss: seq<State>, es: seq<Event>, n: nat, i: nat)
    requires Run(ss, es) && n < |ss| && i < |ss[n].all| && !ss[n].all[i].autoStart
    requires forall k :: 0 <= k < n ==> !(es[k].QueueStarted? && es[k].queue == i)
    ensures ss[n].all[i].log.started == [] && ss[n].all[i].current.None? && !ss[n].all[i].idle
    decreases n
  {
    hide Core, Settled, Step, May, Safe;
    if n > 0 {
      RunKeepsInv(ss, es, n - 1);
      if i < |ss[n - 1].all| {
        StepGrows(ss[n - 1], es[n - 1]);
        assert Grows(ss[n - 1].all[i], ss[n].all[i]);
        NothingBeforeStart(ss, es, n - 1, i);
        StepSleeps(ss[n - 1], es[n - 1], i);
      } else {
        NewIsNot(ss[n - 1], es[n - 1], i);
      }
    }
  }

  /** A queue that is started, and is not marked for removal, has its idle pending or is at work. */
  lemma StartedIsDue(ss: seq<State>, es: seq<Event>, n: nat)
    requires Run(ss, es) && n < |es| && es[n].QueueStarted?
    ensures
      var i := es[n].queue;
      && i < |ss[n].all| && i < |ss[n + 1].all| && ss[n + 1].all[i].tasks == ss[n].all[i].tasks != []
      && (ss[n].all[i].deferRemove || ss[n + 1].all[i].current.Some?
          || (ss[n + 1].all[i].idle && ss[n + 1].dispatches[i] == 1))
  {
    hide Settled, QueueInv, Owned;
    RunKeepsInv(ss, es, n);
    RunKeepsInv(ss, es, n + 1);
    assert Linked(ss[n + 1], es[n].queue);
  }

  // ---------- what a queue is ----------

  /** A queue is what it was asked to be, at the place its key is looked up, for ever after. */
  lemma QueuesAreAsAsked(ss: seq<State>, es: seq<Event>, m: nat, n: nat)
    requires Run(ss, es) && m < n < |ss| && es[m].QueueAdded?
    ensures
      var i, e := |ss[m].all|, es[m];
      && i < |ss[n].all| && e.key in ss[m + 1].table && ss[m + 1].table[e.key] == i
      && var q := ss[n].all[i];
         && q.key == e.key && q.autoStart == e.autoStart && q.autoRemove == e.autoRemove
         && q.service == e.service && q.hasFinally == e.hasFinally
  {
    hide May, Safe, AllGrow;
    RunGrows(ss, es, m + 1, n);
    assert ss[m + 1] == Step(ss[m], es[m]);
    GrowsThere(ss[m + 1], ss[n], |ss[m].all|);
  }

  lemma GrowsThere(s: State, s': State, i: nat)
    requires AllGrow(s, s') && i < |s.all|
    ensures i < |s'.all| && Grows(s.all[i], s'.all[i])
  {}

  // ---------- requests ----------

  predicate Present(q: Queue, t: Task) {
    t in q.tasks || q.current == Some(t)
  }

  /** If task id is waiting in the queue or current, it is a request for the command. */
  ghost predicate Requests(q: Queue, id: nat, command: Command) {
    forall t :: Present(q, t) && t.id == id ==> t.Client? && t.command == command
  }

  /** The list is as it was or empty, and the current task the one there was, or none. */
  predicate Dwindles(q: Queue, q': Queue) {
    && (q'.tasks == q.tasks || q'.tasks == [])
    && (q'.current.Some? ==> q.current.Some? && SameRequest(q.current.value, q'.current.value))
  }

  predicate SameRequest(t: Task, t': Task) {
    t'.id == t.id && (t.Client? ==> t'.Client? && t'.command == t.command)
  }

  lemma DwindlesKeeps(q: Queue, q': Queue, id: nat, command: Command)
    requires Dwindles(q, q') && Requests(q, id, command)
    ensures Requests(q', id, command)
  {
    forall t | Present(q', t) && t.id == id
      ensures t.Client? && t.command == command
    {
      assert t in q.tasks ==> Present(q, t);
      assert q.current.Some? ==> Present(q, q.current.value);
    }
  }

  lemma DwindlesTrans(q: Queue, q1: Queue, q2: Queue)
    requires Dwindles(q, q1) && Dwindles(q1, q2)
    ensures Dwindles(q, q2)
  {}

  lemma CompletedDwindles(s: State, i: nat)
    requires i < |s.all|
    ensures Dwindles(s.all[i], TaskCompleted(s, i).all[i])
  {
    hide TaskCompleted;
    CompletedShape(s, i);
  }

  lemma RepliedDwindles(q: Queue, r: Reply)
    ensures Replied(q, r).tasks == q.tasks && Dwindles(q, Replied(q, r))
  {}

  lemma RanDwindles(q: Queue, r: Reply)
    ensures Dwindles(q, Ran(q)) && Dwindles(q, Ran(Replied(q, r)))
  {
    hide Ran, Replied;
    DwindlesSelf(q);
    RanSame(q);
    RanSame(Replied(q, r));
    RepliedDwindles(q, r);
  }

  lemma CancelCurrentDwindles(s: State, i: nat)
    requires i < |s.all| && s.all[i].current.Some?
    ensures Dwindles(s.all[i], CancelCurrent(s, i).all[i])
  {
    hide TaskCompleted, Replied, Reachable;
    var t := s.all[i].current.value;
    RepliedDwindles(s.all[i], Cancelled);
    if t.Service? && t.action {
      var q1 := s.all[i].(current := Some(t.(action := false)));
      var s1 := Put(s, i, q1).(actions := s.actions - multiset{t.id});
      CompletedDwindles(s1, i);
      DwindlesTrans(s.all[i], q1, TaskCompleted(s1, i).all[i]);
    }
  }

  lemma EmptiedDwindles(s: State, i: nat)
    requires i < |s.all|
    ensures Dwindles(s.all[i], Emptied(s, i).all[i]) && Dwindles(s.all[i], RemoveQueue(s, i).all[i])
  {
    hide RepliesTo, Ids;
  }

  lemma CancelDwindles(s: State, i: nat)
    requires i < |s.all|
    ensures Dwindles(s.all[i], CancelQueue(s, i).all[i])
  {
    hide CancelCurrent, Emptied, RemoveQueue, Dwindles;
    CancelQueueSteps(s, i);
    EmptiedDwindles(s, i);
    EmptiedDwindles(Emptied(s, i), i);
    if s.all[i].current.Some? { CancelCurrentDwindles(Emptied(s, i), i); }
    DwindlesTrans(s.all[i], Emptied(s, i).all[i], CancelQueue(s, i).all[i]);
  }

  lemma DwindlesSelf(q: Queue)
    ensures Dwindles(q, q) && Dwindles(q, Deferring(q))
  {}

  lemma RemoveOneDwindles(s: State, sel: Selector, i: nat)
    requires i < |s.all|
    ensures Dwindles(s.all[i], RemoveOne(s, sel, i).all[i])
  {
    hide CancelQueue, RemoveQueue, RemoveOne, Named, Dwindles, Deferring;
    RemoveOneSteps(s, sel, i);
    DwindlesSelf(s.all[i]);
    var s0 := Put(s, i, Deferring(s.all[i]));
    CancelDwindles(s0, i);
    DwindlesTrans(s.all[i], s0.all[i], CancelQueue(s0, i).all[i]);
    CancelDwindles(s, i);
    EmptiedDwindles(CancelQueue(s, i), i);
    DwindlesTrans(s.all[i], CancelQueue(s, i).all[i], RemoveQueue(CancelQueue(s, i), i).all[i]);
  }

  lemma BegunDwindles(s: State, i: nat, o: Outcome)
    requires i < |s.all| && s.all[i].current.Some?
    ensures
      var s1 := if s.all[i].current.value.Service? then ServiceBegun(s, i, o) else ClientBegun(s, i, o);
      Dwindles(s.all[i], s1.all[i])
  {}

  lemma ProcessDwindles(s: State, i: nat, o: Outcome)
    requires i < |s.all| && s.all[i].current.Some?
    ensures Dwindles(s.all[i], Process(s, i, o).all[i])
  {
    hide CancelQueue, TaskCompleted, Ran, Replied, ServiceBegun, ClientBegun, Process, Dwindles;
    BegunDwindles(s, i, o);
    var q := s.all[i];
    if q.current.value.Service? {
      ProcessSteps(s, i, o);
      var s1 := ServiceBegun(s, i, o);
      var q1 := s1.all[i];
      CancelDwindles(s1, i);
      DwindlesTrans(q, q1, CancelQueue(s1, i).all[i]);
      RanDwindles(q1, Died);
      var s2 := Put(s1, i, Ran(q1));
      CompletedDwindles(s2, i);
      DwindlesTrans(q1, Ran(q1), TaskCompleted(s2, i).all[i]);
      DwindlesTrans(q, q1, TaskCompleted(s2, i).all[i]);
    } else {
      SyncSteps(s, i, o);
      var r := if q.current.value.command == Answered then Value else Error;
      RanDwindles(q, r);
      var s2 := Put(s, i, Ran(Replied(q, r)));
      CompletedDwindles(s2, i);
      DwindlesTrans(q, Ran(Replied(q, r)), TaskCompleted(s2, i).all[i]);
    }
  }

  lemma StartingRequests(s: State, i: nat, id: nat, command: Command)
    requires i < |s.all| && s.all[i].tasks != [] && Requests(s.all[i], id, command)
    ensures Requests(Starting(s, i).all[i], id, command)
  {
    var q, q1 := s.all[i], Starting(s, i).all[i];
    forall t | Present(q1, t) && t.id == id
      ensures t.Client? && t.command == command
    {
      assert Present(q, q.tasks[0]);
      assert t in q.tasks[1..] ==> Present(q, t);
    }
  }

  lemma DispatchRequests(s: State, i: nat, o: Outcome, id: nat, command: Command)
    requires i < |s.all| && s.all[i].tasks != [] && Requests(s.all[i], id, command)
    ensures i < |Dispatch(s, i, o).all| && Requests(Dispatch(s, i, o).all[i], id, command)
  {
    hide Process, Starting, Requests, Dwindles;
    StartingMark(s, i);
    StartingRequests(s, i, id, command);
    DispatchIsProcess(s, i, o);
    ProcessDwindles(Starting(s, i), i, o);
    DwindlesKeeps(Starting(s, i).all[i], Process(Starting(s, i), i, o).all[i], id, command);
  }

  lemma ReplyDwindles(s: State, id: nat, ok: bool)
    requires Safe(s, ActionEnds(id, ok)) && s.owner[id] < |s.all|
    ensures Dwindles(s.all[s.owner[id]], ActionReply(s, id, ok).all[s.owner[id]])
  {
    hide TaskCompleted, Ran;
    var i, q := s.owner[id], s.all[s.owner[id]];
    if q.current.value.Service? {
      var q1 := q.(current := Some(q.current.value.(action := false)));
      var s1 := s.(all := s.all[i := Ran(q1)], actions := s.actions - multiset{id});
      RanDwindles(q1, Died);
      CompletedDwindles(s1, i);
      DwindlesTrans(q1, Ran(q1), TaskCompleted(s1, i).all[i]);
      DwindlesTrans(q, q1, TaskCompleted(s1, i).all[i]);
    }
  }

  lemma CompletionDwindles(s: State, id: nat)
    requires Safe(s, CompletionRuns(id)) && s.owner[id] < |s.all|
    ensures s.owner[id] < |CompletionIdle(s, id).all|
    ensures Dwindles(s.all[s.owner[id]], CompletionIdle(s, id).all[s.owner[id]])
  {
    hide TaskCompleted, Ran, Replied, Dwindles;
    var i, q := s.owner[id], s.all[s.owner[id]];
    var r := if q.current.value.failed then Error else Value;
    var s1 := s.(all := s.all[i := Ran(Replied(q, r))], completions := s.completions - multiset{id});
    RanDwindles(q, r);
    CompletedDwindles(s1, i);
    DwindlesTrans(q, Ran(Replied(q, r)), TaskCompleted(s1, i).all[i]);
  }

  lemma AddedRequests(s: State, i: nat, added: Command, id: nat, command: Command)
    requires i < |s.all| && Requests(s.all[i], id, command) && id != |s.owner|
    ensures Requests(AddTask(s, i, added).all[i], id, command)
  {
    var q, q1 := s.all[i], AddTask(s, i, added).all[i];
    forall t | Present(q1, t) && t.id == id
      ensures t.Client? && t.command == command
    {
      assert t in q.tasks ==> Present(q, t);
      assert q.current == Some(t) ==> Present(q, t);
    }
  }

  lemma SmallDwindles(s: State, i: nat)
    requires i < |s.all|
    ensures i < |StartQueue(s, i).all| && Dwindles(s.all[i], StartQueue(s, i).all[i])
    ensures i < |FinallyIdle(s, i).all| && Dwindles(s.all[i], FinallyIdle(s, i).all[i])
  {}

  lemma OwnRequests(s: State, e: Event, i: nat, id: nat, command: Command)
    requires Inv(s) && May(s, e) && Safe(s, e) && i < |s.all| && i < |Step(s, e).all| && Concerns(s, e, i)
    requires Requests(s.all[i], id, command) && id < |s.owner|
    ensures Requests(Step(s, e).all[i], id, command)
  {
    hide Inv, Dispatch, AddTask, StartQueue, ActionReply, CompletionIdle, CancelQueue, FinallyIdle, Requests, Dwindles;
    var q, q' := s.all[i], Step(s, e).all[i];
    match e
    case TaskAdded(_, added) => AddedRequests(s, i, added, id, command);
    case QueueStarted(_) => SmallDwindles(s, i); DwindlesKeeps(q, q', id, command);
    case DispatchRuns(_, o) => DispatchRequests(s, i, o, id, command);
    case ActionEnds(task, ok) => ReplyDwindles(s, task, ok); DwindlesKeeps(q, q', id, command);
    case CompletionRuns(task) => CompletionDwindles(s, task); DwindlesKeeps(q, q', id, command);
    case QueueCancelled(_) => CancelDwindles(s, i); DwindlesKeeps(q, q', id, command);
    case FinallyRuns(_) => SmallDwindles(s, i); DwindlesKeeps(q, q', id, command);
  }

  lemma StepRequests(s: State, e: Event, i: nat, id: nat, command: Command)
    requires Inv(s) && May(s, e) && Safe(s, e) && i < |s.all| && Requests(s.all[i], id, command) && id < |s.owner|
    ensures i < |Step(s, e).all| && Requests(Step(s, e).all[i], id, command)
  {
    hide Core, Settled, Dispatch, AddTask, StartQueue, ActionReply, CompletionIdle, CancelQueue, RemoveFor,
      CancelAll, FinallyIdle, RemoveOne, Selects, Removable, Plain, Grows, Requests, Dwindles;
    match e
    case QueueAdded(_, _, _, _, _) =>
    case QueuesRemoved(sel, order) =>
      if i in order {
        var t := RemoveForReaches(s, sel, order, i);
        RemoveOneDwindles(t, sel, i);
        DwindlesKeeps(s.all[i], RemoveOne(t, sel, i).all[i], id, command);
      } else {
        RemoveForPasses(s, sel, order, i);
      }
    case QuitRequested(order) =>
      if s.running > 0 {
        QuitStart(s);
        if i in order {
          var t := CancelAllReaches(s.(quitting := true), order, i);
          CancelDwindles(t, i);
          DwindlesKeeps(s.all[i], CancelQueue(t, i).all[i], id, command);
        } else {
          CancelAllSpares(s.(quitting := true), order, i);
        }
      }
    case _ =>
      var j := StepTouches(s, e);
      if j == i { OwnRequests(s, e, i, id, command); }
  }

  lemma AddedLast(s: State, i: nat, command: Command)
    requires Inv(s) && i < |s.all|
    ensures
      var id, q, q' := |s.owner|, s.all[i], AddTask(s, i, command).all[i];
      && q'.tasks[..|q.tasks|] == q.tasks && |q'.tasks| == |q.tasks| + 1
      && q'.tasks[|q.tasks|].id == id && q'.log.added == q.log.added + [id]
      && q'.tasks[|q.tasks|].Service? == q.service
      && (!q.service ==> Requests(q', id, command) && q'.tasks[|q.tasks|].invocation)
  {
    hide Core, Settled, Shuffle;
    InvOfAdded(s, i);
    var id, q, q' := |s.owner|, s.all[i], AddTask(s, i, command).all[i];
    if !q.service {
      forall t | Present(q', t) && t.id == id
        ensures t.Client? && t.command == command
      {
        assert t in q.tasks ==> t.id != id;
      }
    }
  }

  /** The tasks there are have been added, so that their numbers are below the next one. */
  lemma InvOfAdded(s: State, i: nat)
    requires Inv(s) && i < |s.all|
    ensures forall t :: Present(s.all[i], t) ==> t.id < |s.owner|
  {
    hide Settled, Shuffle, Conserved, Answers, Phases;
    assert Linked(s, i);
    var q := s.all[i];
    forall t | Present(q, t)
      ensures t.id < |s.owner|
    {
      if t in q.tasks {
        var n :| 0 <= n < |q.tasks| && q.tasks[n] == t;
        assert Ids(q.tasks)[n] == q.log.added[Head(q) + n];
      } else {
        CurrentIsAdded(q);
      }
    }
  }

  /** The number of an added task is taken. */
  lemma AddedIsTaken(s: State, i: nat, id: nat)
    requires Inv(s) && i < |s.all| && id in s.all[i].log.added
    ensures id < |s.owner|
  {
    hide Settled, QueueInv;
    assert Linked(s, i);
    var n :| 0 <= n < |s.all[i].log.added| && s.all[i].log.added[n] == id;
  }

  /** A request is put at the end of its queue, unanswered; and in any later state, if it is waiting there or
      current, it is still the request for the command it was made for. */
  lemma {:induction false} CommandsAreKept(ss: seq<State>, es: seq<Event>, m: nat, n: nat)
    requires Run(ss, es) && m < n < |ss| && es[m].TaskAdded? && Live(ss[m], es[m].queue)
    ensures
      var i, id, q := es[m].queue, |ss[m].owner|, ss[m].all[es[m].queue];
      && i < |ss[m + 1].all| && |ss[m + 1].all[i].tasks| == |q.tasks| + 1
      && ss[m + 1].all[i].tasks[..|q.tasks|] == q.tasks && ss[m + 1].all[i].tasks[|q.tasks|].id == id
      && i < |ss[n].all| && id in ss[n].all[i].log.added
      && (!q.service ==> Requests(ss[n].all[i], id, es[m].command) && ss[m + 1].all[i].tasks[|q.tasks|].invocation)
    decreases n
  {
    hide Inv, Step, May, Safe, Live, Requests;
    var i, id := es[m].queue, |ss[m].owner|;
    RunKeepsInv(ss, es, m);
    LiveInRange(ss[m], i);
    TaskAddedIs(ss, es, m);
    AddedLast(ss[m], i, es[m].command);
    LastIsIn(ss[m].all[i].log.added, id);
    if n > m + 1 {
      CommandsAreKept(ss, es, m, n - 1);
      RunKeepsInv(ss, es, n - 1);
      AddedIsTaken(ss[n - 1], i, id);
      StepGrows(ss[n - 1], es[n - 1]);
      AddedStays(ss[n - 1], ss[n], i, id);
      if !ss[m].all[i].service { StepRequests(ss[n - 1], es[n - 1], i, id, es[m].command); }
    }
  }

  lemma LastIsIn(added: seq<nat>, id: nat)
    ensures id in added + [id]
  {
    assert (added + [id])[|added|] == id;
  }

  lemma AddedStays(s: State, s': State, i: nat, id: nat)
    requires AllGrow(s, s') && i < |s.all| && id in s.all[i].log.added
    ensures i < |s'.all| && id in s'.all[i].log.added
  {
    assert Grows(s.all[i], s'.all[i]);
    var n :| 0 <= n < |s.all[i].log.added| && s.all[i].log.added[n] == id;
    assert s'.all[i].log.added[n] == id;
  }

  lemma TaskAddedIs(ss: seq<State>, es: seq<Event>, m: nat)
    requires Run(ss, es) && m < |es| && es[m].TaskAdded?
    ensures es[m].queue < |ss[m].all| && ss[m + 1] == AddTask(ss[m], es[m].queue, es[m].command)
  {
    hide AddTask;
  }
}
