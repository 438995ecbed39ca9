/** Every event the main loop can deliver keeps the processor's invariant. */
module ProcessorSteps {
  import opened Options
  import opened TaskModel
  import opened QueueInvariant
  import opened ProcessorInvariant

  // ---------- a task is dispatched ----------

  /** The first half of the dispatch idle: the task is current and nothing has been done with it. */
  function Starting(s: State, i: nat): State
    requires i < |s.all| && s.all[i].tasks != []
  {
    Put(s, i, Begun(s.all[i])).(running := s.running + 1, dispatches := s.dispatches - multiset{i})
  }

  ghost predicate Dispatchable(s: State, i: nat) {
    Live(s, i) && i in s.dispatches && s.all[i].tasks != [] && s.all[i].current.None?
  }

  lemma IdleFacts(s: State, i: nat)
    requires Core(s) && i in s.dispatches
    ensures Dispatchable(s, i) && QueueInv(s.all[i]) && s.all[i].idle && Fresh(s.all[i].tasks[0], s.all[i].service)
  {
    assert Linked(s, i);
  }

  lemma NothingPending(s: State, i: nat)
    requires Core(s) && i < |s.all| && s.all[i].current.None?
    ensures forall id: nat :: id < |s.owner| && s.owner[id] == i ==> id !in s.actions && id !in s.completions
  {
    hide Core, Linked;
    QueueFacts(s, i);
  }

  lemma StartingLinked(s: State, i: nat)
    requires Core(s) && Dispatchable(s, i)
    ensures Linked(Starting(s, i), i) && Detached(Starting(s, i), i)
  {
    hide Core, QueueInv, Owned, Begun;
    IdleFacts(s, i);
    QueueFacts(s, i);
    NothingPending(s, i);
    BegunKeeps(s.all[i]);
    BegunShape(s.all[i]);
    OwnedSame(s.all[i], Begun(s.all[i]), i, s.owner);
    FirstIsOwned(s, i);
  }

  lemma BegunShape(q: Queue)
    requires q.tasks != []
    ensures Begun(q).current == Some(q.tasks[0]) && !Begun(q).idle && Begun(q).tasks == q.tasks[1..]
  {}

  lemma FirstIsOwned(s: State, i: nat)
    requires i < |s.all| && Linked(s, i) && s.all[i].tasks != []
    ensures s.all[i].tasks[0].id < |s.owner| && s.owner[s.all[i].tasks[0].id] == i
  {
    var q := s.all[i];
    assert Ids(q.tasks)[0] == q.log.added[Head(q)..][0];
  }

  lemma StartingLocal(s: State, i: nat)
    requires Core(s) && Dispatchable(s, i)
    ensures LocalChange(s, Starting(s, i), i, Begun(s.all[i]))
  {
    hide Core, Linked, QueueInv, Begun;
    IdleFacts(s, i);
    NothingPending(s, i);
    BegunKeeps(s.all[i]);
  }

  lemma StartingCore(s: State, i: nat)
    requires Core(s) && Dispatchable(s, i) && Settled(s)
    ensures Core(Starting(s, i)) && Touches(s, Starting(s, i), i)
    ensures SettledExcept(Starting(s, i), i)
    ensures Detached(Starting(s, i), i) && Live(Starting(s, i), i)
    ensures Starting(s, i).all[i].current.Some?
    ensures Fresh(Starting(s, i).all[i].current.value, s.all[i].service)
  {
    hide Core, Linked, LocalChange, Settled, SettledExcept, QueueInv, Fresh, Detached, Touches;
    IdleFacts(s, i);
    StartingLinked(s, i);
    StartingLocal(s, i);
    SettledWeaken(s, i);
    BegunShape(s.all[i]);
    CoreUpdate(s, Starting(s, i), i, Begun(s.all[i]));
  }

  // ---------- a task is processed ----------

  lemma AnsweredCurrent(s: State, i: nat, r: Reply, s': State)
    requires Core(s) && i < |s.all| && s.all[i].current.Some? && r != Died
    requires s' == s.(all := s.all[i := Ran(Replied(s.all[i], r))], completions := s'.completions)
    requires s.all[i].current.value.Client? && s.actions[s.all[i].current.value.id] == 0
    requires s'.completions[s.all[i].current.value.id] == 0
    requires forall x :: x != s.all[i].current.value.id ==> s'.completions[x] == s.completions[x]
    requires SettledExcept(s, i)
    ensures CurrentChange(s, s', i, s'.all[i]) && QueueInv(s'.all[i])
    ensures s'.all[i].current == Some(s.all[i].current.value.(invocation := false))
  {
    hide Core, QueueInv, Replied, Ran, Live;
    var q := s.all[i];
    CurrentIsLive(s, i);
    RepliedKeeps(q, r);
    RepliedCurrent(q, r);
    RanKeeps(Replied(q, r));
  }

  /** Answering the current task and completing it. */
  lemma AnswerCore(s: State, i: nat, r: Reply, s': State)
    requires Core(s) && i < |s.all| && s.all[i].current.Some? && r != Died
    requires s' == s.(all := s.all[i := Ran(Replied(s.all[i], r))], completions := s'.completions)
    requires s.all[i].current.value.Client? && s.actions[s.all[i].current.value.id] == 0
    requires s'.completions[s.all[i].current.value.id] == 0
    requires forall x :: x != s.all[i].current.value.id ==> s'.completions[x] == s.completions[x]
    requires SettledExcept(s, i)
    ensures Core(TaskCompleted(s', i)) && Settled(TaskCompleted(s', i)) && Touches(s, TaskCompleted(s', i), i)
    ensures s'.running > 0
  {
    hide Core, QueueInv, Replied, Ran, CurrentChange, Touches, SettledExcept, Settled, TaskCompleted, Live;
    AnsweredCurrent(s, i, r, s');
    CurrentUpdate(s, s', i, s'.all[i]);
    CurrentIsLive(s, i);
    TaskCompletedCore(s', i);
    TouchesTrans(s, s', TaskCompleted(s', i), i);
  }

  lemma FailedKeeps(q: Queue, failed: bool)
    requires QueueInv(q)
    ensures QueueInv(q.(log := q.log.(everFailed := failed)))
  {
    hide Shuffle;
  }

  lemma ServiceBegunQueue(q: Queue, t: Task, failed: bool)
    requires QueueInv(q) && q.current.Some? && q.current.value.Service? && t.Service? && t.id == q.current.value.id
    requires q.log.everFailed ==> failed
    ensures var q' := q.(current := Some(t), log := q.log.(everFailed := failed));
            QueueInv(q') && SameShape(q, q')
  {
    hide QueueInv;
    CurrentKeeps(q, t);
    FailedKeeps(q.(current := Some(t)), failed);
  }

  lemma ServiceBegunChange(s: State, i: nat, o: Outcome)
    requires Core(s) && i < |s.all| && s.all[i].current.Some? && s.all[i].current.value.Service? && Detached(s, i)
    ensures CurrentChange(s, ServiceBegun(s, i, o), i, ServiceBegun(s, i, o).all[i])
    ensures QueueInv(ServiceBegun(s, i, o).all[i])
    ensures o.failed || o.action ==> SettledQueue(ServiceBegun(s, i, o), ServiceBegun(s, i, o).all[i])
  {
    hide Core, QueueInv, Live, SameShape;
    var q := s.all[i];
    CurrentIsLive(s, i);
    ServiceBegunQueue(q, q.current.value.(action := o.action), q.log.everFailed || (o.failed && !o.action));
  }

  lemma RanChange(s: State, s': State, i: nat)
    requires Core(s) && i < |s.all| && s.all[i].current.Some?
    requires s' == s.(all := s.all[i := Ran(s.all[i])])
    ensures CurrentChange(s, s', i, s'.all[i]) && QueueInv(s'.all[i]) && s'.all[i].current == s.all[i].current
  {
    hide Core, QueueInv, Ran, Live;
    CurrentIsLive(s, i);
    RanKeeps(s.all[i]);
  }

  /** A service task that needed no action has run, and is completed. */
  lemma ServiceRanCore(s: State, i: nat)
    requires Core(s) && i < |s.all| && s.all[i].current.Some? && SettledExcept(s, i)
    requires s.all[i].current.value.Service? && !s.all[i].current.value.action
    ensures var s' := TaskCompleted(Put(s, i, Ran(s.all[i])), i);
            Core(s') && Settled(s') && Touches(s, s', i)
    ensures Put(s, i, Ran(s.all[i])).running > 0
  {
    hide Core, QueueInv, Ran, CurrentChange, Touches, SettledExcept, Settled, TaskCompleted, Live;
    var s1 := Put(s, i, Ran(s.all[i]));
    RanChange(s, s1, i);
    CurrentUpdate(s, s1, i, s1.all[i]);
    CurrentIsLive(s, i);
    TaskCompletedCore(s1, i);
    TouchesTrans(s, s1, TaskCompleted(s1, i), i);
  }

  lemma ServiceProcessCore(s: State, i: nat, o: Outcome)
    requires Core(s) && i < |s.all| && s.all[i].current.Some? && s.all[i].current.value.Service?
    requires Detached(s, i) && SettledExcept(s, i)
    ensures Core(Process(s, i, o)) && Settled(Process(s, i, o)) && Touches(s, Process(s, i, o), i)
  {
    hide Core, QueueInv, Ran, CurrentChange, Touches, SettledExcept, Settled, SettledQueue, Detached, Live,
      TaskCompleted, CancelQueue;
    var s1 := ServiceBegun(s, i, o);
    ServiceBegunChange(s, i, o);
    CurrentUpdate(s, s1, i, s1.all[i]);
    SettledSplit(s1, i);
    if o.failed {
      CancelQueueCore(s1, i);
      TouchesTrans(s, s1, CancelQueue(s1, i), i);
    } else if !o.action {
      ServiceRanCore(s1, i);
      TouchesTrans(s, s1, TaskCompleted(Put(s1, i, Ran(s1.all[i])), i), i);
    }
  }

  lemma ClientBegunChange(s: State, i: nat, o: Outcome)
    requires Core(s) && i < |s.all| && s.all[i].current.Some? && s.all[i].current.value.Client? && Detached(s, i)
    requires s.all[i].current.value.command == Deferred
    ensures CurrentChange(s, ClientBegun(s, i, o), i, ClientBegun(s, i, o).all[i])
    ensures QueueInv(ClientBegun(s, i, o).all[i])
    ensures SettledQueue(ClientBegun(s, i, o), ClientBegun(s, i, o).all[i])
  {
    hide Core, QueueInv, Live;
    CurrentIsLive(s, i);
    CurrentKeeps(s.all[i], ClientBegun(s, i, o).all[i].current.value);
  }

  lemma ClientProcessCore(s: State, i: nat, o: Outcome)
    requires Core(s) && i < |s.all| && s.all[i].current.Some? && s.all[i].current.value.Client?
    requires Detached(s, i) && SettledExcept(s, i)
    ensures Core(Process(s, i, o)) && Settled(Process(s, i, o)) && Touches(s, Process(s, i, o), i)
  {
    hide Core, QueueInv, Ran, Replied, CurrentChange, Touches, SettledExcept, Settled, SettledQueue, Live,
      TaskCompleted, ClientBegun;
    var t := s.all[i].current.value;
    if t.command == Deferred {
      ClientBegunChange(s, i, o);
      CurrentUpdate(s, ClientBegun(s, i, o), i, ClientBegun(s, i, o).all[i]);
      SettledSplit(ClientBegun(s, i, o), i);
    } else {
      var r := if t.command == Answered then Value else Error;
      AnswerCore(s, i, r, Put(s, i, Ran(Replied(s.all[i], r))));
    }
  }

  lemma DispatchCore(s: State, i: nat, o: Outcome)
    requires Inv(s) && Dispatchable(s, i)
    ensures Inv(Dispatch(s, i, o)) && Touches(s, Dispatch(s, i, o), i)
  {
    hide Core, Settled, SettledExcept, Touches, Live, Process, Detached;
    StartingCore(s, i);
    DispatchableFacts(s, i);
    var s1 := Starting(s, i);
    if s1.all[i].current.value.Service? {
      ServiceProcessCore(s1, i, o);
    } else {
      ClientProcessCore(s1, i, o);
    }
    TouchesTrans(s, s1, Process(s1, i, o), i);
  }

  lemma DispatchableFacts(s: State, i: nat)
    requires Dispatchable(s, i)
    ensures i < |s.all| && s.all[i].tasks != []
  {}

  // ---------- callbacks ----------

  /** A callback that is pending belongs to a task that is still its queue's current one. */
  lemma PendingFacts(s: State, id: nat)
    requires Inv(s) && (id in s.actions || id in s.completions)
    ensures Held(s, id) && Tied(s.all[s.owner[id]].current.value, s.actions[id], s.completions[id])
    ensures Live(s, s.owner[id]) && QueueInv(s.all[s.owner[id]])
    ensures id in s.completions ==> s.all[s.owner[id]].current.value.Client?
    ensures SettledQueue(s, s.all[s.owner[id]])
  {
    assert Held(s, id);
    CurrentIsLive(s, s.owner[id]);
  }

  lemma ServiceReplyChange(s: State, id: nat)
    requires Inv(s) && id in s.actions && Held(s, id) && s.all[s.owner[id]].current.value.Service?
    ensures
      var i := s.owner[id];
      var s1 := s.(all := s.all[i := s.all[i].(current := Some(s.all[i].current.value.(action := false)))],
                   actions := s.actions - multiset{id});
      CurrentChange(s, s1, i, s1.all[i]) && QueueInv(s1.all[i])
  {
    hide Inv, QueueInv, Live, SettledQueue;
    PendingFacts(s, id);
    var t := s.all[s.owner[id]].current.value;
    CurrentKeeps(s.all[s.owner[id]], t.(action := false));
  }

  lemma ServiceReplyCore(s: State, id: nat, ok: bool)
    requires Inv(s) && id in s.actions && Held(s, id) && s.all[s.owner[id]].current.value.Service?
    ensures Inv(ActionReply(s, id, ok)) && Touches(s, ActionReply(s, id, ok), s.owner[id])
  {
    hide Core, QueueInv, Ran, CurrentChange, Touches, SettledExcept, Settled, Live, TaskCompleted;
    var i := s.owner[id];
    var q1 := s.all[i].(current := Some(s.all[i].current.value.(action := false)));
    var s1 := s.(all := s.all[i := q1], actions := s.actions - multiset{id});
    ServiceReplyChange(s, id);
    CurrentUpdate(s, s1, i, q1);
    SettledSplit(s, i);
    ServiceRanCore(s1, i);
    assert s1.all[i := Ran(q1)] == s.all[i := Ran(q1)];
    TouchesTrans(s, s1, ActionReply(s, id, ok), i);
  }

  lemma ClientReplyChange(s: State, id: nat, ok: bool)
    requires Inv(s) && id in s.actions && Held(s, id) && s.all[s.owner[id]].current.value.Client?
    ensures CurrentChange(s, ActionReply(s, id, ok), s.owner[id], ActionReply(s, id, ok).all[s.owner[id]])
    ensures QueueInv(ActionReply(s, id, ok).all[s.owner[id]])
    ensures SettledQueue(ActionReply(s, id, ok), ActionReply(s, id, ok).all[s.owner[id]])
  {
    hide Inv, QueueInv, Live, TaskCompleted;
    PendingFacts(s, id);
    CurrentKeeps(s.all[s.owner[id]], ActionReply(s, id, ok).all[s.owner[id]].current.value);
  }

  lemma ActionReplyCore(s: State, id: nat, ok: bool)
    requires Inv(s) && id in s.actions && Held(s, id)
    ensures Inv(ActionReply(s, id, ok)) && Touches(s, ActionReply(s, id, ok), s.owner[id])
  {
    hide Core, QueueInv, CurrentChange, Touches, SettledExcept, Settled, SettledQueue, Live, TaskCompleted, ActionReply;
    var i := s.owner[id];
    if s.all[i].current.value.Service? {
      ServiceReplyCore(s, id, ok);
    } else {
      var s' := ActionReply(s, id, ok);
      ClientReplyChange(s, id, ok);
      SettledSplit(s, i);
      CurrentUpdate(s, s', i, s'.all[i]);
      CurrentInRange(s', i);
      SettledSplit(s', i);
    }
  }

  lemma CurrentInRange(s: State, i: nat)
    requires Live(s, i)
    ensures i < |s.all|
  {}

  lemma CompletionCore(s: State, id: nat)
    requires Inv(s) && id in s.completions && Held(s, id) && s.all[s.owner[id]].current.value.Client?
    ensures Inv(CompletionIdle(s, id)) && Touches(s, CompletionIdle(s, id), s.owner[id])
  {
    hide Core, QueueInv, Ran, Replied, Touches, SettledExcept, Settled, SettledQueue, Live, TaskCompleted;
    var i := s.owner[id];
    var q := s.all[i];
    PendingFacts(s, id);
    SettledSplit(s, i);
    var r := if q.current.value.failed then Error else Value;
    AnswerCore(s, i, r, s.(all := s.all[i := Ran(Replied(q, r))], completions := s.completions - multiset{id}));
  }

  // ---------- adding ----------

  lemma OwnedAdded(q: Queue, q': Queue, i: nat, owner: seq<nat>)
    requires Owned(q, i, owner) && q'.log.added == q.log.added + [|owner|]
    ensures Owned(q', i, owner + [i])
  {}

  lemma AddTaskQueue(q: Queue, id: nat, command: Command, idle: bool)
    requires QueueInv(q)
    requires idle ==> q.current.None? && !q.deferRemove
    ensures QueueInv(q.(tasks := q.tasks + [NewTask(q.service, id, command)], idle := idle,
                        log := q.log.(added := q.log.added + [id])))
  {
    hide QueueInv, NewTask;
    AddedKeeps(q, id, command);
    IdleKeeps(q.(tasks := q.tasks + [NewTask(q.service, id, command)], log := q.log.(added := q.log.added + [id])),
      idle);
  }

  lemma AddTaskFacts(q: Queue, q': Queue, id: nat, command: Command)
    requires QueueInv(q)
    requires q' == q.(tasks := q.tasks + [NewTask(q.service, id, command)], idle := q.idle || (q.autoStart && Wakes(q)),
                      log := q.log.(added := q.log.added + [id]))
    requires (Waiting(q) ==> q.idle) && (q.autoRemove && q.log.primed ==> q.tasks != [] || q.current.Some?)
    ensures (Waiting(q') ==> q'.idle) && !(q.idle && Wakes(q))
  {
    hide InOrder, Conserved, Answers;
  }

  lemma AddTaskLinked(s: State, i: nat, command: Command)
    requires Core(s) && Live(s, i)
    ensures Linked(AddTask(s, i, command), i)
  {
    hide Core, QueueInv, Owned, NewTask, Waiting, Wakes;
    QueueFacts(s, i);
    var q := s.all[i];
    var q' := AddTask(s, i, command).all[i];
    WakesFacts(q);
    AddTaskQueue(q, |s.owner|, command, q.idle || (q.autoStart && Wakes(q)));
    if !s.quitting { AddTaskFacts(q, q', |s.owner|, command); }
    OwnedAdded(q, q', i, s.owner);
    NewIsQuiet(s);
    CurrentIsOld(s, i);
  }

  lemma WakesFacts(q: Queue)
    requires QueueInv(q)
    ensures q.idle || Wakes(q) ==> q.current.None? && !q.deferRemove
    ensures !(q.idle && Wakes(q))
  {
    hide InOrder, Conserved, Answers;
  }

  lemma NewIsQuiet(s: State)
    requires Core(s)
    ensures |s.owner| !in s.actions && |s.owner| !in s.completions
  {
    assert |s.owner| in s.actions || |s.owner| in s.completions ==> Held(s, |s.owner|);
  }

  lemma CurrentIsOld(s: State, i: nat)
    requires Core(s) && i < |s.all|
    ensures s.all[i].current.Some? ==> s.all[i].current.value.id < |s.owner|
  {
    if s.all[i].current.Some? { OwnerOfCurrent(s, i); }
  }

  lemma AddTaskLocal(s: State, i: nat, command: Command)
    requires Core(s) && Live(s, i)
    ensures LocalChange(s, AddTask(s, i, command), i, AddTask(s, i, command).all[i])
  {
    hide Core, Linked;
    QueueFacts(s, i);
  }

  lemma AddTaskCore(s: State, i: nat, command: Command)
    requires Inv(s) && Live(s, i)
    ensures Inv(AddTask(s, i, command)) && Touches(s, AddTask(s, i, command), i)
  {
    hide Core, Linked, LocalChange, Settled, SettledExcept, SettledQueue, Touches;
    var s' := AddTask(s, i, command);
    AddTaskLinked(s, i, command);
    AddTaskLocal(s, i, command);
    ShutdownHolds(s);
    SettledSplit(s, i);
    SettledSplit(s', i);
    SettledSame(s, s', i);
    CoreUpdate(s, s', i, s'.all[i]);
  }

  lemma SettledSame(s: State, s': State, i: nat)
    requires i < |s.all| && i < |s'.all|
    requires s'.all[i].current == s.all[i].current && s'.all[i].log.everFailed == s.all[i].log.everFailed
    requires s'.actions == s.actions && s'.completions == s.completions
    requires SettledQueue(s, s.all[i])
    ensures SettledQueue(s', s'.all[i])
  {}

  lemma StartQueueKeeps(q: Queue, idle: bool, started: bool)
    requires QueueInv(q)
    requires idle ==> q.tasks != [] && q.current.None? && !q.deferRemove
    ensures QueueInv(q.(idle := idle, log := q.log.(primed := started)))
  {
    hide Shuffle;
  }

  lemma StartedFacts(q: Queue, q': Queue)
    requires QueueInv(q) && q.tasks != []
    requires q' == q.(idle := q.idle || Wakes(q), log := q.log.(primed := q.log.primed || !q.deferRemove))
    ensures QueueInv(q') && (Waiting(q') ==> q'.idle) && (q'.idle == (q.idle || Wakes(q))) && !(q.idle && Wakes(q))
    ensures q'.idle ==> q'.current.None?
  {
    hide InOrder, Conserved, Answers;
    StartQueueKeeps(q, q.idle || Wakes(q), q.log.primed || !q.deferRemove);
  }

  lemma StartLinked(s: State, i: nat)
    requires Core(s) && Live(s, i) && s.all[i].tasks != []
    ensures Linked(StartQueue(s, i), i)
  {
    hide Core, QueueInv, Owned, Wakes, Waiting;
    QueueFacts(s, i);
    var q := s.all[i];
    StartedFacts(q, StartQueue(s, i).all[i]);
    OwnedSame(q, StartQueue(s, i).all[i], i, s.owner);
  }

  lemma StartLocal(s: State, i: nat)
    requires Core(s) && Live(s, i)
    ensures LocalChange(s, StartQueue(s, i), i, StartQueue(s, i).all[i])
  {
    hide Core, Linked;
    QueueFacts(s, i);
  }

  lemma StartCore(s: State, i: nat)
    requires Inv(s) && Live(s, i) && s.all[i].tasks != []
    ensures Inv(StartQueue(s, i)) && Touches(s, StartQueue(s, i), i)
  {
    hide Core, Linked, LocalChange, Settled, SettledExcept, SettledQueue, Touches;
    var s' := StartQueue(s, i);
    StartLinked(s, i);
    StartLocal(s, i);
    ShutdownHolds(s);
    SettledSplit(s, i);
    SettledSplit(s', i);
    SettledSame(s, s', i);
    CoreUpdate(s, s', i, s'.all[i]);
  }

  lemma AddQueueLinked(s: State, s': State, j: nat)
    requires Core(s) && j < |s.all|
    requires |s'.all| == |s.all| + 1 && s'.all == s.all + [s'.all[|s.all|]]
    requires s'.all[|s.all|].key !in s.table && s'.table == s.table[s'.all[|s.all|].key := |s.all|]
    requires s' == s.(all := s'.all, table := s'.table)
    ensures Linked(s', j)
  {
    hide QueueInv, Owned;
    assert Linked(s, j);
    assert Live(s', j) <==> Live(s, j);
  }

  lemma NewQueueLinked(s: State, key: QueueKey, autoStart: bool, autoRemove: bool, service: bool, hasFinally: bool)
    requires Core(s) && key !in s.table
    ensures Linked(AddQueue(s, key, autoStart, autoRemove, service, hasFinally), |s.all|)
  {
    assert s.dispatches[|s.all|] == 0 && s.finallies[|s.all|] == 0;
  }

  lemma AddQueueAllLinked(s: State, s': State)
    requires Core(s)
    requires |s'.all| == |s.all| + 1 && s'.all == s.all + [s'.all[|s.all|]]
    requires s'.all[|s.all|].key !in s.table && s'.table == s.table[s'.all[|s.all|].key := |s.all|]
    requires s' == s.(all := s'.all, table := s'.table)
    requires Linked(s', |s.all|)
    ensures forall j: nat :: j < |s'.all| ==> Linked(s', j)
  {
    hide Core, Linked;
    forall j: nat | j < |s'.all|
      ensures Linked(s', j)
    {
      if j < |s.all| { AddQueueLinked(s, s', j); }
    }
  }

  lemma AddQueueHeld(s: State, s': State)
    requires forall id :: id in s.actions || id in s.completions ==> Held(s, id)
    requires s'.owner == s.owner && s'.actions == s.actions && s'.completions == s.completions && s.all <= s'.all
    ensures forall id :: id in s'.actions || id in s'.completions ==> Held(s', id)
  {
    forall id | id in s'.actions || id in s'.completions
      ensures Held(s', id)
    {
      assert Held(s, id);
    }
  }

  lemma AddQueueCore(s: State, key: QueueKey, autoStart: bool, autoRemove: bool, service: bool, hasFinally: bool)
    requires Inv(s) && key !in s.table
    ensures Inv(AddQueue(s, key, autoStart, autoRemove, service, hasFinally))
  {
    hide Linked, Held, SettledQueue;
    var s' := AddQueue(s, key, autoStart, autoRemove, service, hasFinally);
    NewQueueLinked(s, key, autoStart, autoRemove, service, hasFinally);
    AddQueueAllLinked(s, s');
    AddQueueHeld(s, s');
    assert s'.all[..|s'.all|-1] == s.all;
    AddQueueSettled(s, s');
  }

  lemma AddQueueSettled(s: State, s': State)
    requires Settled(s)
    requires |s'.all| == |s.all| + 1 && s'.all == s.all + [s'.all[|s.all|]] && s'.all[|s.all|].current.None?
    requires s'.actions == s.actions && s'.completions == s.completions
    ensures Settled(s')
  {}

  // ---------- removing queues and quitting ----------

  /** A self-removing queue without a current task is removed when it is cancelled, so that a walk that then
      removes it would do so twice. */
  predicate Removable(q: Queue) {
    q.autoRemove ==> q.current.Some? || q.deferRemove
  }

  /** A walk removes a queue that is not at work: it is still in the table, after the cancel that comes first,
      exactly if it is removable. */
  lemma RemovedOnce(s: State, i: nat)
    requires Core(s) && Live(s, i) && s.all[i].current.None? && !s.all[i].deferRemove
    ensures Live(CancelQueue(s, i), i) <==> Removable(s.all[i])
  {
    hide Core;
    QueueFacts(s, i);
  }

  lemma DeferringKeeps(q: Queue)
    requires QueueInv(q) && q.current.Some?
    ensures QueueInv(Deferring(q))
  {
    hide Shuffle;
  }

  lemma DeferringLinked(s: State, i: nat)
    requires Core(s) && Live(s, i) && s.all[i].current.Some?
    ensures Linked(Put(s, i, Deferring(s.all[i])), i)
  {
    hide Core, QueueInv, Owned;
    QueueFacts(s, i);
    DeferringKeeps(s.all[i]);
    OwnedSame(s.all[i], Deferring(s.all[i]), i, s.owner);
  }

  lemma DeferringCore(s: State, i: nat)
    requires Inv(s) && Live(s, i) && s.all[i].current.Some?
    ensures Inv(Put(s, i, Deferring(s.all[i]))) && Touches(s, Put(s, i, Deferring(s.all[i])), i)
    ensures Live(Put(s, i, Deferring(s.all[i])), i)
  {
    hide Core, Linked, Settled, SettledExcept, SettledQueue, Touches;
    var s' := Put(s, i, Deferring(s.all[i]));
    DeferringLinked(s, i);
    QueueFacts(s, i);
    ShutdownHolds(s);
    SettledSplit(s, i);
    SettledSplit(s', i);
    SettledSame(s, s', i);
    CoreUpdate(s, s', i, Deferring(s.all[i]));
  }

  lemma RemoveOneCore(s: State, sel: Selector, i: nat)
    requires Inv(s) && Live(s, i)
    requires Selects(sel, s.all[i].key) ==> Removable(s.all[i])
    ensures Inv(RemoveOne(s, sel, i)) && Touches(s, RemoveOne(s, sel, i), i)
  {
    hide Core, Settled, SettledExcept, SettledQueue, Touches, Live, CancelQueue, RemoveQueue, Emptied, Selects;
    LiveInRange(s, i);
    var q := s.all[i];
    if !Selects(sel, q.key) || q.deferRemove {
      TouchesRefl(s, i);
    } else if q.current.Some? {
      var s0 := Put(s, i, Deferring(q));
      DeferringCore(s, i);
      CancelQueueCore(s0, i);
      TouchesTrans(s, s0, CancelQueue(s0, i), i);
    } else {
      assert Put(s, i, Deferring(q)) == s;
      CancelQueueCore(s, i);
      EmptiedCore(s, i);
      SettledWeaken(s, i);
      RemoveCore(Emptied(s, i), i);
      TouchesTrans(s, Emptied(s, i), RemoveQueue(Emptied(s, i), i), i);
    }
  }

  /** An order in which a walk over the hash table may visit the queues: each live one once. */
  ghost predicate Walk(s: State, order: seq<nat>) {
    NoDup(order) && (forall n :: 0 <= n < |order| ==> Live(s, order[n]))
  }

  lemma WalkGoesOn(s: State, s': State, order: seq<nat>)
    requires order != [] && Walk(s, order) && Touches(s, s', order[0])
    ensures Walk(s', order[1..]) && |s'.all| == |s.all|
    ensures forall n :: 0 <= n < |order[1..]| ==> s'.all[order[1..][n]] == s.all[order[1..][n]]
  {
    forall n | 0 <= n < |order[1..]|
      ensures Live(s', order[1..][n]) && s'.all[order[1..][n]] == s.all[order[1..][n]]
    {
      assert order[1..][n] == order[n + 1];
    }
  }

  lemma {:induction false} RemoveForCore(s: State, sel: Selector, order: seq<nat>)
    requires Inv(s) && Walk(s, order)
    requires forall n :: 0 <= n < |order| && Selects(sel, s.all[order[n]].key) ==> Removable(s.all[order[n]])
    ensures Inv(RemoveFor(s, sel, order))
    decreases |order|
  {
    hide Core, Settled, RemoveOne, Touches;
    if order != [] {
      var s1 := RemoveOne(s, sel, order[0]);
      RemoveOneCore(s, sel, order[0]);
      WalkGoesOn(s, s1, order);
      RemoveForCore(s1, sel, order[1..]);
    }
  }

  lemma {:induction false} CancelAllCore(s: State, order: seq<nat>)
    requires Inv(s) && Walk(s, order)
    ensures Inv(CancelAll(s, order))
    decreases |order|
  {
    hide Core, Settled, CancelQueue, Touches;
    if order != [] {
      var s1 := CancelQueue(s, order[0]);
      CancelQueueCore(s, order[0]);
      WalkGoesOn(s, s1, order);
      CancelAllCore(s1, order[1..]);
    }
  }

  /** Setting the quitting flag, with a quit idle when nothing is running. */
  lemma QuittingCore(s: State, quits: nat)
    requires Inv(s) && quits >= s.quits
    requires s.running > 0 || quits > 0
    ensures Inv(s.(quitting := true, quits := quits))
  {
    hide QueueInv, Owned;
    var s' := s.(quitting := true, quits := quits);
    forall i: nat | i < |s'.all|
      ensures Linked(s', i)
    {
      assert Linked(s, i);
      assert Live(s', i) == Live(s, i);
    }
    forall id | id in s'.actions || id in s'.completions
      ensures Held(s', id)
    {
      assert Held(s, id);
    }
    assert Settled(s') by {
      forall i: nat | i < |s'.all| ensures SettledQueue(s', s'.all[i]) { assert SettledQueue(s, s.all[i]); }
    }
  }

  lemma SetQuittingCore(s: State, order: seq<nat>)
    requires Inv(s) && Walk(s, order)
    ensures Inv(SetQuitting(s, order))
  {
    hide Core, Settled;
    if s.running > 0 {
      var s1 := s.(quitting := true);
      QuittingCore(s, s.quits);
      CancelAllCore(s1, order);
    } else {
      QuittingCore(s, s.quits + 1);
    }
  }

  // ---------- the finally idle ----------

  lemma FinallyLinked(s: State, i: nat)
    requires Core(s) && i < |s.all| && i in s.finallies
    ensures Linked(FinallyIdle(s, i), i)
    ensures s.all[i].log.finals == [] && !Live(s, i)
  {
    hide Core, Owned;
    QueueFacts(s, i);
    assert i < |s.all|;
    var q := s.all[i];
    assert QueueInv(FinallyIdle(s, i).all[i]) by { FinalsKeeps(q, q.log.finals + [q.cancelled]); }
    OwnedSame(q, FinallyIdle(s, i).all[i], i, s.owner);
  }

  lemma FinalsKeeps(q: Queue, finals: seq<bool>)
    requires QueueInv(q)
    ensures QueueInv(q.(log := q.log.(finals := finals)))
  {
    hide Shuffle;
  }

  lemma FinallyCore(s: State, i: nat)
    requires Inv(s) && i in s.finallies
    ensures i < |s.all| && Inv(FinallyIdle(s, i)) && Touches(s, FinallyIdle(s, i), i)
  {
    hide Linked, Settled, SettledExcept, SettledQueue, Touches, Held;
    assert i < |s.all|;
    var s' := FinallyIdle(s, i);
    FinallyLinked(s, i);
    QueueFacts(s, i);
    SettledSplit(s, i);
    SettledSplit(s', i);
    SettledSame(s, s', i);
    CoreUpdate(s, s', i, s'.all[i]);
  }
}
