/** Events, runs, and what every event does to the amount of work left and to the quit idle. */
module ProcessorRuns {
  import opened Options
  import opened TaskModel
  import opened QueueInvariant
  import opened ProcessorInvariant
  import opened ProcessorSteps

  /** Calls into the processor and callbacks from the main loop and from GUPnP. */
  datatype Event =
    | QueueAdded(key: QueueKey, autoStart: bool, autoRemove: bool, service: bool, hasFinally: bool)
    | TaskAdded(queue: nat, command: Command)
    | QueueStarted(queue: nat)
    | DispatchRuns(queue: nat, outcome: Outcome)
    | ActionEnds(task: nat, ok: bool)
    | CompletionRuns(task: nat)
    | QueueCancelled(queue: nat)
    | QueuesRemoved(sel: Selector, order: seq<nat>)
    | QuitRequested(order: seq<nat>)
    | FinallyRuns(queue: nat)

  /** Queues of client requests, the only ones whose sources and sinks the callers name. */
  predicate Plain(q: Queue) {
    !q.service && !q.autoRemove
  }

  /** A walk that misses no queue. */
  ghost predicate FullWalk(s: State, order: seq<nat>) {
    Walk(s, order) && (forall i: nat :: Live(s, i) ==> i in order)
  }

  /** What the outside world may do: callers pass queues they can look up, and a callback comes only if
      its source is pending. */
  ghost predicate May(s: State, e: Event) {
    match e
    case QueueAdded(key, _, _, _, _) => key !in s.table
    case TaskAdded(i, _) => Live(s, i)
    case QueueStarted(i) => Live(s, i) && s.all[i].tasks != []
    case DispatchRuns(i, _) => i in s.dispatches
    case ActionEnds(id, _) => id in s.actions
    case CompletionRuns(id) => id in s.completions
    case QueueCancelled(i) => Live(s, i)
    case QueuesRemoved(sel, order) =>
      FullWalk(s, order) && forall i: nat :: Live(s, i) && Selects(sel, s.all[i].key) ==> Plain(s.all[i])
    case QuitRequested(order) => FullWalk(s, order)
    case FinallyRuns(i) => i in s.finallies
  }

  /** What the C code takes for granted when it handles an event: the queue it looks up is in the table,
      the list it takes the first task from is not empty, the task a callback was given is still the
      current one of its queue, the running counter can be decremented, a queue that a walk removes was not
      removed by being cancelled. */
  predicate Safe(s: State, e: Event) {
    match e
    case QueueAdded(_, _, _, _, _) => true
    case TaskAdded(i, _) => Live(s, i)
    case QueueStarted(i) => Live(s, i)
    case DispatchRuns(i, _) => Live(s, i) && s.all[i].tasks != [] && s.all[i].current.None?
    case ActionEnds(id, _) =>
      && id < |s.owner| && Live(s, s.owner[id]) && Holds(s.all[s.owner[id]], id)
      && (s.all[s.owner[id]].current.value.Service? ==> s.running > 0)
    case CompletionRuns(id) =>
      && id < |s.owner| && Live(s, s.owner[id]) && Holds(s.all[s.owner[id]], id)
      && s.all[s.owner[id]].current.value.Client? && s.running > 0
    case QueueCancelled(i) => Live(s, i)
    case QueuesRemoved(sel, order) =>
      forall n :: 0 <= n < |order| ==>
        order[n] < |s.all| && (Selects(sel, s.all[order[n]].key) ==> Removable(s.all[order[n]]))
    case QuitRequested(order) => forall n :: 0 <= n < |order| ==> order[n] < |s.all|
    case FinallyRuns(i) => i < |s.all| && !Live(s, i)
  }

  function Step(s: State, e: Event): State
    requires Safe(s, e)
  {
    match e
    case QueueAdded(key, autoStart, autoRemove, service, hasFinally) =>
      AddQueue(s, key, autoStart, autoRemove, service, hasFinally)
    case TaskAdded(i, command) => AddTask(s, i, command)
    case QueueStarted(i) => StartQueue(s, i)
    case DispatchRuns(i, o) => Dispatch(s, i, o)
    case ActionEnds(id, ok) => ActionReply(s, id, ok)
    case CompletionRuns(id) => CompletionIdle(s, id)
    case QueueCancelled(i) => CancelQueue(s, i)
    case QueuesRemoved(sel, order) => RemoveFor(s, sel, order)
    case QuitRequested(order) => SetQuitting(s, order)
    case FinallyRuns(i) => FinallyIdle(s, i)
  }

  /** ss are the states of a run of the processor with events es, from a start with no queues. */
  ghost predicate Run(ss: seq<State>, es: seq<Event>) {
    && |ss| == |es| + 1 && ss[0] == INITIAL
    && forall n :: 0 <= n < |es| ==> May(ss[n], es[n]) && Safe(ss[n], es[n]) && ss[n + 1] == Step(ss[n], es[n])
  }

  /** Nothing the C code takes for granted ever fails: in a reachable state every event that can come is
      handled without touching a missing queue, an empty list, a finished task or a zero counter. */
  lemma MayIsSafe(s: State, e: Event)
    requires Inv(s) && May(s, e)
    ensures Safe(s, e)
  {
    hide Core, Settled, QueueInv, SettledQueue;
    match e
    case DispatchRuns(i, _) => IdleFacts(s, i);
    case ActionEnds(id, _) => PendingFacts(s, id); CurrentIsLive(s, s.owner[id]);
    case CompletionRuns(id) => PendingFacts(s, id); CurrentIsLive(s, s.owner[id]);
    case FinallyRuns(i) => FinallyFacts(s, i);
    case _ =>
  }

  lemma FinallyFacts(s: State, i: nat)
    requires Core(s) && i in s.finallies
    ensures i < |s.all| && !Live(s, i)
  {
    assert Linked(s, i);
  }

  lemma StepKeepsInv(s: State, e: Event)
    requires Inv(s) && May(s, e) && Safe(s, e)
    ensures Inv(Step(s, e))
  {
    hide Core, Settled, AddQueue, AddTask, StartQueue, Dispatch, ActionReply, CompletionIdle, CancelQueue, RemoveFor,
      SetQuitting, FinallyIdle, Touches;
    match e
    case QueueAdded(key, autoStart, autoRemove, service, hasFinally) =>
      AddQueueCore(s, key, autoStart, autoRemove, service, hasFinally);
    case TaskAdded(i, command) => AddTaskCore(s, i, command);
    case QueueStarted(i) => StartCore(s, i);
    case DispatchRuns(i, o) => DispatchCore(s, i, o);
    case ActionEnds(id, ok) => ActionReplyCore(s, id, ok);
    case CompletionRuns(id) => CompletionCore(s, id);
    case QueueCancelled(i) => CancelQueueCore(s, i);
    case QueuesRemoved(sel, order) => RemoveForCore(s, sel, order);
    case QuitRequested(order) => SetQuittingCore(s, order);
    case FinallyRuns(i) => FinallyCore(s, i);
  }

  lemma InitialInv()
    ensures Inv(INITIAL)
  {}

  /** The invariant holds in every state of every run. */
  lemma {:induction false} RunKeepsInv(ss: seq<State>, es: seq<Event>, n: nat)
    requires Run(ss, es) && n < |ss|
    ensures Inv(ss[n])
    decreases n
  {
    hide Inv, Step;
    if n == 0 {
      InitialInv();
    } else {
      RunKeepsInv(ss, es, n - 1);
      StepKeepsInv(ss[n - 1], es[n - 1]);
    }
  }

  // ---------- how work and the quit idle change ----------

  /** Cancelling and completing never add work or start tasks, and ask to quit at most once, and only
      at the moment the last running task goes. */
  ghost predicate Calms(s: State, s': State) {
    && Total(s'.all, Work) <= Total(s.all, Work)
    && s'.running <= s.running && s'.quitting == s.quitting
    && (s'.quits == s.quits || (s'.quits == s.quits + 1 && s.quitting && s.running > 0 && s'.running == 0))
  }

  lemma AfterEndWork(q: Queue, next: Next)
    requires q.current.Some?
    ensures Work(AfterEnd(q, next)) < Work(q)
  {}

  lemma TaskCompletedCalms(s: State, i: nat)
    requires i < |s.all| && s.all[i].current.Some? && s.running > 0
    ensures Calms(s, TaskCompleted(s, i)) && Total(TaskCompleted(s, i).all, Work) < Total(s.all, Work)
  {
    hide AfterEnd, NextFor, Work;
    var next := NextFor(s.all[i], s.quitting && Decrement(s.running) == 0);
    AfterEndWork(s.all[i], next);
    QuitIsLast(s.all[i], s.quitting && Decrement(s.running) == 0);
    TotalUpdate(s.all, i, AfterEnd(s.all[i], next), Work);
  }

  lemma QuitIsLast(q: Queue, quit: bool)
    ensures NextFor(q, quit) == Quit ==> quit
  {}

  lemma CancelCurrentCalms(s: State, i: nat)
    requires i < |s.all| && s.all[i].current.Some? && s.running > 0
    ensures Calms(s, CancelCurrent(s, i))
  {
    hide TaskCompleted, Reachable, Cancelling;
    var q := s.all[i];
    TotalUpdate(s.all, i, CancelCurrent(s, i).all[i], Work);
    var t := q.current.value;
    if t.Service? && t.action {
      var q1 := q.(current := Some(t.(action := false)));
      TotalUpdate(s.all, i, q1, Work);
      TaskCompletedCalms(Put(s, i, q1).(actions := s.actions - multiset{t.id}), i);
    }
  }

  lemma RemoveCalms(s: State, i: nat)
    requires i < |s.all|
    ensures Calms(s, RemoveQueue(s, i))
  {
    TotalUpdate(s.all, i, Freed(s.all[i]), Work);
  }

  lemma CancelQueueCalms(s: State, i: nat)
    requires i < |s.all| && (s.all[i].current.Some? ==> s.running > 0)
    ensures Calms(s, CancelQueue(s, i))
  {
    hide CancelCurrent, RemoveQueue;
    TotalUpdate(s.all, i, Dropped(s.all[i]), Work);
    var s1 := Emptied(s, i);
    if s.all[i].current.Some? {
      CancelCurrentCalms(s1, i);
    } else {
      RemoveCalms(s1, i);
    }
  }

  lemma RemoveOneCalms(s: State, sel: Selector, i: nat)
    requires i < |s.all| && (s.all[i].current.Some? ==> s.running > 0)
    ensures Calms(s, RemoveOne(s, sel, i))
  {
    hide CancelQueue, RemoveQueue;
    var q := s.all[i];
    var s0 := Put(s, i, Deferring(q));
    TotalUpdate(s.all, i, Deferring(q), Work);
    CancelQueueCalms(s0, i);
    RemoveCalms(CancelQueue(s0, i), i);
  }

  lemma {:induction false} RemoveForCalms(s: State, sel: Selector, order: seq<nat>)
    requires Inv(s) && Walk(s, order)
    requires forall n :: 0 <= n < |order| && Selects(sel, s.all[order[n]].key) ==> Removable(s.all[order[n]])
    ensures Calms(s, RemoveFor(s, sel, order))
    decreases |order|
  {
    hide Core, Settled, RemoveOne, Touches;
    if order != [] {
      var s1 := RemoveOne(s, sel, order[0]);
      QueueFacts(s, order[0]);
      RemoveOneCalms(s, sel, order[0]);
      RemoveOneCore(s, sel, order[0]);
      WalkGoesOn(s, s1, order);
      RemoveForCalms(s1, sel, order[1..]);
    }
  }

  lemma {:induction false} CancelAllCalms(s: State, order: seq<nat>)
    requires Inv(s) && Walk(s, order)
    ensures Calms(s, CancelAll(s, order))
    decreases |order|
  {
    hide Core, Settled, CancelQueue, Touches, Linked;
    if order != [] {
      var s1 := CancelQueue(s, order[0]);
      QueueFacts(s, order[0]);
      CancelQueueCalms(s, order[0]);
      CancelQueueCore(s, order[0]);
      WalkGoesOn(s, s1, order);
      CancelAllCalms(s1, order[1..]);
    }
  }

  /** Changing the current task is no work, and completing it then is. */
  lemma ChangedCalms(s: State, s1: State, i: nat)
    requires i < |s.all| && s.all[i].current.Some? && s.running > 0 && i < |s1.all|
    requires s1.all == s.all[i := s1.all[i]] && s1.all[i].tasks == s.all[i].tasks && s1.all[i].current.Some?
    requires s1.running == s.running && s1.quitting == s.quitting && s1.quits == s.quits
    ensures Calms(s, s1)
    ensures Calms(s, TaskCompleted(s1, i)) && Total(TaskCompleted(s1, i).all, Work) < Total(s.all, Work)
  {
    hide TaskCompleted;
    TotalUpdate(s.all, i, s1.all[i], Work);
    TaskCompletedCalms(s1, i);
  }

  lemma AnsweredSame(q: Queue, r: Reply)
    requires q.current.Some?
    ensures Ran(Replied(q, r)).current.Some? && Ran(Replied(q, r)).tasks == q.tasks
  {}

  lemma ClientProcessCalms(s: State, i: nat, o: Outcome)
    requires i < |s.all| && s.all[i].current.Some? && s.running > 0 && s.all[i].current.value.Client?
    ensures Calms(s, Process(s, i, o))
  {
    hide CancelQueue, TaskCompleted, Calms, Ran, Replied;
    var q := s.all[i];
    if q.current.value.command == Deferred {
      ChangedCalms(s, ClientBegun(s, i, o), i);
    } else {
      var r := if q.current.value.command == Answered then Value else Error;
      AnsweredSame(q, r);
      ChangedCalms(s, Put(s, i, Ran(Replied(q, r))), i);
    }
  }

  lemma CalmsTrans(s: State, s1: State, s2: State)
    requires Calms(s, s1) && Calms(s1, s2) && s1.running == s.running && s1.quits == s.quits
    ensures Calms(s, s2)
  {}

  lemma ServiceProcessCalms(s: State, i: nat, o: Outcome)
    requires i < |s.all| && s.all[i].current.Some? && s.running > 0 && s.all[i].current.value.Service?
    ensures Calms(s, Process(s, i, o))
  {
    hide CancelQueue, TaskCompleted, Calms, Ran;
    var s1 := ServiceBegun(s, i, o);
    ChangedCalms(s, s1, i);
    if o.failed {
      CancelQueueCalms(s1, i);
      CalmsTrans(s, s1, CancelQueue(s1, i));
    } else if !o.action {
      RanSame(s1.all[i]);
      ChangedCalms(s, Put(s1, i, Ran(s1.all[i])), i);
    }
  }

  lemma RanSame(q: Queue)
    ensures Ran(q).current == q.current && Ran(q).tasks == q.tasks
  {}

  lemma ProcessCalms(s: State, i: nat, o: Outcome)
    requires i < |s.all| && s.all[i].current.Some? && s.running > 0
    ensures Calms(s, Process(s, i, o))
  {
    hide Process, Calms;
    if s.all[i].current.value.Service? {
      ServiceProcessCalms(s, i, o);
    } else {
      ClientProcessCalms(s, i, o);
    }
  }

  lemma DispatchCalms(s: State, i: nat, o: Outcome)
    requires i < |s.all| && s.all[i].tasks != [] && s.all[i].current.None?
    ensures Total(Dispatch(s, i, o).all, Work) < Total(s.all, Work)
    ensures QuitRight(s, Dispatch(s, i, o))
  {
    hide Process;
    TotalUpdate(s.all, i, Begun(s.all[i]), Work);
    ProcessCalms(Starting(s, i), i, o);
  }

  /** The quit idle is added at most once at a time, when quitting and with nothing running. */
  ghost predicate QuitRight(s: State, s': State) {
    s'.quits == s.quits || (s'.quits == s.quits + 1 && s'.quitting && s'.running == 0)
  }

  lemma ServiceReplyCalms(s: State, id: nat, ok: bool)
    requires id < |s.owner| && s.owner[id] < |s.all| && Holds(s.all[s.owner[id]], id) && s.running > 0
    requires s.all[s.owner[id]].current.value.Service?
    ensures Calms(s, ActionReply(s, id, ok)) && Total(ActionReply(s, id, ok).all, Work) < Total(s.all, Work)
  {
    hide TaskCompleted, Calms;
    var i := s.owner[id];
    var q1 := Ran(s.all[i].(current := Some(s.all[i].current.value.(action := false))));
    ChangedCalms(s, s.(all := s.all[i := q1], actions := s.actions - multiset{id}), i);
  }

  lemma ReplyCalms(s: State, id: nat, ok: bool)
    requires id < |s.owner| && s.owner[id] < |s.all| && Holds(s.all[s.owner[id]], id) && s.running > 0
    ensures Calms(s, ActionReply(s, id, ok))
    ensures s.all[s.owner[id]].current.value.Service? ==> Total(ActionReply(s, id, ok).all, Work) < Total(s.all, Work)
  {
    hide TaskCompleted, Calms, Ran;
    if s.all[s.owner[id]].current.value.Service? {
      ServiceReplyCalms(s, id, ok);
    } else {
      ChangedCalms(s, ActionReply(s, id, ok), s.owner[id]);
    }
  }

  lemma CompletionCalms(s: State, id: nat)
    requires id < |s.owner| && s.owner[id] < |s.all| && Holds(s.all[s.owner[id]], id) && s.running > 0
    requires s.all[s.owner[id]].current.value.Client?
    ensures Calms(s, CompletionIdle(s, id)) && Total(CompletionIdle(s, id).all, Work) < Total(s.all, Work)
  {
    hide TaskCompleted, Calms, Ran, Replied;
    var i := s.owner[id];
    var q := s.all[i];
    var r := if q.current.value.failed then Error else Value;
    AnsweredSame(q, r);
    ChangedCalms(s, s.(all := s.all[i := Ran(Replied(q, r))], completions := s.completions - multiset{id}), i);
  }

  lemma QuitCalms(s: State, order: seq<nat>)
    requires Inv(s) && Walk(s, order)
    ensures QuitRight(s, SetQuitting(s, order)) && Total(SetQuitting(s, order).all, Work) <= Total(s.all, Work)
  {
    hide Core, Settled;
    if s.running > 0 {
      QuittingCore(s, s.quits);
      CancelAllCalms(s.(quitting := true), order);
    }
  }

  lemma QuietCalms(s: State, i: nat)
    requires i < |s.all|
    ensures Total(StartQueue(s, i).all, Work) == Total(s.all, Work)
    ensures Total(FinallyIdle(s, i).all, Work) == Total(s.all, Work)
  {
    TotalUpdate(s.all, i, StartQueue(s, i).all[i], Work);
    TotalUpdate(s.all, i, FinallyIdle(s, i).all[i], Work);
  }

  lemma AddQueueCalms(s: State, key: QueueKey, autoStart: bool, autoRemove: bool, service: bool, hasFinally: bool)
    ensures Total(AddQueue(s, key, autoStart, autoRemove, service, hasFinally).all, Work) == Total(s.all, Work)
  {
    var s' := AddQueue(s, key, autoStart, autoRemove, service, hasFinally);
    assert s'.all[..|s'.all|-1] == s.all;
  }

  /** The events that get work done: a dispatch, or the end of a task. */
  predicate GetsWorkDone(s: State, e: Event)
    requires Safe(s, e)
  {
    match e
    case DispatchRuns(_, _) => true
    case CompletionRuns(_) => true
    case ActionEnds(id, _) => s.all[s.owner[id]].current.value.Service?
    case _ => false
  }

  /** Only adding a task adds work; every dispatch and every completion takes some away; and the quit
      idle is added only when quitting and with nothing running. */
  lemma StepEffects(s: State, e: Event)
    requires Inv(s) && May(s, e) && Safe(s, e)
    ensures QuitRight(s, Step(s, e))
    ensures !e.TaskAdded? ==> Total(Step(s, e).all, Work) <= Total(s.all, Work)
    ensures GetsWorkDone(s, e) ==> Total(Step(s, e).all, Work) < Total(s.all, Work)
  {
    hide Core, Settled, AddQueue, Dispatch, ActionReply, CompletionIdle, CancelQueue, RemoveFor, SetQuitting, QueueInv;
    match e
    case QueueAdded(key, autoStart, autoRemove, service, hasFinally) =>
      AddQueueCalms(s, key, autoStart, autoRemove, service, hasFinally);
      AddQueueQuits(s, key, autoStart, autoRemove, service, hasFinally);
    case TaskAdded(i, command) =>
    case QueueStarted(i) => QuietCalms(s, i);
    case DispatchRuns(i, o) => DispatchCalms(s, i, o);
    case ActionEnds(id, ok) => CurrentIsLive(s, s.owner[id]); ReplyCalms(s, id, ok);
    case CompletionRuns(id) => CompletionCalms(s, id);
    case QueueCancelled(i) => QueueFacts(s, i); CancelQueueCalms(s, i);
    case QueuesRemoved(sel, order) => RemoveForCalms(s, sel, order);
    case QuitRequested(order) => QuitCalms(s, order);
    case FinallyRuns(i) => QuietCalms(s, i);
  }

  lemma AddQueueQuits(s: State, key: QueueKey, autoStart: bool, autoRemove: bool, service: bool, hasFinally: bool)
    ensures AddQueue(s, key, autoStart, autoRemove, service, hasFinally).quits == s.quits
  {}
}
