/** What a client is told: the outcome of the action its request started, unless the request was cancelled. */
module RequestOutcomes {
  import opened Options
  import opened TaskModel
  import opened QueueInvariant
  import opened ProcessorInvariant
  import opened ProcessorSteps
  import opened ProcessorRuns
  import opened ProcessorEffects
  import opened ConstructionChain

  /** For each request how its work went: as GUPnP reported the end of its action, or as the call that
      started none said. */
  type Outcomes = map<nat, bool>

  function NextTold(s: State, e: Event, told: Outcomes): Outcomes {
    match e
    case ActionEnds(id, ok) => told[id := ok]
    case DispatchRuns(i, o) =>
      if i < |s.all| && s.all[i].tasks != [] && !o.action then told[s.all[i].tasks[0].id := !o.failed] else told
    case _ => told
  }

  ghost function Told(ss: seq<State>, es: seq<Event>, n: nat): Outcomes
    requires Run(ss, es) && n < |ss|
  {
    if n == 0 then map[] else NextTold(ss[n - 1], es[n - 1], Told(ss, es, n - 1))
  }

  /** The current request of a queue has been answered already because it was cancelled, or has its action in
      flight and no error, or has its error set exactly if its work went wrong. */
  predicate CurrentOk(q: Queue, told: Outcomes) {
    q.current.Some? && q.current.value.Client? && q.current.value.command == Deferred ==>
      var t := q.current.value;
      if !t.invocation then (t.id, Cancelled) in q.log.replies
      else if t.connected && t.cancellable == Armed then !t.failed
      else t.id in told && told[t.id] == !t.failed
  }

  // ---------- cancelling ----------

  lemma MoreReplies(q: Queue, q': Queue, told: Outcomes)
    requires CurrentOk(q, told) && (q'.current == q.current || q'.current.None?) && q.log.replies <= q'.log.replies
    ensures CurrentOk(q', told)
  {}

  lemma CancelledOk(q: Queue, told: Outcomes)
    requires q.current.Some? && q.current.value.Client? && CurrentOk(q, told)
    ensures CurrentOk(Replied(q, Cancelled).(current := Some(Cancelling(q.current.value))), told)
  {
    var t := q.current.value;
    if t.invocation {
      assert (q.log.replies + [(t.id, Cancelled)])[|q.log.replies|] == (t.id, Cancelled);
    }
  }

  lemma CancelKeepsOk(s: State, i: nat, told: Outcomes)
    requires Core(s) && Live(s, i) && i < |s.all| && CurrentOk(s.all[i], told)
    ensures i < |CancelQueue(s, i).all| && CurrentOk(CancelQueue(s, i).all[i], told)
  {
    hide Core, CurrentOk, TaskCompleted, Replied, Cancelling, Freed;
    CancelQueueSteps(s, i);
    MoreReplies(s.all[i], Dropped(s.all[i]), told);
    var s1 := Emptied(s, i);
    var q1 := s1.all[i];
    if q1.current.Some? && q1.current.value.Client? {
      CancelledOk(q1, told);
    } else if q1.current.Some? {
      ServiceOk(q1, told);
      if q1.current.value.action {
        var t := q1.current.value;
        CompletedIsIdle(Put(s1, i, q1.(current := Some(t.(action := false)))).(actions := s1.actions - multiset{t.id}),
          i);
        NobodyOk(CancelQueue(s, i).all[i], told);
      }
    } else {
      FreedIdle(q1);
      NobodyOk(CancelQueue(s, i).all[i], told);
    }
  }

  lemma FreedIdle(q: Queue)
    ensures Freed(q).current == q.current && q.log.replies <= Freed(q).log.replies
  {}

  lemma NobodyOk(q: Queue, told: Outcomes)
    requires q.current.None?
    ensures CurrentOk(q, told)
  {}

  lemma ServiceOk(q: Queue, told: Outcomes)
    requires q.current.Some? && q.current.value.Service?
    ensures CurrentOk(q, told)
  {}

  lemma RemoveOneKeepsOk(s: State, sel: Selector, i: nat, told: Outcomes)
    requires Inv(s) && Live(s, i) && i < |s.all| && CurrentOk(s.all[i], told)
    ensures i < |RemoveOne(s, sel, i).all| && CurrentOk(RemoveOne(s, sel, i).all[i], told)
  {
    hide Core, Settled, CurrentOk, CancelQueue, Selects, Freed, Touches;
    var q := s.all[i];
    if Selects(sel, q.key) && !q.deferRemove {
      MoreReplies(q, Deferring(q), told);
      if q.current.Some? {
        DeferringCore(s, i);
        CancelKeepsOk(Put(s, i, Deferring(q)), i, told);
      } else {
        assert Put(s, i, Deferring(q)) == s;
        CancelKeepsOk(s, i, told);
        FreedIdle(CancelQueue(s, i).all[i]);
        MoreReplies(CancelQueue(s, i).all[i], Freed(CancelQueue(s, i).all[i]), told);
      }
    }
  }

  lemma {:induction false} RemoveForKeepsOk(s: State, sel: Selector, order: seq<nat>, j: nat, told: Outcomes)
    requires Inv(s) && Walk(s, order) && j < |s.all| && CurrentOk(s.all[j], told)
    requires forall n :: 0 <= n < |order| && Selects(sel, s.all[order[n]].key) ==> Removable(s.all[order[n]])
    ensures j < |RemoveFor(s, sel, order).all| && CurrentOk(RemoveFor(s, sel, order).all[j], told)
    decreases |order|
  {
    hide Core, Settled, CurrentOk, RemoveOne, Selects, Removable, Grows;
    if order != [] {
      var s1 := RemoveOne(s, sel, order[0]);
      RemoveOneCore(s, sel, order[0]);
      WalkGoesOn(s, s1, order);
      if j == order[0] { RemoveOneKeepsOk(s, sel, j, told); }
      RemoveForKeepsOk(s1, sel, order[1..], j, told);
    }
  }

  lemma {:induction false} CancelAllKeepsOk(s: State, order: seq<nat>, j: nat, told: Outcomes)
    requires Inv(s) && Walk(s, order) && j < |s.all| && CurrentOk(s.all[j], told)
    ensures j < |CancelAll(s, order).all| && CurrentOk(CancelAll(s, order).all[j], told)
    decreases |order|
  {
    hide Core, Settled, CurrentOk, CancelQueue, Grows;
    if order != [] {
      var s1 := CancelQueue(s, order[0]);
      CancelQueueCore(s, order[0]);
      WalkGoesOn(s, s1, order);
      if j == order[0] { CancelKeepsOk(s, j, told); }
      CancelAllKeepsOk(s1, order[1..], j, told);
    }
  }

  lemma QuitKeepsOk(s: State, order: seq<nat>, j: nat, told: Outcomes)
    requires Inv(s) && Walk(s, order) && j < |s.all| && CurrentOk(s.all[j], told)
    ensures j < |SetQuitting(s, order).all| && CurrentOk(SetQuitting(s, order).all[j], told)
  {
    hide Core, Settled, CurrentOk;
    if s.running > 0 {
      QuittingCore(s, s.quits);
      CancelAllKeepsOk(s.(quitting := true), order, j, told);
    }
  }

  // ---------- the other events ----------

  lemma DispatchOk(s: State, i: nat, o: Outcome, told: Outcomes)
    requires Inv(s) && Safe(s, DispatchRuns(i, o))
    ensures i < |Dispatch(s, i, o).all|
    ensures CurrentOk(Dispatch(s, i, o).all[i], NextTold(s, DispatchRuns(i, o), told))
  {
    hide Core, Settled, TaskCompleted, CancelQueue, Replied, Ran;
    var s1 := Starting(s, i);
    var t := s.all[i].tasks[0];
    if t.Service? {
      ServiceDispatchOk(s1, i, o, NextTold(s, DispatchRuns(i, o), told));
    } else if t.command != Deferred {
      var r := if t.command == Answered then Value else Error;
      CompletedIsIdle(Put(s1, i, Ran(Replied(s1.all[i], r))), i);
    } else {
      FirstIsFresh(s, i);
    }
  }

  lemma FirstIsFresh(s: State, i: nat)
    requires Inv(s) && i < |s.all| && s.all[i].tasks != []
    ensures Fresh(s.all[i].tasks[0], s.all[i].service)
  {
    hide Settled, InOrder, Conserved, Answers, Owned;
    assert Linked(s, i);
  }

  lemma ServiceDispatchOk(s: State, i: nat, o: Outcome, told: Outcomes)
    requires i < |s.all| && s.all[i].current.Some? && s.all[i].current.value.Service?
    ensures i < |Process(s, i, o).all| && CurrentOk(Process(s, i, o).all[i], told)
  {
    hide TaskCompleted, CancelQueue, Ran, CurrentOk;
    var s1 := ServiceBegun(s, i, o);
    ServiceOk(s1.all[i], told);
    if o.failed {
      ServiceCancelOk(s1, i, told);
    } else if !o.action {
      CompletedIsIdle(Put(s1, i, Ran(s1.all[i])), i);
      NobodyOk(Process(s, i, o).all[i], told);
    }
  }

  lemma ServiceCancelOk(s: State, i: nat, told: Outcomes)
    requires i < |s.all| && s.all[i].current.Some? && s.all[i].current.value.Service?
    ensures i < |CancelQueue(s, i).all| && CurrentOk(CancelQueue(s, i).all[i], told)
  {
    hide TaskCompleted, CurrentOk, Dropped;
    CancelQueueSteps(s, i);
    var s1 := Emptied(s, i);
    var t := s1.all[i].current.value;
    ServiceOk(s1.all[i], told);
    if t.action {
      CompletedIsIdle(
        Put(s1, i, s1.all[i].(current := Some(t.(action := false)))).(actions := s1.actions - multiset{t.id}), i);
      NobodyOk(CancelQueue(s, i).all[i], told);
    }
  }

  lemma ActionEndOk(s: State, id: nat, ok: bool, told: Outcomes)
    requires Inv(s) && id in s.actions && Held(s, id) && CurrentOk(s.all[s.owner[id]], told)
    ensures s.owner[id] < |ActionReply(s, id, ok).all|
    ensures CurrentOk(ActionReply(s, id, ok).all[s.owner[id]], told[id := ok])
  {
    hide Core, Settled, TaskCompleted, Ran, QueueInv;
    PendingFacts(s, id);
    var i := s.owner[id];
    var q := s.all[i];
    if q.current.value.Service? {
      var q1 := Ran(q.(current := Some(q.current.value.(action := false))));
      CompletedIsIdle(s.(all := s.all[i := q1], actions := s.actions - multiset{id}), i);
    }
  }

  lemma CompletionOk(s: State, id: nat, told: Outcomes)
    requires Safe(s, CompletionRuns(id))
    ensures s.owner[id] < |CompletionIdle(s, id).all| && CurrentOk(CompletionIdle(s, id).all[s.owner[id]], told)
  {
    hide TaskCompleted, Ran, Replied;
    var i := s.owner[id];
    var r := if s.all[i].current.value.failed then Error else Value;
    CompletedIsIdle(s.(all := s.all[i := Ran(Replied(s.all[i], r))], completions := s.completions - multiset{id}), i);
  }

  lemma QuietOk(s: State, i: nat, command: Command, told: Outcomes)
    requires i < |s.all| && CurrentOk(s.all[i], told)
    ensures CurrentOk(AddTask(s, i, command).all[i], told) && CurrentOk(StartQueue(s, i).all[i], told)
    ensures CurrentOk(FinallyIdle(s, i).all[i], told)
  {}

  /** An event of another queue tells nothing about this one's current request. */
  lemma OthersToldNothing(s: State, e: Event, i: nat, j: nat, told: Outcomes)
    requires Inv(s) && May(s, e) && Safe(s, e) && Concerns(s, e, i) && j < |s.all| && j != i
    requires CurrentOk(s.all[j], told)
    ensures CurrentOk(s.all[j], NextTold(s, e, told))
  {
    hide Core, Settled, QueueInv;
    if s.all[j].current.Some? {
      OwnerOfCurrent(s, j);
      match e
      case DispatchRuns(_, o) =>
        assert i < |s.all|;
        QueueFacts(s, i);
        FirstIsOwned(s, i);
      case _ =>
    }
  }

  lemma OwnStepOk(s: State, e: Event, i: nat, told: Outcomes)
    requires Inv(s) && May(s, e) && Safe(s, e) && Concerns(s, e, i) && i < |s.all| && CurrentOk(s.all[i], told)
    ensures i < |Step(s, e).all| && CurrentOk(Step(s, e).all[i], NextTold(s, e, told))
  {
    hide Core, Settled, CurrentOk, AddTask, StartQueue, Dispatch, ActionReply, CompletionIdle, CancelQueue, FinallyIdle;
    match e
    case TaskAdded(_, command) => QuietOk(s, i, command, told); TouchedSize(s, e, i);
    case QueueStarted(_) => QuietOk(s, i, Deferred, told); TouchedSize(s, e, i);
    case DispatchRuns(_, o) => DispatchOk(s, i, o, told);
    case ActionEnds(id, ok) => PendingFacts(s, id); ActionEndOk(s, id, ok, told);
    case CompletionRuns(id) => CompletionOk(s, id, told);
    case QueueCancelled(_) => CancelKeepsOk(s, i, told);
    case FinallyRuns(_) => QuietOk(s, i, Deferred, told); TouchedSize(s, e, i);
  }

  lemma TouchedSize(s: State, e: Event, i: nat)
    requires i < |s.all| && Safe(s, e) && (e.TaskAdded? || e.QueueStarted? || e.FinallyRuns?)
    ensures i < |Step(s, e).all|
  {}

  lemma StepKeepsOk(s: State, e: Event, j: nat, told: Outcomes)
    requires Inv(s) && May(s, e) && Safe(s, e) && j < |Step(s, e).all|
    requires j < |s.all| ==> CurrentOk(s.all[j], told)
    ensures CurrentOk(Step(s, e).all[j], NextTold(s, e, told))
  {
    hide Core, Settled, CurrentOk, Step, NextTold, Concerns, Grows;
    match e
    case QueueAdded(_, _, _, _, _) => AddedOk(s, e, j, told);
    case QueuesRemoved(sel, order) => SweepOk(s, e, j, told);
    case QuitRequested(order) => SweepOk(s, e, j, told);
    case _ =>
      var i := StepTouches(s, e);
      if i == j {
        OwnStepOk(s, e, i, told);
      } else {
        OthersToldNothing(s, e, i, j, told);
      }
  }

  lemma AddedOk(s: State, e: Event, j: nat, told: Outcomes)
    requires e.QueueAdded? && Safe(s, e) && j < |Step(s, e).all| && (j < |s.all| ==> CurrentOk(s.all[j], told))
    ensures CurrentOk(Step(s, e).all[j], NextTold(s, e, told))
  {}

  lemma SweepOk(s: State, e: Event, j: nat, told: Outcomes)
    requires e.QueuesRemoved? || e.QuitRequested?
    requires Inv(s) && May(s, e) && Safe(s, e) && j < |Step(s, e).all| && (j < |s.all| ==> CurrentOk(s.all[j], told))
    ensures CurrentOk(Step(s, e).all[j], NextTold(s, e, told))
  {
    hide Core, Settled, CurrentOk, RemoveFor, SetQuitting;
    match e
    case QueuesRemoved(sel, order) =>
      RemoveForSizes(s, sel, order);
      RemoveForKeepsOk(s, sel, order, j, told);
    case QuitRequested(order) =>
      QuitSize(s, order);
      QuitKeepsOk(s, order, j, told);
  }

  lemma {:induction false} RunKeepsOk(ss: seq<State>, es: seq<Event>, n: nat, j: nat)
    requires Run(ss, es) && n < |ss| && j < |ss[n].all|
    ensures CurrentOk(ss[n].all[j], Told(ss, es, n))
    decreases n
  {
    hide Inv, Step, CurrentOk, May, Safe, NextTold;
    if n > 0 {
      if j < |ss[n - 1].all| { RunKeepsOk(ss, es, n - 1, j); }
      RunKeepsInv(ss, es, n - 1);
      StepKeepsOk(ss[n - 1], es[n - 1], j, Told(ss, es, n - 1));
    }
  }

  // ---------- the reply ----------

  /** When an asynchronous request completes, the client has been told that it was cancelled, or is told now
      how its work went. */
  lemma OutcomeIsReported(ss: seq<State>, es: seq<Event>, n: nat, id: nat)
    requires Run(ss, es) && n < |es| && es[n] == CompletionRuns(id)
    ensures Held(ss[n], id) && ss[n].owner[id] < |ss[n + 1].all|
    ensures
      var i := ss[n].owner[id];
      var replies, replies' := ss[n].all[i].log.replies, ss[n + 1].all[i].log.replies;
      var told := Told(ss, es, n);
      if ss[n].all[i].current.value.invocation then
        id in told && replies + [(id, if told[id] then Value else Error)] <= replies'
      else
        (id, Cancelled) in replies && replies <= replies'
  {
    hide Core, Settled, Step, QueueInv, Run;
    RunStep(ss, es, n);
    RunKeepsInv(ss, es, n);
    PendingFacts(ss[n], id);
    var i := ss[n].owner[id];
    RunKeepsOk(ss, es, n, i);
    CompletionReplies(ss[n], id);
  }

  lemma RunStep(ss: seq<State>, es: seq<Event>, n: nat)
    requires Run(ss, es) && n < |es|
    ensures n + 1 < |ss| && May(ss[n], es[n]) && Safe(ss[n], es[n]) && ss[n + 1] == Step(ss[n], es[n])
  {}

  lemma RanReplies(q: Queue)
    ensures Ran(q).log.replies == q.log.replies
  {}

  lemma AnsweredLog(q: Queue, r: Reply)
    requires q.current.Some? && q.current.value.Client? && q.current.value.invocation
    ensures Ran(Replied(q, r)).log.replies == q.log.replies + [(q.current.value.id, r)]
  {
    hide Ran;
    RanReplies(Replied(q, r));
  }

  lemma SilentLog(q: Queue, r: Reply)
    requires q.current.Some? && q.current.value.Client? && !q.current.value.invocation
    ensures Ran(Replied(q, r)).log.replies == q.log.replies
  {}

  lemma CompletionReplies(s: State, id: nat)
    requires Safe(s, CompletionRuns(id))
    ensures
      var i := s.owner[id];
      var t := s.all[i].current.value;
      var s' := Step(s, CompletionRuns(id));
      && i < |s'.all|
      && (t.invocation ==> s.all[i].log.replies + [(id, if t.failed then Error else Value)] <= s'.all[i].log.replies)
      && (!t.invocation ==> s.all[i].log.replies <= s'.all[i].log.replies)
  {
    hide AfterEnd, Ran, Replied, NextFor;
    var i := s.owner[id];
    var q := s.all[i];
    var q1 := Ran(Replied(q, if q.current.value.failed then Error else Value));
    if q.current.value.invocation {
      AnsweredLog(q, if q.current.value.failed then Error else Value);
    } else {
      SilentLog(q, if q.current.value.failed then Error else Value);
    }
    AfterEndReplies(q1, NextFor(q1, s.quitting && Decrement(s.running) == 0));
  }

  /** A synchronous request is answered, or refused, in the step that dispatches it. */
  lemma SynchronousIsAnsweredAtOnce(ss: seq<State>, es: seq<Event>, n: nat, i: nat, o: Outcome)
    requires Run(ss, es) && n < |es| && es[n] == DispatchRuns(i, o)
    ensures Safe(ss[n], es[n]) && i < |ss[n + 1].all|
    ensures
      var t := ss[n].all[i].tasks[0];
      var q, q' := ss[n].all[i], ss[n + 1].all[i];
      t.Client? && t.command != Deferred ==>
        q.log.replies + [(t.id, if t.command == Answered then Value else Error)] <= q'.log.replies && q'.current.None?
  {
    hide Core, Settled, QueueInv, Run, Dispatch, Fresh;
    RunStep(ss, es, n);
    RunKeepsInv(ss, es, n);
    DispatchSize(ss[n], i, o);
    var t := ss[n].all[i].tasks[0];
    if t.Client? && t.command != Deferred {
      FirstIsFresh(ss[n], i);
      FreshIsUnanswered(t, ss[n].all[i].service);
      DispatchReplies(ss[n], i, o);
    }
  }

  lemma FreshIsUnanswered(t: Task, service: bool)
    requires Fresh(t, service) && t.Client?
    ensures t.invocation
  {}

  lemma DispatchSize(s: State, i: nat, o: Outcome)
    requires Safe(s, DispatchRuns(i, o))
    ensures |Dispatch(s, i, o).all| == |s.all|
  {
    hide Process;
  }

  lemma BegunReplies(q: Queue)
    requires q.tasks != []
    ensures Begun(q).log.replies == q.log.replies && Begun(q).current == Some(q.tasks[0])
  {}

  lemma DispatchReplies(s: State, i: nat, o: Outcome)
    requires Safe(s, DispatchRuns(i, o)) && s.all[i].tasks[0].Client? && s.all[i].tasks[0].command != Deferred
    requires s.all[i].tasks[0].invocation
    ensures |Dispatch(s, i, o).all| == |s.all| && Dispatch(s, i, o).all[i].current.None?
    ensures
      var t := s.all[i].tasks[0];
      s.all[i].log.replies + [(t.id, if t.command == Answered then Value else Error)]
        <= Dispatch(s, i, o).all[i].log.replies
  {
    hide AfterEnd, Ran, Replied, NextFor, Begun, TaskCompleted;
    var q := Begun(s.all[i]);
    var r := if s.all[i].tasks[0].command == Answered then Value else Error;
    BegunReplies(s.all[i]);
    AnsweredLog(q, r);
    var s1 := Put(Starting(s, i), i, Ran(Replied(q, r)));
    CompletedIsIdle(s1, i);
    CompletedReplies(s1, i);
  }
}
