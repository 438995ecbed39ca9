/**
 What the operations of the task processor come to, said of the state itself: which UPnP actions a cancel ends,
 which queues go and which stay, which run and which do not, and what a shutdown changes.
 */
module ProcessorEffects {
  import opened Options
  import opened TaskModel
  import opened QueueInvariant
  import opened ProcessorInvariant
  import opened ProcessorSteps
  import opened ProcessorRuns
  import opened ProcessorTheorems

  // ---------- walks ----------

  /** A walk over the table does nothing to the queues that it does not come to. */
  lemma {:induction false} CancelAllSpares(s: State, order: seq<nat>, j: nat)
    requires Inv(s) && Walk(s, order) && j < |s.all| && j !in order
    ensures j < |CancelAll(s, order).all| && CancelAll(s, order).all[j] == s.all[j]
    ensures Live(CancelAll(s, order), j) <==> Live(s, j)
    decreases |order|
  {
    hide Core, Settled, CancelQueue, Grows;
    if order != [] {
      var s1 := CancelQueue(s, order[0]);
      CancelQueueCore(s, order[0]);
      WalkGoesOn(s, s1, order);
      CancelAllSpares(s1, order[1..], j);
    }
  }

  lemma {:induction false} RemoveForPasses(s: State, sel: Selector, order: seq<nat>, j: nat)
    requires Inv(s) && Walk(s, order) && j < |s.all| && j !in order
    requires forall n :: 0 <= n < |order| && Selects(sel, s.all[order[n]].key) ==> Removable(s.all[order[n]])
    ensures j < |RemoveFor(s, sel, order).all| && RemoveFor(s, sel, order).all[j] == s.all[j]
    ensures Live(RemoveFor(s, sel, order), j) <==> Live(s, j)
    decreases |order|
  {
    hide Core, Settled, RemoveOne, Grows, Selects, Removable;
    if order != [] {
      var s1 := RemoveOne(s, sel, order[0]);
      RemoveOneCore(s, sel, order[0]);
      WalkGoesOn(s, s1, order);
      RemoveForPasses(s1, sel, order[1..], j);
    }
  }

  /** A state in the middle of a walk over the states from s, in which queue i is as it was. */
  ghost predicate Midway(s: State, t: State, i: nat) {
    Inv(t) && Live(t, i) && i < |s.all| == |t.all| && t.all[i] == s.all[i] && t.quitting == s.quitting
  }

  /** A queue is the same in r1 and r2, in the table or not. */
  predicate SameQueue(r1: State, r2: State, i: nat) {
    i < |r1.all| == |r2.all| && r1.all[i] == r2.all[i] && (Live(r1, i) <==> Live(r2, i))
  }

  lemma OutOfWalk(order: seq<nat>)
    requires NoDup(order) && order != []
    ensures order[0] !in order[1..]
  {
    assert forall n :: 0 <= n < |order[1..]| ==> order[1..][n] == order[n + 1];
  }

  lemma FurtherOn(order: seq<nat>, i: nat)
    requires i in order && order[0] != i
    ensures i in order[1..]
  {
    var n :| 0 <= n < |order| && order[n] == i;
    assert order[1..][n - 1] == i;
  }

  /** What a walk makes of a queue that it comes to, it makes of it at one point. */
  lemma {:induction false} RemoveForReaches(s: State, sel: Selector, order: seq<nat>, i: nat) returns (t: State)
    requires Inv(s) && Walk(s, order) && i in order
    requires forall n :: 0 <= n < |order| && Selects(sel, s.all[order[n]].key) ==> Removable(s.all[order[n]])
    ensures i < |t.all| && Midway(s, t, i) && SameQueue(RemoveFor(s, sel, order), RemoveOne(t, sel, i), i)
    decreases |order|
  {
    hide Core, Settled, RemoveOne, Grows, Selects, Removable;
    var s1 := RemoveOne(s, sel, order[0]);
    RemoveOneCore(s, sel, order[0]);
    WalkGoesOn(s, s1, order);
    RemoveForSize(s1, sel, order[1..]);
    if order[0] == i {
      t := s;
      OutOfWalk(order);
      RemoveForPasses(s1, sel, order[1..], i);
    } else {
      FurtherOn(order, i);
      t := RemoveForReaches(s1, sel, order[1..], i);
    }
  }

  lemma {:induction false} RemoveForSize(s: State, sel: Selector, order: seq<nat>)
    requires forall n :: 0 <= n < |order| ==> order[n] < |s.all|
    ensures |RemoveFor(s, sel, order).all| == |s.all|
    decreases |order|
  {
    hide RemoveOne;
    if order != [] { RemoveForSize(RemoveOne(s, sel, order[0]), sel, order[1..]); }
  }

  lemma {:induction false} CancelAllSize(s: State, order: seq<nat>)
    requires forall n :: 0 <= n < |order| ==> order[n] < |s.all|
    ensures |CancelAll(s, order).all| == |s.all|
    decreases |order|
  {
    hide CancelQueue;
    if order != [] { CancelAllSize(CancelQueue(s, order[0]), order[1..]); }
  }

  lemma QuitSize(s: State, order: seq<nat>)
    requires forall n :: 0 <= n < |order| ==> order[n] < |s.all|
    ensures |SetQuitting(s, order).all| == |s.all|
  {
    CancelAllSize(s.(quitting := true), order);
  }

  lemma {:induction false} CancelAllReaches(s: State, order: seq<nat>, i: nat) returns (t: State)
    requires Inv(s) && Walk(s, order) && i in order
    ensures i < |t.all| && Midway(s, t, i) && SameQueue(CancelAll(s, order), CancelQueue(t, i), i)
    decreases |order|
  {
    hide Core, Settled, CancelQueue, Grows;
    var s1 := CancelQueue(s, order[0]);
    CancelQueueCore(s, order[0]);
    WalkGoesOn(s, s1, order);
    CancelAllSize(s1, order[1..]);
    if order[0] == i {
      t := s;
      OutOfWalk(order);
      CancelAllSpares(s1, order[1..], i);
    } else {
      FurtherOn(order, i);
      t := CancelAllReaches(s1, order[1..], i);
    }
  }

  // ---------- what a cancel ends ----------

  /** What is left current when its queue is cancelled: a service task without an action in flight, or a request
      that has been answered and whose cancellable, if it had one to be cancelled by, has fired. */
  predicate CutOff(q: Queue, q': Queue) {
    match q.current
    case None => q'.current.None?
    case Some(t) =>
      if t.Service? then
        if t.action then q'.current.None? else q'.current == q.current
      else
        && q'.current.Some? && q'.current.value.Client? && q'.current.value.id == t.id
        && !q'.current.value.invocation && q'.current.value.cancellable != Armed
        && (q'.current.value.failed <==> t.failed || (t.connected && t.cancellable == Armed))
  }

  lemma EndedShape(q: Queue)
    ensures
      var q1 := Ended(q);
      && q1.current.None? && q1.tasks == q.tasks && q1.deferRemove == q.deferRemove && q1.cancelled == q.cancelled
      && q1.key == q.key
  {
    hide ReplyTo;
  }

  lemma FreedShape(q: Queue)
    ensures
      var q1 := Freed(q);
      && q1.current == q.current && q1.tasks == [] && q1.deferRemove == q.deferRemove && q1.cancelled == q.cancelled
      && q1.key == q.key
  {
    hide RepliesTo, Ids;
  }

  lemma AfterEndShape(q: Queue, next: Next)
    ensures
      var q1 := AfterEnd(q, next);
      && q1.current.None? && (q1.tasks == q.tasks || q1.tasks == []) && q1.deferRemove == q.deferRemove
      && q1.cancelled == q.cancelled && q1.key == q.key
  {
    hide Ended, Freed;
    EndedShape(q);
    FreedShape(Ended(q));
  }

  /** What completing leaves of a queue: nothing current, and its list or nothing of it. */
  lemma CompletedShape(s: State, i: nat)
    requires i < |s.all|
    ensures
      var q, q1 := s.all[i], TaskCompleted(s, i).all[i];
      && q1.current.None? && (q1.tasks == q.tasks || q1.tasks == []) && q1.deferRemove == q.deferRemove
      && q1.cancelled == q.cancelled && q1.key == q.key
  {
    hide AfterEnd, NextFor;
    AfterEndShape(s.all[i], NextFor(s.all[i], s.quitting && Decrement(s.running) == 0));
  }

  lemma CancelCurrentCuts(s: State, i: nat)
    requires i < |s.all| && s.all[i].current.Some? && s.all[i].tasks == []
    requires s.all[i].current.value.Client? ==> s.all[i].current.value.command == Deferred
    ensures CutOff(s.all[i], CancelCurrent(s, i).all[i]) && CancelCurrent(s, i).all[i].tasks == []
  {
    hide TaskCompleted;
    var t := s.all[i].current.value;
    if t.Service? && t.action {
      var q1 := s.all[i].(current := Some(t.(action := false)));
      CompletedShape(Put(s, i, q1).(actions := s.actions - multiset{t.id}), i);
    }
  }

  lemma EmptiedHas(s: State, i: nat)
    requires i < |s.all|
    ensures Emptied(s, i).all[i].tasks == [] && Emptied(s, i).all[i].current == s.all[i].current
    ensures forall q' :: CutOff(Emptied(s, i).all[i], q') ==> CutOff(s.all[i], q')
  {
    hide RepliesTo, Ids;
  }

  lemma CurrentIsDeferred(s: State, i: nat)
    requires Inv(s) && i < |s.all|
    ensures s.all[i].current.Some? && s.all[i].current.value.Client? ==> s.all[i].current.value.command == Deferred
  {
    hide Core;
    assert SettledQueue(s, s.all[i]);
  }

  /** Cancelling a queue empties its list and cuts off its current task; if there is none, a queue that removes
      itself goes. */
  lemma CancelCuts(s: State, i: nat)
    requires Inv(s) && Live(s, i)
    ensures i < |s.all| == |CancelQueue(s, i).all|
    ensures CutOff(s.all[i], CancelQueue(s, i).all[i]) && CancelQueue(s, i).all[i].tasks == []
  {
    hide CancelCurrent, Inv, CutOff, Emptied, RemoveQueue;
    LiveInRange(s, i);
    CancelQueueSteps(s, i);
    CurrentIsDeferred(s, i);
    EmptiedHas(s, i);
    if s.all[i].current.Some? {
      CancelCurrentCuts(Emptied(s, i), i);
    } else {
      IdleCut(Emptied(s, i), i);
    }
  }

  lemma IdleCut(s: State, i: nat)
    requires i < |s.all| && s.all[i].current.None? && s.all[i].tasks == []
    ensures CutOff(s.all[i], s.all[i]) && CutOff(s.all[i], RemoveQueue(s, i).all[i])
    ensures RemoveQueue(s, i).all[i].tasks == []
  {
    hide RepliesTo, Ids;
  }

  /** The queue is of the source, or of the sink, that is named. */
  predicate Named(sel: Selector, key: QueueKey) {
    (sel.BySource? && sel.source == key.source) || (sel.BySink? && sel.sink == key.sink)
  }

  /** The event cancels queue i: alone, with all queues of its source or sink, or in a shutdown. */
  predicate Cancels(s: State, e: Event, i: nat)
    requires i < |s.all|
  {
    match e
    case QueueCancelled(j) => i == j
    case QueuesRemoved(sel, _) => Live(s, i) && Named(sel, s.all[i].key) && !s.all[i].deferRemove
    case QuitRequested(_) => Live(s, i) && s.running > 0
    case _ => false
  }

  lemma RepliedMark(q: Queue, r: Reply)
    ensures Replied(q, r).deferRemove == q.deferRemove && Replied(q, r).key == q.key
    ensures Replied(q, r).cancelled == q.cancelled && Replied(q, r).tasks == q.tasks && Replied(q, r).idle == q.idle
  {}

  lemma CancelCurrentMark(s: State, i: nat)
    requires i < |s.all| && s.all[i].current.Some?
    ensures CancelCurrent(s, i).all[i].deferRemove == s.all[i].deferRemove
    ensures CancelCurrent(s, i).all[i].cancelled == s.all[i].cancelled
    ensures s.all[i].current.value.Client? ==> (Live(CancelCurrent(s, i), i) <==> Live(s, i))
  {
    hide TaskCompleted, Replied, Cancelling, Reachable;
    var t := s.all[i].current.value;
    RepliedMark(s.all[i], Cancelled);
    if t.Service? && t.action {
      var q1 := s.all[i].(current := Some(t.(action := false)));
      CompletedShape(Put(s, i, q1).(actions := s.actions - multiset{t.id}), i);
    }
  }

  lemma EmptiedMark(s: State, i: nat)
    requires i < |s.all|
    ensures Emptied(s, i).all[i].deferRemove == s.all[i].deferRemove && (Live(Emptied(s, i), i) <==> Live(s, i))
    ensures Emptied(s, i).all[i].cancelled
  {
    hide RepliesTo, Ids;
  }

  lemma CancelMark(s: State, i: nat)
    requires i < |s.all| && s.all[i].current.Some?
    ensures CancelQueue(s, i).all[i].deferRemove == s.all[i].deferRemove
    ensures s.all[i].current.value.Client? ==> (Live(CancelQueue(s, i), i) <==> Live(s, i))
  {
    hide CancelCurrent, Emptied, RemoveQueue, Live;
    CancelQueueSteps(s, i);
    EmptiedMark(s, i);
    CancelCurrentMark(Emptied(s, i), i);
  }

  lemma RemoveOneSteps(s: State, sel: Selector, i: nat)
    requires i < |s.all|
    ensures RemoveOne(s, sel, i) ==
            if !Named(sel, s.all[i].key) || s.all[i].deferRemove then s
            else if s.all[i].current.Some? then CancelQueue(Put(s, i, Deferring(s.all[i])), i)
            else RemoveQueue(CancelQueue(s, i), i)
  {
    hide CancelQueue, RemoveQueue;
    assert s.all[i].current.None? ==> Put(s, i, Deferring(s.all[i])) == s;
  }

  lemma DeferringMark(q: Queue)
    ensures q.current.Some? ==> Deferring(q).deferRemove && Deferring(q).current == q.current
    ensures forall q' :: CutOff(Deferring(q), q') ==> CutOff(q, q')
  {}

  lemma RemoveQueueGone(s: State, i: nat)
    requires i < |s.all|
    ensures !Live(RemoveQueue(s, i), i) && i < |RemoveQueue(s, i).all| && RemoveQueue(s, i).all[i].tasks == []
    ensures RemoveQueue(s, i).all[i].current == s.all[i].current
    ensures RemoveQueue(s, i).all[i].cancelled == s.all[i].cancelled
  {
    hide RepliesTo, Ids;
  }

  lemma CutOffSame(q: Queue, q1: Queue, q2: Queue)
    requires CutOff(q, q1) && q2.current == q1.current
    ensures CutOff(q, q2)
  {}

  /** What removing by source or sink does to a queue that it comes to and that is named. */
  lemma RemoveOneCuts(s: State, sel: Selector, i: nat)
    requires Inv(s) && Live(s, i) && i < |s.all| && Named(sel, s.all[i].key) && !s.all[i].deferRemove
    ensures
      var q, s' := s.all[i], RemoveOne(s, sel, i);
      && CutOff(q, s'.all[i]) && s'.all[i].tasks == []
      && (q.current.None? ==> !Live(s', i))
      && (q.current.Some? ==> s'.all[i].deferRemove)
      && (q.current.Some? && q.current.value.Client? ==> Live(s', i))
  {
    hide Inv, CancelQueue, RemoveQueue, RemoveOne, Live, CutOff, Deferring, Touches, Named;
    RemoveOneSteps(s, sel, i);
    DeferringMark(s.all[i]);
    if s.all[i].current.Some? {
      var s0 := Put(s, i, Deferring(s.all[i]));
      DeferringCore(s, i);
      CancelCuts(s0, i);
      CancelMark(s0, i);
    } else {
      CancelCuts(s, i);
      RemoveQueueGone(CancelQueue(s, i), i);
      CutOffSame(s.all[i], CancelQueue(s, i).all[i], RemoveQueue(CancelQueue(s, i), i).all[i]);
    }
  }

  // ---------- what a cancel tells ----------

  /** Every request of the queue that has not been answered is told that it is cancelled. */
  ghost predicate Tells(q: Queue, q': Queue) {
    forall t :: (t in q.tasks || q.current == Some(t)) && t.Client? && t.invocation ==>
      (t.id, Cancelled) in q'.log.replies
  }

  lemma EndedReplies(q: Queue)
    ensures q.log.replies <= Ended(q).log.replies
  {
    hide ReplyTo;
    if q.current.Some? {
      assert Ended(q).log.replies == q.log.replies + ReplyTo(q.current.value, Died);
    }
  }

  lemma FreedReplies(q: Queue)
    ensures q.log.replies <= Freed(q).log.replies
  {
    hide RepliesTo, Ids;
  }

  lemma AfterEndReplies(q: Queue, next: Next)
    ensures q.log.replies <= AfterEnd(q, next).log.replies
  {
    hide Ended, Freed;
    EndedReplies(q);
    FreedReplies(Ended(q));
  }

  lemma {:induction false} ToldInTurn(tasks: seq<Task>, r: Reply, n: nat)
    requires n < |tasks| && tasks[n].Client? && tasks[n].invocation
    ensures (tasks[n].id, r) in RepliesTo(tasks, r)
  {
    if n > 0 {
      ToldInTurn(tasks[1..], r, n - 1);
      assert tasks[1..][n - 1] == tasks[n];
    } else {
      assert ReplyTo(tasks[0], r) == [(tasks[0].id, r)];
      assert ReplyTo(tasks[0], r)[0] == (tasks[0].id, r);
    }
  }

  lemma EmptiedTells(s: State, i: nat, t: Task)
    requires i < |s.all| && t in s.all[i].tasks && t.Client? && t.invocation
    ensures (t.id, Cancelled) in Emptied(s, i).all[i].log.replies
  {
    hide RepliesTo, Ids;
    var q := s.all[i];
    var n :| 0 <= n < |q.tasks| && q.tasks[n] == t;
    ToldInTurn(q.tasks, Cancelled, n);
  }

  lemma CompletedReplies(s: State, i: nat)
    requires i < |s.all|
    ensures s.all[i].log.replies <= TaskCompleted(s, i).all[i].log.replies
  {
    hide AfterEnd, NextFor;
    AfterEndReplies(s.all[i], NextFor(s.all[i], s.quitting && Decrement(s.running) == 0));
  }

  lemma RepliedLog(q: Queue, r: Reply)
    ensures q.log.replies <= Replied(q, r).log.replies
    ensures q.current.Some? && q.current.value.Client? && q.current.value.invocation ==>
      (q.current.value.id, r) in Replied(q, r).log.replies
  {
    if q.current.Some? {
      var x := (q.current.value.id, r);
      assert (q.log.replies + [x])[|q.log.replies|] == x;
    }
  }

  lemma CancelCurrentTells(s: State, i: nat)
    requires i < |s.all| && s.all[i].current.Some?
    ensures
      var q, q', t := s.all[i], CancelCurrent(s, i).all[i], s.all[i].current.value;
      q.log.replies <= q'.log.replies && (t.Client? && t.invocation ==> (t.id, Cancelled) in q'.log.replies)
  {
    hide TaskCompleted, Replied, Cancelling, Reachable;
    var t := s.all[i].current.value;
    RepliedLog(s.all[i], Cancelled);
    if t.Service? && t.action {
      var q1 := s.all[i].(current := Some(t.(action := false)));
      CompletedReplies(Put(s, i, q1).(actions := s.actions - multiset{t.id}), i);
    }
  }

  lemma RemovedReplies(s: State, i: nat)
    requires i < |s.all|
    ensures s.all[i].log.replies <= RemoveQueue(s, i).all[i].log.replies
  {
    hide Freed;
    FreedReplies(s.all[i]);
  }

  lemma CancelTells(s: State, i: nat)
    requires i < |s.all|
    ensures Tells(s.all[i], CancelQueue(s, i).all[i])
  {
    hide CancelCurrent, Emptied, RemoveQueue;
    CancelQueueSteps(s, i);
    var s1, q := Emptied(s, i), s.all[i];
    if q.current.Some? { CancelCurrentTells(s1, i); }
    RemovedReplies(s1, i);
    forall t | (t in q.tasks || q.current == Some(t)) && t.Client? && t.invocation
      ensures (t.id, Cancelled) in CancelQueue(s, i).all[i].log.replies
    {
      if t in q.tasks {
        EmptiedTells(s, i, t);
        StillTold(s1.all[i].log.replies, CancelQueue(s, i).all[i].log.replies, (t.id, Cancelled));
      }
    }
  }

  lemma StillTold(a: seq<(nat, Reply)>, b: seq<(nat, Reply)>, x: (nat, Reply))
    requires a <= b && x in a
    ensures x in b
  {
    var n :| 0 <= n < |a| && a[n] == x;
    assert b[n] == x;
  }

  lemma RemoveOneTells(s: State, sel: Selector, i: nat)
    requires i < |s.all| && Named(sel, s.all[i].key) && !s.all[i].deferRemove
    ensures Tells(s.all[i], RemoveOne(s, sel, i).all[i])
  {
    hide CancelQueue, RemoveQueue, RemoveOne, Named;
    RemoveOneSteps(s, sel, i);
    var q := s.all[i];
    CancelTells(Put(s, i, Deferring(q)), i);
    CancelTells(s, i);
    RemovedReplies(CancelQueue(s, i), i);
    var q1, q2 := CancelQueue(s, i).all[i], RemoveQueue(CancelQueue(s, i), i).all[i];
    assert Tells(q, q2) by { MoreTold(q, q1, q2); }
  }

  lemma MoreTold(q: Queue, q1: Queue, q2: Queue)
    requires Tells(q, q1) && q1.log.replies <= q2.log.replies
    ensures Tells(q, q2)
  {
    forall t | (t in q.tasks || q.current == Some(t)) && t.Client? && t.invocation
      ensures (t.id, Cancelled) in q2.log.replies
    {
      StillTold(q1.log.replies, q2.log.replies, (t.id, Cancelled));
    }
  }

  // ---------- every cancel, in every run ----------

  lemma SelectsNamed(sel: Selector, key: QueueKey)
    ensures Selects(sel, key) <==> Named(sel, key)
  {}

  lemma InWalk(s: State, order: seq<nat>, i: nat)
    requires FullWalk(s, order)
    ensures Live(s, i) <==> i in order
  {}

  lemma CutsInStep(s: State, e: Event, i: nat)
    requires Inv(s) && May(s, e) && Safe(s, e) && i < |s.all| && Cancels(s, e, i)
    ensures i < |Step(s, e).all| && CutOff(s.all[i], Step(s, e).all[i]) && Step(s, e).all[i].tasks == []
    ensures Tells(s.all[i], Step(s, e).all[i])
  {
    hide Inv, CancelQueue, RemoveFor, CancelAll, CutOff, Live, RemoveOne, Named, Selects, Removable, Plain, Tells;
    match e
    case QueueCancelled(_) => CancelCuts(s, i); CancelTells(s, i);
    case QueuesRemoved(sel, order) =>
      InWalk(s, order, i);
      var t := RemoveForReaches(s, sel, order, i);
      RemoveOneCuts(t, sel, i);
      RemoveOneTells(t, sel, i);
    case QuitRequested(order) =>
      InWalk(s, order, i);
      QuitStart(s);
      var t := CancelAllReaches(s.(quitting := true), order, i);
      CancelCuts(t, i);
      CancelTells(t, i);
  }

  lemma QuitStart(s: State)
    requires Inv(s) && s.running > 0
    ensures Inv(s.(quitting := true))
    ensures forall order :: Walk(s, order) ==> Walk(s.(quitting := true), order)
  {
    hide Core, Settled;
    QuittingCore(s, s.quits);
  }

  /** No UPnP action of a task of queue i is in flight. */
  ghost predicate NoneInFlight(s: State, i: nat) {
    forall id: nat :: id in s.actions && id < |s.owner| ==> s.owner[id] != i
  }

  /** No action of a queue is in flight when what it has current was cut off, and a request that was has its
      completion idle pending. */
  lemma NothingInFlight(s: State, i: nat, q: Queue)
    requires Inv(s) && i < |s.all| && CutOff(q, s.all[i])
    ensures NoneInFlight(s, i)
    ensures q.current.Some? && q.current.value.Client? ==> s.completions[q.current.value.id] == 1
  {
    hide QueueInv;
    assert Linked(s, i) && SettledQueue(s, s.all[i]);
    forall id: nat | id in s.actions && id < |s.owner|
      ensures s.owner[id] != i
    {
      assert Held(s, id);
    }
  }

  /** Pending requests are unanswered; and a request's action is in flight while a cancel would reach it. */
  lemma InFlightIs(s: State, i: nat)
    requires Inv(s) && i < |s.all|
    ensures forall t :: t in s.all[i].tasks && t.Client? ==> t.invocation
    ensures s.all[i].current.Some? && s.all[i].current.value.Client? ==>
      var t := s.all[i].current.value;
      t.id in s.actions <==> t.connected && t.cancellable == Armed
  {
    hide Settled, Shuffle;
    assert Linked(s, i);
  }

  /** Whatever event of whatever run cancels a queue, alone, with its source or sink, or in a shutdown: what is
      pending is gone, every request that was not answered is told that it is cancelled, no UPnP action of the queue
      is in flight any more; and if a request was current it still is, answered, with its error set if its action was
      in flight, to be completed by the one idle that is pending for it. */
  lemma CancelEndsActions(ss: seq<State>, es: seq<Event>, n: nat, i: nat)
    requires Run(ss, es) && n < |es| && i < |ss[n].all| && Cancels(ss[n], es[n], i)
    ensures i < |ss[n + 1].all| && ss[n + 1].all[i].tasks == []
    ensures NoneInFlight(ss[n + 1], i)
    ensures forall t :: t in ss[n].all[i].tasks && t.Client? ==> (t.id, Cancelled) in ss[n + 1].all[i].log.replies
    ensures
      var q, q', s' := ss[n].all[i], ss[n + 1].all[i], ss[n + 1];
      q.current.Some? && q.current.value.Client? ==>
        && q'.current.Some? && q'.current.value.id == q.current.value.id && q'.current.value.Client?
        && !q'.current.value.invocation && q'.current.value.cancellable != Armed
        && s'.completions[q.current.value.id] == 1
        && (q.current.value.invocation ==> (q.current.value.id, Cancelled) in q'.log.replies)
        && (q'.current.value.failed <==> q.current.value.failed || q.current.value.id in ss[n].actions)
  {
    hide Inv, Step, May, Safe, Cancels;
    RunKeepsInv(ss, es, n);
    RunKeepsInv(ss, es, n + 1);
    CutsInStep(ss[n], es[n], i);
    InFlightIs(ss[n], i);
    NothingInFlight(ss[n + 1], i, ss[n].all[i]);
  }

  // ---------- which queues go ----------

  /** The table only loses queues. */
  lemma OthersStayOut(s: State, sel: Selector, order: seq<nat>, j: nat)
    requires Inv(s) && Walk(s, order)
    requires forall n :: 0 <= n < |order| && Selects(sel, s.all[order[n]].key) ==> Removable(s.all[order[n]])
    ensures Live(RemoveFor(s, sel, order), j) ==> Live(s, j)
  {
    hide Inv, RemoveFor, Selects, Removable;
    RemoveForSize(s, sel, order);
    if j < |s.all| && j !in order { RemoveForPasses(s, sel, order, j); }
    LiveOnlyIn(RemoveFor(s, sel, order), j);
    WalkIsLive(s, order, j);
  }

  lemma WalkIsLive(s: State, order: seq<nat>, j: nat)
    requires Walk(s, order)
    ensures j in order ==> Live(s, j)
  {}

  lemma LiveOnlyIn(s: State, j: nat)
    ensures Live(s, j) ==> j < |s.all|
  {}

  /** A queue that has left a table that only loses queues has left its key free. */
  lemma KeyIsFree(s: State, s': State, i: nat)
    requires Core(s) && Core(s') && i < |s.all| == |s'.all| && Live(s, i) && !Live(s', i)
    requires forall j: nat :: Live(s', j) ==> Live(s, j) && s'.all[j].key == s.all[j].key
    ensures s.all[i].key !in s'.table
  {
    hide Linked;
    var key := s.all[i].key;
    assert key in s'.table ==> Live(s', s'.table[key]);
  }

  /** Removing by source or sink, in any run: a queue of another source or sink, or one that is marked for removal
      already, or has left the table, stays as it is; one that is named loses what is pending; it leaves the
      table, and its key is free, if it has nothing current; and if a request is current it stays in the table,
      marked. */
  lemma RemovalIsExact(ss: seq<State>, es: seq<Event>, n: nat, i: nat)
    requires Run(ss, es) && n < |es| && es[n].QueuesRemoved? && i < |ss[n].all|
    ensures i < |ss[n + 1].all|
    ensures
      var q, s, q', s' := ss[n].all[i], ss[n], ss[n + 1].all[i], ss[n + 1];
      var named := match es[n].sel case BySource(x) => q.key.source == x case BySink(x) => q.key.sink == x;
      if !Live(s, i) || !named || q.deferRemove then
        q' == q && (Live(s', i) <==> Live(s, i))
      else
        && q'.tasks == []
        && (q.current.None? ==> !Live(s', i) && q.key !in s'.table)
        && (q.current.Some? ==> q'.deferRemove && Live(s', i))
  {
    hide Inv, Step, May, Safe, Live, Midway, SameQueue, RemoveOne, RemoveFor, CutOff, Removable;
    RunKeepsInv(ss, es, n);
    RunKeepsInv(ss, es, n + 1);
    RemovalStep(ss[n], es[n].sel, es[n].order, i);
  }

  lemma RemovalStep(s: State, sel: Selector, order: seq<nat>, i: nat)
    requires Inv(s) && May(s, QueuesRemoved(sel, order)) && Safe(s, QueuesRemoved(sel, order)) && i < |s.all|
    requires Inv(Step(s, QueuesRemoved(sel, order)))
    ensures i < |Step(s, QueuesRemoved(sel, order)).all|
    ensures
      var q, s' := s.all[i], Step(s, QueuesRemoved(sel, order));
      if !Live(s, i) || !Named(sel, q.key) || q.deferRemove then
        s'.all[i] == q && (Live(s', i) <==> Live(s, i))
      else
        && s'.all[i].tasks == []
        && (q.current.None? ==> !Live(s', i) && q.key !in s'.table)
        && (q.current.Some? ==> s'.all[i].deferRemove && Live(s', i))
  {
    hide Inv, Live, RemoveOne, RemoveFor, CutOff, Removable, Named, Selects;
    RemoveForSize(s, sel, order);
    SelectsNamed(sel, s.all[i].key);
    InWalk(s, order, i);
    if i in order {
      var t := RemoveForReaches(s, sel, order, i);
      RemoveOneSteps(t, sel, i);
      if Named(sel, s.all[i].key) && !s.all[i].deferRemove {
        NamedIsClient(s, sel, order, i);
        RemoveOneCuts(t, sel, i);
        if s.all[i].current.None? { RemovedKey(s, sel, order, i); }
      }
    } else {
      RemoveForPasses(s, sel, order, i);
    }
  }

  lemma NamedIsClient(s: State, sel: Selector, order: seq<nat>, i: nat)
    requires Inv(s) && May(s, QueuesRemoved(sel, order)) && Live(s, i) && i < |s.all| && Selects(sel, s.all[i].key)
    ensures s.all[i].current.Some? ==> s.all[i].current.value.Client?
  {
    hide Settled, Selects, Shuffle;
    assert Linked(s, i);
  }

  lemma RemovedKey(s: State, sel: Selector, order: seq<nat>, i: nat)
    requires Inv(s) && Walk(s, order) && i < |s.all| && Live(s, i) && !Live(RemoveFor(s, sel, order), i)
    requires forall n :: 0 <= n < |order| && Selects(sel, s.all[order[n]].key) ==> Removable(s.all[order[n]])
    requires Inv(RemoveFor(s, sel, order))
    ensures s.all[i].key !in RemoveFor(s, sel, order).table
  {
    hide Core, Settled, RemoveFor, Selects, Removable;
    var s' := RemoveFor(s, sel, order);
    RemoveForSize(s, sel, order);
    RemoveForGrows(s, sel, order);
    forall j: nat | Live(s', j)
      ensures Live(s, j) && j < |s.all| && s'.all[j].key == s.all[j].key
    {
      OthersStayOut(s, sel, order, j);
      LiveOnlyIn(s', j);
      assert Grows(s.all[j], s'.all[j]);
    }
    KeyIsFree(s, s', i);
  }

  // ---------- events of one queue ----------

  /** The event happens to queue i alone. */
  predicate Concerns(s: State, e: Event, i: nat) {
    match e
    case TaskAdded(j, _) => i == j
    case QueueStarted(j) => i == j
    case DispatchRuns(j, _) => i == j
    case ActionEnds(id, _) => id < |s.owner| && i == s.owner[id]
    case CompletionRuns(id) => id < |s.owner| && i == s.owner[id]
    case QueueCancelled(j) => i == j
    case FinallyRuns(j) => i == j
    case _ => false
  }

  lemma StepTouches(s: State, e: Event) returns (i: nat)
    requires Inv(s) && May(s, e) && Safe(s, e)
    requires !e.QueueAdded? && !e.QueuesRemoved? && !e.QuitRequested?
    ensures Touches(s, Step(s, e), i)
    ensures Concerns(s, e, i)
  {
    hide Core, Settled, AddTask, StartQueue, Dispatch, ActionReply, CompletionIdle, CancelQueue, FinallyIdle, Touches;
    match e
    case TaskAdded(j, command) => AddTaskCore(s, j, command); i := j;
    case QueueStarted(j) => StartCore(s, j); i := j;
    case DispatchRuns(j, o) => DispatchCore(s, j, o); i := j;
    case ActionEnds(id, ok) => ActionReplyCore(s, id, ok); i := s.owner[id];
    case CompletionRuns(id) => CompletionCore(s, id); i := s.owner[id];
    case QueueCancelled(j) => CancelQueueCore(s, j); i := j;
    case FinallyRuns(j) => FinallyCore(s, j); i := j;
  }

  // ---------- which queues stay ----------

  /** The queue is marked for removal, or removes itself and has nothing left. */
  predicate Through(q: Queue) {
    q.deferRemove || (q.autoRemove && q.tasks == [])
  }

  lemma CompletedLeaves(s: State, i: nat)
    requires Live(s, i)
    ensures !Live(TaskCompleted(s, i), i) ==> Through(s.all[i])
  {
    hide ReplyTo, RepliesTo, Ids;
  }

  lemma CancelCurrentLeaves(s: State, i: nat)
    requires Live(s, i) && s.all[i].current.Some?
    ensures !Live(CancelCurrent(s, i), i) ==> s.all[i].deferRemove || s.all[i].autoRemove
  {
    hide TaskCompleted, Replied, Cancelling, Reachable;
    var t := s.all[i].current.value;
    RepliedMark(s.all[i], Cancelled);
    if t.Service? && t.action {
      var q1 := s.all[i].(current := Some(t.(action := false)));
      CompletedLeaves(Put(s, i, q1).(actions := s.actions - multiset{t.id}), i);
    }
  }

  lemma EmptiedKinds(s: State, i: nat)
    requires i < |s.all|
    ensures Emptied(s, i).all[i].autoRemove == s.all[i].autoRemove
  {
    hide RepliesTo, Ids;
  }

  lemma CancelLeaves(s: State, i: nat)
    requires Live(s, i)
    ensures !Live(CancelQueue(s, i), i) ==> s.all[i].deferRemove || s.all[i].autoRemove
  {
    hide CancelCurrent, Emptied, RemoveQueue, Live;
    LiveInRange(s, i);
    CancelQueueSteps(s, i);
    EmptiedMark(s, i);
    EmptiedKinds(s, i);
    if s.all[i].current.Some? { CancelCurrentLeaves(Emptied(s, i), i); }
  }

  lemma RanMark(q: Queue)
    ensures Ran(q).key == q.key && Ran(q).deferRemove == q.deferRemove && Ran(q).autoRemove == q.autoRemove
    ensures Ran(q).tasks == q.tasks && Ran(q).cancelled == q.cancelled && Ran(q).idle == q.idle
  {}

  lemma RepliedKinds(q: Queue, r: Reply)
    ensures Replied(q, r).autoRemove == q.autoRemove
  {}

  lemma ProcessSteps(s: State, i: nat, o: Outcome)
    requires i < |s.all| && s.all[i].current.Some? && s.all[i].current.value.Service?
    ensures Process(s, i, o) ==
            var s1 := ServiceBegun(s, i, o);
            if o.failed then CancelQueue(s1, i)
            else if o.action then s1
            else TaskCompleted(Put(s1, i, Ran(s1.all[i])), i)
  {
    hide CancelQueue, TaskCompleted;
  }

  lemma SyncSteps(s: State, i: nat, o: Outcome)
    requires i < |s.all| && s.all[i].current.Some? && s.all[i].current.value.Client?
    ensures Process(s, i, o) ==
            var t := s.all[i].current.value;
            if t.command == Deferred then ClientBegun(s, i, o)
            else TaskCompleted(Put(s, i, Ran(Replied(s.all[i], if t.command == Answered then Value else Error))), i)
  {
    hide TaskCompleted, Ran, Replied, ClientBegun;
  }

  lemma BegunMark(s: State, i: nat, o: Outcome)
    requires i < |s.all| && s.all[i].current.Some?
    ensures
      var t := s.all[i].current.value;
      var s1 := if t.Service? then ServiceBegun(s, i, o) else ClientBegun(s, i, o);
      var q, q1 := s.all[i], s1.all[i];
      && (Live(s1, i) <==> Live(s, i)) && q1.deferRemove == q.deferRemove && q1.autoRemove == q.autoRemove
      && q1.tasks == q.tasks && q1.cancelled == q.cancelled && q1.idle == q.idle
  {}

  lemma ServiceProcessLeaves(s: State, i: nat, o: Outcome)
    requires Live(s, i) && s.all[i].current.Some? && s.all[i].current.value.Service?
    ensures !Live(Process(s, i, o), i) ==> Through(s.all[i]) || (s.all[i].autoRemove && o.failed)
  {
    hide CancelQueue, TaskCompleted, Ran, ServiceBegun, Process;
    ProcessSteps(s, i, o);
    BegunMark(s, i, o);
    var s1 := ServiceBegun(s, i, o);
    RanMark(s1.all[i]);
    if o.failed { CancelLeaves(s1, i); } else if !o.action { CompletedLeaves(Put(s1, i, Ran(s1.all[i])), i); }
  }

  lemma ClientProcessLeaves(s: State, i: nat, o: Outcome)
    requires Live(s, i) && s.all[i].current.Some? && s.all[i].current.value.Client?
    ensures !Live(Process(s, i, o), i) ==> Through(s.all[i])
  {
    hide TaskCompleted, Ran, Replied, ClientBegun, Process;
    SyncSteps(s, i, o);
    BegunMark(s, i, o);
    var q := s.all[i];
    if q.current.value.command != Deferred {
      var r := if q.current.value.command == Answered then Value else Error;
      RepliedMark(q, r);
      RepliedKinds(q, r);
      RanMark(Replied(q, r));
      CompletedLeaves(Put(s, i, Ran(Replied(q, r))), i);
    }
  }

  lemma ReplyLeaves(s: State, id: nat, ok: bool)
    requires Safe(s, ActionEnds(id, ok)) && s.owner[id] < |s.all|
    ensures
      var i, q := s.owner[id], s.all[s.owner[id]];
      !Live(ActionReply(s, id, ok), i) ==> Through(q)
  {
    hide TaskCompleted, Ran;
    var i, q := s.owner[id], s.all[s.owner[id]];
    if q.current.value.Service? {
      var q1 := q.(current := Some(q.current.value.(action := false)));
      RanMark(q1);
      CompletedLeaves(s.(all := s.all[i := Ran(q1)], actions := s.actions - multiset{id}), i);
    }
  }

  lemma CompletionLeaves(s: State, id: nat)
    requires Safe(s, CompletionRuns(id)) && s.owner[id] < |s.all|
    ensures
      var i, q := s.owner[id], s.all[s.owner[id]];
      !Live(CompletionIdle(s, id), i) ==> Through(q)
  {
    hide TaskCompleted, Ran, Replied;
    var i, q := s.owner[id], s.all[s.owner[id]];
    var r := if q.current.value.failed then Error else Value;
    RepliedMark(q, r);
    RepliedKinds(q, r);
    RanMark(Replied(q, r));
    CompletedLeaves(s.(all := s.all[i := Ran(Replied(q, r))], completions := s.completions - multiset{id}), i);
  }

  /** The event may take queue i out of the table. */
  predicate MayLeave(s: State, e: Event, i: nat)
    requires i < |s.all|
  {
    var q := s.all[i];
    || q.deferRemove
    || (e.QueuesRemoved? && Named(e.sel, q.key))
    || (q.autoRemove && (Cancels(s, e, i) || |q.tasks| + |CurrentIds(q)| == 1
                         || (e.DispatchRuns? && e.queue == i && q.service && e.outcome.failed)))
  }

  lemma StartingMark(s: State, i: nat)
    requires i < |s.all| && s.all[i].tasks != []
    ensures Live(Starting(s, i), i) <==> Live(s, i)
    ensures
      var q, q1 := s.all[i], Starting(s, i).all[i];
      && q1.deferRemove == q.deferRemove && q1.autoRemove == q.autoRemove && q1.tasks == q.tasks[1..]
      && q1.current == Some(q.tasks[0]) && !q1.cancelled
  {}

  lemma FirstKind(s: State, i: nat)
    requires Inv(s) && i < |s.all| && s.all[i].tasks != []
    ensures s.all[i].tasks[0].Service? == s.all[i].service
  {
    hide Settled, Shuffle;
    assert Linked(s, i);
  }

  lemma DispatchLeaves(s: State, i: nat, o: Outcome)
    requires Inv(s) && Safe(s, DispatchRuns(i, o)) && i < |s.all| && !Live(Dispatch(s, i, o), i)
    ensures MayLeave(s, DispatchRuns(i, o), i)
  {
    hide Inv, Process, Starting;
    StartingMark(s, i);
    FirstKind(s, i);
    DispatchIsProcess(s, i, o);
    if s.all[i].tasks[0].Service? {
      ServiceProcessLeaves(Starting(s, i), i, o);
    } else {
      ClientProcessLeaves(Starting(s, i), i, o);
    }
    assert s.all[i].tasks[1..] == [] ==> |s.all[i].tasks| == 1;
  }

  lemma DispatchIsProcess(s: State, i: nat, o: Outcome)
    requires i < |s.all| && s.all[i].tasks != []
    ensures Dispatch(s, i, o) == Process(Starting(s, i), i, o)
  {
    hide Process, Begun;
  }

  lemma OwnLeaves(s: State, e: Event, i: nat)
    requires Inv(s) && May(s, e) && Safe(s, e) && i < |s.all| && Live(s, i) && Concerns(s, e, i)
    ensures !Live(Step(s, e), i) ==> MayLeave(s, e, i)
  {
    hide Inv, AddTask, StartQueue, Dispatch, ActionReply, CompletionIdle, CancelQueue, FinallyIdle;
    match e
    case TaskAdded(_, command) => SmallLeaves(s, i, command);
    case QueueStarted(_) => SmallLeaves(s, i, Deferred);
    case DispatchRuns(_, o) => if !Live(Dispatch(s, i, o), i) { DispatchLeaves(s, i, o); }
    case ActionEnds(id, ok) => ReplyLeaves(s, id, ok);
    case CompletionRuns(id) => CompletionLeaves(s, id);
    case QueueCancelled(_) => CancelLeaves(s, i);
    case FinallyRuns(_) =>
  }

  lemma SmallLeaves(s: State, i: nat, command: Command)
    requires Live(s, i)
    ensures Live(AddTask(s, i, command), i) && Live(StartQueue(s, i), i)
  {}

  lemma StepLeaves(s: State, e: Event, i: nat)
    requires Inv(s) && May(s, e) && Safe(s, e) && i < |s.all| && Live(s, i)
    ensures !Live(Step(s, e), i) ==> MayLeave(s, e, i)
  {
    hide Core, Settled, Dispatch, AddTask, StartQueue, ActionReply, CompletionIdle, CancelQueue, RemoveFor,
      CancelAll, FinallyIdle, CutOff, RemoveOne, Named, Selects, Removable, Plain, Grows;
    match e
    case QueueAdded(_, _, _, _, _) =>
    case QueuesRemoved(sel, order) => StepKeepsInv(s, e); RemovalStep(s, sel, order, i);
    case QuitRequested(order) =>
      if s.running > 0 {
        InWalk(s, order, i);
        QuitStart(s);
        var t := CancelAllReaches(s.(quitting := true), order, i);
        CancelLeaves(t, i);
      }
    case _ =>
      var j := StepTouches(s, e);
      if j == i { OwnLeaves(s, e, i); }
  }

  /** In any run a queue leaves the table only if its source or sink is removed, or it is marked for removal, or it
      removes itself and its last task is being seen to, or it is cancelled.  Outside shutdown it does leave: one
      that is marked is at work, and one that removes itself and has been started has work. */
  lemma QueuesStay(ss: seq<State>, es: seq<Event>, n: nat, i: nat)
    requires Run(ss, es) && n < |es| && i < |ss[n].all| && Live(ss[n], i)
    ensures !MayLeave(ss[n], es[n], i) ==> Live(ss[n + 1], i)
    ensures
      var q := ss[n].all[i];
      !ss[n].quitting ==>
        (q.deferRemove ==> q.current.Some?) && (q.autoRemove && q.log.primed ==> q.tasks != [] || q.current.Some?)
  {
    hide Settled, QueueInv, Step, May, Safe, MayLeave;
    RunKeepsInv(ss, es, n);
    StepLeaves(ss[n], es[n], i);
    assert Linked(ss[n], i);
  }

  // ---------- the cancelled flag ----------

  lemma CancelFlag(s: State, i: nat)
    requires i < |s.all|
    ensures CancelQueue(s, i).all[i].cancelled
  {
    hide CancelCurrent, Emptied, RemoveQueue;
    CancelQueueSteps(s, i);
    EmptiedMark(s, i);
    RemoveQueueGone(Emptied(s, i), i);
    if s.all[i].current.Some? { CancelCurrentMark(Emptied(s, i), i); }
  }

  lemma ProcessFlag(s: State, i: nat, o: Outcome)
    requires i < |s.all| && s.all[i].current.Some?
    ensures Process(s, i, o).all[i].cancelled <==> s.all[i].cancelled || (s.all[i].current.value.Service? && o.failed)
  {
    hide CancelQueue, TaskCompleted, Ran, Replied, ServiceBegun, ClientBegun, Process;
    BegunMark(s, i, o);
    var q := s.all[i];
    if q.current.value.Service? {
      ProcessSteps(s, i, o);
      var s1 := ServiceBegun(s, i, o);
      RanMark(s1.all[i]);
      CancelFlag(s1, i);
      CompletedShape(Put(s1, i, Ran(s1.all[i])), i);
    } else {
      SyncSteps(s, i, o);
      var r := if q.current.value.command == Answered then Value else Error;
      RepliedMark(q, r);
      RanMark(Replied(q, r));
      CompletedShape(Put(s, i, Ran(Replied(q, r))), i);
    }
  }

  lemma DispatchFlag(s: State, i: nat, o: Outcome)
    requires Inv(s) && i < |s.all| && s.all[i].tasks != []
    ensures i < |Dispatch(s, i, o).all|
    ensures Dispatch(s, i, o).all[i].cancelled <==> s.all[i].service && o.failed
  {
    hide Inv, Process, Starting;
    StartingMark(s, i);
    FirstKind(s, i);
    DispatchIsProcess(s, i, o);
    ProcessFlag(Starting(s, i), i, o);
  }

  lemma ReplyFlag(s: State, id: nat, ok: bool)
    requires Safe(s, ActionEnds(id, ok)) && s.owner[id] < |s.all|
    ensures ActionReply(s, id, ok).all[s.owner[id]].cancelled == s.all[s.owner[id]].cancelled
  {
    hide TaskCompleted, Ran;
    var i, q := s.owner[id], s.all[s.owner[id]];
    if q.current.value.Service? {
      var q1 := q.(current := Some(q.current.value.(action := false)));
      RanMark(q1);
      CompletedShape(s.(all := s.all[i := Ran(q1)], actions := s.actions - multiset{id}), i);
    }
  }

  lemma CompletionFlag(s: State, id: nat)
    requires Safe(s, CompletionRuns(id)) && s.owner[id] < |s.all|
    ensures s.owner[id] < |CompletionIdle(s, id).all|
    ensures CompletionIdle(s, id).all[s.owner[id]].cancelled == s.all[s.owner[id]].cancelled
  {
    hide TaskCompleted, Ran, Replied;
    var i, q := s.owner[id], s.all[s.owner[id]];
    var r := if q.current.value.failed then Error else Value;
    RepliedMark(q, r);
    RanMark(Replied(q, r));
    CompletedShape(s.(all := s.all[i := Ran(Replied(q, r))], completions := s.completions - multiset{id}), i);
  }

  lemma SmallFlag(s: State, i: nat, command: Command)
    requires i < |s.all|
    ensures AddTask(s, i, command).all[i].cancelled == StartQueue(s, i).all[i].cancelled == s.all[i].cancelled
    ensures FinallyIdle(s, i).all[i].cancelled == s.all[i].cancelled
    ensures |AddTask(s, i, command).all| == |StartQueue(s, i).all| == |FinallyIdle(s, i).all| == |s.all|
  {}

  lemma OwnFlag(s: State, e: Event, i: nat)
    requires Inv(s) && May(s, e) && Safe(s, e) && i < |s.all| && Concerns(s, e, i)
    ensures i < |Step(s, e).all|
    ensures Step(s, e).all[i].cancelled == NextFlag(s, e, i)
  {
    hide Inv, AddTask, StartQueue, Dispatch, ActionReply, CompletionIdle, CancelQueue, FinallyIdle;
    match e
    case TaskAdded(_, command) => SmallFlag(s, i, command);
    case QueueStarted(_) => SmallFlag(s, i, Deferred);
    case DispatchRuns(_, o) => DispatchFlag(s, i, o);
    case ActionEnds(id, ok) => ReplyFlag(s, id, ok);
    case CompletionRuns(id) => CompletionFlag(s, id);
    case QueueCancelled(_) => CancelFlag(s, i);
    case FinallyRuns(_) => SmallFlag(s, i, Deferred);
  }

  /** Set by every cancel, cleared when a task is taken off the list, and left alone by everything else. */
  predicate NextFlag(s: State, e: Event, i: nat)
    requires i < |s.all|
  {
    if Cancels(s, e, i) then true
    else if e.DispatchRuns? && e.queue == i then s.all[i].service && e.outcome.failed
    else s.all[i].cancelled
  }

  lemma RemoveOneFlag(s: State, sel: Selector, i: nat)
    requires i < |s.all| && Named(sel, s.all[i].key) && !s.all[i].deferRemove
    ensures RemoveOne(s, sel, i).all[i].cancelled
  {
    hide CancelQueue, RemoveQueue, RemoveOne, Named;
    RemoveOneSteps(s, sel, i);
    CancelFlag(Put(s, i, Deferring(s.all[i])), i);
    CancelFlag(s, i);
    RemoveQueueGone(CancelQueue(s, i), i);
  }

  lemma StepFlag(s: State, e: Event, i: nat)
    requires Inv(s) && May(s, e) && Safe(s, e) && i < |s.all|
    ensures i < |Step(s, e).all| && Step(s, e).all[i].cancelled == NextFlag(s, e, i)
  {
    hide Core, Settled, Dispatch, AddTask, StartQueue, ActionReply, CompletionIdle, CancelQueue, RemoveFor,
      CancelAll, FinallyIdle, CutOff, RemoveOne, Named, Selects, Removable, Plain, Grows;
    match e
    case QueueAdded(_, _, _, _, _) =>
    case QueuesRemoved(sel, order) => StepKeepsInv(s, e); RemovalFlag(s, sel, order, i);
    case QuitRequested(order) =>
      if s.running > 0 {
        InWalk(s, order, i);
        QuitStart(s);
        if i in order {
          var t := CancelAllReaches(s.(quitting := true), order, i);
          CancelFlag(t, i);
        } else {
          CancelAllSpares(s.(quitting := true), order, i);
        }
      }
    case _ =>
      var j := StepTouches(s, e);
      if j == i { OwnFlag(s, e, i); }
  }

  lemma RemovalFlag(s: State, sel: Selector, order: seq<nat>, i: nat)
    requires Inv(s) && May(s, QueuesRemoved(sel, order)) && Safe(s, QueuesRemoved(sel, order)) && i < |s.all|
    ensures i < |RemoveFor(s, sel, order).all|
    ensures RemoveFor(s, sel, order).all[i].cancelled == NextFlag(s, QueuesRemoved(sel, order), i)
  {
    hide Inv, Live, RemoveOne, RemoveFor, Removable, Named, Selects;
    RemoveForSize(s, sel, order);
    InWalk(s, order, i);
    if i in order {
      var t := RemoveForReaches(s, sel, order, i);
      RemoveOneSteps(t, sel, i);
      if Named(sel, s.all[i].key) && !s.all[i].deferRemove { RemoveOneFlag(t, sel, i); }
    } else {
      RemoveForPasses(s, sel, order, i);
    }
  }

  /** Since the last event that took a task off its list without failing, queue i has been cancelled. */
  predicate WasCancelled(ss: seq<State>, es: seq<Event>, n: nat, i: nat)
    requires |ss| == |es| + 1 && n < |ss|
    decreases n
  {
    n > 0 && i < |ss[n - 1].all| &&
      if Cancels(ss[n - 1], es[n - 1], i) then true
      else if es[n - 1].DispatchRuns? && es[n - 1].queue == i then ss[n - 1].all[i].service && es[n - 1].outcome.failed
      else WasCancelled(ss, es, n - 1, i)
  }

  lemma NewIsNot(s: State, e: Event, i: nat)
    requires Inv(s) && May(s, e) && Safe(s, e) && |s.all| <= i < |Step(s, e).all|
    ensures e.QueueAdded? && i == |s.all| && !Step(s, e).all[i].cancelled
    ensures Step(s, e).all[i].log == NO_LOG && Step(s, e).all[i].tasks == [] && Step(s, e).all[i].current.None?
    ensures !Step(s, e).all[i].idle
  {
    hide Core, Settled, AddTask, StartQueue, Dispatch, ActionReply, CompletionIdle, CancelQueue, RemoveFor,
      SetQuitting, FinallyIdle, Grows;
    match e
    case QueueAdded(_, _, _, _, _) =>
    case QueuesRemoved(sel, order) => RemoveForSize(s, sel, order);
    case QuitRequested(order) => QuitSize(s, order);
    case _ => var j := StepTouches(s, e);
  }

  /** In every run the flag that the finally callback is given says whether the queue has been cancelled, by any of
      the events that do so, and no task of it has begun since. */
  lemma {:induction false} FlagIsRight(ss: seq<State>, es: seq<Event>, n: nat, i: nat)
    requires Run(ss, es) && n < |ss| && i < |ss[n].all|
    ensures ss[n].all[i].cancelled <==> WasCancelled(ss, es, n, i)
    ensures forall k :: 0 <= k < |ss[n].all[i].log.finals| ==> ss[n].all[i].log.finals[k] == ss[n].all[i].cancelled
    decreases n
  {
    hide Settled, QueueInv, Owned, Step, May, Safe, Cancels;
    RunKeepsInv(ss, es, n);
    assert Linked(ss[n], i);
    if n > 0 {
      RunKeepsInv(ss, es, n - 1);
      if i < |ss[n - 1].all| {
        FlagIsRight(ss, es, n - 1, i);
        StepFlag(ss[n - 1], es[n - 1], i);
      } else {
        NewIsNot(ss[n - 1], es[n - 1], i);
      }
    }
  }
}
