/**
 What holds of the whole processor between any two events.

 `Core` ties every queue to the hash table, to the running counter and to the idle sources and
 actions that are pending on its behalf.  It also holds half-way through an event, while a task
 is being processed or taken down; `Settled` says that no task is left in such a half-way state.
 */
module ProcessorInvariant {
  import opened Options
  import opened TaskModel
  import opened QueueInvariant

  // ---------- totals over all queues ----------

  function Total(all: seq<Queue>, f: Queue -> nat): nat {
    if all == [] then 0 else Total(all[..|all|-1], f) + f(all[|all|-1])
  }

  lemma {:induction false} TotalUpdate(all: seq<Queue>, i: nat, q: Queue, f: Queue -> nat)
    requires i < |all|
    ensures Total(all[i := q], f) + f(all[i]) == Total(all, f) + f(q)
  {
    var last := |all| - 1;
    if i == last {
      assert all[i := q][..last] == all[..last];
    } else {
      assert all[i := q][..last] == all[..last][i := q];
      TotalUpdate(all[..last], i, q, f);
    }
  }

  lemma {:induction false} TotalCovers(all: seq<Queue>, i: nat, f: Queue -> nat)
    requires i < |all|
    ensures f(all[i]) <= Total(all, f)
  {
    if i < |all| - 1 {
      TotalCovers(all[..|all|-1], i, f);
    }
  }

  function Busy(q: Queue): nat { if q.current.Some? then 1 else 0 }

  /** Two for every pending task and one for the current one. */
  function Work(q: Queue): nat { 2 * |q.tasks| + Busy(q) }

  // ---------- the invariant ----------

  /** A task's pending callbacks: a service task has its action in flight or nothing; a client task has
      its action in flight exactly while a cancel would still reach it, or one completion idle. */
  predicate Tied(t: Task, actions: nat, completions: nat) {
    match t
    case Service(_, action) => actions == (if action then 1 else 0) && completions == 0
    case Client(_, _, _, _, cancellable, connected) =>
      actions == (if connected && cancellable == Armed then 1 else 0) && actions + completions <= 1
  }

  /** A queue that has work to do and is waiting for its turn. */
  predicate Waiting(q: Queue) {
    (q.autoStart || (q.autoRemove && q.log.primed)) && q.tasks != [] && q.current.None? && !q.deferRemove
  }

  ghost predicate Linked(s: State, i: nat)
    requires i < |s.all|
  {
    var q := s.all[i];
    && QueueInv(q) && Owned(q, i, s.owner)
    && s.dispatches[i] == (if q.idle then 1 else 0)
    && (q.current.Some? ==> Tied(q.current.value, s.actions[q.current.value.id], s.completions[q.current.value.id]))
    && (!Live(s, i) ==> q.tasks == [] && q.current.None? && !q.idle)
    && s.finallies[i] + |q.log.finals| == (if Live(s, i) || !q.hasFinally then 0 else 1)
    && (forall n :: 0 <= n < |q.log.finals| ==> q.log.finals[n] == q.cancelled)
    && (Live(s, i) && !s.quitting ==> (q.deferRemove ==> q.current.Some?) && (Waiting(q) ==> q.idle))
    && (Live(s, i) && !s.quitting && q.autoRemove && q.log.primed ==> q.tasks != [] || q.current.Some?)
  }

  ghost predicate Held(s: State, id: nat) {
    id < |s.owner| && s.owner[id] < |s.all| && Holds(s.all[s.owner[id]], id)
  }

  ghost predicate Core(s: State) {
    && (forall i: nat :: i < |s.all| ==> Linked(s, i))
    && (forall k :: k in s.table ==> s.table[k] < |s.all| && s.all[s.table[k]].key == k)
    && (forall i :: i in s.dispatches || i in s.finallies ==> i < |s.all|)
    && (forall id :: id in s.actions || id in s.completions ==> Held(s, id))
    && (forall id: nat :: id < |s.owner| ==> s.owner[id] < |s.all| && id in s.all[s.owner[id]].log.added)
    && s.running == Total(s.all, Busy)
    && (s.quitting ==> s.running > 0 || s.quits > 0)
  }

  /** The current task waits for a callback that will come, or is a service task that failed. */
  ghost predicate SettledQueue(s: State, q: Queue) {
    q.current.Some? ==>
      var t := q.current.value;
      match t
      case Service(_, action) => action || q.log.everFailed
      case Client(_, command, _, _, _, _) => command == Deferred && s.actions[t.id] + s.completions[t.id] == 1
  }

  ghost predicate Settled(s: State) {
    forall i: nat :: i < |s.all| ==> SettledQueue(s, s.all[i])
  }

  ghost predicate SettledExcept(s: State, i: nat) {
    forall j: nat :: j < |s.all| && j != i ==> SettledQueue(s, s.all[j])
  }

  ghost predicate Inv(s: State) {
    Core(s) && Settled(s)
  }

  // ---------- changing one queue ----------

  /** s' differs from s at queue i only. */
  ghost predicate Touches(s: State, s': State, i: nat) {
    && i < |s.all| == |s'.all| && s'.quitting == s.quitting
    && (forall j: nat :: j < |s.all| && j != i ==> s'.all[j] == s.all[j] && (Live(s', j) <==> Live(s, j)))
    && (Live(s', i) ==> Live(s, i))
    && Grows(s.all[i], s'.all[i])
  }

  lemma OthersStayLinked(s: State, s': State, i: nat, q': Queue, j: nat)
    requires Core(s) && i < |s.all| && j < |s.all| && j != i
    requires s'.all == s.all[i := q'] && q'.key == s.all[i].key
    requires s'.table == s.table || (s'.table == s.table - {q'.key} && Live(s, i))
    requires s.owner <= s'.owner && s'.quitting == s.quitting
    requires s'.dispatches[j] == s.dispatches[j] && s'.finallies[j] == s.finallies[j]
    requires forall id: nat :: id < |s.owner| && s.owner[id] == j ==>
               s'.actions[id] == s.actions[id] && s'.completions[id] == s.completions[id]
    ensures Linked(s', j) && (Live(s', j) <==> Live(s, j))
  {
    hide Conserved, InOrder, Phases, Answers;
    var q := s.all[j];
    assert Linked(s, j);
    if q.current.Some? {
      CurrentIsAdded(q);
      assert s.owner[q.current.value.id] == j;
    }
    assert Live(s', j) <==> Live(s, j);
  }

  lemma CurrentIsAdded(q: Queue)
    requires InOrder(q) && q.current.Some?
    ensures q.current.value.id in q.log.added
  {
    var started := q.log.started;
    ShuffleMultiset(started, q.log.dropped, q.log.added[..Head(q)]);
    assert q.current.value.id == started[|started|-1];
    assert q.current.value.id in multiset(started);
    assert q.current.value.id in multiset(q.log.added[..Head(q)]);
  }

  /** The part of a change at queue i that the rest of the state sees. */
  ghost predicate LocalChange(s: State, s': State, i: nat, q': Queue) {
    && i < |s.all|
    && s'.all == s.all[i := q'] && q'.key == s.all[i].key
    && (s'.table == s.table || (s'.table == s.table - {q'.key} && Live(s, i)))
    && s'.quitting == s.quitting
    && Grows(s.all[i], q')
    && ((s'.owner == s.owner && q'.log.added == s.all[i].log.added) ||
        (s'.owner == s.owner + [i] && q'.log.added == s.all[i].log.added + [|s.owner|]))
    && (forall j :: j != i ==> s'.dispatches[j] == s.dispatches[j] && s'.finallies[j] == s.finallies[j])
    && (forall id: nat :: !(id < |s.owner| && s.owner[id] == i) ==>
          s'.actions[id] == s.actions[id] && s'.completions[id] == s.completions[id])
    && (forall id: nat :: id < |s.owner| && s.owner[id] == i && (id in s'.actions || id in s'.completions) ==>
         Holds(q', id))
  }

  lemma HeldUpdate(s: State, s': State, i: nat, q': Queue)
    requires LocalChange(s, s', i, q')
    requires forall id :: id in s.actions || id in s.completions ==> Held(s, id)
    ensures forall id :: id in s'.actions || id in s'.completions ==> Held(s', id)
  {
    forall id | id in s'.actions || id in s'.completions
      ensures Held(s', id)
    {
      if !(id < |s.owner| && s.owner[id] == i) {
        assert id in s.actions || id in s.completions;
        assert Held(s, id);
      }
    }
  }

  lemma TableUpdate(s: State, s': State, i: nat, q': Queue)
    requires LocalChange(s, s', i, q')
    requires forall k :: k in s.table ==> s.table[k] < |s.all| && s.all[s.table[k]].key == k
    requires forall j :: j in s.dispatches || j in s.finallies ==> j < |s.all|
    ensures forall k :: k in s'.table ==> s'.table[k] < |s'.all| && s'.all[s'.table[k]].key == k
    ensures forall j :: j in s'.dispatches || j in s'.finallies ==> j < |s'.all|
    ensures i < |s.all| && Total(s'.all, Busy) + Busy(s.all[i]) == Total(s.all, Busy) + Busy(q')
    ensures s'.all == s.all[i := q'] && s'.quitting == s.quitting
  {
    TotalUpdate(s.all, i, q', Busy);
  }

  lemma AddedUpdate(s: State, s': State, i: nat, q': Queue)
    requires LocalChange(s, s', i, q')
    requires forall id: nat :: id < |s.owner| ==> s.owner[id] < |s.all| && id in s.all[s.owner[id]].log.added
    ensures forall id: nat :: id < |s'.owner| ==> s'.owner[id] < |s'.all| && id in s'.all[s'.owner[id]].log.added
  {
    forall id: nat | id < |s'.owner|
      ensures s'.owner[id] < |s'.all| && id in s'.all[s'.owner[id]].log.added
    {
      if id == |s.owner| { assert q'.log.added[|s.all[i].log.added|] == id; }
    }
  }

  lemma TouchesUpdate(s: State, s': State, i: nat, q': Queue)
    requires LocalChange(s, s', i, q')
    requires forall k :: k in s.table ==> s.table[k] < |s.all| && s.all[s.table[k]].key == k
    ensures Touches(s, s', i)
  {}

  lemma OthersUpdate(s: State, s': State, i: nat, q': Queue)
    requires Core(s) && LocalChange(s, s', i, q')
    ensures forall j: nat :: j < |s'.all| && j != i ==> Linked(s', j)
  {
    hide Linked, Held;
    forall j: nat | j < |s'.all| && j != i
      ensures Linked(s', j)
    {
      OthersStayLinked(s, s', i, q', j);
    }
  }

  lemma SettledUpdate(s: State, s': State, i: nat, q': Queue)
    requires Core(s) && LocalChange(s, s', i, q') && SettledExcept(s, i)
    ensures SettledExcept(s', i)
  {
    hide Conserved, InOrder, Phases, Answers, Held;
    forall j: nat | j < |s'.all| && j != i
      ensures SettledQueue(s', s'.all[j])
    {
      var q := s.all[j];
      assert Linked(s, j);
      if q.current.Some? {
        CurrentIsAdded(q);
        assert s.owner[q.current.value.id] == j;
      }
    }
  }

  /** A change at queue i keeps `Core` if queue i is linked afterwards and nothing else is disturbed. */
  lemma CoreUpdate(s: State, s': State, i: nat, q': Queue)
    requires Core(s) && LocalChange(s, s', i, q')
    requires Linked(s', i)
    requires s'.running + Busy(s.all[i]) == s.running + Busy(q')
    requires s'.quitting ==> s'.running > 0 || s'.quits > 0
    ensures Core(s') && Touches(s, s', i)
    ensures SettledExcept(s, i) ==> SettledExcept(s', i)
  {
    hide Linked, Held, Live, Touches, SettledExcept, LocalChange;
    if SettledExcept(s, i) { SettledUpdate(s, s', i, q'); }
    TableUpdate(s, s', i, q');
    HeldUpdate(s, s', i, q');
    TouchesUpdate(s, s', i, q');
    AddedUpdate(s, s', i, q');
    OthersUpdate(s, s', i, q');
  }

  // ---------- the operations ----------

  /** Nothing is pending for the current task of queue i. */
  ghost predicate Detached(s: State, i: nat)
    requires i < |s.all|
  {
    s.all[i].current.Some? ==>
      s.actions[s.all[i].current.value.id] == 0 && s.completions[s.all[i].current.value.id] == 0
  }

  /** The task being completed: its queue is live, it is answered, and nothing is pending for it. */
  ghost predicate Completable(s: State, i: nat) {
    && Live(s, i) && s.all[i].current.Some? && Detached(s, i)
    && (s.all[i].current.value.Client? ==> !s.all[i].current.value.invocation)
  }

  lemma CompletableFacts(s: State, i: nat)
    requires Core(s) && Completable(s, i)
    ensures Live(s, i) && s.all[i].current.Some? && !s.all[i].idle && QueueInv(s.all[i])
    ensures s.all[i].current.value.Client? ==> !s.all[i].current.value.invocation
    ensures s.running > 0 && Linked(s, i)
    ensures forall id: nat :: id < |s.owner| && s.owner[id] == i ==> s.actions[id] == 0 && s.completions[id] == 0
  {
    assert Linked(s, i);
    TotalCovers(s.all, i, Busy);
    forall id: nat | id < |s.owner| && s.owner[id] == i
      ensures s.actions[id] == 0 && s.completions[id] == 0
    {
      assert id in s.actions || id in s.completions ==> Held(s, id);
    }
  }

  lemma TaskCompletedLinked(s: State, i: nat)
    requires Core(s) && Completable(s, i)
    ensures Linked(TaskCompleted(s, i), i)
  {
    hide Core, Completable, QueueInv, AfterEnd, Owned;
    CompletableFacts(s, i);
    var quit := s.quitting && s.running == 1;
    AfterEndKeeps(s.all[i], NextFor(s.all[i], quit), quit);
    OwnedSame(s.all[i], AfterEnd(s.all[i], NextFor(s.all[i], quit)), i, s.owner);
  }

  lemma OwnedSame(q: Queue, q': Queue, i: nat, owner: seq<nat>)
    requires Owned(q, i, owner) && q'.log.added == q.log.added
    ensures Owned(q', i, owner)
  {}

  lemma TaskCompletedLocal(s: State, i: nat)
    requires Core(s) && Completable(s, i)
    ensures LocalChange(s, TaskCompleted(s, i), i, TaskCompleted(s, i).all[i])
    ensures TaskCompleted(s, i).all[i].current.None?
  {
    hide Core, Completable, Linked, QueueInv, AfterEnd, NextFor;
    CompletableFacts(s, i);
    var quit := s.quitting && s.running == 1;
    AfterEndKeeps(s.all[i], NextFor(s.all[i], quit), quit);
  }

  lemma TaskCompletedCore(s: State, i: nat)
    requires Core(s) && Completable(s, i)
    ensures s.running > 0
    ensures Core(TaskCompleted(s, i)) && Touches(s, TaskCompleted(s, i), i)
    ensures SettledExcept(s, i) ==> Settled(TaskCompleted(s, i))
  {
    hide Core, Completable, Linked, LocalChange, Touches, AfterEnd;
    CompletableFacts(s, i);
    TaskCompletedLinked(s, i);
    TaskCompletedLocal(s, i);
    CoreUpdate(s, TaskCompleted(s, i), i, TaskCompleted(s, i).all[i]);
  }

  // ---------- changing the current task ----------

  /** Only queue i's current task changes, and only in ways that do not touch its name, together with
      the callbacks pending for it. */
  ghost predicate CurrentChange(s: State, s': State, i: nat, q': Queue) {
    && i < |s.all| && s.all[i].current.Some? && q'.current.Some?
    && SameShape(s.all[i], q') && q'.tasks == s.all[i].tasks && q'.idle == s.all[i].idle &&
         q'.cancelled == s.all[i].cancelled
    && q'.current.value.id == s.all[i].current.value.id
    && s' == s.(all := s.all[i := q'], actions := s'.actions, completions := s'.completions)
    && (forall x :: x != q'.current.value.id ==> s'.actions[x] == s.actions[x] && s'.completions[x] == s.completions[x])
    && Tied(q'.current.value, s'.actions[q'.current.value.id], s'.completions[q'.current.value.id])
  }

  lemma CurrentLinked(s: State, s': State, i: nat, q': Queue)
    requires Core(s) && CurrentChange(s, s', i, q') && QueueInv(q')
    ensures Linked(s', i) && LocalChange(s, s', i, q')
  {
    hide QueueInv, Owned;
    var q := s.all[i];
    assert Linked(s, i);
    OwnedSame(q, q', i, s.owner);
    forall id: nat | id < |s.owner| && s.owner[id] == i && (id in s'.actions || id in s'.completions)
      ensures Holds(q', id)
    {
      assert id != q'.current.value.id ==> id in s.actions || id in s.completions;
      assert id in s.actions || id in s.completions ==> Held(s, id);
    }
    OwnerOfCurrent(s, i);
  }

  lemma OwnerOfCurrent(s: State, i: nat)
    requires Core(s) && i < |s.all| && s.all[i].current.Some?
    ensures s.all[i].current.value.id < |s.owner| && s.owner[s.all[i].current.value.id] == i
  {
    assert Linked(s, i);
    CurrentIsAdded(s.all[i]);
  }

  lemma CurrentUpdate(s: State, s': State, i: nat, q': Queue)
    requires Core(s) && CurrentChange(s, s', i, q') && QueueInv(q')
    ensures Core(s') && Touches(s, s', i) && Live(s', i)
    ensures SettledExcept(s, i) ==> SettledExcept(s', i)
  {
    hide Linked, LocalChange, Held, QueueInv;
    CurrentLinked(s, s', i, q');
    CoreUpdate(s, s', i, q');
    CurrentIsLive(s, i);
  }

  lemma CurrentIsLive(s: State, i: nat)
    requires Core(s) && i < |s.all| && s.all[i].current.Some?
    ensures Live(s, i) && QueueInv(s.all[i]) && s.running > 0
    ensures Tied(s.all[i].current.value, s.actions[s.all[i].current.value.id], s.completions[s.all[i].current.value.id])
  {
    assert Linked(s, i);
    TotalCovers(s.all, i, Busy);
  }

  // ---------- removing and cancelling ----------

  lemma RemoveLinked(s: State, i: nat)
    requires Core(s) && Live(s, i) && s.all[i].current.None? && !s.all[i].idle && s.all[i].tasks == []
    ensures Linked(RemoveQueue(s, i), i)
    ensures LocalChange(s, RemoveQueue(s, i), i, Freed(s.all[i])) && Freed(s.all[i]).current.None?
  {
    hide QueueInv, Owned, Freed;
    assert Linked(s, i);
    FreedKeeps(s.all[i]);
    OwnedSame(s.all[i], Freed(s.all[i]), i, s.owner);
    forall id: nat | id < |s.owner| && s.owner[id] == i
      ensures id !in s.actions && id !in s.completions
    {
      assert id in s.actions || id in s.completions ==> Held(s, id);
    }
  }

  lemma RemoveCore(s: State, i: nat)
    requires Core(s) && Live(s, i) && s.all[i].current.None? && !s.all[i].idle && s.all[i].tasks == []
    ensures Core(RemoveQueue(s, i)) && Touches(s, RemoveQueue(s, i), i)
    ensures SettledExcept(s, i) ==> Settled(RemoveQueue(s, i))
  {
    hide Core, Linked, LocalChange, Touches, Freed;
    RemoveLinked(s, i);
    ShutdownHolds(s);
    CoreUpdate(s, RemoveQueue(s, i), i, Freed(s.all[i]));
  }

  lemma ShutdownHolds(s: State)
    requires Core(s)
    ensures s.quitting ==> s.running > 0 || s.quits > 0
  {}

  /** The state after the pending tasks of queue i were cancelled and its idle source removed. */
  function Emptied(s: State, i: nat): State
    requires i < |s.all|
  {
    Put(s, i, Dropped(s.all[i])).(
      dispatches := if s.all[i].idle then s.dispatches - multiset{i} else s.dispatches)
  }

  /** What `Core` says about queue i, without the rest. */
  lemma QueueFacts(s: State, i: nat)
    requires Core(s) && i < |s.all|
    ensures Linked(s, i)
    ensures s.all[i].current.Some? ==> s.running > 0
    ensures forall id: nat :: id < |s.owner| && s.owner[id] == i && (id in s.actions || id in s.completions) ==>
      Holds(s.all[i], id)
  {
    TotalCovers(s.all, i, Busy);
    forall id: nat | id < |s.owner| && s.owner[id] == i && (id in s.actions || id in s.completions)
      ensures Holds(s.all[i], id)
    {
      assert Held(s, id);
    }
  }

  lemma EmptiedLinked(s: State, i: nat)
    requires Core(s) && Live(s, i)
    ensures Linked(Emptied(s, i), i)
  {
    hide Core, QueueInv, Owned, Dropped;
    QueueFacts(s, i);
    DroppedKeeps(s.all[i]);
    OwnedSame(s.all[i], Dropped(s.all[i]), i, s.owner);
  }

  lemma EmptiedLocal(s: State, i: nat)
    requires Core(s) && Live(s, i)
    ensures LocalChange(s, Emptied(s, i), i, Dropped(s.all[i]))
    ensures Dropped(s.all[i]).current == s.all[i].current
  {
    hide Core, QueueInv, Dropped;
    QueueFacts(s, i);
    DroppedKeeps(s.all[i]);
  }

  lemma EmptiedCore(s: State, i: nat)
    requires Core(s) && Live(s, i)
    ensures Core(Emptied(s, i)) && Touches(s, Emptied(s, i), i) && Live(Emptied(s, i), i)
    ensures SettledExcept(s, i) ==> SettledExcept(Emptied(s, i), i)
    ensures Emptied(s, i).all[i].current == s.all[i].current
    ensures Emptied(s, i).all[i].tasks == [] && !Emptied(s, i).all[i].idle
  {
    hide Core, Linked, LocalChange, Touches;
    EmptiedLinked(s, i);
    EmptiedLocal(s, i);
    ShutdownHolds(s);
    CoreUpdate(s, Emptied(s, i), i, Dropped(s.all[i]));
  }

  lemma CancelServiceCore(s: State, i: nat)
    requires Core(s) && i < |s.all| && s.all[i].current.Some? && s.all[i].current.value.Service?
    ensures Core(CancelCurrent(s, i)) && Touches(s, CancelCurrent(s, i), i)
    ensures SettledExcept(s, i) ==> SettledExcept(CancelCurrent(s, i), i)
    ensures s.all[i].current.value.action ==> CancelCurrent(s, i).all[i].current.None?
  {
    hide Core, Linked, LocalChange, QueueInv, Touches, AfterEnd, SettledExcept;
    var q := s.all[i];
    var t := q.current.value;
    CurrentIsLive(s, i);
    if t.action {
      var q1 := q.(current := Some(t.(action := false)));
      var s1 := Put(s, i, q1).(actions := s.actions - multiset{t.id});
      CurrentKeeps(q, q1.current.value);
      CurrentUpdate(s, s1, i, q1);
      TaskCompletedCore(s1, i);
      AfterCompletion(s1, i);
      TouchesTrans(s, s1, TaskCompleted(s1, i), i);
      SettledWeaken(TaskCompleted(s1, i), i);
    } else {
      TouchesRefl(s, i);
    }
  }

  lemma AfterCompletion(s: State, i: nat)
    requires Core(s) && Completable(s, i)
    ensures TaskCompleted(s, i).all[i].current.None?
  {
    hide Core;
    TaskCompletedLocal(s, i);
  }

  lemma TouchesTrans(s: State, s1: State, s2: State, i: nat)
    requires Touches(s, s1, i) && Touches(s1, s2, i)
    ensures Touches(s, s2, i)
  {}

  lemma TouchesRefl(s: State, i: nat)
    requires i < |s.all|
    ensures Touches(s, s, i)
  {}

  lemma SettledWeaken(s: State, i: nat)
    ensures Settled(s) ==> SettledExcept(s, i)
  {}

  lemma SettledSplit(s: State, i: nat)
    requires i < |s.all|
    ensures Settled(s) <==> SettledExcept(s, i) && SettledQueue(s, s.all[i])
  {}

  lemma CancelClientQueue(q: Queue)
    requires QueueInv(q) && q.current.Some? && q.current.value.Client?
    ensures var q' := Replied(q, Cancelled).(current := Some(Cancelling(q.current.value)));
            QueueInv(q') && SameShape(q, q') && q'.tasks == q.tasks && q'.idle == q.idle && q'.cancelled == q.cancelled
            && q'.log.everFailed == q.log.everFailed
  {
    hide QueueInv, Reachable;
    RepliedKeeps(q, Cancelled);
    RepliedCurrent(q, Cancelled);
    CurrentKeeps(Replied(q, Cancelled), Cancelling(q.current.value));
  }

  lemma CancelClientChange(s: State, i: nat)
    requires Core(s) && i < |s.all| && s.all[i].current.Some? && s.all[i].current.value.Client?
    ensures CurrentChange(s, CancelCurrent(s, i), i, CancelCurrent(s, i).all[i])
    ensures QueueInv(CancelCurrent(s, i).all[i])
    ensures SettledQueue(s, s.all[i]) ==> SettledQueue(CancelCurrent(s, i), CancelCurrent(s, i).all[i])
  {
    hide Core, QueueInv, Replied, Live;
    CurrentIsLive(s, i);
    CancelClientQueue(s.all[i]);
  }

  lemma CancelClientCore(s: State, i: nat)
    requires Core(s) && i < |s.all| && s.all[i].current.Some? && s.all[i].current.value.Client?
    ensures Core(CancelCurrent(s, i)) && Touches(s, CancelCurrent(s, i), i)
    ensures SettledExcept(s, i) ==> SettledExcept(CancelCurrent(s, i), i)
    ensures SettledQueue(s, s.all[i]) ==> SettledQueue(CancelCurrent(s, i), CancelCurrent(s, i).all[i])
  {
    hide Core, QueueInv, Touches, SettledExcept, CancelCurrent, CurrentChange, Live, SettledQueue;
    CancelClientChange(s, i);
    CurrentUpdate(s, CancelCurrent(s, i), i, CancelCurrent(s, i).all[i]);
  }

  lemma RepliedCurrent(q: Queue, r: Reply)
    requires q.current.Some? && q.current.value.Client?
    ensures Replied(q, r).current == Some(q.current.value.(invocation := false))
  {}

  lemma CancelCurrentCore(s: State, i: nat)
    requires Core(s) && i < |s.all| && s.all[i].current.Some?
    ensures Core(CancelCurrent(s, i)) && Touches(s, CancelCurrent(s, i), i)
    ensures Settled(s) ==> Settled(CancelCurrent(s, i))
  {
    hide Core, QueueInv, Touches, SettledExcept, Settled, TaskCompleted, Live;
    SettledSplit(s, i);
    SettledSplit(CancelCurrent(s, i), i);
    if s.all[i].current.value.Client? {
      CancelClientCore(s, i);
    } else {
      CancelServiceCore(s, i);
    }
  }

  /** A live queue can be cancelled at any moment, even while its task is being processed. */
  lemma CancelQueueCore(s: State, i: nat)
    requires Core(s) && Live(s, i)
    ensures Core(CancelQueue(s, i)) && Touches(s, CancelQueue(s, i), i)
    ensures Settled(s) ==> Settled(CancelQueue(s, i))
    ensures s.all[i].current.None? && !s.all[i].autoRemove ==>
      CancelQueue(s, i) == Emptied(s, i) && Live(Emptied(s, i), i)
  {
    hide Core, QueueInv, Touches, SettledExcept, Settled, CancelCurrent, RemoveQueue, Emptied, Live, Dropped;
    EmptiedCore(s, i);
    LiveInRange(s, i);
    SettledSplit(s, i);
    var s1 := Emptied(s, i);
    LiveInRange(s1, i);
    SettledSplit(s1, i);
    CancelQueueSteps(s, i);
    EmptiedSettled(s, i);
    if s.all[i].current.Some? {
      CancelCurrentCore(s1, i);
      TouchesTrans(s, s1, CancelCurrent(s1, i), i);
    } else if s.all[i].autoRemove {
      RemoveCore(s1, i);
      TouchesTrans(s, s1, RemoveQueue(s1, i), i);
    }
  }

  lemma LiveInRange(s: State, i: nat)
    requires Live(s, i)
    ensures i < |s.all|
  {}

  lemma CancelQueueSteps(s: State, i: nat)
    requires i < |s.all|
    ensures Emptied(s, i).all[i].current == s.all[i].current
    ensures CancelQueue(s, i) ==
            if s.all[i].current.Some? then CancelCurrent(Emptied(s, i), i)
            else if s.all[i].autoRemove then RemoveQueue(Emptied(s, i), i)
            else Emptied(s, i)
  {
    hide CancelCurrent, RemoveQueue;
  }

  lemma EmptiedSettled(s: State, i: nat)
    requires i < |s.all|
    ensures SettledQueue(s, s.all[i]) <==> SettledQueue(Emptied(s, i), Emptied(s, i).all[i])
  {}
}
