/** What the invariant means for tasks, clients and shutdown, in every state and over whole runs. */
module ProcessorTheorems {
  import opened Options
  import opened TaskModel
  import opened QueueInvariant
  import opened ProcessorInvariant
  import opened ProcessorSteps
  import opened ProcessorRuns

  // ---------- conservation ----------

  /** The places a task can be in. */
  datatype Place = Pending(queue: nat, index: nat) | Running(queue: nat) | Deleted(queue: nat, index: nat)

  predicate At(s: State, id: nat, p: Place) {
    match p
    case Pending(i, n) => i < |s.all| && n < |s.all[i].tasks| && s.all[i].tasks[n].id == id
    case Running(i) => i < |s.all| && Holds(s.all[i], id)
    case Deleted(i, n) => i < |s.all| && n < |s.all[i].log.deleted| && s.all[i].log.deleted[n] == id
  }

  lemma InMultiset<T>(xs: seq<T>, n: nat)
    requires n < |xs|
    ensures multiset(xs)[xs[n]] > 0
  {
    assert xs[n] in multiset(xs);
  }

  lemma TwiceInMultiset<T>(xs: seq<T>, m: nat, n: nat)
    requires m < n < |xs| && xs[m] == xs[n]
    ensures multiset(xs)[xs[m]] >= 2
  {
    assert xs == xs[..n] + xs[n..];
    InMultiset(xs[..n], m);
    InMultiset(xs[n..], 0);
  }

  lemma {:induction false} NoDupCounts<T>(xs: seq<T>, x: T)
    requires NoDup(xs)
    ensures multiset(xs)[x] == if x in xs then 1 else 0
  {
    if xs != [] {
      var last := |xs| - 1;
      assert xs == xs[..last] + [xs[last]];
      NoDupCounts(xs[..last], x);
    }
  }

  /** Every task added is accounted for: deleted, current and pending tasks make up the added ones. */
  lemma Accounted(q: Queue)
    requires QueueInv(q)
    ensures multiset(q.log.added) == multiset(q.log.deleted) + multiset(CurrentIds(q)) + multiset(Ids(q.tasks))
    ensures multiset(q.log.deleted) == multiset(q.log.ended) + multiset(q.log.dropped)
  {
    hide Shuffle, Phases, Answers;
    ShuffleMultiset(q.log.started, q.log.dropped, q.log.added[..Head(q)]);
    ShuffleMultiset(q.log.ended, q.log.dropped, q.log.deleted);
    assert q.log.added == q.log.added[..Head(q)] + q.log.added[Head(q)..];
  }

  lemma AccountFor(q: Queue, i: nat, owner: seq<nat>, id: nat)
    requires QueueInv(q) && Owned(q, i, owner)
    ensures multiset(q.log.deleted)[id] + multiset(CurrentIds(q))[id] + multiset(Ids(q.tasks))[id]
            == if id in q.log.added then 1 else 0
    ensures id in q.log.added ==> id < |owner| && owner[id] == i
  {
    hide QueueInv;
    Accounted(q);
    NoDupCounts(q.log.added, id);
  }

  lemma AtMeansAdded(s: State, id: nat, p: Place)
    requires Inv(s) && At(s, id, p)
    ensures id in s.all[p.queue].log.added && id < |s.owner| && s.owner[id] == p.queue
  {
    hide QueueInv, Owned, Settled;
    var q := s.all[p.queue];
    assert Linked(s, p.queue);
    AccountFor(q, p.queue, s.owner, id);
    match p
    case Pending(_, n) => InMultiset(Ids(q.tasks), n);
    case Running(_) => InMultiset(CurrentIds(q), 0);
    case Deleted(_, n) => InMultiset(q.log.deleted, n);
  }

  lemma PlacesAgree(s: State, id: nat, p: Place, p': Place)
    requires Inv(s) && At(s, id, p) && At(s, id, p')
    ensures p == p'
  {
    hide QueueInv, Owned, Settled;
    AtMeansAdded(s, id, p);
    AtMeansAdded(s, id, p');
    var q := s.all[p.queue];
    assert Linked(s, p.queue);
    AccountFor(q, p.queue, s.owner, id);
    SamePlace(q, id, p, p');
  }

  lemma SamePlace(q: Queue, id: nat, p: Place, p': Place)
    requires p.queue == p'.queue
    requires multiset(q.log.deleted)[id] + multiset(CurrentIds(q))[id] + multiset(Ids(q.tasks))[id] <= 1
    requires match p
             case Pending(_, n) => n < |q.tasks| && q.tasks[n].id == id
             case Running(_) => Holds(q, id)
             case Deleted(_, n) => n < |q.log.deleted| && q.log.deleted[n] == id
    requires match p'
             case Pending(_, n) => n < |q.tasks| && q.tasks[n].id == id
             case Running(_) => Holds(q, id)
             case Deleted(_, n) => n < |q.log.deleted| && q.log.deleted[n] == id
    ensures p == p'
  {
    PlaceCounts(q, id, p);
    PlaceCounts(q, id, p');
    if p.Pending? && p'.Pending? && p.index != p'.index {
      var (m, n) := if p.index < p'.index then (p.index, p'.index) else (p'.index, p.index);
      TwiceInMultiset(Ids(q.tasks), m, n);
    }
    if p.Deleted? && p'.Deleted? && p.index != p'.index {
      var (m, n) := if p.index < p'.index then (p.index, p'.index) else (p'.index, p.index);
      TwiceInMultiset(q.log.deleted, m, n);
    }
  }

  lemma PlaceCounts(q: Queue, id: nat, p: Place)
    requires match p
             case Pending(_, n) => n < |q.tasks| && q.tasks[n].id == id
             case Running(_) => Holds(q, id)
             case Deleted(_, n) => n < |q.log.deleted| && q.log.deleted[n] == id
    ensures p.Pending? ==> multiset(Ids(q.tasks))[id] >= 1
    ensures p.Running? ==> multiset(CurrentIds(q))[id] >= 1
    ensures p.Deleted? ==> multiset(q.log.deleted)[id] >= 1
  {
    match p
    case Pending(_, n) => InMultiset(Ids(q.tasks), n);
    case Running(_) => InMultiset(CurrentIds(q), 0);
    case Deleted(_, n) => InMultiset(q.log.deleted, n);
  }

  lemma SomePlace(s: State, id: nat) returns (p: Place)
    requires Inv(s) && id < |s.owner|
    ensures At(s, id, p)
  {
    hide QueueInv, Owned, Settled;
    var i := s.owner[id];
    var q := s.all[i];
    assert Linked(s, i);
    AccountFor(q, i, s.owner, id);
    if id in multiset(q.log.deleted) {
      var n :| 0 <= n < |q.log.deleted| && q.log.deleted[n] == id;
      p := Deleted(i, n);
    } else if id in multiset(CurrentIds(q)) {
      p := Running(i);
    } else {
      assert id in multiset(Ids(q.tasks));
      var n :| 0 <= n < |Ids(q.tasks)| && Ids(q.tasks)[n] == id;
      p := Pending(i, n);
    }
  }

  /** Every task ever added is pending in one queue, once, or current in one queue, or was deleted, once;
      and only one of these. */
  lemma EveryTaskInOnePlace(ss: seq<State>, es: seq<Event>, n: nat, id: nat)
    requires Run(ss, es) && n < |ss| && id < |ss[n].owner|
    ensures exists p :: At(ss[n], id, p) && forall p' :: At(ss[n], id, p') ==> p' == p
  {
    hide Inv, Run, At;
    var s := ss[n];
    RunKeepsInv(ss, es, n);
    var p := SomePlace(s, id);
    forall p' | At(s, id, p') ensures p' == p {
      PlacesAgree(s, id, p, p');
    }
  }

  // ---------- the running counter ----------

  ghost function BusyQueues(s: State): set<nat> {
    set i: nat | i < |s.all| && Live(s, i) && s.all[i].current.Some?
  }

  lemma {:induction false} TotalIsCount(all: seq<Queue>)
    ensures Total(all, Busy) == |set i: nat | i < |all| && all[i].current.Some?|
  {
    var busy := set i: nat | i < |all| && all[i].current.Some?;
    if all != [] {
      var last := |all| - 1;
      var rest := set i: nat | i < |all[..last]| && all[..last][i].current.Some?;
      TotalIsCount(all[..last]);
      if all[last].current.Some? {
        assert busy == rest + {last};
      } else {
        assert busy == rest;
      }
    }
  }

  /** running_tasks is always the number of queues in the table that have a current task. */
  lemma RunningIsExact(ss: seq<State>, es: seq<Event>, n: nat)
    requires Run(ss, es) && n < |ss|
    ensures ss[n].running == |BusyQueues(ss[n])|
  {
    hide Linked, Settled, Run, Live, Step;
    var s := ss[n];
    RunKeepsInv(ss, es, n);
    TotalIsCount(s.all);
    forall i: nat | i < |s.all| && s.all[i].current.Some?
      ensures Live(s, i)
    {
      CurrentIsLive(s, i);
    }
    assert BusyQueues(s) == set i: nat | i < |s.all| && s.all[i].current.Some?;
  }

  // ---------- replies ----------

  lemma ReplyCount(q: Queue, i: nat, owner: seq<nat>, id: nat)
    requires QueueInv(q) && Owned(q, i, owner) && !q.service
    ensures multiset(ReplyIds(q.log.replies))[id]
            == if id in q.log.deleted || id in AnsweredIds(q) then 1 else 0
  {
    hide Shuffle, InOrder, Phases, Owned, Conserved;
    AccountFor(q, i, owner, id);
    Accounted(q);
    ShuffleMultiset(q.log.ended + AnsweredIds(q), q.log.dropped, ReplyIds(q.log.replies));
    assert multiset(AnsweredIds(q))[id] == if id in AnsweredIds(q) then 1 else 0;
    assert multiset(CurrentIds(q))[id] == if Holds(q, id) then 1 else 0;
    assert id in q.log.deleted <==> id in multiset(q.log.deleted);
  }

  /** Every client request is answered exactly once by the time it is deleted, and never twice; before
      that only a current request that was cancelled has been answered.  A request dies unanswered only
      in a queue marked for removal.  Tasks of the service itself get no replies. */
  lemma EveryRequestAnsweredOnce(ss: seq<State>, es: seq<Event>, n: nat, id: nat)
    requires Run(ss, es) && n < |ss| && id < |ss[n].owner|
    ensures ss[n].owner[id] < |ss[n].all|
    ensures
      var q := ss[n].all[ss[n].owner[id]];
      && (!q.service ==>
            multiset(ReplyIds(q.log.replies))[id]
            == if id in q.log.deleted || id in AnsweredIds(q) then 1 else 0)
      && (q.service ==> q.log.replies == [])
      && (!q.deferRemove ==> NoneDied(q.log.replies))
  {
    hide Run, Owned, InOrder, Phases, Conserved, Settled, Shuffle;
    RunKeepsInv(ss, es, n);
    var s := ss[n];
    var i := s.owner[id];
    assert Linked(s, i);
    if !s.all[i].service { ReplyCount(s.all[i], i, s.owner, id); }
  }

  // ---------- order ----------

  /** f lists the positions in c of the elements of a, in increasing order. */
  ghost predicate Positions<T>(f: seq<nat>, a: seq<T>, c: seq<T>) {
    && |f| == |a|
    && (forall n :: 0 <= n < |f| ==> f[n] < |c| && c[f[n]] == a[n])
    && (forall m, n :: 0 <= m < n < |f| ==> f[m] < f[n])
  }

  lemma {:induction false} ShufflePositions<T>(a: seq<T>, b: seq<T>, c: seq<T>) returns (f: seq<nat>)
    requires Shuffle(a, b, c)
    ensures Positions(f, a, c)
  {
    if c == [] {
      f := [];
    } else {
      var last := |c| - 1;
      if a != [] && a[|a|-1] == c[last] && Shuffle(a[..|a|-1], b, c[..last]) {
        f := ShufflePositions(a[..|a|-1], b, c[..last]);
        f := f + [last];
      } else {
        f := ShufflePositions(a, b[..|b|-1], c[..last]);
      }
    }
  }

  lemma StartedPositions(q: Queue) returns (f: seq<nat>)
    requires QueueInv(q)
    ensures Positions(f, q.log.started, q.log.added)
  {
    hide Shuffle, Phases, Answers, Conserved;
    f := ShufflePositions(q.log.started, q.log.dropped, q.log.added[..Head(q)]);
  }

  lemma UncancelledPrefix(q: Queue)
    requires QueueInv(q) && !q.log.everCancelled
    ensures q.log.started <= q.log.added
  {
    hide Shuffle, Phases, Answers, Conserved;
    ShuffleNothing(q.log.started, q.log.added[..Head(q)]);
  }

  /** A queue starts its tasks one at a time, each when the one before has ended, in the order they were
      added; without leaving any out if it is never cancelled. */
  lemma QueuesAreSerial(ss: seq<State>, es: seq<Event>, n: nat, i: nat)
    requires Run(ss, es) && n < |ss| && i < |ss[n].all|
    ensures
      var q := ss[n].all[i];
      && (exists f :: Positions(f, q.log.started, q.log.added))
      && (!q.log.everCancelled ==> q.log.started <= q.log.added)
      && q.log.started == q.log.ended + CurrentIds(q)
  {
    hide Run, Owned, Phases, Answers, Conserved, Settled, Shuffle, Positions;
    RunKeepsInv(ss, es, n);
    assert Linked(ss[n], i);
    var q := ss[n].all[i];
    var f := StartedPositions(q);
    if !q.log.everCancelled { UncancelledPrefix(q); }
  }

  // ---------- nothing cancelled ever starts ----------

  lemma GrowsTrans(q: Queue, q1: Queue, q2: Queue)
    requires Grows(q, q1) && Grows(q1, q2)
    ensures Grows(q, q2)
  {}

  ghost predicate AllGrow(s: State, s': State) {
    |s.all| <= |s'.all| && forall j: nat :: j < |s.all| ==> Grows(s.all[j], s'.all[j])
  }

  lemma TouchesGrow(s: State, s': State, i: nat)
    requires Touches(s, s', i)
    ensures AllGrow(s, s') && |s'.all| == |s.all|
  {}

  lemma AllGrowTrans(s: State, s1: State, s2: State)
    requires AllGrow(s, s1) && AllGrow(s1, s2)
    ensures AllGrow(s, s2)
  {
    forall j: nat | j < |s.all| ensures Grows(s.all[j], s2.all[j]) {
      GrowsTrans(s.all[j], s1.all[j], s2.all[j]);
    }
  }

  lemma {:induction false} RemoveForGrows(s: State, sel: Selector, order: seq<nat>)
    requires Inv(s) && Walk(s, order)
    requires forall n :: 0 <= n < |order| && Selects(sel, s.all[order[n]].key) ==> Removable(s.all[order[n]])
    ensures AllGrow(s, RemoveFor(s, sel, order))
    decreases |order|
  {
    hide Core, Settled, RemoveOne, Touches, Grows;
    if order == [] {
      AllGrowRefl(s);
    } else {
      var s1 := RemoveOne(s, sel, order[0]);
      RemoveOneCore(s, sel, order[0]);
      WalkGoesOn(s, s1, order);
      TouchesGrow(s, s1, order[0]);
      RemoveForGrows(s1, sel, order[1..]);
      AllGrowTrans(s, s1, RemoveFor(s1, sel, order[1..]));
    }
  }

  lemma AllGrowRefl(s: State)
    ensures AllGrow(s, s)
  {}

  lemma {:induction false} CancelAllGrows(s: State, order: seq<nat>)
    requires Inv(s) && Walk(s, order)
    ensures AllGrow(s, CancelAll(s, order))
    decreases |order|
  {
    hide Core, Settled, CancelQueue, Touches, Grows;
    if order == [] {
      AllGrowRefl(s);
    } else {
      var s1 := CancelQueue(s, order[0]);
      CancelQueueCore(s, order[0]);
      WalkGoesOn(s, s1, order);
      TouchesGrow(s, s1, order[0]);
      CancelAllGrows(s1, order[1..]);
      AllGrowTrans(s, s1, CancelAll(s1, order[1..]));
    }
  }

  lemma SetQuittingGrows(s: State, order: seq<nat>)
    requires Inv(s) && Walk(s, order)
    ensures AllGrow(s, SetQuitting(s, order))
  {
    hide Core, Settled, Grows;
    AllGrowRefl(s);
    if s.running > 0 {
      QuittingCore(s, s.quits);
      CancelAllGrows(s.(quitting := true), order);
    }
  }

  lemma AddQueueGrows(s: State, key: QueueKey, autoStart: bool, autoRemove: bool, service: bool, hasFinally: bool)
    ensures AllGrow(s, AddQueue(s, key, autoStart, autoRemove, service, hasFinally))
  {}

  lemma StepGrows(s: State, e: Event)
    requires Inv(s) && May(s, e) && Safe(s, e)
    ensures AllGrow(s, Step(s, e))
  {
    hide Core, Settled, AddQueue, AddTask, StartQueue, Dispatch, ActionReply, CompletionIdle, CancelQueue, RemoveFor,
      SetQuitting, FinallyIdle, Touches, AllGrow;
    match e
    case QueueAdded(key, autoStart, autoRemove, service, hasFinally) =>
      AddQueueGrows(s, key, autoStart, autoRemove, service, hasFinally);
    case TaskAdded(i, command) => AddTaskCore(s, i, command); TouchesGrow(s, AddTask(s, i, command), i);
    case QueueStarted(i) => StartCore(s, i); TouchesGrow(s, StartQueue(s, i), i);
    case DispatchRuns(i, o) => DispatchCore(s, i, o); TouchesGrow(s, Dispatch(s, i, o), i);
    case ActionEnds(id, ok) => ActionReplyCore(s, id, ok); TouchesGrow(s, ActionReply(s, id, ok), s.owner[id]);
    case CompletionRuns(id) => CompletionCore(s, id); TouchesGrow(s, CompletionIdle(s, id), s.owner[id]);
    case QueueCancelled(i) => CancelQueueCore(s, i); TouchesGrow(s, CancelQueue(s, i), i);
    case QueuesRemoved(sel, order) => RemoveForGrows(s, sel, order);
    case QuitRequested(order) => SetQuittingGrows(s, order);
    case FinallyRuns(i) => FinallyCore(s, i); TouchesGrow(s, FinallyIdle(s, i), i);
  }

  lemma {:induction false} RunGrows(ss: seq<State>, es: seq<Event>, m: nat, n: nat)
    requires Run(ss, es) && m <= n < |ss|
    ensures AllGrow(ss[m], ss[n])
    decreases n
  {
    hide Inv, Step, AllGrow, May, Safe;
    if m == n {
      AllGrowRefl(ss[m]);
    } else {
      RunGrows(ss, es, m, n - 1);
      RunKeepsInv(ss, es, n - 1);
      StepGrows(ss[n - 1], es[n - 1]);
      AllGrowTrans(ss[m], ss[n - 1], ss[n]);
    }
  }

  lemma CancelDrops(s: State, i: nat)
    requires Core(s) && Live(s, i)
    ensures i < |CancelQueue(s, i).all| &&
      s.all[i].log.dropped + Ids(s.all[i].tasks) <= CancelQueue(s, i).all[i].log.dropped
  {
    hide Core, CancelCurrent, RemoveQueue, CancelQueue;
    EmptiedCore(s, i);
    CancelQueueSteps(s, i);
    var s1 := Emptied(s, i);
    if s.all[i].current.Some? {
      CancelCurrentCore(s1, i);
    } else if s.all[i].autoRemove {
      RemoveCore(s1, i);
    }
  }

  lemma DroppedNotStarted(q: Queue, i: nat, owner: seq<nat>, id: nat)
    requires QueueInv(q) && Owned(q, i, owner) && id in q.log.dropped
    ensures id !in q.log.started && id in q.log.deleted
  {
    hide Shuffle, Phases, Answers;
    ShuffleMultiset(q.log.started, q.log.dropped, q.log.added[..Head(q)]);
    ShuffleMultiset(q.log.ended, q.log.dropped, q.log.deleted);
    assert NoDup(q.log.added[..Head(q)]);
    NoDupCounts(q.log.added[..Head(q)], id);
    assert id in multiset(q.log.dropped);
    assert id in multiset(q.log.deleted);
  }

  /** The pending tasks of queue i go onto its list of dropped ones. */
  ghost predicate Drops(s: State, s': State, i: nat) {
    i < |s.all| && i < |s'.all| && s.all[i].log.dropped + Ids(s.all[i].tasks) <= s'.all[i].log.dropped
  }

  lemma DropsThenGrows(s: State, s1: State, s2: State, i: nat)
    requires Drops(s, s1, i) && AllGrow(s1, s2)
    ensures Drops(s, s2, i)
  {
    hide Ids;
    assert Grows(s1.all[i], s2.all[i]);
  }

  lemma {:induction false} CancelAllDrops(s: State, order: seq<nat>, i: nat)
    requires Inv(s) && Walk(s, order) && i in order
    ensures Drops(s, CancelAll(s, order), i)
    decreases |order|
  {
    hide Core, Settled, CancelQueue, Touches, Grows, AllGrow, Ids;
    var s1 := CancelQueue(s, order[0]);
    CancelQueueCore(s, order[0]);
    WalkGoesOn(s, s1, order);
    if i == order[0] {
      CancelDrops(s, i);
      CancelAllGrows(s1, order[1..]);
      DropsThenGrows(s, s1, CancelAll(s1, order[1..]), i);
    } else {
      var n :| 0 <= n < |order[1..]| && order[1..][n] == i;
      assert s1.all[i] == s.all[i];
      CancelAllDrops(s1, order[1..], i);
    }
  }

  lemma RemoveOneDrops(s: State, sel: Selector, i: nat)
    requires Inv(s) && Live(s, i) && Selects(sel, s.all[i].key) && Removable(s.all[i]) && !s.all[i].deferRemove
    ensures Drops(s, RemoveOne(s, sel, i), i)
  {
    hide Core, Settled, CancelQueue, Touches, Selects, Ids;
    var q := s.all[i];
    var s0 := Put(s, i, Deferring(q));
    if q.current.Some? {
      DeferringCore(s, i);
      CancelDrops(s0, i);
    } else {
      assert s0 == s;
      CancelDrops(s, i);
    }
  }

  lemma {:induction false} RemoveForDrops(s: State, sel: Selector, order: seq<nat>, i: nat)
    requires Inv(s) && Walk(s, order) && i in order
    requires forall n :: 0 <= n < |order| && Selects(sel, s.all[order[n]].key) ==> Removable(s.all[order[n]])
    requires Selects(sel, s.all[i].key) && !s.all[i].deferRemove
    ensures Drops(s, RemoveFor(s, sel, order), i)
    decreases |order|
  {
    hide Core, Settled, RemoveOne, Touches, Grows, AllGrow, Ids, Selects;
    var s1 := RemoveOne(s, sel, order[0]);
    RemoveOneCore(s, sel, order[0]);
    WalkGoesOn(s, s1, order);
    if i == order[0] {
      RemoveOneDrops(s, sel, i);
      RemoveForGrows(s1, sel, order[1..]);
      DropsThenGrows(s, s1, RemoveFor(s1, sel, order[1..]), i);
    } else {
      var n :| 0 <= n < |order[1..]| && order[1..][n] == i;
      assert s1.all[i] == s.all[i];
      RemoveForDrops(s1, sel, order[1..], i);
    }
  }

  /** What is pending in queue i when an event cancels it: all of it, or all but the task that is taken off
      first when that one fails and has its own queue cancelled. */
  function Doomed(s: State, e: Event, i: nat): seq<Task>
    requires i < |s.all|
  {
    var q := s.all[i];
    match e
    case QueueCancelled(j) => if i == j then q.tasks else []
    case QueuesRemoved(sel, _) => if Live(s, i) && Selects(sel, q.key) && !q.deferRemove then q.tasks else []
    case QuitRequested(_) => if Live(s, i) && s.running > 0 then q.tasks else []
    case DispatchRuns(j, o) => if i == j && q.service && o.failed && q.tasks != [] then q.tasks[1..] else []
    case _ => []
  }

  lemma DoomedDrop(s: State, e: Event, i: nat)
    requires Inv(s) && May(s, e) && Safe(s, e) && i < |s.all| && Doomed(s, e, i) != []
    ensures i < |Step(s, e).all| && s.all[i].log.dropped + Ids(Doomed(s, e, i)) <= Step(s, e).all[i].log.dropped
  {
    hide Core, Settled, CancelQueue, RemoveFor, Dispatch;
    match e
    case QueueCancelled(_) => QueueCancelDrops(s, i);
    case QueuesRemoved(sel, order) => RemoveForDrops(s, sel, order, i);
    case QuitRequested(order) =>
      QuittingCore(s, s.quits);
      CancelAllDrops(s.(quitting := true), order, i);
      DropsSame(s, s.(quitting := true), Step(s, e), i);
    case DispatchRuns(_, o) => FailureDrops(s, i, o);
    case _ =>
  }

  lemma FailureDrops(s: State, i: nat, o: Outcome)
    requires Inv(s) && Safe(s, DispatchRuns(i, o)) && i in s.dispatches && s.all[i].service && o.failed
    ensures i < |Dispatch(s, i, o).all|
    ensures s.all[i].log.dropped + Ids(s.all[i].tasks[1..]) <= Dispatch(s, i, o).all[i].log.dropped
  {
    hide Core, Settled, SettledExcept, Detached, QueueInv, Touches, CancelQueue, CurrentChange;
    StartingCore(s, i);
    var s1 := Starting(s, i);
    var s2 := ServiceBegun(s1, i, o);
    ServiceBegunChange(s1, i, o);
    CurrentUpdate(s1, s2, i, s2.all[i]);
    CancelDrops(s2, i);
  }

  lemma QueueCancelDrops(s: State, i: nat)
    requires Core(s) && Live(s, i)
    ensures Drops(s, CancelQueue(s, i), i)
  {
    hide Core, Settled, CancelQueue;
    CancelDrops(s, i);
  }

  lemma DropsSame(s: State, s1: State, s2: State, i: nat)
    requires Drops(s1, s2, i) && s1.all == s.all
    ensures Drops(s, s2, i)
  {}

  /** What was pending when its queue was cancelled, by itself, by the failure of its own task, with all queues
      of its source or sink or in a shutdown, is deleted and never starts, at any later time. */
  lemma CancelledNeverStarts(ss: seq<State>, es: seq<Event>, m: nat, n: nat, i: nat, x: nat)
    requires Run(ss, es) && m < n < |ss| && i < |ss[m].all| && x < |Doomed(ss[m], es[m], i)|
    ensures i < |ss[n].all|
    ensures Doomed(ss[m], es[m], i)[x].id !in ss[n].all[i].log.started
    ensures Doomed(ss[m], es[m], i)[x].id in ss[n].all[i].log.deleted
  {
    hide QueueInv, Owned, Settled, Step, May, Safe, Doomed, AllGrow;
    RunKeepsInv(ss, es, m);
    RunKeepsInv(ss, es, n);
    RunGrows(ss, es, m + 1, n);
    DoomedDrop(ss[m], es[m], i);
    var before, doomed := ss[m].all[i].log.dropped, Doomed(ss[m], es[m], i);
    DroppedStay(ss[m + 1], ss[n], i, before + Ids(doomed));
    var dropped := ss[n].all[i].log.dropped;
    assert doomed[x].id == (before + Ids(doomed))[|before| + x] == dropped[|before| + x];
    assert Linked(ss[n], i);
    DroppedNotStarted(ss[n].all[i], i, ss[n].owner, doomed[x].id);
  }

  lemma DroppedStay(s: State, s': State, i: nat, ids: seq<nat>)
    requires AllGrow(s, s') && i < |s.all| && ids <= s.all[i].log.dropped
    ensures i < |s'.all| && ids <= s'.all[i].log.dropped
  {
    assert Grows(s.all[i], s'.all[i]);
  }

  // ---------- progress ----------

  /** Outside shutdown no queue stalls: one that has work and is due to run has its dispatch idle pending,
      and a current task that did not fail has a callback pending. */
  lemma NothingStalls(ss: seq<State>, es: seq<Event>, n: nat, i: nat)
    requires Run(ss, es) && n < |ss| && Live(ss[n], i)
    ensures
      var s := ss[n];
      var q := s.all[i];
      && (!s.quitting && Waiting(q) ==> i in s.dispatches)
      && (q.current.Some? && !q.log.everFailed ==>
           q.current.value.id in s.actions || q.current.value.id in s.completions)
  {
    hide QueueInv, Owned, Run;
    RunKeepsInv(ss, es, n);
    assert Linked(ss[n], i);
    assert SettledQueue(ss[n], ss[n].all[i]);
  }

  /** A dispatch idle is pending, once, exactly when its queue's flag says so, and then the queue is in the
      table with a task to take and none at work; a queue that has left the table has nothing left. */
  lemma IdlesFindWork(ss: seq<State>, es: seq<Event>, n: nat, i: nat)
    requires Run(ss, es) && n < |ss| && i < |ss[n].all|
    ensures
      var s := ss[n];
      var q := s.all[i];
      && s.dispatches[i] == (if q.idle then 1 else 0)
      && (q.idle ==> Live(s, i) && q.tasks != [] && q.current.None? && !q.deferRemove)
      && (!Live(s, i) ==> q.tasks == [] && q.current.None? && i !in s.dispatches)
  {
    hide InOrder, Conserved, Answers, Owned, Run, Settled;
    RunKeepsInv(ss, es, n);
    assert Linked(ss[n], i);
  }

  /** How many dispatches and completions happen between states m and n of a run. */
  ghost function Done(ss: seq<State>, es: seq<Event>, m: nat, n: nat): nat
    requires Run(ss, es) && m <= n < |ss|
    decreases n
  {
    if m == n then 0 else Done(ss, es, m, n - 1) + (if GetsWorkDone(ss[n - 1], es[n - 1]) then 1 else 0)
  }

  /** Without new tasks there are at most as many dispatches and completions as twice the pending tasks
      plus the current ones: every queue drains. */
  lemma {:induction false} WorkRunsOut(ss: seq<State>, es: seq<Event>, m: nat, n: nat)
    requires Run(ss, es) && m <= n < |ss|
    requires forall x :: m <= x < n ==> !es[x].TaskAdded?
    ensures Done(ss, es, m, n) + Total(ss[n].all, Work) <= Total(ss[m].all, Work)
    decreases n
  {
    hide Inv, Step, May, Safe, Total, GetsWorkDone;
    if m < n {
      WorkRunsOut(ss, es, m, n - 1);
      RunKeepsInv(ss, es, n - 1);
      StepEffects(ss[n - 1], es[n - 1]);
    }
  }

  // ---------- shutdown ----------

  /** A shutdown is never lost: while quitting, something is running or the quit idle has been added. */
  lemma ShutdownIsNotLost(ss: seq<State>, es: seq<Event>, n: nat)
    requires Run(ss, es) && n < |ss|
    ensures ss[n].quitting ==> ss[n].running > 0 || ss[n].quits > 0
  {
    hide Run, Linked;
    RunKeepsInv(ss, es, n);
  }

  /** The quit idle is added one at a time, and only by an event that leaves the processor quitting with
      nothing running. */
  lemma QuitOnlyWhenIdle(ss: seq<State>, es: seq<Event>, n: nat)
    requires Run(ss, es) && n < |es|
    ensures QuitRight(ss[n], ss[n + 1])
  {
    hide Inv, Step, QuitRight, May, Safe;
    RunKeepsInv(ss, es, n);
    StepEffects(ss[n], es[n]);
  }

  /** In every state of every run, whatever can happen next finds what the C code expects. */
  lemma NothingUnsafe(ss: seq<State>, es: seq<Event>, n: nat, e: Event)
    requires Run(ss, es) && n < |ss| && May(ss[n], e)
    ensures Safe(ss[n], e)
  {
    hide Run, Inv, May, Safe;
    RunKeepsInv(ss, es, n);
    MayIsSafe(ss[n], e);
  }
}
