/**
 What holds of one queue, whatever the rest of the processor does: how its real fields
 relate to the log of the callbacks made on its tasks, and what state its tasks can be in.
 */
module QueueInvariant {
  import opened Options
  import opened TaskModel

  /** c is a and b shuffled together: each element of c comes from one of them, in its order there. */
  ghost predicate Shuffle<T>(a: seq<T>, b: seq<T>, c: seq<T>)
    decreases |c|
  {
    if c == [] then a == [] && b == [] else
      || (a != [] && a[|a|-1] == c[|c|-1] && Shuffle(a[..|a|-1], b, c[..|c|-1]))
      || (b != [] && b[|b|-1] == c[|c|-1] && Shuffle(a, b[..|b|-1], c[..|c|-1]))
  }

  function ReplyIds(replies: seq<(nat, Reply)>): (r: seq<nat>)
    ensures |r| == |replies|
    ensures forall n :: 0 <= n < |replies| ==> r[n] == replies[n].0
  {
    seq(|replies|, n requires 0 <= n < |replies| => replies[n].0)
  }

  ghost predicate NoneDied(replies: seq<(nat, Reply)>) {
    forall n :: 0 <= n < |replies| ==> replies[n].1 != Died
  }

  /** The current task, when it is a request that has been answered already. */
  function AnsweredIds(q: Queue): seq<nat> {
    if q.current.Some? && q.current.value.Client? && !q.current.value.invocation then [q.current.value.id] else []
  }

  /** How many of the added tasks have left the pending list. */
  function Head(q: Queue): int {
    |q.log.added| - |q.tasks|
  }

  /** The pending tasks are the last ones added.  Those before them were started or dropped while
      pending, each in the order of adding; the started ones are those that ended and the current one.
      A queue that was never cancelled has dropped nothing. */
  ghost predicate InOrder(q: Queue) {
    && 0 <= Head(q)
    && Ids(q.tasks) == q.log.added[Head(q)..]
    && q.log.started == q.log.ended + CurrentIds(q)
    && Shuffle(q.log.started, q.log.dropped, q.log.added[..Head(q)])
    && (!q.log.everCancelled ==> q.log.dropped == [])
  }

  /** Deleted are the tasks that ended and the tasks dropped. */
  ghost predicate Conserved(q: Queue) {
    Shuffle(q.log.ended, q.log.dropped, q.log.deleted)
  }

  /** Requests are answered when they end, unless they were before, and when they are dropped;
      only a queue marked for removal lets one die. */
  ghost predicate Answers(q: Queue) {
    && (q.service ==> q.log.replies == [])
    && (!q.service ==> Shuffle(q.log.ended + AnsweredIds(q), q.log.dropped, ReplyIds(q.log.replies)))
    && (!q.deferRemove ==> NoneDied(q.log.replies))
  }

  predicate Fresh(t: Task, service: bool) {
    t == NewTask(service, t.id, if t.Client? then t.command else Answered)
  }

  ghost predicate Phases(q: Queue) {
    && (forall n :: 0 <= n < |q.tasks| ==> Fresh(q.tasks[n], q.service))
    && (q.current.Some? ==> q.current.value.Service? == q.service)
    && (q.idle ==> q.tasks != [] && q.current.None? && !q.deferRemove)
    && (q.cancelled ==> q.log.everCancelled)
    && (q.deferRemove ==> q.log.everCancelled)
  }

  ghost predicate NoDup<T>(a: seq<T>) {
    forall m, n :: 0 <= m < n < |a| ==> a[m] != a[n]
  }

  /** Tasks belong to the queue they were added to. */
  ghost predicate Owned(q: Queue, i: nat, owner: seq<nat>) {
    && NoDup(q.log.added)
    && (forall n :: 0 <= n < |q.log.added| ==> q.log.added[n] < |owner| && owner[q.log.added[n]] == i)
  }

  ghost predicate QueueInv(q: Queue) {
    InOrder(q) && Conserved(q) && Phases(q) && Answers(q)
  }

  /** A queue stays what it is and its log only gets longer. */
  predicate Grows(q: Queue, q': Queue) {
    && q'.key == q.key && q'.autoStart == q.autoStart
    && q'.service == q.service && q'.autoRemove == q.autoRemove && q'.hasFinally == q.hasFinally
    && (q.log.everFailed ==> q'.log.everFailed) && q.log.added <= q'.log.added
    && q.log.started <= q'.log.started && q.log.ended <= q'.log.ended && q.log.dropped <= q'.log.dropped
    && q.log.deleted <= q'.log.deleted && q.log.replies <= q'.log.replies && q.log.finals <= q'.log.finals
  }

  /** The fields of a queue that hardly any callback changes. */
  predicate SameShape(q: Queue, q': Queue) {
    && q'.deferRemove == q.deferRemove
    && q'.log.added == q.log.added && q'.log.finals == q.log.finals
    && Grows(q, q')
  }

  // ---------- shuffles ----------

  lemma ShuffleSnoc<T>(a: seq<T>, b: seq<T>, c: seq<T>, x: T)
    requires Shuffle(a, b, c)
    ensures Shuffle(a + [x], b, c + [x])
    ensures Shuffle(a, b + [x], c + [x])
  {
    assert (a + [x])[..|a|] == a && (b + [x])[..|b|] == b && (c + [x])[..|c|] == c;
  }

  lemma {:induction false} ShuffleAppend<T>(a: seq<T>, b: seq<T>, c: seq<T>, xs: seq<T>)
    requires Shuffle(a, b, c)
    ensures Shuffle(a, b + xs, c + xs)
    decreases |xs|
  {
    if xs == [] {
      assert b + xs == b && c + xs == c;
    } else {
      ShuffleSnoc(a, b, c, xs[0]);
      ShuffleAppend(a, b + [xs[0]], c + [xs[0]], xs[1..]);
      assert b + [xs[0]] + xs[1..] == b + xs && c + [xs[0]] + xs[1..] == c + xs;
    }
  }

  lemma {:induction false} ShuffleNothing<T>(a: seq<T>, c: seq<T>)
    requires Shuffle(a, [], c)
    ensures a == c
  {
    if c != [] {
      ShuffleNothing(a[..|a|-1], c[..|c|-1]);
    }
  }

  lemma {:induction false} ShuffleMultiset<T>(a: seq<T>, b: seq<T>, c: seq<T>)
    requires Shuffle(a, b, c)
    ensures multiset(c) == multiset(a) + multiset(b)
  {
    if c != [] {
      var c' := c[..|c|-1];
      assert c == c' + [c[|c|-1]];
      if a != [] && a[|a|-1] == c[|c|-1] && Shuffle(a[..|a|-1], b, c') {
        ShuffleMultiset(a[..|a|-1], b, c');
        assert a == a[..|a|-1] + [a[|a|-1]];
      } else {
        ShuffleMultiset(a, b[..|b|-1], c');
        assert b == b[..|b|-1] + [b[|b|-1]];
      }
    }
  }

  lemma {:induction false} RepliesToFresh(tasks: seq<Task>, r: Reply)
    requires forall n :: 0 <= n < |tasks| ==> Fresh(tasks[n], false)
    ensures ReplyIds(RepliesTo(tasks, r)) == Ids(tasks)
    ensures forall n :: 0 <= n < |RepliesTo(tasks, r)| ==> RepliesTo(tasks, r)[n].1 == r
  {
    if tasks != [] {
      RepliesToFresh(tasks[1..], r);
      assert tasks == [tasks[0]] + tasks[1..];
      assert RepliesTo(tasks, r) == [(tasks[0].id, r)] + RepliesTo(tasks[1..], r);
    }
  }

  lemma {:induction false} RepliesToServices(tasks: seq<Task>, r: Reply)
    requires forall n :: 0 <= n < |tasks| ==> Fresh(tasks[n], true)
    ensures RepliesTo(tasks, r) == []
  {
    if tasks != [] { RepliesToServices(tasks[1..], r); }
  }

  lemma ReplyIdsAppend(a: seq<(nat, Reply)>, b: seq<(nat, Reply)>)
    ensures ReplyIds(a + b) == ReplyIds(a) + ReplyIds(b)
  {}

  // ---------- what one queue does keeps its invariant ----------

  lemma FlushOrder(q: Queue, q': Queue)
    requires InOrder(q) && q.log.everCancelled
    requires q'.log.everCancelled && q'.tasks == [] && q'.current == q.current
    requires q'.log.added == q.log.added && q'.log.started == q.log.started && q'.log.ended == q.log.ended
    requires q'.log.dropped == q.log.dropped + Ids(q.tasks)
    ensures InOrder(q')
  {
    ShuffleAppend(q.log.started, q.log.dropped, q.log.added[..Head(q)], Ids(q.tasks));
    assert q'.log.added[..Head(q')] == q.log.added[..Head(q)] + Ids(q.tasks);
  }

  lemma FlushAnswers(q: Queue, r: Reply, q': Queue)
    requires Answers(q) && Phases(q)
    requires r == Died ==> q.deferRemove
    requires q'.service == q.service && q'.deferRemove == q.deferRemove && q'.current == q.current
    requires q'.log.ended == q.log.ended && q'.log.dropped == q.log.dropped + Ids(q.tasks)
    requires q'.log.replies == q.log.replies + RepliesTo(q.tasks, r)
    ensures Answers(q')
  {
    if q.service {
      RepliesToServices(q.tasks, r);
    } else {
      RepliesToFresh(q.tasks, r);
      ReplyIdsAppend(q.log.replies, RepliesTo(q.tasks, r));
      ShuffleAppend(q.log.ended + AnsweredIds(q), q.log.dropped, ReplyIds(q.log.replies), Ids(q.tasks));
    }
  }

  /** Deleting everything pending, with whatever reply. */
  lemma FlushKeeps(q: Queue, r: Reply)
    requires QueueInv(q) && q.log.everCancelled && !q.idle
    requires r == Died ==> q.deferRemove
    ensures QueueInv(q.(tasks := [],
                        log := q.log.(dropped := q.log.dropped + Ids(q.tasks), deleted := q.log.deleted + Ids(q.tasks),
                                      replies := q.log.replies + RepliesTo(q.tasks, r))))
  {
    hide Shuffle;
    var log' := q.log.(dropped := q.log.dropped + Ids(q.tasks), deleted := q.log.deleted + Ids(q.tasks),
                       replies := q.log.replies + RepliesTo(q.tasks, r));
    var q' := q.(tasks := [], log := log');
    FlushOrder(q, q');
    FlushAnswers(q, r, q');
    ShuffleAppend(q.log.ended, q.log.dropped, q.log.deleted, Ids(q.tasks));
  }

  lemma DroppedKeeps(q: Queue)
    requires QueueInv(q)
    ensures QueueInv(Dropped(q)) && SameShape(q, Dropped(q))
    ensures Dropped(q).current == q.current && Dropped(q).tasks == [] && !Dropped(q).idle && !Dropped(q).log.primed
  {
    hide Shuffle;
    var q0 := q.(cancelled := true, idle := false, log := q.log.(everCancelled := true, primed := false));
    assert QueueInv(q0);
    FlushKeeps(q0, Cancelled);
  }

  lemma FreedKeeps(q: Queue)
    requires QueueInv(q) && !q.idle
    requires q.tasks == [] || q.deferRemove
    ensures QueueInv(Freed(q)) && SameShape(q, Freed(q))
    ensures Freed(q).current == q.current && Freed(q).tasks == [] && !Freed(q).idle && Freed(q).cancelled == q.cancelled
  {
    hide Shuffle;
    if q.deferRemove {
      assert q.log.everCancelled;
      hide QueueInv;
      FlushKeeps(q, Died);
    } else {
      assert q.log.dropped + [] == q.log.dropped && q.log.deleted + [] == q.log.deleted;
      assert q.log.replies + [] == q.log.replies;
      assert Freed(q) == q;
    }
  }

  lemma EndedKeeps(q: Queue)
    requires QueueInv(q) && q.current.Some?
    requires q.current.value.Client? ==> !q.current.value.invocation
    ensures QueueInv(Ended(q)) && SameShape(q, Ended(q))
    ensures Ended(q).current.None? && Ended(q).tasks == q.tasks && Ended(q).idle == q.idle &&
      Ended(q).cancelled == q.cancelled
  {
    hide Shuffle;
    var id := q.current.value.id;
    ShuffleSnoc(q.log.ended, q.log.dropped, q.log.deleted, id);
    assert q.log.replies + [] == q.log.replies;
    assert q.log.ended + [id] + [] == q.log.ended + [id];
  }

  lemma BegunOrder(q: Queue)
    requires InOrder(q) && q.tasks != [] && q.current.None?
    ensures InOrder(Begun(q))
  {
    hide Shuffle;
    var q' := Begun(q);
    var id := q.tasks[0].id;
    ShuffleSnoc(q.log.started, q.log.dropped, q.log.added[..Head(q)], id);
    assert Ids(q.tasks) == [id] + Ids(q'.tasks);
    assert q.log.added[..Head(q')] == q.log.added[..Head(q)] + [id];
    assert q.log.added[Head(q')..] == q.log.added[Head(q)..][1..];
    assert q.log.ended + [] == q.log.ended;
  }

  lemma BegunKeeps(q: Queue)
    requires QueueInv(q) && q.tasks != [] && q.current.None?
    ensures QueueInv(Begun(q)) && SameShape(q, Begun(q))
  {
    hide Shuffle;
    BegunOrder(q);
    hide InOrder;
    assert Fresh(q.tasks[0], q.service);
  }

  lemma AddedKeeps(q: Queue, id: nat, command: Command)
    requires QueueInv(q)
    ensures QueueInv(q.(tasks := q.tasks + [NewTask(q.service, id, command)],
                        log := q.log.(added := q.log.added + [id])))
  {
    hide Shuffle;
    var t := NewTask(q.service, id, command);
    var q' := q.(tasks := q.tasks + [t], log := q.log.(added := q.log.added + [id]));
    assert Ids(q'.tasks) == Ids(q.tasks) + [id];
    assert q'.log.added[..Head(q')] == q.log.added[..Head(q)];
    assert q'.log.added[Head(q')..] == q.log.added[Head(q)..] + [id];
    assert AnsweredIds(q') == AnsweredIds(q);
  }

  lemma RepliedAnswers(q: Queue, r: Reply)
    requires Answers(q) && r != Died && !q.service
    requires q.current.Some? && q.current.value.Client? && q.current.value.invocation
    ensures Answers(Replied(q, r))
  {
    hide Shuffle;
    var id := q.current.value.id;
    var ids := ReplyIds(q.log.replies);
    ReplyIdsAppend(q.log.replies, [(id, r)]);
    assert ReplyIds(Replied(q, r).log.replies) == ids + [id];
    assert q.log.ended + [] == q.log.ended;
    ShuffleSnoc(q.log.ended, q.log.dropped, ids, id);
    assert AnsweredIds(Replied(q, r)) == [id];
  }

  lemma RepliedKeeps(q: Queue, r: Reply)
    requires QueueInv(q) && r != Died
    ensures QueueInv(Replied(q, r)) && SameShape(q, Replied(q, r))
    ensures Replied(q, r).tasks == q.tasks && Replied(q, r).idle == q.idle && Replied(q, r).cancelled == q.cancelled
    ensures CurrentIds(Replied(q, r)) == CurrentIds(q)
  {
    hide Shuffle, Answers;
    if q.current.Some? && q.current.value.Client? && q.current.value.invocation {
      RepliedAnswers(q, r);
    }
  }

  lemma IdleKeeps(q: Queue, idle: bool)
    requires QueueInv(q)
    requires idle ==> q.tasks != [] && q.current.None? && !q.deferRemove
    ensures QueueInv(q.(idle := idle)) && SameShape(q, q.(idle := idle))
  {
    hide Shuffle;
  }

  /** The current task may change in every way but its name, its kind and whether it is answered. */
  lemma CurrentKeeps(q: Queue, t: Task)
    requires QueueInv(q) && q.current.Some?
    requires t.id == q.current.value.id && t.Client? == q.current.value.Client?
    requires t.Client? ==> t.invocation == q.current.value.invocation
    ensures QueueInv(q.(current := Some(t)))
  {
    hide Shuffle;
  }

  lemma RanKeeps(q: Queue)
    requires QueueInv(q)
    ensures QueueInv(Ran(q)) && SameShape(q, Ran(q))
    ensures Ran(q).tasks == q.tasks && Ran(q).idle == q.idle && Ran(q).current == q.current &&
      Ran(q).cancelled == q.cancelled
  {
    hide Shuffle;
  }

  lemma ShapeTrans(q: Queue, q1: Queue, q2: Queue)
    requires SameShape(q, q1) && SameShape(q1, q2)
    ensures SameShape(q, q2)
  {}

  lemma AfterEndKeeps(q: Queue, next: Next, quit: bool)
    requires QueueInv(q) && q.current.Some? && next == NextFor(q, quit)
    requires q.current.value.Client? ==> !q.current.value.invocation
    ensures QueueInv(AfterEnd(q, next)) && SameShape(q, AfterEnd(q, next))
    ensures AfterEnd(q, next).current.None? && AfterEnd(q, next).cancelled == q.cancelled
    ensures AfterEnd(q, next).idle == (next == Again)
    ensures AfterEnd(q, next).tasks == (if next == Remove then [] else q.tasks)
  {
    hide QueueInv, Ended, Freed, SameShape, Grows;
    BusyIsNotIdle(q);
    EndedKeeps(q);
    ShapeFlags(q, Ended(q));
    if next == Remove {
      FreedKeeps(Ended(q));
      ShapeTrans(q, Ended(q), Freed(Ended(q)));
    }
    if next == Again {
      IdleKeeps(Ended(q), true);
      ShapeTrans(q, Ended(q), Ended(q).(idle := true));
    }
  }

  lemma BusyIsNotIdle(q: Queue)
    requires QueueInv(q) && q.current.Some?
    ensures !q.idle
  {}

  lemma ShapeFlags(q: Queue, q': Queue)
    requires SameShape(q, q')
    ensures q'.deferRemove == q.deferRemove
  {}
}
