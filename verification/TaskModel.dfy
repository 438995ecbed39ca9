/**
 The task processor as a transition system.

 The state is the one the C code keeps (queues, the hash table that names them, the
 running counter, the quitting flag) together with what the GLib main loop and GUPnP hold
 on its behalf: idle sources that have been added and not yet run, and UPnP actions that
 have been started and not yet answered.  Each queue also carries a log of the callbacks
 made on its tasks, so that properties of whole runs can be read off a state.

 Queues live in `all`, in order of allocation; an index into it plays the part of a pointer.
 A queue is live when the hash table still maps its key to it.
 */
module TaskModel {
  import opened Options

  datatype QueueKey = QueueKey(source: string, sink: string)

  /** What a client asks for: a synchronous command that is answered at once, a synchronous
      command that is always refused, or an asynchronous one. */
  datatype Command = Answered | Refused | Deferred

  /** The D-Bus replies a request can get. */
  datatype Reply = Value | Error | Cancelled | Died

  /** A GCancellable that does not exist yet, exists, or has been cancelled. */
  datatype Cancellable = Absent | Armed | Fired

  /** `invocation`: not answered yet; `failed`: the task's error is set; `connected`: the cancel
      handler is connected; `action`: the service task's p_action is not NULL. */
  datatype Task =
    | Client(id: nat, command: Command, invocation: bool, failed: bool, cancellable: Cancellable, connected: bool)
    | Service(id: nat, action: bool)

  /** The callbacks made on behalf of one queue, oldest first.  `ended` are the tasks handed to
      task_completed, `ran` those of them that were not aborted, `dropped` those deleted while
      pending, `finals` the calls of the finally callback.  `primed`: started and not cancelled since. */
  datatype Log = Log(
    added: seq<nat>, started: seq<nat>, ended: seq<nat>, ran: seq<nat>, dropped: seq<nat>, deleted: seq<nat>,
    replies: seq<(nat, Reply)>, finals: seq<bool>,
    primed: bool, everCancelled: bool, everFailed: bool)

  const NO_LOG := Log([], [], [], [], [], [], [], [], false, false, false)

  datatype Queue = Queue(
    key: QueueKey, autoStart: bool, autoRemove: bool, service: bool, hasFinally: bool,
    tasks: seq<Task>, current: Option<Task>, idle: bool, deferRemove: bool, cancelled: bool, log: Log)

  /** `dispatches`, `finallies`: queues with such an idle source pending; `completions`: tasks with a
      completion idle pending; `actions`: tasks with a UPnP action in flight; `quits`: quit idles
      added so far; `owner`: for every task ever added, the queue it was added to. */
  datatype State = State(
    all: seq<Queue>, table: map<QueueKey, nat>, running: nat, quitting: bool,
    dispatches: multiset<nat>, completions: multiset<nat>, actions: multiset<nat>, finallies: multiset<nat>,
    quits: nat, owner: seq<nat>)

  const INITIAL := State([], map[], 0, false, multiset{}, multiset{}, multiset{}, multiset{}, 0, [])

  const G_MAXUINT: nat := 0xFFFF_FFFF

  // ---------- small vocabulary ----------

  function Ids(tasks: seq<Task>): (r: seq<nat>)
    ensures |r| == |tasks|
    ensures forall n :: 0 <= n < |tasks| ==> r[n] == tasks[n].id
  {
    seq(|tasks|, n requires 0 <= n < |tasks| => tasks[n].id)
  }

  function CurrentIds(q: Queue): seq<nat> {
    if q.current.Some? then [q.current.value.id] else []
  }

  /** The replies sent when every task in turn gets `r`: only unanswered client requests are sent one. */
  function RepliesTo(tasks: seq<Task>, r: Reply): seq<(nat, Reply)> {
    if tasks == [] then [] else ReplyTo(tasks[0], r) + RepliesTo(tasks[1..], r)
  }

  function ReplyTo(t: Task, r: Reply): seq<(nat, Reply)> {
    if t.Client? && t.invocation then [(t.id, r)] else []
  }

  /** The unsigned decrement of the running counter, which C does not guard. */
  function Decrement(running: nat): nat {
    if running == 0 then G_MAXUINT else running - 1
  }

  predicate Live(s: State, i: nat) {
    i < |s.all| && s.all[i].key in s.table && s.table[s.all[i].key] == i
  }

  predicate Holds(q: Queue, id: nat) {
    q.current.Some? && q.current.value.id == id
  }

  function NewTask(service: bool, id: nat, command: Command): Task {
    if service then Service(id, false) else Client(id, command, true, false, Absent, false)
  }

  // ---------- what happens to one queue ----------

  /** Cancel and delete everything pending. */
  function Dropped(q: Queue): Queue {
    q.(tasks := [], cancelled := true, idle := false,
       log := q.log.(dropped := q.log.dropped + Ids(q.tasks), deleted := q.log.deleted + Ids(q.tasks),
                     replies := q.log.replies + RepliesTo(q.tasks, Cancelled), everCancelled := true, primed := false))
  }

  /** Delete everything pending without cancelling it, as freeing the queue does. */
  function Freed(q: Queue): Queue {
    q.(tasks := [],
       log := q.log.(dropped := q.log.dropped + Ids(q.tasks), deleted := q.log.deleted + Ids(q.tasks),
                     replies := q.log.replies + RepliesTo(q.tasks, Died)))
  }

  /** Take the current task off the queue and delete it; one that is still unanswered gets Died. */
  function Ended(q: Queue): Queue {
    if q.current.None? then q else
      var t := q.current.value;
      q.(current := None,
         log := q.log.(ended := q.log.ended + [t.id], deleted := q.log.deleted + [t.id],
                       replies := q.log.replies + ReplyTo(t, Died)))
  }

  /** The current task gets its answer. */
  function Replied(q: Queue, r: Reply): Queue {
    if q.current.None? then q else
      var t := q.current.value;
      if t.Client? && t.invocation then
        q.(current := Some(t.(invocation := false)), log := q.log.(replies := q.log.replies + [(t.id, r)]))
      else q
  }

  /** The current task did what it was asked to do. */
  function Ran(q: Queue): Queue {
    if q.current.None? then q else q.(log := q.log.(ran := q.log.ran + [q.current.value.id]))
  }

  function Begun(q: Queue): Queue
    requires q.tasks != []
  {
    q.(cancelled := false, idle := false, tasks := q.tasks[1..], current := Some(q.tasks[0]),
       log := q.log.(started := q.log.started + [q.tasks[0].id]))
  }

  /** Removal of a queue at work is put off; the cancel that follows is logged here already. */
  function Deferring(q: Queue): Queue {
    if q.current.Some? then q.(deferRemove := true, log := q.log.(everCancelled := true)) else q
  }

  // ---------- processor operations ----------

  function Put(s: State, i: nat, q: Queue): State
    requires i < |s.all|
  {
    s.(all := s.all[i := q])
  }

  function AddQueue(s: State, key: QueueKey, autoStart: bool, autoRemove: bool, service: bool,
      hasFinally: bool): State {
    s.(all := s.all + [Queue(key, autoStart, autoRemove, service, hasFinally, [], None, false, false, false, NO_LOG)],
       table := s.table[key := |s.all|])
  }

  /** A queue that may run and has neither a current task nor a dispatch idle is given one. */
  predicate Wakes(q: Queue) {
    !q.deferRemove && q.current.None? && !q.idle
  }

  function AddTask(s: State, i: nat, command: Command): State
    requires i < |s.all|
  {
    var q := s.all[i];
    var id := |s.owner|;
    var wakes := q.autoStart && Wakes(q);
    s.(all := s.all[i := q.(tasks := q.tasks + [NewTask(q.service, id, command)], idle := q.idle || wakes,
                            log := q.log.(added := q.log.added + [id]))],
       owner := s.owner + [i],
       dispatches := if wakes then s.dispatches + multiset{i} else s.dispatches)
  }

  function StartQueue(s: State, i: nat): State
    requires i < |s.all|
  {
    var q := s.all[i];
    s.(all := s.all[i := q.(idle := q.idle || Wakes(q), log := q.log.(primed := q.log.primed || !q.deferRemove))],
       dispatches := if Wakes(q) then s.dispatches + multiset{i} else s.dispatches)
  }

  /** g_hash_table_remove: the queue leaves the table and is freed. */
  function RemoveQueue(s: State, i: nat): (r: State)
    requires i < |s.all|
    ensures |r.all| == |s.all|
  {
    var q := s.all[i];
    s.(all := s.all[i := Freed(q)], table := s.table - {q.key},
       finallies := if q.hasFinally then s.finallies + multiset{i} else s.finallies)
  }

  /** What task_completed does with the queue once the current task is deleted: nothing but ask to
      quit, remove it, schedule it again, or leave it alone. */
  datatype Next = Quit | Remove | Again | Rest

  function NextFor(q: Queue, quit: bool): Next {
    if quit then Quit else if q.deferRemove then Remove else if q.tasks != [] then Again
    else if q.autoRemove then Remove else Rest
  }

  function AfterEnd(q: Queue, next: Next): Queue {
    match next
    case Remove => Freed(Ended(q))
    case Again => Ended(q).(idle := true)
    case Quit => Ended(q)
    case Rest => Ended(q)
  }

  function TaskCompleted(s: State, i: nat): (r: State)
    requires i < |s.all|
    ensures |r.all| == |s.all|
  {
    var q := s.all[i];
    var running := Decrement(s.running);
    var next := NextFor(q, s.quitting && running == 0);
    s.(all := s.all[i := AfterEnd(q, next)],
       running := running,
       table := if next == Remove then s.table - {q.key} else s.table,
       dispatches := if next == Again then s.dispatches + multiset{i} else s.dispatches,
       finallies := if next == Remove && q.hasFinally then s.finallies + multiset{i} else s.finallies,
       quits := if next == Quit then s.quits + 1 else s.quits)
  }

  /** A cancel reaches a client task's UPnP action through its cancellable, once. */
  predicate Reachable(t: Task)
    requires t.Client?
  {
    t.command == Deferred && t.cancellable == Armed && t.connected
  }

  function Cancelling(t: Task): Task
    requires t.Client?
  {
    t.(invocation := false, failed := t.failed || Reachable(t),
       cancellable := if t.command == Deferred && t.cancellable == Armed then Fired else t.cancellable)
  }

  /** The cancel callback on a current task.  A client request is answered and its action, if there is
      one to cancel, replaced by a completion idle; a service task with an action in flight completes
      there and then. */
  function CancelCurrent(s: State, i: nat): (r: State)
    requires i < |s.all| && s.all[i].current.Some?
    ensures |r.all| == |s.all|
  {
    var q := s.all[i];
    var t := q.current.value;
    if t.Service? then
      if t.action then
        TaskCompleted(Put(s, i, q.(current := Some(t.(action := false)))).(actions := s.actions - multiset{t.id}), i)
      else s
    else
      s.(all := s.all[i := Replied(q, Cancelled).(current := Some(Cancelling(t)))],
         actions := if Reachable(t) then s.actions - multiset{t.id} else s.actions,
         completions := if Reachable(t) then s.completions + multiset{t.id} else s.completions)
  }

  function CancelQueue(s: State, i: nat): (r: State)
    requires i < |s.all|
    ensures |r.all| == |s.all|
  {
    var q := s.all[i];
    var s1 := Put(s, i, Dropped(q)).(dispatches := if q.idle then s.dispatches - multiset{i} else s.dispatches);
    if q.current.Some? then CancelCurrent(s1, i)
    else if q.autoRemove then RemoveQueue(s1, i)
    else s1
  }

  /** What the process callback of a dispatched task does: `action` when it starts a UPnP action,
      `failed` when it reports an error. */
  datatype Outcome = Outcome(action: bool, failed: bool)

  /** The action of a service task has been called. */
  function ServiceBegun(s: State, i: nat, o: Outcome): (r: State)
    requires i < |s.all| && s.all[i].current.Some? && s.all[i].current.value.Service?
    ensures |r.all| == |s.all|
  {
    var q := s.all[i];
    var t := q.current.value;
    s.(all := s.all[i := q.(current := Some(t.(action := o.action)),
                            log := q.log.(everFailed := q.log.everFailed || (o.failed && !o.action)))],
       actions := if o.action then s.actions + multiset{t.id} else s.actions)
  }

  /** The asynchronous command of a client task has been called: either its action is in flight with the
      cancel handler connected, or its completion idle is pending already. */
  function ClientBegun(s: State, i: nat, o: Outcome): (r: State)
    requires i < |s.all| && s.all[i].current.Some? && s.all[i].current.value.Client?
    ensures |r.all| == |s.all|
  {
    var q := s.all[i];
    var t := q.current.value;
    s.(all := s.all[i := q.(current := Some(t.(cancellable := Armed, connected := o.action,
                                               failed := !o.action && o.failed)))],
       actions := if o.action then s.actions + multiset{t.id} else s.actions,
       completions := if o.action then s.completions else s.completions + multiset{t.id})
  }

  /** The process callback of the current task. */
  function Process(s: State, i: nat, o: Outcome): (r: State)
    requires i < |s.all| && s.all[i].current.Some?
    ensures |r.all| == |s.all|
  {
    var t := s.all[i].current.value;
    if t.Service? then
      var s1 := ServiceBegun(s, i, o);
      if o.failed then CancelQueue(s1, i)
      else if o.action then s1
      else TaskCompleted(Put(s1, i, Ran(s1.all[i])), i)
    else if t.command == Deferred then ClientBegun(s, i, o)
    else TaskCompleted(Put(s, i, Ran(Replied(s.all[i], if t.command == Answered then Value else Error))), i)
  }

  /** The dispatch idle: the first pending task becomes the current one and is processed. */
  function Dispatch(s: State, i: nat, o: Outcome): State
    requires i < |s.all| && s.all[i].tasks != []
  {
    Process(Put(s, i, Begun(s.all[i])).(running := s.running + 1, dispatches := s.dispatches - multiset{i}), i, o)
  }

  /** GUPnP reports the end of an action. */
  function ActionReply(s: State, id: nat, ok: bool): (r: State)
    requires id < |s.owner| && s.owner[id] < |s.all| && Holds(s.all[s.owner[id]], id)
    ensures |r.all| == |s.all|
  {
    var i := s.owner[id];
    var q := s.all[i];
    var t := q.current.value;
    if t.Service? then
      TaskCompleted(s.(all := s.all[i := Ran(q.(current := Some(t.(action := false))))],
                       actions := s.actions - multiset{id}), i)
    else
      s.(all := s.all[i := q.(current := Some(t.(failed := t.failed || !ok, connected := false)))],
         actions := s.actions - multiset{id}, completions := s.completions + multiset{id})
  }

  /** The completion idle of a client task. */
  function CompletionIdle(s: State, id: nat): State
    requires id < |s.owner| && s.owner[id] < |s.all| && Holds(s.all[s.owner[id]], id)
    requires s.all[s.owner[id]].current.value.Client?
  {
    var i := s.owner[id];
    var q := s.all[i];
    TaskCompleted(s.(all := s.all[i := Ran(Replied(q, if q.current.value.failed then Error else Value))],
                     completions := s.completions - multiset{id}), i)
  }

  datatype Selector = BySource(source: string) | BySink(sink: string)

  predicate Selects(sel: Selector, key: QueueKey) {
    match sel
    case BySource(source) => key.source == source
    case BySink(sink) => key.sink == sink
  }

  /** The body of the two remove-for callbacks, on one queue. */
  function RemoveOne(s: State, sel: Selector, i: nat): (r: State)
    requires i < |s.all|
    ensures |r.all| == |s.all|
  {
    var q := s.all[i];
    if !Selects(sel, q.key) || q.deferRemove then s else
      var s1 := CancelQueue(Put(s, i, Deferring(q)), i);
      if q.current.Some? then s1 else RemoveQueue(s1, i)
  }

  /** The hash table is walked in some order of the queues it held when the walk began. */
  function RemoveFor(s: State, sel: Selector, order: seq<nat>): State
    requires forall n :: 0 <= n < |order| ==> order[n] < |s.all|
    decreases |order|
  {
    if order == [] then s else RemoveFor(RemoveOne(s, sel, order[0]), sel, order[1..])
  }

  function CancelAll(s: State, order: seq<nat>): State
    requires forall n :: 0 <= n < |order| ==> order[n] < |s.all|
    decreases |order|
  {
    if order == [] then s else CancelAll(CancelQueue(s, order[0]), order[1..])
  }

  function SetQuitting(s: State, order: seq<nat>): State
    requires forall n :: 0 <= n < |order| ==> order[n] < |s.all|
  {
    var s1 := s.(quitting := true);
    if s.running > 0 then CancelAll(s1, order) else s1.(quits := s1.quits + 1)
  }

  function FinallyIdle(s: State, i: nat): State
    requires i < |s.all|
  {
    var q := s.all[i];
    Put(s, i, q.(log := q.log.(finals := q.log.finals + [q.cancelled]))).(finallies := s.finallies - multiset{i})
  }
}
