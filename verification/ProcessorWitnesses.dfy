/** A run of the task processor that gets where one would not want it to. */
module ProcessorWitnesses {
  import opened Options
  import opened TaskModel
  import opened ProcessorInvariant
  import opened ProcessorSteps
  import opened ProcessorRuns
  import opened ConstructionChain

  const KEY := QueueKey("source", "sink")
  const START := QueueAdded(KEY, false, true, true, true)

  function NewQueue(tasks: seq<Task>, idle: bool): Queue {
    Queue(KEY, false, true, true, true, tasks, None, idle, false, false,
          NO_LOG.(added := if tasks == [] then [] else [0], primed := idle))
  }

  /** One queue, with or without a task, started or not. */
  function OneQueue(tasks: seq<Task>, idle: bool): State {
    State([NewQueue(tasks, idle)], map[KEY := 0], 0, false, if idle then multiset{0} else multiset{}, multiset{},
          multiset{}, multiset{}, 0, if tasks == [] then [] else [0])
  }

  lemma StartOfRun()
    ensures Step(INITIAL, START) == OneQueue([], false)
    ensures Live(OneQueue([], false), 0)
    ensures AddTask(OneQueue([], false), 0, Answered) == OneQueue([Service(0, false)], false)
    ensures Live(OneQueue([Service(0, false)], false), 0)
    ensures StartQueue(OneQueue([Service(0, false)], false), 0) == OneQueue([Service(0, false)], true)
  {
    var s0, s1 := OneQueue([], false), OneQueue([Service(0, false)], false);
    assert NewQueue([], false).log == NO_LOG;
    assert AddTask(s0, 0, Answered).all[0] == s1.all[0];
    assert AddTask(s0, 0, Answered).all == s1.all && AddTask(s0, 0, Answered).owner == s1.owner;
  }

  /** A service task that fails without having started an action. */
  const FAILS := Outcome(false, true)

  /** A queue of services is added, given one task and started, and the task fails without an action: from then
      on, whatever happens, it stays current and the service does not get to quit. */
  lemma StuckExists() returns (ss: seq<State>, es: seq<Event>)
    ensures Run(ss, es) && |es| == 4 && Stuck(ss[4], 0) && ss[4].running > 0 && ss[4].quits == 0
  {
    hide Core, Settled, Dispatch, AddTask, StartQueue, Live, Stuck;
    var s0, s1, s2, s3 := INITIAL, OneQueue([], false), OneQueue([Service(0, false)], false),
      OneQueue([Service(0, false)], true);
    StartOfRun();
    var s4 := Dispatch(s3, 0, FAILS);
    ss := [s0, s1, s2, s3, s4];
    es := [START, TaskAdded(0, Answered), QueueStarted(0), DispatchRuns(0, FAILS)];
    InitialInv();
    StepKeepsInv(s0, es[0]);
    StepKeepsInv(s1, es[1]);
    StepKeepsInv(s2, es[2]);
    IdleFacts(s3, 0);
    FailingTaskSticks(s3, 0, FAILS);
    StepKeepsInv(s3, es[3]);
    StepEffects(s3, es[3]);
    StuckInRange(s4, 0);
    StuckRuns(s4, 0);
  }
}
