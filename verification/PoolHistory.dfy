/** Conservation and order of tasks over whole runs, including purges and resets. */
module PoolHistory {
  import opened Counting
  import Packets
  import opened ThreadPool
  import opened PoolInvariants

  function Ids(n: nat): seq<TaskId> {
    seq(n, i => i)
  }

  ghost predicate Increasing(xs: seq<nat>) {
    forall i, j :: 0 <= i < j < |xs| ==> xs[i] < xs[j]
  }

  function Runs(w: Worker, id: TaskId): nat {
    if w.phase == ThreadPool.Running(id) then 1 else 0
  }

  ghost function RunsOf(id: TaskId): Worker -> nat {
    (w: Worker) => Runs(w, id)
  }

  /** How many workers are executing task `id`. */
  ghost function RunCount(workers: seq<Worker>, id: TaskId): nat {
    Sum(workers, RunsOf(id))
  }

  /** Everything that was started or still may be, in the order of the queue. */
  function Line(s: State): seq<TaskId> {
    s.started + s.tasks
  }

  ghost predicate HistoryOk(s: State) {
    && Increasing(Line(s))
    && (forall i :: 0 <= i < |Line(s)| ==> Line(s)[i] < |s.submitted|)
    && multiset(Line(s)) + multiset(s.purged) == multiset(Ids(|s.submitted|))
    && (forall id: TaskId :: multiset(s.started)[id] == RunCount(s.workers, id) + multiset(s.done)[id])
    && (s.purged == [] ==> Line(s) == Ids(|s.submitted|))
  }

  // --- Preservation ------------------------------------------------------------------------

  lemma RunUpdates(workers: seq<Worker>, i: nat, w: Worker)
    requires i < |workers|
    ensures forall id: TaskId ::
              RunCount(workers[i := w], id) + Runs(workers[i], id) == RunCount(workers, id) + Runs(w, id)
  {
    forall id: TaskId
      ensures RunCount(workers[i := w], id) + Runs(workers[i], id) == RunCount(workers, id) + Runs(w, id)
    {
      SumUpdate(workers, i, w, RunsOf(id));
    }
  }

  lemma LinePops(s: State)
    requires s.tasks != []
    ensures (s.started + [s.tasks[0]]) + s.tasks[1..] == Line(s)
    ensures multiset(s.started + [s.tasks[0]]) == multiset(s.started) + multiset{s.tasks[0]}
  {
    assert s.tasks == [s.tasks[0]] + s.tasks[1..];
  }

  /** A worker that had no task pops one: the line stays as it is, the task moves to `Running`. */
  lemma PopHistory(s: State, t: State, i: nat)
    requires HistoryOk(s) && i < |s.workers| && !s.workers[i].phase.Running? && s.tasks != []
    requires t.workers == s.workers[i := s.workers[i].(phase := ThreadPool.Running(s.tasks[0]))]
    requires t.tasks == s.tasks[1..] && t.started == s.started + [s.tasks[0]]
    requires t.submitted == s.submitted && t.done == s.done && t.purged == s.purged
    ensures HistoryOk(t)
  {
    RunUpdates(s.workers, i, t.workers[i]);
    LinePops(s);
  }

  /** A worker that had no task still has none. */
  lemma IdleHistory(s: State, t: State, i: nat)
    requires HistoryOk(s) && i < |s.workers| == |t.workers|
    requires !s.workers[i].phase.Running? && !t.workers[i].phase.Running?
    requires t.workers == s.workers[i := t.workers[i]]
    requires SameHistory(s, t)
    ensures HistoryOk(t)
  {
    RunUpdates(s.workers, i, t.workers[i]);
  }

  ghost predicate SameHistory(s: State, t: State) {
    && t.tasks == s.tasks && t.started == s.started
    && t.submitted == s.submitted && t.done == s.done && t.purged == s.purged
  }

  lemma TakeHistory(s: State, i: nat)
    requires HistoryOk(s) && i < |s.workers| && !s.workers[i].phase.Running?
    ensures HistoryOk(Take(s, i))
  {
    if s.workers[i].stop || s.tasks == [] {
      IdleHistory(s, Take(s, i), i);
    } else {
      PopHistory(s, Take(s, i), i);
    }
  }

  lemma SubmitHistory(s: State, task: Task)
    requires HistoryOk(s)
    ensures HistoryOk(Apply(s, Submit(task)))
  {
    var t := Apply(s, Submit(task));
    assert Line(t) == Line(s) + [|s.submitted|];
    assert Ids(|t.submitted|) == Ids(|s.submitted|) + [|s.submitted|];
  }

  lemma PurgeHistory(s: State)
    requires HistoryOk(s)
    ensures HistoryOk(Apply(s, Purge))
  {
    var t := Apply(s, Purge);
    assert Line(s)[..|s.started|] == Line(t);
    assert multiset(Line(s)) == multiset(s.started) + multiset(s.tasks);
    if t.purged == [] {
      assert s.tasks == [];
    }
  }

  lemma DoneHistory(s: State, i: nat)
    requires HistoryOk(s) && Enabled(s, TaskDone(i))
    ensures HistoryOk(Apply(s, TaskDone(i)))
  {
    RunUpdates(s.workers, i, Apply(s, TaskDone(i)).workers[i]);
  }

  lemma ControlHistory(s: State, step: Step)
    requires Inv(s) && HistoryOk(s) && Enabled(s, step)
    requires step in {RequestStop, Install}
    ensures HistoryOk(Apply(s, step))
  {
    var t := Apply(s, step);
    forall id: TaskId
      ensures RunCount(t.workers, id) == RunCount(s.workers, id)
    {
      if step.RequestStop? {
        SumSame(s.workers, t.workers, RunsOf(id));
      } else {
        SumZero(s.workers, RunsOf(id));
        SumZero(t.workers, RunsOf(id));
      }
    }
  }

  /** The steps of one worker that leave the history alone. */
  lemma QuietHistory(s: State, step: Step)
    requires HistoryOk(s) && Enabled(s, step)
    requires step.NotifyOne? || step.InitDone? || step.Spurious? || step.Cleanup?
    ensures HistoryOk(Apply(s, step))
  {
    IdleHistory(s, Apply(s, step), Mover(step));
  }

  lemma WorkerHistory(s: State, step: Step)
    requires HistoryOk(s) && Enabled(s, step) && Mover(step) >= 0
    ensures HistoryOk(Apply(s, step))
  {
    if step.Relock? {
      TakeHistory(CountOut(s), step.worker);
    } else if step.WakeUp? {
      TakeHistory(s, step.worker);
    } else if step.TaskDone? {
      DoneHistory(s, step.worker);
    } else {
      QuietHistory(s, step);
    }
  }

  lemma SameWorkersHistory(s: State, t: State)
    requires HistoryOk(s) && SameHistory(s, t) && t.workers == s.workers
    ensures HistoryOk(t)
  {
  }

  /** The steps that move no single running worker and no task. */
  lemma ControllerHistory(s: State, step: Step)
    requires Inv(s) && HistoryOk(s) && Enabled(s, step)
    requires Mover(step) < 0 && !step.Submit? && !step.Purge?
    ensures HistoryOk(Apply(s, step))
  {
    if step.Spawn? {
      IdleHistory(s, Apply(s, step), s.control.next);
    } else if step in {RequestStop, Install} {
      ControlHistory(s, step);
    } else {
      SameWorkersHistory(s, Apply(s, step));
    }
  }

  lemma HistoryStep(s: State, step: Step)
    requires Inv(s) && HistoryOk(s) && Enabled(s, step)
    ensures HistoryOk(Apply(s, step))
  {
    if Mover(step) >= 0 {
      WorkerHistory(s, step);
    } else if step.Submit? {
      SubmitHistory(s, step.task);
    } else if step.Purge? {
      PurgeHistory(s);
    } else {
      ControllerHistory(s, step);
    }
  }

  /** Every state of every run keeps the counter, the wakeups and the history. */
  lemma {:induction false} RunInv(s: State, steps: seq<Step>)
    requires Inv(s) && HistoryOk(s) && ValidRun(s, steps)
    ensures Inv(Final(s, steps)) && HistoryOk(Final(s, steps))
    decreases |steps|
  {
    if steps != [] {
      InvStep(s, steps[0]);
      HistoryStep(s, steps[0]);
      RunInv(Apply(s, steps[0]), steps[1..]);
    }
  }

  ghost predicate Reachable(s: State) {
    exists numThreads: nat, hardware: nat, steps ::
      numThreads <= SIZE_MAX && hardware <= SIZE_MAX
      && ValidRun(Initial(numThreads, hardware), steps) && s == Final(Initial(numThreads, hardware), steps)
  }

  lemma InitialHistory(numThreads: nat, hardware: nat)
    requires numThreads <= SIZE_MAX && hardware <= SIZE_MAX
    ensures Inv(Initial(numThreads, hardware)) && HistoryOk(Initial(numThreads, hardware))
  {
    var init := Initial(numThreads, hardware);
    InitialInv(numThreads, hardware);
    forall id: TaskId
      ensures RunCount(init.workers, id) == 0
    {
      SumZero(init.workers, RunsOf(id));
    }
    assert Line(init) == Ids(0);
  }

  lemma ReachableInv(s: State)
    requires Reachable(s)
    ensures Inv(s) && HistoryOk(s)
  {
    var numThreads: nat, hardware: nat, steps :|
      numThreads <= SIZE_MAX && hardware <= SIZE_MAX
      && ValidRun(Initial(numThreads, hardware), steps) && s == Final(Initial(numThreads, hardware), steps);
    InitialHistory(numThreads, hardware);
    RunInv(Initial(numThreads, hardware), steps);
  }

  // --- Main results ------------------------------------------------------------------------

  /** The counter counts the busy workers in every reachable state. It is positive where a worker
      decrements it, below its maximum where a worker increments it, and 0 where `create_threads`
      overwrites it, so no unsigned operation wraps and no count is lost across a reset. */
  lemma CounterTruth(s: State, step: Step)
    requires Reachable(s) && Enabled(s, step)
    ensures s.tasksRunning == Sum(s.workers, Busy)
    ensures step.Relock? ==> s.tasksRunning > 0
    ensures step.WakeUp? && s.workers[step.worker].phase == Woken && !s.workers[step.worker].stop && s.tasks != []
            ==> Apply(s, step).tasksRunning == s.tasksRunning + 1
    ensures step.Install? ==> s.tasksRunning == 0
  {
    ReachableInv(s);
    CounterStep(s, step);
    if step.WakeUp? {
      BusyBelow(s, step.worker);
    }
  }

  /** No lost task wakeup, even though `notify_one` fires after the unlock, and even while a reset
      stops threads one by one: a sleeping worker never sits next to more queued tasks than there are
      notifications still to fire and signalled workers still to look. */
  lemma NoLostTaskWakeup(s: State, i: nat)
    requires Reachable(s) && i < |s.workers| && s.workers[i].phase == Asleep
    ensures |s.tasks| <= s.pendingNotifies + Sum(s.workers, Signalled)
  {
    ReachableInv(s);
  }

  /** Each submitted task is in exactly one place: queued once, running on one worker, done once or
      purged once; nothing else is anywhere. */
  lemma ExactlyOnce(s: State, id: TaskId)
    requires Reachable(s)
    ensures multiset(s.tasks)[id] + RunCount(s.workers, id) + multiset(s.done)[id] + multiset(s.purged)[id]
         == if id < |s.submitted| then 1 else 0
  {
    ReachableInv(s);
    OncePerId(s, id);
  }

  lemma OncePerId(s: State, id: TaskId)
    requires HistoryOk(s)
    ensures multiset(s.tasks)[id] + RunCount(s.workers, id) + multiset(s.done)[id] + multiset(s.purged)[id]
         == if id < |s.submitted| then 1 else 0
  {
    assert multiset(Line(s)) == multiset(s.started) + multiset(s.tasks);
    IdsOnce(|s.submitted|, id);
  }

  /** With nothing queued or running, every submitted task is done or purged. */
  lemma AllAccounted(s: State)
    requires HistoryOk(s) && s.tasks == []
    requires forall i :: 0 <= i < |s.workers| ==> !s.workers[i].phase.Running?
    ensures forall id :: 0 <= id < |s.submitted| ==> id in s.done || id in s.purged
  {
    forall id | 0 <= id < |s.submitted|
      ensures id in s.done || id in s.purged
    {
      OncePerId(s, id);
      SumZero(s.workers, RunsOf(id));
    }
  }

  lemma {:induction false} IdsOnce(n: nat, id: TaskId)
    ensures multiset(Ids(n))[id] == if id < n then 1 else 0
  {
    if n > 0 {
      IdsOnce(n - 1, id);
      assert Ids(n) == Ids(n - 1) + [n - 1];
    }
  }

  /** No task runs on two workers. */
  lemma RunsOnOneWorker(s: State, i: nat, j: nat)
    requires Reachable(s) && i < j < |s.workers|
    requires s.workers[i].phase.Running? && s.workers[j].phase.Running?
    ensures s.workers[i].phase.task != s.workers[j].phase.task
    ensures s.workers[i].phase.task < |s.submitted|
  {
    var id := s.workers[i].phase.task;
    ExactlyOnce(s, id);
    var others := s.workers[j := Worker(Finished, false)];
    SumUpdate(s.workers, j, Worker(Finished, false), RunsOf(id));
    SumZero(others, RunsOf(id));
    assert Runs(others[i], id) == 1;
  }

  /** Tasks start in submission order for any number of workers; with no purge the started tasks are
      exactly the first ones submitted. */
  lemma StartOrder(s: State)
    requires Reachable(s)
    ensures Increasing(s.started)
    ensures s.purged == [] ==> s.started == Ids(|s.started|) && Line(s) == Ids(|s.submitted|)
    ensures forall i, j :: 0 <= i < |s.started| && 0 <= j < |s.tasks| ==> s.started[i] < s.tasks[j]
  {
    ReachableInv(s);
    assert forall i :: 0 <= i < |s.started| ==> s.started[i] == Line(s)[i];
    forall i, j | 0 <= i < |s.started| && 0 <= j < |s.tasks|
      ensures s.started[i] < s.tasks[j]
    {
      assert s.tasks[j] == Line(s)[|s.started| + j];
    }
    if s.purged == [] {
      assert s.started == Line(s)[..|s.started|];
    }
  }

  /** Tasks left queued when a reset replaces the threads are queued for the new threads, and a worker
      that was asked to stop takes nothing from the queue. */
  lemma ResetKeepsQueue(s: State, step: Step)
    requires Inv(s) && Enabled(s, step)
    requires step in {BeginReset, RequestStop, Join, Install, Spawn}
          || ((step.WakeUp? || step.Relock?) && s.workers[step.worker].stop)
    ensures SameHistory(s, Apply(s, step))
    ensures forall id: TaskId :: RunCount(Apply(s, step).workers, id) == RunCount(s.workers, id)
  {
    var t := Apply(s, step);
    forall id: TaskId
      ensures RunCount(t.workers, id) == RunCount(s.workers, id)
    {
      if step.Install? {
        SumZero(s.workers, RunsOf(id));
        SumZero(t.workers, RunsOf(id));
      } else {
        SumSame(s.workers, t.workers, RunsOf(id));
      }
    }
  }

  // --- One worker --------------------------------------------------------------------------

  /** The pool has one worker now and every reset asks for one. */
  ghost predicate Solo(s: State) {
    && |s.workers| == 1 && s.threadCount == 1
    && (s.control.Ready? ==> DetermineThreadCount(s.control.numThreads, s.hardware) == 1)
    && (s.control.Waiting? && s.control.op.ThenReset? ==>
          DetermineThreadCount(s.control.op.numThreads, s.hardware) == 1)
  }

  ghost predicate SoloStep(s: State, step: Step) {
    step.WaitCall? && step.op.ThenReset? ==> DetermineThreadCount(step.op.numThreads, s.hardware) == 1
  }

  function InHand(s: State): seq<TaskId>
    requires |s.workers| == 1
  {
    if s.workers[0].phase.Running? then [s.workers[0].phase.task] else []
  }

  ghost predicate SoloRun(s: State, steps: seq<Step>)
    requires ValidRun(s, steps)
    decreases |steps|
  {
    steps != [] ==> SoloStep(s, steps[0]) && SoloRun(Apply(s, steps[0]), steps[1..])
  }

  /** With one worker tasks also finish in the order in which they start. */
  lemma {:induction false} SoloFinishOrder(s: State, steps: seq<Step>)
    requires Inv(s) && Solo(s) && s.started == s.done + InHand(s)
    requires ValidRun(s, steps) && SoloRun(s, steps)
    ensures Solo(Final(s, steps))
    ensures Final(s, steps).started == Final(s, steps).done + InHand(Final(s, steps))
    decreases |steps|
  {
    if steps != [] {
      InvStep(s, steps[0]);
      SoloKept(s, steps[0]);
      SoloFinishOrder(Apply(s, steps[0]), steps[1..]);
    }
  }

  lemma SoloKept(s: State, step: Step)
    requires Inv(s) && Solo(s) && s.started == s.done + InHand(s)
    requires Enabled(s, step) && SoloStep(s, step)
    ensures Solo(Apply(s, step))
    ensures Apply(s, step).started == Apply(s, step).done + InHand(Apply(s, step))
  {
    if Mover(step) >= 0 {
      SoloWorker(s, step);
    }
  }

  lemma SoloWorker(s: State, step: Step)
    requires Inv(s) && Solo(s) && s.started == s.done + InHand(s)
    requires Enabled(s, step) && Mover(step) >= 0
    ensures Solo(Apply(s, step))
    ensures Apply(s, step).started == Apply(s, step).done + InHand(Apply(s, step))
  {
  }

  /** With any number of workers, finishing a task keeps the order exactly when it is the oldest of those that
      have started and not finished; and no other step breaks it. */
  lemma FinishStep(s: State, step: Step)
    requires HistoryOk(s) && Enabled(s, step) && s.done <= s.started
    ensures Apply(s, step).done <= Apply(s, step).started
       <==> (step.TaskDone? ==>
               |s.done| < |s.started| && s.workers[step.worker].phase.task == s.started[|s.done|])
  {
    if step.TaskDone? {
      FinishOrder(s, step.worker);
    }
  }

  lemma FinishOrder(s: State, i: nat)
    requires Enabled(s, TaskDone(i)) && s.done <= s.started
    ensures Apply(s, TaskDone(i)).done <= s.started
       <==> |s.done| < |s.started| && s.workers[i].phase.task == s.started[|s.done|]
  {
    var longer := s.done + [s.workers[i].phase.task];
    assert longer[|s.done|] == s.workers[i].phase.task;
    if |s.done| < |s.started| && longer[|s.done|] == s.started[|s.done|] {
      assert longer == s.started[..|longer|];
    }
  }

  // --- Writes in submission order ----------------------------------------------------------

  /** The payloads that a list of tasks writes for one opened stream, in that order. */
  function WritesFor(tasks: seq<Task>, serial: nat): seq<seq<Packets.byte>> {
    if tasks == [] then []
    else
      var last := tasks[|tasks| - 1];
      WritesFor(tasks[..|tasks| - 1], serial) + if last.Write? && last.serial == serial then [last.payload] else []
  }

  function TasksOf(s: State, ids: seq<TaskId>): seq<Task>
    requires forall i :: 0 <= i < |ids| ==> ids[i] < |s.submitted|
  {
    seq(|ids|, i requires 0 <= i < |ids| => s.submitted[ids[i]])
  }

  lemma {:induction false} WritesConcat(a: seq<Task>, b: seq<Task>, serial: nat)
    ensures WritesFor(a + b, serial) == WritesFor(a, serial) + WritesFor(b, serial)
  {
    if b == [] {
      assert a + b == a;
    } else {
      assert (a + b)[..|a + b| - 1] == a + b[..|b| - 1];
      WritesConcat(a, b[..|b| - 1], serial);
    }
  }

  lemma OneMoreWrite(tasks: seq<Task>, task: Task, serial: nat)
    requires task.Write?
    ensures WritesFor(tasks + [task], serial)
         == WritesFor(tasks, serial) + if task.serial == serial then [task.payload] else []
  {
    assert (tasks + [task])[..|tasks|] == tasks;
  }

  /** Started and queued tasks are, in this order, all that was submitted, for each opened stream. */
  lemma WritesStartInOrder(s: State, serial: nat)
    requires HistoryOk(s) && s.purged == []
    ensures forall i :: 0 <= i < |s.started| ==> s.started[i] < |s.submitted|
    ensures forall i :: 0 <= i < |s.tasks| ==> s.tasks[i] < |s.submitted|
    ensures WritesFor(TasksOf(s, s.started), serial) + WritesFor(TasksOf(s, s.tasks), serial)
         == WritesFor(s.submitted, serial)
  {
    assert forall i :: 0 <= i < |s.started| ==> s.started[i] == Line(s)[i];
    assert forall i :: 0 <= i < |s.tasks| ==> s.tasks[i] == Line(s)[|s.started| + i];
    assert TasksOf(s, s.started) + TasksOf(s, s.tasks) == s.submitted;
    WritesConcat(TasksOf(s, s.started), TasksOf(s, s.tasks), serial);
  }
}
