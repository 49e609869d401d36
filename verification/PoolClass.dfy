/**
 The class `thread_pool` with its fields updated in place. Each method is one critical section, or one
 atomic action of a thread, of src/BS_thread_pool.hpp, and is proved to take exactly one step of the
 step machine. A valid pool is one that some run of the machine reaches, so the results about reachable
 states hold of every object of this class between any two of its methods.
 */
module PoolClass {
  import opened Blocks
  import opened Counting
  import opened PoolHistory
  import opened PoolSize
  import opened PoolWaiting
  import opened ThreadPool

  class Pool {
    var tasks: seq<TaskId>
    var tasksRunning: nat
    var waiting: bool
    var threadCount: nat
    // the threads, the two condition variables' sleepers, and the thread that waits or resets
    var workers: seq<Worker>
    var pendingNotifies: nat
    var control: Control
    const hardware: nat
    // history
    ghost var submitted: seq<Task>
    ghost var started: seq<TaskId>
    ghost var done: seq<TaskId>
    ghost var purged: seq<TaskId>
    // the name of the next task
    var nextId: nat

    ghost function View(): State
      reads this
    {
      State(tasks, tasksRunning, waiting, threadCount, workers, pendingNotifies, control, hardware,
            submitted, started, done, purged)
    }

    ghost predicate Counted()
      reads this
    {
      nextId == |submitted|
    }

    ghost predicate Valid()
      reads this
    {
      Counted() && Reachable(View())
    }

    constructor (numThreads: nat, hardware: nat)
      requires numThreads <= SIZE_MAX && hardware <= SIZE_MAX
      ensures Valid() && View() == Initial(numThreads, hardware)
      ensures Asks(numThreads, hardware, |workers|) && threadCount == |workers|
    {
      var n := DetermineThreadCount(numThreads, hardware);
      this.hardware := hardware;
      threadCount, tasksRunning := n, n;
      workers := Fresh(n);
      control := Spawning(0);
      tasks, waiting, pendingNotifies, nextId := [], false, 0, 0;
      submitted, started, done, purged := [], [], [], [];
      new;
      StartsRun(numThreads, hardware);
    }

    method DetachTask(task: Task) returns (id: TaskId)
      requires Valid()
      modifies this
      ensures Valid() && View() == Apply(old(View()), Submit(task))
      ensures id == |old(submitted)| && submitted[id] == task
    {
      ExtendsRun(View(), Submit(task));
      id := nextId;
      tasks := tasks + [id];
      nextId := nextId + 1;
      submitted := submitted + [task];
      pendingNotifies := pendingNotifies + 1;
    }

    /** `notify_one`: wake any sleeper there is. */
    method NotifyOne()
      requires Valid() && pendingNotifies > 0
      modifies this
      ensures Valid()
      ensures exists step :: step in {NotifyNobody} + (set i | 0 <= i < |workers| :: Step.NotifyOne(i))
                && Enabled(old(View()), step) && View() == Apply(old(View()), step)
    {
      ghost var before := View();
      pendingNotifies := pendingNotifies - 1;
      ghost var step := NotifyNobody;
      if i: nat :| i < |workers| && workers[i].phase == Asleep {
        step := Step.NotifyOne(i);
        assert Step.NotifyOne(i) in (set i | 0 <= i < |workers| :: Step.NotifyOne(i));
        workers := workers[i := workers[i].(phase := Woken)];
      }
      assert Enabled(before, step) && View() == Apply(before, step);
      ExtendsRun(before, step);
    }

    method PopTask() returns (id: TaskId)
      requires tasks != []
      modifies `tasks, `started
      ensures id == old(tasks)[0] && tasks == old(tasks)[1..] && started == old(started) + [id]
    {
      id := tasks[0];
      tasks := tasks[1..];
      started := started + [id];
    }

    /** The end of a worker's critical section: sleep, stop, or take the next task. */
    method TakeTask(i: nat)
      requires Counted() && i < |workers|
      modifies `tasks, `started, `workers, `tasksRunning
      ensures Counted() && View() == Take(old(View()), i)
    {
      var phase := Asleep;
      if workers[i].stop {
        phase := Stopping;
      } else if tasks != [] {
        var task := PopTask();
        tasksRunning := Inc(tasksRunning);
        phase := Running(task);
      }
      workers := workers[i := workers[i].(phase := phase)];
    }

    /** The critical section that a worker enters after its init function or a task. */
    method WorkerRelocks(i: nat)
      requires Valid() && Enabled(View(), Relock(i))
      modifies this
      ensures Valid() && View() == Apply(old(View()), Relock(i))
      ensures old(tasksRunning) > 0
    {
      CounterTruth(View(), Relock(i));
      ExtendsRun(View(), Relock(i));
      tasksRunning := Dec(tasksRunning);
      if waiting && tasksRunning == 0 && tasks == [] {
        if control.Waiting? {
          control := control.(signalled := true);
        }
      }
      TakeTask(i);
    }

    /** The critical section that a woken worker re-enters inside its wait. */
    method WorkerWakes(i: nat)
      requires Valid() && Enabled(View(), WakeUp(i))
      modifies this
      ensures Valid() && View() == Apply(old(View()), WakeUp(i))
    {
      ExtendsRun(View(), WakeUp(i));
      TakeTask(i);
    }

    method FinishTask(i: nat)
      requires Valid() && Enabled(View(), TaskDone(i))
      modifies `workers, `done
      ensures Valid() && View() == Apply(old(View()), TaskDone(i))
      ensures old(workers[i].phase.task) < |submitted| && old(workers[i].phase.task) !in old(done) + purged
    {
      RunningOnce(View(), i);
      ExtendsRun(View(), TaskDone(i));
      done := done + [workers[i].phase.task];
      workers := workers[i := workers[i].(phase := Finished)];
    }

    method PurgeTasks()
      requires Valid()
      modifies `tasks, `purged
      ensures Valid() && View() == Apply(old(View()), Purge)
    {
      ExtendsRun(View(), Purge);
      purged := purged + tasks;
      tasks := [];
    }

    /** Every task submitted so far is done or was purged. */
    ghost predicate AllOver()
      reads this
    {
      forall id :: 0 <= id < |submitted| ==> id in done || id in purged
    }

    /** `wait()` up to its first sleep or its return; also the first half of `reset_pool`. If it returns,
        all tasks are over. */
    method Wait(op: Op)
      requires Valid() && Enabled(View(), WaitCall(op))
      modifies `waiting, `control
      ensures Valid() && View() == Apply(old(View()), WaitCall(op))
      ensures !control.Waiting? ==> AllOver() && control == AfterWait(op)
      ensures control.Waiting? ==> waiting && control == Waiting(op, false)
    {
      WaitReturns(View(), WaitCall(op));
      ExtendsRun(View(), WaitCall(op));
      waiting := true;
      LeaveOrSleep(op);
    }

    method WaiterWakes()
      requires Valid() && Enabled(View(), ControlWakeUp)
      modifies `waiting, `control
      ensures Valid() && View() == Apply(old(View()), ControlWakeUp)
      ensures !control.Waiting? ==> AllOver() && control == AfterWait(old(control.op))
      ensures control.Waiting? ==> waiting && control == Waiting(old(control.op), false)
    {
      ReachableInv(View());
      WaitReturns(View(), ControlWakeUp);
      ExtendsRun(View(), ControlWakeUp);
      LeaveOrSleep(control.op);
    }

    method LeaveOrSleep(op: Op)
      modifies `waiting, `control
      ensures View() == CheckWait(old(View()), op)
    {
      if tasksRunning == 0 && tasks == [] {
        waiting := false;
        control := match op case JustWait => Idle case ThenReset(n) => Ready(n);
      } else {
        control := Waiting(op, false);
      }
    }

    /** The start of `create_threads`: the new thread count is in place before the old threads stop. */
    method StartReset()
      requires Valid() && Enabled(View(), BeginReset)
      modifies `threadCount, `control
      ensures Valid() && View() == Apply(old(View()), BeginReset)
      ensures forall i :: 0 <= i < |workers| ==> workers[i].phase !in {Unspawned, Starting}
      ensures Asks(old(control.numThreads), hardware, threadCount)
    {
      InitFunctionUnused(View());
      ExtendsRun(View(), BeginReset);
      threadCount := DetermineThreadCount(control.numThreads, hardware);
      control := Resetting(|workers|);
    }

    /** The destructor of the last thread that is left asks it to stop. */
    method StopThread()
      requires Valid() && Enabled(View(), RequestStop)
      modifies `workers, `control
      ensures Valid() && View() == Apply(old(View()), RequestStop)
    {
      ExtendsRun(View(), RequestStop);
      var i := control.left - 1;
      if workers[i].phase == Asleep || workers[i].phase == Woken {
        workers := WakeAll(workers);
      }
      workers := workers[i := workers[i].(stop := true)];
      control := Joining(i + 1);
    }

    method InstallThreads()
      requires Valid() && Enabled(View(), Install)
      modifies `workers, `tasksRunning, `control
      ensures Valid() && View() == Apply(old(View()), Install)
      ensures old(tasksRunning) == 0
    {
      CounterTruth(View(), Install);
      ExtendsRun(View(), Install);
      workers := Fresh(threadCount);
      tasksRunning := threadCount;
      control := Spawning(0);
    }

    /** The loop of `create_threads`, undisturbed: one `Spawn` step for every thread. */
    method SpawnThreads()
      requires Valid() && control == Spawning(0) && threadCount == |workers|
      modifies `workers, `control
      ensures Valid() && control == Idle
      ensures workers == seq(threadCount, i => Worker(Starting, false))
    {
      SpawningPool(View());
      var i := 0;
      while i < threadCount
        invariant Valid() && 0 <= i <= threadCount == |workers|
        invariant control == if i == threadCount then Idle else Spawning(i)
        invariant forall j :: 0 <= j < |workers| ==> workers[j] == Worker(if j < i then Starting else Unspawned, false)
      {
        ExtendsRun(View(), Spawn);
        workers := workers[i := workers[i].(phase := Starting)];
        i := i + 1;
        control := if i == threadCount then Idle else Spawning(i);
      }
    }

    /** Nothing but the queue, the submissions and the notifications differs from `s`. */
    ghost predicate OnlySubmitted(s: State, n: nat)
      reads this
    {
      && View() == s.(tasks := tasks, submitted := submitted, pendingNotifies := pendingNotifies)
      && pendingNotifies == s.pendingNotifies + n
    }

    /** `submit_blocks` and `submit_loop`, undisturbed: one task per block, in block order, each queued
        behind what was there and notified once. */
    method SubmitBlocks(t: IndexType, first: int, afterLast: int, numBlocks: nat) returns (futures: seq<TaskId>)
      requires Valid()
      requires afterLast > first ==> SplitDefined(t, first, afterLast)
      modifies this
      ensures Valid() && OnlySubmitted(old(View()), |futures|) && threadCount > 0
      ensures tasks == old(tasks) + futures
      ensures afterLast <= first ==> futures == [] && submitted == old(submitted)
      ensures afterLast > first ==>
                var b := Split(t, first, afterLast, if numBlocks > 0 then numBlocks else threadCount);
                && submitted == old(submitted) + BlockTasks(b, b.numBlocks)
                && futures == Names(|old(submitted)|, b.numBlocks)
                && forall k :: 0 <= k < |futures| ==>
                     futures[k] < |submitted| && submitted[futures[k]] == Block(Start(b, k), End(b, k))
    {
      ReachableInv(View());
      futures := [];
      if afterLast > first {
        var blks := new Blocks(t, first, afterLast, if numBlocks > 0 then numBlocks else threadCount);
        futures := SubmitEach(blks);
        BlocksInPlace(old(submitted), blks.View(), blks.numBlocks);
      } else {
        assert tasks + [] == tasks;
      }
    }

    method SubmitEach(blks: Blocks) returns (futures: seq<TaskId>)
      requires Valid()
      modifies this
      ensures Valid() && OnlySubmitted(old(View()), |futures|)
      ensures tasks == old(tasks) + futures
      ensures submitted == old(submitted) + BlockTasks(blks.View(), blks.numBlocks)
      ensures futures == Names(|old(submitted)|, blks.numBlocks)
    {
      futures := [];
      var blk := 0;
      while blk < blks.numBlocks
        invariant Valid() && 0 <= blk <= blks.numBlocks
        invariant OnlySubmitted(old(View()), blk) && tasks == old(tasks) + futures
        invariant submitted == old(submitted) + BlockTasks(blks.View(), blk)
        invariant futures == Names(|old(submitted)|, blk)
      {
        var id := SubmitBlock(blks, blk);
        NamesGrow(|old(submitted)|, blk);
        assert old(tasks) + (futures + [id]) == (old(tasks) + futures) + [id];
        futures := futures + [id];
        BlockTasksGrow(blks.View(), blk);
        blk := blk + 1;
      }
    }

    method SubmitBlock(blks: Blocks, blk: nat) returns (id: TaskId)
      requires Valid()
      modifies this
      ensures Valid() && OnlySubmitted(old(View()), 1)
      ensures id == |old(submitted)| && tasks == old(tasks) + [id]
      ensures submitted == old(submitted) + [BlockTask(blks.View(), blk)]
    {
      id := DetachTask(BlockTask(blks.View(), blk));
    }
  }

  /** A pool about to spawn its first thread has spawned none. */
  lemma SpawningPool(s: State)
    requires Reachable(s) && s.control == Spawning(0)
    ensures |s.workers| > 0
    ensures forall i :: 0 <= i < |s.workers| ==> s.workers[i] == Worker(Unspawned, false)
  {
    ReachableInv(s);
    forall i | 0 <= i < |s.workers|
      ensures s.workers[i] == Worker(Unspawned, false)
    {
      assert s.workers[i].phase == Unspawned;
    }
  }

  /** What follows a wait: a reset goes on to replace the threads. */
  function AfterWait(op: Op): Control {
    match op
    case JustWait => Idle
    case ThenReset(n) => Ready(n)
  }

  lemma WaitReturns(s: State, step: Step)
    requires Reachable(s) && Enabled(s, step) && (step.WaitCall? || step.ControlWakeUp?)
    ensures var t := Apply(s, step);
            !t.control.Waiting? ==> forall id :: 0 <= id < |t.submitted| ==> id in t.done || id in t.purged
  {
    if Finishes(s, step) {
      WaitMeaning(s, step);
    }
  }

  /** A task that runs was submitted, and has not been done or purged before. */
  lemma RunningOnce(s: State, i: nat)
    requires Reachable(s) && i < |s.workers| && s.workers[i].phase.Running?
    ensures s.workers[i].phase.task < |s.submitted| && s.workers[i].phase.task !in s.done + s.purged
  {
    var id := s.workers[i].phase.task;
    ExactlyOnce(s, id);
    SumAtLeast(s.workers, RunsOf(id), i);
  }

  /** The names of the next `n` tasks. */
  function Names(first: nat, n: nat): seq<TaskId> {
    seq(n, k => first + k)
  }

  lemma NamesGrow(first: nat, n: nat)
    ensures Names(first, n + 1) == Names(first, n) + [first + n]
  {
  }

  /** The tasks of a call lie behind those submitted before, one for each block, in block order. */
  lemma BlocksInPlace(before: seq<Task>, b: Layout, n: nat)
    ensures var futures, submitted := Names(|before|, n), before + BlockTasks(b, n);
            forall k :: 0 <= k < |futures| ==>
              futures[k] < |submitted| && submitted[futures[k]] == Block(Start(b, k), End(b, k))
  {
  }

  lemma BlockTasksGrow(b: Layout, n: nat)
    ensures BlockTasks(b, n + 1) == BlockTasks(b, n) + [BlockTask(b, n)]
  {
  }

  function BlockTask(b: Layout, k: nat): Task {
    Block(Start(b, k), End(b, k))
  }

  /** The tasks for the first `n` blocks, in block order. */
  function BlockTasks(b: Layout, n: nat): seq<Task> {
    seq(n, k requires 0 <= k < n => BlockTask(b, k))
  }
}
