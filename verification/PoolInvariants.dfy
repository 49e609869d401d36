/** What every step of the pool keeps, over any number of workers, tasks and resets. */
module PoolInvariants {
  import opened Counting
  import opened ThreadPool

  // --- Counting workers --------------------------------------------------------------------

  /** Workers that `tasks_running` counts: starting, running, or finished and not yet counted out. */
  function Busy(w: Worker): nat {
    if w.phase in {Unspawned, Starting, Finished} || w.phase.Running? then 1 else 0
  }

  /** Workers that were signalled and will look at the queue. */
  function Signalled(w: Worker): nat {
    if w.phase == Woken && !w.stop then 1 else 0
  }

  // --- The counter and the control thread --------------------------------------------------

  ghost predicate CounterTrue(s: State) {
    s.tasksRunning == Sum(s.workers, Busy)
  }

  ghost predicate ResettingWorkers(s: State, left: nat) {
    && left <= |s.workers|
    && (forall i :: left <= i < |s.workers| ==> s.workers[i].phase == Exited)
    && NoWorker(s, Unspawned)
    && NoWorker(s, Starting)
  }

  ghost predicate WorkerOk(w: Worker) {
    && (w.phase in {Stopping, Exited} ==> w.stop)
    && (w.stop ==> w.phase !in {Asleep, Unspawned})
  }

  ghost predicate NoWorker(s: State, phase: Phase) {
    forall i :: 0 <= i < |s.workers| ==> s.workers[i].phase != phase
  }

  /** The phases of the workers agree with what the control thread is doing. */
  ghost predicate ControlFits(s: State) {
    match s.control
    case Idle => NoWorker(s, Unspawned) && !Stopped(s)
    case Spawning(next) =>
      && next < |s.workers|
      && !Stopped(s)
      && (forall i :: 0 <= i < |s.workers| ==> (s.workers[i].phase == Unspawned <==> next <= i))
    case Waiting(op, _) => NoWorker(s, Unspawned) && !Stopped(s) && (op.ThenReset? ==> op.numThreads <= SIZE_MAX)
    case Ready(n) => NoWorker(s, Unspawned) && NoWorker(s, Starting) && !Stopped(s) && n <= SIZE_MAX
    case Resetting(left) => ResettingWorkers(s, left)
    case Joining(left) => ResettingWorkers(s, left) && left > 0 && s.workers[left - 1].stop
  }

  ghost predicate ControlOk(s: State) {
    && 1 <= |s.workers| <= SIZE_MAX
    && 1 <= s.threadCount <= SIZE_MAX
    && s.hardware <= SIZE_MAX
    && (s.waiting <==> s.control.Waiting?)
    && (forall i :: 0 <= i < |s.workers| ==> WorkerOk(s.workers[i]))
    && ControlFits(s)
  }

  /** Some worker of the current generation has been asked to stop. */
  ghost predicate Stopped(s: State) {
    exists i :: 0 <= i < |s.workers| && s.workers[i].stop
  }

  // --- Wakeups -----------------------------------------------------------------------------

  ghost predicate SomeAsleep(s: State) {
    exists i :: 0 <= i < |s.workers| && s.workers[i].phase == Asleep
  }

  /** No lost task wakeup: whatever is queued while a worker sleeps has a notification under way. A
      worker that was asked to stop does not count, it will take nothing. */
  ghost predicate TasksSignalled(s: State) {
    SomeAsleep(s) ==> |s.tasks| <= s.pendingNotifies + Sum(s.workers, Signalled)
  }

  /** No lost completion wakeup: a waiter sleeps only while something will still wake it. */
  ghost predicate WaiterSignalled(s: State) {
    s.control.Waiting? && !s.control.signalled ==> s.waiting && !DoneForNow(s)
  }

  ghost predicate Inv(s: State) {
    CounterTrue(s) && ControlOk(s) && TasksSignalled(s)
  }

  // --- Preservation ------------------------------------------------------------------------

  lemma PhaseSums(s: State, i: nat, w: Worker)
    requires i < |s.workers|
    ensures Sum(s.workers[i := w], Busy) == Sum(s.workers, Busy) - Busy(s.workers[i]) + Busy(w)
    ensures Sum(s.workers[i := w], Signalled) == Sum(s.workers, Signalled) - Signalled(s.workers[i]) + Signalled(w)
    ensures Sum(s.workers, Busy) >= Busy(s.workers[i])
    ensures Sum(s.workers, Busy) <= |s.workers|
  {
    SumUpdate(s.workers, i, w, Busy);
    SumUpdate(s.workers, i, w, Signalled);
    SumAtLeast(s.workers, Busy, i);
    SumAtMost(s.workers, Busy, 1);
  }

  lemma InitialInv(numThreads: nat, hardware: nat)
    requires numThreads <= SIZE_MAX && hardware <= SIZE_MAX
    ensures Inv(Initial(numThreads, hardware))
  {
    FreshBusy(DetermineThreadCount(numThreads, hardware));
  }

  lemma {:induction false} FreshBusy(n: nat)
    ensures Sum(Fresh(n), Busy) == n
  {
    if n > 0 {
      FreshBusy(n - 1);
      assert Fresh(n)[..n - 1] == Fresh(n - 1);
    }
  }

  /** `t` differs from `s` in one worker's phase, and perhaps in the waiter's signal. */
  ghost predicate Moved(s: State, t: State, i: nat) {
    && i < |s.workers|
    && |t.workers| == |s.workers|
    && t.workers == s.workers[i := t.workers[i]]
    && t.workers[i].stop == s.workers[i].stop
    && t.waiting == s.waiting && t.threadCount == s.threadCount && t.hardware == s.hardware
    && (t.control == s.control || (s.control.Waiting? && t.control == s.control.(signalled := true)))
  }

  /** The worker whose phase a step changes, if there is just one. */
  ghost function Mover(step: Step): (i: int)
    ensures i >= -1
  {
    match step
    case NotifyOne(i) => i
    case InitDone(i) => i
    case TaskDone(i) => i
    case Relock(i) => i
    case WakeUp(i) => i
    case Spurious(i) => i
    case Cleanup(i) => i
    case _ => -1
  }

  lemma MoverMoves(s: State, step: Step)
    requires Enabled(s, step) && Mover(step) >= 0
    ensures Moved(s, Apply(s, step), Mover(step))
    ensures s.workers[Mover(step)].phase !in {Unspawned, Exited}
    ensures Apply(s, step).workers[Mover(step)].phase !in {Unspawned, Starting}
    ensures WorkerOk(s.workers[Mover(step)]) ==> WorkerOk(Apply(s, step).workers[Mover(step)])
  {
  }

  /** A step changes the counter by what it changes in the worker it moves. */
  lemma MoverCounts(s: State, step: Step)
    requires Enabled(s, step) && Mover(step) >= 0
    requires Busy(s.workers[Mover(step)]) <= s.tasksRunning
    requires s.tasksRunning < SIZE_MAX + Busy(s.workers[Mover(step)])
    ensures Mover(step) < |Apply(s, step).workers|
    ensures Apply(s, step).tasksRunning + Busy(s.workers[Mover(step)])
         == s.tasksRunning + Busy(Apply(s, step).workers[Mover(step)])
  {
  }

  /** The counter stays true, so the unsigned decrement and increment never wrap. */
  lemma CounterStep(s: State, step: Step)
    requires CounterTrue(s) && ControlOk(s) && Enabled(s, step)
    ensures CounterTrue(Apply(s, step))
    ensures step.Relock? ==> s.tasksRunning > 0
    ensures step.WakeUp? || step.Relock? ==> s.tasksRunning <= |s.workers| <= SIZE_MAX
    ensures step.Install? ==> s.tasksRunning == 0
  {
    var t := Apply(s, step);
    if Mover(step) >= 0 {
      var i := Mover(step);
      MoverMoves(s, step);
      PhaseSums(s, i, t.workers[i]);
      if Busy(s.workers[i]) == 0 {
        BusyBelow(s, i);
      }
      MoverCounts(s, step);
    } else if step.RequestStop? {
      SumSame(s.workers, t.workers, Busy);
    } else if step.Install? {
      AllExited(s);
      FreshBusy(s.threadCount);
    } else if step.Spawn? {
      PhaseSums(s, s.control.next, t.workers[s.control.next]);
    }
  }

  /** When every thread has been joined the counter reads 0, whatever was submitted meanwhile. */
  lemma AllExited(s: State)
    requires CounterTrue(s) && ControlOk(s) && s.control == Resetting(0)
    ensures s.tasksRunning == 0
  {
    SumZero(s.workers, Busy);
  }

  /** One worker that is not counted leaves room below `size_t`'s maximum. */
  lemma BusyBelow(s: State, i: nat)
    requires i < |s.workers| && Busy(s.workers[i]) == 0
    ensures Sum(s.workers, Busy) < |s.workers|
  {
    var w := s.workers[i].(phase := Finished);
    SumUpdate(s.workers, i, w, Busy);
    SumAtMost(s.workers[i := w], Busy, 1);
  }

  /** A counter at 0 means that no thread is inside its init function, or yet to enter it. */
  lemma NobodyStarting(s: State)
    requires CounterTrue(s) && s.tasksRunning == 0
    ensures forall i :: 0 <= i < |s.workers| ==>
              s.workers[i].phase !in {Unspawned, Starting, Finished} && !s.workers[i].phase.Running?
  {
    SumZero(s.workers, Busy);
    forall i | 0 <= i < |s.workers|
      ensures s.workers[i].phase !in {Unspawned, Starting, Finished} && !s.workers[i].phase.Running?
    {
      assert Busy(s.workers[i]) == 0;
    }
  }

  lemma MovedFits(s: State, t: State, i: nat)
    requires Moved(s, t, i) && ControlFits(s)
    requires s.workers[i].phase !in {Unspawned, Exited} && t.workers[i].phase !in {Unspawned, Starting}
    ensures ControlFits(t)
    ensures Stopped(t) ==> Stopped(s)
  {
    if Stopped(t) {
      var j :| 0 <= j < |t.workers| && t.workers[j].stop;
      assert s.workers[j].stop;
    }
  }

  lemma MovedControl(s: State, step: Step)
    requires ControlOk(s) && Enabled(s, step) && Mover(step) >= 0
    ensures ControlOk(Apply(s, step))
  {
    MoverMoves(s, step);
    MovedFits(s, Apply(s, step), Mover(step));
  }

  /** `wait()` returns only when no thread is inside its init function. */
  lemma WaitFits(s: State, step: Step)
    requires CounterTrue(s) && ControlOk(s) && Enabled(s, step) && (step.WaitCall? || step.ControlWakeUp?)
    ensures ControlOk(Apply(s, step))
  {
    if DoneForNow(s) {
      NobodyStarting(s);
    }
  }

  lemma ControlStep(s: State, step: Step)
    requires CounterTrue(s) && ControlOk(s) && Enabled(s, step)
    ensures ControlOk(Apply(s, step))
  {
    if Mover(step) >= 0 {
      MovedControl(s, step);
    } else if step.WaitCall? || step.ControlWakeUp? {
      WaitFits(s, step);
    } else if step.RequestStop? {
      StopFits(s);
    } else if step in {BeginReset, Join, Install, Spawn} {
      ResetFits(s, step);
    }
  }

  lemma ResetFits(s: State, step: Step)
    requires ControlOk(s) && Enabled(s, step) && step in {BeginReset, Join, Install, Spawn}
    ensures ControlOk(Apply(s, step))
  {
    if step.Install? || step.Spawn? {
      assert !Stopped(Apply(s, step));
    }
  }

  lemma StopFits(s: State)
    requires ControlOk(s) && Enabled(s, RequestStop)
    ensures ControlOk(Apply(s, RequestStop))
  {
    var t := Apply(s, RequestStop);
    assert forall i :: 0 <= i < |s.workers| ==> t.workers[i].phase in {s.workers[i].phase, Woken};
  }

  lemma WakeStep(s: State, step: Step)
    requires Inv(s) && Enabled(s, step)
    ensures TasksSignalled(Apply(s, step))
  {
    var t := Apply(s, step);
    if Mover(step) >= 0 {
      MoverMoves(s, step);
      MovedAsleep(s, t, Mover(step));
      PhaseSums(s, Mover(step), t.workers[Mover(step)]);
    } else if step.RequestStop? {
      StopSignals(s);
    } else if step.Spawn? {
      MovedAsleep(s, t.(control := s.control), s.control.next);
      PhaseSums(s, s.control.next, t.workers[s.control.next]);
    }
  }

  lemma MovedAsleep(s: State, t: State, i: nat)
    requires Moved(s, t, i)
    ensures SomeAsleep(t) && t.workers[i].phase != Asleep ==> SomeAsleep(s)
  {
    if SomeAsleep(t) && t.workers[i].phase != Asleep {
      var j :| 0 <= j < |t.workers| && t.workers[j].phase == Asleep;
      assert s.workers[j].phase == Asleep;
    }
  }

  /** The stop callback of a worker that waits for a task wakes everyone. */
  lemma StopWakesAll(s: State)
    requires Enabled(s, RequestStop) && s.workers[s.control.left - 1].phase in {Asleep, Woken}
    ensures !SomeAsleep(Apply(s, RequestStop))
    ensures forall j :: 0 <= j < |s.workers| && s.workers[j].phase != Asleep ==>
              Apply(s, RequestStop).workers[j].phase == s.workers[j].phase
  {
  }

  /** Stopping any other worker takes no signal away. */
  lemma StopKeepsSignals(s: State)
    requires Enabled(s, RequestStop) && s.workers[s.control.left - 1].phase !in {Asleep, Woken}
    ensures Sum(Apply(s, RequestStop).workers, Signalled) == Sum(s.workers, Signalled)
    ensures SomeAsleep(Apply(s, RequestStop)) ==> SomeAsleep(s)
    ensures forall j :: 0 <= j < |s.workers| && j != s.control.left - 1 ==>
              Apply(s, RequestStop).workers[j] == s.workers[j]
  {
    var t := Apply(s, RequestStop);
    SumUpdate(s.workers, s.control.left - 1, t.workers[s.control.left - 1], Signalled);
    if SomeAsleep(t) {
      var j :| 0 <= j < |t.workers| && t.workers[j].phase == Asleep;
      assert s.workers[j].phase == Asleep;
    }
  }

  /** Stopping a worker, even one that holds a signal, leaves no queued task without one. */
  lemma StopSignals(s: State)
    requires TasksSignalled(s) && Enabled(s, RequestStop)
    ensures TasksSignalled(Apply(s, RequestStop))
  {
    if s.workers[s.control.left - 1].phase in {Asleep, Woken} {
      StopWakesAll(s);
    } else {
      StopKeepsSignals(s);
    }
  }

  lemma InvStep(s: State, step: Step)
    requires Inv(s) && Enabled(s, step)
    ensures Inv(Apply(s, step))
  {
    CounterStep(s, step);
    ControlStep(s, step);
    WakeStep(s, step);
  }
}
