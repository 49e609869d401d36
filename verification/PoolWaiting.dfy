/** What `wait()` means, when a waiter is sure to be woken, and when a purge takes that away. */
module PoolWaiting {
  import opened Counting
  import opened ThreadPool
  import opened PoolInvariants
  import opened PoolHistory

  // --- The meaning of wait -----------------------------------------------------------------

  predicate Finishes(s: State, step: Step) {
    && (step.ControlWakeUp? || step.WaitCall?)
    && Enabled(s, step)
    && !Apply(s, step).control.Waiting?
  }

  /** When `wait()` returns, every task submitted so far is done or purged, no worker has a task, and
      every worker has left its init function. */
  lemma WaitMeaning(s: State, step: Step)
    requires Reachable(s) && Finishes(s, step)
    ensures forall id :: 0 <= id < |s.submitted| ==> id in s.done || id in s.purged
    ensures forall i :: 0 <= i < |s.workers| ==>
              s.workers[i].phase !in {Unspawned, Starting} && !s.workers[i].phase.Running?
    ensures !Apply(s, step).waiting
  {
    ReachableInv(s);
    NobodyStarting(s);
    AllAccounted(s);
  }

  /** A reset overwrites the init function only while no worker is using it or has yet to use it. */
  lemma InitFunctionUnused(s: State)
    requires Reachable(s) && Enabled(s, BeginReset)
    ensures forall i :: 0 <= i < |s.workers| ==> s.workers[i].phase !in {Unspawned, Starting}
  {
    ReachableInv(s);
  }

  // --- Signals, real and spurious ----------------------------------------------------------

  /** The waiter is signalled, other than spuriously, exactly by the worker that counts itself out last and
      finds nothing queued. */
  lemma WaiterSignal(s: State, step: Step)
    requires Inv(s) && Enabled(s, step) && s.control.Waiting? && !s.control.signalled && !step.ControlSpurious?
    ensures Apply(s, step).control.Waiting? && Apply(s, step).control.signalled
       <==> step.Relock? && s.tasksRunning == 1 && s.tasks == []
  {
    CounterStep(s, step);
  }

  /** Any sleeping worker may wake spuriously; with nothing queued and no stop it goes back to sleep, and
      nothing has changed. */
  lemma SpuriousIsHarmless(s: State, i: nat)
    requires i < |s.workers| && s.workers[i] == Worker(Asleep, false) && s.tasks == []
    ensures Enabled(s, Spurious(i)) && Enabled(Apply(s, Spurious(i)), WakeUp(i))
    ensures Apply(Apply(s, Spurious(i)), WakeUp(i)) == s
  {
    assert s.workers[i := Worker(Woken, false)][i := Worker(Asleep, false)] == s.workers;
  }

  /** And so for the waiter: while something is queued or running it goes back to sleep. */
  lemma SpuriousWaiter(s: State)
    requires Inv(s) && s.control.Waiting? && !s.control.signalled && !DoneForNow(s)
    ensures Enabled(s, ControlSpurious) && Enabled(Apply(s, ControlSpurious), ControlWakeUp)
    ensures Apply(Apply(s, ControlSpurious), ControlWakeUp) == s
  {
  }

  // --- The waiter's wakeup -----------------------------------------------------------------

  /** What a caller of `purge()` can check: nobody sleeps in `wait()` with no task running. */
  predicate PurgeSafe(s: State) {
    !(s.control.Waiting? && !s.control.signalled && s.tasksRunning == 0)
  }

  /** No step but a purge can leave a sleeping waiter behind, and a purge does so exactly when it
      finds the waiter asleep and no task running. */
  lemma WaiterStep(s: State, step: Step)
    requires Inv(s) && WaiterSignalled(s) && Enabled(s, step)
    ensures WaiterSignalled(Apply(s, step)) <==> (step.Purge? ==> PurgeSafe(s))
  {
    CounterStep(s, step);
    if step.WakeUp? || step.Relock? {
      MoverMoves(s, step);
      CountedBelow(s, step);
    }
  }

  lemma CountedBelow(s: State, step: Step)
    requires Inv(s) && Enabled(s, step) && (step.WakeUp? || step.Relock?)
    ensures step.WakeUp? ==> s.tasksRunning < SIZE_MAX
    ensures s.tasksRunning <= SIZE_MAX
    ensures s.control.Waiting? ==> !s.workers[step.worker].stop
  {
    SumAtMost(s.workers, Busy, 1);
    if step.WakeUp? {
      BusyBelow(s, step.worker);
    }
  }

  /** Runs in which every purge is safe. */
  ghost predicate SafePurges(s: State, steps: seq<Step>)
    requires ValidRun(s, steps)
    decreases |steps|
  {
    steps != [] ==> (steps[0].Purge? ==> PurgeSafe(s)) && SafePurges(Apply(s, steps[0]), steps[1..])
  }

  lemma {:induction false} WaiterRun(s: State, steps: seq<Step>)
    requires Inv(s) && WaiterSignalled(s) && ValidRun(s, steps) && SafePurges(s, steps)
    ensures WaiterSignalled(Final(s, steps))
    decreases |steps|
  {
    if steps != [] {
      InvStep(s, steps[0]);
      WaiterStep(s, steps[0]);
      WaiterRun(Apply(s, steps[0]), steps[1..]);
    }
  }

  /** A waiter that nothing will wake: asleep, with no task queued or running. */
  predicate Stranded(s: State) {
    s.control.Waiting? && !s.control.signalled && DoneForNow(s)
  }

  /** An unsafe purge strands the waiter for good: until somebody submits again or the operating
      system wakes the waiter spuriously, no run brings it back. */
  lemma {:induction false} StrandedForGood(s: State, steps: seq<Step>)
    requires Inv(s) && Stranded(s) && ValidRun(s, steps)
    requires forall i :: 0 <= i < |steps| ==> !steps[i].Submit? && steps[i] != ControlSpurious
    ensures Stranded(Final(s, steps))
    decreases |steps|
  {
    if steps != [] {
      NobodyStarting(s);
      CounterStep(s, steps[0]);
      InvStep(s, steps[0]);
      assert Stranded(Apply(s, steps[0]));
      StrandedForGood(Apply(s, steps[0]), steps[1..]);
    }
  }

  /** A pool of one worker, which sleeps. */
  function OneAsleep(): State {
    State([], 0, false, 1, [Worker(Asleep, false)], 0, Idle, 1, [], [], [], [])
  }

  lemma OneFallsAsleep()
    ensures Reachable(OneAsleep())
  {
    var init := Initial(1, 1);
    assert init.workers == [Worker(Unspawned, false)];
    StartsRun(1, 1);
    ExtendsRun(init, Spawn);
    var spawned := Apply(init, Spawn);
    assert spawned.workers == [Worker(Starting, false)];
    ExtendsRun(spawned, InitDone(0));
    var finished := Apply(spawned, InitDone(0));
    assert finished.workers == [Worker(Finished, false)];
    ExtendsRun(finished, Relock(0));
    assert Apply(finished, Relock(0)).workers == [Worker(Asleep, false)];
  }

  /** The purge that strands a waiter can happen: with one worker, submit, wait, then purge before the
      worker gets the mutex. */
  lemma PurgeCanStrand(task: Task) returns (s: State)
    ensures Reachable(s) && WaiterSignalled(s)
    ensures !PurgeSafe(s) && Stranded(Apply(s, Purge))
  {
    OneFallsAsleep();
    ExtendsRun(OneAsleep(), Submit(task));
    var queued := Apply(OneAsleep(), Submit(task));
    ExtendsRun(queued, WaitCall(JustWait));
    s := Apply(queued, WaitCall(JustWait));
  }

  lemma StartsRun(numThreads: nat, hardware: nat)
    requires numThreads <= SIZE_MAX && hardware <= SIZE_MAX
    ensures Reachable(Initial(numThreads, hardware))
  {
    assert ValidRun(Initial(numThreads, hardware), []);
    assert Final(Initial(numThreads, hardware), []) == Initial(numThreads, hardware);
  }

  /** One more step from a reachable state. */
  lemma ExtendsRun(s: State, step: Step)
    requires Reachable(s) && Enabled(s, step)
    ensures Reachable(Apply(s, step))
  {
    var numThreads: nat, hardware: nat, steps :|
      numThreads <= SIZE_MAX && hardware <= SIZE_MAX
      && ValidRun(Initial(numThreads, hardware), steps) && s == Final(Initial(numThreads, hardware), steps);
    RunExtends(Initial(numThreads, hardware), steps, step);
  }

  lemma {:induction false} RunExtends(s: State, steps: seq<Step>, step: Step)
    requires ValidRun(s, steps) && Enabled(Final(s, steps), step)
    ensures ValidRun(s, steps + [step]) && Final(s, steps + [step]) == Apply(Final(s, steps), step)
    decreases |steps|
  {
    var longer := steps + [step];
    if steps == [] {
      assert longer[1..] == [];
    } else {
      assert longer[1..] == steps[1..] + [step];
      RunExtends(Apply(s, steps[0]), steps[1..], step);
    }
  }
}
