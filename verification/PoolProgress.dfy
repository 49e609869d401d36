/** Progress: once submissions stop, the pool drains within a bound and ends where it should. */
module PoolProgress {
  import opened Counting
  import opened ThreadPool
  import opened PoolInvariants
  import opened PoolHistory
  import opened PoolWaiting

  // --- The ranking -------------------------------------------------------------------------

  function PhaseRank(w: Worker): nat {
    match w.phase
    case Unspawned => 5
    case Starting => 4
    case Running(_) => 4
    case Finished => 3
    case Woken => 2
    case Stopping => 1
    case Asleep => 0
    case Exited => 0
  }

  /** What is left of a reset: stopping and joining `left` threads, then starting the new ones. */
  function ResetRank(left: nat, workers: nat, threadCount: nat): nat {
    left * (2 * workers + 2) + 5 * threadCount
  }

  function OpRank(s: State, op: Op): nat {
    match op
    case JustWait => 0
    case ThenReset(n) => ResetRank(|s.workers|, |s.workers|, DetermineThreadCount(n, s.hardware)) + 3
  }

  function ControlRank(s: State): nat {
    match s.control
    case Idle => 0
    case Spawning(_) => 0
    case Waiting(op, signalled) => OpRank(s, op) + if signalled then 1 else 0
    case Ready(n) => ResetRank(|s.workers|, |s.workers|, DetermineThreadCount(n, s.hardware)) + 2
    case Resetting(left) => ResetRank(left, |s.workers|, s.threadCount) + 1
    case Joining(left) => (if left > 0 then ResetRank(left - 1, |s.workers|, s.threadCount) else 0) + 2
  }

  ghost function Rank(s: State): nat {
    3 * |s.tasks| + 3 * s.pendingNotifies + Sum(s.workers, PhaseRank) + ControlRank(s)
  }

  /** The steps the pool takes by itself: no call from outside and no spurious wakeup. */
  predicate Internal(step: Step) {
    !step.Submit? && !step.Purge? && !step.WaitCall? && !SpuriousStep(step)
  }

  predicate SpuriousStep(step: Step) {
    step.Spurious? || step.ControlSpurious?
  }

  /** The rank without the other workers' share. */
  function RankAt(s: State, i: nat): nat
    requires i < |s.workers|
  {
    3 * |s.tasks| + 3 * s.pendingNotifies + PhaseRank(s.workers[i]) + ControlRank(s)
  }

  lemma MoverRankAt(s: State, step: Step)
    requires ControlOk(s) && Enabled(s, step) && Internal(step) && Mover(step) >= 0
    requires |Apply(s, step).workers| == |s.workers|
    ensures RankAt(Apply(s, step), Mover(step)) < RankAt(s, Mover(step))
  {
  }

  lemma MoverRank(s: State, step: Step)
    requires Inv(s) && Enabled(s, step) && Internal(step) && Mover(step) >= 0
    ensures Rank(Apply(s, step)) < Rank(s)
  {
    MoverMoves(s, step);
    MoverRankAt(s, step);
    SumUpdate(s.workers, Mover(step), Apply(s, step).workers[Mover(step)], PhaseRank);
  }

  /** Stopping a thread wakes at most every worker. */
  lemma StopWorkers(s: State)
    requires Enabled(s, RequestStop)
    ensures Sum(Apply(s, RequestStop).workers, PhaseRank) <= Sum(s.workers, PhaseRank) + 2 * |s.workers|
  {
    SumRise(s.workers, Apply(s, RequestStop).workers, PhaseRank, 2);
  }

  lemma StopRank(s: State)
    requires Inv(s) && Enabled(s, RequestStop)
    ensures Rank(Apply(s, RequestStop)) < Rank(s)
  {
    StopWorkers(s);
    ResetRankFalls(s.control.left, |s.workers|, s.threadCount);
  }

  lemma ResetRankFalls(left: nat, workers: nat, threadCount: nat)
    requires left > 0
    ensures ResetRank(left, workers, threadCount) == ResetRank(left - 1, workers, threadCount) + 2 * workers + 2
  {
    assert left * (2 * workers + 2) == (left - 1) * (2 * workers + 2) + (2 * workers + 2);
  }

  lemma InstallRank(s: State)
    requires Inv(s) && Enabled(s, Install)
    ensures Rank(Apply(s, Install)) < Rank(s)
  {
    SumZero(s.workers, PhaseRank);
    SumAtMost(Fresh(s.threadCount), PhaseRank, 5);
  }

  /** Every internal step lowers the rank. */
  lemma RankFalls(s: State, step: Step)
    requires Inv(s) && Enabled(s, step) && Internal(step)
    ensures Rank(Apply(s, step)) < Rank(s)
  {
    if Mover(step) >= 0 {
      MoverRank(s, step);
    } else if step.RequestStop? {
      StopRank(s);
    } else if step.Install? {
      InstallRank(s);
    } else if step.Spawn? {
      SumUpdate(s.workers, s.control.next, Apply(s, step).workers[s.control.next], PhaseRank);
    }
  }

  /** A spurious wakeup raises it by at most 2. */
  lemma SpuriousRank(s: State, step: Step)
    requires Inv(s) && Enabled(s, step) && SpuriousStep(step)
    ensures Rank(Apply(s, step)) <= Rank(s) + 2
  {
    if step.Spurious? {
      SumUpdate(s.workers, step.worker, Apply(s, step).workers[step.worker], PhaseRank);
    }
  }

  function IsSpurious(step: Step): nat {
    if SpuriousStep(step) then 1 else 0
  }

  /** Left to itself the pool takes at most `Rank(s)` steps, plus three for each spurious wakeup. */
  lemma {:induction false} DrainBound(s: State, steps: seq<Step>)
    requires Inv(s) && ValidRun(s, steps)
    requires forall i :: 0 <= i < |steps| ==> Internal(steps[i]) || SpuriousStep(steps[i])
    ensures |steps| + Rank(Final(s, steps)) <= Rank(s) + 3 * Sum(steps, IsSpurious)
    decreases |steps|
  {
    if steps != [] {
      SumFirst(steps, IsSpurious);
      InvStep(s, steps[0]);
      if SpuriousStep(steps[0]) {
        SpuriousRank(s, steps[0]);
      } else {
        RankFalls(s, steps[0]);
      }
      DrainBound(Apply(s, steps[0]), steps[1..]);
    }
  }

  // --- Where it ends -----------------------------------------------------------------------

  /** No internal step is possible. */
  ghost predicate Quiet(s: State) {
    forall step | Internal(step) :: !Enabled(s, step)
  }

  predicate Drained(s: State) {
    && s.tasks == [] && s.tasksRunning == 0 && s.pendingNotifies == 0
    && s.control == Idle && !s.waiting
    && (forall i :: 0 <= i < |s.workers| ==> s.workers[i] == Worker(Asleep, false))
  }

  lemma QuietWorkers(s: State)
    requires Inv(s) && Quiet(s)
    ensures s.pendingNotifies == 0
    ensures forall i :: 0 <= i < |s.workers| ==> s.workers[i].phase in {Asleep, Exited, Unspawned}
    ensures Sum(s.workers, Signalled) == 0
  {
    forall i | 0 <= i < |s.workers|
      ensures s.workers[i].phase in {Asleep, Exited, Unspawned} && Signalled(s.workers[i]) == 0
    {
      assert !Enabled(s, InitDone(i)) && !Enabled(s, TaskDone(i)) && !Enabled(s, Relock(i));
      assert !Enabled(s, WakeUp(i)) && !Enabled(s, Cleanup(i));
    }
    SumZero(s.workers, Signalled);
    assert !Enabled(s, NotifyNobody);
    forall i: nat | i < |s.workers|
      ensures !(s.pendingNotifies > 0 && s.workers[i].phase == Asleep)
    {
      assert !Enabled(s, NotifyOne(i));
    }
  }

  lemma QuietControl(s: State)
    requires Inv(s) && Quiet(s)
    ensures s.control == Idle || (s.control.Waiting? && !s.control.signalled)
  {
    assert !Enabled(s, ControlWakeUp) && !Enabled(s, BeginReset) && !Enabled(s, RequestStop);
    assert !Enabled(s, Join) && !Enabled(s, Install) && !Enabled(s, Spawn);
    QuietWorkers(s);
  }

  /** A pool that can take no step by itself is drained: nothing queued or running, every worker
      asleep, the wait or reset that was under way finished. The converse holds too. */
  lemma QuietIsDrained(s: State)
    requires Inv(s) && WaiterSignalled(s)
    ensures Quiet(s) <==> Drained(s)
  {
    if Quiet(s) {
      QuietWorkers(s);
      QuietControl(s);
      forall i | 0 <= i < |s.workers|
        ensures s.workers[i] == Worker(Asleep, false)
      {
        assert WorkerOk(s.workers[i]);
      }
      assert s.workers[0].phase == Asleep;
      assert SomeAsleep(s);
      SumZero(s.workers, Busy);
    }
    if Drained(s) {
      forall step | Internal(step)
        ensures !Enabled(s, step)
      {
      }
    }
  }

  /** Reachable by a run in which every purge was safe. */
  ghost predicate ReachableSafely(s: State) {
    exists numThreads: nat, hardware: nat, steps ::
      numThreads <= SIZE_MAX && hardware <= SIZE_MAX
      && ValidRun(Initial(numThreads, hardware), steps) && SafePurges(Initial(numThreads, hardware), steps)
      && s == Final(Initial(numThreads, hardware), steps)
  }

  lemma SafelyInv(s: State)
    requires ReachableSafely(s)
    ensures Inv(s) && HistoryOk(s) && WaiterSignalled(s)
  {
    var numThreads: nat, hardware: nat, steps :|
      numThreads <= SIZE_MAX && hardware <= SIZE_MAX
      && ValidRun(Initial(numThreads, hardware), steps) && SafePurges(Initial(numThreads, hardware), steps)
      && s == Final(Initial(numThreads, hardware), steps);
    assert Reachable(s);
    ReachableInv(s);
    InitialInv(numThreads, hardware);
    WaiterRun(Initial(numThreads, hardware), steps);
  }

  /** No lost completion wakeup: a waiter that sleeps unsignalled has its flag up and a task left that
      will wake it. */
  lemma NoLostCompletionWakeup(s: State)
    requires ReachableSafely(s) && s.control.Waiting? && !s.control.signalled
    ensures s.waiting && (s.tasksRunning > 0 || s.tasks != [])
  {
    SafelyInv(s);
  }

  lemma {:induction false} NoPurges(s: State, steps: seq<Step>)
    requires ValidRun(s, steps) && forall i :: 0 <= i < |steps| ==> !steps[i].Purge?
    ensures SafePurges(s, steps)
    decreases |steps|
  {
    if steps != [] {
      NoPurges(Apply(s, steps[0]), steps[1..]);
    }
  }

  /** A run without calls from outside keeps everything that holds of a safely reachable pool. */
  lemma DrainKeeps(s: State, steps: seq<Step>)
    requires Inv(s) && HistoryOk(s) && WaiterSignalled(s) && ValidRun(s, steps)
    requires forall i :: 0 <= i < |steps| ==> !steps[i].Purge?
    ensures Inv(Final(s, steps)) && HistoryOk(Final(s, steps)) && WaiterSignalled(Final(s, steps))
  {
    RunInv(s, steps);
    NoPurges(s, steps);
    WaiterRun(s, steps);
  }

  lemma QuietIsOver(s: State)
    requires Inv(s) && HistoryOk(s) && WaiterSignalled(s)
    ensures Quiet(s) <==> Drained(s)
    ensures Quiet(s) ==> forall id :: 0 <= id < |s.submitted| ==> id in s.done || id in s.purged
  {
    QuietIsDrained(s);
    if Quiet(s) {
      AllAccounted(s);
    }
  }

  /** The main result. From any reachable pool in which purges were safe, once callers stop submitting,
      purging and calling: every run is bounded, and a run that cannot be continued has every task
      done or purged, every worker asleep, and the waiter or the reset finished. */
  lemma DrainEnds(s: State, steps: seq<Step>)
    requires ReachableSafely(s) && ValidRun(s, steps)
    requires forall i :: 0 <= i < |steps| ==> Internal(steps[i]) || SpuriousStep(steps[i])
    ensures |steps| <= Rank(s) + 3 * Sum(steps, IsSpurious)
    ensures var end := Final(s, steps);
            && (Quiet(end) <==> Drained(end))
            && (Quiet(end) ==> forall id :: 0 <= id < |end.submitted| ==> id in end.done || id in end.purged)
  {
    SafelyInv(s);
    DrainBound(s, steps);
    DrainKeeps(s, steps);
    QuietIsOver(Final(s, steps));
  }
}
