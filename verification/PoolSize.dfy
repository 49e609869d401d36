/** How many threads a pool has: what its constructor or its last reset asked for. */
module PoolSize {
  import opened PoolHistory
  import opened PoolInvariants
  import opened PoolProgress
  import opened PoolWaiting
  import opened ThreadPool

  /** `n` asks for `k` threads: for itself, or for one per processor, or for one if that is not known. */
  predicate Asks(n: nat, hardware: nat, k: nat) {
    && (n > 0 ==> k == n)
    && (n == 0 && hardware > 0 ==> k == hardware)
    && (n == 0 && hardware == 0 ==> k == 1)
  }

  ghost predicate Sized(s: State, k: nat) {
    |s.workers| == s.threadCount == k
  }

  /** The pool has `k` threads, or the reset that is under way will give it `k`. */
  ghost predicate Heading(s: State, k: nat) {
    match s.control
    case Idle => Sized(s, k)
    case Spawning(_) => Sized(s, k)
    case Waiting(op, _) => if op.JustWait? then Sized(s, k) else Asks(op.numThreads, s.hardware, k)
    case Ready(n) => Asks(n, s.hardware, k)
    case Resetting(_) => s.threadCount == k
    case Joining(_) => s.threadCount == k
  }

  predicate AsksReset(step: Step) {
    step.WaitCall? && step.op.ThenReset?
  }

  /** The last request in a run, by its labels alone. */
  function LastRequest(n: nat, steps: seq<Step>): nat {
    if steps == [] then n
    else
      var last := steps[|steps| - 1];
      if AsksReset(last) then last.op.numThreads else LastRequest(n, steps[..|steps| - 1])
  }

  lemma HeadingStep(s: State, step: Step, k: nat)
    requires Enabled(s, step)
    requires if AsksReset(step) then Asks(step.op.numThreads, s.hardware, k) else Heading(s, k)
    ensures Heading(Apply(s, step), k) && Apply(s, step).hardware == s.hardware
  {
  }

  /** Over any run from the pool's construction: the pool has as many threads as its last reset asked for, or
      its constructor if there was none, once that reset is through; and a reset under way will get there. */
  lemma {:induction false} RunSize(numThreads: nat, hardware: nat, steps: seq<Step>, k: nat)
    requires ValidRun(Initial(numThreads, hardware), steps)
    requires Asks(LastRequest(numThreads, steps), hardware, k)
    ensures var s := Final(Initial(numThreads, hardware), steps);
            && Heading(s, k) && s.hardware == hardware
            && (s.control.Idle? ==> |s.workers| == s.threadCount == k)
    decreases |steps|
  {
    if steps != [] {
      var init, front, last := Initial(numThreads, hardware), steps[..|steps| - 1], steps[|steps| - 1];
      assert steps == front + [last];
      RunConcat(init, front, [last]);
      assert [last][1..] == [];
      var before := LastRequest(numThreads, front);
      var j := if before > 0 then before else if hardware > 0 then hardware else 1;
      RunSize(numThreads, hardware, front, j);
      HeadingStep(Final(init, front), last, k);
    }
  }

  lemma {:induction false} RunHeads(s: State, steps: seq<Step>, k: nat)
    requires Heading(s, k) && ValidRun(s, steps) && forall i :: 0 <= i < |steps| ==> !AsksReset(steps[i])
    ensures Heading(Final(s, steps), k)
    decreases |steps|
  {
    if steps != [] {
      HeadingStep(s, steps[0], k);
      RunHeads(Apply(s, steps[0]), steps[1..], k);
    }
  }

  /** Nothing is refused: tasks and purges are taken at any time, and an idle pool takes a call of `wait` or of
      `reset` for any number of threads. */
  lemma CallsAreTaken(s: State, task: Task, n: nat)
    requires n <= SIZE_MAX
    ensures Enabled(s, Submit(task)) && Enabled(s, Purge)
    ensures s.control.Idle? ==> Enabled(s, WaitCall(JustWait)) && Enabled(s, WaitCall(ThenReset(n)))
  {
  }

  /** A reset happens. From any idle pool, a call of `reset` and then whatever the pool does by itself end in
      as many threads as the call asked for, all of them asleep, with every task that was queued done. */
  lemma ResetEnds(s: State, n: nat, steps: seq<Step>, k: nat)
    requires ReachableSafely(s) && s.control.Idle? && n <= SIZE_MAX && Asks(n, s.hardware, k)
    requires ValidRun(s, [WaitCall(ThenReset(n))] + steps)
    requires forall i :: 0 <= i < |steps| ==> Internal(steps[i]) || SpuriousStep(steps[i])
    requires Quiet(Final(s, [WaitCall(ThenReset(n))] + steps))
    ensures var end := Final(s, [WaitCall(ThenReset(n))] + steps);
            && |end.workers| == end.threadCount == k
            && Drained(end)
            && forall id :: 0 <= id < |end.submitted| ==> id in end.done || id in end.purged
  {
    var call := WaitCall(ThenReset(n));
    assert ([call] + steps)[1..] == steps;
    var waiting := Apply(s, call);
    SafelyInv(s);
    InvStep(s, call);
    HistoryStep(s, call);
    WaiterStep(s, call);
    DrainKeeps(waiting, steps);
    QuietIsOver(Final(waiting, steps));
    HeadingStep(s, call, k);
    RunHeads(waiting, steps, k);
  }
}
