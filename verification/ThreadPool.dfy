/**
 The thread pool of src/BS_thread_pool.hpp, instantiated as the server uses it (`tp::none`, C++20
 threads with stop tokens), as a step machine. Every critical section under `tasks_mutex` is one
 step, and so is everything a thread does between two critical sections that another thread can
 observe: firing `notify_one` after the unlock, finishing an init function or a task, being woken.
 The label of a step resolves all nondeterminism, so a run is a start state and a list of labels.
 */
module ThreadPool {

  import Packets

  /** What the repository puts into the pool: a block of a split loop, or a write to a target. A write holds
      its websocket and a packet; `serial` is history, the opening of the stream that it was submitted for. */
  datatype Task =
    | Block(start: int, end: int)
    | Write(socket: nat, stream: Packets.u32, payload: seq<Packets.byte>, serial: nat)

  /** A task is named by its place in the submission history. */
  type TaskId = nat

  /** Where a worker thread is. `Finished` is between the end of its init function or task and the
      next acquisition of the mutex; `Woken` has been signalled but does not hold the mutex yet. */
  datatype Phase = Unspawned | Starting | Running(task: TaskId) | Finished | Asleep | Woken | Stopping | Exited

  datatype Worker = Worker(phase: Phase, stop: bool)

  datatype Op = JustWait | ThenReset(numThreads: nat)

  /** The one thread that waits for the pool and resets it. */
  datatype Control =
    | Idle
    | Spawning(next: nat)
    | Waiting(op: Op, signalled: bool)
    | Ready(numThreads: nat)
    | Resetting(left: nat)
    | Joining(left: nat)

  const SIZE_MAX: nat := 0xFFFF_FFFF_FFFF_FFFF

  datatype State = State(
    tasks: seq<TaskId>,
    tasksRunning: nat,
    waiting: bool,
    threadCount: nat,
    workers: seq<Worker>,
    pendingNotifies: nat,
    control: Control,
    hardware: nat,
    // history
    submitted: seq<Task>,
    started: seq<TaskId>,
    done: seq<TaskId>,
    purged: seq<TaskId>)

  datatype Step =
    | Submit(task: Task)
    | NotifyOne(worker: nat)
    | NotifyNobody
    | InitDone(worker: nat)
    | TaskDone(worker: nat)
    | Relock(worker: nat)
    | WakeUp(worker: nat)
    | Spurious(worker: nat)
    | Cleanup(worker: nat)
    | Purge
    | WaitCall(op: Op)
    | ControlWakeUp
    | ControlSpurious
    | BeginReset
    | RequestStop
    | Join
    | Install
    | Spawn

  // --- size_t arithmetic -------------------------------------------------------------------

  function Dec(n: nat): nat {
    if n == 0 then SIZE_MAX else n - 1
  }

  function Inc(n: nat): nat {
    if n == SIZE_MAX then 0 else n + 1
  }

  function DetermineThreadCount(numThreads: nat, hardware: nat): nat {
    if numThreads > 0 then numThreads else if hardware > 0 then hardware else 1
  }

  // --- Worker helpers ----------------------------------------------------------------------

  function SetPhase(s: State, i: nat, phase: Phase): State
    requires i < |s.workers|
  {
    s.(workers := s.workers[i := s.workers[i].(phase := phase)])
  }

  function WakeWorker(w: Worker): Worker {
    if w.phase == Asleep then w.(phase := Woken) else w
  }

  function WakeAll(workers: seq<Worker>): seq<Worker> {
    seq(|workers|, i requires 0 <= i < |workers| => WakeWorker(workers[i]))
  }

  predicate DoneForNow(s: State) {
    s.tasksRunning == 0 && s.tasks == []
  }

  /** The tail of a worker's critical section: the wait predicate, the stop test, the pop. */
  function Take(s: State, i: nat): State
    requires i < |s.workers|
  {
    if s.workers[i].stop then SetPhase(s, i, Stopping)
    else if s.tasks == [] then SetPhase(s, i, Asleep)
    else
      SetPhase(s, i, Running(s.tasks[0])).(
        tasks := s.tasks[1..],
        tasksRunning := Inc(s.tasksRunning),
        started := s.started + [s.tasks[0]])
  }

  /** Count this worker out, and signal the waiter if that was the last thing it waits for. */
  function CountOut(s: State): State {
    var s := s.(tasksRunning := Dec(s.tasksRunning));
    if s.waiting && DoneForNow(s) && s.control.Waiting? then s.(control := s.control.(signalled := true)) else s
  }

  /** The predicate of `wait()`, evaluated with the mutex held. */
  function CheckWait(s: State, op: Op): State {
    if DoneForNow(s) then
      s.(waiting := false, control := if op.JustWait? then Idle else Ready(op.numThreads))
    else
      s.(control := Waiting(op, false))
  }

  function Fresh(n: nat): seq<Worker> {
    seq(n, i => Worker(Unspawned, false))
  }

  // --- The steps ---------------------------------------------------------------------------

  predicate IsPhase(s: State, i: nat, phase: Phase) {
    i < |s.workers| && s.workers[i].phase == phase
  }

  predicate Enabled(s: State, step: Step) {
    match step
    case Submit(_) => true
    case NotifyOne(i) => s.pendingNotifies > 0 && IsPhase(s, i, Asleep)
    case NotifyNobody => s.pendingNotifies > 0 && forall i :: 0 <= i < |s.workers| ==> s.workers[i].phase != Asleep
    case InitDone(i) => IsPhase(s, i, Starting)
    case TaskDone(i) => i < |s.workers| && s.workers[i].phase.Running?
    case Relock(i) => IsPhase(s, i, Finished)
    case WakeUp(i) => IsPhase(s, i, Woken)
    case Spurious(i) => IsPhase(s, i, Asleep)
    case Cleanup(i) => IsPhase(s, i, Stopping)
    case Purge => true
    case WaitCall(op) => s.control == Idle && (op.ThenReset? ==> op.numThreads <= SIZE_MAX)
    case ControlWakeUp => s.control.Waiting? && s.control.signalled
    case ControlSpurious => s.control.Waiting? && !s.control.signalled
    case BeginReset => s.control.Ready?
    case RequestStop => s.control.Resetting? && 0 < s.control.left <= |s.workers|
    case Join => s.control.Joining? && 0 < s.control.left && IsPhase(s, s.control.left - 1, Exited)
    case Install => s.control == Resetting(0)
    case Spawn => s.control.Spawning? && IsPhase(s, s.control.next, Unspawned)
  }

  function Apply(s: State, step: Step): State
    requires Enabled(s, step)
  {
    match step
    case Submit(task) =>
      s.(tasks := s.tasks + [|s.submitted|],
         submitted := s.submitted + [task],
         pendingNotifies := s.pendingNotifies + 1)
    case NotifyOne(i) => SetPhase(s, i, Woken).(pendingNotifies := s.pendingNotifies - 1)
    case NotifyNobody => s.(pendingNotifies := s.pendingNotifies - 1)
    case InitDone(i) => SetPhase(s, i, Finished)
    case TaskDone(i) => SetPhase(s, i, Finished).(done := s.done + [s.workers[i].phase.task])
    case Relock(i) => Take(CountOut(s), i)
    case WakeUp(i) => Take(s, i)
    case Spurious(i) => SetPhase(s, i, Woken)
    case Cleanup(i) => SetPhase(s, i, Exited)
    case Purge => s.(tasks := [], purged := s.purged + s.tasks)
    case WaitCall(op) => CheckWait(s.(waiting := true), op)
    case ControlWakeUp => CheckWait(s, s.control.op)
    case ControlSpurious => s.(control := s.control.(signalled := true))
    case BeginReset =>
      s.(threadCount := DetermineThreadCount(s.control.numThreads, s.hardware), control := Resetting(|s.workers|))
    case RequestStop =>
      var i := s.control.left - 1;
      var w := s.workers[i];
      // The stop callback that a sleeping wait registered notifies everyone who waits for a task.
      var workers := if w.phase == Asleep || w.phase == Woken then WakeAll(s.workers) else s.workers;
      s.(workers := workers[i := workers[i].(stop := true)], control := Joining(i + 1))
    case Join => s.(control := Resetting(s.control.left - 1))
    case Install => s.(workers := Fresh(s.threadCount), tasksRunning := s.threadCount, control := Spawning(0))
    case Spawn =>
      var next := s.control.next + 1;
      SetPhase(s, s.control.next, Starting).(control := if next == |s.workers| then Idle else Spawning(next))
  }

  /** The pool as its constructor leaves `create_threads` to spawn the first thread. */
  function Initial(numThreads: nat, hardware: nat): State {
    var n := DetermineThreadCount(numThreads, hardware);
    State([], n, false, n, Fresh(n), 0, Spawning(0), hardware, [], [], [], [])
  }

  // --- Runs --------------------------------------------------------------------------------

  ghost predicate ValidRun(s: State, steps: seq<Step>)
    decreases |steps|
  {
    steps != [] ==> Enabled(s, steps[0]) && ValidRun(Apply(s, steps[0]), steps[1..])
  }

  ghost function Final(s: State, steps: seq<Step>): State
    requires ValidRun(s, steps)
    decreases |steps|
  {
    if steps == [] then s else Final(Apply(s, steps[0]), steps[1..])
  }

  /** A run split in two: the second half runs from where the first one ended. */
  lemma {:induction false} RunConcat(s: State, a: seq<Step>, b: seq<Step>)
    requires ValidRun(s, a + b)
    ensures ValidRun(s, a)
    ensures ValidRun(Final(s, a), b)
    ensures Final(s, a + b) == Final(Final(s, a), b)
    decreases |a|
  {
    if a == [] {
      assert a + b == b;
    } else {
      assert (a + b)[1..] == a[1..] + b;
      RunConcat(Apply(s, a[0]), a[1..], b);
    }
  }
}
