/** When a websocket's `has_backpressure` is set: what the sends and the drains of a run say. */
module Backpressure {
  import opened Packets
  import opened ServerInvariants
  import opened WispManager
  import opened WispServer
  import opened Wrappers

  /** A send to the websocket that met backpressure. */
  predicate Congests(step: Step, manager: nat) {
    step.RunDeferred? && step.target.Some? && step.target.value.0 == manager && step.status == SendStatus.Backpressure
  }

  predicate Drains(step: Step, manager: nat) {
    step.Drain? && step.manager == manager
  }

  /** Some send to the websocket met backpressure, and it has not drained since. */
  ghost predicate Congested(steps: seq<Step>, manager: nat) {
    exists i :: 0 <= i < |steps| && Congests(steps[i], manager)
      && forall j :: i < j < |steps| ==> !Drains(steps[j], manager)
  }

  ghost predicate Flag(s: Server, manager: nat) {
    manager in s.managers && s.managers[manager].backpressure
  }

  lemma DeliveredFlag(m: Manager, id: u32, payload: seq<byte>, status: SendStatus)
    ensures var n := Delivered(m, id, payload, status);
            && (n.backpressure <==> status == SendStatus.Backpressure || m.backpressure)
            && StreamClosed(n, id).backpressure == n.backpressure
  {
  }

  lemma TargetFlag(s: Server, manager: nat, id: u32, status: SendStatus)
    requires Enabled(s, RunDeferred(Some((manager, id)), status))
    ensures Flag(Apply(s, RunDeferred(Some((manager, id)), status)), manager)
       <==> status == SendStatus.Backpressure || Flag(s, manager)
  {
    var n := Delivered(s.managers[manager], id, s.queue[0].payload, status);
    DeliveredFlag(s.managers[manager], id, s.queue[0].payload, status);
    assert Apply(s, RunDeferred(Some((manager, id)), status)).managers[manager] in {n, StreamClosed(n, id)};
  }

  lemma OtherFlag(s: Server, step: Step, manager: nat)
    requires Enabled(s, step) && step.RunDeferred? && (step.target.Some? ==> step.target.value.0 != manager)
    ensures Flag(Apply(s, step), manager) <==> Flag(s, manager)
  {
  }

  lemma SendFlag(s: Server, step: Step, manager: nat)
    requires Enabled(s, step) && step.RunDeferred?
    ensures Flag(Apply(s, step), manager) <==> Congests(step, manager) || Flag(s, manager)
  {
    if step.target.Some? && step.target.value.0 == manager {
      TargetFlag(s, manager, step.target.value.1, step.status);
    } else {
      OtherFlag(s, step, manager);
    }
  }

  lemma MildFlag(s: Server, step: Step, manager: nat)
    requires Enabled(s, step) && Mild(step)
    ensures Flag(Apply(s, step), manager) <==> Flag(s, manager) && !Drains(step, manager)
  {
  }

  /** A step sets the flag by such a send, clears it by a drain, and leaves it alone otherwise: refreshes and
      DATA packets do not touch it. */
  lemma FlagStep(s: Server, step: Step, manager: nat)
    requires FreshManagers(s) && Enabled(s, step) && manager in Apply(s, step).managers
    ensures Flag(Apply(s, step), manager) <==> Congests(step, manager) || (Flag(s, manager) && !Drains(step, manager))
  {
    if step.RunDeferred? {
      SendFlag(s, step, manager);
    } else if Mild(step) {
      MildFlag(s, step, manager);
    }
  }

  lemma OneStepMore(front: seq<Step>, last: Step, manager: nat)
    ensures Congested(front + [last], manager)
       <==> Congests(last, manager) || (Congested(front, manager) && !Drains(last, manager))
  {
    var steps := front + [last];
    if Congested(steps, manager) {
      var i :| 0 <= i < |steps| && Congests(steps[i], manager)
        && forall j :: i < j < |steps| ==> !Drains(steps[j], manager);
      if i < |front| {
        assert !Drains(steps[|front|], manager);
        assert Congests(front[i], manager);
        assert forall j :: i < j < |front| ==> front[j] == steps[j];
      }
    }
    if Congests(last, manager) {
      assert Congests(steps[|front|], manager);
    } else if Congested(front, manager) && !Drains(last, manager) {
      var i :| 0 <= i < |front| && Congests(front[i], manager)
        && forall j :: i < j < |front| ==> !Drains(front[j], manager);
      assert Congests(steps[i], manager);
    }
  }

  /** The flags agree with what a run's labels say. */
  ghost predicate FlagOk(s: Server, steps: seq<Step>, manager: nat) {
    && (manager in s.managers ==> (s.managers[manager].backpressure <==> Congested(steps, manager)))
    && (manager >= s.nextManager ==> !Congested(steps, manager))
  }

  /** Over any run: a websocket has backpressure exactly when some send to it met backpressure and it has not
      drained since. */
  lemma {:induction false} FlagOverRuns(steps: seq<Step>, manager: nat)
    requires ValidRun(Initial(), steps)
    ensures var s := Final(Initial(), steps);
            && (manager in s.managers ==> (s.managers[manager].backpressure <==> Congested(steps, manager)))
            && (manager >= s.nextManager ==> !Congested(steps, manager))
    decreases |steps|
  {
    if steps != [] {
      var front, last := steps[..|steps| - 1], steps[|steps| - 1];
      RunEnds(Initial(), steps);
      assert steps == front + [last];
      FlagOverRuns(front, manager);
      KnownManagers(front);
      LastFlag(Final(Initial(), front), front, last, manager);
    }
  }

  lemma KnownManagers(steps: seq<Step>)
    requires ValidRun(Initial(), steps)
    ensures FreshManagers(Final(Initial(), steps))
  {
    RunOwnership(Initial(), steps);
  }

  lemma LastFlag(s: Server, front: seq<Step>, last: Step, manager: nat)
    requires FreshManagers(s) && Enabled(s, last) && FlagOk(s, front, manager)
    ensures FlagOk(Apply(s, last), front + [last], manager)
  {
    OneStepMore(front, last, manager);
    if manager in Apply(s, last).managers {
      FlagStep(s, last, manager);
    }
  }
}
