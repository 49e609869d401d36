/**
 Progress of the server: the loop is never stuck inside a callback, deferred callbacks come to an end within
 a bound, and then everything that was read has been sent.
 */
module Callbacks {
  import opened Delivery
  import opened Packets
  import opened ServerInvariants
  import opened WispManager
  import opened WispServer
  import opened Wrappers

  /** The steps of deferred callbacks. */
  predicate CallbackStep(step: Step) {
    step.RunDeferred? || step.CheckQueue? || step.RefreshOne? || step.FinishCallback?
  }

  ghost function PhaseRank(s: Server): nat {
    match s.loop
    case Ready => 0
    case Inserting(_, _, _, _, _) => 0
    case Checking => |s.managers.Keys| + 2
    case Refreshing(todo) => |todo| + 1
    case Skipped => 1
  }

  /** What is left to do: each deferred entry costs a search, a check, a refresh of every websocket and a return. */
  ghost function CallbackRank(s: Server): nat {
    Entries(|s.queue|, |s.managers.Keys|) + PhaseRank(s)
  }

  function Entries(n: nat, managers: nat): nat {
    n * (managers + 3)
  }

  lemma OneEntryLess(n: nat, managers: nat)
    requires n > 0
    ensures Entries(n, managers) == Entries(n - 1, managers) + managers + 3
  {
  }

  lemma SameKeys(s: Server, step: Step)
    requires Enabled(s, step) && CallbackStep(step)
    ensures Apply(s, step).managers.Keys == s.managers.Keys
  {
  }

  lemma CallbackFalls(s: Server, step: Step)
    requires Enabled(s, step) && CallbackStep(step)
    ensures CallbackRank(Apply(s, step)) < CallbackRank(s)
  {
    SameKeys(s, step);
    if step.RunDeferred? {
      OneEntryLess(|s.queue|, |s.managers.Keys|);
    }
  }

  /** A set can be listed, as the iteration of an unordered map does. */
  lemma {:induction false} Listing(ids: set<u32>) returns (order: seq<u32>)
    ensures Enumerates(order, ids)
    decreases ids
  {
    if ids == {} {
      order := [];
    } else {
      var id :| id in ids;
      var rest := Listing(ids - {id});
      order := rest + [id];
    }
  }

  /** The loop has a callback to run or to finish. */
  predicate Busy(s: Server) {
    s.loop.Checking? || s.loop.Refreshing? || s.loop.Skipped? || (s.loop.Ready? && s.queue != [])
  }

  /** The loop is never stuck in a callback, nor before one: whatever the next send returns, some step goes on. */
  lemma GoesOn(s: Server, status: SendStatus) returns (step: Step)
    requires RefreshOk(s) && Busy(s)
    ensures CallbackStep(step) && Enabled(s, step) && (step.RunDeferred? ==> step.status == status)
  {
    if s.loop.Checking? {
      step := CheckQueue;
    } else if s.loop.Skipped? || s.loop == Refreshing({}) {
      step := FinishCallback;
    } else if s.loop.Refreshing? {
      var manager :| manager in s.loop.todo;
      var order := Listing(Zeros(s.managers[manager]));
      step := RefreshOne(manager, order);
    } else if exists manager: nat, id: u32 :: Owns(s, manager, id, s.queue[0].fd) {
      var manager: nat, id: u32 :| Owns(s, manager, id, s.queue[0].fd);
      step := RunDeferred(Some((manager, id)), status);
    } else {
      step := RunDeferred(None, status);
    }
  }

  /** And when it is not busy no callback step is possible. */
  lemma OnlyWhenBusy(s: Server, step: Step)
    requires Enabled(s, step) && CallbackStep(step)
    ensures Busy(s)
  {
  }

  lemma {:induction false} CallbackBound(s: Server, steps: seq<Step>)
    requires ValidRun(s, steps) && forall i :: 0 <= i < |steps| ==> CallbackStep(steps[i])
    ensures |steps| + CallbackRank(Final(s, steps)) <= CallbackRank(s)
    decreases |steps|
  {
    if steps != [] {
      CallbackFalls(s, steps[0]);
      CallbackBound(Apply(s, steps[0]), steps[1..]);
    }
  }

  lemma CallbackIsCareful(s: Server, step: Step)
    requires Enabled(s, step) && CallbackStep(step) && (step.RunDeferred? ==> !step.status.Dropped?)
    ensures Careful(s, step) && Apply(s, step).watcher == s.watcher && !Apply(s, step).loop.Inserting?
  {
  }

  lemma {:induction false} CallbacksAreCareful(s: Server, steps: seq<Step>)
    requires ValidRun(s, steps) && forall i :: 0 <= i < |steps| ==> CallbackStep(steps[i])
    requires forall i :: 0 <= i < |steps| && steps[i].RunDeferred? ==> !steps[i].status.Dropped?
    ensures CarefulRun(s, steps) && Final(s, steps).watcher == s.watcher
    ensures s.loop.Inserting? || !Final(s, steps).loop.Inserting?
    decreases |steps|
  {
    if steps != [] {
      CallbackIsCareful(s, steps[0]);
      CallbacksAreCareful(Apply(s, steps[0]), steps[1..]);
    }
  }

  /** Left to its callbacks the loop comes to rest within a bound, with nothing deferred; and if no send was
      dropped, every live stream's client has then been sent exactly what was read from its target. */
  lemma CallbacksFinish(s: Server, steps: seq<Step>)
    requires RefreshOk(s) && Delivers(s) && ValidRun(s, steps) && !s.loop.Inserting?
    requires forall i :: 0 <= i < |steps| ==> CallbackStep(steps[i])
    requires forall i :: 0 <= i < |steps| && steps[i].RunDeferred? ==> !steps[i].status.Dropped?
    ensures |steps| <= CallbackRank(s)
    ensures var t := Final(s, steps);
            !Busy(t) ==>
              && t.loop.Ready? && t.queue == []
              && (s.watcher.Free? ==> forall manager: nat, id: u32 :: Live(t, manager, id) ==> SentAll(t, manager, id))
  {
    CallbackBound(s, steps);
    CallbacksAreCareful(s, steps);
    RunDelivers(s, steps);
    var t := Final(s, steps);
    if !Busy(t) && s.watcher.Free? {
      assert Pending(t) == [];
      forall manager: nat, id: u32 | Live(t, manager, id)
        ensures SentAll(t, manager, id)
      {
        assert StreamDelivers(t, manager, id);
        assert Payload(Life(t, manager, id), id) + [] == Payload(Life(t, manager, id), id);
      }
    }
  }

  ghost predicate SentAll(s: Server, manager: nat, id: u32)
    requires Live(s, manager, id)
  {
    && At(s, manager, id).openedAt <= |s.managers[manager].sent|
    && Payload(Life(s, manager, id), id) == Bytes(s, At(s, manager, id).serial)
  }

  /** Nothing is refused: a loop at rest takes new websockets, and from every websocket CONNECTs for TCP and
      UDP, whether they can be opened or not, DATA for any id, drains and the end. */
  lemma EventsAreTaken(s: Server, manager: nat, id: u32, kind: byte, fd: nat, payload: seq<byte>)
    returns (zeros: seq<u32>, all: seq<u32>)
    requires s.loop.Ready? && manager in s.managers && kind in {1, 2} && fd !in s.fds
    ensures Enabled(s, OpenManager)
    ensures Enabled(s, ConnectFails(manager, id)) && Enabled(s, ConnectOpens(manager, id, kind, fd))
    ensures Enabled(Apply(s, ConnectOpens(manager, id, kind, fd)), ConnectInserts)
    ensures Enabled(s, ReceiveData(manager, id, payload))
    ensures Enabled(s, Drain(manager, zeros)) && Enabled(s, CloseManager(manager, all))
  {
    zeros := Listing(Zeros(s.managers[manager]));
    all := Listing(s.managers[manager].streams.Keys);
    assert forall i :: 0 <= i < |all| ==> all[i] in all;
  }

  /** The watcher is never stuck either: it can defer what it holds, read what it has fetched, and fetch any
      target that is open and has not ended; whatever the read returns is then deferred and counted. */
  lemma WatcherGoesOn(s: Server, fd: nat, payload: seq<byte>, toClose: bool)
    requires Watched(s) && fd in s.fds && s.fds[fd] !in s.eof && s.watcher.Free? && s.events == {}
    ensures Enabled(s, Fetch({fd}))
    ensures Enabled(Apply(s, Fetch({fd})), ReadFd(fd, payload, toClose))
    ensures Enabled(Apply(Apply(s, Fetch({fd})), ReadFd(fd, payload, toClose)), Defer)
    ensures var t := Apply(Apply(Apply(s, Fetch({fd})), ReadFd(fd, payload, toClose)), Defer);
            && t.queue == s.queue + [Deferred(fd, payload, toClose)] && t.sendQueueLen == s.sendQueueLen + 1
            && t.watcher.Free? && Bytes(t, s.fds[fd]) == Bytes(s, s.fds[fd]) + payload
  {
  }
}
