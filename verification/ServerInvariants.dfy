/** The deferred queue, the refresh after a callback, and who owns which descriptor. */
module ServerInvariants {
  import opened Packets
  import opened WispManager
  import opened Wrappers
  import opened WispServer

  // --- The queue and the refresh -----------------------------------------------------------

  /** `send_queue_len` counts the increments that no callback has matched yet. */
  ghost predicate QueueOk(s: Server) {
    s.sendQueueLen == |Pending(s)|
  }

  /** A manager with nothing left to refill, or with a reason not to. */
  ghost predicate Settled(m: Manager, queueLen: nat) {
    m.backpressure || queueLen > MAX_QUEUE || Zeros(m) == {}
  }

  ghost predicate RefreshOk(s: Server) {
    && (s.loop.Refreshing? ==> s.loop.todo <= s.managers.Keys)
    && (s.loop.Refreshing? ==>
          forall manager :: manager in s.managers && manager !in s.loop.todo ==>
              Settled(s.managers[manager], s.sendQueueLen))
    && (s.loop.Skipped? ==> s.sendQueueLen >= MAX_QUEUE)
  }

  lemma RefreshSettles(m: Manager, queueLen: nat, order: seq<u32>)
    ensures Settled(Refreshed(m, queueLen, order), queueLen)
  {
    var n := Refreshed(m, queueLen, order);
    if !m.backpressure && queueLen <= MAX_QUEUE {
      assert forall id :: id in n.streams ==> n.streams[id].buffer != 0;
    }
  }

  lemma QueueStep(s: Server, step: Step)
    requires QueueOk(s) && RefreshOk(s) && Enabled(s, step)
    ensures QueueOk(Apply(s, step)) && RefreshOk(Apply(s, step))
    ensures step.RunDeferred? ==> s.sendQueueLen > 0
  {
    if step.RefreshOne? {
      RefreshSettles(s.managers[step.manager], s.sendQueueLen, step.order);
    }
  }

  // --- Ownership ---------------------------------------------------------------------------

  /** A stream's descriptor is open under the stream's serial number. */
  ghost predicate StreamsOpen(s: Server) {
    forall manager: nat, id: u32 :: Live(s, manager, id) ==>
      At(s, manager, id).fd in s.fds && s.fds[At(s, manager, id).fd] == At(s, manager, id).serial
  }

  /** No descriptor belongs to two streams. */
  ghost predicate OwnersUnique(s: Server) {
    forall manager: nat, id: u32, manager': nat, id': u32 ::
      Live(s, manager, id) && Live(s, manager', id') && At(s, manager, id).fd == At(s, manager', id').fd
      ==> manager == manager' && id == id'
  }

  ghost predicate InsertingOk(s: Server) {
    s.loop.Inserting? ==>
      && s.loop.manager in s.managers && s.loop.kind in {TCP, UDP}
      && s.loop.fd in s.fds && s.fds[s.loop.fd] == s.loop.serial
      && forall manager: nat, id: u32 :: Live(s, manager, id) ==> At(s, manager, id).fd != s.loop.fd
  }

  /** Every descriptor ever opened is either open, under one number, or was closed once. */
  ghost predicate SerialsOk(s: Server) {
    && (forall fd :: fd in s.fds ==> s.fds[fd] < s.nextSerial && s.fds[fd] !in s.closed)
    && (forall fd, fd' :: fd in s.fds && fd' in s.fds && s.fds[fd] == s.fds[fd'] ==> fd == fd')
    && (forall i :: 0 <= i < |s.closed| ==> s.closed[i] < s.nextSerial)
    && (forall i, j :: 0 <= i < j < |s.closed| ==> s.closed[i] != s.closed[j])
    && (forall serial :: 0 <= serial < s.nextSerial ==> serial in s.closed || serial in s.fds.Values)
  }

  ghost predicate FreshManagers(s: Server) {
    forall manager :: manager in s.managers ==> manager < s.nextManager
  }

  ghost predicate OwnershipOk(s: Server) {
    StreamsOpen(s) && OwnersUnique(s) && InsertingOk(s) && SerialsOk(s) && FreshManagers(s)
  }

  /** Streams are the same as before, up to credit. */
  ghost predicate SameStreams(s: Server, t: Server) {
    && (forall manager: nat, id: u32 :: Live(t, manager, id) ==> Live(s, manager, id))
    && (forall manager: nat, id: u32 :: Live(t, manager, id) ==>
          At(t, manager, id).fd == At(s, manager, id).fd && At(t, manager, id).serial == At(s, manager, id).serial
          && At(t, manager, id).openedAt == At(s, manager, id).openedAt)
  }

  lemma SameOwnership(s: Server, t: Server)
    requires OwnershipOk(s) && SameStreams(s, t)
    requires t.fds == s.fds && t.nextSerial == s.nextSerial && t.closed == s.closed && FreshManagers(t)
    requires t.loop.Inserting? ==> t.loop == s.loop && t.loop.manager in t.managers
    ensures OwnershipOk(t)
  {
  }

  lemma OpensOwnership(s: Server, step: Step)
    requires OwnershipOk(s) && Enabled(s, step) && step.ConnectOpens?
    ensures OwnershipOk(Apply(s, step))
  {
    var t := Apply(s, step);
    assert forall manager: nat, id: u32 :: Live(t, manager, id) ==>
        Live(s, manager, id) && At(t, manager, id) == At(s, manager, id);
    assert s.nextSerial !in s.closed;
    forall serial | 0 <= serial < t.nextSerial
      ensures serial in t.closed || serial in t.fds.Values
    {
      if serial == s.nextSerial {
        assert t.fds[step.fd] == serial;
      } else if serial !in s.closed {
        var fd :| fd in s.fds && s.fds[fd] == serial;
        assert t.fds[fd] == serial;
      }
    }
  }

  lemma InsertsOwnership(s: Server)
    requires OwnershipOk(s) && Enabled(s, ConnectInserts)
    ensures OwnershipOk(Apply(s, ConnectInserts))
  {
    var t := Apply(s, ConnectInserts);
    var l := s.loop;
    assert forall manager: nat, id: u32 :: Live(t, manager, id) && (manager, id) != (l.manager, l.id) ==>
             Live(s, manager, id) && At(t, manager, id) == At(s, manager, id);
  }

  /** Closing one open descriptor moves its serial number from the open ones to the closed ones. */
  lemma OneClosed(s: Server, t: Server, fd: nat)
    requires SerialsOk(s) && fd in s.fds
    requires t.fds == s.fds - {fd} && t.closed == s.closed + [s.fds[fd]] && t.nextSerial == s.nextSerial
    ensures SerialsOk(t)
  {
    forall x | 0 <= x < t.nextSerial
      ensures x in t.closed || x in t.fds.Values
    {
      if x !in s.closed && x != s.fds[fd] {
        var other :| other in s.fds && s.fds[other] == x;
        assert t.fds[other] == x;
      }
    }
  }

  lemma ClosesOwnership(s: Server, manager: nat, id: u32, status: SendStatus)
    requires OwnershipOk(s) && s.queue != [] && Live(s, manager, id) && s.loop.Ready?
    ensures OwnershipOk(AfterDeferred(s, manager, id, status))
  {
    var t := AfterDeferred(s, manager, id, status);
    assert forall m: nat, x: u32 :: Live(t, m, x) ==> Live(s, m, x) && At(t, m, x) == At(s, m, x);
    if s.queue[0].toClose {
      assert !Live(t, manager, id);
      OneClosed(s, t, At(s, manager, id).fd);
    }
  }

  lemma CloseManagerOwnership(s: Server, manager: nat, order: seq<u32>)
    requires OwnershipOk(s) && Enabled(s, CloseManager(manager, order))
    ensures OwnershipOk(Apply(s, CloseManager(manager, order)))
  {
    var t := Apply(s, CloseManager(manager, order));
    var m := s.managers[manager];
    forall x: nat, y: u32 | Live(t, x, y)
      ensures Live(s, x, y) && At(t, x, y) == At(s, x, y) && At(s, x, y).fd !in FdsOf(m)
    {
      assert forall id :: id in m.streams ==> Live(s, manager, id) && At(s, manager, id) == m.streams[id];
    }
    CloseManagerSerials(s, manager, order);
  }

  /** The serials that a closing websocket closes are distinct, open until then, and open no more. */
  lemma SerialsClosed(s: Server, manager: nat, order: seq<u32>)
    requires OwnershipOk(s) && Enabled(s, CloseManager(manager, order))
    ensures var serials := SerialsOf(s.managers[manager], order);
            && (forall i, j :: 0 <= i < j < |serials| ==> serials[i] != serials[j])
            && (forall i :: 0 <= i < |serials| ==>
                  serials[i] !in Apply(s, CloseManager(manager, order)).fds.Values
                  && serials[i] < s.nextSerial && serials[i] !in s.closed)
  {
    var m := s.managers[manager];
    var serials := SerialsOf(m, order);
    assert forall i :: 0 <= i < |order| ==>
        Live(s, manager, order[i]) && At(s, manager, order[i]) == m.streams[order[i]];
    forall i, j | 0 <= i < j < |serials|
      ensures serials[i] != serials[j]
    {
      assert m.streams[order[i]].fd != m.streams[order[j]].fd;
    }
    forall i | 0 <= i < |serials|
      ensures serials[i] !in Apply(s, CloseManager(manager, order)).fds.Values
      ensures serials[i] < s.nextSerial && serials[i] !in s.closed
    {
      var fd := m.streams[order[i]].fd;
      assert fd in FdsOf(m) && s.fds[fd] == serials[i];
    }
  }

  /** A descriptor that was open is open still, or among those that the closing websocket closes. */
  lemma OpenOrClosed(s: Server, manager: nat, order: seq<u32>, fd: nat)
    requires OwnershipOk(s) && Enabled(s, CloseManager(manager, order)) && fd in s.fds
    ensures var t := Apply(s, CloseManager(manager, order));
            s.fds[fd] in t.fds.Values || s.fds[fd] in SerialsOf(s.managers[manager], order)
  {
    var m := s.managers[manager];
    if fd in FdsOf(m) {
      var id :| id in m.streams && m.streams[id].fd == fd;
      assert Live(s, manager, id) && At(s, manager, id) == m.streams[id];
      assert id in order;
      var i :| 0 <= i < |order| && order[i] == id;
      assert SerialsOf(m, order)[i] == s.fds[fd];
    } else {
      assert Apply(s, CloseManager(manager, order)).fds[fd] == s.fds[fd];
    }
  }

  lemma CloseManagerSerials(s: Server, manager: nat, order: seq<u32>)
    requires OwnershipOk(s) && Enabled(s, CloseManager(manager, order))
    ensures SerialsOk(Apply(s, CloseManager(manager, order)))
  {
    var t := Apply(s, CloseManager(manager, order));
    SerialsClosed(s, manager, order);
    forall x | 0 <= x < t.nextSerial
      ensures x in t.closed || x in t.fds.Values
    {
      if x !in s.closed {
        var fd :| fd in s.fds && s.fds[fd] == x;
        OpenOrClosed(s, manager, order, fd);
      }
    }
  }

  /** The same streams on the same descriptors, whatever their credit. */
  ghost predicate Alike(m: Manager, n: Manager) {
    && n.streams.Keys <= m.streams.Keys
    && forall id :: id in n.streams ==>
         n.streams[id].fd == m.streams[id].fd && n.streams[id].serial == m.streams[id].serial
         && n.streams[id].openedAt == m.streams[id].openedAt
  }

  lemma AlikeStreams(s: Server, t: Server, manager: nat)
    requires manager in s.managers && manager in t.managers && t.managers == s.managers[manager := t.managers[manager]]
    requires Alike(s.managers[manager], t.managers[manager])
    ensures SameStreams(s, t)
  {
  }

  /** The steps that change one manager's credit, flag or frames and nothing else. */
  predicate Mild(step: Step) {
    step.ConnectFails? || step.ReceiveData? || step.Drain? || step.RefreshOne?
  }

  lemma MildStep(s: Server, step: Step)
    requires Enabled(s, step) && Mild(step)
    ensures SameStreams(s, Apply(s, step))
    ensures Apply(s, step).managers.Keys == s.managers.Keys
  {
    AlikeStreams(s, Apply(s, step), step.manager);
  }

  lemma MildOwnership(s: Server, step: Step)
    requires OwnershipOk(s) && Enabled(s, step)
    requires Mild(step) || step in {OpenManager, CheckQueue, FinishCallback, Defer} || step.Fetch? || step.ReadFd?
    ensures OwnershipOk(Apply(s, step))
  {
    if Mild(step) {
      MildStep(s, step);
    }
    SameOwnership(s, Apply(s, step));
  }

  /** Descriptors stay owned by at most one stream each, and are closed once each, whatever the clients
      send, CONNECTs for live ids included. */
  lemma OwnershipStep(s: Server, step: Step)
    requires OwnershipOk(s) && Enabled(s, step)
    ensures OwnershipOk(Apply(s, step))
  {
    if step.ConnectOpens? {
      OpensOwnership(s, step);
    } else if step.ConnectInserts? {
      InsertsOwnership(s);
    } else if step.CloseManager? {
      CloseManagerOwnership(s, step.manager, step.order);
    } else if step.RunDeferred? {
      DeferredOwnership(s, step.target, step.status);
    } else {
      MildOwnership(s, step);
    }
  }

  lemma DeferredOwnership(s: Server, target: Option<(nat, u32)>, status: SendStatus)
    requires OwnershipOk(s) && Enabled(s, RunDeferred(target, status))
    ensures OwnershipOk(Apply(s, RunDeferred(target, status)))
  {
    if target.Some? {
      ClosesOwnership(s, target.value.0, target.value.1, status);
      SameOwnership(AfterDeferred(s, target.value.0, target.value.1, status), Apply(s, RunDeferred(target, status)));
    } else {
      SameOwnership(s, Apply(s, RunDeferred(target, status)));
    }
  }

  // --- What is watched ---------------------------------------------------------------------

  /** The watcher is told of every open descriptor until its target has ended. */
  ghost predicate Watched(s: Server) {
    forall fd :: fd in s.fds && s.fds[fd] !in s.eof ==> fd in s.polled
  }

  lemma WatchedStep(s: Server, step: Step)
    requires Watched(s) && OwnershipOk(s) && Enabled(s, step)
    ensures Watched(Apply(s, step))
  {
  }

  // --- No leaks ----------------------------------------------------------------------------

  ghost predicate HasOwner(s: Server, fd: nat) {
    (s.loop.Inserting? && s.loop.fd == fd) || exists manager: nat, id: u32 :: Owns(s, manager, id, fd)
  }

  ghost predicate AllOwned(s: Server) {
    forall fd :: fd in s.fds ==> HasOwner(s, fd)
  }

  /** A stream is inserted only under an id that is not live, which can be checked before inserting it. */
  predicate FreshInsert(s: Server, step: Step) {
    step.ConnectInserts? && s.loop.Inserting? ==> !Live(s, s.loop.manager, s.loop.id)
  }

  lemma OwnerStays(s: Server, t: Server, fd: nat)
    requires exists manager: nat, id: u32 :: Owns(s, manager, id, fd)
    requires forall manager: nat, id: u32 :: Owns(s, manager, id, fd) ==> Owns(t, manager, id, fd)
    ensures HasOwner(t, fd)
  {
    var manager: nat, id: u32 :| Owns(s, manager, id, fd);
    assert Owns(t, manager, id, fd);
  }

  lemma InsertLeak(s: Server)
    requires OwnershipOk(s) && AllOwned(s) && Enabled(s, ConnectInserts)
    ensures AllOwned(Apply(s, ConnectInserts)) <==> !Live(s, s.loop.manager, s.loop.id)
  {
    var t := Apply(s, ConnectInserts);
    var l := s.loop;
    assert Owns(t, l.manager, l.id, l.fd);
    if Live(s, l.manager, l.id) {
      var lost := At(s, l.manager, l.id).fd;
      assert forall manager: nat, id: u32 :: Owns(t, manager, id, lost) ==> Owns(s, manager, id, lost);
      assert !HasOwner(t, lost);
    } else {
      forall fd | fd in t.fds
        ensures HasOwner(t, fd)
      {
        if fd != l.fd {
          assert HasOwner(s, fd);
          OwnerStays(s, t, fd);
        }
      }
    }
  }

  lemma CloseLeak(s: Server, manager: nat, order: seq<u32>)
    requires OwnershipOk(s) && AllOwned(s) && Enabled(s, CloseManager(manager, order))
    ensures AllOwned(Apply(s, CloseManager(manager, order)))
  {
    var t := Apply(s, CloseManager(manager, order));
    forall fd | fd in t.fds
      ensures HasOwner(t, fd)
    {
      assert HasOwner(s, fd);
      assert forall id :: id in s.managers[manager].streams ==>
          s.managers[manager].streams[id].fd in FdsOf(s.managers[manager]);
      OwnerStays(s, t, fd);
    }
  }

  lemma DeferredKeeps(s: Server, target: Option<(nat, u32)>, status: SendStatus)
    requires Enabled(s, RunDeferred(target, status))
    ensures var t := Apply(s, RunDeferred(target, status));
            && (forall fd :: fd in t.fds ==> fd in s.fds)
            && (forall m: nat, x: u32 :: Live(s, m, x) && At(s, m, x).fd in t.fds ==>
                  Live(t, m, x) && At(t, m, x) == At(s, m, x))
  {
  }

  lemma DeferredLeak(s: Server, target: Option<(nat, u32)>, status: SendStatus)
    requires AllOwned(s) && Enabled(s, RunDeferred(target, status))
    ensures AllOwned(Apply(s, RunDeferred(target, status)))
  {
    DeferredKeeps(s, target, status);
    forall fd | fd in Apply(s, RunDeferred(target, status)).fds
      ensures HasOwner(Apply(s, RunDeferred(target, status)), fd)
    {
      assert HasOwner(s, fd);
      OwnerStays(s, Apply(s, RunDeferred(target, status)), fd);
    }
  }

  lemma OpenLeak(s: Server, step: Step)
    requires AllOwned(s) && Enabled(s, step) && step.ConnectOpens?
    ensures AllOwned(Apply(s, step))
  {
    var t := Apply(s, step);
    forall fd | fd in t.fds
      ensures HasOwner(t, fd)
    {
      if fd != step.fd {
        assert HasOwner(s, fd);
        OwnerStays(s, t, fd);
      }
    }
  }

  lemma SameLeak(s: Server, t: Server)
    requires AllOwned(s) && t.fds == s.fds && (s.loop.Inserting? ==> t.loop == s.loop)
    requires forall manager: nat, id: u32, fd: nat :: Owns(s, manager, id, fd) ==> Owns(t, manager, id, fd)
    ensures AllOwned(t)
  {
    forall fd | fd in t.fds
      ensures HasOwner(t, fd)
    {
      assert HasOwner(s, fd);
      if exists manager: nat, id: u32 :: Owns(s, manager, id, fd) {
        OwnerStays(s, t, fd);
      }
    }
  }

  lemma OtherLeak(s: Server, step: Step)
    requires FreshManagers(s) && AllOwned(s) && Enabled(s, step)
    requires !step.ConnectInserts? && !step.CloseManager? && !step.RunDeferred?
    ensures AllOwned(Apply(s, step))
  {
    if step.ConnectOpens? {
      OpenLeak(s, step);
    } else {
      SameLeak(s, Apply(s, step));
    }
  }

  /** A descriptor is leaked by inserting a stream under an id that is live, and by nothing else. */
  lemma LeakStep(s: Server, step: Step)
    requires OwnershipOk(s) && AllOwned(s) && Enabled(s, step)
    ensures AllOwned(Apply(s, step)) <==> FreshInsert(s, step)
  {
    if step.ConnectInserts? {
      InsertLeak(s);
    } else if step.CloseManager? {
      CloseLeak(s, step.manager, step.order);
    } else if step.RunDeferred? {
      DeferredLeak(s, step.target, step.status);
    } else {
      OtherLeak(s, step);
    }
  }

  // --- Main results ------------------------------------------------------------------------

  ghost predicate FreshRun(s: Server, steps: seq<Step>)
    requires ValidRun(s, steps)
    decreases |steps|
  {
    steps != [] ==> FreshInsert(s, steps[0]) && FreshRun(Apply(s, steps[0]), steps[1..])
  }

  lemma {:induction false} RunOwnership(s: Server, steps: seq<Step>)
    requires QueueOk(s) && RefreshOk(s) && OwnershipOk(s) && ValidRun(s, steps)
    ensures QueueOk(Final(s, steps)) && RefreshOk(Final(s, steps)) && OwnershipOk(Final(s, steps))
    ensures AllOwned(s) && FreshRun(s, steps) ==> AllOwned(Final(s, steps))
    ensures Watched(s) ==> Watched(Final(s, steps))
    decreases |steps|
  {
    if steps != [] {
      if Watched(s) {
        WatchedStep(s, steps[0]);
      }
      QueueStep(s, steps[0]);
      OwnershipStep(s, steps[0]);
      if AllOwned(s) {
        LeakStep(s, steps[0]);
      }
      RunOwnership(Apply(s, steps[0]), steps[1..]);
    }
  }

  ghost predicate Reachable(s: Server) {
    exists steps :: ValidRun(Initial(), steps) && s == Final(Initial(), steps)
  }

  lemma ReachableOk(s: Server)
    requires Reachable(s)
    ensures QueueOk(s) && RefreshOk(s) && OwnershipOk(s)
  {
    var steps :| ValidRun(Initial(), steps) && s == Final(Initial(), steps);
    RunOwnership(Initial(), steps);
  }

  lemma {:induction false} Occurrences(xs: seq<nat>, x: nat)
    requires forall i, j :: 0 <= i < j < |xs| ==> xs[i] != xs[j]
    ensures multiset(xs)[x] == if x in xs then 1 else 0
  {
    if xs != [] {
      assert xs == xs[..|xs| - 1] + [xs[|xs| - 1]];
      Occurrences(xs[..|xs| - 1], x);
    }
  }

  /** Every descriptor ever opened is open or was closed, never both, and was closed at most once; an open
      one belongs to at most one stream, and to just one if no stream was inserted under a live id. */
  lemma DescriptorOwnership(steps: seq<Step>, serial: nat)
    requires ValidRun(Initial(), steps)
    ensures var s := Final(Initial(), steps);
            && (serial < s.nextSerial ==> multiset(s.closed)[serial] + (if serial in s.fds.Values then 1 else 0) == 1)
            && (forall manager: nat, id: u32, manager': nat, id': u32, fd: nat ::
                  Owns(s, manager, id, fd) && Owns(s, manager', id', fd) ==> manager == manager' && id == id')
            && (FreshRun(Initial(), steps) ==> AllOwned(s))
  {
    RunOwnership(Initial(), steps);
    Occurrences(Final(Initial(), steps).closed, serial);
  }

  /** Over any run, TCP or UDP: an opened target is watched until it ends or is closed. */
  lemma TargetsAreWatched(steps: seq<Step>, fd: nat)
    requires ValidRun(Initial(), steps) && fd in Final(Initial(), steps).fds
    ensures var s := Final(Initial(), steps);
            fd in s.polled || s.fds[fd] in s.eof
  {
    RunOwnership(Initial(), steps);
  }

  /** A destroyed manager owns nothing: closing it closes each of its descriptors. */
  lemma DestroyedManagerOwnsNothing(s: Server, manager: nat, order: seq<u32>, id: u32)
    requires OwnershipOk(s) && Enabled(s, CloseManager(manager, order)) && Live(s, manager, id)
    ensures var t := Apply(s, CloseManager(manager, order));
            && manager !in t.managers
            && At(s, manager, id).fd !in t.fds && At(s, manager, id).fd !in t.polled
            && At(s, manager, id).serial in t.closed && At(s, manager, id).serial !in s.closed
  {
    var m := s.managers[manager];
    assert m.streams[id].fd in FdsOf(m);
    assert id in order;
    var i :| 0 <= i < |order| && order[i] == id;
    assert SerialsOf(m, order)[i] == m.streams[id].serial;
    var t := Apply(s, CloseManager(manager, order));
    assert t.closed[|s.closed| + i] == m.streams[id].serial;
  }

  /** What the length of the deferred queue decides, at each place where it is read. */
  lemma QueueDecides(s: Server, step: Step)
    requires Enabled(s, step)
    ensures step.CheckQueue? ==> (Apply(s, step).loop.Refreshing? <==> s.sendQueueLen < 1000)
    ensures step.CheckQueue? && s.sendQueueLen < 1000 ==> Apply(s, step).loop.todo == s.managers.Keys
    ensures step.RefreshOne? && s.sendQueueLen > 1000 ==> Apply(s, step).managers == s.managers
    ensures step.Drain? && s.sendQueueLen > 1000 ==>
              Apply(s, step).managers[step.manager] == s.managers[step.manager].(backpressure := false)
    ensures step.Drain? && s.sendQueueLen <= 1000 ==> Zeros(Apply(s, step).managers[step.manager]) == {}
    ensures step.ReceiveData? && Live(s, step.manager, step.id) && At(s, step.manager, step.id).kind == 0x01
            && At(s, step.manager, step.id).buffer == 1 ==>
              (At(Apply(s, step), step.manager, step.id).buffer == 127
               <==> s.managers[step.manager].backpressure && s.sendQueueLen < 1000)
  {
    if step.RefreshOne? && s.sendQueueLen > 1000 {
      assert s.managers[step.manager := s.managers[step.manager]] == s.managers;
    }
  }

  /** The counter is exact under every interleaving of the two threads, so no decrement underflows. */
  lemma DeferredAccounting(s: Server)
    requires Reachable(s)
    ensures s.sendQueueLen == |s.queue| + if s.watcher.Holding? then 1 else 0
    ensures s.queue != [] ==> s.sendQueueLen > 0
  {
    ReachableOk(s);
  }

  /** A callback that leaves the queue below its limit, in particular one that empties it, ends with no
      stream out of credit on any websocket without backpressure, however the watcher interleaved; and an
      immediate second refresh of any of them has nothing to send. */
  lemma CallbackRefreshes(s: Server, manager: nat, again: seq<u32>)
    requires Reachable(s) && Enabled(s, FinishCallback) && s.sendQueueLen < MAX_QUEUE
    requires manager in s.managers && !s.managers[manager].backpressure
    requires Enumerates(again, Zeros(s.managers[manager]))
    ensures forall id :: id in s.managers[manager].streams ==> s.managers[manager].streams[id].buffer > 0
    ensures Refreshed(s.managers[manager], s.sendQueueLen, again) == s.managers[manager]
  {
    ReachableOk(s);
    var m := s.managers[manager];
    assert Settled(m, s.sendQueueLen);
    assert forall id :: id in m.streams ==> id !in Zeros(m);
    EnumerationSize(again, {});
    assert m.sent + Continues(again) == m.sent;
    assert (map id | id in m.streams :: Refill(m.streams[id])) == m.streams;
  }
}
