/**
 The two halves of `SystemWatcher::watch` with their loops: the watcher's read loop over one descriptor,
 and the deferred callback, which searches every stream of every websocket, sends, closes and refreshes.
 */
module WatcherClass {
  import opened Counting
  import opened ManagerClass
  import opened Packets
  import opened WispManager
  import opened Wrappers
  import WispServer

  const SEGMENT_SIZE: nat := 20480
  const MAX_WS_FRAME: nat := 63_000_000
  const MAX_POSSIBLE_WS_FRAME: nat := 64_000_000

  // --- The read loop -----------------------------------------------------------------------

  /** What one `read` of at most a segment returns. */
  datatype ReadResult = Bytes(data: seq<byte>) | EndOfFile | WouldBlock | Failed

  predicate Segment(r: ReadResult) {
    r.Bytes? ==> 0 < |r.data| <= SEGMENT_SIZE
  }

  function Concat(rs: seq<ReadResult>): seq<byte> {
    if rs == [] then []
    else Concat(rs[..|rs| - 1]) + if rs[|rs| - 1].Bytes? then rs[|rs| - 1].data else []
  }

  function Size(r: ReadResult): nat {
    if r.Bytes? then |r.data| else 0
  }

  /** `combined` holds the bytes of each read, in its place: behind those of the reads before it. */
  ghost predicate InPlace(rs: seq<ReadResult>, combined: seq<byte>) {
    && |combined| == Sum(rs, Size)
    && forall i :: 0 <= i < |rs| && rs[i].Bytes? ==> PlacedAt(rs, combined, i)
  }

  ghost predicate PlacedAt(rs: seq<ReadResult>, combined: seq<byte>, i: nat)
    requires i < |rs| && rs[i].Bytes?
  {
    var at := Sum(rs[..i], Size);
    at + |rs[i].data| <= |combined| && combined[at..at + |rs[i].data|] == rs[i].data
  }

  lemma {:induction false} SumPrefix(rs: seq<ReadResult>, i: nat)
    requires i <= |rs|
    ensures Sum(rs[..i], Size) <= Sum(rs, Size)
  {
    assert rs == rs[..i] + rs[i..];
    SumConcat(rs[..i], rs[i..], Size);
  }

  /** The bytes of the reads, concatenated, are in place. */
  lemma {:induction false} ConcatInPlace(rs: seq<ReadResult>)
    ensures InPlace(rs, Concat(rs))
  {
    if rs != [] {
      var n := |rs| - 1;
      var front := rs[..n];
      ConcatInPlace(front);
      forall i | 0 <= i < |rs| && rs[i].Bytes?
        ensures PlacedAt(rs, Concat(rs), i)
      {
        if i < n {
          assert PlacedAt(front, Concat(front), i) && front[..i] == rs[..i];
        }
      }
    }
  }

  /** Reads until the descriptor has no more, ends, or the frame is full. `results` are the reads of the
      descriptor from now on; `used` of them are made. */
  method ReadAvailable(results: seq<ReadResult>) returns (combined: seq<byte>, toClose: bool, used: nat)
    requires results != [] && !results[|results| - 1].Bytes?
    requires forall i :: 0 <= i < |results| ==> Segment(results[i])
    ensures 1 <= used <= |results|
    ensures combined == Concat(results[..used]) && InPlace(results[..used], combined)
    ensures forall i :: 0 <= i < used - 1 ==> results[i].Bytes?
    ensures toClose <==> results[used - 1] in {EndOfFile, Failed}
    ensures results[used - 1].Bytes? <==> |combined| > 63_000_000
    ensures |combined| <= 63_000_000 + 20480 < 64_000_000
  {
    combined, toClose, used := [], false, 0;
    var going := true;
    while going
      invariant 0 <= used <= |results| && (going ==> used < |results|)
      invariant combined == Concat(results[..used])
      invariant going ==> !toClose && |combined| <= MAX_WS_FRAME
      invariant going ==> forall i :: 0 <= i < used ==> results[i].Bytes?
      invariant !going ==> used > 0 && forall i :: 0 <= i < used - 1 ==> results[i].Bytes?
      invariant !going ==> (toClose <==> results[used - 1] in {EndOfFile, Failed})
      invariant !going ==> (results[used - 1].Bytes? <==> |combined| > MAX_WS_FRAME)
      invariant |combined| <= MAX_WS_FRAME + SEGMENT_SIZE
      decreases |results| - used, going
    {
      var result := results[used];
      assert results[..used + 1][..used] == results[..used];
      used := used + 1;
      match result
      case EndOfFile => toClose, going := true, false;
      case Failed => toClose, going := true, false;
      case WouldBlock => going := false;
      case Bytes(data) =>
        combined := combined + data;
        if |combined| > MAX_WS_FRAME {
          going := false;
        }
    }
    ConcatInPlace(results[..used]);
  }

  /** What the read loop returns is what the server machine's read step defers and adds to the bytes read. */
  lemma ReadIsStep(s: WispServer.Server, fd: nat, results: seq<ReadResult>, combined: seq<byte>, toClose: bool)
    requires s.watcher.Free? && fd in s.events && fd in s.fds
    requires InPlace(results, combined)
    ensures WispServer.Enabled(s, WispServer.ReadFd(fd, combined, toClose))
    ensures var t := WispServer.Apply(s, WispServer.ReadFd(fd, combined, toClose));
            var read := WispServer.Bytes(t, s.fds[fd]);
            && t.watcher == WispServer.Holding(WispServer.Deferred(fd, combined, toClose))
            && WispServer.Bytes(s, s.fds[fd]) <= read
            && InPlace(results, read[|WispServer.Bytes(s, s.fds[fd])|..])
            && (toClose <==> s.fds[fd] in t.eof - s.eof || (toClose && s.fds[fd] in s.eof))
  {
    var before := WispServer.Bytes(s, s.fds[fd]);
    assert (before + combined)[|before|..] == combined;
  }

  // --- The deferred callback ---------------------------------------------------------------

  class SystemWatcher {
    var watchedSockets: map<nat, WebSocketManager>
    var sendQueueLen: nat

    ghost predicate Valid()
      reads this
    {
      forall a, b :: a in watchedSockets && b in watchedSockets && a != b ==> watchedSockets[a] != watchedSockets[b]
    }

    /** The websockets' streams are those of `managers`. */
    ghost predicate Shows(managers: map<nat, Manager>)
      reads this, watchedSockets.Values
    {
      && managers.Keys == watchedSockets.Keys
      && forall a :: a in watchedSockets ==> watchedSockets[a].View() == managers[a]
    }

    /** The search of the callback, and its send. */
    method SendToOwner(fd: nat, payload: seq<byte>, status: SendStatus, ghost was: map<nat, Manager>)
      returns (found: Option<(nat, u32)>, ghost now: map<nat, Manager>)
      requires Valid() && Shows(was) && UniqueOwner(was, fd)
      modifies watchedSockets.Values
      ensures Shows(now) && Found(was, found, fd)
      ensures now == AfterSend(was, found, payload, false, status)
    {
      found, now := None, was;
      var todo := watchedSockets.Keys;
      while todo != {}
        invariant todo <= watchedSockets.Keys && Valid() && Shows(now)
        invariant found.None? ==> forall a, id :: OwnsFd(was, a, id, fd) ==> a in todo
        invariant found.Some? ==> OwnsFd(was, found.value.0, found.value.1, fd) && found.value.0 !in todo
        invariant now == AfterSend(was, found, payload, false, status)
        decreases todo
      {
        var a :| a in todo;
        todo := todo - {a};
        ghost var before := now;
        var id;
        id, now := SendIfOwner(a, fd, payload, status, before);
        assert before[a] == was[a];
        if id.Some? {
          assert OwnsFd(was, a, id.value, fd);
          found := Some((a, id.value));
        } else {
          assert forall x :: !OwnsFd(was, a, x, fd);
        }
      }
    }

    /** One websocket's part of the search. */
    method SendIfOwner(a: nat, fd: nat, payload: seq<byte>, status: SendStatus, ghost was: map<nat, Manager>)
      returns (id: Option<u32>, ghost now: map<nat, Manager>)
      requires Valid() && Shows(was) && a in was
      modifies watchedSockets.Values
      ensures Shows(now)
      ensures id.Some? ==>
                OwnsFd(was, a, id.value, fd) && now == was[a := Delivered(was[a], id.value, payload, status)]
      ensures id.None? ==> now == was && forall x :: !OwnsFd(was, a, x, fd)
    {
      now := was;
      id := Find(watchedSockets[a], fd);
      if id.Some? {
        now := SendTo(a, id.value, payload, status, was);
      }
    }

    method SendTo(a: nat, id: u32, payload: seq<byte>, status: SendStatus, ghost was: map<nat, Manager>)
      returns (ghost now: map<nat, Manager>)
      requires Valid() && Shows(was) && a in was
      modifies watchedSockets.Values
      ensures Shows(now) && now == was[a := Delivered(was[a], id, payload, status)]
    {
      watchedSockets[a].SendData(id, payload, status);
      now := was[a := Delivered(was[a], id, payload, status)];
    }

    method Find(manager: WebSocketManager, fd: nat) returns (found: Option<u32>)
      ensures found.Some? ==> found.value in manager.streams && manager.streams[found.value].fd == fd
      ensures found.None? ==> forall id :: id in manager.streams ==> manager.streams[id].fd != fd
    {
      found := None;
      var todo := manager.streams.Keys;
      while todo != {}
        invariant todo <= manager.streams.Keys
        invariant found.Some? ==> found.value in manager.streams && manager.streams[found.value].fd == fd
        invariant found.None? ==> forall id :: id in manager.streams && id !in todo ==> manager.streams[id].fd != fd
        decreases todo
      {
        var id :| id in todo;
        todo := todo - {id};
        if manager.streams[id].fd == fd {
          found := Some(id);
        }
      }
    }

    method RefreshSocket(a: nat, ghost was: map<nat, Manager>)
      returns (ghost now: map<nat, Manager>, ghost order: seq<u32>)
      requires Valid() && Shows(was) && a in was
      modifies watchedSockets.Values
      ensures Shows(now) && now.Keys == was.Keys && RefreshedOne(was[a], now[a], sendQueueLen, order)
      ensures forall b :: b in was && b != a ==> now[b] == was[b]
    {
      order := watchedSockets[a].UpdateStreams(sendQueueLen);
      now := was[a := Refreshed(was[a], sendQueueLen, order)];
    }

    /** The last loop of the callback: refresh every websocket. */
    method RefreshAll(ghost was: map<nat, Manager>)
      returns (ghost now: map<nat, Manager>, ghost orders: map<nat, seq<u32>>)
      requires Valid() && Shows(was)
      modifies watchedSockets.Values
      ensures Shows(now) && RefreshedAll(was, now, sendQueueLen, orders)
    {
      now, orders := was, map[];
      var todo := watchedSockets.Keys;
      while todo != {}
        invariant todo <= watchedSockets.Keys && Valid() && Shows(now)
        invariant RefreshedBut(was, now, sendQueueLen, orders, todo)
        decreases todo
      {
        var a :| a in todo;
        ghost var next, order := RefreshSocket(a, now);
        RefreshedMore(was, now, next, sendQueueLen, orders, todo, a, order);
        todo, orders, now := todo - {a}, orders[a := order], next;
      }
    }

    method CloseFound(a: nat, id: u32, ghost was: map<nat, Manager>) returns (ghost now: map<nat, Manager>)
      requires Valid() && Shows(was) && a in was && id in was[a].streams
      modifies watchedSockets.Values
      ensures Shows(now) && now == was[a := StreamClosed(was[a], id)]
    {
      var _ := watchedSockets[a].CloseStream(id);
      now := was[a := StreamClosed(was[a], id)];
    }

    /** The whole callback, with the watcher quiet while it runs: send to the owner of the descriptor,
        close it at the end of its target, count the entry out, refresh. */
    method Callback(fd: nat, payload: seq<byte>, toClose: bool, status: SendStatus, ghost was: map<nat, Manager>)
      returns (found: Option<(nat, u32)>, ghost sent: map<nat, Manager>, ghost now: map<nat, Manager>,
               ghost orders: map<nat, seq<u32>>)
      requires Valid() && Shows(was) && UniqueOwner(was, fd) && sendQueueLen > 0
      modifies this`sendQueueLen, watchedSockets.Values
      ensures sendQueueLen == old(sendQueueLen) - 1
      ensures Found(was, found, fd) && sent == AfterSend(was, found, payload, toClose, status)
      ensures Shows(now)
      ensures if sendQueueLen < MAX_QUEUE then RefreshedAll(sent, now, sendQueueLen, orders) else now == sent
    {
      found, sent := SendAndClose(fd, payload, toClose, status, was);
      now, orders := CountOut(sent);
    }

    method SendAndClose(fd: nat, payload: seq<byte>, toClose: bool, status: SendStatus, ghost was: map<nat, Manager>)
      returns (found: Option<(nat, u32)>, ghost sent: map<nat, Manager>)
      requires Valid() && Shows(was) && UniqueOwner(was, fd)
      modifies watchedSockets.Values
      ensures Found(was, found, fd) && sent == AfterSend(was, found, payload, toClose, status) && Shows(sent)
    {
      found, sent := SendToOwner(fd, payload, status, was);
      if toClose && found.Some? {
        SendThenClose(was, found, payload, status);
        sent := CloseFound(found.value.0, found.value.1, sent);
      }
    }

    method CountOut(ghost sent: map<nat, Manager>)
      returns (ghost now: map<nat, Manager>, ghost orders: map<nat, seq<u32>>)
      requires Valid() && Shows(sent) && sendQueueLen > 0
      modifies this`sendQueueLen, watchedSockets.Values
      ensures sendQueueLen == old(sendQueueLen) - 1
      ensures Shows(now)
      ensures if sendQueueLen < MAX_QUEUE then RefreshedAll(sent, now, sendQueueLen, orders) else now == sent
    {
      now, orders := sent, map[];
      sendQueueLen := WispServer.SizeDec(sendQueueLen);
      if sendQueueLen < MAX_QUEUE {
        now, orders := RefreshAll(sent);
      }
    }
  }

  /** The search found the owner, or there is none. */
  ghost predicate Found(managers: map<nat, Manager>, found: Option<(nat, u32)>, fd: nat) {
    && (found.Some? ==> OwnsFd(managers, found.value.0, found.value.1, fd))
    && (found.None? ==> forall a: nat, id: u32 :: !OwnsFd(managers, a, id, fd))
  }

  /** `update_streams` on one websocket, its frames in the order of its unordered map. */
  ghost predicate RefreshedOne(was: Manager, now: Manager, queueLen: nat, order: seq<u32>) {
    && (!was.backpressure && queueLen <= MAX_QUEUE ==> Enumerates(order, Zeros(was)))
    && now == Refreshed(was, queueLen, order)
  }

  ghost predicate RefreshedAll(was: map<nat, Manager>, now: map<nat, Manager>, queueLen: nat,
                               orders: map<nat, seq<u32>>) {
    && now.Keys == was.Keys == orders.Keys
    && forall a :: a in was ==> RefreshedOne(was[a], now[a], queueLen, orders[a])
  }

  /** All websockets but those still to do have been refreshed. */
  ghost predicate RefreshedBut(was: map<nat, Manager>, now: map<nat, Manager>, queueLen: nat,
                               orders: map<nat, seq<u32>>, todo: set<nat>) {
    && now.Keys == was.Keys && todo <= was.Keys && orders.Keys == was.Keys - todo
    && (forall a :: a in todo ==> now[a] == was[a])
    && forall a :: a in orders ==> RefreshedOne(was[a], now[a], queueLen, orders[a])
  }

  lemma RefreshedMore(was: map<nat, Manager>, now: map<nat, Manager>, next: map<nat, Manager>, queueLen: nat,
                      orders: map<nat, seq<u32>>, todo: set<nat>, a: nat, order: seq<u32>)
    requires RefreshedBut(was, now, queueLen, orders, todo) && a in todo && next.Keys == now.Keys
    requires RefreshedOne(now[a], next[a], queueLen, order)
    requires forall b :: b in now && b != a ==> next[b] == now[b]
    ensures RefreshedBut(was, next, queueLen, orders[a := order], todo - {a})
  {
  }

  ghost predicate OwnsFd(managers: map<nat, Manager>, a: nat, id: u32, fd: nat) {
    a in managers && id in managers[a].streams && managers[a].streams[id].fd == fd
  }

  ghost predicate UniqueOwner(managers: map<nat, Manager>, fd: nat) {
    forall a: nat, id: u32, b: nat, x: u32 :: OwnsFd(managers, a, id, fd) && OwnsFd(managers, b, x, fd) ==>
        a == b && id == x
  }

  /** The managers after the callback's send and close. */
  ghost function AfterSend(managers: map<nat, Manager>, found: Option<(nat, u32)>, payload: seq<byte>, toClose: bool,
                           status: SendStatus): map<nat, Manager>
    requires found.Some? ==> found.value.0 in managers
  {
    if found.None? then managers
    else
      var (a, id) := found.value;
      var m := Delivered(managers[a], id, payload, status);
      managers[a := if toClose then StreamClosed(m, id) else m]
  }

  lemma SendThenClose(was: map<nat, Manager>, found: Option<(nat, u32)>, payload: seq<byte>, status: SendStatus)
    requires found.Some? && found.value.0 in was && found.value.1 in was[found.value.0].streams
    ensures var sent, a, id := AfterSend(was, found, payload, false, status), found.value.0, found.value.1;
            && a in sent && id in sent[a].streams
            && AfterSend(was, found, payload, true, status) == sent[a := StreamClosed(sent[a], id)]
  {
  }

  /** The descriptors that a forced close gives up are those that the server machine's step closes. */
  lemma ForceCloseIsStep(s: WispServer.Server, manager: nat, ids: seq<u32>, fds: seq<nat>)
    requires s.loop.Ready? && manager in s.managers && Enumerates(ids, s.managers[manager].streams.Keys)
    requires |fds| == |ids|
    requires forall i :: 0 <= i < |ids| ==>
               ids[i] in s.managers[manager].streams && fds[i] == s.managers[manager].streams[ids[i]].fd
    ensures WispServer.Enabled(s, WispServer.CloseManager(manager, ids))
    ensures WispServer.Apply(s, WispServer.CloseManager(manager, ids)).fds == s.fds - (set i | 0 <= i < |fds| :: fds[i])
  {
    var closed := set i | 0 <= i < |fds| :: fds[i];
    forall fd
      ensures fd in closed <==> fd in WispServer.FdsOf(s.managers[manager])
    {
      if fd in WispServer.FdsOf(s.managers[manager]) {
        var id :| id in s.managers[manager].streams && s.managers[manager].streams[id].fd == fd;
        assert id in ids;
        var i :| 0 <= i < |ids| && ids[i] == id;
        assert fds[i] == fd;
      }
    }
    assert closed == WispServer.FdsOf(s.managers[manager]);
  }

  /** The callback's search and send are the step of the server machine, whose ownership invariant gives
      the uniqueness that the search relies on. */
  lemma CallbackIsStep(s: WispServer.Server, found: Option<(nat, u32)>, status: SendStatus)
    requires s.loop.Ready? && s.queue != []
    requires Found(s.managers, found, s.queue[0].fd)
    ensures WispServer.Enabled(s, WispServer.RunDeferred(found, status))
    ensures WispServer.Apply(s, WispServer.RunDeferred(found, status)).managers
         == AfterSend(s.managers, found, s.queue[0].payload, s.queue[0].toClose, status)
  {
    assert forall a: nat, id: u32 ::
        OwnsFd(s.managers, a, id, s.queue[0].fd) == WispServer.Owns(s, a, id, s.queue[0].fd);
  }
}
