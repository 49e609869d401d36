/**
 The server core as a machine of two threads: the event loop, which owns the websockets and runs the
 deferred callbacks, and the epoll watcher, which reads from targets and defers. The watcher may step
 between any two steps of the loop, also inside a CONNECT and inside a callback.
 */
module WispServer {
  import opened Packets
  import opened WispManager
  import opened Wrappers

  /** What the watcher read from a descriptor, on its way to the loop. */
  datatype Deferred = Deferred(fd: nat, payload: seq<byte>, toClose: bool)

  /** The watcher has counted the entry that it holds but not yet deferred it. */
  datatype Watcher = Free | Holding(entry: Deferred)

  datatype Loop =
    | Ready
    | Inserting(manager: nat, id: u32, kind: byte, fd: nat, serial: nat)
    | Checking
    | Refreshing(todo: set<nat>)
    | Skipped

  /** The life of a stream that ended because its target did: all frames of its websocket from its opening
      to its end, the first of them in place `openedAt`. */
  datatype Finished = Finished(manager: nat, id: u32, openedAt: nat, frames: seq<Frame>)

  datatype Server = Server(
    managers: map<nat, Manager>,
    nextManager: nat,
    sendQueueLen: nat,
    queue: seq<Deferred>,
    watcher: Watcher,
    loop: Loop,
    // the kernel: fetched epoll events, watched descriptors, and open target descriptors
    events: set<nat>,
    polled: set<nat>,
    fds: map<nat, nat>,
    // history: descriptors by serial number; `torn` are those that the end of their websocket closed
    nextSerial: nat,
    closed: seq<nat>,
    read: map<nat, seq<byte>>,
    eof: set<nat>,
    finished: map<nat, Finished>,
    torn: map<nat, nat>)

  datatype Step =
    // the loop
    | OpenManager
    | CloseManager(manager: nat, order: seq<u32>)
    | ConnectFails(manager: nat, id: u32)
    | ConnectOpens(manager: nat, id: u32, kind: byte, fd: nat)
    | ConnectInserts
    | ReceiveData(manager: nat, id: u32, payload: seq<byte>)
    | Drain(manager: nat, order: seq<u32>)
    | RunDeferred(target: Option<(nat, u32)>, status: SendStatus)
    | CheckQueue
    | RefreshOne(manager: nat, order: seq<u32>)
    | FinishCallback
    // the watcher
    | Fetch(ready: set<nat>)
    | ReadFd(fd: nat, payload: seq<byte>, toClose: bool)
    | Defer

  function Initial(): Server {
    Server(map[], 0, 0, [], Free, Ready, {}, {}, map[], 0, [], map[], {}, map[], map[])
  }

  // --- Streams -----------------------------------------------------------------------------

  predicate Live(s: Server, manager: nat, id: u32) {
    manager in s.managers && id in s.managers[manager].streams
  }

  function At(s: Server, manager: nat, id: u32): Stream
    requires Live(s, manager, id)
  {
    s.managers[manager].streams[id]
  }

  /** The search of the callback: a stream whose descriptor has the deferred number. */
  predicate Owns(s: Server, manager: nat, id: u32, fd: nat) {
    Live(s, manager, id) && At(s, manager, id).fd == fd
  }

  /** What is deferred, or about to be. */
  function Pending(s: Server): seq<Deferred> {
    s.queue + if s.watcher.Holding? then [s.watcher.entry] else []
  }

  function SetManager(s: Server, manager: nat, m: Manager): Server {
    s.(managers := s.managers[manager := m])
  }

  function SizeDec(n: nat): nat {
    if n == 0 then 0xFFFF_FFFF_FFFF_FFFF else n - 1
  }

  function FdsOf(m: Manager): set<nat> {
    set id | id in m.streams :: m.streams[id].fd
  }

  function SerialsOf(m: Manager, order: seq<u32>): seq<nat>
    requires forall i :: 0 <= i < |order| ==> order[i] in m.streams
  {
    seq(|order|, i requires 0 <= i < |order| => m.streams[order[i]].serial)
  }

  // --- Steps -------------------------------------------------------------------------------

  ghost predicate Enabled(s: Server, step: Step) {
    match step
    case OpenManager => s.loop.Ready?
    case CloseManager(manager, order) =>
      s.loop.Ready? && manager in s.managers && Enumerates(order, s.managers[manager].streams.Keys)
      && forall i :: 0 <= i < |order| ==> order[i] in s.managers[manager].streams
    case ConnectFails(manager, _) => s.loop.Ready? && manager in s.managers
    case ConnectOpens(manager, _, kind, fd) =>
      s.loop.Ready? && manager in s.managers && kind in {TCP, UDP} && fd !in s.fds
    case ConnectInserts => s.loop.Inserting? && s.loop.manager in s.managers
    case ReceiveData(manager, _, _) => s.loop.Ready? && manager in s.managers
    case Drain(manager, order) =>
      s.loop.Ready? && manager in s.managers && Enumerates(order, Zeros(s.managers[manager]))
    case RunDeferred(target, _) =>
      && s.loop.Ready? && s.queue != []
      && (if target.Some? then Owns(s, target.value.0, target.value.1, s.queue[0].fd)
          else forall manager: nat, id: u32 :: !Owns(s, manager, id, s.queue[0].fd))
    case CheckQueue => s.loop.Checking?
    case RefreshOne(manager, order) =>
      && s.loop.Refreshing? && manager in s.loop.todo && manager in s.managers
      && Enumerates(order, Zeros(s.managers[manager]))
    case FinishCallback => s.loop == Refreshing({}) || s.loop.Skipped?
    case Fetch(ready) => s.watcher.Free? && s.events == {} && ready <= s.polled
    case ReadFd(fd, payload, toClose) =>
      s.watcher.Free? && fd in s.events && (fd !in s.fds ==> payload == [] && toClose)
    case Defer => s.watcher.Holding?
  }

  /** The frames of a websocket from the given place on. */
  function Since(m: Manager, openedAt: nat): seq<Frame> {
    if openedAt <= |m.sent| then m.sent[openedAt..] else []
  }

  /** The front of the deferred callback: send to the stream that owns the descriptor, and close it. */
  function AfterDeferred(s: Server, manager: nat, id: u32, status: SendStatus): Server
    requires s.queue != [] && Live(s, manager, id)
  {
    var entry := s.queue[0];
    var stream := At(s, manager, id);
    var m := Delivered(s.managers[manager], id, entry.payload, status);
    if !entry.toClose then SetManager(s, manager, m)
    else
      var gone := StreamClosed(m, id);
      SetManager(s, manager, gone).(
        fds := s.fds - {stream.fd},
        polled := s.polled - {stream.fd},
        closed := s.closed + [stream.serial],
        finished := s.finished[stream.serial := Finished(manager, id, stream.openedAt, Since(gone, stream.openedAt))])
  }

  function Apply(s: Server, step: Step): Server
    requires Enabled(s, step)
  {
    match step
    case OpenManager => SetManager(s, s.nextManager, Created()).(nextManager := s.nextManager + 1)
    case CloseManager(manager, order) =>
      var m := s.managers[manager];
      s.(managers := s.managers - {manager},
         fds := s.fds - FdsOf(m),
         polled := s.polled - FdsOf(m),
         closed := s.closed + SerialsOf(m, order),
         torn := s.torn + map serial | serial in SerialsOf(m, order) :: manager)
    case ConnectFails(manager, id) => SetManager(s, manager, Refused(s.managers[manager], id))
    case ConnectOpens(manager, id, kind, fd) =>
      s.(fds := s.fds[fd := s.nextSerial], polled := s.polled + {fd}, nextSerial := s.nextSerial + 1,
         read := s.read[s.nextSerial := []], loop := Inserting(manager, id, kind, fd, s.nextSerial))
    case ConnectInserts =>
      var l := s.loop;
      SetManager(s, l.manager, Opened(s.managers[l.manager], l.id, l.kind, l.fd, l.serial)).(loop := Ready)
    case ReceiveData(manager, id, payload) =>
      SetManager(s, manager, Accepted(s.managers[manager], id, payload, s.sendQueueLen))
    case Drain(manager, order) => SetManager(s, manager, Drained(s.managers[manager], s.sendQueueLen, order))
    case RunDeferred(target, status) =>
      var sent := if target.Some? then AfterDeferred(s, target.value.0, target.value.1, status) else s;
      sent.(queue := s.queue[1..], sendQueueLen := SizeDec(s.sendQueueLen), loop := Checking)
    case CheckQueue => s.(loop := if s.sendQueueLen < MAX_QUEUE then Refreshing(s.managers.Keys) else Skipped)
    case RefreshOne(manager, order) =>
      SetManager(s, manager, Refreshed(s.managers[manager], s.sendQueueLen, order))
        .(loop := Refreshing(s.loop.todo - {manager}))
    case FinishCallback => s.(loop := Ready)
    case Fetch(ready) => s.(events := ready)
    case ReadFd(fd, payload, toClose) =>
      s.(sendQueueLen := s.sendQueueLen + 1,
         watcher := Holding(Deferred(fd, payload, toClose)),
         events := s.events - {fd},
         polled := if toClose then s.polled - {fd} else s.polled,
         read := if fd in s.fds then s.read[s.fds[fd] := Bytes(s, s.fds[fd]) + payload] else s.read,
         eof := if fd in s.fds && toClose then s.eof + {s.fds[fd]} else s.eof)
    case Defer => s.(queue := s.queue + [s.watcher.entry], watcher := Free)
  }

  function Bytes(s: Server, serial: nat): seq<byte> {
    if serial in s.read then s.read[serial] else []
  }

  // --- Runs --------------------------------------------------------------------------------

  ghost predicate ValidRun(s: Server, steps: seq<Step>)
    decreases |steps|
  {
    steps != [] ==> Enabled(s, steps[0]) && ValidRun(Apply(s, steps[0]), steps[1..])
  }

  ghost function Final(s: Server, steps: seq<Step>): Server
    requires ValidRun(s, steps)
    decreases |steps|
  {
    if steps == [] then s else Final(Apply(s, steps[0]), steps[1..])
  }

  /** A run taken apart at its last step. */
  lemma {:induction false} RunEnds(s: Server, steps: seq<Step>)
    requires ValidRun(s, steps) && steps != []
    ensures ValidRun(s, steps[..|steps| - 1]) && Enabled(Final(s, steps[..|steps| - 1]), steps[|steps| - 1])
    ensures Final(s, steps) == Apply(Final(s, steps[..|steps| - 1]), steps[|steps| - 1])
    decreases |steps|
  {
    if |steps| == 1 {
      assert steps[..0] == [] && steps[1..] == [];
    } else {
      assert steps[..|steps| - 1][1..] == steps[1..][..|steps| - 2];
      RunEnds(Apply(s, steps[0]), steps[1..]);
    }
  }
}
