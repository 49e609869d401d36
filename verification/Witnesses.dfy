/**
 Reachable failures: for each property that holds only under a condition, a run to a state in which the
 condition fails, and what goes wrong there.
 */
module Witnesses {
  import opened CreditLink
  import opened Delivery
  import opened Packets
  import opened Pcap
  import opened ServerInvariants
  import opened WispManager
  import opened WispServer
  import opened Whole = World
  import opened Wrappers
  import Pool = ThreadPool
  import PoolHistory
  import PoolWaiting

  // --- Runs, extended at the end -----------------------------------------------------------

  ghost predicate CarefullyReachable(s: Server) {
    exists steps :: ValidRun(Initial(), steps) && CarefulRun(Initial(), steps) && s == Final(Initial(), steps)
  }

  lemma {:induction false} RunExtends(s: Server, steps: seq<WispServer.Step>, step: WispServer.Step)
    requires ValidRun(s, steps) && Enabled(Final(s, steps), step)
    ensures ValidRun(s, steps + [step]) && Final(s, steps + [step]) == Apply(Final(s, steps), step)
    ensures CarefulRun(s, steps) && Careful(Final(s, steps), step) ==> CarefulRun(s, steps + [step])
    decreases |steps|
  {
    var longer := steps + [step];
    if steps == [] {
      assert longer[1..] == [];
    } else {
      assert longer[1..] == steps[1..] + [step];
      RunExtends(Apply(s, steps[0]), steps[1..], step);
    }
  }

  lemma Extends(s: Server, step: WispServer.Step)
    requires ServerInvariants.Reachable(s) && Enabled(s, step)
    ensures ServerInvariants.Reachable(Apply(s, step))
  {
    var steps :| ValidRun(Initial(), steps) && s == Final(Initial(), steps);
    RunExtends(Initial(), steps, step);
  }

  lemma ExtendsCarefully(s: Server, step: WispServer.Step)
    requires CarefullyReachable(s) && Enabled(s, step) && Careful(s, step)
    ensures CarefullyReachable(Apply(s, step))
  {
    var steps :| ValidRun(Initial(), steps) && CarefulRun(Initial(), steps) && s == Final(Initial(), steps);
    RunExtends(Initial(), steps, step);
  }

  lemma CarefullyOk(s: Server)
    requires CarefullyReachable(s)
    ensures ServerInvariants.Reachable(s) && Base(s) && DeliveryOk(s)
  {
    var steps :| ValidRun(Initial(), steps) && CarefulRun(Initial(), steps) && s == Final(Initial(), steps);
    RunDelivers(Initial(), steps);
  }

  lemma CarelessBreaks(s: Server, step: WispServer.Step)
    requires CarefullyReachable(s) && Enabled(s, step) && FreshInsert(s, step) && !Careful(s, step)
    ensures !DeliveryOk(Apply(s, step))
  {
    CarefullyOk(s);
    LiveStreamsStep(s, step);
  }

  lemma StartsCarefully()
    ensures CarefullyReachable(Initial())
  {
    assert ValidRun(Initial(), []) && CarefulRun(Initial(), []) && Final(Initial(), []) == Initial();
  }

  // --- One websocket with one stream -------------------------------------------------------

  function OneOpen(): Manager {
    Opened(Created(), 1, TCP, 5, 0)
  }

  /** Websocket 0 has TCP stream 1 on descriptor 5. */
  function OneStream(): Server {
    Server(map[0 := OneOpen()], 1, 0, [], Free, Ready, {}, {5}, map[5 := 0], 1, [], map[0 := []], {}, map[], map[])
  }

  lemma OneStreamReached()
    ensures CarefullyReachable(OneStream())
  {
    StartsCarefully();
    var empty := Apply(Initial(), OpenManager);
    ExtendsCarefully(Initial(), OpenManager);
    assert empty == Initial().(managers := map[0 := Created()], nextManager := 1);
    var connecting := Apply(empty, ConnectOpens(0, 1, TCP, 5));
    ExtendsCarefully(empty, ConnectOpens(0, 1, TCP, 5));
    assert connecting == OneStream().(managers := map[0 := Created()], loop := Inserting(0, 1, TCP, 5, 0));
    ExtendsCarefully(connecting, ConnectInserts);
    assert Apply(connecting, ConnectInserts) == OneStream();
  }

  /** A byte was read from the target and is deferred. */
  function OneDeferred(): Server {
    OneStream().(queue := [Deferred(5, [7], false)], sendQueueLen := 1, read := map[0 := [7]])
  }

  lemma OneDeferredReached()
    ensures CarefullyReachable(OneDeferred())
  {
    OneStreamReached();
    var fetched := Apply(OneStream(), Fetch({5}));
    ExtendsCarefully(OneStream(), Fetch({5}));
    var read := Apply(fetched, ReadFd(5, [7], false));
    ExtendsCarefully(fetched, ReadFd(5, [7], false));
    assert Bytes(fetched, 0) + [7] == [7];
    ExtendsCarefully(read, Defer);
    assert Apply(read, Defer) == OneDeferred();
  }

  // --- Failures of ownership and delivery --------------------------------------------------

  /** A second CONNECT for a live id leaks the first descriptor. */
  lemma LeakCanHappen() returns (s: Server)
    ensures CarefullyReachable(s) && Enabled(s, ConnectInserts)
    ensures AllOwned(s) && !AllOwned(Apply(s, ConnectInserts))
  {
    OneStreamReached();
    s := Apply(OneStream(), ConnectOpens(0, 1, TCP, 6));
    ExtendsCarefully(OneStream(), ConnectOpens(0, 1, TCP, 6));
    CarefullyOk(s);
    assert Live(s, 0, 1);
    LeakStep(s, ConnectInserts);
  }

  /** A refused CONNECT for a live id tells the client that its stream is closed; the stream lives on. */
  lemma RefusalCanClose() returns (s: Server)
    ensures CarefullyReachable(s) && Enabled(s, ConnectFails(0, 1))
    ensures var t := Apply(s, ConnectFails(0, 1));
            && !DeliveryOk(t) && Live(t, 0, 1)
            && Close(1, 0x41) in Since(t.managers[0], At(t, 0, 1).openedAt)
  {
    s := OneStream();
    OneStreamReached();
    CarefullyOk(s);
    assert Live(s, 0, 1);
    RefusedBreaks(s, 0, 1);
    var sent := Apply(s, ConnectFails(0, 1)).managers[0].sent;
    assert sent[1] == Close(1, 0x41) && sent[1..][0] == sent[1];
  }

  function OneDropped(): Server {
    OneStream().(read := map[0 := [7]], loop := Checking)
  }

  lemma Drops()
    ensures Enabled(OneDeferred(), RunDeferred(Some((0, 1)), Dropped))
    ensures Apply(OneDeferred(), RunDeferred(Some((0, 1)), Dropped)) == OneDropped()
  {
    assert Owns(OneDeferred(), 0, 1, 5);
  }

  /** While a byte of stream 1 is deferred, a second CONNECT for it has overwritten the stream. */
  function Overwritten(): Server {
    OneDeferred().(managers := map[0 := Opened(OneOpen(), 1, TCP, 6, 1)], polled := {5, 6}, fds := map[5 := 0, 6 := 1],
                   nextSerial := 2, read := map[0 := [7], 1 := []])
  }

  /** The second descriptor is open, and its stream not yet inserted. */
  function Overwriting(): Server {
    Overwritten().(managers := map[0 := OneOpen()], loop := Inserting(0, 1, TCP, 6, 1))
  }

  lemma OverwritingReached()
    ensures CarefullyReachable(Overwriting())
  {
    OneDeferredReached();
    ExtendsCarefully(OneDeferred(), ConnectOpens(0, 1, TCP, 6));
    assert Apply(OneDeferred(), ConnectOpens(0, 1, TCP, 6)) == Overwriting();
  }

  lemma Overwrites()
    ensures Enabled(Overwriting(), ConnectInserts) && Apply(Overwriting(), ConnectInserts) == Overwritten()
    ensures !FreshInsert(Overwriting(), ConnectInserts)
  {
    assert Live(Overwriting(), 0, 1);
  }

  lemma OverwrittenReached()
    ensures ServerInvariants.Reachable(Overwritten()) && DeliveryOk(Overwritten()) && !AllOwned(Overwritten())
  {
    OverwritingReached();
    CarefullyOk(Overwriting());
    Overwrites();
    Extends(Overwriting(), ConnectInserts);
    LiveStreamsStep(Overwriting(), ConnectInserts);
    LeakStep(Overwriting(), ConnectInserts);
  }

  function OneLost(): Server {
    Overwritten().(queue := [], sendQueueLen := 0, loop := Checking)
  }

  lemma NobodyOwns()
    ensures Enabled(Overwritten(), RunDeferred(None, Success))
    ensures Apply(Overwritten(), RunDeferred(None, Success)) == OneLost()
  {
    assert forall manager: nat, id: u32 :: Live(Overwritten(), manager, id) ==>
        manager == 0 && id == 1 && At(Overwritten(), manager, id).fd == 6;
  }

  /** And then the callback finds no owner for the byte: it was read, is deferred no more, and was not sent,
      while the descriptor that it came from is still open. */
  lemma OverwriteCanLose()
    ensures CarefullyReachable(Overwriting()) && Enabled(Overwriting(), ConnectInserts)
    ensures Apply(Overwriting(), ConnectInserts) == Overwritten() && !AllOwned(Overwritten())
    ensures Enabled(Overwritten(), RunDeferred(None, Success))
    ensures Apply(Overwritten(), RunDeferred(None, Success)) == OneLost()
    ensures Pending(OneLost()) == [] && Bytes(OneLost(), 0) == [7] && 5 in OneLost().fds && OneLost().fds[5] == 0
    ensures OneLost().managers.Keys == {0} && OneLost().managers[0].sent == [Continue(0, BUFFER_COUNT)]
  {
    OverwritingReached();
    Overwrites();
    OverwrittenReached();
    NobodyOwns();
  }

  /** A dropped send loses a byte: it was read, is deferred no more, and was not sent. */
  lemma DropCanLose()
    ensures CarefullyReachable(OneDeferred()) && Enabled(OneDeferred(), RunDeferred(Some((0, 1)), Dropped))
    ensures Apply(OneDeferred(), RunDeferred(Some((0, 1)), Dropped)) == OneDropped()
    ensures !DeliveryOk(OneDropped()) && Pending(OneDropped()) == [] && Bytes(OneDropped(), 0) == [7]
    ensures OneDropped().managers == OneStream().managers
  {
    OneDeferredReached();
    Drops();
    CarelessBreaks(OneDeferred(), RunDeferred(Some((0, 1)), Dropped));
  }

  /** The websocket of `OneDeferred` is closed, and another one is opened. */
  function Reopened(): Server {
    Server(map[1 := Created()], 2, 1, [Deferred(5, [7], false)], Free, Ready, {}, {}, map[], 1, [0], map[0 := [7]], {},
           map[], map[0 := 0])
  }

  lemma Closes()
    ensures Enabled(OneDeferred(), CloseManager(0, [1]))
    ensures Apply(OneDeferred(), CloseManager(0, [1])) == Reopened().(managers := map[], nextManager := 1)
  {
    assert Enumerates([1], OneOpen().streams.Keys);
    assert SerialsOf(OneOpen(), [1]) == [0];
    assert 1 in OneOpen().streams && OneOpen().streams[1].fd == 5;
    assert FdsOf(OneOpen()) == {5};
  }

  lemma ReopenedReached()
    ensures CarefullyReachable(Reopened())
  {
    OneDeferredReached();
    Closes();
    ExtendsCarefully(OneDeferred(), CloseManager(0, [1]));
    var gone := Apply(OneDeferred(), CloseManager(0, [1]));
    ExtendsCarefully(gone, OpenManager);
    assert Apply(gone, OpenManager) == Reopened();
  }

  /** The new websocket has opened a stream on the recycled number. */
  function Recycled(): Server {
    Reopened().(managers := map[1 := Opened(Created(), 1, TCP, 5, 1)], polled := {5}, fds := map[5 := 1],
                nextSerial := 2, read := map[0 := [7], 1 := []])
  }

  lemma RecycledReached()
    ensures CarefullyReachable(Reopened()) && Enabled(Reopened(), ConnectOpens(1, 1, TCP, 5))
    ensures !DeliveryOk(Apply(Reopened(), ConnectOpens(1, 1, TCP, 5)))
    ensures ServerInvariants.Reachable(Recycled())
  {
    ReopenedReached();
    assert Pending(Reopened())[0].fd == 5;
    CarelessBreaks(Reopened(), ConnectOpens(1, 1, TCP, 5));
    CarefullyOk(Reopened());
    Extends(Reopened(), ConnectOpens(1, 1, TCP, 5));
    var connecting := Apply(Reopened(), ConnectOpens(1, 1, TCP, 5));
    assert connecting == Recycled().(managers := map[1 := Created()], loop := Inserting(1, 1, TCP, 5, 1));
    Extends(connecting, ConnectInserts);
    assert Apply(connecting, ConnectInserts) == Recycled();
  }

  /** A recycled number misdelivers: the new stream's client is sent a byte that was read from the old
      target, and nothing was read from its own. */
  lemma RecycleCanMisdeliver()
    ensures ServerInvariants.Reachable(Recycled()) && Enabled(Recycled(), RunDeferred(Some((1, 1)), Success))
    ensures var end := Apply(Recycled(), RunDeferred(Some((1, 1)), Success));
            && Live(end, 1, 1) && Bytes(end, At(end, 1, 1).serial) == []
            && Payload(Since(end.managers[1], At(end, 1, 1).openedAt), 1) == [7]
  {
    RecycledReached();
    assert Owns(Recycled(), 1, 1, 5);
    var end := Apply(Recycled(), RunDeferred(Some((1, 1)), Success));
    assert end.managers[1].sent == [Continue(0, BUFFER_COUNT), Data(1, [7])];
    assert Since(end.managers[1], 1) == [Data(1, [7])];
    PayloadOne(Data(1, [7]), 1);
  }

  // --- Failures of the credit protocol -----------------------------------------------------

  /** A client may use up its stream's credit. */
  lemma {:induction false} Spends(n: nat) returns (s: Server)
    requires n <= 127
    ensures ServerInvariants.Reachable(s) && s.loop.Ready? && Live(s, 0, 1)
    ensures At(s, 0, 1).kind == TCP && At(s, 0, 1).buffer == 127 - n && !s.managers[0].backpressure
  {
    if n == 0 {
      OneStreamReached();
      s := OneStream();
      CarefullyOk(s);
    } else {
      s := Spends(n - 1);
      Extends(s, ReceiveData(0, 1, []));
      s := Apply(s, ReceiveData(0, 1, []));
    }
  }

  /** One packet more wraps the unsigned credit, and the books are no longer balanced. */
  lemma CreditCanWrap() returns (s: Server)
    ensures ServerInvariants.Reachable(s) && Enabled(s, ReceiveData(0, 1, [])) && Live(s, 0, 1)
    ensures var t := Apply(s, ReceiveData(0, 1, []));
            Live(t, 0, 1) && At(t, 0, 1).buffer == 0xFFFF_FFFF && !Ledger(t.managers[0])
  {
    s := Spends(127);
    var m := Apply(s, ReceiveData(0, 1, [])).managers[0];
    assert !Balanced(m, 1);
  }

  lemma {:induction false} WorldRunExtends(w: World, steps: seq<WorldStep>, step: WorldStep)
    requires WorldRun(w, steps) && CanStep(WorldEnd(w, steps), step)
    ensures WorldRun(w, steps + [step]) && WorldEnd(w, steps + [step]) == Next(WorldEnd(w, steps), step)
    decreases |steps|
  {
    var longer := steps + [step];
    if steps == [] {
      assert longer[1..] == [];
    } else {
      assert longer[1..] == steps[1..] + [step];
      WorldRunExtends(Next(w, steps[0]), steps[1..], step);
    }
  }

  lemma WorldExtends(w: World, step: WorldStep)
    requires FromStart(w) && CanStep(w, step)
    ensures FromStart(Next(w, step))
  {
    var numThreads: nat, hardware: nat, steps :|
      && numThreads <= Pool.SIZE_MAX && hardware <= Pool.SIZE_MAX
      && WorldRun(Start(numThreads, hardware), steps) && w == WorldEnd(Start(numThreads, hardware), steps);
    WorldRunExtends(Start(numThreads, hardware), steps, step);
  }

  /** Stream 1 of websocket 0 has the given credit at both ends; nothing is under way upwards, nothing is
      deferred, and there is no backpressure. */
  ghost predicate Even(w: World, credit: nat) {
    && w.server.loop.Ready? && w.server.sendQueueLen == 0 && Pending(w.server) == []
    && 0 in w.clients && Live(w.server, 0, 1)
    && !w.server.managers[0].backpressure
    && At(w.server, 0, 1).kind == TCP && At(w.server, 0, 1).buffer == credit
    && var c := w.clients[0];
    && c.up == [] && 1 in c.open && c.open[1].kind == TCP && c.open[1].credit == credit
  }

  /** A world with websocket 0 only. */
  function Small(server: Server, client: Client): World {
    World(server, map[0 := client], Pool.Initial(1, 1))
  }

  function NoStream(): Server {
    Initial().(managers := map[0 := Created()], nextManager := 1)
  }

  /** The client has received the announcement, and has the given streams and packets under way. */
  function Announced(open: map<u32, ClientStream>, up: seq<UpFrame>): Client {
    Client(Some(BUFFER_COUNT), open, [Continue(0, BUFFER_COUNT)], up)
  }

  const FULL := map[1 as u32 := ClientStream(TCP, 127, [])]

  lemma SocketOpens()
    ensures FromStart(Small(NoStream(), NewLink().client))
  {
    var w := Start(1, 1);
    assert WorldRun(w, []) && WorldEnd(w, []) == w;
    WorldExtends(w, ByServer(OpenManager));
    assert Next(w, ByServer(OpenManager)) == Small(NoStream(), NewLink().client);
  }

  /** A client's step in a small world changes that client. */
  lemma SmallStep(server: Server, client: Client, e: Event)
    requires FromStart(Small(server, client)) && CanStep(Small(server, client), ByClient(0, e))
    ensures FromStart(Small(server, After(Link(client, server.managers[0]), e).client))
  {
    var after := After(Link(client, server.managers[0]), e).client;
    WorldExtends(Small(server, client), ByClient(0, e));
    assert map[0 := client][0 := after] == map[0 := after];
    assert Next(Small(server, client), ByClient(0, e)) == Small(server, after);
  }

  lemma ClientHears()
    ensures FromStart(Small(NoStream(), Announced(map[], [])))
  {
    SocketOpens();
    var l := Link(NewLink().client, Created());
    assert After(l, ClientReceive).client == Announced(map[], []);
    SmallStep(NoStream(), NewLink().client, ClientReceive);
  }

  lemma ClientConnects()
    ensures FromStart(Small(NoStream(), Announced(FULL, [Connect(1, TCP)])))
  {
    ClientHears();
    var l := Link(Announced(map[], []), Created());
    assert After(l, ClientConnect(1, TCP)).client == Announced(FULL, [Connect(1, TCP)]);
    SmallStep(NoStream(), Announced(map[], []), ClientConnect(1, TCP));
  }

  /** The server has opened the target, and not yet inserted the stream. */
  function Connecting(): Server {
    OneStream().(managers := map[0 := Created()], loop := Inserting(0, 1, TCP, 5, 0))
  }

  lemma TargetOpens()
    ensures FromStart(Small(Connecting(), Announced(FULL, [Connect(1, TCP)])))
  {
    ClientConnects();
    var asked := Small(NoStream(), Announced(FULL, [Connect(1, TCP)]));
    WorldExtends(asked, ByServer(ConnectOpens(0, 1, TCP, 5)));
    assert Apply(NoStream(), ConnectOpens(0, 1, TCP, 5)) == Connecting();
  }

  lemma TakesConnect()
    ensures Popped(Announced(FULL, [Connect(1, TCP)])) == Announced(FULL, [])
    ensures Took(Small(Connecting(), Announced(FULL, [Connect(1, TCP)])), 0) == map[0 := Announced(FULL, [])]
  {
    var up := [Connect(1, TCP)];
    assert up[1..] == [];
  }

  /** The world in which the client of websocket 0 has opened stream 1. */
  lemma StreamOpens()
    ensures FromStart(Small(OneStream(), Announced(FULL, [])))
  {
    TargetOpens();
    var busy := Small(Connecting(), Announced(FULL, [Connect(1, TCP)]));
    WorldExtends(busy, ByServer(ConnectInserts));
    assert Apply(Connecting(), ConnectInserts) == OneStream();
    TakesConnect();
  }

  /** The client has sent one packet more than the server has taken. */
  ghost predicate Ahead(w: World, credit: nat) {
    && w.server.loop.Ready? && w.server.sendQueueLen == 0 && Pending(w.server) == []
    && 0 in w.clients && Live(w.server, 0, 1)
    && !w.server.managers[0].backpressure
    && At(w.server, 0, 1).kind == TCP && At(w.server, 0, 1).buffer == credit + 1
    && var c := w.clients[0];
    && c.up == [DataUp(1, [])] && 1 in c.open && c.open[1].kind == TCP && c.open[1].credit == credit
  }

  lemma ClientSends(w: World, credit: nat)
    requires Even(w, credit) && 0 < credit <= 127
    ensures CanStep(w, ByClient(0, ClientData(1, [])))
    ensures Ahead(Next(w, ByClient(0, ClientData(1, []))), credit - 1)
  {
    assert w.clients[0].up + [DataUp(1, [])] == [DataUp(1, [])];
  }

  lemma ServerTakes(w: World, credit: nat)
    requires Ahead(w, credit) && credit < 127
    ensures CanStep(w, ByServer(ReceiveData(0, 1, [])))
    ensures Even(Next(w, ByServer(ReceiveData(0, 1, []))), credit)
  {
    assert w.clients[0].up[1..] == [];
  }

  /** One packet from the client to the server. */
  lemma OneSpent(w: World, credit: nat) returns (end: World)
    requires FromStart(w) && Even(w, credit) && 0 < credit <= 127
    ensures FromStart(end) && Even(end, credit - 1)
  {
    ClientSends(w, credit);
    WorldExtends(w, ByClient(0, ClientData(1, [])));
    var sent := Next(w, ByClient(0, ClientData(1, [])));
    ServerTakes(sent, credit - 1);
    WorldExtends(sent, ByServer(ReceiveData(0, 1, [])));
    end := Next(sent, ByServer(ReceiveData(0, 1, [])));
  }

  lemma {:induction false} ClientSpends(n: nat) returns (w: World)
    requires n <= 127
    ensures FromStart(w) && Even(w, 127 - n)
  {
    if n == 0 {
      StreamOpens();
      w := Small(OneStream(), Announced(FULL, []));
    } else {
      w := ClientSpends(n - 1);
      w := OneSpent(w, 128 - n);
    }
  }

  /** A client that obeys its credits is stopped at zero credit, with no backpressure on its websocket and
      nothing deferred. */
  lemma RefillCanBeLate() returns (w: World)
    ensures FromStart(w) && 0 in w.clients && Live(w.server, 0, 1)
    ensures w.server.sendQueueLen == 0 && Pending(w.server) == [] && !w.server.managers[0].backpressure
    ensures Starved(LinkOf(w, 0), 1) && w.clients[0].up == [] && !MaySend(w.clients[0], 1)
  {
    w := ClientSpends(127);
    FromStartOk(w);
    assert LinkGood(LinkOf(w, 0));
  }

  // --- Writes out of order -----------------------------------------------------------------

  /** The first two of `n` workers are in the given phases, the others not yet spawned. */
  function TwoWorkers(n: nat, a: Pool.Phase, b: Pool.Phase): seq<Pool.Worker>
    requires n >= 2
  {
    Pool.Fresh(n)[0 := Pool.Worker(a, false)][1 := Pool.Worker(b, false)]
  }

  lemma Taken(s: Pool.State, step: Pool.Step) returns (t: Pool.State)
    requires PoolHistory.Reachable(s) && Pool.Enabled(s, step)
    ensures t == Pool.Apply(s, step) && PoolHistory.Reachable(t)
  {
    PoolWaiting.ExtendsRun(s, step);
    t := Pool.Apply(s, step);
  }

  /** A pool of `n` threads whose first two have finished their init functions. */
  function TwoFinished(n: nat, hardware: nat): Pool.State
    requires n >= 2
  {
    Pool.Initial(n, hardware).(
      workers := TwoWorkers(n, Pool.Finished, Pool.Finished),
      control := if n == 2 then Pool.Idle else Pool.Spawning(2))
  }

  lemma TwoStart(n: nat, hardware: nat) returns (s: Pool.State)
    requires 2 <= n <= Pool.SIZE_MAX && hardware <= Pool.SIZE_MAX
    ensures PoolHistory.Reachable(s)
    ensures s == TwoFinished(n, hardware).(workers := TwoWorkers(n, Pool.Starting, Pool.Starting))
  {
    s := Pool.Initial(n, hardware);
    PoolWaiting.StartsRun(n, hardware);
    assert s.workers == TwoWorkers(n, Pool.Unspawned, Pool.Unspawned);
    s := Taken(s, Pool.Spawn);
    assert s.workers == TwoWorkers(n, Pool.Starting, Pool.Unspawned);
    s := Taken(s, Pool.Spawn);
    assert s.workers == TwoWorkers(n, Pool.Starting, Pool.Starting);
  }

  lemma TwoFinish(n: nat, hardware: nat)
    requires 2 <= n <= Pool.SIZE_MAX && hardware <= Pool.SIZE_MAX
    ensures PoolHistory.Reachable(TwoFinished(n, hardware))
  {
    var s := TwoStart(n, hardware);
    s := Taken(s, Pool.InitDone(0));
    s := Taken(s, Pool.InitDone(1));
    assert s.workers == TwoWorkers(n, Pool.Finished, Pool.Finished);
  }

  lemma TwoQueued(n: nat, hardware: nat, a: Pool.Task, b: Pool.Task) returns (s: Pool.State)
    requires 2 <= n <= Pool.SIZE_MAX && hardware <= Pool.SIZE_MAX
    ensures PoolHistory.Reachable(s)
    ensures s == TwoFinished(n, hardware).(tasks := [0, 1], submitted := [a, b], pendingNotifies := 2)
  {
    TwoFinish(n, hardware);
    s := Taken(TwoFinished(n, hardware), Pool.Submit(a));
    s := Taken(s, Pool.Submit(b));
  }

  /** With any number of threads but one, the second task can finish while the first still runs. */
  lemma OvertakingCanHappen(n: nat, hardware: nat, a: Pool.Task, b: Pool.Task) returns (s: Pool.State)
    requires 2 <= n <= Pool.SIZE_MAX && hardware <= Pool.SIZE_MAX
    ensures PoolHistory.Reachable(s) && |s.workers| == n
    ensures s.submitted == [a, b] && s.started == [0, 1] && s.done == [1]
  {
    s := TwoQueued(n, hardware, a, b);
    s := Taken(s, Pool.Relock(0));
    assert s.workers == TwoWorkers(n, Pool.Running(0), Pool.Finished) && s.tasks == [1];
    s := Taken(s, Pool.Relock(1));
    assert s.workers == TwoWorkers(n, Pool.Running(0), Pool.Running(1)) && s.started == [0, 1];
    s := Taken(s, Pool.TaskDone(1));
  }

  /** So the bytes of one stream can be written out of order: the second payload and not yet the first. */
  lemma WritesCanOvertake(n: nat, hardware: nat, first: seq<byte>, second: seq<byte>) returns (s: Pool.State)
    requires 2 <= n <= Pool.SIZE_MAX && hardware <= Pool.SIZE_MAX
    ensures PoolHistory.Reachable(s) && |s.workers| == n
    ensures s.done == [1] && |s.submitted| == 2
    ensures PoolHistory.WritesFor(s.submitted, 0) == [first, second]
    ensures PoolHistory.WritesFor(PoolHistory.TasksOf(s, s.done), 0) == [second]
  {
    var a, b := Pool.Write(0, 1, first, 0), Pool.Write(0, 1, second, 0);
    s := OvertakingCanHappen(n, hardware, a, b);
    assert [a, b] == ([] + [a]) + [b] && [b] == [] + [b];
    PoolHistory.OneMoreWrite([], a, 0);
    PoolHistory.OneMoreWrite([] + [a], b, 0);
    PoolHistory.OneMoreWrite([], b, 0);
    assert PoolHistory.TasksOf(s, s.done) == [b];
  }

  // --- Failures of parsing and capturing ---------------------------------------------------

  /** A CONNECT payload of three bytes ending in zero: the buffer is empty, and unterminated. */
  lemma HostnameCanBeOpen()
    ensures DecodeConnect([TCP, 80, 0]).hostname == [] && !Terminated(DecodeConnect([TCP, 80, 0]).hostname)
  {
  }

  /** One retry, and the capture shows the payload twice. */
  lemma RetryCapturesTwice(payload: seq<byte>)
    ensures Attempts([Again, Sent]) == 2
    ensures Pcap.Stream(Copies(Write(User, payload), 2), User) == payload + payload
  {
    assert [Again, Sent][1..] == [Sent];
    var writes := Copies(Write(User, payload), 2);
    assert writes[..1] == [Write(User, payload)] && writes[..1][..0] == [];
    assert Pcap.Stream(writes[..1], User) == [] + payload;
  }
}
