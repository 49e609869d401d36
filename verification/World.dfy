/**
 The whole system: the two-threaded server with any number of websockets, the thread pool that runs its
 writes, and at the other end of each websocket a client that obeys Wisp version 1 credits. What the credit
 protocol, the server machine and the pool prove apart holds together, and the clients' discipline
 discharges what ownership and delivery ask of CONNECTs.
 */
module World {
  import opened CreditLink
  import opened Delivery
  import opened Packets
  import opened ServerInvariants
  import opened WispManager
  import opened WispServer
  import opened Wrappers
  import Pool = ThreadPool
  import ManagerClass
  import PoolHistory
  import PoolInvariants
  import PoolProgress
  import PoolWaiting

  datatype World = World(server: Server, clients: map<nat, Client>, pool: Pool.State)

  datatype WorldStep =
    | ByServer(step: Step)
    | ByClient(manager: nat, event: Event)
    | DropsPacket(manager: nat)
    | ByPool(poolStep: Pool.Step)

  function Start(numThreads: nat, hardware: nat): World {
    World(Initial(), map[], Pool.Initial(numThreads, hardware))
  }

  function LinkOf(w: World, manager: nat): Link
    requires manager in w.server.managers && manager in w.clients
  {
    Link(w.clients[manager], w.server.managers[manager])
  }

  /** The packet that a step of the server takes from a client. */
  predicate TakesPacket(w: World, step: Step) {
    match step
    case ConnectFails(manager, id) =>
      Front(w, manager) && w.clients[manager].up[0].Connect? && w.clients[manager].up[0].id == id
    case ConnectOpens(manager, id, kind, _) => Front(w, manager) && w.clients[manager].up[0] == Connect(id, kind)
    case ReceiveData(manager, id, payload) => Front(w, manager) && w.clients[manager].up[0] == DataUp(id, payload)
    case _ => true
  }

  predicate Front(w: World, manager: nat) {
    manager in w.clients && w.clients[manager].up != []
  }

  predicate ClientEvent(e: Event) {
    e.ClientConnect? || e.ClientData? || e.ClientIgnored? || e.ClientReceive?
  }

  ghost predicate CanStep(w: World, step: WorldStep) {
    match step
    case ByServer(s) =>
      && Enabled(w.server, s) && TakesPacket(w, s)
      && (s.ConnectInserts? ==> Front(w, w.server.loop.manager))
    case ByClient(manager, e) =>
      manager in w.clients && manager in w.server.managers && ClientEvent(e) && Possible(LinkOf(w, manager), e)
    case DropsPacket(manager) =>
      w.server.loop.Ready? && manager in w.server.managers && Front(w, manager) && w.clients[manager].up[0].Ignored?
    // only `handle_data` submits, and nobody purges
    case ByPool(p) => Pool.Enabled(w.pool, p) && !p.Submit? && !p.Purge?
  }

  /** The write task that `handle_data` submits for a packet on a live stream. */
  function Submitted(w: World, manager: nat, id: u32, payload: seq<byte>): Pool.State {
    if Live(w.server, manager, id) then
      Pool.Apply(w.pool, Pool.Submit(Pool.Write(manager, id, payload, At(w.server, manager, id).serial)))
    else
      w.pool
  }

  function Took(w: World, manager: nat): map<nat, Client>
    requires Front(w, manager)
  {
    w.clients[manager := Popped(w.clients[manager])]
  }

  function Next(w: World, step: WorldStep): World
    requires CanStep(w, step)
  {
    match step
    case ByServer(s) =>
      World(Apply(w.server, s),
            match s
            case OpenManager => w.clients[w.server.nextManager := NewLink().client]
            case CloseManager(manager, _) => w.clients - {manager}
            case ConnectFails(manager, _) => Took(w, manager)
            case ConnectInserts => Took(w, w.server.loop.manager)
            case ReceiveData(manager, _, _) => Took(w, manager)
            case _ => w.clients,
            match s
            case ReceiveData(manager, id, payload) => Submitted(w, manager, id, payload)
            case _ => w.pool)
    case ByClient(manager, e) => w.(clients := w.clients[manager := After(LinkOf(w, manager), e).client])
    case DropsPacket(manager) => w.(clients := Took(w, manager))
    case ByPool(p) => w.(pool := Pool.Apply(w.pool, p))
  }

  // --- The invariant -----------------------------------------------------------------------

  ghost predicate LinkGood(l: Link) {
    LinkInv(l) && InboxOk(l)
  }

  lemma EventGood(l: Link, e: Event)
    requires LinkGood(l) && Possible(l, e)
    ensures LinkGood(After(l, e))
  {
    EventKeeps(l, e);
    InboxKeeps(l, e);
  }

  ghost predicate LinksOk(w: World) {
    && w.clients.Keys == w.server.managers.Keys
    && forall manager :: manager in w.clients ==> LinkGood(LinkOf(w, manager))
  }

  /** While a CONNECT is being handled its packet is the next one of that client. */
  ghost predicate HandlingOk(w: World) {
    w.server.loop.Inserting? ==>
      && Front(w, w.server.loop.manager)
      && w.clients[w.server.loop.manager].up[0] == Connect(w.server.loop.id, w.server.loop.kind)
  }

  ghost predicate PoolOk(p: Pool.State) {
    PoolInvariants.Inv(p) && PoolHistory.HistoryOk(p) && PoolInvariants.WaiterSignalled(p) && p.purged == []
  }

  /** The writes submitted for a stream are the payloads that were taken from its client. */
  ghost predicate WritesOk(s: Server, submitted: seq<Pool.Task>) {
    && (forall manager: nat, id: u32 :: Live(s, manager, id) ==>
          PoolHistory.WritesFor(submitted, At(s, manager, id).serial) == At(s, manager, id).accepted)
    && (forall serial :: serial >= s.nextSerial ==> PoolHistory.WritesFor(submitted, serial) == [])
    && (s.loop.Inserting? ==> PoolHistory.WritesFor(submitted, s.loop.serial) == [])
  }

  /** A submitted write names the websocket and the stream that it was submitted for. */
  ghost predicate NamesOk(s: Server, submitted: seq<Pool.Task>) {
    forall i :: 0 <= i < |submitted| && submitted[i].Write? ==> NameOk(s, submitted[i])
  }

  ghost predicate NameOk(s: Server, task: Pool.Task)
    requires task.Write?
  {
    && task.serial < s.nextSerial
    && (s.loop.Inserting? ==> task.serial != s.loop.serial)
    && forall manager: nat, id: u32 :: Live(s, manager, id) && At(s, manager, id).serial == task.serial ==>
         task.socket == manager && task.stream == id
  }

  ghost predicate WorldInv(w: World) {
    && LinksOk(w) && HandlingOk(w)
    && QueueOk(w.server) && RefreshOk(w.server) && Base(w.server) && RecordsOk(w.server)
    && Watched(w.server)
    && PoolOk(w.pool) && WritesOk(w.server, w.pool.submitted) && NamesOk(w.server, w.pool.submitted)
  }

  /** Every CONNECT of a client that obeys the protocol is for a fresh id. */
  lemma ClientsAreFresh(w: World, s: Step)
    requires LinksOk(w) && HandlingOk(w) && CanStep(w, ByServer(s))
    ensures FreshInsert(w.server, s) && RefusesFresh(w.server, s)
  {
    if s.ConnectFails? {
      ConnectsAreFresh(LinkOf(w, s.manager));
    } else if s.ConnectInserts? && w.server.loop.Inserting? {
      ConnectsAreFresh(LinkOf(w, w.server.loop.manager));
    }
  }

  /** All links but one are as they were, and that one is good. */
  lemma LinksExcept(w: World, n: World, manager: nat)
    requires LinksOk(w) && n.clients.Keys == w.clients.Keys == n.server.managers.Keys && manager in n.clients
    requires LinkGood(LinkOf(n, manager))
    requires forall m :: m in w.clients && m != manager ==> LinkOf(n, m) == LinkOf(w, m)
    ensures LinksOk(n)
  {
    forall m | m in n.clients
      ensures LinkGood(LinkOf(n, m))
    {
      assert LinkGood(LinkOf(w, m));
    }
  }

  /** A step that changes one link, by a possible event, keeps all links. */
  lemma OneLink(w: World, n: World, manager: nat, e: Event)
    requires LinksOk(w) && manager in w.clients
    requires Possible(LinkOf(w, manager), e)
    requires n.clients.Keys == w.clients.Keys == n.server.managers.Keys
    requires LinkOf(n, manager) == After(LinkOf(w, manager), e)
    requires forall m :: m in w.clients && m != manager ==> LinkOf(n, m) == LinkOf(w, m)
    ensures LinksOk(n)
  {
    assert LinkGood(LinkOf(w, manager));
    EventGood(LinkOf(w, manager), e);
    LinksExcept(w, n, manager);
  }

  /** The event of the credit protocol that a step of the server is. */
  function EventOf(s: Server, step: Step): Event {
    match step
    case ConnectFails(_, _) => ServerRefuses
    case ConnectInserts => if s.loop.Inserting? then ServerOpens(s.loop.fd, s.loop.serial) else ServerIgnores
    case ReceiveData(_, _, _) => ServerData(s.sendQueueLen)
    case Drain(_, order) => ServerDrain(s.sendQueueLen, order)
    case RefreshOne(_, order) => ServerRefresh(s.sendQueueLen, order)
    case _ => ServerIgnores
  }

  function ManagerOf(s: Server, step: Step): nat {
    if Mild(step) then step.manager else if s.loop.Inserting? then s.loop.manager else 0
  }

  /** The step is possible as an event of its link. */
  lemma MildPossible(w: World, s: Step)
    requires w.clients.Keys == w.server.managers.Keys && HandlingOk(w) && CanStep(w, ByServer(s))
    requires Mild(s) || s.ConnectInserts?
    requires w.server.loop.Inserting? ==> w.server.loop.kind in {TCP, UDP}
    ensures ManagerOf(w.server, s) in w.clients
    ensures Possible(LinkOf(w, ManagerOf(w.server, s)), EventOf(w.server, s))
  {
  }

  lemma MildAfter(w: World, s: Step)
    requires w.clients.Keys == w.server.managers.Keys && HandlingOk(w) && CanStep(w, ByServer(s))
    requires Mild(s) || s.ConnectInserts?
    requires ManagerOf(w.server, s) in w.clients
    requires Possible(LinkOf(w, ManagerOf(w.server, s)), EventOf(w.server, s))
    ensures Next(w, ByServer(s)).clients.Keys == Next(w, ByServer(s)).server.managers.Keys == w.clients.Keys
    ensures LinkOf(Next(w, ByServer(s)), ManagerOf(w.server, s))
         == After(LinkOf(w, ManagerOf(w.server, s)), EventOf(w.server, s))
    ensures forall m :: m in w.clients && m != ManagerOf(w.server, s) ==>
              LinkOf(Next(w, ByServer(s)), m) == LinkOf(w, m)
  {
  }

  lemma MildLinks(w: World, s: Step)
    requires LinksOk(w) && HandlingOk(w) && InsertingOk(w.server) && CanStep(w, ByServer(s))
    requires Mild(s) || s.ConnectInserts?
    ensures LinksOk(Next(w, ByServer(s)))
  {
    MildPossible(w, s);
    MildAfter(w, s);
    OneLink(w, Next(w, ByServer(s)), ManagerOf(w.server, s), EventOf(w.server, s));
  }

  /** The callback's events on one link: a delivery, and perhaps a close. */
  lemma DeferredLink(l: Link, id: u32, payload: seq<byte>, status: SendStatus, toClose: bool)
    requires LinkGood(l) && id in l.manager.streams
    ensures var m := Delivered(l.manager, id, payload, status);
            LinkGood(l.(manager := if toClose then StreamClosed(m, id) else m))
  {
    var deliver := ServerDelivers(id, payload, status);
    EventGood(l, deliver);
    if toClose {
      EventGood(After(l, deliver), ServerCloses(id));
    }
  }

  /** The callback changes one link, and no other. */
  lemma DeferredNext(w: World, s: Step)
    requires w.clients.Keys == w.server.managers.Keys
    requires CanStep(w, ByServer(s)) && s.RunDeferred? && s.target.Some?
    ensures var (manager, id), n, d := s.target.value, Next(w, ByServer(s)), w.server.queue[0];
            var l := LinkOf(w, manager);
            var m := Delivered(l.manager, id, d.payload, s.status);
            && n.clients == w.clients && n.server.managers.Keys == w.server.managers.Keys
            && LinkOf(n, manager) == l.(manager := if d.toClose then StreamClosed(m, id) else m)
            && forall other :: other in w.clients && other != manager ==> LinkOf(n, other) == LinkOf(w, other)
  {
  }

  lemma DeferredLinks(w: World, s: Step)
    requires LinksOk(w) && CanStep(w, ByServer(s)) && s.RunDeferred? && s.target.Some?
    ensures LinksOk(Next(w, ByServer(s)))
  {
    var (manager, id) := s.target.value;
    DeferredNext(w, s);
    assert LinkGood(LinkOf(w, manager));
    DeferredLink(LinkOf(w, manager), id, w.server.queue[0].payload, s.status, w.server.queue[0].toClose);
    LinksExcept(w, Next(w, ByServer(s)), manager);
  }

  lemma OtherLinks(w: World, s: Step)
    requires LinksOk(w) && CanStep(w, ByServer(s))
    requires !Mild(s) && !s.ConnectInserts? && !(s.RunDeferred? && s.target.Some?)
    ensures LinksOk(Next(w, ByServer(s)))
  {
    var n := Next(w, ByServer(s));
    NewLinkOk();
    forall m | m in n.clients
      ensures LinkGood(LinkOf(n, m))
    {
      if s.OpenManager? && m == w.server.nextManager {
        assert LinkOf(n, m) == NewLink();
      } else {
        assert LinkGood(LinkOf(w, m)) && LinkOf(n, m) == LinkOf(w, m);
      }
    }
  }

  lemma ServerLinks(w: World, s: Step)
    requires LinksOk(w) && HandlingOk(w) && InsertingOk(w.server) && CanStep(w, ByServer(s))
    ensures LinksOk(Next(w, ByServer(s)))
  {
    if Mild(s) || s.ConnectInserts? {
      MildLinks(w, s);
    } else if s.RunDeferred? && s.target.Some? {
      DeferredLinks(w, s);
    } else {
      OtherLinks(w, s);
    }
  }

  lemma ServerHandling(w: World, s: Step)
    requires HandlingOk(w) && CanStep(w, ByServer(s))
    ensures HandlingOk(Next(w, ByServer(s)))
  {
  }

  lemma ClientLinks(w: World, manager: nat, e: Event)
    requires LinksOk(w) && HandlingOk(w) && CanStep(w, ByClient(manager, e))
    ensures LinksOk(Next(w, ByClient(manager, e))) && HandlingOk(Next(w, ByClient(manager, e)))
  {
    var n := Next(w, ByClient(manager, e));
    assert LinkOf(n, manager) == After(LinkOf(w, manager), e);
    OneLink(w, n, manager, e);
    ClientAppends(w.clients[manager], w.server.managers[manager], e);
  }

  /** A client's own steps only add packets behind the ones under way. */
  lemma ClientAppends(c: Client, m: Manager, e: Event)
    requires ClientEvent(e) && Possible(Link(c, m), e)
    ensures After(Link(c, m), e).manager == m
    ensures c.up <= After(Link(c, m), e).client.up
  {
  }

  lemma DropLinks(w: World, manager: nat)
    requires LinksOk(w) && HandlingOk(w) && CanStep(w, DropsPacket(manager))
    ensures LinksOk(Next(w, DropsPacket(manager))) && HandlingOk(Next(w, DropsPacket(manager)))
  {
    OneLink(w, Next(w, DropsPacket(manager)), manager, ServerIgnores);
  }

  // --- The writes --------------------------------------------------------------------------

  /** No two streams have the same serial number. */
  lemma SerialsApart(s: Server, manager: nat, id: u32, manager': nat, id': u32)
    requires OwnershipOk(s) && Live(s, manager, id) && Live(s, manager', id')
    requires At(s, manager, id).serial == At(s, manager', id').serial
    ensures manager == manager' && id == id'
  {
  }

  lemma KnownSerials(s: Server)
    requires OwnershipOk(s)
    ensures forall manager: nat, id: u32 :: Live(s, manager, id) ==> At(s, manager, id).serial < s.nextSerial
    ensures s.loop.Inserting? ==> s.loop.serial < s.nextSerial
    ensures s.loop.Inserting? ==> forall manager: nat, id: u32 :: Live(s, manager, id) ==>
              At(s, manager, id).serial != s.loop.serial
  {
  }

  /** `t` has no stream, and no packet taken, that `s` does not have. */
  ghost predicate SameTaken(s: Server, t: Server) {
    forall manager: nat, id: u32 :: Live(t, manager, id) ==>
      && Live(s, manager, id)
      && At(t, manager, id).serial == At(s, manager, id).serial
      && At(t, manager, id).accepted == At(s, manager, id).accepted
  }

  lemma OtherTaken(s: Server, step: Step)
    requires Enabled(s, step) && FreshManagers(s) && !step.ReceiveData? && !step.ConnectInserts?
    ensures SameTaken(s, Apply(s, step))
  {
    if step.RunDeferred? {
      DeferredTaken(s, step);
    } else if step.CloseManager? {
      CloseTaken(s, step);
    }
  }

  lemma DeferredTaken(s: Server, step: Step)
    requires Enabled(s, step) && step.RunDeferred?
    ensures SameTaken(s, Apply(s, step))
  {
    if step.target.Some? {
      CallbackSends(s, step.target.value.0, step.target.value.1, step.status);
      ChangeTaken(s, Apply(s, step), step.target.value.0, step.target.value.1, step.status);
    }
  }

  lemma ChangeTaken(s: Server, t: Server, manager: nat, id: u32, status: SendStatus)
    requires CallbackChange(s, t, manager, id, status)
    ensures SameTaken(s, t)
  {
  }

  lemma CloseTaken(s: Server, step: Step)
    requires Enabled(s, step) && step.CloseManager?
    ensures SameTaken(s, Apply(s, step))
  {
  }

  lemma TakenWrites(w: World, manager: nat, id: u32, payload: seq<byte>)
    requires WritesOk(w.server, w.pool.submitted) && OwnershipOk(w.server)
    requires Enabled(w.server, ReceiveData(manager, id, payload)) && Live(w.server, manager, id)
    ensures WritesOk(Apply(w.server, ReceiveData(manager, id, payload)), Submitted(w, manager, id, payload).submitted)
  {
    var s, t := w.server, Apply(w.server, ReceiveData(manager, id, payload));
    var serial := At(s, manager, id).serial;
    var task := Pool.Write(manager, id, payload, serial);
    KnownSerials(s);
    forall x
      ensures PoolHistory.WritesFor(w.pool.submitted + [task], x)
           == PoolHistory.WritesFor(w.pool.submitted, x) + if x == serial then [payload] else []
    {
      PoolHistory.OneMoreWrite(w.pool.submitted, task, x);
    }
    forall m: nat, x: u32 | Live(t, m, x)
      ensures PoolHistory.WritesFor(w.pool.submitted + [task], At(t, m, x).serial) == At(t, m, x).accepted
    {
      if At(s, m, x).serial == serial {
        SerialsApart(s, manager, id, m, x);
      }
    }
  }

  /** DATA for a stream that is not live changes nothing. */
  lemma IgnoredData(s: Server, step: Step)
    requires Enabled(s, step) && step.ReceiveData? && !Live(s, step.manager, step.id)
    ensures Apply(s, step) == s
  {
    assert s.managers[step.manager := s.managers[step.manager]] == s.managers;
  }

  lemma ServerWrites(w: World, s: Step)
    requires WritesOk(w.server, w.pool.submitted) && OwnershipOk(w.server) && CanStep(w, ByServer(s))
    ensures WritesOk(Next(w, ByServer(s)).server, Next(w, ByServer(s)).pool.submitted)
  {
    KnownSerials(w.server);
    if s.ReceiveData? {
      if Live(w.server, s.manager, s.id) {
        TakenWrites(w, s.manager, s.id, s.payload);
      } else {
        IgnoredData(w.server, s);
      }
    } else if s.ConnectInserts? {
      InsertedWrites(w.server, w.pool.submitted);
    } else {
      OtherTaken(w.server, s);
    }
  }

  lemma InsertedWrites(s: Server, submitted: seq<Pool.Task>)
    requires WritesOk(s, submitted) && Enabled(s, ConnectInserts)
    ensures WritesOk(Apply(s, ConnectInserts), submitted)
  {
    var t := Apply(s, ConnectInserts);
    forall m: nat, x: u32 | Live(t, m, x)
      ensures PoolHistory.WritesFor(submitted, At(t, m, x).serial) == At(t, m, x).accepted
    {
      if m != s.loop.manager || x != s.loop.id {
        assert Live(s, m, x) && At(t, m, x) == At(s, m, x);
      }
    }
  }

  lemma KeptNames(s: Server, t: Server, submitted: seq<Pool.Task>)
    requires NamesOk(s, submitted) && SameTaken(s, t) && s.nextSerial <= t.nextSerial
    requires t.loop.Inserting? ==> t.loop == s.loop || t.loop.serial >= s.nextSerial
    ensures NamesOk(t, submitted)
  {
    forall i | 0 <= i < |submitted| && submitted[i].Write?
      ensures NameOk(t, submitted[i])
    {
      assert NameOk(s, submitted[i]);
    }
  }

  lemma InsertedNames(s: Server, submitted: seq<Pool.Task>)
    requires NamesOk(s, submitted) && Enabled(s, ConnectInserts)
    ensures NamesOk(Apply(s, ConnectInserts), submitted)
  {
    var t := Apply(s, ConnectInserts);
    forall i | 0 <= i < |submitted| && submitted[i].Write?
      ensures NameOk(t, submitted[i])
    {
      assert NameOk(s, submitted[i]);
      assert forall m: nat, x: u32 :: Live(t, m, x) && (m != s.loop.manager || x != s.loop.id) ==>
          Live(s, m, x) && At(t, m, x) == At(s, m, x);
    }
  }

  lemma TakenNames(w: World, manager: nat, id: u32, payload: seq<byte>)
    requires NamesOk(w.server, w.pool.submitted) && OwnershipOk(w.server)
    requires Enabled(w.server, ReceiveData(manager, id, payload)) && Live(w.server, manager, id)
    ensures NamesOk(Apply(w.server, ReceiveData(manager, id, payload)), Submitted(w, manager, id, payload).submitted)
  {
    var s, t := w.server, Apply(w.server, ReceiveData(manager, id, payload));
    MildStep(s, ReceiveData(manager, id, payload));
    KnownSerials(s);
    var tasks := Submitted(w, manager, id, payload).submitted;
    forall i | 0 <= i < |tasks| && tasks[i].Write?
      ensures NameOk(t, tasks[i])
    {
      if i < |w.pool.submitted| {
        assert NameOk(s, w.pool.submitted[i]);
      } else {
        forall m: nat, x: u32 | Live(t, m, x) && At(t, m, x).serial == tasks[i].serial
          ensures tasks[i].socket == m && tasks[i].stream == x
        {
          SerialsApart(s, manager, id, m, x);
        }
      }
    }
  }

  lemma ServerNames(w: World, s: Step)
    requires NamesOk(w.server, w.pool.submitted) && OwnershipOk(w.server) && CanStep(w, ByServer(s))
    ensures NamesOk(Next(w, ByServer(s)).server, Next(w, ByServer(s)).pool.submitted)
  {
    if s.ReceiveData? {
      if Live(w.server, s.manager, s.id) {
        TakenNames(w, s.manager, s.id, s.payload);
      } else {
        IgnoredData(w.server, s);
      }
    } else if s.ConnectInserts? {
      InsertedNames(w.server, w.pool.submitted);
    } else {
      OtherTaken(w.server, s);
      KeptNames(w.server, Apply(w.server, s), w.pool.submitted);
    }
  }

  /** A DATA step changes the pool just as `HandleData` of the websocket's object does. */
  lemma HandleDataIsStep(w: World, manager: nat, id: u32, payload: seq<byte>, socket: ManagerClass.WebSocketManager)
    requires CanStep(w, ByServer(ReceiveData(manager, id, payload)))
    requires socket.socketId == manager && socket.View() == w.server.managers[manager]
    ensures socket.Submits(w.pool, Next(w, ByServer(ReceiveData(manager, id, payload))).pool, id, payload)
  {
  }

  lemma PoolSteps(p: Pool.State, step: Pool.Step)
    requires PoolOk(p) && Pool.Enabled(p, step) && !step.Purge?
    ensures PoolOk(Pool.Apply(p, step))
    ensures !step.Submit? ==> Pool.Apply(p, step).submitted == p.submitted
  {
    PoolInvariants.InvStep(p, step);
    PoolHistory.HistoryStep(p, step);
    PoolWaiting.WaiterStep(p, step);
  }

  lemma ServerPool(w: World, s: Step)
    requires PoolOk(w.pool) && CanStep(w, ByServer(s))
    ensures PoolOk(Next(w, ByServer(s)).pool)
  {
    if s.ReceiveData? && Live(w.server, s.manager, s.id) {
      PoolSteps(w.pool, Pool.Submit(Pool.Write(s.manager, s.id, s.payload, At(w.server, s.manager, s.id).serial)));
    }
  }

  // --- All together ------------------------------------------------------------------------

  lemma ServerKeeps(w: World, s: Step)
    requires WorldInv(w) && CanStep(w, ByServer(s))
    ensures WorldInv(Next(w, ByServer(s)))
  {
    ClientsAreFresh(w, s);
    ServerLinks(w, s);
    ServerHandling(w, s);
    QueueStep(w.server, s);
    OwnershipStep(w.server, s);
    LeakStep(w.server, s);
    RecordsStep(w.server, s);
    ServerWrites(w, s);
    ServerNames(w, s);
    ServerPool(w, s);
    WatchedStep(w.server, s);
  }

  lemma WorldKeeps(w: World, step: WorldStep)
    requires WorldInv(w) && CanStep(w, step)
    ensures WorldInv(Next(w, step))
  {
    match step
    case ByServer(s) => ServerKeeps(w, s);
    case ByClient(manager, e) => ClientLinks(w, manager, e);
    case DropsPacket(manager) => DropLinks(w, manager);
    case ByPool(p) => PoolSteps(w.pool, p);
  }

  // --- Main results ------------------------------------------------------------------------

  ghost predicate WorldRun(w: World, steps: seq<WorldStep>)
    decreases |steps|
  {
    steps != [] ==> CanStep(w, steps[0]) && WorldRun(Next(w, steps[0]), steps[1..])
  }

  ghost function WorldEnd(w: World, steps: seq<WorldStep>): World
    requires WorldRun(w, steps)
    decreases |steps|
  {
    if steps == [] then w else WorldEnd(Next(w, steps[0]), steps[1..])
  }

  /** Runs whose descriptor numbers are not recycled too early and whose bytes are not dropped. */
  ghost predicate CarefulWorld(w: World, steps: seq<WorldStep>)
    requires WorldRun(w, steps)
    decreases |steps|
  {
    steps != [] ==>
      && (steps[0].ByServer? ==> RecyclesCleanly(w.server, steps[0].step) && DropsNothing(w.server, steps[0].step))
      && CarefulWorld(Next(w, steps[0]), steps[1..])
  }

  /** Every byte that the server reads is where it should be, and every finished stream is in place. */
  ghost predicate AllDelivers(s: Server) {
    DeliveryOk(s) && PlacesOk(s)
  }

  lemma WorldDelivers(w: World, step: WorldStep)
    requires WorldInv(w) && AllDelivers(w.server) && CanStep(w, step)
    requires step.ByServer? ==> RecyclesCleanly(w.server, step.step) && DropsNothing(w.server, step.step)
    ensures AllDelivers(Next(w, step).server)
  {
    if step.ByServer? {
      ClientsAreFresh(w, step.step);
      LiveStreamsStep(w.server, step.step);
      PlacesStep(w.server, step.step);
    }
  }

  lemma {:induction false} WorldRunKeeps(w: World, steps: seq<WorldStep>)
    requires WorldInv(w) && WorldRun(w, steps)
    ensures WorldInv(WorldEnd(w, steps))
    ensures AllDelivers(w.server) && CarefulWorld(w, steps) ==> AllDelivers(WorldEnd(w, steps).server)
    decreases |steps|
  {
    if steps != [] {
      WorldKeeps(w, steps[0]);
      if AllDelivers(w.server) && CarefulWorld(w, steps) {
        WorldDelivers(w, steps[0]);
      }
      WorldRunKeeps(Next(w, steps[0]), steps[1..]);
    }
  }

  lemma NewServer()
    ensures QueueOk(Initial()) && RefreshOk(Initial()) && Base(Initial()) && RecordsOk(Initial())
    ensures Watched(Initial())
    ensures AllDelivers(Initial())
  {
    assert Pending(Initial()) == [];
  }

  lemma StartOk(numThreads: nat, hardware: nat)
    requires numThreads <= Pool.SIZE_MAX && hardware <= Pool.SIZE_MAX
    ensures WorldInv(Start(numThreads, hardware)) && AllDelivers(Start(numThreads, hardware).server)
  {
    NewServer();
    PoolHistory.InitialHistory(numThreads, hardware);
  }

  ghost predicate FromStart(w: World) {
    exists numThreads: nat, hardware: nat, steps ::
      && numThreads <= Pool.SIZE_MAX && hardware <= Pool.SIZE_MAX
      && WorldRun(Start(numThreads, hardware), steps) && w == WorldEnd(Start(numThreads, hardware), steps)
  }

  ghost predicate FromStartCarefully(w: World) {
    exists numThreads: nat, hardware: nat, steps ::
      && numThreads <= Pool.SIZE_MAX && hardware <= Pool.SIZE_MAX
      && WorldRun(Start(numThreads, hardware), steps) && CarefulWorld(Start(numThreads, hardware), steps)
      && w == WorldEnd(Start(numThreads, hardware), steps)
  }

  lemma FromStartOk(w: World)
    requires FromStart(w) || FromStartCarefully(w)
    ensures WorldInv(w)
    ensures FromStartCarefully(w) ==> AllDelivers(w.server)
  {
    if FromStartCarefully(w) {
      var numThreads: nat, hardware: nat, steps :|
        && numThreads <= Pool.SIZE_MAX && hardware <= Pool.SIZE_MAX
        && WorldRun(Start(numThreads, hardware), steps) && CarefulWorld(Start(numThreads, hardware), steps)
        && w == WorldEnd(Start(numThreads, hardware), steps);
      StartOk(numThreads, hardware);
      WorldRunKeeps(Start(numThreads, hardware), steps);
    } else {
      var numThreads: nat, hardware: nat, steps :|
        && numThreads <= Pool.SIZE_MAX && hardware <= Pool.SIZE_MAX
        && WorldRun(Start(numThreads, hardware), steps) && w == WorldEnd(Start(numThreads, hardware), steps);
      StartOk(numThreads, hardware);
      WorldRunKeeps(Start(numThreads, hardware), steps);
    }
  }

  /** Over any run of the whole system: on every websocket, every live TCP stream has its credit conserved
      between the two ends; every open descriptor has an owner, and is watched until its target ends; and
      `send_queue_len` is exact. */
  lemma SystemInvariant(w: World, manager: nat, id: u32)
    requires FromStart(w)
    ensures AllOwned(w.server) && w.server.sendQueueLen == |Pending(w.server)|
    ensures forall fd :: fd in w.server.fds ==> fd in w.server.polled || w.server.fds[fd] in w.server.eof
    ensures Live(w.server, manager, id) ==> manager in w.clients && id in w.clients[manager].open
    ensures Live(w.server, manager, id) && At(w.server, manager, id).kind == TCP ==>
              var client := w.clients[manager];
              && client.received <= |w.server.managers[manager].sent|
              && client.open[id].credit + DataInFlight(client.up, id)
                   + 127 * ContinuesInFlight(Down(LinkOf(w, manager)), id) == At(w.server, manager, id).buffer
  {
    FromStartOk(w);
    if Live(w.server, manager, id) {
      assert LinkGood(LinkOf(w, manager));
      assert StreamOk(LinkOf(w, manager), id);
    }
  }

  /** A packet of a client that obeys its credits never makes the server's unsigned credit wrap. */
  lemma CreditNeverWraps(w: World, manager: nat, id: u32, payload: seq<byte>, queueLen: nat)
    requires LinksOk(w) && TakesPacket(w, ReceiveData(manager, id, payload)) && Live(w.server, manager, id)
    requires At(w.server, manager, id).kind == TCP
    ensures 1 <= At(w.server, manager, id).buffer <= 127
    ensures Accepted(w.server.managers[manager], id, payload, queueLen).streams[id].buffer <= 127
  {
    DataFindsCredit(LinkOf(w, manager), id);
  }

  /** No packet waits for good: a loop at rest can take the next packet of any client. */
  lemma PacketsAreTaken(w: World, manager: nat, fd: nat) returns (step: WorldStep)
    requires LinksOk(w) && w.server.loop.Ready? && Front(w, manager)
    ensures CanStep(w, step)
    ensures var f := w.clients[manager].up[0];
            match f
            case Connect(id, kind) =>
              && step == ByServer(ConnectFails(manager, id))
              && (kind in {1, 2} && fd !in w.server.fds ==>
                    && CanStep(w, ByServer(ConnectOpens(manager, id, kind, fd)))
                    && CanStep(Next(w, ByServer(ConnectOpens(manager, id, kind, fd))), ByServer(ConnectInserts)))
            case DataUp(id, payload) => step == ByServer(ReceiveData(manager, id, payload))
            case Ignored => step == DropsPacket(manager)
  {
    step := match w.clients[manager].up[0]
      case Connect(id, _) => ByServer(ConnectFails(manager, id))
      case DataUp(id, payload) => ByServer(ReceiveData(manager, id, payload))
      case Ignored => DropsPacket(manager);
  }

  // --- Upstream: from the client to the pool's workers -------------------------------------

  /** What the client sent on a stream is, in this order, the writes that workers have started, the writes
      still queued, and the packets on their way to the server. */
  ghost predicate SentIsWritten(w: World, manager: nat, id: u32)
    requires Live(w.server, manager, id)
  {
    var p, serial := w.pool, At(w.server, manager, id).serial;
    && (forall i :: 0 <= i < |p.started| ==> p.started[i] < |p.submitted|)
    && (forall i :: 0 <= i < |p.tasks| ==> p.tasks[i] < |p.submitted|)
    && (forall i :: 0 <= i < |p.submitted| && p.submitted[i].Write? && p.submitted[i].serial == serial ==>
          p.submitted[i].socket == manager && p.submitted[i].stream == id)
    && manager in w.clients && id in w.clients[manager].open
    && PoolHistory.WritesFor(PoolHistory.TasksOf(p, p.started), serial)
         + PoolHistory.WritesFor(PoolHistory.TasksOf(p, p.tasks), serial)
         + PayloadsUp(w.clients[manager].up, id)
       == w.clients[manager].open[id].sends
  }

  /** Upstream delivery, over any run of clients, server and pool, with any number of workers: for every live
      stream the payloads of the writes started, those of the writes queued and those of the packets under
      way are, in this order, exactly the payloads that its client sent since it opened the stream; and each of
      the writes names this websocket and this stream. */
  lemma WritesStartInArrivalOrder(w: World, manager: nat, id: u32)
    requires FromStart(w) && Live(w.server, manager, id)
    ensures SentIsWritten(w, manager, id)
  {
    FromStartOk(w);
    var serial := At(w.server, manager, id).serial;
    PoolHistory.WritesStartInOrder(w.pool, serial);
    assert LinkGood(LinkOf(w, manager));
    assert StreamOk(LinkOf(w, manager), id);
    assert PoolHistory.WritesFor(w.pool.submitted, serial) == At(w.server, manager, id).accepted;
    assert forall i :: 0 <= i < |w.pool.submitted| && w.pool.submitted[i].Write? ==>
        NameOk(w.server, w.pool.submitted[i]);
  }

  // --- Upstream: every write comes to its end ----------------------------------------------

  /** In any world whose pool is not drained, the pool can go on by itself. */
  lemma PoolGoesOn(w: World) returns (step: WorldStep)
    requires FromStart(w) && !PoolProgress.Drained(w.pool)
    ensures step.ByPool? && PoolProgress.Internal(step.poolStep) && CanStep(w, step)
  {
    FromStartOk(w);
    PoolProgress.QuietIsDrained(w.pool);
    var p :| PoolProgress.Internal(p) && Pool.Enabled(w.pool, p);
    step := ByPool(p);
  }

  /** Worlds that differ by what the pool has done by itself. */
  ghost predicate ByItself(w: World, steps: seq<WorldStep>)
    requires WorldRun(w, steps)
    decreases |steps|
  {
    steps != [] ==>
      steps[0].ByPool? && PoolProgress.Internal(steps[0].poolStep) && ByItself(Next(w, steps[0]), steps[1..])
  }

  lemma {:induction false} PoolBound(w: World, steps: seq<WorldStep>)
    requires WorldInv(w) && WorldRun(w, steps) && ByItself(w, steps)
    ensures |steps| + PoolProgress.Rank(WorldEnd(w, steps).pool) <= PoolProgress.Rank(w.pool)
    ensures WorldEnd(w, steps).pool.submitted == w.pool.submitted && WorldInv(WorldEnd(w, steps))
    decreases |steps|
  {
    if steps != [] {
      PoolProgress.RankFalls(w.pool, steps[0].poolStep);
      PoolSteps(w.pool, steps[0].poolStep);
      WorldKeeps(w, steps[0]);
      PoolBound(Next(w, steps[0]), steps[1..]);
    }
  }

  /** Every write comes to its end: left to itself the pool stops within a bound, and where it can do no more,
      every write that was ever submitted is done. */
  lemma WritesComplete(w: World, steps: seq<WorldStep>)
    requires FromStart(w) && WorldRun(w, steps) && ByItself(w, steps)
    ensures |steps| <= PoolProgress.Rank(w.pool)
    ensures var p := WorldEnd(w, steps).pool;
            && (PoolProgress.Quiet(p) <==> PoolProgress.Drained(p))
            && (PoolProgress.Quiet(p) ==> forall id :: 0 <= id < |w.pool.submitted| ==> id in p.done)
  {
    FromStartOk(w);
    PoolBound(w, steps);
    PoolProgress.QuietIsOver(WorldEnd(w, steps).pool);
  }

  // --- Upstream with one worker: to the target ---------------------------------------------

  /** Runs in which every reset of the pool asks for one thread. */
  ghost predicate SoloWorld(w: World, steps: seq<WorldStep>)
    requires WorldRun(w, steps)
    decreases |steps|
  {
    steps != [] ==>
      && (steps[0].ByPool? ==> PoolHistory.SoloStep(w.pool, steps[0].poolStep))
      && SoloWorld(Next(w, steps[0]), steps[1..])
  }

  /** The one worker's tasks finish in the order in which they start. */
  ghost predicate SoloOrder(p: Pool.State) {
    PoolHistory.Solo(p) && p.started == p.done + PoolHistory.InHand(p)
  }

  lemma SoloWorldStep(w: World, step: WorldStep)
    requires PoolOk(w.pool) && SoloOrder(w.pool) && CanStep(w, step)
    requires step.ByPool? ==> PoolHistory.SoloStep(w.pool, step.poolStep)
    ensures SoloOrder(Next(w, step).pool)
  {
    match step
    case ByPool(p) => PoolHistory.SoloKept(w.pool, p);
    case ByServer(s) =>
      if s.ReceiveData? && Live(w.server, s.manager, s.id) {
        var task := Pool.Write(s.manager, s.id, s.payload, At(w.server, s.manager, s.id).serial);
        PoolHistory.SoloKept(w.pool, Pool.Submit(task));
      }
    case _ =>
  }

  lemma {:induction false} SoloWorldRun(w: World, steps: seq<WorldStep>)
    requires WorldInv(w) && SoloOrder(w.pool) && WorldRun(w, steps) && SoloWorld(w, steps)
    ensures SoloOrder(WorldEnd(w, steps).pool)
    decreases |steps|
  {
    if steps != [] {
      SoloWorldStep(w, steps[0]);
      WorldKeeps(w, steps[0]);
      SoloWorldRun(Next(w, steps[0]), steps[1..]);
    }
  }

  /** The finished writes for a stream are the first of the payloads that its client sent, in order. */
  ghost predicate WrittenInOrder(w: World, manager: nat, id: u32)
    requires Live(w.server, manager, id)
  {
    && (forall i :: 0 <= i < |w.pool.done| ==> w.pool.done[i] < |w.pool.submitted|)
    && manager in w.clients && id in w.clients[manager].open
    && PoolHistory.WritesFor(PoolHistory.TasksOf(w.pool, w.pool.done), At(w.server, manager, id).serial)
       <= w.clients[manager].open[id].sends
  }

  /** With one worker the writes also finish in the order of the packets: over any run of clients, server and
      pool in which the pool has one thread, and for every live stream, what has been written to its target
      is a beginning of what its client sent. */
  lemma WritesFinishInArrivalOrder(numThreads: nat, hardware: nat, steps: seq<WorldStep>, manager: nat, id: u32)
    requires numThreads <= Pool.SIZE_MAX && hardware <= Pool.SIZE_MAX
    requires Pool.DetermineThreadCount(numThreads, hardware) == 1
    requires WorldRun(Start(numThreads, hardware), steps) && SoloWorld(Start(numThreads, hardware), steps)
    requires Live(WorldEnd(Start(numThreads, hardware), steps).server, manager, id)
    ensures SoloOrder(WorldEnd(Start(numThreads, hardware), steps).pool)
    ensures WrittenInOrder(WorldEnd(Start(numThreads, hardware), steps), manager, id)
  {
    var w := WorldEnd(Start(numThreads, hardware), steps);
    StartOk(numThreads, hardware);
    SoloWorldRun(Start(numThreads, hardware), steps);
    assert FromStart(w);
    WritesStartInArrivalOrder(w, manager, id);
    DoneIsStarted(w.pool, At(w.server, manager, id).serial);
  }

  lemma DoneIsStarted(p: Pool.State, serial: nat)
    requires SoloOrder(p) && forall i :: 0 <= i < |p.started| ==> p.started[i] < |p.submitted|
    ensures forall i :: 0 <= i < |p.done| ==> p.done[i] < |p.submitted|
    ensures PoolHistory.WritesFor(PoolHistory.TasksOf(p, p.done), serial)
         <= PoolHistory.WritesFor(PoolHistory.TasksOf(p, p.started), serial)
  {
    var inHand := PoolHistory.InHand(p);
    assert forall i :: 0 <= i < |p.done| ==> p.done[i] == p.started[i];
    assert forall i :: 0 <= i < |inHand| ==> inHand[i] == p.started[|p.done| + i];
    var done, hand := PoolHistory.TasksOf(p, p.done), PoolHistory.TasksOf(p, inHand);
    assert PoolHistory.TasksOf(p, p.started) == done + hand;
    PoolHistory.WritesConcat(done, hand, serial);
  }

  // --- Upstream after the end of a stream --------------------------------------------------

  /** A stream that was opened and is no longer there. */
  ghost predicate Gone(s: Server, serial: nat) {
    && serial < s.nextSerial
    && (s.loop.Inserting? ==> s.loop.serial != serial)
    && forall manager: nat, id: u32 :: Live(s, manager, id) ==> At(s, manager, id).serial != serial
  }

  lemma GoneStep(w: World, step: WorldStep, serial: nat)
    requires WorldInv(w) && CanStep(w, step) && Gone(w.server, serial)
    ensures Gone(Next(w, step).server, serial)
    ensures PoolHistory.WritesFor(Next(w, step).pool.submitted, serial)
         == PoolHistory.WritesFor(w.pool.submitted, serial)
  {
    if step.ByServer? {
      GoneServer(w, step.step, serial);
    } else if step.ByPool? {
      PoolSteps(w.pool, step.poolStep);
    }
  }

  lemma GoneServer(w: World, s: Step, serial: nat)
    requires FreshManagers(w.server) && CanStep(w, ByServer(s)) && Gone(w.server, serial)
    ensures Gone(Next(w, ByServer(s)).server, serial)
    ensures PoolHistory.WritesFor(Next(w, ByServer(s)).pool.submitted, serial)
         == PoolHistory.WritesFor(w.pool.submitted, serial)
  {
    if s.ReceiveData? {
      GoneTaken(w, s, serial);
    } else if s.ConnectInserts? {
      GoneInserted(w.server, serial);
    } else {
      OtherTaken(w.server, s);
    }
  }

  lemma GoneInserted(s: Server, serial: nat)
    requires Enabled(s, ConnectInserts) && Gone(s, serial)
    ensures Gone(Apply(s, ConnectInserts), serial)
  {
    var t := Apply(s, ConnectInserts);
    assert forall m: nat, x: u32 :: Live(t, m, x) && (m != s.loop.manager || x != s.loop.id) ==>
             Live(s, m, x) && At(t, m, x) == At(s, m, x);
  }

  lemma GoneTaken(w: World, s: Step, serial: nat)
    requires CanStep(w, ByServer(s)) && Gone(w.server, serial) && s.ReceiveData?
    ensures Gone(Next(w, ByServer(s)).server, serial)
    ensures PoolHistory.WritesFor(Next(w, ByServer(s)).pool.submitted, serial)
         == PoolHistory.WritesFor(w.pool.submitted, serial)
  {
    if Live(w.server, s.manager, s.id) {
      MildStep(w.server, s);
      var task := Pool.Write(s.manager, s.id, s.payload, At(w.server, s.manager, s.id).serial);
      PoolHistory.OneMoreWrite(w.pool.submitted, task, serial);
      assert PoolHistory.WritesFor(w.pool.submitted, serial) + [] == PoolHistory.WritesFor(w.pool.submitted, serial);
    } else {
      IgnoredData(w.server, s);
    }
  }

  /** And once a stream is gone, no run submits another write for it. */
  lemma {:induction false} GoneForGood(w: World, steps: seq<WorldStep>, serial: nat)
    requires WorldInv(w) && WorldRun(w, steps) && Gone(w.server, serial)
    ensures Gone(WorldEnd(w, steps).server, serial)
    ensures PoolHistory.WritesFor(WorldEnd(w, steps).pool.submitted, serial)
         == PoolHistory.WritesFor(w.pool.submitted, serial)
    decreases |steps|
  {
    if steps != [] {
      GoneStep(w, steps[0], serial);
      WorldKeeps(w, steps[0]);
      GoneForGood(Next(w, steps[0]), steps[1..], serial);
    }
  }

  // --- Downstream: from the target to the client -------------------------------------------

  /** The frames that a client has received out of those in places `from` to `to` of its websocket. */
  function Got(c: Client, from: nat, to: nat): seq<Frame>
    requires from <= to
  {
    if c.received <= from then [] else if c.received <= to then c.inbox[from..] else c.inbox[from..to]
  }

  /** A live stream, at the client's end: the bytes it has received, those on their way and those deferred
      are the bytes read from the target. */
  ghost predicate ReceivedInOrder(w: World, manager: nat, id: u32)
    requires Live(w.server, manager, id)
  {
    && manager in w.clients
    && var sent, stream, c := w.server.managers[manager].sent, At(w.server, manager, id), w.clients[manager];
    && c.received <= |sent| && stream.openedAt <= |sent|
    && var cut := if stream.openedAt <= c.received then c.received else stream.openedAt;
    Payload(Got(c, stream.openedAt, |sent|), id) + Payload(sent[cut..], id) + Named(Pending(w.server), stream.fd)
    == Bytes(w.server, stream.serial)
  }

  /** A finished stream, at the client's end: the client has received a beginning of what was read; and once
      it has received all frames up to the stream's end, it has all of it, then one CLOSE, and no other. */
  ghost predicate ReceivedWhole(w: World, serial: nat)
    requires serial in w.server.finished
  {
    var f := w.server.finished[serial];
    f.manager in w.server.managers ==>
      && f.manager in w.clients
      && var c, end := w.clients[f.manager], f.openedAt + |f.frames|;
      && Payload(Got(c, f.openedAt, end), f.id) <= Bytes(w.server, serial)
      && (c.received >= end ==>
            Got(c, f.openedAt, end) == f.frames && SentWhole(f, Bytes(w.server, serial)))
  }

  /** The clients' side of delivery, after any careful run, for every live and every finished stream. */
  lemma EndToEnd(w: World)
    requires FromStartCarefully(w)
    ensures forall manager: nat, id: u32 :: Live(w.server, manager, id) ==> ReceivedInOrder(w, manager, id)
    ensures forall serial :: serial in w.server.finished ==> ReceivedWhole(w, serial)
  {
    FromStartOk(w);
    forall manager: nat, id: u32 | Live(w.server, manager, id)
      ensures ReceivedInOrder(w, manager, id)
    {
      LiveReceived(w, manager, id);
    }
    forall serial | serial in w.server.finished
      ensures ReceivedWhole(w, serial)
    {
      assert WellFinished(w.server, serial) && PlaceOk(w.server, serial);
      FinishedSent(w.server, serial);
      FinishedReceived(w, serial);
    }
  }

  lemma GotIs(c: Client, sent: seq<Frame>, from: nat, to: nat)
    requires c.inbox <= sent && from <= to <= |sent|
    ensures var cut := if c.received <= from then from else if c.received <= to then c.received else to;
            Got(c, from, to) == sent[from..cut]
  {
  }

  lemma InboxOf(w: World, manager: nat)
    requires LinksOk(w) && manager in w.clients
    ensures manager in w.server.managers && w.clients[manager].inbox <= w.server.managers[manager].sent
  {
    assert LinkGood(LinkOf(w, manager));
  }

  lemma LiveReceived(w: World, manager: nat, id: u32)
    requires LinksOk(w) && BytesOk(w.server) && Live(w.server, manager, id)
    ensures ReceivedInOrder(w, manager, id)
  {
    InboxOf(w, manager);
    assert StreamDelivers(w.server, manager, id);
    var sent, at, c := w.server.managers[manager].sent, At(w.server, manager, id).openedAt, w.clients[manager];
    var cut := if at <= c.received then c.received else at;
    GotIs(c, sent, at, |sent|);
    PayloadSplit(sent, at, cut, id);
  }

  lemma PayloadSplit(sent: seq<Frame>, at: nat, cut: nat, id: u32)
    requires at <= cut <= |sent|
    ensures Payload(sent[at..cut], id) + Payload(sent[cut..], id) == Payload(sent[at..], id)
  {
    assert sent[at..] == sent[at..cut] + sent[cut..];
    PayloadConcat(sent[at..cut], sent[cut..], id);
  }

  lemma PayloadPrefix(frames: seq<Frame>, k: nat, id: u32)
    requires k <= |frames|
    ensures Payload(frames[..k], id) <= Payload(frames, id)
  {
    assert frames == frames[..k] + frames[k..];
    PayloadConcat(frames[..k], frames[k..], id);
  }

  lemma FinishedReceived(w: World, serial: nat)
    requires LinksOk(w) && serial in w.server.finished
    requires PlaceOk(w.server, serial) && SentWhole(w.server.finished[serial], Bytes(w.server, serial))
    ensures ReceivedWhole(w, serial)
  {
    var f := w.server.finished[serial];
    if f.manager in w.server.managers {
      InboxOf(w, f.manager);
      GotFinished(w.clients[f.manager], w.server.managers[f.manager].sent, f);
    }
  }

  lemma GotFinished(c: Client, sent: seq<Frame>, f: Finished)
    requires c.inbox <= sent && f.openedAt + |f.frames| <= |sent|
    requires sent[f.openedAt..f.openedAt + |f.frames|] == f.frames
    ensures var end := f.openedAt + |f.frames|;
            && Payload(Got(c, f.openedAt, end), f.id) <= Payload(f.frames, f.id)
            && (c.received >= end ==> Got(c, f.openedAt, end) == f.frames)
  {
    var end := f.openedAt + |f.frames|;
    var got := Got(c, f.openedAt, end);
    GotIs(c, sent, f.openedAt, end);
    assert got == f.frames[..|got|];
    PayloadPrefix(f.frames, |got|, f.id);
  }
}
