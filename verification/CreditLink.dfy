/**
 One websocket's credit protocol: the server's streams, a client that obeys Wisp version 1 flow control,
 and a FIFO channel each way. The channel down to the client is what the server sent and the client has
 not received; the rest of the server appears through the operations it performs on these streams.
 */
module CreditLink {
  import opened Packets
  import opened WispManager
  import opened Wrappers

  /** What the client sends. `Ignored` stands for CLOSE, INFO and unknown packets, which the server drops. */
  datatype UpFrame = Connect(id: u32, kind: byte) | DataUp(id: u32, payload: seq<byte>) | Ignored

  /** History: `sends` are the payloads sent on the stream since it was opened. */
  datatype ClientStream = ClientStream(kind: byte, credit: u32, sends: seq<seq<byte>>)

  /** `allowance` is the credit for new streams, once announced. A stream's id stays in `open` until the
      server's CLOSE arrives, so ids are fresh while live. History: `inbox` are the frames received. */
  datatype Client = Client(
    allowance: Option<u32>,
    open: map<u32, ClientStream>,
    inbox: seq<Frame>,
    up: seq<UpFrame>)
  {
    const received: nat := |inbox|
  }

  datatype Link = Link(client: Client, manager: Manager)

  datatype Event =
    | ClientConnect(id: u32, kind: byte)
    | ClientData(id: u32, payload: seq<byte>)
    | ClientIgnored
    | ClientReceive
    | ServerOpens(fd: nat, serial: nat)
    | ServerRefuses
    | ServerData(queueLen: nat)
    | ServerIgnores
    | ServerRefresh(queueLen: nat, order: seq<u32>)
    | ServerDrain(queueLen: nat, order: seq<u32>)
    | ServerDelivers(streamId: u32, payload: seq<byte>, status: SendStatus)
    | ServerCloses(streamId: u32)

  // --- Steps -------------------------------------------------------------------------------

  predicate Arrived(c: Client, isConnect: bool) {
    c.up != [] && (if isConnect then c.up[0].Connect? else c.up[0].DataUp?)
  }

  function Popped(c: Client): Client
    requires c.up != []
  {
    c.(up := c.up[1..])
  }

  predicate MaySend(c: Client, id: u32) {
    id in c.open && (c.open[id].kind == UDP || c.open[id].credit > 0)
  }

  function SendsData(c: Client, id: u32, payload: seq<byte>): Client
    requires MaySend(c, id)
  {
    var s := c.open[id].(sends := c.open[id].sends + [payload]);
    c.(open := c.open[id := if s.kind == UDP then s else s.(credit := s.credit - 1)],
       up := c.up + [DataUp(id, payload)])
  }

  function ReceivesFrame(c: Client, f: Frame): Client {
    var c := c.(inbox := c.inbox + [f]);
    match f
    case Continue(id, n) =>
      if id == 0 then c.(allowance := Some(n))
      else if id in c.open then c.(open := c.open[id := c.open[id].(credit := n)])
      else c
    case Close(id, _) => c.(open := c.open - {id})
    case _ => c
  }

  ghost predicate Possible(l: Link, e: Event) {
    match e
    case ClientConnect(id, _) => l.client.allowance.Some? && id != 0 && id !in l.client.open
    case ClientData(id, _) => MaySend(l.client, id)
    case ClientIgnored => true
    case ClientReceive => l.client.received < |l.manager.sent|
    case ServerOpens(_, _) => Arrived(l.client, true) && l.client.up[0].kind in {TCP, UDP}
    case ServerRefuses => Arrived(l.client, true)
    case ServerData(_) => Arrived(l.client, false)
    case ServerIgnores => l.client.up != [] && l.client.up[0].Ignored?
    case ServerRefresh(_, order) => Enumerates(order, Zeros(l.manager))
    case ServerDrain(_, order) => Enumerates(order, Zeros(l.manager))
    case ServerDelivers(id, _, _) => id in l.manager.streams
    case ServerCloses(id) => id in l.manager.streams
  }

  function After(l: Link, e: Event): Link
    requires Possible(l, e)
  {
    var c, m := l.client, l.manager;
    match e
    case ClientConnect(id, kind) =>
      l.(client := c.(open := c.open[id := ClientStream(kind, c.allowance.value, [])],
                      up := c.up + [Connect(id, kind)]))
    case ClientData(id, payload) => l.(client := SendsData(c, id, payload))
    case ClientIgnored => l.(client := c.(up := c.up + [Ignored]))
    case ClientReceive => l.(client := ReceivesFrame(c, m.sent[c.received]))
    case ServerOpens(fd, serial) => Link(Popped(c), Opened(m, c.up[0].id, c.up[0].kind, fd, serial))
    case ServerRefuses => Link(Popped(c), Refused(m, c.up[0].id))
    case ServerData(queueLen) => Link(Popped(c), Accepted(m, c.up[0].id, c.up[0].payload, queueLen))
    case ServerIgnores => l.(client := Popped(c))
    case ServerRefresh(queueLen, order) => l.(manager := Refreshed(m, queueLen, order))
    case ServerDrain(queueLen, order) => l.(manager := Drained(m, queueLen, order))
    case ServerDelivers(id, payload, status) => l.(manager := Delivered(m, id, payload, status))
    case ServerCloses(id) => l.(manager := StreamClosed(m, id))
  }

  function NewLink(): Link {
    Link(Client(None, map[], [], []), Created())
  }

  // --- The invariant -----------------------------------------------------------------------

  function Down(l: Link): seq<Frame>
    requires l.client.received <= |l.manager.sent|
  {
    l.manager.sent[l.client.received..]
  }

  ghost predicate ConnectUnderWay(up: seq<UpFrame>, id: u32) {
    exists i :: 0 <= i < |up| && up[i].Connect? && up[i].id == id
  }

  predicate IsData(f: UpFrame, id: u32) {
    f.DataUp? && f.id == id
  }

  /** Payloads of the DATA packets for the newest opening of a stream: those behind its last CONNECT. */
  function PayloadsUp(up: seq<UpFrame>, id: u32): seq<seq<byte>> {
    if up == [] then []
    else
      var last := up[|up| - 1];
      if last.Connect? && last.id == id then []
      else PayloadsUp(up[..|up| - 1], id) + if IsData(last, id) then [last.payload] else []
  }

  function DataInFlight(up: seq<UpFrame>, id: u32): nat {
    |PayloadsUp(up, id)|
  }

  function ContinuesInFlight(down: seq<Frame>, id: u32): nat {
    multiset(down)[Continue(id, BUFFER_COUNT)]
  }

  function ClosesInFlight(down: seq<Frame>, id: u32): nat {
    multiset(down)[Close(id, 0x02)] + multiset(down)[Close(id, 0x41)]
  }

  /** All frames of a server: full refills, the two close reasons, no CONTINUE behind a CLOSE. */
  ghost predicate FramesOk(l: Link)
    requires l.client.received <= |l.manager.sent|
  {
    var down := Down(l);
    && (forall i :: 0 <= i < |down| && down[i].Continue? ==> down[i].remaining == BUFFER_COUNT)
    && (forall i :: 0 <= i < |down| && down[i].Close? ==> down[i].reason in {0x02, 0x41})
    && (forall i, j :: 0 <= i < j < |down| && down[i].Close? ==> down[j] != Continue(down[i].id, BUFFER_COUNT))
  }

  ghost predicate ConnectsOk(c: Client) {
    && 0 !in c.open
    && (forall i :: 0 <= i < |c.up| && c.up[i].Connect? ==>
          c.up[i].id in c.open && c.open[c.up[i].id].kind == c.up[i].kind)
    && (forall i, j :: 0 <= i < j < |c.up| && c.up[i].Connect? && c.up[j].Connect? ==> c.up[i].id != c.up[j].id)
    && (c.allowance.Some? ==> c.allowance.value == BUFFER_COUNT)
  }

  /** The state of one stream, seen from both ends and the channels between them. */
  ghost predicate StreamOk(l: Link, id: u32)
    requires l.client.received <= |l.manager.sent|
  {
    var c, m, down := l.client, l.manager, Down(l);
    if id !in c.open then
      id !in m.streams && ContinuesInFlight(down, id) == 0 && ClosesInFlight(down, id) == 0
    else if ConnectUnderWay(c.up, id) then
      && id !in m.streams && ContinuesInFlight(down, id) == 0 && ClosesInFlight(down, id) == 0
      && c.open[id].sends == PayloadsUp(c.up, id)
      && (c.open[id].kind != UDP ==> c.open[id].credit + DataInFlight(c.up, id) == BUFFER_COUNT)
    else if id in m.streams then
      && c.open[id].sends == m.streams[id].accepted + PayloadsUp(c.up, id)
      && ClosesInFlight(down, id) == 0
      && c.open[id].kind == m.streams[id].kind
      && (m.streams[id].kind == TCP ==> CreditOk(l, id))
      && (m.streams[id].kind == UDP ==> ContinuesInFlight(down, id) == 0)
    else
      ClosesInFlight(down, id) == 1
  }

  /** Where the credit of a live TCP stream is: with the client, in DATA packets on their way up, or in
      one CONTINUE on its way down. */
  ghost predicate CreditOk(l: Link, id: u32)
    requires l.client.received <= |l.manager.sent| && id in l.client.open && id in l.manager.streams
  {
    var credit, data := l.client.open[id].credit, DataInFlight(l.client.up, id);
    var continues := ContinuesInFlight(Down(l), id);
    && credit + data + BUFFER_COUNT * continues == l.manager.streams[id].buffer
    && (continues == 0 || (continues == 1 && credit == 0 && data == 0))
  }

  ghost predicate LinkInv(l: Link) {
    && l.client.received <= |l.manager.sent|
    && FramesOk(l)
    && ConnectsOk(l.client)
    && Ledger(l.manager)
    && (forall id: u32 :: id != 0 ==> StreamOk(l, id))
    && 0 !in l.manager.streams
  }

  // --- Lemmas about the channels -----------------------------------------------------------

  lemma PopConnect(up: seq<UpFrame>, id: u32)
    requires up != []
    ensures ConnectUnderWay(up, id) <==> (up[0].Connect? && up[0].id == id) || ConnectUnderWay(up[1..], id)
  {
    if ConnectUnderWay(up, id) {
      var i :| 0 <= i < |up| && up[i].Connect? && up[i].id == id;
      if i > 0 {
        assert up[1..][i - 1] == up[i];
      }
    }
    if ConnectUnderWay(up[1..], id) {
      var i :| 0 <= i < |up[1..]| && up[1..][i].Connect? && up[1..][i].id == id;
      assert up[i + 1] == up[1..][i];
    }
  }

  lemma PushConnect(up: seq<UpFrame>, f: UpFrame, id: u32)
    ensures ConnectUnderWay(up + [f], id) <==> (f.Connect? && f.id == id) || ConnectUnderWay(up, id)
    ensures PayloadsUp(up + [f], id) ==
            if f.Connect? && f.id == id then [] else PayloadsUp(up, id) + if IsData(f, id) then [f.payload] else []
  {
    assert (up + [f])[..|up|] == up;
    if ConnectUnderWay(up, id) {
      var i :| 0 <= i < |up| && up[i].Connect? && up[i].id == id;
      assert (up + [f])[i] == up[i];
    }
    if f.Connect? && f.id == id {
      assert (up + [f])[|up|] == f;
    }
  }

  /** Taking a packet out at the front uncounts it unless a CONNECT behind it starts the stream anew. */
  lemma {:induction false} PopData(up: seq<UpFrame>, id: u32)
    requires up != []
    ensures PayloadsUp(up, id) == FrontPayload(up, id) + PayloadsUp(up[1..], id)
  {
    var n := |up| - 1;
    if n == 0 {
      assert up[..0] == [] && up[1..] == [];
    } else {
      var front := up[..n];
      PopData(front, id);
      assert up == front + [up[n]];
      assert up[1..] == front[1..] + [up[n]];
      PushConnect(front[1..], up[n], id);
      if !(up[n].Connect? && up[n].id == id) {
        var last := if IsData(up[n], id) then [up[n].payload] else [];
        assert FrontPayload(up, id) == FrontPayload(front, id);
        assert (FrontPayload(front, id) + PayloadsUp(front[1..], id)) + last
            == FrontPayload(front, id) + (PayloadsUp(front[1..], id) + last);
      }
    }
  }

  /** The payload in front, if it belongs to the newest opening of the stream. */
  ghost function FrontPayload(up: seq<UpFrame>, id: u32): seq<seq<byte>>
    requires up != []
  {
    if IsData(up[0], id) && !ConnectUnderWay(up[1..], id) then [up[0].payload] else []
  }

  /** Frames appended to what the server sent appear at the end of the channel. */
  lemma DownGrows(l: Link, m: Manager, frames: seq<Frame>)
    requires l.client.received <= |l.manager.sent| && m.sent == l.manager.sent + frames
    ensures Down(Link(l.client, m)) == Down(l) + frames
  {
  }

  // --- Preservation ------------------------------------------------------------------------

  /** A stream whose two ends and channels did not change is as it was. */
  lemma Untouched(l: Link, n: Link, id: u32)
    requires l.client.received <= |l.manager.sent| && StreamOk(l, id)
    requires n.client.received <= |n.manager.sent|
    requires id in n.client.open <==> id in l.client.open
    requires id in l.client.open ==> n.client.open[id] == l.client.open[id]
    requires id in n.manager.streams <==> id in l.manager.streams
    requires id in l.manager.streams ==>
               && n.manager.streams[id].kind == l.manager.streams[id].kind
               && n.manager.streams[id].buffer == l.manager.streams[id].buffer
               && n.manager.streams[id].accepted == l.manager.streams[id].accepted
    requires ConnectUnderWay(n.client.up, id) == ConnectUnderWay(l.client.up, id)
    requires id in l.client.open && (ConnectUnderWay(l.client.up, id) || id in l.manager.streams) ==>
               PayloadsUp(n.client.up, id) == PayloadsUp(l.client.up, id)
    requires ContinuesInFlight(Down(n), id) == ContinuesInFlight(Down(l), id)
    requires ClosesInFlight(Down(n), id) == ClosesInFlight(Down(l), id)
    ensures StreamOk(n, id)
  {
  }

  lemma ClientConnectKeeps(l: Link, id: u32, kind: byte)
    requires LinkInv(l) && Possible(l, ClientConnect(id, kind))
    ensures LinkInv(After(l, ClientConnect(id, kind)))
  {
    var n := After(l, ClientConnect(id, kind));
    forall x: u32 | x != 0
      ensures StreamOk(n, x)
    {
      PushConnect(l.client.up, Connect(id, kind), x);
      if x != id {
        Untouched(l, n, x);
      } else {
        assert StreamOk(l, id);
      }
    }
  }

  lemma ClientDataStream(l: Link, id: u32, payload: seq<byte>, x: u32)
    requires l.client.received <= |l.manager.sent| && StreamOk(l, x)
    requires Possible(l, ClientData(id, payload))
    ensures StreamOk(After(l, ClientData(id, payload)), x)
  {
    var n := After(l, ClientData(id, payload));
    PushConnect(l.client.up, DataUp(id, payload), x);
    assert Down(n) == Down(l);
    if x != id {
      Untouched(l, n, x);
    } else if id in l.manager.streams {
      var sends := l.manager.streams[id].accepted;
      assert (sends + PayloadsUp(l.client.up, id)) + [payload] == sends + (PayloadsUp(l.client.up, id) + [payload]);
    }
  }

  lemma ClientDataKeeps(l: Link, id: u32, payload: seq<byte>)
    requires LinkInv(l) && Possible(l, ClientData(id, payload))
    ensures LinkInv(After(l, ClientData(id, payload)))
  {
    forall x: u32 | x != 0
      ensures StreamOk(After(l, ClientData(id, payload)), x)
    {
      ClientDataStream(l, id, payload, x);
    }
  }

  lemma ClientIgnoredKeeps(l: Link)
    requires LinkInv(l)
    ensures LinkInv(After(l, ClientIgnored))
  {
    var n := After(l, ClientIgnored);
    forall x: u32 | x != 0
      ensures StreamOk(n, x)
    {
      PushConnect(l.client.up, Ignored, x);
      Untouched(l, n, x);
    }
  }

  lemma DownPops(l: Link, n: Link)
    requires l.client.received < |l.manager.sent|
    requires n.client.received == l.client.received + 1 && n.manager == l.manager
    ensures Down(l) == [l.manager.sent[l.client.received]] + Down(n)
    ensures forall f ::
              multiset(Down(l))[f] == multiset(Down(n))[f] + if f == l.manager.sent[l.client.received] then 1 else 0
  {
    assert Down(l) == [l.manager.sent[l.client.received]] + Down(n);
  }

  lemma ReceiveFrames(l: Link)
    requires LinkInv(l) && Possible(l, ClientReceive)
    ensures FramesOk(After(l, ClientReceive))
  {
    var n := After(l, ClientReceive);
    assert forall i :: 0 <= i < |Down(n)| ==> Down(n)[i] == Down(l)[i + 1];
  }

  /** The CONTINUE that arrives is the only one for its stream, whose client has no credit. */
  lemma ContinueStream(l: Link, id: u32)
    requires l.client.received < |l.manager.sent| && StreamOk(l, id)
    requires l.manager.sent[l.client.received] == Continue(id, BUFFER_COUNT) && id != 0
    ensures StreamOk(After(l, ClientReceive), id)
  {
    DownPops(l, After(l, ClientReceive));
  }

  lemma ContinueSparesOthers(l: Link, id: u32, x: u32)
    requires l.client.received < |l.manager.sent| && StreamOk(l, x)
    requires l.manager.sent[l.client.received] == Continue(id, BUFFER_COUNT) && x != id
    ensures StreamOk(After(l, ClientReceive), x)
  {
    DownPops(l, After(l, ClientReceive));
    Untouched(l, After(l, ClientReceive), x);
  }

  lemma ReceiveContinue(l: Link)
    requires LinkInv(l) && Possible(l, ClientReceive) && l.manager.sent[l.client.received].Continue?
    ensures LinkInv(After(l, ClientReceive))
  {
    var f := l.manager.sent[l.client.received];
    ReceiveFrames(l);
    assert Down(l)[0] == f && f == Continue(f.id, BUFFER_COUNT);
    forall x: u32 | x != 0
      ensures StreamOk(After(l, ClientReceive), x)
    {
      if x == f.id {
        ContinueStream(l, x);
      } else {
        ContinueSparesOthers(l, f.id, x);
      }
    }
  }

  /** The CLOSE that arrives ends a stream that is open here, gone there and has no CONNECT under way. */
  lemma CloseArrives(l: Link)
    requires LinkInv(l) && Possible(l, ClientReceive) && l.manager.sent[l.client.received].Close?
    ensures var id := l.manager.sent[l.client.received].id;
            && !ConnectUnderWay(l.client.up, id)
            && id !in l.manager.streams
            && (id != 0 ==> ClosesInFlight(Down(l), id) == 1)
            && Continue(id, BUFFER_COUNT) !in Down(l)[1..]
  {
    var f := l.manager.sent[l.client.received];
    var down := Down(l);
    assert down[0] == f && f in multiset(down);
    assert forall j :: 1 <= j < |down| ==> down[j] != Continue(f.id, BUFFER_COUNT);
    if f.id != 0 {
      assert StreamOk(l, f.id);
    }
  }

  lemma ReceiveClose(l: Link)
    requires LinkInv(l) && Possible(l, ClientReceive) && l.manager.sent[l.client.received].Close?
    ensures LinkInv(After(l, ClientReceive))
  {
    var id := l.manager.sent[l.client.received].id;
    CloseArrives(l);
    ReceiveFrames(l);
    ClosedConnects(l.client, id);
    forall x: u32 | x != 0
      ensures StreamOk(After(l, ClientReceive), x)
    {
      if x == id {
        CloseEndsStream(l);
      } else {
        CloseSparesOthers(l, x);
      }
    }
  }

  lemma CloseEndsStream(l: Link)
    requires LinkInv(l) && Possible(l, ClientReceive) && l.manager.sent[l.client.received].Close?
    requires l.manager.sent[l.client.received].id != 0
    ensures StreamOk(After(l, ClientReceive), l.manager.sent[l.client.received].id)
  {
    var n := After(l, ClientReceive);
    CloseArrives(l);
    DownPops(l, n);
    assert Down(n) == Down(l)[1..];
  }

  lemma CloseSparesOthers(l: Link, x: u32)
    requires LinkInv(l) && Possible(l, ClientReceive) && l.manager.sent[l.client.received].Close?
    requires x != 0 && x != l.manager.sent[l.client.received].id
    ensures StreamOk(After(l, ClientReceive), x)
  {
    DownPops(l, After(l, ClientReceive));
    Untouched(l, After(l, ClientReceive), x);
  }

  lemma ClosedConnects(c: Client, id: u32)
    requires ConnectsOk(c) && !ConnectUnderWay(c.up, id)
    ensures ConnectsOk(c.(open := c.open - {id}))
  {
  }

  lemma OtherSparesAll(l: Link, x: u32)
    requires LinkInv(l) && Possible(l, ClientReceive) && x != 0
    requires !l.manager.sent[l.client.received].Continue? && !l.manager.sent[l.client.received].Close?
    ensures StreamOk(After(l, ClientReceive), x)
  {
    DownPops(l, After(l, ClientReceive));
    Untouched(l, After(l, ClientReceive), x);
  }

  lemma ReceiveOther(l: Link)
    requires LinkInv(l) && Possible(l, ClientReceive)
    requires !l.manager.sent[l.client.received].Continue? && !l.manager.sent[l.client.received].Close?
    ensures LinkInv(After(l, ClientReceive))
  {
    ReceiveFrames(l);
    forall x: u32 | x != 0
      ensures StreamOk(After(l, ClientReceive), x)
    {
      OtherSparesAll(l, x);
    }
  }

  lemma PopsOk(c: Client)
    requires ConnectsOk(c) && c.up != []
    ensures ConnectsOk(Popped(c))
    ensures c.up[0].Connect? ==> !ConnectUnderWay(c.up[1..], c.up[0].id)
  {
    assert forall i :: 0 <= i < |c.up[1..]| ==> c.up[1..][i] == c.up[i + 1];
  }

  lemma ServerOpensKeeps(l: Link, fd: nat, serial: nat)
    requires LinkInv(l) && Possible(l, ServerOpens(fd, serial))
    ensures LinkInv(After(l, ServerOpens(fd, serial)))
  {
    var n := After(l, ServerOpens(fd, serial));
    var id := l.client.up[0].id;
    PopsOk(l.client);
    assert ConnectUnderWay(l.client.up, id);
    assert n.manager.sent == l.manager.sent + [];
    OtherLedger(l.manager, n.manager, [], id);
    forall x: u32 | x != 0
      ensures StreamOk(n, x)
    {
      PopConnect(l.client.up, x);
      PopData(l.client.up, x);
      if x == id {
        assert StreamOk(l, x);
      } else {
        Untouched(l, n, x);
      }
    }
  }

  lemma RefusedStream(l: Link)
    requires l.client.received <= |l.manager.sent| && Possible(l, ServerRefuses)
    requires StreamOk(l, l.client.up[0].id) && l.client.up[0].id in l.client.open
    requires !ConnectUnderWay(l.client.up[1..], l.client.up[0].id)
    ensures StreamOk(After(l, ServerRefuses), l.client.up[0].id)
  {
    var id := l.client.up[0].id;
    DownGrows(l, Refused(l.manager, id), [Close(id, 0x41)]);
    PopConnect(l.client.up, id);
  }

  lemma RefusedSparesOthers(l: Link, x: u32)
    requires l.client.received <= |l.manager.sent| && StreamOk(l, x)
    requires Possible(l, ServerRefuses) && x != l.client.up[0].id
    ensures StreamOk(After(l, ServerRefuses), x)
  {
    var id := l.client.up[0].id;
    DownGrows(l, Refused(l.manager, id), [Close(id, 0x41)]);
    PopConnect(l.client.up, x);
    PopData(l.client.up, x);
    assert [] + PayloadsUp(l.client.up[1..], x) == PayloadsUp(l.client.up[1..], x);
    Untouched(l, After(l, ServerRefuses), x);
  }

  lemma ServerRefusesKeeps(l: Link)
    requires LinkInv(l) && Possible(l, ServerRefuses)
    ensures LinkInv(After(l, ServerRefuses))
  {
    var n := After(l, ServerRefuses);
    var id := l.client.up[0].id;
    PopsOk(l.client);
    DownGrows(l, n.manager, [Close(id, 0x41)]);
    OtherLedger(l.manager, n.manager, [Close(id, 0x41)], id);
    assert FramesOk(n) by {
      assert ConnectUnderWay(l.client.up, id);
      assert StreamOk(l, id);
    }
    forall x: u32 | x != 0
      ensures StreamOk(n, x)
    {
      if x == id {
        RefusedStream(l);
      } else {
        RefusedSparesOthers(l, x);
      }
    }
  }

  /** A DATA packet that arrives for a live TCP stream finds credit there: the decrement never wraps. */
  lemma DataFindsCredit(l: Link, id: u32)
    requires LinkInv(l) && l.client.up != [] && IsData(l.client.up[0], id) && id in l.manager.streams
    ensures !ConnectUnderWay(l.client.up, id) && id in l.client.open
    ensures PayloadsUp(l.client.up, id) == [l.client.up[0].payload] + PayloadsUp(l.client.up[1..], id)
    ensures l.manager.streams[id].kind == TCP ==> 1 <= l.manager.streams[id].buffer <= BUFFER_COUNT
    ensures l.manager.streams[id].kind == TCP ==> ContinuesInFlight(Down(l), id) == 0
  {
    assert StreamOk(l, id);
    PopConnect(l.client.up, id);
    PopData(l.client.up, id);
  }

  lemma ContinueFrames(l: Link, m: Manager, order: seq<u32>)
    requires l.client.received <= |l.manager.sent| && FramesOk(l)
    requires m.sent == l.manager.sent + Continues(order)
    requires forall i :: 0 <= i < |order| ==> ClosesInFlight(Down(l), order[i]) == 0
    ensures FramesOk(Link(l.client, m))
  {
    var n := Link(l.client, m);
    DownGrows(l, m, Continues(order));
    forall k | 0 <= k < |order|
      ensures Close(order[k], 0x02) !in Down(l) && Close(order[k], 0x41) !in Down(l)
    {
      assert ClosesInFlight(Down(l), order[k]) == 0;
    }
    assert forall i :: 0 <= i < |Down(l)| && Down(l)[i].Close? ==>
        Down(l)[i].reason in {0x02, 0x41} && Down(l)[i] in Down(l);
    assert forall k :: 0 <= k < |order| ==> Continues(order)[k] == Continue(order[k], BUFFER_COUNT);
  }

  /** A DATA packet adds at most one CONTINUE, for its own stream, and touches no other. */
  lemma AcceptedChange(m: Manager, id: u32, payload: seq<byte>, queueLen: nat) returns (frames: seq<Frame>)
    ensures var n := Accepted(m, id, payload, queueLen);
            && n.sent == m.sent + frames && (frames == [] || frames == [Continue(id, BUFFER_COUNT)])
            && (forall x :: x in n.streams <==> x in m.streams)
            && (forall x :: x in m.streams && x != id ==> n.streams[x] == m.streams[x])
            && (id !in m.streams ==> n == m)
            && (id in m.streams ==>
                  && n.streams[id].kind == m.streams[id].kind
                  && n.streams[id].accepted == m.streams[id].accepted + [payload]
                  && (m.streams[id].kind == UDP ==> frames == [])
                  && (m.streams[id].kind == TCP && 0 < m.streams[id].buffer <= BUFFER_COUNT ==>
                        && n.streams[id].buffer == m.streams[id].buffer - 1 + BUFFER_COUNT * |frames|
                        && (frames != [] ==> m.streams[id].buffer == 1)))
  {
    var n := Accepted(m, id, payload, queueLen);
    frames := if n.sent == m.sent then [] else [Continue(id, BUFFER_COUNT)];
    assert m.sent + [] == m.sent;
  }

  lemma SameDown(l: Link, n: Link)
    requires l.client.received <= |l.manager.sent| && FramesOk(l)
    requires n.client.received == l.client.received && n.manager.sent == l.manager.sent
    ensures FramesOk(n)
  {
    assert Down(n) == Down(l);
  }

  lemma ServerDataFrames(l: Link, queueLen: nat)
    requires LinkInv(l) && Possible(l, ServerData(queueLen))
    ensures FramesOk(After(l, ServerData(queueLen)))
  {
    var id, n := l.client.up[0].id, After(l, ServerData(queueLen));
    var frames := AcceptedChange(l.manager, id, l.client.up[0].payload, queueLen);
    if frames != [] {
      NoCloseUnderWay(l, id);
      OneContinue(l, n.manager, id);
      SameDown(Link(l.client, n.manager), n);
    } else {
      assert l.manager.sent + [] == l.manager.sent;
      SameDown(l, n);
    }
  }

  lemma NoCloseUnderWay(l: Link, id: u32)
    requires LinkInv(l) && Possible(l, ServerData(0)) && IsData(l.client.up[0], id) && id in l.manager.streams
    ensures ClosesInFlight(Down(l), id) == 0
  {
    DataFindsCredit(l, id);
    assert StreamOk(l, id);
  }

  lemma OneContinue(l: Link, m: Manager, id: u32)
    requires l.client.received <= |l.manager.sent| && FramesOk(l) && ClosesInFlight(Down(l), id) == 0
    requires m.sent == l.manager.sent + [Continue(id, BUFFER_COUNT)]
    ensures FramesOk(Link(l.client, m))
  {
    assert Continues([id]) == [Continue(id, BUFFER_COUNT)];
    ContinueFrames(l, m, [id]);
  }

  lemma ServerDataLedger(l: Link, queueLen: nat)
    requires LinkInv(l) && Possible(l, ServerData(queueLen))
    ensures Ledger(After(l, ServerData(queueLen)).manager)
  {
    var id := l.client.up[0].id;
    AcceptedLedger(l.manager, id, l.client.up[0].payload, queueLen);
    if id in l.manager.streams {
      DataFindsCredit(l, id);
    }
  }

  lemma ServerDataDown(l: Link, queueLen: nat, x: u32)
    requires LinkInv(l) && Possible(l, ServerData(queueLen))
    requires x != l.client.up[0].id || x !in l.manager.streams
    ensures var n := After(l, ServerData(queueLen));
            && ContinuesInFlight(Down(n), x) == ContinuesInFlight(Down(l), x)
            && ClosesInFlight(Down(n), x) == ClosesInFlight(Down(l), x)
  {
    var n := After(l, ServerData(queueLen));
    var frames := AcceptedChange(l.manager, l.client.up[0].id, l.client.up[0].payload, queueLen);
    DownGrows(l, n.manager, frames);
    assert x == l.client.up[0].id ==> frames == [];
  }

  /** Taking DATA out at the front leaves other streams' payloads, and those of an opening behind it. */
  lemma PopOther(up: seq<UpFrame>, x: u32)
    requires up != [] && !up[0].Connect?
    ensures ConnectUnderWay(up[1..], x) == ConnectUnderWay(up, x)
    ensures !IsData(up[0], x) || ConnectUnderWay(up, x) ==> PayloadsUp(up[1..], x) == PayloadsUp(up, x)
  {
    PopConnect(up, x);
    PopData(up, x);
    assert [] + PayloadsUp(up[1..], x) == PayloadsUp(up[1..], x);
  }

  lemma ServerDataOthers(l: Link, queueLen: nat, x: u32)
    requires LinkInv(l) && Possible(l, ServerData(queueLen)) && x != 0
    requires x != l.client.up[0].id || x !in l.manager.streams
    ensures StreamOk(After(l, ServerData(queueLen)), x)
  {
    var n := After(l, ServerData(queueLen));
    var frames := AcceptedChange(l.manager, l.client.up[0].id, l.client.up[0].payload, queueLen);
    ServerDataDown(l, queueLen, x);
    PopOther(l.client.up, x);
    assert n.client.open == l.client.open && n.client.up == l.client.up[1..];
    assert x in l.manager.streams ==> n.manager.streams[x] == l.manager.streams[x];
    Untouched(l, n, x);
  }

  lemma ServerDataOwn(l: Link, queueLen: nat)
    requires LinkInv(l) && Possible(l, ServerData(queueLen)) && l.client.up[0].id in l.manager.streams
    ensures StreamOk(After(l, ServerData(queueLen)), l.client.up[0].id)
  {
    var id := l.client.up[0].id;
    DataFindsCredit(l, id);
    var frames := AcceptedChange(l.manager, id, l.client.up[0].payload, queueLen);
    DownGrows(l, After(l, ServerData(queueLen)).manager, frames);
    assert StreamOk(l, id);
    PopConnect(l.client.up, id);
    TakenInOrder(l.manager.streams[id].accepted, l.client.up[0].payload, PayloadsUp(l.client.up[1..], id));
  }

  lemma TakenInOrder<T>(a: seq<T>, x: T, b: seq<T>)
    ensures a + ([x] + b) == (a + [x]) + b
  {
  }

  lemma ServerDataKeeps(l: Link, queueLen: nat)
    requires LinkInv(l) && Possible(l, ServerData(queueLen))
    ensures LinkInv(After(l, ServerData(queueLen)))
  {
    PopsOk(l.client);
    ServerDataLedger(l, queueLen);
    ServerDataFrames(l, queueLen);
    forall x: u32 | x != 0
      ensures StreamOk(After(l, ServerData(queueLen)), x)
    {
      if x != l.client.up[0].id || x !in l.manager.streams {
        ServerDataOthers(l, queueLen, x);
      } else {
        ServerDataOwn(l, queueLen);
      }
    }
  }

  lemma ServerIgnoresKeeps(l: Link)
    requires LinkInv(l) && Possible(l, ServerIgnores)
    ensures LinkInv(After(l, ServerIgnores))
  {
    var n := After(l, ServerIgnores);
    PopsOk(l.client);
    forall x: u32 | x != 0
      ensures StreamOk(n, x)
    {
      PopConnect(l.client.up, x);
      PopData(l.client.up, x);
      Untouched(l, n, x);
    }
  }

  lemma ServerRefreshKeeps(l: Link, queueLen: nat, order: seq<u32>)
    requires LinkInv(l) && Enumerates(order, Zeros(l.manager))
    ensures LinkInv(Link(l.client, Refreshed(l.manager, queueLen, order)))
  {
    var n := Link(l.client, Refreshed(l.manager, queueLen, order));
    RefreshedLedger(l.manager, queueLen, order);
    if n.manager != l.manager {
      forall i | 0 <= i < |order|
        ensures ClosesInFlight(Down(l), order[i]) == 0
      {
        assert order[i] in order;
        assert StreamOk(l, order[i]);
      }
      ContinueFrames(l, n.manager, order);
      DownGrows(l, n.manager, Continues(order));
      forall x: u32 | x != 0
        ensures StreamOk(n, x)
      {
        ContinuesOnce(order, x);
        assert StreamOk(l, x);
        assert Close(x, 0x02) !in Continues(order) && Close(x, 0x41) !in Continues(order);
        if x !in order {
          Untouched(l, n, x);
        }
      }
    }
  }

  lemma PressureIrrelevant(l: Link, pressure: bool)
    requires LinkInv(l)
    ensures LinkInv(Link(l.client, l.manager.(backpressure := pressure)))
    ensures Zeros(l.manager.(backpressure := pressure)) == Zeros(l.manager)
  {
    var n := Link(l.client, l.manager.(backpressure := pressure));
    assert Down(n) == Down(l);
    assert forall id :: id in n.manager.streams ==> Balanced(l.manager, id);
    forall x: u32 | x != 0
      ensures StreamOk(n, x)
    {
      Untouched(l, n, x);
    }
  }

  lemma ServerDeliversKeeps(l: Link, id: u32, payload: seq<byte>, status: SendStatus)
    requires LinkInv(l) && id in l.manager.streams
    ensures LinkInv(After(l, ServerDelivers(id, payload, status)))
  {
    var n := After(l, ServerDelivers(id, payload, status));
    var frames := if status.Dropped? then [] else [Data(id, payload)];
    assert n.manager.sent == l.manager.sent + frames;
    DownGrows(l, n.manager, frames);
    OtherLedger(l.manager, n.manager, frames, id);
    forall x: u32 | x != 0
      ensures StreamOk(n, x)
    {
      Untouched(l, n, x);
    }
  }

  lemma ServerClosesKeeps(l: Link, id: u32)
    requires LinkInv(l) && id in l.manager.streams
    ensures LinkInv(After(l, ServerCloses(id)))
  {
    var n := After(l, ServerCloses(id));
    DownGrows(l, n.manager, [Close(id, 0x02)]);
    OtherLedger(l.manager, n.manager, [Close(id, 0x02)], id);
    forall x: u32 | x != 0
      ensures StreamOk(n, x)
    {
      assert StreamOk(l, x);
      if x != id {
        Untouched(l, n, x);
      }
    }
  }

  lemma EventKeeps(l: Link, e: Event)
    requires LinkInv(l) && Possible(l, e)
    ensures LinkInv(After(l, e))
  {
    match e
    case ClientConnect(id, kind) => ClientConnectKeeps(l, id, kind);
    case ClientData(id, payload) => ClientDataKeeps(l, id, payload);
    case ClientIgnored => ClientIgnoredKeeps(l);
    case ClientReceive =>
      var f := l.manager.sent[l.client.received];
      if f.Continue? {
        ReceiveContinue(l);
      } else if f.Close? {
        ReceiveClose(l);
      } else {
        ReceiveOther(l);
      }
    case ServerOpens(fd, serial) => ServerOpensKeeps(l, fd, serial);
    case ServerRefuses => ServerRefusesKeeps(l);
    case ServerData(queueLen) => ServerDataKeeps(l, queueLen);
    case ServerIgnores => ServerIgnoresKeeps(l);
    case ServerRefresh(queueLen, order) => ServerRefreshKeeps(l, queueLen, order);
    case ServerDrain(queueLen, order) =>
      PressureIrrelevant(l, false);
      ServerRefreshKeeps(Link(l.client, l.manager.(backpressure := false)), queueLen, order);
    case ServerDelivers(id, payload, status) => ServerDeliversKeeps(l, id, payload, status);
    case ServerCloses(id) => ServerClosesKeeps(l, id);
  }

  lemma NewLinkOk()
    ensures LinkInv(NewLink())
  {
    assert Down(NewLink()) == [Continue(0, BUFFER_COUNT)];
  }

  // --- Main results ------------------------------------------------------------------------

  ghost predicate LinkRun(l: Link, events: seq<Event>)
    decreases |events|
  {
    events != [] ==> Possible(l, events[0]) && LinkRun(After(l, events[0]), events[1..])
  }

  ghost function LinkEnd(l: Link, events: seq<Event>): Link
    requires LinkRun(l, events)
    decreases |events|
  {
    if events == [] then l else LinkEnd(After(l, events[0]), events[1..])
  }

  lemma {:induction false} RunKeeps(l: Link, events: seq<Event>)
    requires LinkInv(l) && LinkRun(l, events)
    ensures LinkInv(LinkEnd(l, events))
    decreases |events|
  {
    if events != [] {
      EventKeeps(l, events[0]);
      RunKeeps(After(l, events[0]), events[1..]);
    }
  }

  /** Credit is conserved. After any run, for every live TCP stream, the client's credit, its DATA packets
      under way and 127 for each CONTINUE under way add up to the server's buffer; at most one CONTINUE is
      under way, and then the client has no credit and no DATA under way. */
  lemma CreditConserved(events: seq<Event>, id: u32)
    requires LinkRun(NewLink(), events)
    requires id in LinkEnd(NewLink(), events).manager.streams
    requires LinkEnd(NewLink(), events).manager.streams[id].kind == TCP
    ensures var l := LinkEnd(NewLink(), events);
            && l.client.received <= |l.manager.sent|
            && id in l.client.open
            && l.client.open[id].credit + DataInFlight(l.client.up, id) + 127 * ContinuesInFlight(Down(l), id)
                  == l.manager.streams[id].buffer
            && ContinuesInFlight(Down(l), id) <= 1
            && (ContinuesInFlight(Down(l), id) == 1 ==>
                  l.client.open[id].credit == 0 && DataInFlight(l.client.up, id) == 0)
  {
    NewLinkOk();
    RunKeeps(NewLink(), events);
    assert StreamOk(LinkEnd(NewLink(), events), id);
  }

  /** The ledger over any run: the DATA accepted on a TCP stream is 127 for the opening and for each
      CONTINUE sent since, less the buffer, which stays between 0 and 127; a UDP stream keeps its full
      buffer and is never sent a CONTINUE. */
  lemma LedgerOverRuns(events: seq<Event>, id: u32)
    requires LinkRun(NewLink(), events) && id in LinkEnd(NewLink(), events).manager.streams
    ensures var m := LinkEnd(NewLink(), events).manager;
            && m.streams[id].openedAt <= |m.sent|
            && 0 <= m.streams[id].buffer <= 127
            && (m.streams[id].kind == TCP ==>
                  |m.streams[id].accepted| == 127 * (1 + ContinuesSent(m, id)) - m.streams[id].buffer)
            && (m.streams[id].kind != TCP ==>
                  m.streams[id].kind == UDP && m.streams[id].buffer == 127 && ContinuesSent(m, id) == 0)
  {
    NewLinkOk();
    RunKeeps(NewLink(), events);
    assert Balanced(LinkEnd(NewLink(), events).manager, id);
  }

  /** After any run, a CONNECT that reaches the server names a stream that is not live there. */
  lemma ConnectsAreFresh(l: Link)
    requires LinkInv(l) && Arrived(l.client, true)
    ensures l.client.up[0].id !in l.manager.streams
  {
    assert ConnectUnderWay(l.client.up, l.client.up[0].id);
    assert StreamOk(l, l.client.up[0].id);
  }

  /** The client's own steps and the server's handling of its packets. */
  predicate ClientSide(e: Event) {
    !e.ServerRefresh? && !e.ServerDrain? && !e.ServerDelivers? && !e.ServerCloses?
  }

  /** What ends the wait of a stream at zero credit: a refresh or drain that passes its guard, or its end. */
  predicate Relieves(l: Link, e: Event, id: u32) {
    || (e.ServerRefresh? && !l.manager.backpressure && e.queueLen <= MAX_QUEUE)
    || (e.ServerDrain? && e.queueLen <= MAX_QUEUE)
    || e == ServerCloses(id)
  }

  ghost predicate Starved(l: Link, id: u32) {
    && LinkInv(l)
    && id in l.manager.streams && l.manager.streams[id].kind == TCP && l.manager.streams[id].buffer == 0
  }

  lemma StarvedClient(l: Link, id: u32)
    requires Starved(l, id)
    ensures id in l.client.open && !MaySend(l.client, id) && DataInFlight(l.client.up, id) == 0
    ensures l.client.up != [] ==> !IsData(l.client.up[0], id)
  {
    assert StreamOk(l, id);
    if l.client.up != [] && IsData(l.client.up[0], id) {
      DataFindsCredit(l, id);
    }
  }

  /** What a step does to a stream at zero credit, given that its client may not send. */
  lemma StarvedBuffer(l: Link, e: Event, id: u32)
    requires id in l.manager.streams && l.manager.streams[id].kind == TCP && l.manager.streams[id].buffer == 0
    requires Possible(l, e)
    requires l.client.up != [] ==> !IsData(l.client.up[0], id) && !(l.client.up[0].Connect? && l.client.up[0].id == id)
    ensures var m := After(l, e).manager;
            !Relieves(l, e, id) <==> id in m.streams && m.streams[id].kind == TCP && m.streams[id].buffer == 0
  {
  }

  /** A TCP stream at zero credit stays there over a step exactly when the step does not relieve it; and
      while there its client may not send on it. */
  lemma StarvedStep(l: Link, e: Event, id: u32)
    requires Starved(l, id) && Possible(l, e)
    ensures Starved(After(l, e), id) <==> !Relieves(l, e, id)
    ensures id in l.client.open && !MaySend(l.client, id) && DataInFlight(l.client.up, id) == 0
  {
    EventKeeps(l, e);
    StarvedClient(l, id);
    if l.client.up != [] && l.client.up[0].Connect? {
      ConnectsAreFresh(l);
    }
    StarvedBuffer(l, e, id);
  }

  ghost predicate Unrelieved(l: Link, events: seq<Event>, id: u32)
    requires LinkRun(l, events)
    decreases |events|
  {
    events != [] ==> !Relieves(l, events[0], id) && Unrelieved(After(l, events[0]), events[1..], id)
  }

  /** Once a TCP stream's credit is used up, no run without a refresh, a drain or its end gives it any: no
      further packet of its client, on whatever stream, makes the server send the CONTINUE. */
  lemma {:induction false} StarvedUntilRelieved(l: Link, events: seq<Event>, id: u32)
    requires Starved(l, id) && LinkRun(l, events)
    requires Unrelieved(l, events, id) || forall i :: 0 <= i < |events| ==> ClientSide(events[i])
    ensures Starved(LinkEnd(l, events), id)
    ensures id in LinkEnd(l, events).client.open && !MaySend(LinkEnd(l, events).client, id)
    decreases |events|
  {
    if events == [] {
      StarvedClient(l, id);
    } else {
      StarvedStep(l, events[0], id);
      StarvedUntilRelieved(After(l, events[0]), events[1..], id);
    }
  }

  /** The client's frames are those that the server sent first. */
  ghost predicate InboxOk(l: Link) {
    l.client.inbox <= l.manager.sent
  }

  lemma InboxKeeps(l: Link, e: Event)
    requires InboxOk(l) && Possible(l, e)
    ensures InboxOk(After(l, e))
  {
    assert l.manager.sent <= After(l, e).manager.sent;
  }

  // --- On the wire -------------------------------------------------------------------------

  /** `message` is a message by which a client sends `f`. */
  ghost predicate Carries(message: seq<byte>, f: UpFrame) {
    match f
    case Connect(id, kind) =>
      exists port: u16, hostname: seq<byte> ::
          message == Encode(Wisp(PACKET_CONNECT, id, EncodeConnect(kind, port, hostname)))
    case DataUp(id, payload) => message == Encode(Wisp(PACKET_DATA, id, payload))
    case Ignored => |message| >= 5 && message[0] !in {PACKET_CONNECT, PACKET_DATA}
  }

  /** The event that handling `f` is, when opening a target yields `connection`. */
  function Handling(f: UpFrame, connection: Option<(nat, nat)>, queueLen: nat): Event {
    match f
    case Connect(_, _) =>
      if connection.None? then ServerRefuses else ServerOpens(connection.value.0, connection.value.1)
    case DataUp(_, _) => ServerData(queueLen)
    case Ignored => ServerIgnores
  }

  /** Parsing and dispatching the bytes of a client's message is the protocol's event for the frame that
      they carry, so what holds over all events holds of the server that receives bytes. */
  lemma MessageIsEvent(l: Link, message: seq<byte>, connection: Option<(nat, nat)>, queueLen: nat)
    requires l.client.up != [] && Carries(message, l.client.up[0])
    requires l.client.up[0].Connect? && connection.Some? ==> l.client.up[0].kind in {TCP, UDP}
    ensures Parsable(message)
    ensures Possible(l, Handling(l.client.up[0], connection, queueLen))
    ensures After(l, Handling(l.client.up[0], connection, queueLen))
         == Link(Popped(l.client), Received(l.manager, message, connection, queueLen))
  {
    match l.client.up[0]
    case Connect(id, kind) =>
      var port: u16, hostname: seq<byte> :|
        message == Encode(Wisp(PACKET_CONNECT, id, EncodeConnect(kind, port, hostname)));
      DecodeEncode(Wisp(PACKET_CONNECT, id, EncodeConnect(kind, port, hostname)));
    case DataUp(id, payload) => DecodeEncode(Wisp(PACKET_DATA, id, payload));
    case Ignored =>
  }
}
