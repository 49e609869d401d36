/** `WebSocketManager` with its fields updated in place, proved against the operations on values. */
module ManagerClass {
  import opened Packets
  import opened PoolClass
  import opened ThreadPool
  import opened WispManager
  import opened Wrappers

  class WebSocketManager {
    const socketId: nat
    const threadpool: Pool
    var streams: map<u32, Stream>
    var hasBackpressure: bool
    // every frame given to the websocket
    var sent: seq<Frame>
    // whether an INFO packet was received, and whether one may still come
    var receivedInfo: bool
    var infoValid: bool

    function View(): Manager
      reads this
    {
      Manager(streams, hasBackpressure, sent)
    }

    constructor (socketId: nat, threadpool: Pool)
      ensures this.socketId == socketId && this.threadpool == threadpool
      ensures View() == Created() && !receivedInfo && infoValid
    {
      this.socketId, this.threadpool := socketId, threadpool;
      streams, hasBackpressure, sent := map[], false, [Continue(0, BUFFER_COUNT)];
      receivedInfo, infoValid := false, true;
    }

    /** The write task for a packet, if its stream is live. */
    ghost predicate Submits(before: State, after: State, id: u32, payload: seq<byte>)
      reads this
    {
      if id in streams then
        after == ThreadPool.Apply(before, Submit(Write(socketId, id, payload, streams[id].serial)))
      else
        after == before
    }

    /** Parse a message and dispatch it. The first packet that is not INFO ends the time for INFO. */
    method Receive(message: array<byte>, connection: Option<(nat, nat)>, queueLen: nat)
      requires Parsable(message[..]) && threadpool.Valid()
      modifies `streams, `sent, `infoValid, threadpool
      ensures threadpool.Valid()
      ensures View() == Received(old(View()), message[..], connection, queueLen)
      ensures infoValid == (old(infoValid) && (receivedInfo || message[0] == PACKET_INFO))
      ensures var p := Decode(message[..]);
              if p.packetType == PACKET_DATA then
                Submits(old(threadpool.View()), threadpool.View(), p.streamId, p.data)
              else
                threadpool.View() == old(threadpool.View())
    {
      var packet := new WispPacket.Parse(message);
      if packet.packetType != PACKET_INFO {
        if !receivedInfo && infoValid {
          infoValid := false;
        }
        if packet.packetType == PACKET_CONNECT {
          var connect := new ConnectPacket.Parse(packet.data);
          var _ := HandleConnect(packet.streamId, connect.streamType, connection);
        } else if packet.packetType == PACKET_DATA {
          var _ := HandleData(packet.streamId, packet.data[..], queueLen);
        }
      }
    }

    method SendFrame(f: Frame)
      modifies `sent
      ensures sent == old(sent) + [f]
    {
      sent := sent + [f];
    }

    method HandleConnect(id: u32, kind: byte, connection: Option<(nat, nat)>) returns (ok: bool)
      modifies `streams, `sent
      ensures ok <==> connection.Some?
      ensures View() == match connection
                        case None => Refused(old(View()), id)
                        case Some((fd, serial)) => Opened(old(View()), id, kind, fd, serial)
    {
      if connection.None? {
        SendFrame(Close(id, 0x41));
        return false;
      }
      var (fd, serial) := connection.value;
      streams := streams[id := Stream(kind, fd, BUFFER_COUNT, serial, |sent|, [])];
      return true;
    }

    /** Submits the write of the payload to the pool, and counts the packet. */
    method HandleData(id: u32, payload: seq<byte>, queueLen: nat) returns (left: Option<u32>)
      requires threadpool.Valid()
      modifies `streams, `sent, threadpool
      ensures threadpool.Valid()
      ensures View() == Accepted(old(View()), id, payload, queueLen)
      ensures Submits(old(threadpool.View()), threadpool.View(), id, payload)
      ensures left == if id in streams then Some(streams[id].buffer) else None
    {
      if id !in streams {
        return None;
      }
      var _ := threadpool.DetachTask(Write(socketId, id, payload, streams[id].serial));
      streams := streams[id := streams[id].(accepted := streams[id].accepted + [payload])];
      if streams[id].kind != UDP {
        streams := streams[id := streams[id].(buffer := Dec32(streams[id].buffer))];
        if streams[id].buffer == 0 && hasBackpressure && queueLen < MAX_QUEUE {
          streams := streams[id := streams[id].(buffer := BUFFER_COUNT)];
          SendFrame(Continue(id, BUFFER_COUNT));
        }
      }
      return Some(streams[id].buffer);
    }

    method UpdateStreams(queueLen: nat) returns (ghost order: seq<u32>)
      modifies this
      ensures !old(hasBackpressure) && queueLen <= MAX_QUEUE ==> Enumerates(order, Zeros(old(View())))
      ensures View() == Refreshed(old(View()), queueLen, order)
    {
      order := [];
      if hasBackpressure || queueLen > MAX_QUEUE {
        return;
      }
      var todo := streams.Keys;
      while todo != {}
        invariant todo <= streams.Keys == old(streams).Keys && !hasBackpressure
        invariant forall id :: id in streams ==>
                    streams[id] == if id in todo then old(streams)[id] else Refill(old(streams)[id])
        invariant Enumerates(order, Zeros(old(View())) - todo)
        invariant sent == old(sent) + Continues(order)
        decreases todo
      {
        var id :| id in todo;
        todo := todo - {id};
        if streams[id].buffer == 0 {
          streams := streams[id := streams[id].(buffer := BUFFER_COUNT)];
          SendFrame(Continue(id, BUFFER_COUNT));
          assert Continues(order + [id]) == Continues(order) + [Continue(id, BUFFER_COUNT)];
          order := order + [id];
        }
      }
    }

    method Drain(queueLen: nat) returns (ghost order: seq<u32>)
      modifies this
      ensures queueLen <= MAX_QUEUE ==> Enumerates(order, Zeros(old(View())))
      ensures View() == Drained(old(View()), queueLen, order)
    {
      hasBackpressure := false;
      order := UpdateStreams(queueLen);
    }

    /** `send_data` and what the callback makes of its result. */
    method SendData(id: u32, payload: seq<byte>, status: SendStatus)
      modifies this
      ensures View() == Delivered(old(View()), id, payload, status)
    {
      if !status.Dropped? {
        SendFrame(Data(id, payload));
      }
      if status.Backpressure? {
        hasBackpressure := true;
      }
    }

    /** Returns the descriptor that it closed. */
    method CloseStream(id: u32) returns (fd: nat)
      requires id in streams
      modifies this
      ensures View() == StreamClosed(old(View()), id) && fd == old(streams)[id].fd
    {
      SendFrame(Close(id, 0x02));
      fd := streams[id].fd;
      streams := streams - {id};
    }

    method ListStreams() returns (ids: seq<u32>)
      ensures Enumerates(ids, streams.Keys)
    {
      ids := [];
      var todo := streams.Keys;
      while todo != {}
        invariant todo <= streams.Keys
        invariant Enumerates(ids, streams.Keys - todo)
        decreases todo
      {
        var id :| id in todo;
        todo := todo - {id};
        ids := ids + [id];
      }
    }

    /** Returns the streams in the order of closing, and the descriptors it closed. */
    method ForceClose() returns (ids: seq<u32>, fds: seq<nat>)
      modifies this
      ensures Enumerates(ids, old(streams).Keys)
      ensures View() == AllClosed(old(View()), ids)
      ensures |fds| == |ids| && forall i :: 0 <= i < |ids| ==>
                ids[i] in old(streams) && fds[i] == old(streams)[ids[i]].fd
    {
      hasBackpressure := false;
      ids := ListStreams();
      EnumerationIn(ids, streams.Keys);
      AllClosedPressure(old(View()), ids);
      fds := CloseEach(ids);
    }

    method CloseEach(ids: seq<u32>) returns (fds: seq<nat>)
      requires !hasBackpressure
      requires forall i, j :: 0 <= i < j < |ids| ==> ids[i] != ids[j]
      requires forall i :: 0 <= i < |ids| ==> ids[i] in streams
      modifies this
      ensures View() == AllClosed(old(View()), ids)
      ensures |fds| == |ids| && forall i :: 0 <= i < |ids| ==> fds[i] == old(streams)[ids[i]].fd
    {
      fds := [];
      var i := 0;
      assert ids[..0] == [];
      while i < |ids|
        invariant 0 <= i <= |ids| && |fds| == i
        invariant View() == AllClosed(old(View()), ids[..i])
        invariant forall j :: i <= j < |ids| ==> ids[j] in streams && streams[ids[j]] == old(streams)[ids[j]]
        invariant forall j :: 0 <= j < i ==> fds[j] == old(streams)[ids[j]].fd
      {
        var fd := CloseStream(ids[i]);
        fds := fds + [fd];
        assert ids[..i + 1][..i] == ids[..i];
        i := i + 1;
      }
      assert ids[..i] == ids;
    }
  }

  lemma {:induction false} AllClosedPressure(m: Manager, order: seq<u32>)
    ensures AllClosed(m.(backpressure := false), order) == AllClosed(m, order)
  {
    if order != [] {
      AllClosedPressure(m, order[..|order| - 1]);
    }
  }

  lemma EnumerationIn(order: seq<u32>, ids: set<u32>)
    requires Enumerates(order, ids)
    ensures forall i :: 0 <= i < |order| ==> order[i] in ids
  {
    assert forall i :: 0 <= i < |order| ==> order[i] in order;
  }
}
