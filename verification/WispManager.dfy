/**
 One websocket's streams: what each operation of `WebSocketManager` in src/websocketManager.h and .cpp does
 to them, on values, and the credit ledger. The class itself is in `ManagerClass`.
 */
module WispManager {
  import opened Packets
  import opened Wrappers

  const BUFFER_COUNT: u32 := 127
  const MAX_QUEUE: nat := 1000

  const TCP: byte := 0x01
  const UDP: byte := 0x02

  /** `fd` is the target's descriptor. History: `serial` tells descriptors with a recycled number apart,
      `openedAt` is how many frames had been sent before, `accepted` holds the payloads of the DATA packets
      taken, oldest first. */
  datatype Stream = Stream(
    kind: byte,
    fd: nat,
    buffer: u32,
    serial: nat,
    openedAt: nat,
    accepted: seq<seq<byte>>)

  datatype Manager = Manager(streams: map<u32, Stream>, backpressure: bool, sent: seq<Frame>)

  datatype SendStatus = Success | Backpressure | Dropped

  // --- The operations on values ------------------------------------------------------------

  function Created(): Manager {
    Manager(map[], false, [Continue(0, BUFFER_COUNT)])
  }

  function Opened(m: Manager, id: u32, kind: byte, fd: nat, serial: nat): Manager {
    m.(streams := m.streams[id := Stream(kind, fd, BUFFER_COUNT, serial, |m.sent|, [])])
  }

  function Refused(m: Manager, id: u32): Manager {
    m.(sent := m.sent + [Close(id, 0x41)])
  }

  /** The unsigned decrement of the credit. */
  function Dec32(x: u32): u32 {
    if x == 0 then 0xFFFF_FFFF else x - 1
  }

  /** A DATA packet from the client; `queueLen` is what it reads of the deferred queue's length. */
  function Accepted(m: Manager, id: u32, payload: seq<byte>, queueLen: nat): Manager {
    if id !in m.streams then m
    else
      var s := m.streams[id].(accepted := m.streams[id].accepted + [payload]);
      if s.kind == UDP then m.(streams := m.streams[id := s])
      else
        var left := Dec32(s.buffer);
        if left == 0 && m.backpressure && queueLen < MAX_QUEUE then
          Manager(m.streams[id := s.(buffer := BUFFER_COUNT)], m.backpressure, m.sent + [Continue(id, BUFFER_COUNT)])
        else
          m.(streams := m.streams[id := s.(buffer := left)])
  }

  /** The streams whose credit is used up. */
  function Zeros(m: Manager): set<u32> {
    set id | id in m.streams && m.streams[id].buffer == 0
  }

  /** Some order of a set, as an unordered map's iteration may yield it. */
  ghost predicate Enumerates(order: seq<u32>, ids: set<u32>) {
    && (forall i, j :: 0 <= i < j < |order| ==> order[i] != order[j])
    && (forall id :: id in order <==> id in ids)
  }

  function Continues(order: seq<u32>): seq<Frame> {
    seq(|order|, i requires 0 <= i < |order| => Continue(order[i], BUFFER_COUNT))
  }

  function Refill(s: Stream): Stream {
    if s.buffer == 0 then s.(buffer := BUFFER_COUNT) else s
  }

  /** `update_streams`, sending its frames in the given order. */
  function Refreshed(m: Manager, queueLen: nat, order: seq<u32>): Manager {
    if m.backpressure || queueLen > MAX_QUEUE then m
    else Manager(map id | id in m.streams :: Refill(m.streams[id]), false, m.sent + Continues(order))
  }

  /** The drain handler. */
  function Drained(m: Manager, queueLen: nat, order: seq<u32>): Manager {
    Refreshed(m.(backpressure := false), queueLen, order)
  }

  function Delivered(m: Manager, id: u32, payload: seq<byte>, status: SendStatus): Manager {
    m.(sent := if status.Dropped? then m.sent else m.sent + [Data(id, payload)],
       backpressure := m.backpressure || status.Backpressure?)
  }

  function StreamClosed(m: Manager, id: u32): Manager {
    m.(sent := m.sent + [Close(id, 0x02)], streams := m.streams - {id})
  }

  function AllClosed(m: Manager, order: seq<u32>): Manager {
    if order == [] then m.(backpressure := false)
    else StreamClosed(AllClosed(m, order[..|order| - 1]), order[|order| - 1])
  }

  /** Messages that the parsers can read: the code does not check lengths. */
  predicate Parsable(message: seq<byte>) {
    |message| >= 5 && (message[0] == PACKET_CONNECT ==> |message| >= 8)
  }

  /** A message from the client; `connection` is what opening the target yields, should it be a CONNECT. */
  function Received(m: Manager, message: seq<byte>, connection: Option<(nat, nat)>, queueLen: nat): Manager
    requires Parsable(message)
  {
    var p := Decode(message);
    if p.packetType == PACKET_CONNECT then
      match connection
      case None => Refused(m, p.streamId)
      case Some((fd, serial)) => Opened(m, p.streamId, DecodeConnect(p.data).streamType, fd, serial)
    else if p.packetType == PACKET_DATA then Accepted(m, p.streamId, p.data, queueLen)
    else m
  }

  /** Force-closing leaves no stream and no backpressure, and ends with one CLOSE for each stream. */
  lemma {:induction false} AllClosedStreams(m: Manager, order: seq<u32>)
    requires forall i, j :: 0 <= i < j < |order| ==> order[i] != order[j]
    ensures AllClosed(m, order).sent == m.sent + seq(|order|, i requires 0 <= i < |order| => Close(order[i], 0x02))
    ensures AllClosed(m, order).streams.Keys == m.streams.Keys - (set id | id in order)
    ensures !AllClosed(m, order).backpressure
  {
    if order == [] {
      assert m.sent + [] == m.sent;
    } else {
      AllClosedStreams(m, order[..|order| - 1]);
      assert order == order[..|order| - 1] + [order[|order| - 1]];
    }
  }

  /** What a message does, by its first byte: 1 opens a stream with full credit or is refused, 2 is DATA, and
      nothing else does anything. The id is in bytes 1 to 4, the stream's type in byte 5. */
  lemma ByType(m: Manager, message: seq<byte>, connection: Option<(nat, nat)>, queueLen: nat)
    requires Parsable(message)
    ensures var n, id := Received(m, message, connection, queueLen), FromLe32(message[1..5]);
            && (message[0] == 1 && connection.None? ==> n == m.(sent := m.sent + [Close(id, 0x41)]))
            && (message[0] == 1 && connection.Some? ==>
                  && id in n.streams && n.streams == m.streams[id := n.streams[id]] && n.sent == m.sent
                  && n.streams[id].kind == message[5] && n.streams[id].fd == connection.value.0
                  && n.streams[id].buffer == 127 && n.streams[id].accepted == [])
            && (message[0] == 2 && id in m.streams ==>
                  && id in n.streams && n.streams[id].accepted == m.streams[id].accepted + [message[5..]]
                  && n.streams[id].fd == m.streams[id].fd && n.streams[id].kind == m.streams[id].kind)
            && (message[0] == 2 && id !in m.streams ==> n == m)
            && (message[0] !in {1, 2} ==> n == m)
  {
  }

  // --- The credit ledger -------------------------------------------------------------------

  /** CONTINUE frames sent for a stream since it was opened. */
  function ContinuesSent(m: Manager, id: u32): nat
    requires id in m.streams && m.streams[id].openedAt <= |m.sent|
  {
    multiset(m.sent[m.streams[id].openedAt..])[Continue(id, BUFFER_COUNT)]
  }

  /** Every DATA packet taken is paid for by the initial credit or by a CONTINUE. */
  ghost predicate Balanced(m: Manager, id: u32)
    requires id in m.streams
  {
    var s := m.streams[id];
    && s.openedAt <= |m.sent|
    && s.kind in {TCP, UDP}
    && s.buffer <= BUFFER_COUNT
    && (s.kind == TCP ==> |s.accepted| + s.buffer == BUFFER_COUNT * (1 + ContinuesSent(m, id)))
    && (s.kind == UDP ==> s.buffer == BUFFER_COUNT && ContinuesSent(m, id) == 0)
  }

  ghost predicate Ledger(m: Manager) {
    forall id :: id in m.streams ==> Balanced(m, id)
  }

  /** Sending a frame that is not a CONTINUE for the stream leaves its count alone. */
  lemma CountAppend(m: Manager, frames: seq<Frame>, id: u32)
    requires id in m.streams && m.streams[id].openedAt <= |m.sent|
    ensures multiset((m.sent + frames)[m.streams[id].openedAt..])[Continue(id, BUFFER_COUNT)]
         == ContinuesSent(m, id) + multiset(frames)[Continue(id, BUFFER_COUNT)]
  {
    var at := m.streams[id].openedAt;
    assert (m.sent + frames)[at..] == m.sent[at..] + frames;
  }

  lemma {:induction false} ContinuesOnce(order: seq<u32>, id: u32)
    requires forall i, j :: 0 <= i < j < |order| ==> order[i] != order[j]
    ensures multiset(Continues(order))[Continue(id, BUFFER_COUNT)] == if id in order then 1 else 0
  {
    if order != [] {
      var n := |order| - 1;
      ContinuesOnce(order[..n], id);
      assert Continues(order) == Continues(order[..n]) + [Continue(order[n], BUFFER_COUNT)];
      assert order == order[..n] + [order[n]];
    }
  }

  /** An accepted packet keeps the books exactly when the client still had credit: otherwise the
      unsigned decrement wraps. */
  lemma AcceptedLedger(m: Manager, id: u32, payload: seq<byte>, queueLen: nat)
    requires Ledger(m)
    ensures Ledger(Accepted(m, id, payload, queueLen))
       <==> (id in m.streams && m.streams[id].kind == TCP ==> m.streams[id].buffer > 0)
  {
    var n := Accepted(m, id, payload, queueLen);
    forall x | x in m.streams && x != id
      ensures Balanced(n, x)
    {
      CountAppend(m, [Continue(id, BUFFER_COUNT)], x);
    }
    if id in m.streams {
      CountAppend(m, [Continue(id, BUFFER_COUNT)], id);
      if m.streams[id].kind == TCP && m.streams[id].buffer == 0 {
        assert n.streams[id].buffer > BUFFER_COUNT;
        assert !Balanced(n, id);
      } else {
        assert Balanced(n, id);
      }
    }
  }

  /** What the guard of the refill in `handle_data` decides. A packet that finds credit on its stream leaves
      no further stream without credit exactly when the stream is not at its last credit, or the websocket
      has backpressure and the deferred queue is below its limit. */
  lemma RefillDecided(m: Manager, id: u32, payload: seq<byte>, queueLen: nat)
    requires id in m.streams && m.streams[id].kind in {TCP, UDP} && m.streams[id].buffer > 0
    ensures Zeros(Accepted(m, id, payload, queueLen)) == Zeros(m)
       <==> (m.streams[id].kind == TCP && m.streams[id].buffer == 1 ==> m.backpressure && queueLen < 1000)
    ensures Zeros(Accepted(m, id, payload, queueLen)) in {Zeros(m), Zeros(m) + {id}}
  {
    var n := Accepted(m, id, payload, queueLen);
    assert forall x :: x in n.streams && x != id ==> n.streams[x] == m.streams[x];
    if n.streams[id].buffer == 0 {
      assert id in Zeros(n) && id !in Zeros(m);
      assert Zeros(n) == Zeros(m) + {id};
    } else {
      assert Zeros(n) == Zeros(m);
    }
  }

  lemma RefreshedLedger(m: Manager, queueLen: nat, order: seq<u32>)
    requires Ledger(m) && Enumerates(order, Zeros(m))
    ensures Ledger(Refreshed(m, queueLen, order))
  {
    var n := Refreshed(m, queueLen, order);
    if n != m {
      forall id | id in n.streams
        ensures Balanced(n, id)
      {
        CountAppend(m, Continues(order), id);
        ContinuesOnce(order, id);
      }
    }
  }

  /** Frames other than CONTINUE, and opening or closing a stream, keep every other stream's books. */
  lemma OtherLedger(m: Manager, n: Manager, frames: seq<Frame>, id: u32)
    requires Ledger(m)
    requires n.sent == m.sent + frames && forall i :: 0 <= i < |frames| ==> !frames[i].Continue?
    requires forall x :: x in n.streams && x != id ==> x in m.streams && n.streams[x] == m.streams[x]
    requires id in n.streams ==> (id in m.streams && n.streams[id] == m.streams[id]) || Balanced(n, id)
    ensures Ledger(n)
  {
    forall x | x in n.streams
      ensures Balanced(n, x)
    {
      if x in m.streams && n.streams[x] == m.streams[x] {
        CountAppend(m, frames, x);
        assert Continue(x, BUFFER_COUNT) !in frames;
      }
    }
  }

  lemma {:induction false} EnumerationSize(order: seq<u32>, ids: set<u32>)
    requires Enumerates(order, ids)
    ensures |order| == |ids|
  {
    if order == [] {
      assert forall id :: id in ids ==> id in order;
      assert ids == {};
    } else {
      var last := order[|order| - 1];
      assert last in order;
      assert order == order[..|order| - 1] + [last];
      EnumerationSize(order[..|order| - 1], ids - {last});
    }
  }

  /** A refresh leaves no zero credit behind, and repeated at once it has nothing to send. */
  lemma RefreshIsIdempotent(m: Manager, queueLen: nat, order: seq<u32>, again: seq<u32>)
    requires !m.backpressure && queueLen <= MAX_QUEUE
    requires Enumerates(order, Zeros(m)) && Enumerates(again, Zeros(Refreshed(m, queueLen, order)))
    ensures Zeros(Refreshed(m, queueLen, order)) == {}
    ensures Refreshed(Refreshed(m, queueLen, order), queueLen, again) == Refreshed(m, queueLen, order)
  {
    var n := Refreshed(m, queueLen, order);
    assert Zeros(n) == {};
    EnumerationSize(again, {});
    assert (map id | id in n.streams :: Refill(n.streams[id])) == n.streams;
    assert n.sent + Continues(again) == n.sent;
  }
}
