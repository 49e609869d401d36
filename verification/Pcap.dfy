/**
 The capture writer of src/pcap.h, which makes a TCP conversation out of the bytes that cross the
 proxy, and the receivers that a reader of the capture would run: sections 3.4 and 3.5 of RFC 9293.
 */
module Pcap {
  import opened Packets
  import opened Wrappers

  datatype Side = User | Target

  datatype Segment = Segment(from: Side, syn: bool, ack: bool, seqNumber: u32, ackNumber: u32, payload: seq<byte>)

  const WRAP := 0x1_0000_0000

  // --- The writer --------------------------------------------------------------------------

  /** One write to the capture, by whoever holds the writer's mutex. */
  datatype Write = Write(from: Side, data: seq<byte>)

  datatype Writer = Writer(userNext: u32, targetNext: u32, out: seq<Segment>)

  function Handshake(): seq<Segment> {
    [ Segment(User, true, false, 2, 0, []),
      Segment(Target, true, true, 2, 3, []),
      Segment(User, false, true, 3, 3, []) ]
  }

  function Open(): Writer {
    Writer(3, 3, Handshake())
  }

  function SegmentOf(w: Writer, write: Write): Segment {
    match write.from
    case User => Segment(User, false, true, w.userNext, w.targetNext, write.data)
    case Target => Segment(Target, false, true, w.targetNext, w.userNext, write.data)
  }

  function AfterWrite(w: Writer, write: Write): Writer {
    var out := w.out + [SegmentOf(w, write)];
    match write.from
    case User => Writer((w.userNext + |write.data|) % WRAP, w.targetNext, out)
    case Target => Writer(w.userNext, (w.targetNext + |write.data|) % WRAP, out)
  }

  class PcapInterface {
    var userSequenceNumber: u32
    var targetSequenceNumber: u32
    var out: seq<Segment>

    ghost function View(): Writer
      reads this
    {
      Writer(userSequenceNumber, targetSequenceNumber, out)
    }

    constructor ()
      ensures View() == Open()
    {
      userSequenceNumber, targetSequenceNumber := 3, 3;
      out := [];
      new;
      WriteTcp(Segment(User, true, false, 2, 0, []));
      WriteTcp(Segment(Target, true, true, 2, 3, []));
      WriteTcp(Segment(User, false, true, 3, 3, []));
    }

    method WriteTcp(segment: Segment)
      modifies `out
      ensures out == old(out) + [segment]
    {
      out := out + [segment];
    }

    method WriteDummyUser(data: seq<byte>)
      modifies this
      ensures View() == AfterWrite(old(View()), Write(User, data))
    {
      WriteTcp(Segment(User, false, true, userSequenceNumber, targetSequenceNumber, data));
      userSequenceNumber := (userSequenceNumber + |data|) % WRAP;
    }

    method WriteDummyTarget(data: seq<byte>)
      modifies this
      ensures View() == AfterWrite(old(View()), Write(Target, data))
    {
      WriteTcp(Segment(Target, false, true, targetSequenceNumber, userSequenceNumber, data));
      targetSequenceNumber := (targetSequenceNumber + |data|) % WRAP;
    }
  }

  // --- The receivers -----------------------------------------------------------------------

  datatype TcpState = Closed | Listen | SynSent | SynReceived | Established

  /** One end as the segments show it: its own next sequence number, the peer's, and what it received. */
  datatype End = End(state: TcpState, sndNext: u32, rcvNext: u32, received: seq<byte>)

  datatype Tcp = Tcp(user: End, target: End)

  const FRESH := Tcp(End(Closed, 0, 0, []), End(Listen, 0, 0, []))

  function Plus(a: u32, n: nat): u32 {
    (a + n) % WRAP
  }

  /** A sender's bookkeeping: a SYN takes one sequence number and payload one per byte. */
  function Sends(e: End, s: Segment): End {
    var used := |s.payload| + if s.syn then 1 else 0;
    e.(sndNext := Plus(s.seqNumber, used),
       state := if e.state == Closed && s.syn then SynSent
                else if e.state == Listen && s.syn then SynReceived
                else if e.state == SynSent && !s.syn then Established else e.state)
  }

  /** Whether a receiver takes the segment as the next one expected, acknowledging just what it has sent. */
  predicate Accepts(e: End, s: Segment) {
    match e.state
    case Listen => s.syn && !s.ack && s.payload == []
    case SynSent => s.syn && s.ack && s.ackNumber == e.sndNext && s.payload == []
    case SynReceived => !s.syn && s.ack && s.seqNumber == e.rcvNext && s.ackNumber == e.sndNext
    case Established => !s.syn && s.ack && s.seqNumber == e.rcvNext && s.ackNumber == e.sndNext
    case Closed => false
  }

  function Receives(e: End, s: Segment): End {
    e.(rcvNext := Plus(s.seqNumber, |s.payload| + if s.syn then 1 else 0),
       received := e.received + s.payload,
       state := if e.state == SynReceived then Established else e.state)
  }

  /** A segment that the sender may send now and the receiver accepts. */
  predicate Legal(tcp: Tcp, s: Segment) {
    var sender := if s.from.User? then tcp.user else tcp.target;
    var receiver := if s.from.User? then tcp.target else tcp.user;
    && Accepts(receiver, s)
    && (sender.state == Closed ==> s.syn && !s.ack)
    && (sender.state != Closed && s.ack ==> s.ackNumber == sender.rcvNext)
    && (sender.state !in {Closed, Listen} ==> !s.syn && s.seqNumber == sender.sndNext)
  }

  /** The listener learns the peer's number from the SYN before it answers. */
  function Step(tcp: Tcp, s: Segment): Tcp {
    match s.from
    case User => Tcp(Sends(tcp.user, s), Receives(tcp.target, s))
    case Target => Tcp(Receives(tcp.user, s), Sends(tcp.target, s))
  }

  /** Replay a capture; `None` if some segment is not the next one expected. */
  function Replay(tcp: Tcp, capture: seq<Segment>): Option<Tcp>
    decreases |capture|
  {
    if capture == [] then Some(tcp)
    else if Legal(tcp, capture[0]) then Replay(Step(tcp, capture[0]), capture[1..])
    else None
  }

  lemma {:induction false} ReplayAppend(tcp: Tcp, capture: seq<Segment>, s: Segment)
    requires Replay(tcp, capture).Some?
    ensures Replay(tcp, capture + [s]) ==
            if Legal(Replay(tcp, capture).value, s) then Some(Step(Replay(tcp, capture).value, s)) else None
    decreases |capture|
  {
    if capture == [] {
      assert (capture + [s])[1..] == [];
    } else {
      assert (capture + [s])[1..] == capture[1..] + [s];
      ReplayAppend(Step(tcp, capture[0]), capture[1..], s);
    }
  }

  // --- Main results ------------------------------------------------------------------------

  /** The bytes that one side wrote, in order. */
  function Stream(writes: seq<Write>, from: Side): seq<byte> {
    if writes == [] then []
    else
      var last := writes[|writes| - 1];
      Stream(writes[..|writes| - 1], from) + if last.from == from then last.data else []
  }

  function WroteAll(writes: seq<Write>): Writer {
    if writes == [] then Open() else AfterWrite(WroteAll(writes[..|writes| - 1]), writes[|writes| - 1])
  }

  lemma HandshakeReplays()
    ensures Replay(FRESH, Handshake()) == Some(Tcp(End(Established, 3, 3, []), End(Established, 3, 3, [])))
  {
    var h := Handshake();
    var t1 := Step(FRESH, h[0]);
    var t2 := Step(t1, h[1]);
    var t3 := Step(t2, h[2]);
    assert h[1..] == [h[1], h[2]] && h[1..][1..] == [h[2]] && h[1..][1..][1..] == [];
    assert Replay(t3, []) == Some(t3);
    assert Replay(t2, [h[2]]) == Some(t3);
    assert Replay(t1, [h[1], h[2]]) == Some(t3);
  }

  /** Both ends established, each knowing the other's next number, with what each has received. */
  function Talking(w: Writer, byUser: seq<byte>, byTarget: seq<byte>): Tcp {
    Tcp(End(Established, w.userNext, w.targetNext, byUser), End(Established, w.targetNext, w.userNext, byTarget))
  }

  lemma UserWriteReplays(w: Writer, data: seq<byte>, byUser: seq<byte>, byTarget: seq<byte>)
    ensures var tcp, s := Talking(w, byUser, byTarget), SegmentOf(w, Write(User, data));
            Legal(tcp, s) && Step(tcp, s) == Talking(AfterWrite(w, Write(User, data)), byUser, byTarget + data)
  {
  }

  lemma TargetWriteReplays(w: Writer, data: seq<byte>, byUser: seq<byte>, byTarget: seq<byte>)
    ensures var tcp, s := Talking(w, byUser, byTarget), SegmentOf(w, Write(Target, data));
            Legal(tcp, s) && Step(tcp, s) == Talking(AfterWrite(w, Write(Target, data)), byUser + data, byTarget)
  {
  }

  /** The receivers are strict: in an established conversation a segment is accepted exactly when it is the
      next one of its sender and acknowledges all that its receiver has sent. */
  lemma ReceiversAreStrict(w: Writer, byUser: seq<byte>, byTarget: seq<byte>, s: Segment)
    ensures Legal(Talking(w, byUser, byTarget), s)
       <==> !s.syn && s.ack
            && s.seqNumber == (if s.from.User? then w.userNext else w.targetNext)
            && s.ackNumber == (if s.from.User? then w.targetNext else w.userNext)
  {
  }

  /** And the conversation opens with a handshake: a SYN that acknowledges nothing, one that acknowledges it,
      and the acknowledgement of that. */
  lemma HandshakeIsStrict(a: Segment, b: Segment, c: Segment)
    requires a.from.User? && b.from.Target? && c.from.User?
    ensures Replay(FRESH, [a, b, c]).Some? ==>
              && a.syn && !a.ack && a.payload == []
              && b.syn && b.ack && b.payload == [] && b.ackNumber == (a.seqNumber + 1) % 0x1_0000_0000
              && !c.syn && c.ack && c.seqNumber == (a.seqNumber + 1) % 0x1_0000_0000
              && c.ackNumber == (b.seqNumber + 1) % 0x1_0000_0000
  {
    var h := [a, b, c];
    assert h[1..] == [b, c] && h[1..][1..] == [c];
    if Replay(FRESH, h).Some? {
      var t1 := Step(FRESH, a);
      assert Replay(t1, [b, c]).Some?;
      var t2 := Step(t1, b);
      assert Replay(t2, [c]).Some? by {
        assert [b, c][1..] == [c];
      }
    }
  }

  /** Any interleaving of writes, of any lengths, replays: the handshake establishes both ends, every
      segment is the next one its receiver expects modulo 2^32, every acknowledgement is the peer's next
      sequence number, and the two receivers end with exactly the two byte streams. */
  lemma {:induction false} CaptureReplays(writes: seq<Write>)
    ensures Replay(FRESH, WroteAll(writes).out)
         == Some(Talking(WroteAll(writes), Stream(writes, Target), Stream(writes, User)))
  {
    if writes == [] {
      HandshakeReplays();
    } else {
      var n := |writes| - 1;
      var w, byUser, byTarget := WroteAll(writes[..n]), Stream(writes[..n], Target), Stream(writes[..n], User);
      CaptureReplays(writes[..n]);
      ReplayAppend(FRESH, w.out, SegmentOf(w, writes[n]));
      if writes[n].from.User? {
        assert writes[n] == Write(User, writes[n].data) && byUser + [] == byUser;
        UserWriteReplays(w, writes[n].data, byUser, byTarget);
      } else {
        assert writes[n] == Write(Target, writes[n].data) && byTarget + [] == byTarget;
        TargetWriteReplays(w, writes[n].data, byUser, byTarget);
      }
    }
  }

  /** The sequence numbers are the stream lengths modulo 2^32, past the handshake's 3. */
  lemma {:induction false} SequenceNumbers(writes: seq<Write>)
    ensures WroteAll(writes).userNext == (3 + |Stream(writes, User)|) % WRAP
    ensures WroteAll(writes).targetNext == (3 + |Stream(writes, Target)|) % WRAP
  {
    if writes != [] {
      var n := |writes| - 1;
      SequenceNumbers(writes[..n]);
      ModAdd(3 + |Stream(writes[..n], writes[n].from)|, |writes[n].data|);
    }
  }

  lemma ModAdd(a: nat, b: nat)
    ensures (a % WRAP + b) % WRAP == (a + b) % WRAP
  {
  }

  // --- The write task's retries ------------------------------------------------------------

  datatype Outcome = Sent | Again | Failed | PollFailed

  /** How many attempts the loop makes: up to the first one that need not be repeated. */
  function Attempts(outcomes: seq<Outcome>): nat
    requires outcomes != []
  {
    if outcomes[0].Again? && |outcomes| > 1 then 1 + Attempts(outcomes[1..]) else 1
  }

  function Copies(write: Write, n: nat): seq<Write> {
    seq(n, _ => write)
  }

  /** The loop of the write task in src/websocketManager.cpp: each attempt captures the payload before it
      writes, and an attempt that would block is repeated. `outcomes` are the results of the attempts. */
  method WriteTask(pcap: PcapInterface, payload: seq<byte>, outcomes: seq<Outcome>, ghost writes: seq<Write>)
    returns (attempts: nat)
    requires outcomes != [] && outcomes[|outcomes| - 1] != Again
    requires pcap.View() == WroteAll(writes)
    modifies pcap
    ensures 1 <= attempts <= |outcomes| && outcomes[attempts - 1] != Again
    ensures forall i :: 0 <= i < attempts - 1 ==> outcomes[i] == Again
    ensures attempts == Attempts(outcomes)
    ensures pcap.View() == WroteAll(writes + Copies(Write(User, payload), attempts))
  {
    attempts := 0;
    var again := true;
    ghost var all, write := writes, Write(User, payload);
    assert writes == writes + Copies(write, 0);
    while again
      invariant 0 <= attempts <= |outcomes| && (again ==> attempts < |outcomes|)
      invariant forall i :: 0 <= i < attempts - 1 ==> outcomes[i] == Again
      invariant again ==> forall i :: 0 <= i < attempts ==> outcomes[i] == Again
      invariant !again ==> attempts > 0 && outcomes[attempts - 1] != Again
      invariant all == writes + Copies(write, attempts) && pcap.View() == WroteAll(all)
      decreases |outcomes| - attempts, again
    {
      CopiesAdd(writes, write, attempts);
      WroteOneMore(all, write);
      pcap.WriteDummyUser(payload);
      all := all + [write];
      again := outcomes[attempts].Again?;
      attempts := attempts + 1;
    }
    AttemptsAre(outcomes, attempts);
  }

  lemma {:induction false} AttemptsAre(outcomes: seq<Outcome>, n: nat)
    requires 1 <= n <= |outcomes| && outcomes[n - 1] != Again
    requires forall i :: 0 <= i < n - 1 ==> outcomes[i] == Again
    ensures Attempts(outcomes) == n
  {
    if n > 1 {
      AttemptsAre(outcomes[1..], n - 1);
    }
  }

  lemma CopiesAdd(writes: seq<Write>, write: Write, n: nat)
    ensures writes + Copies(write, n + 1) == (writes + Copies(write, n)) + [write]
  {
  }

  lemma WroteOneMore(writes: seq<Write>, write: Write)
    ensures WroteAll(writes + [write]) == AfterWrite(WroteAll(writes), write)
  {
    assert (writes + [write])[..|writes|] == writes;
  }

  lemma CopiesGrow(writes: seq<Write>, write: Write, n: nat)
    ensures Stream(writes + Copies(write, n + 1), write.from)
         == Stream(writes + Copies(write, n), write.from) + write.data
  {
    var before := writes + Copies(write, n);
    assert writes + Copies(write, n + 1) == before + [write];
    assert (before + [write])[..|before|] == before;
  }

  /** Two copies or more take at least the room of two. */
  lemma {:induction false} CopiesRoom(writes: seq<Write>, write: Write, n: nat)
    ensures n >= 1 ==> |Stream(writes + Copies(write, n), write.from)| >= |Stream(writes, write.from)| + |write.data|
    ensures n >= 2 ==>
              |Stream(writes + Copies(write, n), write.from)| >= |Stream(writes, write.from)| + 2 * |write.data|
  {
    if n == 0 {
    } else if n == 1 {
      assert writes + Copies(write, 0) == writes;
      CopiesGrow(writes, write, 0);
    } else {
      CopiesRoom(writes, write, n - 1);
      CopiesGrow(writes, write, n - 1);
    }
  }

  lemma {:induction false} EmptyCopies(writes: seq<Write>, write: Write, n: nat)
    requires write.data == []
    ensures Stream(writes + Copies(write, n), write.from) == Stream(writes, write.from)
  {
    if n == 0 {
      assert writes + Copies(write, 0) == writes;
    } else {
      EmptyCopies(writes, write, n - 1);
      CopiesGrow(writes, write, n - 1);
    }
  }

  /** The capture's user stream grows by just the payload exactly when the first attempt does not have to
      be repeated, or there is nothing to capture. */
  lemma CapturedOnce(writes: seq<Write>, payload: seq<byte>, outcomes: seq<Outcome>)
    requires outcomes != [] && outcomes[|outcomes| - 1] != Again
    ensures Stream(writes + Copies(Write(User, payload), Attempts(outcomes)), User) == Stream(writes, User) + payload
       <==> outcomes[0] != Again || payload == []
  {
    var write := Write(User, payload);
    if payload == [] {
      EmptyCopies(writes, write, Attempts(outcomes));
    } else if outcomes[0].Again? {
      assert Attempts(outcomes) == 1 + Attempts(outcomes[1..]);
      CopiesRoom(writes, write, Attempts(outcomes));
    } else {
      assert writes + Copies(write, 0) == writes;
      CopiesGrow(writes, write, 0);
    }
  }
}
