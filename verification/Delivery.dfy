/** Downstream delivery: the bytes that the watcher reads reach the client whole and in order. */
module Delivery {
  import opened Packets
  import opened WispManager
  import opened WispServer
  import opened Wrappers
  import opened ServerInvariants

  /** The bytes of the DATA frames for one stream, in the order of sending. */
  function Payload(frames: seq<Frame>, id: u32): seq<byte> {
    if frames == [] then []
    else
      var last := frames[|frames| - 1];
      Payload(frames[..|frames| - 1], id) + if last.Data? && last.id == id then last.payload else []
  }

  /** The deferred bytes that name one descriptor, oldest first. */
  function Named(q: seq<Deferred>, fd: nat): seq<byte> {
    if q == [] then []
    else Named(q[..|q| - 1], fd) + if q[|q| - 1].fd == fd then q[|q| - 1].payload else []
  }

  predicate IsClose(f: Frame, id: u32) {
    f.Close? && f.id == id
  }

  /** The frames of a stream since it was opened. */
  function Life(s: Server, manager: nat, id: u32): seq<Frame>
    requires Live(s, manager, id) && At(s, manager, id).openedAt <= |s.managers[manager].sent|
  {
    s.managers[manager].sent[At(s, manager, id).openedAt..]
  }

  // --- The invariant -----------------------------------------------------------------------

  /** What was sent and what is deferred are together what was read; and no CLOSE was sent. */
  ghost predicate Sound(life: seq<Frame>, id: u32, q: seq<Deferred>, fd: nat, bytes: seq<byte>) {
    && Payload(life, id) + Named(q, fd) == bytes
    && forall i :: 0 <= i < |life| ==> !IsClose(life[i], id)
  }

  ghost predicate StreamDelivers(s: Server, manager: nat, id: u32)
    requires Live(s, manager, id)
  {
    && At(s, manager, id).openedAt <= |s.managers[manager].sent|
    && Sound(Life(s, manager, id), id, Pending(s), At(s, manager, id).fd, Bytes(s, At(s, manager, id).serial))
  }

  ghost predicate BytesOk(s: Server) {
    && (forall manager: nat, id: u32 :: Live(s, manager, id) ==> StreamDelivers(s, manager, id))
    && (s.loop.Inserting? ==> Named(Pending(s), s.loop.fd) == Bytes(s, s.loop.serial))
  }

  /** The end of a target is deferred once, behind all its bytes, and its descriptor is read no more. */
  ghost predicate EndsOk(s: Server) {
    && (forall i :: 0 <= i < |Pending(s)| && Pending(s)[i].toClose && Pending(s)[i].fd in s.fds ==>
          s.fds[Pending(s)[i].fd] in s.eof && forall j :: i < j < |Pending(s)| ==> Pending(s)[j].fd != Pending(s)[i].fd)
    && (forall fd :: fd in s.fds && s.fds[fd] in s.eof ==> EndPending(s, fd))
    && (forall fd :: fd in s.polled ==> fd in s.fds && s.fds[fd] !in s.eof)
    && (forall fd :: fd in s.events && fd in s.fds ==> s.fds[fd] !in s.eof)
    && (forall serial :: serial in s.eof ==> serial < s.nextSerial)
    && (forall serial :: serial in s.read ==> serial < s.nextSerial)
  }

  ghost predicate EndPending(s: Server, fd: nat) {
    exists i :: 0 <= i < |Pending(s)| && Pending(s)[i].fd == fd && Pending(s)[i].toClose
  }

  /** A stream that its target ended: everything read was sent, then one CLOSE, and that was last. */
  ghost predicate WellFinished(s: Server, serial: nat)
    requires serial in s.finished
  {
    var f := s.finished[serial];
    && serial in s.closed
    && f.frames != [] && f.frames[|f.frames| - 1] == Close(f.id, 0x02)
    && Payload(f.frames[..|f.frames| - 1], f.id) == Bytes(s, serial)
    && forall i :: 0 <= i < |f.frames| - 1 ==> !IsClose(f.frames[i], f.id)
  }

  ghost predicate FinishedOk(s: Server) {
    forall serial :: serial in s.finished ==> WellFinished(s, serial)
  }

  ghost predicate DeliveryOk(s: Server) {
    BytesOk(s) && EndsOk(s) && FinishedOk(s)
  }

  /** All that earlier results establish. */
  ghost predicate Base(s: Server) {
    OwnershipOk(s) && AllOwned(s)
  }

  /** A new descriptor's number is named by no deferred entry with bytes or an end. */
  predicate RecyclesCleanly(s: Server, step: Step) {
    step.ConnectOpens? ==>
      forall i :: 0 <= i < |Pending(s)| && Pending(s)[i].fd == step.fd ==>
          Pending(s)[i].payload == [] && !Pending(s)[i].toClose
  }

  /** The websocket drops no bytes. */
  predicate DropsNothing(s: Server, step: Step) {
    step.RunDeferred? && step.target.Some? && step.status.Dropped? && s.queue != [] ==> s.queue[0].payload == []
  }

  /** A CONNECT that is refused names no live stream: the refusal's CLOSE would end it for the client. */
  predicate RefusesFresh(s: Server, step: Step) {
    step.ConnectFails? ==> !Live(s, step.manager, step.id)
  }

  /** What delivery asks of a step; an insertion under a live id would orphan the bytes of the stream that it
      overwrites. */
  predicate Careful(s: Server, step: Step) {
    RecyclesCleanly(s, step) && DropsNothing(s, step) && RefusesFresh(s, step) && FreshInsert(s, step)
  }

  /** Every open descriptor has its stream, and every byte read is where it should be. */
  ghost predicate Delivers(s: Server) {
    Base(s) && DeliveryOk(s)
  }

  // --- Sequences ---------------------------------------------------------------------------

  lemma PayloadAdds(frames: seq<Frame>, f: Frame, id: u32)
    ensures Payload(frames + [f], id) == Payload(frames, id) + if f.Data? && f.id == id then f.payload else []
  {
    assert (frames + [f])[..|frames|] == frames;
  }

  lemma {:induction false} PayloadConcat(a: seq<Frame>, b: seq<Frame>, id: u32)
    ensures Payload(a + b, id) == Payload(a, id) + Payload(b, id)
  {
    if b == [] {
      assert a + b == a;
    } else {
      var front, last := b[..|b| - 1], b[|b| - 1];
      assert b == front + [last] && a + b == (a + front) + [last];
      PayloadConcat(a, front, id);
      PayloadAdds(a + front, last, id);
      PayloadAdds(front, last, id);
      var bytes := if last.Data? && last.id == id then last.payload else [];
      assert (Payload(a, id) + Payload(front, id)) + bytes == Payload(a, id) + (Payload(front, id) + bytes);
    }
  }

  lemma {:induction false} NoPayload(frames: seq<Frame>, id: u32)
    requires forall i :: 0 <= i < |frames| ==> !(frames[i].Data? && frames[i].id == id)
    ensures Payload(frames, id) == []
  {
    if frames != [] {
      NoPayload(frames[..|frames| - 1], id);
    }
  }

  lemma {:induction false} NamedConcat(a: seq<Deferred>, b: seq<Deferred>, fd: nat)
    ensures Named(a + b, fd) == Named(a, fd) + Named(b, fd)
  {
    if b == [] {
      assert a + b == a;
    } else {
      assert (a + b)[..|a + b| - 1] == a + b[..|b| - 1];
      NamedConcat(a, b[..|b| - 1], fd);
    }
  }

  lemma NamedOne(d: Deferred, fd: nat)
    ensures Named([d], fd) == if d.fd == fd then d.payload else []
  {
    assert [d][..0] == [];
  }

  lemma {:induction false} NamedNothing(q: seq<Deferred>, fd: nat)
    ensures Named(q, fd) == [] <==> forall i :: 0 <= i < |q| && q[i].fd == fd ==> q[i].payload == []
  {
    if q != [] {
      var n := |q| - 1;
      NamedNothing(q[..n], fd);
      assert forall i :: 0 <= i < n ==> q[..n][i] == q[i];
      assert forall i :: 0 <= i < n ==> q[i] == q[..n][i];
    }
  }

  /** Frames that are neither DATA nor CLOSE for a stream leave it sound. */
  lemma SoundAdds(life: seq<Frame>, frames: seq<Frame>, id: u32, q: seq<Deferred>, fd: nat, bytes: seq<byte>)
    requires Sound(life, id, q, fd, bytes)
    requires forall i :: 0 <= i < |frames| ==> !(frames[i].Data? && frames[i].id == id) && !IsClose(frames[i], id)
    ensures Sound(life + frames, id, q, fd, bytes)
  {
    PayloadConcat(life, frames, id);
    NoPayload(frames, id);
  }

  /** A read puts its bytes at the end of what is deferred. */
  lemma SoundReads(life: seq<Frame>, id: u32, q: seq<Deferred>, d: Deferred, fd: nat, bytes: seq<byte>)
    requires Sound(life, id, q, fd, bytes)
    ensures Sound(life, id, q + [d], fd, bytes + if d.fd == fd then d.payload else [])
  {
    NamedConcat(q, [d], fd);
    NamedOne(d, fd);
    assert Payload(life, id) + (Named(q, fd) + Named([d], fd)) == (Payload(life, id) + Named(q, fd)) + Named([d], fd);
  }

  /** An entry for another descriptor leaves the queue. */
  lemma SoundPops(life: seq<Frame>, id: u32, d: Deferred, q: seq<Deferred>, fd: nat, bytes: seq<byte>)
    requires Sound(life, id, [d] + q, fd, bytes) && d.fd != fd
    ensures Sound(life, id, q, fd, bytes)
  {
    NamedConcat([d], q, fd);
    NamedOne(d, fd);
  }

  /** What the callback puts on the wire for an entry's bytes. */
  function DataFrames(d: Deferred, id: u32, dropped: bool): seq<Frame> {
    if dropped then [] else [Data(id, d.payload)]
  }

  /** An entry's bytes move from the queue to the client, unless a dropped frame loses them. */
  lemma SoundSends(life: seq<Frame>, id: u32, d: Deferred, q: seq<Deferred>, bytes: seq<byte>, dropped: bool)
    requires Sound(life, id, [d] + q, d.fd, bytes)
    ensures Sound(life + DataFrames(d, id, dropped), id, q, d.fd, bytes) <==> (dropped ==> d.payload == [])
  {
    NamedConcat([d], q, d.fd);
    NamedOne(d, d.fd);
    var sent, rest := Payload(life, id), Named(q, d.fd);
    assert bytes == sent + (d.payload + rest);
    if dropped {
      assert life + [] == life;
      Lengths(sent, d.payload, rest);
    } else {
      var after := life + [Data(id, d.payload)];
      assert Payload(after, id) == sent + d.payload by {
        PayloadConcat(life, [Data(id, d.payload)], id);
        PayloadOne(Data(id, d.payload), id);
      }
      assert sent + (d.payload + rest) == (sent + d.payload) + rest;
      assert forall i :: 0 <= i < |after| ==> !IsClose(after[i], id);
    }
  }

  lemma PayloadOne(f: Frame, id: u32)
    ensures Payload([f], id) == if f.Data? && f.id == id then f.payload else []
  {
    assert [f][..0] == [];
  }

  lemma Lengths(a: seq<byte>, b: seq<byte>, c: seq<byte>)
    ensures a + c == a + (b + c) <==> b == []
  {
    if b != [] {
      assert |a + c| != |a + (b + c)|;
    } else {
      assert b + c == c;
    }
  }

  // --- Steps that leave most things alone --------------------------------------------------

  /** `t` has no stream, and no frame on a stream, that `s` does not have. */
  ghost predicate KeepsStreams(s: Server, t: Server) {
    forall manager: nat, id: u32 :: Live(t, manager, id) ==>
      Live(s, manager, id) && At(t, manager, id) == At(s, manager, id)
          && t.managers[manager].sent == s.managers[manager].sent
  }

  ghost predicate KeepsBytes(s: Server, t: Server) {
    forall serial: nat :: serial < s.nextSerial ==> Bytes(t, serial) == Bytes(s, serial)
  }

  lemma BytesKept(s: Server, t: Server)
    requires BytesOk(s) && SerialsKnown(s) && KeepsStreams(s, t) && KeepsBytes(s, t) && Pending(t) == Pending(s)
    requires t.loop.Inserting? ==> Named(Pending(t), t.loop.fd) == Bytes(t, t.loop.serial)
    ensures BytesOk(t)
  {
    forall m: nat, id: u32 | Live(t, m, id)
      ensures StreamDelivers(t, m, id)
    {
      assert StreamDelivers(s, m, id);
    }
  }

  ghost predicate SerialsKnown(s: Server) {
    forall manager: nat, id: u32 :: Live(s, manager, id) ==> At(s, manager, id).serial < s.nextSerial
  }

  lemma OwnershipKnows(s: Server)
    requires OwnershipOk(s)
    ensures SerialsKnown(s)
  {
  }

  lemma EndsKept(s: Server, t: Server)
    requires EndsOk(s) && Pending(t) == Pending(s) && t.eof == s.eof
    requires s.nextSerial <= t.nextSerial
    requires forall serial :: serial in t.read ==> serial < t.nextSerial
    requires forall fd :: fd in t.fds ==>
              (fd in s.fds && t.fds[fd] == s.fds[fd]) || (t.fds[fd] !in s.eof && NoEnd(s, fd))
    requires forall fd :: fd in t.polled ==> fd in t.fds && t.fds[fd] !in t.eof
    requires forall fd :: fd in t.events ==> fd in s.events || fd in s.polled
    ensures EndsOk(t)
  {
    forall fd | fd in t.fds && t.fds[fd] in t.eof
      ensures EndPending(t, fd)
    {
      assert EndPending(s, fd);
    }
  }

  /** No deferred entry announces the end of `fd`. */
  ghost predicate NoEnd(s: Server, fd: nat) {
    forall i :: 0 <= i < |Pending(s)| && Pending(s)[i].fd == fd ==> !Pending(s)[i].toClose
  }

  lemma FinishedKept(s: Server, t: Server, serial: nat)
    requires serial in s.finished && WellFinished(s, serial)
    requires serial in t.finished && t.finished[serial] == s.finished[serial]
    requires serial in t.closed && Bytes(t, serial) == Bytes(s, serial)
    ensures WellFinished(t, serial)
  {
  }

  lemma AllFinishedKept(s: Server, t: Server)
    requires FinishedOk(s) && SerialsOk(s) && t.finished == s.finished && KeepsBytes(s, t)
    requires forall serial :: serial in s.closed ==> serial in t.closed
    ensures FinishedOk(t)
  {
    forall serial | serial in t.finished
      ensures WellFinished(t, serial)
    {
      assert WellFinished(s, serial);
      FinishedKept(s, t, serial);
    }
  }

  /** The managers' frames, the deferred entries and the kernel's tables are as they were. */
  ghost predicate QuietChange(s: Server, t: Server) {
    && KeepsStreams(s, t) && Pending(t) == Pending(s)
    && t.read == s.read && t.eof == s.eof && t.fds == s.fds && t.polled == s.polled
    && t.nextSerial == s.nextSerial && t.closed == s.closed && t.finished == s.finished
    && (forall fd :: fd in t.events ==> fd in s.events || fd in s.polled)
    && (t.loop.Inserting? ==> t.loop == s.loop)
  }

  lemma QuietSteps(s: Server, step: Step)
    requires FreshManagers(s) && Enabled(s, step)
    requires step in {OpenManager, CheckQueue, FinishCallback, Defer} || step.Fetch?
    ensures QuietChange(s, Apply(s, step))
  {
  }

  lemma QuietDelivers(s: Server, t: Server)
    requires Base(s) && DeliveryOk(s) && QuietChange(s, t)
    ensures DeliveryOk(t)
  {
    OwnershipKnows(s);
    BytesKept(s, t);
    EndsKept(s, t);
    AllFinishedKept(s, t);
  }

  /** Steps that add frames to one manager, none of them DATA or a CLOSE for a live stream. */
  lemma AddsDelivers(s: Server, t: Server, manager: nat, frames: seq<Frame>)
    requires BytesOk(s) && manager in s.managers && manager in t.managers
    requires t.managers == s.managers[manager := t.managers[manager]]
    requires t.managers[manager].sent == s.managers[manager].sent + frames
    requires Alike(s.managers[manager], t.managers[manager])
    requires forall i :: 0 <= i < |frames| ==> !frames[i].Data?
    requires forall i :: 0 <= i < |frames| && frames[i].Close? ==> frames[i].id !in t.managers[manager].streams
    requires Pending(t) == Pending(s) && t.read == s.read
    requires !t.loop.Inserting?
    ensures BytesOk(t)
  {
    forall m: nat, id: u32 | Live(t, m, id)
      ensures StreamDelivers(t, m, id)
    {
      assert Live(s, m, id) && StreamDelivers(s, m, id);
      var stream := At(s, m, id);
      if m == manager {
        assert Life(t, m, id) == Life(s, m, id) + frames;
        SoundAdds(Life(s, m, id), frames, id, Pending(s), stream.fd, Bytes(s, stream.serial));
      }
    }
  }

  lemma MildFrames(s: Server, step: Step) returns (frames: seq<Frame>)
    requires Enabled(s, step) && Mild(step) && RefusesFresh(s, step)
    ensures var t := Apply(s, step);
            && t.managers == s.managers[step.manager := t.managers[step.manager]]
            && t.managers[step.manager].sent == s.managers[step.manager].sent + frames
            && Alike(s.managers[step.manager], t.managers[step.manager])
            && (forall i :: 0 <= i < |frames| ==> !frames[i].Data?)
            && (forall i :: 0 <= i < |frames| && frames[i].Close? ==> frames[i].id !in t.managers[step.manager].streams)
  {
    var t := Apply(s, step);
    var m := s.managers[step.manager];
    if step.ConnectFails? {
      frames := [Close(step.id, 0x41)];
    } else if t.managers[step.manager].sent == m.sent {
      frames := [];
    } else if step.ReceiveData? {
      frames := [Continue(step.id, BUFFER_COUNT)];
    } else {
      frames := Continues(step.order);
    }
  }

  /** A CONNECT refused for a live stream puts a CLOSE into that stream's life. */
  lemma RefusedBreaks(s: Server, manager: nat, id: u32)
    requires BytesOk(s) && Enabled(s, ConnectFails(manager, id)) && Live(s, manager, id)
    ensures !DeliveryOk(Apply(s, ConnectFails(manager, id)))
  {
    var t := Apply(s, ConnectFails(manager, id));
    assert StreamDelivers(s, manager, id);
    var life := Life(s, manager, id);
    assert Life(t, manager, id) == life + [Close(id, 0x41)];
    assert IsClose(Life(t, manager, id)[|life|], id);
    assert !StreamDelivers(t, manager, id);
  }

  lemma MildDelivers(s: Server, step: Step)
    requires Base(s) && DeliveryOk(s) && Enabled(s, step) && Mild(step)
    ensures DeliveryOk(Apply(s, step)) <==> RefusesFresh(s, step)
  {
    if RefusesFresh(s, step) {
      FreshMildDelivers(s, step);
    } else {
      RefusedBreaks(s, step.manager, step.id);
    }
  }

  lemma FreshMildBytes(s: Server, step: Step)
    requires BytesOk(s) && Enabled(s, step) && Mild(step) && RefusesFresh(s, step)
    ensures BytesOk(Apply(s, step))
  {
    var frames := MildFrames(s, step);
    assert Pending(Apply(s, step)) == Pending(s);
    AddsDelivers(s, Apply(s, step), step.manager, frames);
  }

  lemma FreshMildDelivers(s: Server, step: Step)
    requires Base(s) && DeliveryOk(s) && Enabled(s, step) && Mild(step) && RefusesFresh(s, step)
    ensures DeliveryOk(Apply(s, step))
  {
    var t := Apply(s, step);
    FreshMildBytes(s, step);
    assert Pending(t) == Pending(s);
    EndsKept(s, t);
    AllFinishedKept(s, t);
  }

  // --- Reading -----------------------------------------------------------------------------

  lemma ReadStream(s: Server, fd: nat, payload: seq<byte>, toClose: bool, m: nat, id: u32)
    requires StreamsOpen(s) && SerialsOk(s) && Enabled(s, ReadFd(fd, payload, toClose))
    requires Live(s, m, id) && StreamDelivers(s, m, id)
    ensures StreamDelivers(Apply(s, ReadFd(fd, payload, toClose)), m, id)
  {
    var d, stream := Deferred(fd, payload, toClose), At(s, m, id);
    assert Pending(Apply(s, ReadFd(fd, payload, toClose))) == Pending(s) + [d];
    assert stream.fd in s.fds && s.fds[stream.fd] == stream.serial;
    SoundReads(Life(s, m, id), id, Pending(s), d, stream.fd, Bytes(s, stream.serial));
    ReadOf(s, fd, payload, toClose, stream.fd);
  }

  lemma ReadBytes(s: Server, fd: nat, payload: seq<byte>, toClose: bool)
    requires BytesOk(s) && StreamsOpen(s) && InsertingOk(s) && SerialsOk(s) && Enabled(s, ReadFd(fd, payload, toClose))
    ensures BytesOk(Apply(s, ReadFd(fd, payload, toClose)))
  {
    var t, d := Apply(s, ReadFd(fd, payload, toClose)), Deferred(fd, payload, toClose);
    forall m: nat, id: u32 | Live(t, m, id)
      ensures StreamDelivers(t, m, id)
    {
      assert Live(s, m, id) && StreamDelivers(s, m, id);
      ReadStream(s, fd, payload, toClose, m, id);
    }
    if t.loop.Inserting? {
      assert Pending(t) == Pending(s) + [d];
      NamedConcat(Pending(s), [d], s.loop.fd);
      NamedOne(d, s.loop.fd);
      ReadOf(s, fd, payload, toClose, s.loop.fd);
    }
  }

  lemma ReadOf(s: Server, fd: nat, payload: seq<byte>, toClose: bool, open: nat)
    requires SerialsOk(s) && Enabled(s, ReadFd(fd, payload, toClose)) && open in s.fds
    ensures Bytes(Apply(s, ReadFd(fd, payload, toClose)), s.fds[open])
         == Bytes(s, s.fds[open]) + if fd == open then payload else []
  {
    assert Bytes(s, s.fds[open]) + [] == Bytes(s, s.fds[open]);
  }

  lemma ReadFinished(s: Server, fd: nat, payload: seq<byte>, toClose: bool)
    requires FinishedOk(s) && SerialsOk(s) && Enabled(s, ReadFd(fd, payload, toClose))
    ensures FinishedOk(Apply(s, ReadFd(fd, payload, toClose)))
  {
    var t := Apply(s, ReadFd(fd, payload, toClose));
    forall serial | serial in t.finished
      ensures WellFinished(t, serial)
    {
      assert WellFinished(s, serial);
      assert fd in s.fds ==> s.fds[fd] != serial;
      FinishedKept(s, t, serial);
    }
  }

  /** A read entry goes behind the others: an end announced before it names another open descriptor. */
  lemma ReadEndsOrder(s: Server, fd: nat, d: Deferred)
    requires EndsOk(s) && fd in s.events && d.fd == fd
    ensures forall i :: 0 <= i < |Pending(s)| && Pending(s)[i].toClose && Pending(s)[i].fd in s.fds ==>
              Pending(s)[i].fd != fd
  {
  }

  lemma ReadEnds(s: Server, fd: nat, payload: seq<byte>, toClose: bool)
    requires EndsOk(s) && SerialsOk(s) && Enabled(s, ReadFd(fd, payload, toClose))
    ensures EndsOk(Apply(s, ReadFd(fd, payload, toClose)))
  {
    var t := Apply(s, ReadFd(fd, payload, toClose));
    var d := Deferred(fd, payload, toClose);
    assert Pending(t) == Pending(s) + [d];
    ReadEndsOrder(s, fd, d);
    AppendEnds(s, t, d);
  }

  lemma AppendEnds(s: Server, t: Server, d: Deferred)
    requires EndsOk(s) && Pending(t) == Pending(s) + [d]
    requires forall i :: 0 <= i < |Pending(s)| && Pending(s)[i].toClose && Pending(s)[i].fd in s.fds ==>
              Pending(s)[i].fd != d.fd
    requires t.fds == s.fds && t.nextSerial == s.nextSerial
    requires t.eof == if d.fd in s.fds && d.toClose then s.eof + {s.fds[d.fd]} else s.eof
    requires forall fd, fd' :: fd in s.fds && fd' in s.fds && s.fds[fd] == s.fds[fd'] ==> fd == fd'
    requires forall fd :: fd in s.fds ==> s.fds[fd] < s.nextSerial
    requires forall serial :: serial in t.read ==> serial < t.nextSerial
    requires t.polled == (if d.toClose then s.polled - {d.fd} else s.polled) && t.events == s.events - {d.fd}
    ensures EndsOk(t)
  {
    var p := Pending(s);
    assert forall i :: 0 <= i < |p| ==> Pending(t)[i] == p[i];
    assert Pending(t)[|p|] == d;
    forall x | x in t.fds && t.fds[x] in t.eof
      ensures EndPending(t, x)
    {
      if s.fds[x] in s.eof {
        assert EndPending(s, x);
        var i :| 0 <= i < |p| && p[i].fd == x && p[i].toClose;
        assert Pending(t)[i] == p[i];
      }
    }
  }

  // --- Opening, inserting, closing a websocket ---------------------------------------------

  lemma OpenEnds(s: Server, manager: nat, id: u32, kind: byte, fd: nat)
    requires EndsOk(s) && Enabled(s, ConnectOpens(manager, id, kind, fd))
    ensures EndsOk(Apply(s, ConnectOpens(manager, id, kind, fd))) <==> NoEnd(s, fd)
  {
    var t := Apply(s, ConnectOpens(manager, id, kind, fd));
    assert Pending(t) == Pending(s);
    assert s.nextSerial !in s.eof;
    if NoEnd(s, fd) {
      EndsKept(s, t);
    } else {
      var i :| 0 <= i < |Pending(s)| && Pending(s)[i].fd == fd && Pending(s)[i].toClose;
      assert Pending(t)[i].fd in t.fds;
    }
  }

  lemma OpenBytes(s: Server, manager: nat, id: u32, kind: byte, fd: nat)
    requires BytesOk(s) && SerialsKnown(s) && Enabled(s, ConnectOpens(manager, id, kind, fd))
    ensures BytesOk(Apply(s, ConnectOpens(manager, id, kind, fd)))
       <==> forall i :: 0 <= i < |Pending(s)| && Pending(s)[i].fd == fd ==> Pending(s)[i].payload == []
  {
    var t := Apply(s, ConnectOpens(manager, id, kind, fd));
    assert Pending(t) == Pending(s);
    NamedNothing(Pending(s), fd);
    if Named(Pending(s), fd) == [] {
      BytesKept(s, t);
    }
  }

  /** A new descriptor keeps delivery sound exactly when no deferred entry with bytes or an end still
      names its number. */
  lemma OpenDelivers(s: Server, manager: nat, id: u32, kind: byte, fd: nat)
    requires Base(s) && DeliveryOk(s) && Enabled(s, ConnectOpens(manager, id, kind, fd))
    ensures DeliveryOk(Apply(s, ConnectOpens(manager, id, kind, fd)))
       <==> Careful(s, ConnectOpens(manager, id, kind, fd))
  {
    OwnershipKnows(s);
    OpenEnds(s, manager, id, kind, fd);
    OpenBytes(s, manager, id, kind, fd);
    AllFinishedKept(s, Apply(s, ConnectOpens(manager, id, kind, fd)));
  }

  lemma InsertedStream(s: Server)
    requires BytesOk(s) && Enabled(s, ConnectInserts)
    ensures StreamDelivers(Apply(s, ConnectInserts), s.loop.manager, s.loop.id)
  {
    var t, l := Apply(s, ConnectInserts), s.loop;
    assert Life(t, l.manager, l.id) == [];
    assert Pending(t) == Pending(s);
    assert [] + Named(Pending(s), l.fd) == Named(Pending(s), l.fd);
  }

  lemma InsertBytes(s: Server)
    requires BytesOk(s) && Enabled(s, ConnectInserts)
    ensures BytesOk(Apply(s, ConnectInserts))
  {
    var t, l := Apply(s, ConnectInserts), s.loop;
    assert Pending(t) == Pending(s);
    forall m: nat, x: u32 | Live(t, m, x)
      ensures StreamDelivers(t, m, x)
    {
      if m == l.manager && x == l.id {
        InsertedStream(s);
      } else {
        assert Live(s, m, x) && StreamDelivers(s, m, x);
        assert At(t, m, x) == At(s, m, x) && Life(t, m, x) == Life(s, m, x);
      }
    }
  }

  lemma InsertDelivers(s: Server)
    requires Base(s) && DeliveryOk(s) && Enabled(s, ConnectInserts)
    ensures DeliveryOk(Apply(s, ConnectInserts))
  {
    var t := Apply(s, ConnectInserts);
    InsertBytes(s);
    EndsKept(s, t);
    AllFinishedKept(s, t);
  }

  lemma CloseDelivers(s: Server, manager: nat, order: seq<u32>)
    requires Base(s) && DeliveryOk(s) && Enabled(s, CloseManager(manager, order))
    ensures DeliveryOk(Apply(s, CloseManager(manager, order)))
  {
    CloseKeepsBytes(s, manager, order);
    EndsKept(s, Apply(s, CloseManager(manager, order)));
    AllFinishedKept(s, Apply(s, CloseManager(manager, order)));
  }

  lemma CloseKeepsBytes(s: Server, manager: nat, order: seq<u32>)
    requires OwnershipOk(s) && BytesOk(s) && Enabled(s, CloseManager(manager, order))
    ensures BytesOk(Apply(s, CloseManager(manager, order)))
  {
    var t := Apply(s, CloseManager(manager, order));
    OwnershipKnows(s);
    BytesKept(s, t);
  }

  // --- The deferred callback ---------------------------------------------------------------

  lemma PopPending(s: Server, t: Server)
    requires s.queue != [] && t.queue == s.queue[1..] && t.watcher == s.watcher
    ensures Pending(s) == [s.queue[0]] + Pending(t)
    ensures forall i :: 0 <= i < |Pending(t)| ==> Pending(t)[i] == Pending(s)[i + 1]
  {
  }

  /** Dropping the front entry, when its descriptor is no longer open if it announces an end, keeps what
      is said about ends. */
  lemma PopEnds(s: Server, t: Server)
    requires EndsOk(s) && s.queue != [] && t.queue == s.queue[1..] && t.watcher == s.watcher
    requires t.eof == s.eof && t.read == s.read && t.nextSerial == s.nextSerial && t.events == s.events
    requires forall fd :: fd in t.fds ==> fd in s.fds && t.fds[fd] == s.fds[fd]
    requires forall fd :: fd in t.polled ==> fd in s.polled && fd in t.fds
    requires s.queue[0].toClose ==> s.queue[0].fd !in t.fds
    ensures EndsOk(t)
  {
    PopPending(s, t);
    forall fd | fd in t.fds && t.fds[fd] in t.eof
      ensures EndPending(t, fd)
    {
      assert EndPending(s, fd);
      var i :| 0 <= i < |Pending(s)| && Pending(s)[i].fd == fd && Pending(s)[i].toClose;
      assert i > 0;
      assert Pending(t)[i - 1] == Pending(s)[i];
    }
  }

  /** Streams that the popped entry does not name. */
  lemma PopDelivers(s: Server, t: Server, m: nat, x: u32, frames: seq<Frame>)
    requires s.queue != [] && t.queue == s.queue[1..] && t.watcher == s.watcher && t.read == s.read
    requires Live(s, m, x) && StreamDelivers(s, m, x) && !Owns(s, m, x, s.queue[0].fd)
    requires Live(t, m, x) && At(t, m, x) == At(s, m, x) && t.managers[m].sent == s.managers[m].sent + frames
    requires forall i :: 0 <= i < |frames| ==> !(frames[i].Data? && frames[i].id == x) && !IsClose(frames[i], x)
    ensures StreamDelivers(t, m, x)
  {
    PopPending(s, t);
    var stream := At(s, m, x);
    SoundPops(Life(s, m, x), x, s.queue[0], Pending(t), stream.fd, Bytes(s, stream.serial));
    SoundAdds(Life(s, m, x), frames, x, Pending(t), stream.fd, Bytes(s, stream.serial));
    assert Life(t, m, x) == Life(s, m, x) + frames;
  }

  lemma Unowned(s: Server, fd: nat)
    requires AllOwned(s) && s.loop.Ready? && forall manager: nat, id: u32 :: !Owns(s, manager, id, fd)
    ensures fd !in s.fds
  {
    assert !HasOwner(s, fd);
  }

  lemma NoTargetDelivers(s: Server, status: SendStatus)
    requires Base(s) && DeliveryOk(s) && Enabled(s, RunDeferred(None, status))
    ensures DeliveryOk(Apply(s, RunDeferred(None, status)))
  {
    var t := Apply(s, RunDeferred(None, status));
    Unowned(s, s.queue[0].fd);
    PopEnds(s, t);
    forall m: nat, x: u32 | Live(t, m, x)
      ensures StreamDelivers(t, m, x)
    {
      assert Live(s, m, x) && StreamDelivers(s, m, x) && !Owns(s, m, x, s.queue[0].fd);
      assert s.managers[m].sent + [] == s.managers[m].sent;
      PopDelivers(s, t, m, x, []);
    }
    AllFinishedKept(s, t);
  }

  /** The frames that the callback sends to its target. */
  function CallbackFrames(d: Deferred, id: u32, status: SendStatus): seq<Frame> {
    DataFrames(d, id, status.Dropped?) + if d.toClose then [Close(id, 0x02)] else []
  }

  /** What the callback does to the managers, the queue and the read history. */
  ghost predicate CallbackChange(s: Server, t: Server, manager: nat, id: u32, status: SendStatus) {
    && s.queue != [] && Owns(s, manager, id, s.queue[0].fd) && manager in t.managers
    && t.managers == s.managers[manager := t.managers[manager]]
    && t.managers[manager].sent == s.managers[manager].sent + CallbackFrames(s.queue[0], id, status)
    && t.managers[manager].streams
         == (if s.queue[0].toClose then s.managers[manager].streams - {id} else s.managers[manager].streams)
    && t.queue == s.queue[1..] && t.watcher == s.watcher && t.read == s.read && t.loop == Checking
  }

  lemma DeliveredFrames(m: Manager, d: Deferred, id: u32, status: SendStatus)
    ensures var n := Delivered(m, id, d.payload, status);
            && n.sent == m.sent + DataFrames(d, id, status.Dropped?) && n.streams == m.streams
            && (d.toClose ==> StreamClosed(n, id).sent == m.sent + CallbackFrames(d, id, status))
            && (!d.toClose ==> n.sent == m.sent + CallbackFrames(d, id, status))
  {
  }

  lemma CallbackSends(s: Server, manager: nat, id: u32, status: SendStatus)
    requires Enabled(s, RunDeferred(Some((manager, id)), status))
    ensures CallbackChange(s, Apply(s, RunDeferred(Some((manager, id)), status)), manager, id, status)
  {
    DeliveredFrames(s.managers[manager], s.queue[0], id, status);
  }

  lemma NotOwner(s: Server, manager: nat, id: u32, m: nat, x: u32, fd: nat)
    requires OwnersUnique(s) && Owns(s, manager, id, fd) && (m != manager || x != id)
    ensures !Owns(s, m, x, fd)
  {
  }

  lemma OthersDeliver(s: Server, t: Server, manager: nat, id: u32, status: SendStatus, m: nat, x: u32)
    requires CallbackChange(s, t, manager, id, status)
    requires (m != manager || x != id) && Live(t, m, x)
    requires !Owns(s, m, x, s.queue[0].fd)
    requires Live(s, m, x) ==> StreamDelivers(s, m, x)
    ensures StreamDelivers(t, m, x)
  {
    assert Live(s, m, x) && At(t, m, x) == At(s, m, x);
    if m == manager {
      PopDelivers(s, t, m, x, CallbackFrames(s.queue[0], id, status));
    } else {
      assert s.managers[m].sent + [] == s.managers[m].sent;
      PopDelivers(s, t, m, x, []);
    }
  }

  /** Bytes move from the queue to the client, unless a dropped frame loses them. */
  lemma TargetDelivers(s: Server, t: Server, manager: nat, id: u32, status: SendStatus)
    requires CallbackChange(s, t, manager, id, status) && !s.queue[0].toClose
    requires StreamDelivers(s, manager, id)
    ensures Live(t, manager, id)
    ensures StreamDelivers(t, manager, id) <==> (status.Dropped? ==> s.queue[0].payload == [])
  {
    var d, stream, q := s.queue[0], At(s, manager, id), Pending(t);
    PopPending(s, t);
    var life, data, bytes := Life(s, manager, id), DataFrames(d, id, status.Dropped?), Bytes(s, stream.serial);
    assert CallbackFrames(d, id, status) == data;
    LifeGrows(s, t, manager, id, data);
    SoundSends(life, id, d, q, bytes, status.Dropped?);
    assert StreamDelivers(t, manager, id) <==> Sound(life + data, id, q, d.fd, bytes);
  }

  lemma LifeGrows(s: Server, t: Server, manager: nat, id: u32, frames: seq<Frame>)
    requires Live(s, manager, id) && Live(t, manager, id) && At(t, manager, id) == At(s, manager, id)
    requires At(s, manager, id).openedAt <= |s.managers[manager].sent|
    requires t.managers[manager].sent == s.managers[manager].sent + frames
    ensures Life(t, manager, id) == Life(s, manager, id) + frames
  {
  }

  /** A stream that gets its last bytes and then the CLOSE, on values. */
  lemma FinishedWhole(life: seq<Frame>, id: u32, d: Deferred, q: seq<Deferred>, bytes: seq<byte>, dropped: bool)
    requires Sound(life, id, [d] + q, d.fd, bytes) && forall i :: 0 <= i < |q| ==> q[i].fd != d.fd
    ensures var sent := life + DataFrames(d, id, dropped);
            && (Payload(sent, id) == bytes <==> (dropped ==> d.payload == []))
            && forall i :: 0 <= i < |sent| ==> !IsClose(sent[i], id)
  {
    SoundSends(life, id, d, q, bytes, dropped);
    NamedNothing(q, d.fd);
    var sent := life + DataFrames(d, id, dropped);
    assert Payload(sent, id) + [] == Payload(sent, id);
  }

  lemma EndIsLast(s: Server, t: Server)
    requires EndsOk(s) && s.queue != [] && t.queue == s.queue[1..] && t.watcher == s.watcher
    requires s.queue[0].toClose && s.queue[0].fd in s.fds
    ensures forall i :: 0 <= i < |Pending(t)| ==> Pending(t)[i].fd != s.queue[0].fd
  {
    PopPending(s, t);
    assert Pending(s)[0] == s.queue[0];
  }

  /** The record that the callback leaves of a stream that its target ended. */
  lemma FinishedRecord(s: Server, manager: nat, id: u32, status: SendStatus)
    requires Enabled(s, RunDeferred(Some((manager, id)), status)) && s.queue[0].toClose
    requires At(s, manager, id).openedAt <= |s.managers[manager].sent|
    ensures var t, serial := Apply(s, RunDeferred(Some((manager, id)), status)), At(s, manager, id).serial;
            && serial in t.finished && serial in t.closed && Bytes(t, serial) == Bytes(s, serial)
            && t.finished[serial] == Finished(manager, id, At(s, manager, id).openedAt,
                 Life(s, manager, id) + DataFrames(s.queue[0], id, status.Dropped?) + [Close(id, 0x02)])
  {
    var sent, at := s.managers[manager].sent, At(s, manager, id).openedAt;
    var more := DataFrames(s.queue[0], id, status.Dropped?) + [Close(id, 0x02)];
    CallbackSends(s, manager, id, status);
    assert (sent + more)[at..] == sent[at..] + more;
    assert sent[at..] + more == Life(s, manager, id) + DataFrames(s.queue[0], id, status.Dropped?) + [Close(id, 0x02)];
  }

  /** The end of a target: the last bytes, then the CLOSE. */
  lemma TargetFinishes(s: Server, manager: nat, id: u32, status: SendStatus)
    requires BytesOk(s) && EndsOk(s) && StreamsOpen(s)
    requires Enabled(s, RunDeferred(Some((manager, id)), status)) && s.queue[0].toClose
    ensures At(s, manager, id).serial in Apply(s, RunDeferred(Some((manager, id)), status)).finished
    ensures WellFinished(Apply(s, RunDeferred(Some((manager, id)), status)), At(s, manager, id).serial)
       <==> (status.Dropped? ==> s.queue[0].payload == [])
  {
    var t := Apply(s, RunDeferred(Some((manager, id)), status));
    var d, serial := s.queue[0], At(s, manager, id).serial;
    assert StreamDelivers(s, manager, id);
    var life := Life(s, manager, id);
    FinishedRecord(s, manager, id, status);
    PopPending(s, t);
    EndIsLast(s, t);
    FinishedWhole(life, id, d, Pending(t), Bytes(s, serial), status.Dropped?);
    var sent := life + DataFrames(d, id, status.Dropped?);
    RecordFinishes(t, serial, manager, id, At(s, manager, id).openedAt, sent, Bytes(s, serial));
  }

  lemma RecordFinishes(t: Server, serial: nat, manager: nat, id: u32, at: nat, sent: seq<Frame>, bytes: seq<byte>)
    requires serial in t.finished && serial in t.closed && Bytes(t, serial) == bytes
    requires t.finished[serial] == Finished(manager, id, at, sent + [Close(id, 0x02)])
    requires forall i :: 0 <= i < |sent| ==> !IsClose(sent[i], id)
    ensures WellFinished(t, serial) <==> Payload(sent, id) == bytes
  {
    assert (sent + [Close(id, 0x02)])[..|sent|] == sent;
  }

  lemma OthersFinished(s: Server, manager: nat, id: u32, status: SendStatus, serial: nat)
    requires FinishedOk(s) && StreamsOpen(s) && SerialsOk(s) && Enabled(s, RunDeferred(Some((manager, id)), status))
    requires serial in s.finished
    ensures serial in Apply(s, RunDeferred(Some((manager, id)), status)).finished
    ensures WellFinished(Apply(s, RunDeferred(Some((manager, id)), status)), serial)
  {
    var t := Apply(s, RunDeferred(Some((manager, id)), status));
    assert WellFinished(s, serial);
    assert At(s, manager, id).serial !in s.closed;
    FinishedKept(s, t, serial);
  }

  lemma CallbackBytes(s: Server, manager: nat, id: u32, status: SendStatus)
    requires OwnersUnique(s) && BytesOk(s) && Enabled(s, RunDeferred(Some((manager, id)), status))
    ensures s.queue[0].toClose ==> BytesOk(Apply(s, RunDeferred(Some((manager, id)), status)))
    ensures !s.queue[0].toClose ==>
              var t := Apply(s, RunDeferred(Some((manager, id)), status));
              (BytesOk(t) <==> (status.Dropped? ==> s.queue[0].payload == []))
  {
    var t := Apply(s, RunDeferred(Some((manager, id)), status));
    CallbackSends(s, manager, id, status);
    forall m: nat, x: u32 | Live(t, m, x) && (m != manager || x != id)
      ensures StreamDelivers(t, m, x)
    {
      NotOwner(s, manager, id, m, x, s.queue[0].fd);
      assert Live(s, m, x) ==> StreamDelivers(s, m, x);
      OthersDeliver(s, t, manager, id, status, m, x);
    }
    if !s.queue[0].toClose {
      assert StreamDelivers(s, manager, id);
      TargetDelivers(s, t, manager, id, status);
    }
  }

  lemma CallbackFinished(s: Server, manager: nat, id: u32, status: SendStatus)
    requires OwnershipOk(s) && DeliveryOk(s) && Enabled(s, RunDeferred(Some((manager, id)), status))
    ensures !s.queue[0].toClose ==> FinishedOk(Apply(s, RunDeferred(Some((manager, id)), status)))
    ensures s.queue[0].toClose ==>
              var t := Apply(s, RunDeferred(Some((manager, id)), status));
              (FinishedOk(t) <==> (status.Dropped? ==> s.queue[0].payload == []))
  {
    forall serial | serial in s.finished
      ensures serial in Apply(s, RunDeferred(Some((manager, id)), status)).finished
      ensures WellFinished(Apply(s, RunDeferred(Some((manager, id)), status)), serial)
    {
      OthersFinished(s, manager, id, status, serial);
    }
    if s.queue[0].toClose {
      TargetFinishes(s, manager, id, status);
    }
  }

  lemma CallbackDelivers(s: Server, manager: nat, id: u32, status: SendStatus)
    requires Base(s) && DeliveryOk(s) && Enabled(s, RunDeferred(Some((manager, id)), status))
    ensures DeliveryOk(Apply(s, RunDeferred(Some((manager, id)), status)))
       <==> (status.Dropped? ==> s.queue[0].payload == [])
  {
    PopEnds(s, Apply(s, RunDeferred(Some((manager, id)), status)));
    CallbackBytes(s, manager, id, status);
    CallbackFinished(s, manager, id, status);
  }

  // --- Main results ------------------------------------------------------------------------

  lemma ReadDelivers(s: Server, fd: nat, payload: seq<byte>, toClose: bool)
    requires Base(s) && DeliveryOk(s) && Enabled(s, ReadFd(fd, payload, toClose))
    ensures DeliveryOk(Apply(s, ReadFd(fd, payload, toClose)))
  {
    ReadBytes(s, fd, payload, toClose);
    ReadFinished(s, fd, payload, toClose);
    ReadEnds(s, fd, payload, toClose);
  }

  /** The steps that open, insert and close. */
  lemma ConnectionDelivers(s: Server, step: Step)
    requires Base(s) && DeliveryOk(s) && Enabled(s, step)
    requires step.ConnectOpens? || step.ConnectInserts? || step.CloseManager?
    ensures DeliveryOk(Apply(s, step)) <==> RecyclesCleanly(s, step)
  {
    if step.ConnectOpens? {
      OpenDelivers(s, step.manager, step.id, step.kind, step.fd);
    } else if step.ConnectInserts? {
      InsertDelivers(s);
    } else {
      CloseDelivers(s, step.manager, step.order);
    }
  }

  lemma DeferredDelivers(s: Server, step: Step)
    requires Base(s) && DeliveryOk(s) && Enabled(s, step) && step.RunDeferred?
    ensures DeliveryOk(Apply(s, step)) <==> DropsNothing(s, step)
  {
    if step.target.Some? {
      CallbackDelivers(s, step.target.value.0, step.target.value.1, step.status);
    } else {
      NoTargetDelivers(s, step.status);
    }
  }

  lemma RestDelivers(s: Server, step: Step)
    requires Base(s) && DeliveryOk(s) && Enabled(s, step)
    requires step in {OpenManager, CheckQueue, FinishCallback, Defer} || step.Fetch?
    ensures DeliveryOk(Apply(s, step))
  {
    QuietSteps(s, step);
    QuietDelivers(s, Apply(s, step));
  }

  /** When the streams that are live after a step have what was read for them. */
  lemma LiveStreamsStep(s: Server, step: Step)
    requires Base(s) && DeliveryOk(s) && Enabled(s, step)
    ensures DeliveryOk(Apply(s, step)) <==> RecyclesCleanly(s, step) && DropsNothing(s, step) && RefusesFresh(s, step)
  {
    if step.ConnectOpens? || step.ConnectInserts? || step.CloseManager? {
      ConnectionDelivers(s, step);
    } else if step.RunDeferred? {
      DeferredDelivers(s, step);
    } else if step.ReadFd? {
      ReadDelivers(s, step.fd, step.payload, step.toClose);
    } else if Mild(step) {
      MildDelivers(s, step);
    } else {
      RestDelivers(s, step);
    }
  }

  /** Delivery stays sound, for every descriptor that is open, exactly as long as steps are careful: no other
      step breaks it. */
  lemma DeliveryStep(s: Server, step: Step)
    requires Delivers(s) && Enabled(s, step)
    ensures Delivers(Apply(s, step)) <==> Careful(s, step)
  {
    OwnershipStep(s, step);
    LeakStep(s, step);
    LiveStreamsStep(s, step);
  }

  ghost predicate CarefulRun(s: Server, steps: seq<Step>)
    requires ValidRun(s, steps)
    decreases |steps|
  {
    steps != [] ==> Careful(s, steps[0]) && CarefulRun(Apply(s, steps[0]), steps[1..])
  }

  lemma {:induction false} RunDelivers(s: Server, steps: seq<Step>)
    requires Delivers(s) && ValidRun(s, steps) && CarefulRun(s, steps)
    ensures Delivers(Final(s, steps))
    decreases |steps|
  {
    if steps != [] {
      DeliveryStep(s, steps[0]);
      RunDelivers(Apply(s, steps[0]), steps[1..]);
    }
  }

  /** For every live stream after any careful run: the DATA payloads sent on it since it was opened,
      followed by what is still deferred for it, are exactly the bytes read from its target, in order, the
      ones read before the stream was inserted included; and no CLOSE was sent on it. */
  lemma DeliveredInOrder(steps: seq<Step>, manager: nat, id: u32)
    requires ValidRun(Initial(), steps) && CarefulRun(Initial(), steps) && Live(Final(Initial(), steps), manager, id)
    ensures var s := Final(Initial(), steps);
            && At(s, manager, id).openedAt <= |s.managers[manager].sent|
            && Payload(Life(s, manager, id), id) <= Bytes(s, At(s, manager, id).serial)
            && Payload(Life(s, manager, id), id) + Named(Pending(s), At(s, manager, id).fd)
                  == Bytes(s, At(s, manager, id).serial)
            && forall i :: 0 <= i < |Life(s, manager, id)| ==> !IsClose(Life(s, manager, id)[i], id)
  {
    RunDelivers(Initial(), steps);
    assert StreamDelivers(Final(Initial(), steps), manager, id);
  }

  /** Everything read from a target that ended was sent, and then exactly one CLOSE, as the last frame. */
  ghost predicate SentWhole(f: Finished, bytes: seq<byte>) {
    && f.frames != [] && f.frames[|f.frames| - 1] == Close(f.id, 0x02)
    && Payload(f.frames, f.id) == bytes
    && forall i :: 0 <= i < |f.frames| - 1 ==> !IsClose(f.frames[i], f.id)
  }

  /** The end of an open descriptor is deferred, and nothing is deferred for it behind that. */
  ghost predicate EndComesLast(s: Server, fd: nat) {
    exists i :: 0 <= i < |Pending(s)| && Pending(s)[i].fd == fd && Pending(s)[i].toClose
      && forall j :: i < j < |Pending(s)| ==> Pending(s)[j].fd != fd
  }

  lemma FinishedSent(s: Server, serial: nat)
    requires serial in s.finished && WellFinished(s, serial)
    ensures SentWhole(s.finished[serial], Bytes(s, serial))
  {
    var f := s.finished[serial];
    var n := |f.frames| - 1;
    assert f.frames == f.frames[..n] + [f.frames[n]];
    PayloadConcat(f.frames[..n], [f.frames[n]], f.id);
    PayloadOne(f.frames[n], f.id);
    assert Payload(f.frames[..n], f.id) + [] == Payload(f.frames[..n], f.id);
  }

  lemma EndLast(s: Server, fd: nat)
    requires EndsOk(s) && fd in s.fds && s.fds[fd] in s.eof
    ensures EndComesLast(s, fd)
  {
    assert EndPending(s, fd);
    var i :| 0 <= i < |Pending(s)| && Pending(s)[i].fd == fd && Pending(s)[i].toClose;
  }

  // --- What became of each descriptor ------------------------------------------------------

  /** A closed descriptor ended with its target, or with its websocket, which is gone. */
  ghost predicate RecordsOk(s: Server) {
    && (forall x :: x in s.closed ==> x in s.finished || x in s.torn)
    && (forall x :: x in s.torn ==> s.torn[x] < s.nextManager && s.torn[x] !in s.managers)
    && (forall x :: x in s.finished ==> s.finished[x].manager < s.nextManager)
  }

  lemma CallbackRecords(s: Server, manager: nat, id: u32, status: SendStatus)
    requires RecordsOk(s) && FreshManagers(s) && Enabled(s, RunDeferred(Some((manager, id)), status))
    ensures RecordsOk(Apply(s, RunDeferred(Some((manager, id)), status)))
  {
  }

  lemma SameRecords(s: Server, t: Server)
    requires RecordsOk(s) && t.closed == s.closed && t.finished == s.finished && t.torn == s.torn
    requires s.nextManager <= t.nextManager
    requires forall manager :: manager in t.managers ==> manager in s.managers || manager >= s.nextManager
    ensures RecordsOk(t)
  {
  }

  lemma RecordsStep(s: Server, step: Step)
    requires RecordsOk(s) && FreshManagers(s) && Enabled(s, step)
    ensures RecordsOk(Apply(s, step))
  {
    if step.CloseManager? {
      CloseRecords(s, step.manager, step.order);
    } else if step.RunDeferred? && step.target.Some? {
      CallbackRecords(s, step.target.value.0, step.target.value.1, step.status);
    } else {
      InsertsOnlyKnown(s, step);
      SameRecords(s, Apply(s, step));
    }
  }

  lemma InsertsOnlyKnown(s: Server, step: Step)
    requires Enabled(s, step) && !step.CloseManager?
    ensures forall manager :: manager in Apply(s, step).managers ==> manager in s.managers || manager >= s.nextManager
  {
  }

  lemma CloseRecords(s: Server, manager: nat, order: seq<u32>)
    requires RecordsOk(s) && FreshManagers(s) && Enabled(s, CloseManager(manager, order))
    ensures RecordsOk(Apply(s, CloseManager(manager, order)))
  {
    var t := Apply(s, CloseManager(manager, order));
    forall x | x in t.closed
      ensures x in t.finished || x in t.torn
    {
      if x !in s.closed {
        assert x in SerialsOf(s.managers[manager], order);
      }
    }
  }

  lemma {:induction false} RunRecords(s: Server, steps: seq<Step>)
    requires RecordsOk(s) && OwnershipOk(s) && ValidRun(s, steps)
    ensures RecordsOk(Final(s, steps))
    decreases |steps|
  {
    if steps != [] {
      RecordsStep(s, steps[0]);
      OwnershipStep(s, steps[0]);
      RunRecords(Apply(s, steps[0]), steps[1..]);
    }
  }

  /** What has become of a stream whose target ended: the client was sent everything and one CLOSE; or its
      end is deferred, behind all its bytes; or its websocket was closed, and is gone. */
  ghost predicate EndAccounted(s: Server, serial: nat) {
    || (serial in s.finished && SentWhole(s.finished[serial], Bytes(s, serial)))
    || (exists fd :: fd in s.fds && s.fds[fd] == serial && EndComesLast(s, fd))
    || (serial in s.torn && s.torn[serial] !in s.managers)
  }

  lemma EndIsAccounted(s: Server, serial: nat)
    requires OwnershipOk(s) && DeliveryOk(s) && RecordsOk(s) && serial in s.eof
    ensures EndAccounted(s, serial)
  {
    if serial in s.closed {
      if serial in s.finished {
        assert WellFinished(s, serial);
        FinishedSent(s, serial);
      }
    } else {
      assert serial in s.fds.Values;
      var fd :| fd in s.fds && s.fds[fd] == serial;
      EndLast(s, fd);
    }
  }

  /** After any careful run, every descriptor whose target ended is accounted for: everything read from it
      was sent, and then exactly one CLOSE; or its end is deferred, behind all its bytes; or its websocket
      was closed first. And every stream recorded as finished was sent whole. */
  lemma EndsWithOneClose(steps: seq<Step>)
    requires ValidRun(Initial(), steps) && CarefulRun(Initial(), steps)
    ensures var s := Final(Initial(), steps);
            && (forall serial :: serial in s.eof ==> EndAccounted(s, serial))
            && (forall serial :: serial in s.finished ==> SentWhole(s.finished[serial], Bytes(s, serial)))
  {
    RunDelivers(Initial(), steps);
    RunRecords(Initial(), steps);
    var s := Final(Initial(), steps);
    forall serial | serial in s.eof
      ensures EndAccounted(s, serial)
    {
      EndIsAccounted(s, serial);
    }
    forall serial | serial in s.finished
      ensures SentWhole(s.finished[serial], Bytes(s, serial))
    {
      assert WellFinished(s, serial);
      FinishedSent(s, serial);
    }
  }

  // --- Where finished streams lie in their websocket's frames ------------------------------

  ghost predicate PlaceOk(s: Server, serial: nat)
    requires serial in s.finished
  {
    var f := s.finished[serial];
    f.manager in s.managers ==>
      && f.openedAt + |f.frames| <= |s.managers[f.manager].sent|
      && s.managers[f.manager].sent[f.openedAt..f.openedAt + |f.frames|] == f.frames
  }

  ghost predicate PlacesOk(s: Server) {
    forall serial :: serial in s.finished ==> PlaceOk(s, serial)
  }

  lemma MildGrows(s: Server, step: Step)
    requires Enabled(s, step) && Mild(step)
    ensures s.managers[step.manager].sent <= Apply(s, step).managers[step.manager].sent
  {
  }

  lemma CallbackGrows(s: Server, step: Step, manager: nat)
    requires Enabled(s, step) && step.RunDeferred? && manager in s.managers
    ensures manager in Apply(s, step).managers
    ensures s.managers[manager].sent <= Apply(s, step).managers[manager].sent
  {
    if step.target.Some? {
      CallbackSends(s, step.target.value.0, step.target.value.1, step.status);
    }
  }

  /** No step takes back what was sent. */
  lemma SentGrows(s: Server, step: Step, manager: nat)
    requires FreshManagers(s) && Enabled(s, step) && manager in s.managers && manager in Apply(s, step).managers
    ensures s.managers[manager].sent <= Apply(s, step).managers[manager].sent
  {
    if Mild(step) {
      MildGrows(s, step);
    } else if step.RunDeferred? {
      CallbackGrows(s, step, manager);
    }
  }

  lemma PlaceKept(s: Server, t: Server, serial: nat)
    requires serial in s.finished && PlaceOk(s, serial)
    requires serial in t.finished && t.finished[serial] == s.finished[serial]
    requires var manager := s.finished[serial].manager;
             manager in t.managers ==> manager in s.managers && s.managers[manager].sent <= t.managers[manager].sent
    ensures PlaceOk(t, serial)
  {
    var f := s.finished[serial];
    if f.manager in t.managers {
      var before, after, end := s.managers[f.manager].sent, t.managers[f.manager].sent, f.openedAt + |f.frames|;
      assert after[f.openedAt..end] == before[f.openedAt..end];
    }
  }

  lemma FinishPlace(s: Server, step: Step)
    requires BytesOk(s) && Enabled(s, step) && Finishes(s, step)
    ensures PlaceOk(Apply(s, step), At(s, step.target.value.0, step.target.value.1).serial)
  {
    var (manager, id) := step.target.value;
    assert StreamDelivers(s, manager, id);
    CallbackSends(s, manager, id, step.status);
  }

  lemma PlacesStep(s: Server, step: Step)
    requires PlacesOk(s) && FreshManagers(s) && BytesOk(s) && RecordsOk(s) && Enabled(s, step)
    ensures PlacesOk(Apply(s, step))
  {
    var t := Apply(s, step);
    forall serial | serial in t.finished
      ensures PlaceOk(t, serial)
    {
      if Finishes(s, step) && serial == At(s, step.target.value.0, step.target.value.1).serial {
        FinishPlace(s, step);
      } else {
        var manager := s.finished[serial].manager;
        if manager in t.managers {
          SentGrows(s, step, manager);
        }
        PlaceKept(s, t, serial);
      }
    }
  }

  /** The callback that ends a stream. */
  ghost predicate Finishes(s: Server, step: Step)
    requires Enabled(s, step)
  {
    step.RunDeferred? && step.target.Some? && s.queue[0].toClose
  }
}
