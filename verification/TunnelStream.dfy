/** The byte stream over a relay tunnel: whole payloads in, reads of any size out. */
module TunnelStream {
  import opened Common
  import Circuit

  datatype Poll = Pending | Ready(bytes: Bytes)

  datatype SendError = TooLarge | NoLocalId | NotConnected | WriteHalfClosed

  /** Bytes received and not yet handed to a reader. */
  function Unread(carry: Bytes, inbound: seq<Bytes>): Bytes {
    carry + Flatten(inbound)
  }

  /** The payload the next read copies from: what is left of the last one, else the next one. */
  function Source(carry: Bytes, inbound: seq<Bytes>): Bytes {
    if carry != [] then carry else if inbound != [] then inbound[0] else []
  }

  function Taken(carry: Bytes, inbound: seq<Bytes>, room: nat): Bytes {
    var source := Source(carry, inbound);
    source[..Min(|source|, room)]
  }

  /** What the read leaves in the carry buffer and in the channel. */
  function Kept(carry: Bytes, inbound: seq<Bytes>, room: nat): Bytes {
    Source(carry, inbound)[|Taken(carry, inbound, room)|..]
  }

  function Queued(carry: Bytes, inbound: seq<Bytes>): seq<Bytes> {
    if carry != [] || inbound == [] then inbound else inbound[1..]
  }

  class RelayTunnelStream {
    var inbound: seq<Bytes>
    var senderGone: bool
    var readCarry: Bytes
    var readPos: nat
    var localIdSet: bool
    var sink: Option<bool>
    var relaySeq: nat
    var sent: seq<(nat, Bytes)>

    ghost predicate Valid()
      reads this
    {
      readPos <= |readCarry|
    }

    function Carry(): Bytes
      requires Valid()
      reads this
    {
      readCarry[readPos..]
    }

    constructor ()
      ensures Valid() && Carry() == [] && inbound == [] && sent == []
    {
      inbound, senderGone, readCarry, readPos := [], false, [], 0;
      localIdSet, sink, relaySeq, sent := false, None, 0, [];
    }

    /** One read into a buffer with `room` bytes left. Bytes come out in the order received and
      * none is lost; a read pends exactly when nothing has arrived on an open tunnel.
      */
    method PollRead(room: nat) returns (r: Poll)
      requires Valid()
      modifies this`readCarry, this`readPos, this`inbound
      ensures Valid()
      ensures r.Pending? <==> old(Carry()) == [] && old(inbound) == [] && !senderGone
      ensures r.Pending? ==> Carry() == old(Carry()) && inbound == old(inbound)
      ensures old(Carry()) != [] ==>
        r == Ready(old(Carry())[..Min(|old(Carry())|, room)]) && inbound == old(inbound)
      ensures old(Carry()) == [] && old(inbound) != [] ==>
        r == Ready(old(inbound)[0][..Min(|old(inbound)[0]|, room)]) && inbound == old(inbound)[1..]
      ensures old(Carry()) == [] && old(inbound) == [] ==> r == if senderGone then Ready([]) else Pending
      ensures r.Ready? ==> r.bytes == Taken(old(Carry()), old(inbound), room)
      ensures r.Ready? ==> Carry() == Kept(old(Carry()), old(inbound), room)
      ensures r.Ready? ==> inbound == Queued(old(Carry()), old(inbound))
      ensures r.Ready? ==> r.bytes + Unread(Carry(), inbound) == old(Unread(Carry(), inbound))
    {
      if readPos >= |readCarry| {
        if inbound != [] {
          readCarry := inbound[0];
          readPos := 0;
          inbound := inbound[1..];
        } else if senderGone {
          return Ready([]);
        } else {
          return Pending;
        }
      }
      var remaining := readCarry[readPos..];
      var n := Min(|remaining|, room);
      r := Ready(remaining[..n]);
      readPos := readPos + n;
      assert remaining == remaining[..n] + Carry();
    }

    method Send(payload: Bytes) returns (r: Result<(), SendError>)
      requires Valid()
      modifies this`relaySeq, this`sent
      ensures Valid()
      ensures r.Ok? <==> |payload| <= Circuit.MAX_RELAY_PAYLOAD && localIdSet && sink == Some(true)
      ensures r.Ok? ==> sent == old(sent) + [(old(relaySeq), payload)] && relaySeq == old(relaySeq) + 1
      ensures r.Err? ==> sent == old(sent)
      ensures r == Err(TooLarge) <==> |payload| > 1_048_576
      ensures r == Err(NoLocalId) <==> |payload| <= 1_048_576 && !localIdSet
      ensures r == Err(NotConnected) <==> |payload| <= 1_048_576 && localIdSet && sink == None
      ensures r == Err(WriteHalfClosed) <==> |payload| <= 1_048_576 && localIdSet && sink == Some(false)
      ensures relaySeq == if r.Ok? || r == Err(NotConnected) || r == Err(WriteHalfClosed) then old(relaySeq) + 1
                          else old(relaySeq)
    {
      if |payload| > Circuit.MAX_RELAY_PAYLOAD {
        return Err(TooLarge);
      }
      if !localIdSet {
        return Err(NoLocalId);
      }
      var number := relaySeq;
      relaySeq := relaySeq + 1;
      if sink.None? {
        return Err(NotConnected);
      }
      if !sink.value {
        return Err(WriteHalfClosed);
      }
      sent := sent + [(number, payload)];
      return Ok(());
    }

    /** Ships at most one frame of the buffer's front; the cap is never what fails it. */
    method PollWrite(buf: Bytes) returns (r: Result<nat, SendError>)
      requires Valid()
      modifies this`relaySeq, this`sent
      ensures Valid() && r != Err(TooLarge)
      ensures r.Ok? <==> localIdSet && sink == Some(true)
      ensures r.Ok? ==> r.value == |FrameOf(buf)| && sent == old(sent) + [(old(relaySeq), FrameOf(buf))]
      ensures r.Ok? && |buf| <= 1_048_576 ==> r.value == |buf| && sent == old(sent) + [(old(relaySeq), buf)]
      ensures r.Ok? && |buf| > 1_048_576 ==>
        r.value == 1_048_576 && sent == old(sent) + [(old(relaySeq), buf[..1_048_576])]
      ensures r.Err? ==> sent == old(sent)
    {
      assert |buf| <= 1_048_576 ==> buf[..|buf|] == buf;
      var n := Min(|buf|, Circuit.MAX_RELAY_PAYLOAD);
      var outcome := Send(buf[..n]);
      match outcome
      case Ok(_) => return Ok(n);
      case Err(e) => return Err(e);
    }
  }

  /** The part of a write that fits one relay frame. */
  function FrameOf(buf: Bytes): Bytes {
    buf[..Min(|buf|, Circuit.MAX_RELAY_PAYLOAD)]
  }

  /** A read with room returns no bytes, which a reader takes as end of stream, exactly when
    * the next payload is empty or there is none.
    */
  lemma ZeroReadExactlyWhen(carry: Bytes, inbound: seq<Bytes>, room: nat)
    requires room > 0
    ensures Taken(carry, inbound, room) == [] <==> carry == [] && (inbound == [] || inbound[0] == [])
  {
    var source := Source(carry, inbound);
    assert |Taken(carry, inbound, room)| == Min(|source|, room);
  }

  // ---------------------------------------------------------------- the reading end

  /** The reading end of a circuit: what was delivered into its channel and what was read. */
  datatype Reader = Reader(delivered: seq<Bytes>, inbound: seq<Bytes>, carry: Bytes, got: Bytes)

  datatype ReaderOp = Deliver(payload: Bytes) | Read(room: nat)

  const NEW_READER: Reader := Reader([], [], [], [])

  predicate HasRoom(r: Reader) {
    |r.inbound| < Circuit.RELAY_TUNNEL_INBOUND_CAP
  }

  function Delivered(r: Reader, payload: Bytes): Reader {
    r.(delivered := r.delivered + [payload], inbound := r.inbound + [payload])
  }

  function AfterRead(r: Reader, room: nat): Reader {
    r.(inbound := Queued(r.carry, r.inbound),
       carry := Kept(r.carry, r.inbound, room),
       got := r.got + Taken(r.carry, r.inbound, room))
  }

  /** A read hands out as much of the oldest unread payload as there is room for. */
  lemma ReadsFillTheRoom(r: Reader, room: nat)
    ensures r.carry != [] ==>
      && AfterRead(r, room).got == r.got + r.carry[..Min(|r.carry|, room)]
      && AfterRead(r, room).carry == r.carry[Min(|r.carry|, room)..]
      && AfterRead(r, room).inbound == r.inbound
    ensures r.carry == [] && r.inbound != [] ==>
      && AfterRead(r, room).got == r.got + r.inbound[0][..Min(|r.inbound[0]|, room)]
      && AfterRead(r, room).carry == r.inbound[0][Min(|r.inbound[0]|, room)..]
      && AfterRead(r, room).inbound == r.inbound[1..]
    ensures r.carry == [] && r.inbound == [] ==> AfterRead(r, room) == r
  {
    if r.carry == [] && r.inbound == [] {
      assert r.got + [] == r.got;
    }
  }

  /** One step of the reader: whatever the relay sends arrives if there is room for it. */
  function ReaderStep(r: Reader, op: ReaderOp): Reader {
    match op
    case Deliver(payload) => if HasRoom(r) then Delivered(r, payload) else r
    case Read(room) => AfterRead(r, room)
  }

  /** No delivered byte is lost, repeated or reordered. */
  ghost predicate ReaderConserves(r: Reader) {
    r.got + Unread(r.carry, r.inbound) == Flatten(r.delivered)
  }

  lemma FlattenOne(f: Bytes)
    ensures Flatten([f]) == f
  {
    assert [f][1..] == [];
  }

  lemma Associates(a: Bytes, b: Bytes, c: Bytes)
    ensures a + b + c == a + (b + c)
  {
  }

  lemma DeliverConserves(r: Reader, payload: Bytes)
    requires ReaderConserves(r)
    ensures ReaderConserves(Delivered(r, payload))
  {
    FlattenOne(payload);
    FlattenAppend(r.delivered, [payload]);
    FlattenAppend(r.inbound, [payload]);
    Associates(r.carry, Flatten(r.inbound), payload);
    Associates(r.got, Unread(r.carry, r.inbound), payload);
  }

  lemma ReadConserves(r: Reader, room: nat)
    requires ReaderConserves(r)
    ensures ReaderConserves(AfterRead(r, room))
  {
    var r', taken, source := AfterRead(r, room), Taken(r.carry, r.inbound, room), Source(r.carry, r.inbound);
    assert Unread(r.carry, r.inbound) == source + Flatten(r'.inbound);
    assert source == taken + r'.carry;
    Associates(taken, r'.carry, Flatten(r'.inbound));
    Associates(r.got, taken, Unread(r'.carry, r'.inbound));
  }

  ghost predicate IsReaderRun(readers: seq<Reader>, ops: seq<ReaderOp>) {
    && |readers| == |ops| + 1
    && readers[0] == NEW_READER
    && forall i :: 0 <= i < |ops| ==> readers[i + 1] == ReaderStep(readers[i], ops[i])
  }

  /** The byte stream over frames, whatever the relay does: for any payloads, empty ones among
    * them, any losses and any read sizes, the bytes read are a prefix of the payloads delivered,
    * and what is left of those is still to be read.
    */
  lemma {:induction false} ReadsArePrefixOfDeliveries(readers: seq<Reader>, ops: seq<ReaderOp>, i: nat)
    requires IsReaderRun(readers, ops) && i < |readers|
    ensures readers[i].got + Unread(readers[i].carry, readers[i].inbound) == Flatten(readers[i].delivered)
    ensures readers[i].got <= Flatten(readers[i].delivered)
  {
    if i == 0 {
    } else {
      ReadsArePrefixOfDeliveries(readers, ops, i - 1);
      match ops[i - 1]
      case Deliver(payload) => DeliverConserves(readers[i - 1], payload);
      case Read(room) => ReadConserves(readers[i - 1], room);
    }
  }

  // ---------------------------------------------------------------- both ends and the relay

  /** One direction of a circuit: a writer, a FIFO relay, and the reader. A frame that finds the
    * reader's channel full is lost.
    */
  datatype Pipe = Pipe(written: Bytes, inFlight: seq<Bytes>, lost: seq<Bytes>, reader: Reader)

  datatype Op = Write(buf: Bytes) | Forward | Receive(room: nat)

  const EMPTY_PIPE: Pipe := Pipe([], [], [], NEW_READER)

  predicate CanDo(p: Pipe, op: Op) {
    match op
    case Write(buf) => buf != []
    case Forward => p.inFlight != []
    case Receive(_) => true
  }

  function Do(p: Pipe, op: Op): Pipe
    requires CanDo(p, op)
  {
    match op
    case Write(buf) => p.(written := p.written + FrameOf(buf), inFlight := p.inFlight + [FrameOf(buf)])
    case Forward =>
      var f := p.inFlight[0];
      p.(inFlight := p.inFlight[1..],
         lost := if HasRoom(p.reader) then p.lost else p.lost + [f],
         reader := ReaderStep(p.reader, Deliver(f)))
    case Receive(room) => p.(reader := ReaderStep(p.reader, Read(room)))
  }

  /** A write within 1 MiB goes out whole in one frame; a longer one ships its first 1 MiB. */
  lemma WritesShipWhatFits(p: Pipe, buf: Bytes)
    requires buf != []
    ensures var shipped := if |buf| <= 1_048_576 then buf else buf[..1_048_576];
      Do(p, Write(buf)) == p.(written := p.written + shipped, inFlight := p.inFlight + [shipped])
  {
    assert |buf| <= 1_048_576 ==> buf[..|buf|] == buf;
  }

  /** A frame that is forwarded is delivered while fewer than 256 payloads are unread, and else lost. */
  lemma ForwardsDeliverWhileThereIsRoom(p: Pipe)
    requires p.inFlight != []
    ensures var p' := Do(p, Forward);
      && p'.inFlight == p.inFlight[1..] && p'.written == p.written
      && (|p.reader.inbound| < 256 ==>
          && p'.reader.inbound == p.reader.inbound + [p.inFlight[0]]
          && p'.reader.delivered == p.reader.delivered + [p.inFlight[0]]
          && p'.lost == p.lost)
      && (|p.reader.inbound| >= 256 ==> p'.reader == p.reader && p'.lost == p.lost + [p.inFlight[0]])
  {
  }

  ghost predicate IsRun(pipes: seq<Pipe>, ops: seq<Op>) {
    && |pipes| == |ops| + 1
    && pipes[0] == EMPTY_PIPE
    && forall i :: 0 <= i < |ops| ==> CanDo(pipes[i], ops[i]) && pipes[i + 1] == Do(pipes[i], ops[i])
  }

  /** The step forwards a frame into a channel that already holds 256 unread payloads. */
  predicate Overflows(p: Pipe, op: Op) {
    op == Forward && !HasRoom(p.reader)
  }

  ghost predicate Overflowed(pipes: seq<Pipe>, ops: seq<Op>, i: nat)
    requires |pipes| == |ops| + 1 && i < |pipes|
  {
    exists j :: 0 <= j < i && Overflows(pipes[j], ops[j])
  }

  ghost predicate FramesFit(p: Pipe) {
    forall f :: f in p.inFlight + p.reader.inbound + p.lost ==> 0 < |f| <= Circuit.MAX_RELAY_PAYLOAD
  }

  /** Every written byte is delivered, on the way or lost, and without loss in that order. */
  ghost predicate Conserved(p: Pipe) {
    && ReaderConserves(p.reader)
    && FramesFit(p)
    && |p.written| == |Flatten(p.reader.delivered)| + |Flatten(p.inFlight)| + |Flatten(p.lost)|
    && (p.lost == [] ==> p.written == Flatten(p.reader.delivered) + Flatten(p.inFlight))
  }

  lemma WriteConserves(p: Pipe, buf: Bytes)
    requires Conserved(p) && buf != []
    ensures Conserved(Do(p, Write(buf)))
  {
    var f, p' := FrameOf(buf), Do(p, Write(buf));
    FlattenAppend(p.inFlight, [f]);
    FlattenOne(f);
    Associates(Flatten(p.reader.delivered), Flatten(p.inFlight), f);
    forall g | g in p'.inFlight + p'.reader.inbound + p'.lost
      ensures 0 < |g| <= Circuit.MAX_RELAY_PAYLOAD
    {
      assert g != f ==> g in p.inFlight + p.reader.inbound + p.lost;
    }
  }

  lemma ForwardKeepsFrames(p: Pipe)
    requires FramesFit(p) && CanDo(p, Forward)
    ensures FramesFit(Do(p, Forward))
  {
    var p' := Do(p, Forward);
    forall g | g in p'.inFlight + p'.reader.inbound + p'.lost
      ensures 0 < |g| <= Circuit.MAX_RELAY_PAYLOAD
    {
      assert g in p.inFlight + p.reader.inbound + p.lost;
    }
  }

  lemma ForwardConserves(p: Pipe)
    requires Conserved(p) && CanDo(p, Forward)
    ensures Conserved(Do(p, Forward))
  {
    var f, rest := p.inFlight[0], p.inFlight[1..];
    ForwardKeepsFrames(p);
    FlattenOne(f);
    assert Flatten(p.inFlight) == f + Flatten(rest);
    if HasRoom(p.reader) {
      DeliverConserves(p.reader, f);
      FlattenAppend(p.reader.delivered, [f]);
      Associates(Flatten(p.reader.delivered), f, Flatten(rest));
    } else {
      FlattenAppend(p.lost, [f]);
    }
  }

  lemma ReceiveConserves(p: Pipe, room: nat)
    requires Conserved(p)
    ensures Conserved(Do(p, Receive(room)))
  {
    var p' := Do(p, Receive(room));
    ReadConserves(p.reader, room);
    forall g | g in p'.inFlight + p'.reader.inbound + p'.lost
      ensures 0 < |g| <= Circuit.MAX_RELAY_PAYLOAD
    {
      assert g in p.inFlight + p.reader.inbound + p.lost;
    }
  }

  lemma LosesExactlyOnOverflow(p: Pipe, op: Op)
    requires CanDo(p, op)
    ensures Do(p, op).lost != [] <==> p.lost != [] || Overflows(p, op)
  {
  }

  lemma OverflowedGrows(pipes: seq<Pipe>, ops: seq<Op>, i: nat)
    requires |pipes| == |ops| + 1 && i < |ops|
    ensures Overflowed(pipes, ops, i + 1) <==> Overflowed(pipes, ops, i) || Overflows(pipes[i], ops[i])
  {
  }

  lemma StepConserves(p: Pipe, op: Op)
    requires Conserved(p) && CanDo(p, op)
    ensures Conserved(Do(p, op))
  {
    hide Do, Conserved;
    match op
    case Write(buf) => WriteConserves(p, buf);
    case Forward => ForwardConserves(p);
    case Receive(room) => ReceiveConserves(p, room);
  }

  lemma NothingIsConserved()
    ensures Conserved(EMPTY_PIPE)
  {
  }

  /** Over every run bytes are conserved, and a frame is lost exactly when a channel overflows. */
  lemma {:induction false} RunsConserve(pipes: seq<Pipe>, ops: seq<Op>, i: nat)
    requires IsRun(pipes, ops) && i < |pipes|
    ensures Conserved(pipes[i])
    ensures pipes[i].lost != [] <==> Overflowed(pipes, ops, i)
  {
    hide Do, Conserved;
    if i == 0 {
      NothingIsConserved();
    } else {
      RunsConserve(pipes, ops, i - 1);
      StepConserves(pipes[i - 1], ops[i - 1]);
      LosesExactlyOnOverflow(pipes[i - 1], ops[i - 1]);
      OverflowedGrows(pipes, ops, i - 1);
    }
  }

  /** Nothing is on the way and nothing is left to read. */
  predicate Drained(p: Pipe) {
    p.inFlight == [] && p.reader.inbound == [] && p.reader.carry == []
  }

  lemma SomeByteIsLost(p: Pipe)
    requires FramesFit(p) && p.lost != []
    ensures |Flatten(p.lost)| > 0
  {
    assert p.lost[0] in p.inFlight + p.reader.inbound + p.lost;
  }

  /** When the reader gets what the writer wrote: as long as no frame has met a full channel the
    * bytes read are a prefix of the bytes written, and once all is drained they are all of them
    * if and only if none ever did.
    */
  lemma ReadsAreWritesExactlyUnlessOverflowed(pipes: seq<Pipe>, ops: seq<Op>, i: nat)
    requires IsRun(pipes, ops) && i < |pipes|
    ensures !Overflowed(pipes, ops, i) ==> pipes[i].reader.got <= pipes[i].written
    ensures Drained(pipes[i]) ==> (pipes[i].reader.got == pipes[i].written <==> !Overflowed(pipes, ops, i))
  {
    RunsConserve(pipes, ops, i);
    var p := pipes[i];
    if p.lost != [] {
      SomeByteIsLost(p);
    }
    assert Drained(p) ==> Unread(p.reader.carry, p.reader.inbound) == [];
  }

  /** No frame on the way exceeds the cap both ends check, and a read with room returns nothing
    * only when every delivered byte has been read.
    */
  lemma FramesFitAndReadsMakeProgress(pipes: seq<Pipe>, ops: seq<Op>, i: nat, room: nat)
    requires IsRun(pipes, ops) && i < |pipes| && room > 0
    ensures forall f :: f in pipes[i].inFlight ==> |f| <= Circuit.MAX_RELAY_PAYLOAD
    ensures var r := pipes[i].reader;
      Taken(r.carry, r.inbound, room) == [] <==> r.got == Flatten(r.delivered)
  {
    RunsConserve(pipes, ops, i);
    var p, r := pipes[i], pipes[i].reader;
    forall f | f in p.inFlight
      ensures |f| <= Circuit.MAX_RELAY_PAYLOAD
    {
      assert f in p.inFlight + r.inbound + p.lost;
    }
    ZeroReadExactlyWhen(r.carry, r.inbound, room);
    if r.inbound != [] {
      assert r.inbound[0] in p.inFlight + r.inbound + p.lost;
      assert |Flatten(r.inbound)| >= |r.inbound[0]|;
    }
    assert |Flatten(r.delivered)| == |r.got| + |r.carry| + |Flatten(r.inbound)|;
  }

  // ---------------------------------------------------------------- a lost frame

  lemma RunsOn(pipes: seq<Pipe>, ops: seq<Op>, op: Op)
    requires IsRun(pipes, ops) && CanDo(pipes[|ops|], op)
    ensures IsRun(pipes + [Do(pipes[|ops|], op)], ops + [op])
  {
    var pipes', ops' := pipes + [Do(pipes[|ops|], op)], ops + [op];
    forall i | 0 <= i < |ops'|
      ensures CanDo(pipes'[i], ops'[i]) && pipes'[i + 1] == Do(pipes'[i], ops'[i])
    {
      if i < |ops| {
        assert pipes'[i] == pipes[i] && pipes'[i + 1] == pipes[i + 1] && ops'[i] == ops[i];
      }
    }
  }

  /** The channel after `n` one-byte frames have been delivered and none read. */
  lemma {:induction false} ChannelFills(n: nat) returns (pipes: seq<Pipe>, ops: seq<Op>)
    requires n <= Circuit.RELAY_TUNNEL_INBOUND_CAP
    ensures IsRun(pipes, ops)
    ensures var p := pipes[|ops|];
      p.inFlight == [] && p.lost == [] && p.reader.carry == [] && |p.reader.inbound| == n
    ensures forall f :: f in pipes[|ops|].reader.inbound ==> f == [7]
  {
    if n == 0 {
      pipes, ops := [EMPTY_PIPE], [];
    } else {
      pipes, ops := ChannelFills(n - 1);
      var before := pipes[|ops|];
      RunsOn(pipes, ops, Write([7]));
      pipes, ops := pipes + [Do(before, Write([7]))], ops + [Write([7])];
      var sent := pipes[|ops|];
      assert FrameOf([7]) == [7] && sent.inFlight == [[7]];
      RunsOn(pipes, ops, Forward);
      pipes, ops := pipes + [Do(sent, Forward)], ops + [Forward];
      assert pipes[|ops|].reader.inbound == before.reader.inbound + [[7]];
    }
  }

  /** A run in which a frame meets a full channel and is lost; the reader is told nothing, and its
    * next read returns data as if the frame had never been sent.
    */
  lemma LostFrameGoesUnnoticed() returns (pipes: seq<Pipe>, ops: seq<Op>)
    ensures IsRun(pipes, ops) && |ops| >= 2 && ops[|ops| - 1] == Receive(1)
    ensures Overflows(pipes[|ops| - 2], ops[|ops| - 2]) && pipes[|ops|].lost == [[9]]
    ensures pipes[|ops| - 1].reader == pipes[|ops| - 2].reader
    ensures pipes[|ops|].reader.got == pipes[|ops| - 1].reader.got + [7]
  {
    pipes, ops := ChannelFills(Circuit.RELAY_TUNNEL_INBOUND_CAP);
    var full := pipes[|ops|];
    RunsOn(pipes, ops, Write([9]));
    pipes, ops := pipes + [Do(full, Write([9]))], ops + [Write([9])];
    var sent := pipes[|ops|];
    assert FrameOf([9]) == [9] && sent.inFlight == [[9]];
    RunsOn(pipes, ops, Forward);
    pipes, ops := pipes + [Do(sent, Forward)], ops + [Forward];
    var after := pipes[|ops|];
    RunsOn(pipes, ops, Receive(1));
    pipes, ops := pipes + [Do(after, Receive(1))], ops + [Receive(1)];
    assert after.reader.inbound[0] in full.reader.inbound;
    assert Taken(after.reader.carry, after.reader.inbound, 1) == [7];
  }
}
