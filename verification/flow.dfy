/** One direction of one stream: a sender with a window, the wire to the receiver, and the wire
    that brings credit back. The upload (edge to agent) and the download (agent to edge) are both
    lanes, so everything about integrity and credit is proved here once. */
module Flow {
  import opened Frames

  /** The sending task: between payloads, waiting for credit for `chunks[0]`, or holding that
      credit and about to queue the frame. `Ended` means End was queued. */
  datatype Pump = Idle | Sending(chunks: seq<Bytes>) | Taken(chunks: seq<Bytes>) | Ended | Stopped

  /** How the sending loop of either side ends; Parked when it waits for credit with some chunks left. */
  datatype SendResult = Sent | StreamGone | Parked

  datatype Lane = Lane(
    pump: Pump,
    consumed: Bytes,     // what the sending task has read from its source
    queued: Bytes,       // what it has put into Data frames
    permits: nat,        // the sender's semaphore
    senderLive: bool,    // the sender has not given the stream up
    wire: seq<Frame>,    // towards the receiver
    inHand: Bytes,       // taken off the wire, not yet buffered (or about to be dropped)
    crediting: nat,      // buffered, the WindowUpdate not yet queued
    recvLive: bool,      // the receiver has not given the stream up
    endSeen: bool,       // End was processed while the receiver still had the stream
    delivered: Bytes,    // everything put into the receiver's body channel
    back: seq<Frame>,    // towards the sender
    severed: bool        // one of the outbound queues has been closed
  )

  /** The pump after the frame for its first chunk has been queued. */
  function AfterFrame(p: Pump): Pump
    requires p.Taken? && p.chunks != []
  {
    if |p.chunks| == 1 then Idle else Sending(p.chunks[1..])
  }

  function InPump(p: Pump): nat {
    if p.Taken? && p.chunks != [] then |p.chunks[0]| else 0
  }

  /** Bytes on their way, in either form: payload towards the receiver, credit coming back. */
  function InTransit(l: Lane): nat {
    |Payload(l.wire)| + |l.inHand| + l.crediting + Grants(l.back)
  }

  ghost predicate PumpOk(l: Lane) {
    match l.pump
    case Idle => l.consumed == l.queued
    case Ended => l.consumed == l.queued
    case Sending(cs) => cs != [] && Chunked(cs) && l.consumed == l.queued + Flatten(cs)
    case Taken(cs) => cs != [] && Chunked(cs) && l.consumed == l.queued + Flatten(cs)
    case Stopped => l.queued <= l.consumed
  }

  ghost predicate Integrity(l: Lane) {
    && l.delivered + l.inHand <= l.queued
    && (l.recvLive && !l.endSeen ==> l.delivered + l.inHand + Payload(l.wire) == l.queued)
    && (l.endSeen ==> l.delivered == l.consumed && l.inHand == [] && l.pump.Ended? && NoData(l.wire) && !HasEnd(l.wire))
  }

  ghost predicate Credit(window: nat, l: Lane) {
    && l.permits + InPump(l.pump) + InTransit(l) <= window
    && (l.senderLive && l.recvLive && !l.severed ==> l.permits + InPump(l.pump) + InTransit(l) == window)
  }

  ghost predicate WireOk(l: Lane) {
    && Sized(l.wire)
    && EndClean(l.wire)
    && (HasEnd(l.wire) ==> l.pump.Ended?)
    && |l.inHand| <= MAX_CHUNK
  }

  ghost predicate LaneInv(window: nat, l: Lane) {
    PumpOk(l) && Integrity(l) && Credit(window, l) && WireOk(l)
  }

  // ---- what can happen to a lane ------------------------------------------------------

  datatype Op =
    | Read(payload: Bytes)      // the task reads its source and starts on the payload
    | Spill(payload: Bytes)     // it reads, finds the stream gone, and stops
    | Take
    | Queue(f: Frame)
    | QueueEnd(f: Frame)
    | Stop
    | QueueOther(f: Frame)      // a frame that is neither Data nor End joins the wire
    | SenderGone
    | ReceiveData
    | ReceiveEnd
    | ReceiveOther
    | Deliver
    | Discard
    | ReceiverGone
    | Return(f: Frame)          // the receiver queues a WindowUpdate
    | ReturnLost
    | BackOther(f: Frame)       // some other frame joins the wire back
    | Grant                     // a WindowUpdate reaches the sender
    | BackSkip                  // some other frame leaves the wire back
    | Sever
    | Stay

  ghost predicate Enabled(l: Lane, op: Op) {
    match op
    case Read(p) => l.pump.Idle? && p != []
    case Spill(p) => l.pump.Idle?
    case Take => l.pump.Sending? && l.pump.chunks != [] && |l.pump.chunks[0]| <= l.permits
    case Queue(f) => l.pump.Taken? && l.pump.chunks != [] && f.Data? && f.payload == l.pump.chunks[0]
    case QueueEnd(f) => l.pump.Idle? && f.End?
    case Stop => !l.pump.Ended? && (l.pump.Taken? ==> l.severed)
    case QueueOther(f) => !f.Data? && !f.End?
    case SenderGone => true
    case ReceiveData => l.wire != [] && l.wire[0].Data? && l.inHand == [] && l.crediting == 0
    case ReceiveEnd => l.wire != [] && l.wire[0].End? && l.inHand == [] && l.crediting == 0
    case ReceiveOther => l.wire != [] && !l.wire[0].Data? && !l.wire[0].End?
    case Deliver => l.crediting == 0
    case Discard => true
    case ReceiverGone => true
    case Return(f) => f.WindowUpdate? && f.increment == l.crediting
    case ReturnLost => l.severed || l.crediting == 0
    case BackOther(f) => !f.WindowUpdate?
    case Grant => l.back != [] && l.back[0].WindowUpdate?
    case BackSkip => l.back != [] && !l.back[0].WindowUpdate?
    case Sever => true
    case Stay => true
  }

  ghost function After(l: Lane, op: Op): Lane
    requires Enabled(l, op)
  {
    match op
    case Read(p) => l.(pump := Sending(Cut(p)), consumed := l.consumed + p)
    case Spill(p) => l.(pump := Stopped, consumed := l.consumed + p)
    case Take => l.(pump := Taken(l.pump.chunks), permits := l.permits - |l.pump.chunks[0]|)
    case Queue(f) =>
      l.(pump := AfterFrame(l.pump), queued := l.queued + f.payload, wire := l.wire + [f])
    case QueueEnd(f) => l.(pump := Ended, wire := l.wire + [f])
    case Stop => l.(pump := Stopped)
    case QueueOther(f) => l.(wire := l.wire + [f])
    case SenderGone => l.(senderLive := false)
    case ReceiveData => l.(wire := l.wire[1..], inHand := if l.recvLive then l.wire[0].payload else [])
    case ReceiveEnd => l.(wire := l.wire[1..], endSeen := l.endSeen || l.recvLive)
    case ReceiveOther => l.(wire := l.wire[1..])
    case Deliver => l.(delivered := l.delivered + l.inHand, inHand := [], crediting := |l.inHand|)
    case Discard => l.(recvLive := false, inHand := [])
    case ReceiverGone => l.(recvLive := false)
    case Return(f) => l.(crediting := 0, back := l.back + [f])
    case ReturnLost => l.(crediting := 0)
    case BackOther(f) => l.(back := l.back + [f])
    case Grant => l.(back := l.back[1..], permits := if l.senderLive then l.permits + l.back[0].increment else l.permits)
    case BackSkip => l.(back := l.back[1..])
    case Sever => l.(severed := true)
    case Stay => l
  }

  /** Nothing that can happen to a lane breaks its integrity or loses track of its credit. */
  lemma LanePreserved(window: nat, l: Lane, op: Op)
    requires LaneInv(window, l) && Enabled(l, op)
    ensures LaneInv(window, After(l, op))
  {
    match op
    case Read(_) => PumpMoves(window, l, op);
    case Spill(_) => PumpMoves(window, l, op);
    case Take => PumpMoves(window, l, op);
    case Stop => PumpMoves(window, l, op);
    case Queue(f) => FrameQueued(window, l, op, f);
    case QueueEnd(f) => FrameQueued(window, l, op, f);
    case QueueOther(f) => FrameQueued(window, l, op, f);
    case ReceiveData => FrameReceived(window, l, op);
    case ReceiveEnd => FrameReceived(window, l, op);
    case ReceiveOther => FrameReceived(window, l, op);
    case Deliver => assert After(l, op).delivered + [] == l.delivered + l.inHand;
    case Return(f) => GrantsAppend(l.back, f);
    case BackOther(f) => GrantsAppend(l.back, f);
    case _ =>
  }

  lemma PumpMoves(window: nat, l: Lane, op: Op)
    requires LaneInv(window, l) && Enabled(l, op)
    requires op.Read? || op.Spill? || op.Take? || op.Stop?
    ensures LaneInv(window, After(l, op))
  {
  }

  lemma FrameQueued(window: nat, l: Lane, op: Op, f: Frame)
    requires LaneInv(window, l) && Enabled(l, op)
    requires op == Queue(f) || op == QueueEnd(f) || op == QueueOther(f)
    ensures LaneInv(window, After(l, op))
  {
    PayloadAppend(l.wire, f);
    match op
    case Queue(_) =>
      QueueKeepsPump(l, f);
      QueueKeepsWire(l, f);
    case QueueEnd(_) =>
      assert After(l, op).wire[|l.wire|] == f;
    case _ =>
  }

  lemma FrameReceived(window: nat, l: Lane, op: Op)
    requires LaneInv(window, l) && Enabled(l, op)
    requires op.ReceiveData? || op.ReceiveEnd? || op.ReceiveOther?
    ensures LaneInv(window, After(l, op))
  {
    ReceiveKeepsWire(l);
    if op.ReceiveEnd? {
      NoDataNoPayload(l.wire[1..]);
    }
    if op.ReceiveData? {
      assert l.delivered + l.inHand == l.delivered;
      assert l.delivered + (l.wire[0].payload + Payload(l.wire[1..])) == l.delivered + l.wire[0].payload + Payload(l.wire[1..]);
    }
  }

  lemma QueueKeepsPump(l: Lane, f: Frame)
    requires PumpOk(l) && Enabled(l, Queue(f))
    ensures PumpOk(After(l, Queue(f)))
  {
    var cs := l.pump.chunks;
    assert cs[1..] == [] <==> |cs| == 1;
    assert l.queued + (cs[0] + Flatten(cs[1..])) == l.queued + cs[0] + Flatten(cs[1..]);
  }

  lemma QueueKeepsWire(l: Lane, f: Frame)
    requires PumpOk(l) && WireOk(l) && Integrity(l) && Enabled(l, Queue(f))
    ensures WireOk(After(l, Queue(f))) && Integrity(After(l, Queue(f)))
  {
    var m := After(l, Queue(f));
    PayloadAppend(l.wire, f);
    assert !HasEnd(l.wire);
    assert l.delivered + l.inHand + (Payload(l.wire) + f.payload) == l.delivered + l.inHand + Payload(l.wire) + f.payload;
  }

  lemma ReceiveKeepsWire(l: Lane)
    requires WireOk(l) && l.wire != []
    ensures Sized(l.wire[1..]) && EndClean(l.wire[1..])
    ensures HasEnd(l.wire[1..]) ==> HasEnd(l.wire)
    ensures l.wire[0].End? ==> NoData(l.wire[1..]) && !HasEnd(l.wire[1..])
  {
    var t := l.wire[1..];
    forall j, k | 0 <= j < k < |t| && t[j].End?
      ensures !t[k].Data? && !t[k].End?
    {
      assert l.wire[j + 1].End?;
      assert t[k] == l.wire[k + 1];
    }
    if HasEnd(t) {
      var k :| 0 <= k < |t| && t[k].End?;
      assert l.wire[k + 1].End?;
    }
    if l.wire[0].End? {
      forall k | 0 <= k < |t|
        ensures !t[k].Data? && !t[k].End?
      {
        assert t[k] == l.wire[k + 1];
      }
    }
  }
}
