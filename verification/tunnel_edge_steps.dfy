/** Each step of the edge keeps the view of the stream it works on in order. */
module TunnelEdgeSteps {
  import opened Wrappers
  import opened Frames
  import opened Flow
  import E = Edge
  import A = Agent
  import opened EdgeRuns
  import opened Tunnel

  /** The view moves by one op on each lane. */
  lemma LanesMove(window: nat, i: nat, v: View, v': View, up: Op, down: Op)
    requires ViewOk(window, i, v)
    requires Enabled(UpLane(v), up) && UpLane(v') == After(UpLane(v), up)
    requires Enabled(DownLane(window, v), down) && DownLane(window, v') == After(DownLane(window, v), down)
    ensures LaneInv(window, UpLane(v')) && LaneInv(window, DownLane(window, v'))
  {
    LanePreserved(window, UpLane(v), up);
    LanePreserved(window, DownLane(window, v), down);
  }

  /** What a step does to the upload lane. */
  function UpOp(i: nat, window: nat, queueOpen: bool, st: E.EdgeStream, a: E.EdgeLocal): Op {
    match a
    case Handle(h) => HandlerOp(i, window, queueOpen, st, h)
    case Upload(u) => UploadOp(i, queueOpen, st, u)
  }

  function HandlerOp(i: nat, window: nat, queueOpen: bool, st: E.EdgeStream, h: E.HandlerStep): Op {
    match h
    case SendOpen => if queueOpen then QueueOther(Frame.Open(i, window)) else Stay
    case HandlerClose => if st.inTable then SenderGone else Stay
    case SendReset(fits) => if queueOpen && (st.handler.TimedOutClosed? || fits) then QueueOther(Frame.Reset(i)) else Stay
    case _ => Stay
  }

  function UploadOp(i: nat, queueOpen: bool, st: E.EdgeStream, u: E.UploadStep): Op {
    match u
    case ReadBody(p) => if st.inTable then Read(p) else Spill(p)
    case EndBody => if queueOpen then QueueEnd(Frame.End(i)) else Stop
    case FailBody => Stop
    case PumpStop => Stop
    case TakeCredit => Take
    case SendData => if queueOpen && st.pump.Taken? && st.pump.chunks != [] then Queue(Frame.Data(i, st.pump.chunks[0])) else Stop
    case PumpClose => if st.inTable then SenderGone else Stay
    case PumpReset => if queueOpen then QueueOther(Frame.Reset(i)) else Stay
  }

  /** And to the download lane, whose way back is the same FIFO. */
  function Mirror(op: Op): Op {
    match op
    case SenderGone => ReceiverGone
    case QueueOther(f) => BackOther(f)
    case QueueEnd(f) => BackOther(f)
    case Queue(f) => BackOther(f)
    case _ => Stay
  }

  ghost predicate HandlerUp(window: nat, i: nat, v: View, h: E.HandlerStep)
    requires E.HandlerMove(i, window, v.eOpen, v.st, h).Some?
  {
    var m := E.HandlerMove(i, window, v.eOpen, v.st, h).value;
    var v' := v.(st := m.st, down := v.down + m.out);
    var op := HandlerOp(i, window, v.eOpen, v.st, h);
    Enabled(UpLane(v), op) && UpLane(v') == After(UpLane(v), op)
  }

  lemma OpeningUpLane(window: nat, i: nat, v: View, h: E.HandlerStep)
    requires LifeOk(window, v.st) && E.HandlerMove(i, window, v.eOpen, v.st, h).Some? && h.SendOpen?
    ensures HandlerUp(window, i, v, h)
  {
    assert v.down + [] == v.down;
  }

  lemma ClosingUpLane(window: nat, i: nat, v: View, h: E.HandlerStep)
    requires LifeOk(window, v.st) && E.HandlerMove(i, window, v.eOpen, v.st, h).Some? && h.HandlerClose?
    ensures HandlerUp(window, i, v, h)
  {
    assert v.down + [] == v.down;
  }

  lemma ResettingUpLane(window: nat, i: nat, v: View, h: E.HandlerStep)
    requires LifeOk(window, v.st) && E.HandlerMove(i, window, v.eOpen, v.st, h).Some? && h.SendReset?
    ensures HandlerUp(window, i, v, h)
  {
    assert v.down + [] == v.down;
  }

  /** The other steps of the handler touch nothing that the upload lane sees. */
  lemma SilentSteps(window: nat, i: nat, queueOpen: bool, st: E.EdgeStream, h: E.HandlerStep)
    requires E.HandlerMove(i, window, queueOpen, st, h).Some?
    requires !h.SendOpen? && !h.HandlerClose? && !h.SendReset?
    ensures
      var m := E.HandlerMove(i, window, queueOpen, st, h).value;
      && m.out == [] && HandlerOp(i, window, queueOpen, st, h) == Stay
      && m.st.pump == st.pump && m.st.body == st.body && m.st.queued == st.queued && m.st.permits == st.permits
      && m.st.closer.Untouched? == st.closer.Untouched?
  {
  }

  lemma SilentUpLane(window: nat, i: nat, v: View, h: E.HandlerStep)
    requires E.HandlerMove(i, window, v.eOpen, v.st, h).Some?
    requires !h.SendOpen? && !h.HandlerClose? && !h.SendReset?
    ensures HandlerUp(window, i, v, h)
  {
    SilentSteps(window, i, v.eOpen, v.st, h);
    var m := E.HandlerMove(i, window, v.eOpen, v.st, h).value;
    assert v.down + [] == v.down;
    assert UpLane(v.(st := m.st, down := v.down + m.out)) == UpLane(v);
  }

  lemma HandlerUpLane(window: nat, i: nat, v: View, h: E.HandlerStep)
    requires LifeOk(window, v.st) && E.HandlerMove(i, window, v.eOpen, v.st, h).Some?
    ensures HandlerUp(window, i, v, h)
  {
    match h
    case SendOpen => OpeningUpLane(window, i, v, h);
    case HandlerClose => ClosingUpLane(window, i, v, h);
    case SendReset(_) => ResettingUpLane(window, i, v, h);
    case _ => SilentUpLane(window, i, v, h);
  }

  ghost predicate UploadUp(i: nat, v: View, u: E.UploadStep)
    requires E.UploadMove(i, v.eOpen, v.st, u).Some?
  {
    var m := E.UploadMove(i, v.eOpen, v.st, u).value;
    var v' := v.(st := m.st, down := v.down + m.out);
    var op := UploadOp(i, v.eOpen, v.st, u);
    Enabled(UpLane(v), op) && UpLane(v') == After(UpLane(v), op)
  }

  lemma ReadingUpLane(window: nat, i: nat, v: View, u: E.UploadStep)
    requires LifeOk(window, v.st) && E.UploadMove(i, v.eOpen, v.st, u).Some? && (u.ReadBody? || u.EndBody?)
    ensures UploadUp(i, v, u)
  {
    assert v.down + [] == v.down;
  }

  lemma SendingUpLane(window: nat, i: nat, v: View, u: E.UploadStep)
    requires LifeOk(window, v.st) && E.UploadMove(i, v.eOpen, v.st, u).Some? && (u.TakeCredit? || u.SendData? || u.PumpStop?)
    ensures UploadUp(i, v, u)
  {
    assert v.down + [] == v.down;
  }

  lemma FailingUpLane(window: nat, i: nat, v: View, u: E.UploadStep)
    requires LifeOk(window, v.st) && E.UploadMove(i, v.eOpen, v.st, u).Some? && (u.FailBody? || u.PumpClose? || u.PumpReset?)
    ensures UploadUp(i, v, u)
  {
    assert v.down + [] == v.down;
  }

  lemma UploadUpLane(window: nat, i: nat, v: View, u: E.UploadStep)
    requires LifeOk(window, v.st) && E.UploadMove(i, v.eOpen, v.st, u).Some?
    ensures UploadUp(i, v, u)
  {
    if u.ReadBody? || u.EndBody? {
      ReadingUpLane(window, i, v, u);
    } else if u.FailBody? || u.PumpClose? || u.PumpReset? {
      FailingUpLane(window, i, v, u);
    } else {
      SendingUpLane(window, i, v, u);
    }
  }

  /** What a step may queue: nothing, Open when it announces the stream, and any other single
      frame of its own stream only once that is announced. */
  ghost predicate SoundOutput(window: nat, i: nat, st: E.EdgeStream, m: E.EdgeMove, op: Op) {
    && m.st.handed == st.handed && m.st.endSeen == st.endSeen
    && m.st.closer.Untouched? == (st.closer.Untouched? && !op.SenderGone?)
    && m.out == (match op
                 case QueueOther(f) => [f]
                 case QueueEnd(f) => [f]
                 case Queue(f) => [f]
                 case _ => [])
    && (match op case QueueOther(f) => !f.WindowUpdate? case QueueEnd(f) => f.End? case Queue(f) => f.Data? case _ => true)
    && ((m.out == [] && m.st.announced == st.announced)
        || (m.out == [Frame.Open(i, window)] && !st.announced && m.st.announced)
        || (|m.out| == 1 && m.out[0].id == i && !m.out[0].Open? && st.announced && m.st.announced))
  }

  lemma HandlerOutput(window: nat, i: nat, queueOpen: bool, st: E.EdgeStream, h: E.HandlerStep)
    requires LifeOk(window, st) && E.HandlerMove(i, window, queueOpen, st, h).Some?
    ensures SoundOutput(window, i, st, E.HandlerMove(i, window, queueOpen, st, h).value, HandlerOp(i, window, queueOpen, st, h))
  {
  }

  lemma UploadOutput(window: nat, i: nat, queueOpen: bool, st: E.EdgeStream, u: E.UploadStep)
    requires LifeOk(window, st) && E.UploadMove(i, queueOpen, st, u).Some?
    ensures SoundOutput(window, i, st, E.UploadMove(i, queueOpen, st, u).value, UploadOp(i, queueOpen, st, u))
  {
  }

  /** The download lane only sees the frames on its way back and the stream being given up. */
  lemma MirrorLane(window: nat, i: nat, v: View, m: E.EdgeMove, op: Op)
    requires SoundOutput(window, i, v.st, m, op)
    ensures
      var v' := v.(st := m.st, down := v.down + m.out);
      && Enabled(DownLane(window, v), Mirror(op))
      && DownLane(window, v') == After(DownLane(window, v), Mirror(op))
  {
    assert v.down + [] == v.down;
  }

  lemma SentLinks(window: nat, i: nat, v: View, m: E.EdgeMove, op: Op)
    requires Linked(window, i, v) && SoundOutput(window, i, v.st, m, op)
    ensures Linked(window, i, v.(st := m.st, down := v.down + m.out))
  {
    if m.out == [] {
      assert v.down + m.out == v.down;
    }
  }

  lemma LocalKeepsView(window: nat, i: nat, v: View, a: E.EdgeLocal)
    requires ViewOk(window, i, v) && LifeOk(window, v.st)
    requires E.LocalMove(i, window, v.eOpen, v.st, a).Some?
    ensures
      var m := E.LocalMove(i, window, v.eOpen, v.st, a).value;
      ViewOk(window, i, v.(st := m.st, down := v.down + m.out))
  {
    var m := E.LocalMove(i, window, v.eOpen, v.st, a).value;
    var v' := v.(st := m.st, down := v.down + m.out);
    var op := UpOp(i, window, v.eOpen, v.st, a);
    match a {
      case Handle(h) =>
        HandlerUpLane(window, i, v, h);
        HandlerOutput(window, i, v.eOpen, v.st, h);
      case Upload(u) =>
        UploadUpLane(window, i, v, u);
        UploadOutput(window, i, v.eOpen, v.st, u);
    }
    MirrorLane(window, i, v, m, op);
    SentLinks(window, i, v, m, op);
    LanesMove(window, i, v, v', op, Mirror(op));
  }

  /** The view after the read loop has taken a frame. */
  function AfterReceive(v: View, f: ClientFrame): View
    requires v.up != []
  {
    var (st, loop) := E.Receive(v.st, f);
    v.(st := st, eloop := loop, up := v.up[1..])
  }

  /** What that has done to the upload lane, and to the download lane. */
  ghost predicate UpAfter(v: View, f: ClientFrame, op: Op)
    requires v.up != []
  {
    Enabled(UpLane(v), op) && UpLane(AfterReceive(v, f)) == After(UpLane(v), op)
  }

  ghost predicate DownAfter(window: nat, v: View, f: ClientFrame, op: Op)
    requires v.up != []
  {
    Enabled(DownLane(window, v), op) && DownLane(window, AfterReceive(v, f)) == After(DownLane(window, v), op)
  }

  function UpOf(f: Frame): Op {
    if f.WindowUpdate? then Grant else BackSkip
  }

  function DownOf(f: Frame): Op {
    if f.Data? then ReceiveData else if f.End? then ReceiveEnd else ReceiveOther
  }

  lemma CreditUp(v: View, f: ClientFrame)
    requires v.st.closer.Untouched? == v.st.inTable
    requires v.eloop.Ready? && v.up != [] && v.up[0] == f && f.WindowUpdate?
    ensures UpAfter(v, f, Grant)
  {
  }

  lemma SkippedUp(v: View, f: ClientFrame)
    requires v.eloop.Ready? && v.up != [] && v.up[0] == f && !f.WindowUpdate?
    ensures UpAfter(v, f, BackSkip)
  {
  }

  lemma DataDown(window: nat, v: View, f: ClientFrame)
    requires v.st.closer.Untouched? == v.st.inTable
    requires v.eloop.Ready? && v.up != [] && v.up[0] == f && f.Data?
    ensures DownAfter(window, v, f, ReceiveData)
  {
  }

  lemma EndDown(window: nat, v: View, f: ClientFrame)
    requires v.st.closer.Untouched? == v.st.inTable
    requires v.eloop.Ready? && v.up != [] && v.up[0] == f && f.End?
    ensures DownAfter(window, v, f, ReceiveEnd)
  {
  }

  lemma OtherDown(window: nat, v: View, f: ClientFrame)
    requires v.eloop.Ready? && v.up != [] && v.up[0] == f && !f.Data? && !f.End?
    ensures DownAfter(window, v, f, ReceiveOther)
  {
  }

  lemma ReceiveUp(v: View, f: ClientFrame)
    requires v.st.closer.Untouched? == v.st.inTable
    requires v.eloop.Ready? && v.up != [] && v.up[0] == f
    ensures UpAfter(v, f, UpOf(f))
  {
    if f.WindowUpdate? {
      CreditUp(v, f);
    } else {
      SkippedUp(v, f);
    }
  }

  lemma ReceiveDown(window: nat, v: View, f: ClientFrame)
    requires v.st.closer.Untouched? == v.st.inTable
    requires v.eloop.Ready? && v.up != [] && v.up[0] == f
    ensures DownAfter(window, v, f, DownOf(f))
  {
    match f
    case Data(_, _) => DataDown(window, v, f);
    case End(_) => EndDown(window, v, f);
    case _ => OtherDown(window, v, f);
  }

  lemma ReceiveLinks(window: nat, i: nat, v: View, f: ClientFrame)
    requires Linked(window, i, v) && v.up != []
    ensures Linked(window, i, AfterReceive(v, f))
  {
  }

  lemma KnownIsPlaced(window: nat, i: nat, v: View)
    requires Linked(window, i, v) && LifeOk(window, v.st) && v.up != []
    ensures v.st.closer.Untouched? == v.st.inTable
  {
  }

  /** The read loop takes a frame. */
  lemma ReceiveKeepsView(window: nat, i: nat, v: View, f: ClientFrame)
    requires ViewOk(window, i, v) && LifeOk(window, v.st)
    requires v.eloop.Ready? && v.up != [] && v.up[0] == f
    ensures ViewOk(window, i, AfterReceive(v, f))
  {
    KnownIsPlaced(window, i, v);
    ReceiveUp(v, f);
    ReceiveDown(window, v, f);
    ReceiveLinks(window, i, v, f);
    LanesMove(window, i, v, AfterReceive(v, f), UpOf(f), DownOf(f));
  }

  /** The read loop goes on with what it holds. */
  lemma LoopKeepsView(window: nat, i: nat, v: View, a: E.EdgeAction)
    requires ViewOk(window, i, v) && LifeOk(window, v.st)
    requires E.HasId(v.eloop) && v.eloop.id == i
    requires E.LoopMove(v.eOpen, v.st, v.eloop, a).Some?
    ensures
      var m := E.LoopMove(v.eOpen, v.st, v.eloop, a).value;
      ViewOk(window, i, v.(st := m.st, eloop := m.loop, down := v.down + m.out))
  {
    assert v.down + [] == v.down;
    match a
    case LoopDeliver =>
      if v.st.rxAlive {
        PushKeepsView(window, i, v, v.eloop.chunk);
      } else {
        LoseKeepsView(window, i, v);
      }
    case LoopClose => DiscardKeepsView(window, i, v);
    case LoopGrant => GrantKeepsView(window, i, v);
  }

  lemma LoseKeepsView(window: nat, i: nat, v: View)
    requires ViewOk(window, i, v) && v.eloop.Delivering?
    ensures ViewOk(window, i, v.(eloop := E.Discarding(i, EdgeHand(v.eloop))))
  {
    LanesMove(window, i, v, v.(eloop := E.Discarding(i, EdgeHand(v.eloop))), Stay, Stay);
  }

  function AfterPush(i: nat, c: E.Chunk): E.EdgeLoop {
    if !c.Data? then E.Discarding(i, [])
    else if |c.bytes| > 0 then E.Granting(i, ToU32(|c.bytes|))
    else E.Ready
  }

  lemma PushLane(window: nat, i: nat, v: View, c: E.Chunk)
    requires v.eloop == E.Delivering(i, c) && (c.Data? ==> |c.bytes| <= MAX_CHUNK)
    ensures
      var v' := v.(st := v.st.(channel := v.st.channel + [c], handed := v.st.handed + [c]), eloop := AfterPush(i, c));
      var op := if c.Data? then Deliver else Stay;
      && UpLane(v') == UpLane(v)
      && Enabled(DownLane(window, v), op) && DownLane(window, v') == After(DownLane(window, v), op)
  {
    DataOfAppend(v.st.handed, c);
    assert DataOf(v.st.handed) + [] == DataOf(v.st.handed);
  }

  lemma PushKeepsView(window: nat, i: nat, v: View, c: E.Chunk)
    requires ViewOk(window, i, v) && v.eloop == E.Delivering(i, c)
    ensures ViewOk(window, i, v.(st := v.st.(channel := v.st.channel + [c], handed := v.st.handed + [c]), eloop := AfterPush(i, c)))
  {
    var v' := v.(st := v.st.(channel := v.st.channel + [c], handed := v.st.handed + [c]), eloop := AfterPush(i, c));
    assert |EdgeHand(v.eloop)| <= MAX_CHUNK by {
      assert WireOk(DownLane(window, v));
    }
    assert SmallChunks(v'.st.handed);
    PushLane(window, i, v, c);
    HandedLinks(window, i, v, v'.st, v'.eloop);
    LanesMove(window, i, v, v', Stay, if c.Data? then Deliver else Stay);
  }

  lemma HandedLinks(window: nat, i: nat, v: View, st: E.EdgeStream, loop: E.EdgeLoop)
    requires Linked(window, i, v) && st.announced == v.st.announced && v.ag.Some?
    ensures Linked(window, i, v.(st := st, eloop := loop))
  {
  }

  lemma DiscardKeepsView(window: nat, i: nat, v: View)
    requires ViewOk(window, i, v) && LifeOk(window, v.st) && v.eloop.Discarding?
    ensures ViewOk(window, i, v.(st := E.Close(v.st), eloop := E.Ready))
  {
    LanesMove(window, i, v, v.(st := E.Close(v.st), eloop := E.Ready), if v.st.inTable then SenderGone else Stay, Discard);
  }

  lemma GrantKeepsView(window: nat, i: nat, v: View)
    requires ViewOk(window, i, v) && LifeOk(window, v.st) && v.eloop.Granting?
    ensures
      var out := if v.eOpen then [Frame.WindowUpdate(i, v.eloop.increment)] else [];
      ViewOk(window, i, v.(eloop := E.Ready, down := v.down + out))
  {
    var f := Frame.WindowUpdate(i, v.eloop.increment);
    if v.eOpen {
      var v' := v.(eloop := E.Ready, down := v.down + [f]);
      assert Linked(window, i, v');
      LanesMove(window, i, v, v', QueueOther(f), Return(f));
    } else {
      assert v.down + [] == v.down;
      LanesMove(window, i, v, v.(eloop := E.Ready), Stay, ReturnLost);
    }
  }

  lemma CloseLanes(window: nat, v: View)
    requires LifeOk(window, v.st)
    ensures
      var v' := v.(st := E.Close(v.st));
      var (up, down) := (if v.st.inTable then SenderGone else Stay, if v.st.inTable then ReceiverGone else Stay);
      && Enabled(UpLane(v), up) && UpLane(v') == After(UpLane(v), up)
      && Enabled(DownLane(window, v), down) && DownLane(window, v') == After(DownLane(window, v), down)
  {
  }

  lemma CloseLinks(window: nat, i: nat, v: View)
    requires Linked(window, i, v)
    ensures Linked(window, i, v.(st := E.Close(v.st)))
  {
  }

  /** Teardown closes the stream. */
  lemma CloseKeepsView(window: nat, i: nat, v: View)
    requires ViewOk(window, i, v) && LifeOk(window, v.st)
    ensures ViewOk(window, i, v.(st := E.Close(v.st)))
  {
    CloseLanes(window, v);
    CloseLinks(window, i, v);
    LanesMove(window, i, v, v.(st := E.Close(v.st)),
              if v.st.inTable then SenderGone else Stay, if v.st.inTable then ReceiverGone else Stay);
  }

  /** The additions to and subtractions from the counter are invisible to the lanes. */
  lemma CounterKeepsView(window: nat, i: nat, v: View, st: E.EdgeStream)
    requires ViewOk(window, i, v)
    requires (v.st.handler.Inserted? && st == v.st.(handler := E.Counted))
          || (v.st.closer.SemaphoreClosed? && st == v.st.(closer := E.Finished))
    ensures ViewOk(window, i, v.(st := st))
  {
    assert UpLane(v.(st := st)) == UpLane(v);
    assert DownLane(window, v.(st := st)) == DownLane(window, v);
    assert Linked(window, i, v.(st := st));
  }

  /** A queue that loses its receiver, on either side. */
  lemma SeverKeepsView(window: nat, i: nat, v: View, eOpen: bool, aOpen: bool)
    requires ViewOk(window, i, v)
    requires (eOpen ==> v.eOpen) && (aOpen ==> v.aOpen)
    ensures ViewOk(window, i, v.(eOpen := eOpen, aOpen := aOpen))
  {
    var op := if eOpen && aOpen then Stay else Sever;
    LanesMove(window, i, v, v.(eOpen := eOpen, aOpen := aOpen), op, op);
  }
}
