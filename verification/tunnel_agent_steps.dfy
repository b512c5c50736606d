/** Each step of the agent keeps the view of the stream it works on in order. */
module TunnelAgentSteps {
  import opened Wrappers
  import opened Frames
  import opened Flow
  import E = Edge
  import A = Agent
  import opened EdgeRuns
  import opened Tunnel
  import opened TunnelEdgeSteps

  /** What a task's step does to the download lane. */
  function TaskOp(i: nat, queueOpen: bool, st: A.AgentStream, a: A.AgentLocal): Op {
    match a
    case SendHead => if queueOpen then QueueOther(Frame.ResponseHead(i)) else Stay
    case ReadLocal(p) => if p == [] then Stay else Read(p)
    case LocalError => Stop
    case LocalEnd => if queueOpen then QueueEnd(Frame.End(i)) else Stop
    case TakeCredit => Take
    case PumpStop => Stop
    case SendData => if queueOpen && st.pump.Taken? && st.pump.chunks != [] then Queue(Frame.Data(i, st.pump.chunks[0])) else Stop
    case SendReset => if queueOpen then QueueOther(Frame.Reset(i)) else Stay
    case DropStream => SenderGone
    case _ => Stay
  }

  /** Everything about a task's step that the rest of the view depends on. */
  ghost predicate SoundTask(i: nat, st: A.AgentStream, m: A.AgentMove, op: Op) {
    && m.st.received == st.received && m.st.bodyOpen == st.bodyOpen
    && m.st.inTable == (st.inTable && !op.SenderGone?)
    && AgentOk(m.st)
    && m.out == (match op
                 case QueueOther(f) => [f]
                 case QueueEnd(f) => [f]
                 case Queue(f) => [f]
                 case _ => [])
    && (match op
        case QueueOther(f) => !f.WindowUpdate? && !f.Open? && f.id == i
        case QueueEnd(f) => f == Frame.End(i)
        case Queue(f) => f.Data? && f.id == i
        case _ => true)
  }

  lemma TaskSound(i: nat, queueOpen: bool, st: A.AgentStream, a: A.AgentLocal)
    requires AgentOk(st) && A.LocalMove(i, queueOpen, st, a).Some?
    ensures SoundTask(i, st, A.LocalMove(i, queueOpen, st, a).value, TaskOp(i, queueOpen, st, a))
  {
    if a.PullBody? || a.DropBody? {
      BodyTaskSound(i, queueOpen, st, a);
    } else if a.ReadLocal? || a.LocalError? || a.LocalEnd? {
      ReadTaskSound(i, queueOpen, st, a);
    } else if a.TakeCredit? || a.PumpStop? || a.SendData? {
      PumpTaskSound(i, queueOpen, st, a);
    } else {
      ServeTaskSound(i, queueOpen, st, a);
    }
  }

  lemma BodyTaskSound(i: nat, queueOpen: bool, st: A.AgentStream, a: A.AgentLocal)
    requires AgentOk(st) && A.LocalMove(i, queueOpen, st, a).Some?
    requires a.PullBody? || a.DropBody?
    ensures SoundTask(i, st, A.LocalMove(i, queueOpen, st, a).value, TaskOp(i, queueOpen, st, a))
  {
  }

  lemma ReadTaskSound(i: nat, queueOpen: bool, st: A.AgentStream, a: A.AgentLocal)
    requires AgentOk(st) && A.LocalMove(i, queueOpen, st, a).Some?
    requires a.ReadLocal? || a.LocalError? || a.LocalEnd?
    ensures SoundTask(i, st, A.LocalMove(i, queueOpen, st, a).value, TaskOp(i, queueOpen, st, a))
  {
  }

  lemma PumpTaskSound(i: nat, queueOpen: bool, st: A.AgentStream, a: A.AgentLocal)
    requires AgentOk(st) && A.LocalMove(i, queueOpen, st, a).Some?
    requires a.TakeCredit? || a.PumpStop? || a.SendData?
    ensures SoundTask(i, st, A.LocalMove(i, queueOpen, st, a).value, TaskOp(i, queueOpen, st, a))
  {
  }

  lemma ServeTaskSound(i: nat, queueOpen: bool, st: A.AgentStream, a: A.AgentLocal)
    requires AgentOk(st) && A.LocalMove(i, queueOpen, st, a).Some?
    requires a.LocalFails? || a.LocalAnswers? || a.SendHead? || a.SendReset? || a.DropStream?
    ensures SoundTask(i, st, A.LocalMove(i, queueOpen, st, a).value, TaskOp(i, queueOpen, st, a))
  {
  }

  lemma TaskDownLane(window: nat, i: nat, v: View, a: A.AgentLocal)
    requires v.ag.Some? && A.LocalMove(i, v.aOpen, v.ag.value, a).Some?
    ensures
      var m := A.LocalMove(i, v.aOpen, v.ag.value, a).value;
      var v' := v.(ag := Some(m.st), up := v.up + m.out);
      var op := TaskOp(i, v.aOpen, v.ag.value, a);
      && Enabled(DownLane(window, v), op)
      && DownLane(window, v') == After(DownLane(window, v), op)
  {
    assert v.up + [] == v.up;
  }

  lemma TaskUpLane(i: nat, v: View, m: A.AgentMove, op: Op)
    requires v.ag.Some? && SoundTask(i, v.ag.value, m, op)
    ensures
      var v' := v.(ag := Some(m.st), up := v.up + m.out);
      && Enabled(UpLane(v), Mirror(op))
      && UpLane(v') == After(UpLane(v), Mirror(op))
  {
    assert v.up + [] == v.up;
  }

  lemma TaskLinks(window: nat, i: nat, v: View, m: A.AgentMove, op: Op)
    requires Linked(window, i, v) && v.ag.Some? && SoundTask(i, v.ag.value, m, op)
    ensures Linked(window, i, v.(ag := Some(m.st), up := v.up + m.out))
  {
  }

  lemma TaskKeepsView(window: nat, i: nat, v: View, a: A.AgentLocal)
    requires ViewOk(window, i, v) && v.ag.Some?
    requires A.LocalMove(i, v.aOpen, v.ag.value, a).Some?
    ensures
      var m := A.LocalMove(i, v.aOpen, v.ag.value, a).value;
      ViewOk(window, i, v.(ag := Some(m.st), up := v.up + m.out))
  {
    var m := A.LocalMove(i, v.aOpen, v.ag.value, a).value;
    var v' := v.(ag := Some(m.st), up := v.up + m.out);
    var op := TaskOp(i, v.aOpen, v.ag.value, a);
    TaskSound(i, v.aOpen, v.ag.value, a);
    TaskDownLane(window, i, v, a);
    TaskUpLane(i, v, m, op);
    TaskLinks(window, i, v, m, op);
    LanesMove(window, i, v, v', Mirror(op), op);
  }

  /** The read loop takes Open: the receiver in waiting becomes a real one. */
  lemma OpenKeepsView(window: nat, i: nat, v: View, f: Frame)
    requires ViewOk(window, i, v)
    requires v.aloop.Ready? && v.down != [] && v.down[0] == f && f.Open?
    ensures ViewOk(window, i, v.(ag := Some(A.Register(f.window)), down := v.down[1..]))
  {
    assert v.ag.None? && f == Frame.Open(i, window);
    var v' := v.(ag := Some(A.Register(window)), down := v.down[1..]);
    LanesMove(window, i, v, v', ReceiveOther, BackSkip);
    assert Linked(window, i, v');
  }

  lemma ResetKeepsView(window: nat, i: nat, v: View)
    requires ViewOk(window, i, v) && v.ag.Some?
    requires v.aloop.Ready? && v.down != [] && v.down[0].Reset?
    ensures ViewOk(window, i, v.(ag := Some(v.ag.value.(inTable := false)), down := v.down[1..]))
  {
    var v1 := v.(down := v.down[1..]);
    assert Linked(window, i, v1);
    LanesMove(window, i, v, v1, ReceiveOther, BackSkip);
    GiveUpKeepsView(window, i, v1);
  }

  /** `drop_stream`. */
  lemma GiveUpKeepsView(window: nat, i: nat, v: View)
    requires ViewOk(window, i, v) && v.ag.Some?
    ensures ViewOk(window, i, v.(ag := Some(v.ag.value.(inTable := false))))
  {
    LanesMove(window, i, v, v.(ag := Some(v.ag.value.(inTable := false))), ReceiverGone, SenderGone);
  }

  /** Taking a frame off the wire leaves the rest of the view linked. */
  lemma TakenLinks(window: nat, i: nat, v: View, g: A.AgentStream, loop: A.AgentLoop)
    requires Linked(window, i, v) && v.ag.Some? && v.down != []
    ensures Linked(window, i, v.(ag := Some(g), aloop := loop, down := v.down[1..]))
  {
  }

  /** The view that a frame leaves is in order when its lanes are where an op each has brought them. */
  lemma TakenKeepsView(window: nat, i: nat, v: View, g: A.AgentStream, loop: A.AgentLoop, up: Op, down: Op)
    requires ViewOk(window, i, v) && v.ag.Some? && v.down != [] && AgentOk(g)
    requires
      var v' := v.(ag := Some(g), aloop := loop, down := v.down[1..]);
      && Enabled(UpLane(v), up) && UpLane(v') == After(UpLane(v), up)
      && Enabled(DownLane(window, v), down) && DownLane(window, v') == After(DownLane(window, v), down)
    ensures ViewOk(window, i, v.(ag := Some(g), aloop := loop, down := v.down[1..]))
  {
    TakenLinks(window, i, v, g, loop);
    LanesMove(window, i, v, v.(ag := Some(g), aloop := loop, down := v.down[1..]), up, down);
  }

  /** The view after the read loop has taken a frame. */
  function AfterReceive(v: View, f: Frame): View
    requires v.ag.Some? && v.down != []
  {
    var (g, loop) := A.Receive(v.ag.value, f);
    v.(ag := Some(g), aloop := loop, down := v.down[1..])
  }

  /** What that has done to the lanes. */
  ghost predicate LanesAfter(window: nat, v: View, f: Frame, up: Op, down: Op)
    requires v.ag.Some? && v.down != []
  {
    var v' := AfterReceive(v, f);
    && Enabled(UpLane(v), up) && UpLane(v') == After(UpLane(v), up)
    && Enabled(DownLane(window, v), down) && DownLane(window, v') == After(DownLane(window, v), down)
  }

  lemma DataLanes(window: nat, i: nat, v: View, p: Bytes)
    requires v.ag.Some? && v.aloop.Ready? && v.down != [] && v.down[0] == Frame.Data(i, p)
    ensures LanesAfter(window, v, Frame.Data(i, p), ReceiveData, BackSkip)
  {
  }

  lemma DataKeepsView(window: nat, i: nat, v: View, p: Bytes)
    requires ViewOk(window, i, v) && v.ag.Some?
    requires v.aloop.Ready? && v.down != [] && v.down[0] == Frame.Data(i, p)
    ensures ViewOk(window, i, AfterReceive(v, Frame.Data(i, p)))
  {
    DataLanes(window, i, v, p);
    var (g, loop) := A.Receive(v.ag.value, Frame.Data(i, p));
    TakenKeepsView(window, i, v, g, loop, ReceiveData, BackSkip);
  }

  lemma EndLanes(window: nat, i: nat, v: View)
    requires v.ag.Some? && v.aloop.Ready? && v.down != [] && v.down[0] == Frame.End(i)
    ensures LanesAfter(window, v, Frame.End(i), ReceiveEnd, BackSkip)
  {
  }

  lemma EndKeepsView(window: nat, i: nat, v: View)
    requires ViewOk(window, i, v) && v.ag.Some?
    requires v.aloop.Ready? && v.down != [] && v.down[0] == Frame.End(i)
    ensures ViewOk(window, i, AfterReceive(v, Frame.End(i)))
  {
    EndLanes(window, i, v);
    var (g, loop) := A.Receive(v.ag.value, Frame.End(i));
    TakenKeepsView(window, i, v, g, loop, ReceiveEnd, BackSkip);
  }

  lemma CreditLanes(window: nat, i: nat, v: View, n: nat)
    requires v.ag.Some? && v.aloop.Ready? && v.down != [] && v.down[0] == Frame.WindowUpdate(i, n)
    ensures LanesAfter(window, v, Frame.WindowUpdate(i, n), ReceiveOther, Grant)
  {
  }

  lemma CreditedKeepsView(window: nat, i: nat, v: View, n: nat)
    requires ViewOk(window, i, v) && v.ag.Some?
    requires v.aloop.Ready? && v.down != [] && v.down[0] == Frame.WindowUpdate(i, n)
    ensures ViewOk(window, i, AfterReceive(v, Frame.WindowUpdate(i, n)))
  {
    CreditLanes(window, i, v, n);
    var (g, loop) := A.Receive(v.ag.value, Frame.WindowUpdate(i, n));
    TakenKeepsView(window, i, v, g, loop, ReceiveOther, Grant);
  }

  lemma SkipLanes(window: nat, i: nat, v: View)
    requires v.ag.Some? && v.aloop.Ready? && v.down != [] && v.down[0] == Frame.ResponseHead(i)
    ensures LanesAfter(window, v, Frame.ResponseHead(i), ReceiveOther, BackSkip)
  {
  }

  lemma SkipKeepsView(window: nat, i: nat, v: View)
    requires ViewOk(window, i, v) && v.ag.Some?
    requires v.aloop.Ready? && v.down != [] && v.down[0] == Frame.ResponseHead(i)
    ensures ViewOk(window, i, AfterReceive(v, Frame.ResponseHead(i)))
  {
    SkipLanes(window, i, v);
    var (g, loop) := A.Receive(v.ag.value, Frame.ResponseHead(i));
    TakenKeepsView(window, i, v, g, loop, ReceiveOther, BackSkip);
  }

  lemma ResetTaken(window: nat, i: nat, v: View)
    requires ViewOk(window, i, v) && v.ag.Some?
    requires v.aloop.Ready? && v.down != [] && v.down[0] == Frame.Reset(i)
    ensures ViewOk(window, i, AfterReceive(v, Frame.Reset(i)))
  {
    ResetKeepsView(window, i, v);
  }

  /** The frame at the head of a wire is one of its stream, and not an Open once the agent knows it. */
  lemma HeadFits(window: nat, i: nat, v: View)
    requires Linked(window, i, v) && v.ag.Some? && v.down != []
    ensures v.down[0].id == i && !v.down[0].Open?
  {
  }

  lemma ReceiveKeepsView(window: nat, i: nat, v: View, f: Frame)
    requires ViewOk(window, i, v) && v.ag.Some?
    requires v.aloop.Ready? && v.down != [] && v.down[0] == f
    ensures ViewOk(window, i, AfterReceive(v, f))
  {
    HeadFits(window, i, v);
    match f
    case Data(_, p) => DataKeepsView(window, i, v, p);
    case End(_) => EndKeepsView(window, i, v);
    case Reset(_) => ResetTaken(window, i, v);
    case WindowUpdate(_, n) => CreditedKeepsView(window, i, v, n);
    case ResponseHead(_) => SkipKeepsView(window, i, v);
  }

  lemma LoopKeepsView(window: nat, i: nat, v: View, a: A.AgentAction)
    requires ViewOk(window, i, v) && v.ag.Some?
    requires A.HasId(v.aloop) && v.aloop.id == i
    requires A.LoopMove(v.aOpen, v.ag.value, v.aloop, a).Some?
    ensures
      var m := A.LoopMove(v.aOpen, v.ag.value, v.aloop, a).value;
      ViewOk(window, i, v.(ag := Some(m.st), aloop := m.loop, up := v.up + m.out))
  {
    assert v.up + [] == v.up;
    assert v.(ag := Some(v.ag.value)) == v;
    match a
    case LoopDeliver =>
      if v.ag.value.rxAlive {
        PushKeepsView(window, i, v, v.aloop.payload);
      } else {
        LanesMove(window, i, v, v.(aloop := A.Discarding(i, v.aloop.payload)), Stay, Stay);
      }
    case LoopDrop => DropKeepsView(window, i, v);
    case LoopCredit => CreditKeepsView(window, i, v);
  }

  lemma PushKeepsView(window: nat, i: nat, v: View, p: Bytes)
    requires ViewOk(window, i, v) && v.ag.Some? && v.aloop == A.Delivering(i, p)
    requires |v.ag.value.channel| < BODY_QUEUE
    ensures
      var g := v.ag.value;
      ViewOk(window, i, v.(ag := Some(g.(channel := g.channel + [p], received := g.received + [p])), aloop := A.Crediting(i, ToU32(|p|))))
  {
    var g := v.ag.value;
    var g' := g.(channel := g.channel + [p], received := g.received + [p]);
    var v' := v.(ag := Some(g'), aloop := A.Crediting(i, ToU32(|p|)));
    assert |p| <= MAX_CHUNK by {
      assert WireOk(UpLane(v));
    }
    FlattenAppend(g.received, p);
    PushedOk(g, p);
    LanesMove(window, i, v, v', Deliver, Stay);
  }

  lemma PushedOk(g: A.AgentStream, p: Bytes)
    requires AgentOk(g) && |p| <= MAX_CHUNK && |g.channel| < BODY_QUEUE
    ensures AgentOk(g.(channel := g.channel + [p], received := g.received + [p]))
  {
  }

  lemma DropKeepsView(window: nat, i: nat, v: View)
    requires ViewOk(window, i, v) && v.ag.Some? && v.aloop.Discarding?
    ensures ViewOk(window, i, v.(ag := Some(v.ag.value.(inTable := false)), aloop := A.Ready))
  {
    LanesMove(window, i, v, v.(ag := Some(v.ag.value.(inTable := false)), aloop := A.Ready), Discard, SenderGone);
  }

  lemma CreditKeepsView(window: nat, i: nat, v: View)
    requires ViewOk(window, i, v) && v.ag.Some? && v.aloop.Crediting?
    ensures
      var out := if v.aOpen then [Frame.WindowUpdate(i, v.aloop.increment)] else [];
      ViewOk(window, i, v.(aloop := A.Ready, up := v.up + out))
  {
    var f := Frame.WindowUpdate(i, v.aloop.increment);
    if v.aOpen {
      var v' := v.(aloop := A.Ready, up := v.up + [f]);
      assert Linked(window, i, v');
      LanesMove(window, i, v, v', Return(f), QueueOther(f));
    } else {
      assert v.up + [] == v.up;
      LanesMove(window, i, v, v.(aloop := A.Ready), ReturnLost, Stay);
    }
  }
}
