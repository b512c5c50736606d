/** What public clients are answered, and where every part of it comes from: which way of missing the
    response head leads to which page, and how the chunks of a body follow from the agent's frames. */
module EdgeReplies {
  import opened Wrappers
  import opened Frames
  import opened Flow
  import opened Edge
  import opened EdgeRuns

  // ---- events of a run ---------------------------------------------------------------------------------

  /** How the wait for the response head can end for a handler. */
  datatype Ending = OpenRefused | HeadTaken | HeadGone | OutOfTime

  /** The step ends it: the queue is closed to Open; the head is there; its sender is gone, the stream having
      been closed without one; or the time is up. */
  function EndsBy(e: Edge, input: Input, i: nat): Option<Ending> {
    if i !in e.streams then None
    else
      var st := e.streams[i];
      if input == Act(Do(i, Handle(SendOpen))) && st.handler.Counted? && !e.queueOpen then Some(OpenRefused)
      else if input == Act(Do(i, Handle(TakeHead))) && st.handler.Waiting? && st.headSent then Some(HeadTaken)
      else if input == Act(Do(i, Handle(LoseHead))) && st.handler.Waiting? && !st.headSent && st.closer.Finished? then Some(HeadGone)
      else if input == Act(Do(i, Handle(TimeOut))) && st.handler.Waiting? then Some(OutOfTime)
      else None
  }

  /** The first such step of a run. */
  function EndingIn(e: Edge, inputs: seq<Input>, i: nat): Option<Ending>
    decreases |inputs|
  {
    if inputs == [] then None
    else if EndsBy(e, inputs[0], i).Some? then EndsBy(e, inputs[0], i)
    else EndingIn(Feed(e, inputs[0]), inputs[1..], i)
  }

  // ---- replies -------------------------------------------------------------------------------------------

  predicate Before(h: Handler) {
    h.Allocated? || h.Inserted? || h.Counted? || h.Waiting? || h.Cancelled?
  }

  /** What an ending means for the handler and the reply from then on. */
  predicate EndsIn(st: EdgeStream, ending: Option<Ending>) {
    match ending
    case None => Before(st.handler) && st.reply.NoReply?
    case Some(OpenRefused) =>
      (st.handler.OpenFailed? && st.reply.NoReply?) || ((st.handler.Returning? || st.handler.Done?) && st.reply.TunnelNotFound?)
    case Some(HeadTaken) =>
      (st.handler.Serving? || st.handler.BodyDropped? || st.handler.GuardClosed? || st.handler.Done?) && st.reply.Streaming? && st.headSent
    case Some(HeadGone) =>
      && !st.headSent && st.closer.Finished?
      && ((st.handler.HeadLost? && st.reply.NoReply?) || ((st.handler.Returning? || st.handler.Done?) && st.reply.BadGateway?))
    case Some(OutOfTime) =>
      || ((st.handler.TimedOut? || st.handler.TimedOutClosed? || st.handler.Done?) && st.reply.NoReply?)
      || ((st.handler.Returning? || st.handler.Done?) && st.reply.GatewayTimeout?)
  }

  ghost predicate Follows(e: Edge, i: nat, ending: Option<Ending>) {
    if i in e.streams then EndsIn(e.streams[i], ending) else ending.None?
  }

  function Later(ending: Option<Ending>, more: Option<Ending>): Option<Ending> {
    if ending.Some? then ending else more
  }

  lemma OpeningFollows(e: Edge, i: nat, h: HandlerStep, ending: Option<Ending>)
    requires i in e.streams && EndsIn(e.streams[i], ending) && Opens(h)
    requires HandlerMove(i, e.window, e.queueOpen, e.streams[i], h).Some?
    ensures EndsIn(HandlerMove(i, e.window, e.queueOpen, e.streams[i], h).value.st, Later(ending, EndsBy(e, Act(Do(i, Handle(h))), i)))
  {
  }

  lemma AwaitingFollows(e: Edge, i: nat, h: HandlerStep, ending: Option<Ending>)
    requires i in e.streams && EndsIn(e.streams[i], ending) && Awaits(h)
    requires HandlerMove(i, e.window, e.queueOpen, e.streams[i], h).Some?
    ensures EndsIn(HandlerMove(i, e.window, e.queueOpen, e.streams[i], h).value.st, Later(ending, EndsBy(e, Act(Do(i, Handle(h))), i)))
  {
  }

  lemma ClosingFollows(e: Edge, i: nat, h: HandlerStep, ending: Option<Ending>)
    requires i in e.streams && EndsIn(e.streams[i], ending) && LifeOk(e.window, e.streams[i]) && !Opens(h) && !Awaits(h)
    requires HandlerMove(i, e.window, e.queueOpen, e.streams[i], h).Some?
    ensures EndsIn(HandlerMove(i, e.window, e.queueOpen, e.streams[i], h).value.st, Later(ending, EndsBy(e, Act(Do(i, Handle(h))), i)))
  {
  }

  lemma HandlerFollows(e: Edge, i: nat, h: HandlerStep, ending: Option<Ending>)
    requires i in e.streams && EndsIn(e.streams[i], ending) && LifeOk(e.window, e.streams[i])
    requires HandlerMove(i, e.window, e.queueOpen, e.streams[i], h).Some?
    ensures EndsIn(HandlerMove(i, e.window, e.queueOpen, e.streams[i], h).value.st, Later(ending, EndsBy(e, Act(Do(i, Handle(h))), i)))
  {
    if Opens(h) {
      OpeningFollows(e, i, h, ending);
    } else if Awaits(h) {
      AwaitingFollows(e, i, h, ending);
    } else {
      ClosingFollows(e, i, h, ending);
    }
  }

  /** What nobody but the handler changes: a stream keeps its handler and its reply, and once it is closed
      to the end it stays so and gets no head. */
  ghost predicate Stays(st: EdgeStream, st': EdgeStream) {
    && st'.handler == st.handler && st'.reply == st.reply
    && (st.headSent ==> st'.headSent)
    && (st.closer.Finished? ==> st'.closer.Finished? && st'.headSent == st.headSent)
  }

  lemma StaysFollows(st: EdgeStream, st': EdgeStream, ending: Option<Ending>)
    requires EndsIn(st, ending) && Stays(st, st')
    ensures EndsIn(st', ending)
  {
  }

  lemma UploadStaysBy(i: nat, window: nat, queueOpen: bool, st: EdgeStream, u: UploadStep)
    requires LifeOk(window, st) && UploadMove(i, queueOpen, st, u).Some?
    ensures Stays(st, UploadMove(i, queueOpen, st, u).value.st)
  {
  }

  lemma LoopStaysBy(queueOpen: bool, st: EdgeStream, loop: EdgeLoop, a: EdgeAction, window: nat)
    requires LifeOk(window, st) && LoopMove(queueOpen, st, loop, a).Some?
    ensures Stays(st, LoopMove(queueOpen, st, loop, a).value.st)
  {
  }

  lemma ReceiveStaysBy(st: EdgeStream, f: ClientFrame, window: nat)
    requires LifeOk(window, st)
    ensures Stays(st, Receive(st, f).0)
  {
  }

  lemma OwnStepFollows(e: Edge, i: nat, step: EdgeLocal, ending: Option<Ending>)
    requires EdgeInv(e) && Follows(e, i, ending)
    ensures Follows(Feed(e, Act(Do(i, step))), i, Later(ending, EndsBy(e, Act(Do(i, step)), i)))
  {
    if i in e.streams && LocalMove(i, e.window, e.queueOpen, e.streams[i], step).Some? {
      assert LifeOk(e.window, e.streams[i]);
      match step
      case Handle(h) => HandlerFollows(e, i, h, ending);
      case Upload(u) =>
        UploadStaysBy(i, e.window, e.queueOpen, e.streams[i], u);
        StaysFollows(e.streams[i], UploadMove(i, e.queueOpen, e.streams[i], u).value.st, ending);
    }
  }

  lemma LoopFollows(e: Edge, a: EdgeAction, i: nat, ending: Option<Ending>)
    requires EdgeInv(e) && Follows(e, i, ending) && (a.LoopDeliver? || a.LoopClose? || a.LoopGrant?)
    ensures Follows(Feed(e, Act(a)), i, ending)
  {
    if HasId(e.loop) && e.loop.id == i && i in e.streams && LoopMove(e.queueOpen, e.streams[i], e.loop, a).Some? {
      assert LifeOk(e.window, e.streams[i]);
      LoopStaysBy(e.queueOpen, e.streams[i], e.loop, a, e.window);
      StaysFollows(e.streams[i], LoopMove(e.queueOpen, e.streams[i], e.loop, a).value.st, ending);
    }
  }

  ghost predicate SharedLeaves(e: Edge, a: EdgeAction, i: nat)
    requires i in e.streams
  {
    var e' := Step(e, a).0;
    && i in e'.streams
    && (Stays(e.streams[i], e'.streams[i])
        || (a == Count(i) && e.streams[i].handler.Inserted? && e'.streams[i] == e.streams[i].(handler := Counted)))
  }

  lemma CountLeaves(e: Edge, a: EdgeAction, i: nat)
    requires i in e.streams && (a.Count? || a.CountDown?)
    ensures SharedLeaves(e, a, i)
  {
  }

  lemma TeardownLeaves(e: Edge, a: EdgeAction, i: nat)
    requires EdgeInv(e) && i in e.streams && a.TeardownClose?
    ensures SharedLeaves(e, a, i)
  {
    assert LifeOk(e.window, e.streams[i]);
  }

  lemma SharedFollows(e: Edge, a: EdgeAction, i: nat, ending: Option<Ending>)
    requires EdgeInv(e) && Follows(e, i, ending) && (a.Count? || a.CountDown? || a.TeardownClose?)
    ensures Follows(Feed(e, Act(a)), i, ending)
  {
    if i in e.streams {
      if a.TeardownClose? {
        TeardownLeaves(e, a, i);
      } else {
        CountLeaves(e, a, i);
      }
      var st' := Step(e, a).0.streams[i];
      if Stays(e.streams[i], st') {
        StaysFollows(e.streams[i], st', ending);
      }
    }
  }

  lemma ArrivalFollows(e: Edge, f: ClientFrame, i: nat, ending: Option<Ending>)
    requires EdgeInv(e) && Follows(e, i, ending) && e.loop.Ready?
    ensures Follows(Accept(e, f), i, ending)
  {
    if f.id == i && i in e.streams {
      assert LifeOk(e.window, e.streams[i]);
      ReceiveStaysBy(e.streams[i], f, e.window);
      StaysFollows(e.streams[i], Receive(e.streams[i], f).0, ending);
    }
  }

  lemma OtherStepFollows(e: Edge, j: nat, step: EdgeLocal, i: nat, ending: Option<Ending>)
    requires Follows(e, i, ending) && j != i
    ensures Follows(Feed(e, Act(Do(j, step))), i, ending) && EndsBy(e, Act(Do(j, step)), i).None?
  {
  }

  lemma FreeFollows(e: Edge, a: EdgeAction, i: nat, ending: Option<Ending>)
    requires EdgeInv(e) && Follows(e, i, ending) && (a.Admit? || a.Allocate? || a.HangUp? || a.Disconnect?)
    ensures Follows(Feed(e, Act(a)), i, ending)
  {
  }

  lemma FeedFollows(e: Edge, input: Input, i: nat, ending: Option<Ending>)
    requires EdgeInv(e) && Follows(e, i, ending)
    ensures Follows(Feed(e, input), i, Later(ending, EndsBy(e, input, i)))
  {
    match input
    case Arrives(f) => if e.loop.Ready? { ArrivalFollows(e, f, i, ending); }
    case Act(a) =>
      match a
      case Do(j, step) => if j == i { OwnStepFollows(e, i, step, ending); } else { OtherStepFollows(e, j, step, i, ending); }
      case LoopDeliver => LoopFollows(e, a, i, ending);
      case LoopClose => LoopFollows(e, a, i, ending);
      case LoopGrant => LoopFollows(e, a, i, ending);
      case Count(_) => SharedFollows(e, a, i, ending);
      case CountDown(_) => SharedFollows(e, a, i, ending);
      case TeardownClose(_) => SharedFollows(e, a, i, ending);
      case _ => FreeFollows(e, a, i, ending);
  }

  lemma {:induction false} RunFollows(e: Edge, inputs: seq<Input>, i: nat, ending: Option<Ending>)
    requires EdgeInv(e) && Follows(e, i, ending)
    ensures Follows(Run(e, inputs), i, Later(ending, EndingIn(e, inputs, i)))
    decreases |inputs|
  {
    if inputs != [] {
      FeedFollows(e, inputs[0], i, ending);
      FeedKeeps(e, inputs[0]);
      RunFollows(Feed(e, inputs[0]), inputs[1..], i, Later(ending, EndsBy(e, inputs[0], i)));
    }
  }

  /** In every run, against any agent, the way in which the wait for the response head ended decides what
      the client is answered. A handler that is through has answered with the tunnel's body if it took the
      head; with 404 if Open could not be queued; with 502 if the stream was closed before any head came;
      and with 504, unless it was dropped while it queued the Reset, if the time was up. A reply is never
      anything else. */
  lemma EndingDecidesReply(limit: nat, window: nat, inputs: seq<Input>, i: nat)
    ensures
      var e := Run(Init(limit, window), inputs);
      i in e.streams ==>
        var st := e.streams[i];
        match EndingIn(Init(limit, window), inputs, i)
        case None => st.reply.NoReply? && !st.handler.Returning? && !st.handler.Done? && !st.handler.Serving?
        case Some(HeadTaken) => st.reply.Streaming? && st.headSent
        case Some(OpenRefused) =>
          (st.handler.Returning? || st.handler.Done? ==> st.reply.TunnelNotFound?) && !st.reply.Streaming?
        case Some(HeadGone) =>
          (st.handler.Returning? || st.handler.Done? ==> st.reply.BadGateway?) && !st.headSent && i !in Table(e)
        case Some(OutOfTime) =>
          && (st.handler.Returning? ==> st.reply.GatewayTimeout?)
          && (st.reply.GatewayTimeout? || st.reply.NoReply?)
  {
    InitOk(limit, window);
    RunKeeps(Init(limit, window), inputs);
    RunFollows(Init(limit, window), inputs, i, None);
    var e := Run(Init(limit, window), inputs);
    if i in e.streams {
      assert LifeOk(e.window, e.streams[i]);
    }
  }

  // ---- where bodies come from ----------------------------------------------------------------------------

  /** The chunk that a frame of the agent stands for. */
  function ChunksOf(f: ClientFrame): seq<Chunk> {
    match f
    case Data(_, p) => [Chunk.Data(p)]
    case End(_) => [Chunk.End]
    case Reset(_) => [Chunk.Reset]
    case _ => []
  }

  /** What the input brings for the stream: a frame that the read loop takes while it is in the table. */
  function Brings(e: Edge, input: Input, i: nat): seq<Chunk> {
    if input.Arrives? && e.loop.Ready? && input.f.id == i && i in Table(e) then ChunksOf(input.f) else []
  }

  /** All that a run brings, in order. */
  function Brought(e: Edge, inputs: seq<Input>, i: nat): seq<Chunk>
    decreases |inputs|
  {
    if inputs == [] then [] else Brings(e, inputs[0], i) + Brought(Feed(e, inputs[0]), inputs[1..], i)
  }

  /** The chunk that the read loop holds for the stream. */
  function InHand(loop: EdgeLoop, i: nat): seq<Chunk> {
    if loop.Delivering? && loop.id == i then [loop.chunk] else []
  }

  /** The body has been handed what was brought, in order; while somebody receives it, all of it but what
      the loop holds. */
  ghost predicate HandsOn(e: Edge, i: nat, brought: seq<Chunk>) {
    if i in e.streams then
      && e.streams[i].handed <= brought
      && (e.streams[i].rxAlive ==> e.streams[i].handed + InHand(e.loop, i) == brought)
    else brought == [] && InHand(e.loop, i) == []
  }

  /** A task neither hands chunks on nor takes a head, and no receiver comes back. */
  predicate LeavesFrames(st: EdgeStream, m: EdgeStream) {
    m.handed == st.handed && m.headSent == st.headSent && (m.rxAlive ==> st.rxAlive)
  }

  lemma OpeningLeaves(i: nat, window: nat, queueOpen: bool, st: EdgeStream, h: HandlerStep)
    requires HandlerMove(i, window, queueOpen, st, h).Some? && Opens(h)
    ensures LeavesFrames(st, HandlerMove(i, window, queueOpen, st, h).value.st)
  {
  }

  lemma AwaitingLeaves(i: nat, window: nat, queueOpen: bool, st: EdgeStream, h: HandlerStep)
    requires HandlerMove(i, window, queueOpen, st, h).Some? && (Awaits(h) || Consumes(h))
    ensures LeavesFrames(st, HandlerMove(i, window, queueOpen, st, h).value.st)
  {
  }

  lemma ClosingLeaves(i: nat, window: nat, queueOpen: bool, st: EdgeStream, h: HandlerStep)
    requires HandlerMove(i, window, queueOpen, st, h).Some? && (h.HandlerClose? || h.CloseSemaphore?)
    ensures LeavesFrames(st, HandlerMove(i, window, queueOpen, st, h).value.st)
  {
  }

  lemma LastLeaves(i: nat, window: nat, queueOpen: bool, st: EdgeStream, h: HandlerStep)
    requires HandlerMove(i, window, queueOpen, st, h).Some? && (h.SendReset? || h.Return?)
    ensures LeavesFrames(st, HandlerMove(i, window, queueOpen, st, h).value.st)
  {
  }

  lemma UploadLeavesFrames(i: nat, queueOpen: bool, st: EdgeStream, u: UploadStep)
    requires UploadMove(i, queueOpen, st, u).Some?
    ensures LeavesFrames(st, UploadMove(i, queueOpen, st, u).value.st)
  {
    if u.PumpClose? {
      UploadCloses(i, queueOpen, st);
    }
  }

  lemma TaskLeaves(i: nat, window: nat, queueOpen: bool, st: EdgeStream, a: EdgeLocal)
    requires LocalMove(i, window, queueOpen, st, a).Some?
    ensures LeavesFrames(st, LocalMove(i, window, queueOpen, st, a).value.st)
  {
    match a
    case Upload(u) => UploadLeavesFrames(i, queueOpen, st, u);
    case Handle(h) =>
      if Opens(h) {
        OpeningLeaves(i, window, queueOpen, st, h);
      } else if Awaits(h) || Consumes(h) {
        AwaitingLeaves(i, window, queueOpen, st, h);
      } else if h.SendReset? || h.Return? {
        LastLeaves(i, window, queueOpen, st, h);
      } else {
        ClosingLeaves(i, window, queueOpen, st, h);
      }
  }

  lemma DoHands(e: Edge, j: nat, step: EdgeLocal, i: nat, brought: seq<Chunk>)
    requires HandsOn(e, i, brought)
    ensures HandsOn(Feed(e, Act(Do(j, step))), i, brought)
  {
    if j == i && i in e.streams && LocalMove(i, e.window, e.queueOpen, e.streams[i], step).Some? {
      TaskLeaves(i, e.window, e.queueOpen, e.streams[i], step);
    }
  }

  lemma DeliverHands(e: Edge, i: nat, brought: seq<Chunk>)
    requires HandsOn(e, i, brought)
    ensures HandsOn(Feed(e, Act(LoopDeliver)), i, brought)
  {
    if i in e.streams && e.loop.Delivering? && e.loop.id == i {
      var st := e.streams[i];
      assert st.handed + [e.loop.chunk] + [] == st.handed + [e.loop.chunk];
    }
  }

  lemma LoopHands(e: Edge, a: EdgeAction, i: nat, brought: seq<Chunk>)
    requires HandsOn(e, i, brought) && (a.LoopClose? || a.LoopGrant?)
    ensures HandsOn(Feed(e, Act(a)), i, brought)
  {
  }

  /** The stream and what the loop holds for it are as they were, as far as the body is concerned. */
  lemma SameHands(e: Edge, e': Edge, i: nat, brought: seq<Chunk>)
    requires HandsOn(e, i, brought) && InHand(e'.loop, i) == InHand(e.loop, i) && (i in e.streams <==> i in e'.streams)
    requires i in e.streams ==> LeavesFrames(e.streams[i], e'.streams[i])
    ensures HandsOn(e', i, brought)
  {
  }

  lemma CountHands(e: Edge, a: EdgeAction, i: nat, brought: seq<Chunk>)
    requires HandsOn(e, i, brought) && (a.Count? || a.CountDown?)
    ensures HandsOn(Feed(e, Act(a)), i, brought)
  {
    SameHands(e, Feed(e, Act(a)), i, brought);
  }

  lemma TeardownHands(e: Edge, a: EdgeAction, i: nat, brought: seq<Chunk>)
    requires HandsOn(e, i, brought) && (a.TeardownClose? || a.HangUp? || a.Disconnect? || a.Admit?)
    ensures HandsOn(Feed(e, Act(a)), i, brought)
  {
    SameHands(e, Feed(e, Act(a)), i, brought);
  }

  lemma AllocateHands(e: Edge, i: nat, brought: seq<Chunk>)
    requires EdgeInv(e) && HandsOn(e, i, brought)
    ensures HandsOn(Feed(e, Act(Allocate)), i, brought)
  {
  }

  lemma ReceiveHands(st: EdgeStream, f: ClientFrame)
    ensures
      var (st', loop) := Receive(st, f);
      && st'.handed == st.handed && st'.rxAlive == st.rxAlive
      && InHand(loop, f.id) == (if st.inTable then ChunksOf(f) else [])
      && (forall j | j != f.id :: InHand(loop, j) == [])
  {
  }

  lemma OwnArrivalHands(e: Edge, f: ClientFrame, brought: seq<Chunk>)
    requires f.id in e.streams && HandsOn(e, f.id, brought) && e.loop.Ready?
    ensures HandsOn(Accept(e, f), f.id, brought + Brings(e, Arrives(f), f.id))
  {
    ReceiveHands(e.streams[f.id], f);
    assert e.streams[f.id].handed + [] == e.streams[f.id].handed;
  }

  lemma OtherArrivalHands(e: Edge, f: ClientFrame, i: nat, brought: seq<Chunk>)
    requires HandsOn(e, i, brought) && e.loop.Ready? && (f.id != i || i !in e.streams)
    ensures HandsOn(Accept(e, f), i, brought + Brings(e, Arrives(f), i))
  {
    ReceiveHands(At(e, f.id), f);
    assert brought + [] == brought;
  }

  lemma ArrivalHands(e: Edge, f: ClientFrame, i: nat, brought: seq<Chunk>)
    requires HandsOn(e, i, brought) && e.loop.Ready?
    ensures HandsOn(Accept(e, f), i, brought + Brings(e, Arrives(f), i))
  {
    if f.id == i && i in e.streams {
      OwnArrivalHands(e, f, brought);
    } else {
      OtherArrivalHands(e, f, i, brought);
    }
  }

  lemma FeedHands(e: Edge, input: Input, i: nat, brought: seq<Chunk>)
    requires EdgeInv(e) && HandsOn(e, i, brought)
    ensures HandsOn(Feed(e, input), i, brought + Brings(e, input, i))
  {
    assert brought + [] == brought;
    match input
    case Arrives(f) => if e.loop.Ready? { ArrivalHands(e, f, i, brought); }
    case Act(a) =>
      match a
      case Do(j, step) => DoHands(e, j, step, i, brought);
      case LoopDeliver => DeliverHands(e, i, brought);
      case LoopClose => LoopHands(e, a, i, brought);
      case LoopGrant => LoopHands(e, a, i, brought);
      case Count(_) => CountHands(e, a, i, brought);
      case CountDown(_) => CountHands(e, a, i, brought);
      case Allocate => AllocateHands(e, i, brought);
      case _ => TeardownHands(e, a, i, brought);
  }

  lemma Onward(brought: seq<Chunk>, more: seq<Chunk>, rest: seq<Chunk>)
    ensures brought + (more + rest) == (brought + more) + rest && brought + [] == brought
  {
  }

  lemma {:induction false} RunHands(e: Edge, inputs: seq<Input>, i: nat, brought: seq<Chunk>, all: seq<Chunk>)
    requires EdgeInv(e) && HandsOn(e, i, brought) && all == brought + Brought(e, inputs, i)
    ensures HandsOn(Run(e, inputs), i, all)
    decreases |inputs|
  {
    if inputs == [] {
      Onward(brought, [], []);
    } else {
      FeedHands(e, inputs[0], i, brought);
      FeedKeeps(e, inputs[0]);
      Onward(brought, Brings(e, inputs[0], i), Brought(Feed(e, inputs[0]), inputs[1..], i));
      RunHands(Feed(e, inputs[0]), inputs[1..], i, brought + Brings(e, inputs[0], i), all);
    }
  }

  /** In every run, against any agent: what a public body has been handed is the agent's frames for it, one
      by one and in order, End for End and Reset for Reset; and nothing is missing, while it is received,
      but the one that the read loop holds. */
  lemma BodiesAreFrames(limit: nat, window: nat, inputs: seq<Input>, i: nat)
    ensures
      var e := Run(Init(limit, window), inputs);
      i in e.streams ==>
        && e.streams[i].handed <= Brought(Init(limit, window), inputs, i)
        && (e.streams[i].rxAlive ==> e.streams[i].handed + InHand(e.loop, i) == Brought(Init(limit, window), inputs, i))
  {
    InitOk(limit, window);
    var all := Brought(Init(limit, window), inputs, i);
    assert [] + all == all;
    RunHands(Init(limit, window), inputs, i, [], all);
  }

  // ---- where heads come from -------------------------------------------------------------------------------

  /** A head arrives for the stream while it is in the table. */
  predicate HeadArrives(e: Edge, input: Input, i: nat) {
    input == Arrives(Frame.ResponseHead(i)) && e.loop.Ready? && i in Table(e)
  }

  predicate HeadIn(e: Edge, inputs: seq<Input>, i: nat)
    decreases |inputs|
  {
    inputs != [] && (HeadArrives(e, inputs[0], i) || HeadIn(Feed(e, inputs[0]), inputs[1..], i))
  }

  lemma DoHeads(e: Edge, j: nat, step: EdgeLocal, i: nat)
    ensures
      var e' := Feed(e, Act(Do(j, step)));
      At(e', i).headSent == At(e, i).headSent
  {
    if j == i && i in e.streams && LocalMove(i, e.window, e.queueOpen, e.streams[i], step).Some? {
      TaskLeaves(i, e.window, e.queueOpen, e.streams[i], step);
    }
  }

  lemma LoopHeads(e: Edge, a: EdgeAction, i: nat)
    requires a.LoopDeliver? || a.LoopClose? || a.LoopGrant?
    ensures At(Feed(e, Act(a)), i).headSent == At(e, i).headSent
  {
  }

  lemma SharedHeads(e: Edge, a: EdgeAction, i: nat)
    requires EdgeInv(e) && !a.Do? && !a.LoopDeliver? && !a.LoopClose? && !a.LoopGrant?
    ensures At(Feed(e, Act(a)), i).headSent == At(e, i).headSent
  {
  }

  lemma ArrivalHeads(e: Edge, f: ClientFrame, i: nat)
    requires e.loop.Ready?
    ensures At(Accept(e, f), i).headSent <==> At(e, i).headSent || (f == Frame.ResponseHead(i) && i in Table(e))
  {
  }

  lemma ActHeads(e: Edge, a: EdgeAction, i: nat)
    requires EdgeInv(e)
    ensures At(Feed(e, Act(a)), i).headSent == At(e, i).headSent
  {
    match a
    case Do(j, step) => DoHeads(e, j, step, i);
    case LoopDeliver => LoopHeads(e, a, i);
    case LoopClose => LoopHeads(e, a, i);
    case LoopGrant => LoopHeads(e, a, i);
    case _ => SharedHeads(e, a, i);
  }

  lemma FeedHeads(e: Edge, input: Input, i: nat)
    requires EdgeInv(e)
    ensures At(Feed(e, input), i).headSent <==> At(e, i).headSent || HeadArrives(e, input, i)
  {
    match input
    case Arrives(f) => if e.loop.Ready? { ArrivalHeads(e, f, i); }
    case Act(a) => ActHeads(e, a, i);
  }

  lemma {:induction false} RunHeads(e: Edge, inputs: seq<Input>, i: nat)
    requires EdgeInv(e)
    ensures At(Run(e, inputs), i).headSent <==> At(e, i).headSent || HeadIn(e, inputs, i)
    decreases |inputs|
  {
    if inputs != [] {
      FeedHeads(e, inputs[0], i);
      FeedKeeps(e, inputs[0]);
      RunHeads(Feed(e, inputs[0]), inputs[1..], i);
    }
  }

  /** So a client is served a body only after a head of its stream has come, and answered 502 only if none
      has come while the stream was in the table. */
  lemma RepliesNeedHeads(limit: nat, window: nat, inputs: seq<Input>, i: nat)
    ensures
      var e := Run(Init(limit, window), inputs);
      i in e.streams ==>
        && (e.streams[i].reply.Streaming? ==> HeadIn(Init(limit, window), inputs, i))
        && (e.streams[i].reply.BadGateway? ==> !HeadIn(Init(limit, window), inputs, i))
  {
    InitOk(limit, window);
    RunHeads(Init(limit, window), inputs, i);
    RunFollows(Init(limit, window), inputs, i, None);
  }
}
