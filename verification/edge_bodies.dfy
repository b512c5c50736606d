/** How public bodies end: with a terminal chunk, or with their channel closed and none delivered. */
module EdgeBodies {
  import opened Wrappers
  import opened Frames
  import opened Flow
  import opened Edge
  import opened EdgeRuns

  /** The read loop holds the stream's End or Reset and waits for room. */
  predicate HoldsLast(loop: EdgeLoop, i: nat) {
    loop.Delivering? && loop.id == i && !loop.chunk.Data?
  }

  /** The step takes the stream out of the table when no terminal chunk has been handed to its body
      and the read loop is not about to hand it one. */
  predicate Cuts(e: Edge, input: Input, i: nat) {
    Removes(e, input, i) && !Terminated(e.streams[i].handed) && !HoldsLast(e.loop, i)
  }

  predicate CutIn(e: Edge, inputs: seq<Input>, i: nat)
    decreases |inputs|
  {
    inputs != [] && (Cuts(e, inputs[0], i) || CutIn(Feed(e, inputs[0]), inputs[1..], i))
  }

  /** The stream is gone and its body will not see a terminal chunk. */
  predicate CutShort(e: Edge, i: nat) {
    Gone(e, i) && !Terminated(e.streams[i].handed) && !HoldsLast(e.loop, i)
  }

  /** A handler that has not closed its stream itself, and still holds the receiver. */
  predicate Listening(e: Edge, i: nat) {
    i in e.streams && e.streams[i].rxAlive && !HasClosed(e.streams[i].handler)
  }

  /** What one step does to a body that somebody listens to. */
  ghost predicate CutMoves(e: Edge, input: Input, i: nat) {
    Listening(Feed(e, input), i) ==> (CutShort(Feed(e, input), i) <==> CutShort(e, i) || Cuts(e, input, i))
  }

  // ---- the receiver ------------------------------------------------------------------------------

  /** A handler's step drops the receiver only on its way past the body, and never delivers. */
  ghost predicate RxKept(i: nat, window: nat, queueOpen: bool, st: EdgeStream, h: HandlerStep)
    requires HandlerMove(i, window, queueOpen, st, h).Some?
  {
    var m := HandlerMove(i, window, queueOpen, st, h).value.st;
    && (m.rxAlive ==> st.rxAlive)
    && m.handed == st.handed
    && (BodyGone(st.handler) ==> BodyGone(m.handler))
    && (st.rxAlive && !m.rxAlive ==> BodyGone(m.handler))
  }

  lemma RxOpening(i: nat, window: nat, queueOpen: bool, st: EdgeStream, h: HandlerStep)
    requires HandlerMove(i, window, queueOpen, st, h).Some? && Opens(h)
    ensures RxKept(i, window, queueOpen, st, h)
  {
  }

  lemma RxAwaiting(i: nat, window: nat, queueOpen: bool, st: EdgeStream, h: HandlerStep)
    requires HandlerMove(i, window, queueOpen, st, h).Some? && (Awaits(h) || Consumes(h))
    ensures RxKept(i, window, queueOpen, st, h)
  {
  }

  lemma RxClosing(i: nat, window: nat, queueOpen: bool, st: EdgeStream, h: HandlerStep)
    requires HandlerMove(i, window, queueOpen, st, h).Some? && !Opens(h) && !Awaits(h) && !Consumes(h)
    ensures RxKept(i, window, queueOpen, st, h)
  {
  }

  lemma RxHandler(i: nat, window: nat, queueOpen: bool, st: EdgeStream, h: HandlerStep)
    requires HandlerMove(i, window, queueOpen, st, h).Some?
    ensures RxKept(i, window, queueOpen, st, h)
  {
    if Opens(h) {
      RxOpening(i, window, queueOpen, st, h);
    } else if Awaits(h) || Consumes(h) {
      RxAwaiting(i, window, queueOpen, st, h);
    } else {
      RxClosing(i, window, queueOpen, st, h);
    }
  }

  lemma RxUpload(i: nat, queueOpen: bool, st: EdgeStream, u: UploadStep)
    requires UploadMove(i, queueOpen, st, u).Some?
    ensures
      var m := UploadMove(i, queueOpen, st, u).value.st;
      m.rxAlive == st.rxAlive && m.handed == st.handed && m.handler == st.handler
  {
  }

  /** A receiver that has been dropped stays so, and its handler is past its body. */
  ghost predicate RxMoves(e: Edge, input: Input, i: nat) {
    i in e.streams ==>
      && i in Feed(e, input).streams
      && (Feed(e, input).streams[i].rxAlive ==> e.streams[i].rxAlive)
      && ((e.streams[i].rxAlive || BodyGone(e.streams[i].handler)) ==>
            Feed(e, input).streams[i].rxAlive || BodyGone(Feed(e, input).streams[i].handler))
  }

  lemma LoopMoveKeepsRx(queueOpen: bool, st: EdgeStream, loop: EdgeLoop, a: EdgeAction)
    requires LoopMove(queueOpen, st, loop, a).Some?
    ensures
      var m := LoopMove(queueOpen, st, loop, a).value.st;
      m.rxAlive == st.rxAlive && m.handler == st.handler
  {
  }

  lemma LoopRx(e: Edge, a: EdgeAction, i: nat)
    requires i in e.streams
    ensures
      var e' := LoopStep(e, a).0;
      i in e'.streams && e'.streams[i].rxAlive == e.streams[i].rxAlive && e'.streams[i].handler == e.streams[i].handler
  {
    if HasId(e.loop) && e.loop.id == i && LoopMove(e.queueOpen, e.streams[i], e.loop, a).Some? {
      LoopMoveKeepsRx(e.queueOpen, e.streams[i], e.loop, a);
    }
  }

  lemma ReceiveRx(st: EdgeStream, f: ClientFrame)
    ensures
      var m := Receive(st, f).0;
      m.rxAlive == st.rxAlive && m.handler == st.handler && m.handed == st.handed && m.inTable == st.inTable
  {
  }

  lemma DoRx(e: Edge, i: nat, step: EdgeLocal)
    ensures RxMoves(e, Act(Do(i, step)), i)
  {
    if i in e.streams && LocalMove(i, e.window, e.queueOpen, e.streams[i], step).Some? {
      match step
      case Handle(h) => RxHandler(i, e.window, e.queueOpen, e.streams[i], h);
      case Upload(u) => RxUpload(i, e.queueOpen, e.streams[i], u);
    }
  }

  lemma FeedRx(e: Edge, input: Input, i: nat)
    requires e.nextStreamId !in e.streams
    ensures RxMoves(e, input, i)
  {
    if i in e.streams {
      match input
      case Arrives(f) =>
        if e.loop.Ready? {
          ReceiveRx(At(e, f.id), f);
        }
      case Act(a) =>
        match a
        case Do(j, step) => if j == i { DoRx(e, i, step); } else { DoOther(e, j, step, i); }
        case LoopDeliver => LoopRx(e, a, i);
        case LoopClose => LoopRx(e, a, i);
        case LoopGrant => LoopRx(e, a, i);
        case _ =>
    }
  }

  /** A live response body has its receiver. */
  ghost predicate RxOk(e: Edge, i: nat) {
    i in e.streams ==> e.streams[i].rxAlive || BodyGone(e.streams[i].handler)
  }

  lemma {:induction false} RxRuns(e: Edge, inputs: seq<Input>, i: nat)
    requires EdgeInv(e) && RxOk(e, i)
    ensures RxOk(Run(e, inputs), i)
    ensures i in e.streams ==> i in Run(e, inputs).streams && (Run(e, inputs).streams[i].rxAlive ==> e.streams[i].rxAlive)
    decreases |inputs|
  {
    if inputs != [] {
      InvPlaced(e, i);
      FeedRx(e, inputs[0], i);
      FeedKeeps(e, inputs[0]);
      if i !in e.streams && i in Feed(e, inputs[0]).streams {
        FreshRx(e, inputs[0], i);
      }
      RxRuns(Feed(e, inputs[0]), inputs[1..], i);
    }
  }

  lemma FreshRx(e: Edge, input: Input, i: nat)
    requires i !in e.streams && i in Feed(e, input).streams
    ensures Feed(e, input).streams[i] == Fresh(e.window)
  {
  }

  // ---- what each step does to the cut ------------------------------------------------------------

  lemma HandleCut(e: Edge, i: nat, h: HandlerStep)
    requires EdgeInv(e)
    ensures CutMoves(e, Act(Do(i, Handle(h))), i)
  {
    if i in e.streams && HandlerMove(i, e.window, e.queueOpen, e.streams[i], h).Some? {
      assert LifeOk(e.window, e.streams[i]);
      HandlerLeaves(i, e.window, e.queueOpen, e.streams[i], h);
      RxHandler(i, e.window, e.queueOpen, e.streams[i], h);
      DoMoved(e, i, Handle(h), HandlerMove(i, e.window, e.queueOpen, e.streams[i], h).value.st);
    }
  }

  lemma UploadCut(e: Edge, i: nat, u: UploadStep)
    requires EdgeInv(e)
    ensures CutMoves(e, Act(Do(i, Upload(u))), i)
  {
    if i in e.streams {
      assert LifeOk(e.window, e.streams[i]);
      CloseEnabled(i, e.window, e.queueOpen, e.streams[i]);
      if UploadMove(i, e.queueOpen, e.streams[i], u).Some? {
        UploadLeaves(i, e.window, e.queueOpen, e.streams[i], u);
        RxUpload(i, e.queueOpen, e.streams[i], u);
        DoMoved(e, i, Upload(u), UploadMove(i, e.queueOpen, e.streams[i], u).value.st);
      }
    }
  }

  /** The stream and what the loop holds of it are as they were. */
  ghost predicate SameFor(e: Edge, e': Edge, i: nat) {
    && (i in e'.streams <==> i in e.streams)
    && (i in e.streams ==> e'.streams[i] == e.streams[i])
    && (HoldsLast(e'.loop, i) <==> HoldsLast(e.loop, i))
  }

  lemma DoElsewhere(e: Edge, j: nat, step: EdgeLocal, i: nat)
    requires i != j
    ensures SameFor(e, Feed(e, Act(Do(j, step))), i)
  {
  }

  lemma LoopElsewhere(e: Edge, a: EdgeAction, i: nat)
    requires HasId(e.loop) ==> e.loop.id != i
    ensures SameFor(e, LoopStep(e, a).0, i)
  {
  }

  lemma DeliverMove(queueOpen: bool, st: EdgeStream, loop: EdgeLoop, i: nat)
    requires loop.Delivering? && loop.id == i && st.rxAlive && LoopMove(queueOpen, st, loop, LoopDeliver).Some?
    ensures
      var m := LoopMove(queueOpen, st, loop, LoopDeliver).value;
      && m.st.handler == st.handler && m.st.inTable == st.inTable
      && m.st.handed == st.handed + [loop.chunk] && !m.loop.Delivering?
  {
  }

  lemma DeliverCut(e: Edge, i: nat)
    requires EdgeInv(e) && i in e.streams && e.loop.Delivering? && e.loop.id == i
    ensures CutMoves(e, Act(LoopDeliver), i)
  {
    var st := e.streams[i];
    if st.rxAlive && LoopMove(e.queueOpen, st, e.loop, LoopDeliver).Some? {
      DeliverMove(e.queueOpen, st, e.loop, i);
      assert !Terminated(st.handed);
      assert (st.handed + [e.loop.chunk])[|st.handed|] == e.loop.chunk;
    }
  }

  lemma CloseCut(e: Edge, i: nat)
    requires EdgeInv(e) && i in e.streams && e.loop.Discarding? && e.loop.id == i
    ensures CutMoves(e, Act(LoopClose), i)
  {
    assert LifeOk(e.window, e.streams[i]);
  }

  lemma LoopCut(e: Edge, a: EdgeAction, i: nat)
    requires EdgeInv(e) && (a.LoopDeliver? || a.LoopClose? || a.LoopGrant?)
    ensures CutMoves(e, Act(a), i)
  {
    if HasId(e.loop) && e.loop.id == i && i in e.streams {
      if a.LoopDeliver? && e.loop.Delivering? {
        DeliverCut(e, i);
      } else if a.LoopClose? && e.loop.Discarding? {
        CloseCut(e, i);
      } else {
        LoopIdle(e, a, i);
      }
    } else if !(HasId(e.loop) && e.loop.id == i) {
      LoopElsewhere(e, a, i);
    }
  }

  lemma LoopIdle(e: Edge, a: EdgeAction, i: nat)
    requires HasId(e.loop) && e.loop.id == i && i in e.streams && (a.LoopDeliver? || a.LoopClose? || a.LoopGrant?)
    requires (a.LoopDeliver? ==> !e.loop.Delivering?) && (a.LoopClose? ==> !e.loop.Discarding?)
    ensures CutMoves(e, Act(a), i)
  {
  }

  /** The loop takes a last chunk only for a stream that is there. */
  lemma ReceiveLast(st: EdgeStream, f: ClientFrame, i: nat)
    ensures HoldsLast(Receive(st, f).1, i) ==> f.id == i && st.inTable
  {
  }

  lemma OwnArrival(e: Edge, f: ClientFrame)
    requires e.loop.Ready? && f.id in e.streams
    ensures CutMoves(e, Arrives(f), f.id)
  {
    ReceiveRx(e.streams[f.id], f);
    ReceiveLast(e.streams[f.id], f, f.id);
  }

  lemma OtherArrival(e: Edge, f: ClientFrame, i: nat)
    requires e.loop.Ready? && (f.id != i || i !in e.streams)
    ensures CutMoves(e, Arrives(f), i)
  {
    ReceiveLast(At(e, f.id), f, i);
  }

  lemma ArrivalCut(e: Edge, f: ClientFrame, i: nat)
    ensures CutMoves(e, Arrives(f), i)
  {
    if e.loop.Ready? {
      if f.id == i && i in e.streams {
        OwnArrival(e, f);
      } else {
        OtherArrival(e, f, i);
      }
    }
  }

  lemma TeardownCut(e: Edge, j: nat, i: nat)
    requires EdgeInv(e)
    ensures CutMoves(e, Act(TeardownClose(j)), i)
  {
    InvPlaced(e, i);
  }

  lemma SharedCut(e: Edge, a: EdgeAction, i: nat)
    requires Placed(e, i)
    requires a.Admit? || a.Allocate? || a.Count? || a.CountDown? || a.HangUp? || a.Disconnect?
    ensures CutMoves(e, Act(a), i)
  {
  }

  lemma FeedCut(e: Edge, input: Input, i: nat)
    requires EdgeInv(e)
    ensures CutMoves(e, input, i)
  {
    InvPlaced(e, i);
    match input
    case Arrives(f) => ArrivalCut(e, f, i);
    case Act(a) =>
      match a
      case Do(j, step) =>
        if j != i {
          DoElsewhere(e, j, step, i);
        } else if step.Handle? {
          HandleCut(e, i, step.h);
        } else {
          UploadCut(e, i, step.u);
        }
      case LoopDeliver => LoopCut(e, a, i);
      case LoopClose => LoopCut(e, a, i);
      case LoopGrant => LoopCut(e, a, i);
      case TeardownClose(j) => TeardownCut(e, j, i);
      case _ => SharedCut(e, a, i);
  }

  // ---- runs --------------------------------------------------------------------------------------------

  lemma {:induction false} CutRuns(e: Edge, inputs: seq<Input>, i: nat)
    requires EdgeInv(e) && RxOk(e, i)
    ensures Listening(Run(e, inputs), i) ==> (CutShort(Run(e, inputs), i) <==> CutShort(e, i) || CutIn(e, inputs, i))
    decreases |inputs|
  {
    if inputs != [] && Listening(Run(e, inputs), i) {
      var e1 := Feed(e, inputs[0]);
      FeedCut(e, inputs[0], i);
      FeedKeeps(e, inputs[0]);
      RxRuns(e, [inputs[0]], i);
      assert Run(e, [inputs[0]]) == e1 by {
        assert [inputs[0]][1..] == [];
      }
      CutRuns(e1, inputs[1..], i);
      ListenedBefore(e1, inputs[1..], i);
    }
  }

  /** Who listens now has listened since the stream exists. */
  lemma ListenedBefore(e: Edge, inputs: seq<Input>, i: nat)
    requires EdgeInv(e) && RxOk(e, i) && Listening(Run(e, inputs), i)
    ensures i in e.streams ==> Listening(e, i)
  {
    RxRuns(e, inputs, i);
    if i in e.streams && HasClosed(e.streams[i].handler) {
      HasClosedStays(e, inputs, i);
    }
  }

  /** The body's channel has no sender left: the stream is closed to the end, and the read loop does
      not hold a chunk for it. */
  predicate ChannelClosed(e: Edge, i: nat) {
    i in e.streams && e.streams[i].closer.Finished? && !(e.loop.Delivering? && e.loop.id == i)
  }

  /** In every run, against any agent: a public body that is being served ends with neither End nor
      Reset if and only if its stream was closed when none had been handed to it and the read loop
      held none for it. The public client cannot tell that from the end of the body. */
  lemma BodiesCutShort(limit: nat, window: nat, inputs: seq<Input>, i: nat)
    ensures
      var e := Run(Init(limit, window), inputs);
      ChannelClosed(e, i) && e.streams[i].handler.Serving? ==>
        (!Terminated(e.streams[i].handed) <==> CutIn(Init(limit, window), inputs, i))
  {
    var e := Run(Init(limit, window), inputs);
    InitOk(limit, window);
    RunKeeps(Init(limit, window), inputs);
    RxRuns(Init(limit, window), inputs, i);
    CutRuns(Init(limit, window), inputs, i);
    if ChannelClosed(e, i) {
      assert LifeOk(e.window, e.streams[i]);
    }
  }

  // ---- what decides it ------------------------------------------------------------------------------

  lemma {:induction false} CutInSplit(e: Edge, a: seq<Input>, b: seq<Input>, i: nat)
    ensures CutIn(e, a + b, i) <==> CutIn(e, a, i) || CutIn(Run(e, a), b, i)
    decreases |a|
  {
    if a == [] {
      assert a + b == b;
    } else {
      assert (a + b)[1..] == a[1..] + b;
      CutInSplit(Feed(e, a[0]), a[1..], b, i);
    }
  }

  lemma GoneIsPastTable(e: Edge, i: nat)
    requires EdgeInv(e) && Gone(e, i)
    ensures Phase(e.streams[i]) >= 2
  {
    assert LifeOk(e.window, e.streams[i]);
  }

  lemma RemovedIsGone(e: Edge, input: Input, i: nat)
    requires EdgeInv(e) && Removes(e, input, i)
    ensures EdgeInv(Feed(e, input)) && Gone(Feed(e, input), i)
  {
    FeedKeeps(e, input);
    FeedEntry(e, input, i);
  }

  /** A stream is removed once, so its body is cut once: never after it is gone. */
  lemma {:induction false} GoneIsNotCut(e: Edge, inputs: seq<Input>, i: nat)
    requires EdgeInv(e) && i in e.streams && Phase(e.streams[i]) >= 2
    ensures !CutIn(e, inputs, i)
    decreases |inputs|
  {
    if inputs != [] {
      NeverResurrected(e, [], i);
      FeedKeeps(e, inputs[0]);
      FeedAdvances(e, inputs[0], i);
      GoneIsNotCut(Feed(e, inputs[0]), inputs[1..], i);
    }
  }

  /** And not while it is in the table. */
  lemma {:induction false} ListedIsNotCut(e: Edge, inputs: seq<Input>, i: nat)
    requires EdgeInv(e) && i in Table(Run(e, inputs))
    ensures !CutIn(e, inputs, i)
    decreases |inputs|
  {
    if inputs != [] {
      var e1 := Feed(e, inputs[0]);
      FeedKeeps(e, inputs[0]);
      ListedIsNotCut(e1, inputs[1..], i);
      if Removes(e, inputs[0], i) {
        RemovedIsGone(e, inputs[0], i);
        GoneIsPastTable(e1, i);
        NeverResurrected(e1, inputs[1..], i);
      }
    }
  }

  /** Over whole runs: what takes the stream out of the table, the upload task, the read loop or
      teardown, settles how its body will end. It ends without a terminal chunk if and only if none had
      been handed to it by then and the read loop held none for it. */
  lemma RemovalDecides(limit: nat, window: nat, inputs: seq<Input>, input: Input, later: seq<Input>, i: nat)
    requires Removes(Run(Init(limit, window), inputs), input, i)
    ensures
      var e := Run(Init(limit, window), inputs);
      var e' := Run(Feed(e, input), later);
      ChannelClosed(e', i) && e'.streams[i].handler.Serving? ==>
        (!Terminated(e'.streams[i].handed) <==> !Terminated(e.streams[i].handed) && !HoldsLast(e.loop, i))
  {
    var e0 := Init(limit, window);
    var e := Run(e0, inputs);
    InitOk(limit, window);
    RunKeeps(e0, inputs);
    RunSplit(e0, inputs, [input] + later);
    RunStep(e, input, later);
    BodiesCutShort(limit, window, inputs + ([input] + later), i);
    CutInSplit(e0, inputs, [input] + later, i);
    ListedIsNotCut(e0, inputs, i);
    CutFirst(e, input, later, i);
  }

  lemma CutFirst(e: Edge, input: Input, later: seq<Input>, i: nat)
    requires EdgeInv(e) && Removes(e, input, i)
    ensures CutIn(e, [input] + later, i) <==> Cuts(e, input, i)
  {
    RemovedIsGone(e, input, i);
    GoneIsPastTable(Feed(e, input), i);
    GoneIsNotCut(Feed(e, input), later, i);
    assert ([input] + later)[1..] == later;
  }

  /** No body that teardown finds in the table ever gets a terminal chunk. */
  lemma TeardownEndsBodies(limit: nat, window: nat, inputs: seq<Input>, later: seq<Input>, i: nat)
    requires Removes(Run(Init(limit, window), inputs), Act(TeardownClose(i)), i)
    ensures
      var e' := Run(Feed(Run(Init(limit, window), inputs), Act(TeardownClose(i))), later);
      ChannelClosed(e', i) && e'.streams[i].handler.Serving? ==> !Terminated(e'.streams[i].handed)
  {
    InitOk(limit, window);
    RunKeeps(Init(limit, window), inputs);
    ListedIsOpen(Run(Init(limit, window), inputs), i);
    RemovalDecides(limit, window, inputs, Act(TeardownClose(i)), later, i);
  }

  lemma ListedIsOpen(e: Edge, i: nat)
    requires EdgeInv(e) && i in Table(e) && !HasId(e.loop)
    ensures !Terminated(e.streams[i].handed)
  {
  }

  // ---- one such body ----------------------------------------------------------------------------------

  /** The response head has been taken and nothing of the body has come. */
  function Serving(window: nat): Edge {
    var st := Fresh(window).(handler := Handler.Serving, announced := true, headSent := true, inTable := true, reply := Streaming);
    Init(0, window).(nextStreamId := 2, openStreams := 1, streams := map[1 := st])
  }

  function ServeScript(): seq<Input> {
    [Act(Do(1, Handle(SendOpen)))] + ([Arrives(Frame.ResponseHead(1))] + ([Act(Do(1, Handle(TakeHead)))] + []))
  }

  lemma ServeRuns(window: nat)
    ensures Run(Opening(window), ServeScript()) == Serving(window)
  {
    var e := Opening(window);
    var e1 := Feed(e, Act(Do(1, Handle(SendOpen))));
    var e2 := Feed(e1, Arrives(Frame.ResponseHead(1)));
    RunStep(e2, Act(Do(1, Handle(TakeHead))), []);
    RunStep(e1, Arrives(Frame.ResponseHead(1)), [Act(Do(1, Handle(TakeHead)))] + []);
    RunStep(e, Act(Do(1, Handle(SendOpen))), [Arrives(Frame.ResponseHead(1))] + ([Act(Do(1, Handle(TakeHead)))] + []));
    assert Feed(e2, Act(Do(1, Handle(TakeHead)))).streams == Serving(window).streams;
  }

  function LostScript(): seq<Input> {
    [Act(HangUp)] + ([Act(TeardownClose(1))] + ([Act(Do(1, Handle(CloseSemaphore)))] + ([Act(CountDown(1))] + [])))
  }

  lemma LostRuns(window: nat)
    ensures
      var e := Run(Serving(window), LostScript());
      ChannelClosed(e, 1) && e.streams[1].handler.Serving? && e.streams[1].rxAlive && e.streams[1].handed == []
  {
    var e := Serving(window);
    var e1 := Feed(e, Act(HangUp));
    assert 1 in Table(e);
    var e2 := Feed(e1, Act(TeardownClose(1)));
    var e3 := Feed(e2, Act(Do(1, Handle(CloseSemaphore))));
    RunStep(e3, Act(CountDown(1)), []);
    RunStep(e2, Act(Do(1, Handle(CloseSemaphore))), [Act(CountDown(1))] + []);
    RunStep(e1, Act(TeardownClose(1)), [Act(Do(1, Handle(CloseSemaphore)))] + ([Act(CountDown(1))] + []));
    RunStep(e, Act(HangUp), [Act(TeardownClose(1))] + ([Act(Do(1, Handle(CloseSemaphore)))] + ([Act(CountDown(1))] + [])));
  }

  /** From the start: a response head, and then the agent's session is lost. The client is being served
      a body that has ended, with neither End nor Reset, and nothing in it. */
  lemma CutBodyExample()
    ensures exists inputs ::
      var e := Run(Init(0, MAX_CHUNK), inputs);
      ChannelClosed(e, 1) && e.streams[1].handler.Serving? && e.streams[1].rxAlive && e.streams[1].handed == []
  {
    var opening := [Act(Admit)] + ([Act(Allocate)] + ([Act(Do(1, Handle(Insert)))] + ([Act(Count(1))] + (ServeScript() + LostScript()))));
    OpeningRuns(MAX_CHUNK, ServeScript() + LostScript());
    RunSplit(Opening(MAX_CHUNK), ServeScript(), LostScript());
    ServeRuns(MAX_CHUNK);
    LostRuns(MAX_CHUNK);
    assert ChannelClosed(Run(Init(0, MAX_CHUNK), opening), 1);
  }

  // ---- the read loop's own closes -----------------------------------------------------------------

  /** The loop closes a stream that somebody listens to only after its last chunk. */
  ghost predicate Settled(e: Edge, i: nat) {
    i in Table(e) && e.streams[i].rxAlive && e.loop.Discarding? && e.loop.id == i ==> Terminated(e.streams[i].handed)
  }

  /** The loop works on streams that have been inserted. */
  predicate OnKnown(e: Edge, i: nat) {
    HasId(e.loop) && e.loop.id == i ==> i in e.streams && !e.streams[i].handler.Allocated?
  }

  lemma SettledDo(e: Edge, i: nat, step: EdgeLocal)
    requires EdgeInv(e) && Settled(e, i) && OnKnown(e, i)
    ensures Settled(Feed(e, Act(Do(i, step))), i)
  {
    if i in e.streams && LocalMove(i, e.window, e.queueOpen, e.streams[i], step).Some? {
      assert LifeOk(e.window, e.streams[i]);
      LocalLeaves(i, e.window, e.queueOpen, e.streams[i], step);
      DoMoved(e, i, step, LocalMove(i, e.window, e.queueOpen, e.streams[i], step).value.st);
      match step
      case Handle(h) => RxHandler(i, e.window, e.queueOpen, e.streams[i], h);
      case Upload(u) => RxUpload(i, e.queueOpen, e.streams[i], u);
    }
  }

  lemma DeliverSettles(queueOpen: bool, st: EdgeStream, loop: EdgeLoop)
    requires HasId(loop) && st.rxAlive && LoopMove(queueOpen, st, loop, LoopDeliver).Some?
    ensures
      var m := LoopMove(queueOpen, st, loop, LoopDeliver).value;
      m.loop.Discarding? ==> Terminated(m.st.handed)
  {
    if !loop.chunk.Data? {
      assert (st.handed + [loop.chunk])[|st.handed|] == loop.chunk;
    }
  }

  lemma SettledLoop(e: Edge, a: EdgeAction, i: nat)
    requires Settled(e, i) && (a.LoopDeliver? || a.LoopClose? || a.LoopGrant?)
    ensures Settled(LoopStep(e, a).0, i)
  {
    if HasId(e.loop) && e.loop.id == i && i in e.streams {
      if a.LoopDeliver? && e.streams[i].rxAlive && LoopMove(e.queueOpen, e.streams[i], e.loop, a).Some? {
        DeliverSettles(e.queueOpen, e.streams[i], e.loop);
      }
    }
  }

  lemma ReceiveSettles(st: EdgeStream, f: ClientFrame)
    ensures Receive(st, f).1.Discarding? ==> !st.inTable && Receive(st, f).1.id == f.id
  {
  }

  lemma FeedSettles(e: Edge, input: Input, i: nat)
    requires EdgeInv(e) && Settled(e, i) && OnKnown(e, i)
    ensures Settled(Feed(e, input), i)
  {
    match input
    case Arrives(f) =>
      if e.loop.Ready? {
        ReceiveSettles(At(e, f.id), f);
        ReceiveRx(At(e, f.id), f);
      }
    case Act(a) =>
      match a
      case Do(j, step) => if j == i { SettledDo(e, i, step); } else { DoElsewhere(e, j, step, i); }
      case LoopDeliver => SettledLoop(e, a, i);
      case LoopClose => SettledLoop(e, a, i);
      case LoopGrant => SettledLoop(e, a, i);
      case _ =>
  }
}
