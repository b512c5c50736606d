/** What holds of the edge in every run, whatever frames the agent sends and however the tasks
    interleave: the shape of the bodies handed to public clients, the life of a stream, and the
    stream counter. */
module EdgeRuns {
  import opened Wrappers
  import opened Frames
  import opened Flow
  import opened Edge

  /** A run interleaves steps of the edge's own tasks with frames from an arbitrary agent. */
  datatype Input = Act(a: EdgeAction) | Arrives(f: ClientFrame)

  function Feed(e: Edge, input: Input): Edge {
    match input
    case Act(a) => Step(e, a).0
    case Arrives(f) => if e.loop.Ready? then Accept(e, f) else e
  }

  function Run(e: Edge, inputs: seq<Input>): Edge
    decreases |inputs|
  {
    if inputs == [] then e else Run(Feed(e, inputs[0]), inputs[1..])
  }

  // ---- invariant -------------------------------------------------------------------------

  /** Data* (End | Reset)? */
  ghost predicate Word(handed: seq<Chunk>) {
    forall k | 0 <= k < |handed| - 1 :: handed[k].Data?
  }

  predicate Terminated(handed: seq<Chunk>) {
    handed != [] && !handed[|handed| - 1].Data?
  }

  ghost predicate Suffix(channel: seq<Chunk>, handed: seq<Chunk>) {
    |channel| <= |handed| && channel == handed[|handed| - |channel|..]
  }

  predicate Announcing(h: Handler) {
    h.Waiting? || h.HeadLost? || h.TimedOut? || h.TimedOutClosed? || h.Serving? || h.BodyDropped? || h.GuardClosed?
  }

  predicate HasClosed(h: Handler) {
    h.HeadLost? || h.TimedOutClosed? || h.GuardClosed? || h.Returning? || h.Done?
  }

  predicate BodyGone(h: Handler) {
    h.Done? || h.BodyDropped? || h.GuardClosed? || h.Cancelled?
  }

  ghost predicate BodyOk(st: EdgeStream) {
    && |st.channel| <= BODY_QUEUE && Suffix(st.channel, st.handed)
    && Word(st.handed)
    && (Chunk.End in st.handed ==> st.endSeen)
  }

  ghost predicate LifeOk(window: nat, st: EdgeStream) {
    && (st.handler.Allocated? ==> st == Fresh(window))
    && (st.closer.Untouched? <==> st.inTable || st.handler.Allocated?)
    && (st.inTable ==> !st.handler.Allocated?)
    && (!st.announced ==> st.pump.Idle? && st.abort.NoAbort? && st.body == [] && st.queued == [])
    && (Announcing(st.handler) ==> st.announced)
    && (st.handler.Inserted? || st.handler.Counted? || st.handler.OpenFailed? ==> !st.announced)
    && (HasClosed(st.handler) ==> !st.inTable)
    && (BodyGone(st.handler) ==> !st.rxAlive)
  }

  ghost predicate StreamOk(window: nat, st: EdgeStream) {
    BodyOk(st) && LifeOk(window, st)
  }

  /** The read loop never holds a chunk for a finished body, and a finished body that is still in
      the table is the one the loop is about to close. */
  ghost predicate LoopFits(loop: EdgeLoop, i: nat, st: EdgeStream) {
    && (loop.Delivering? && loop.id == i ==>
          !Terminated(st.handed) && !st.handler.Allocated? && (loop.chunk.End? ==> st.endSeen))
    && (st.inTable && Terminated(st.handed) ==> loop.Discarding? && loop.id == i)
  }

  ghost predicate EdgeInv(e: Edge) {
    && 1 <= e.nextStreamId
    && (forall i | i in e.streams :: 1 <= i < e.nextStreamId && StreamOk(e.window, e.streams[i]) && LoopFits(e.loop, i, e.streams[i]))
    && (e.loop.Delivering? || e.loop.Granting? ==> e.loop.id in e.streams)
  }

  /** What every step of one stream leaves alone. */
  ghost predicate BodyKept(st: EdgeStream, m: EdgeStream) {
    && m.handed == st.handed && m.endSeen == st.endSeen
    && (m.channel == st.channel || m.channel == [] || (st.channel != [] && m.channel == st.channel[1..]))
    && (m.inTable ==> st.inTable || st.handler.Allocated?)
    && !m.handler.Allocated?
  }

  /** Steps up to the queueing of Open. */
  predicate Opens(h: HandlerStep) {
    h.Insert? || h.SendOpen? || h.Cancel?
  }

  /** Steps that wait for the response head. */
  predicate Awaits(h: HandlerStep) {
    h.TakeHead? || h.LoseHead? || h.TimeOut?
  }

  /** Steps of the response body's channel. */
  predicate Consumes(h: HandlerStep) {
    h.DropBody? || h.Pull?
  }

  lemma OpeningKeeps(i: nat, window: nat, queueOpen: bool, st: EdgeStream, h: HandlerStep)
    requires LifeOk(window, st) && HandlerMove(i, window, queueOpen, st, h).Some?
    requires Opens(h)
    ensures LifeOk(window, HandlerMove(i, window, queueOpen, st, h).value.st)
    ensures BodyKept(st, HandlerMove(i, window, queueOpen, st, h).value.st)
  {
  }

  lemma AwaitingKeeps(i: nat, window: nat, queueOpen: bool, st: EdgeStream, h: HandlerStep)
    requires LifeOk(window, st) && HandlerMove(i, window, queueOpen, st, h).Some?
    requires Awaits(h)
    ensures LifeOk(window, HandlerMove(i, window, queueOpen, st, h).value.st)
    ensures BodyKept(st, HandlerMove(i, window, queueOpen, st, h).value.st)
  {
  }

  lemma ConsumingKeeps(i: nat, window: nat, queueOpen: bool, st: EdgeStream, h: HandlerStep)
    requires LifeOk(window, st) && HandlerMove(i, window, queueOpen, st, h).Some?
    requires Consumes(h)
    ensures LifeOk(window, HandlerMove(i, window, queueOpen, st, h).value.st)
    ensures BodyKept(st, HandlerMove(i, window, queueOpen, st, h).value.st)
  {
  }

  lemma ClosingKeeps(i: nat, window: nat, queueOpen: bool, st: EdgeStream, h: HandlerStep)
    requires LifeOk(window, st) && HandlerMove(i, window, queueOpen, st, h).Some?
    requires !Opens(h) && !Awaits(h) && !Consumes(h)
    ensures LifeOk(window, HandlerMove(i, window, queueOpen, st, h).value.st)
    ensures BodyKept(st, HandlerMove(i, window, queueOpen, st, h).value.st)
  {
  }

  lemma HandlerKeeps(i: nat, window: nat, queueOpen: bool, st: EdgeStream, h: HandlerStep)
    requires LifeOk(window, st) && HandlerMove(i, window, queueOpen, st, h).Some?
    ensures LifeOk(window, HandlerMove(i, window, queueOpen, st, h).value.st)
    ensures BodyKept(st, HandlerMove(i, window, queueOpen, st, h).value.st)
  {
    if Opens(h) {
      OpeningKeeps(i, window, queueOpen, st, h);
    } else if Awaits(h) {
      AwaitingKeeps(i, window, queueOpen, st, h);
    } else if Consumes(h) {
      ConsumingKeeps(i, window, queueOpen, st, h);
    } else {
      ClosingKeeps(i, window, queueOpen, st, h);
    }
  }

  lemma UploadKeeps(i: nat, window: nat, queueOpen: bool, st: EdgeStream, u: UploadStep)
    requires LifeOk(window, st) && UploadMove(i, queueOpen, st, u).Some?
    ensures LifeOk(window, UploadMove(i, queueOpen, st, u).value.st)
    ensures BodyKept(st, UploadMove(i, queueOpen, st, u).value.st)
  {
  }

  lemma LocalKeeps(i: nat, window: nat, queueOpen: bool, st: EdgeStream, a: EdgeLocal)
    requires StreamOk(window, st) && LocalMove(i, window, queueOpen, st, a).Some?
    ensures
      var m := LocalMove(i, window, queueOpen, st, a).value.st;
      StreamOk(window, m) && BodyKept(st, m)
  {
    match a
    case Handle(h) => HandlerKeeps(i, window, queueOpen, st, h);
    case Upload(u) => UploadKeeps(i, window, queueOpen, st, u);
  }

  lemma CloseKeeps(window: nat, st: EdgeStream)
    requires StreamOk(window, st)
    ensures StreamOk(window, Close(st))
  {
  }

  lemma LoopMoveKeeps(window: nat, queueOpen: bool, st: EdgeStream, loop: EdgeLoop, a: EdgeAction)
    requires HasId(loop) && LoopMove(queueOpen, st, loop, a).Some?
    requires StreamOk(window, st) && LoopFits(loop, loop.id, st)
    ensures
      var m := LoopMove(queueOpen, st, loop, a).value;
      && StreamOk(window, m.st)
      && LoopFits(m.loop, loop.id, m.st)
      && !m.loop.Delivering?
      && (HasId(m.loop) ==> m.loop.id == loop.id)
  {
    var m := LoopMove(queueOpen, st, loop, a).value;
    if a.LoopDeliver? {
      if st.rxAlive && |st.channel| < BODY_QUEUE {
        assert Word(m.st.handed);
        assert Suffix(m.st.channel, m.st.handed);
      }
    }
  }

  lemma ReceiveKeeps(window: nat, st: EdgeStream, f: ClientFrame)
    requires StreamOk(window, st) && LoopFits(Ready, f.id, st)
    ensures
      var (st', loop) := Receive(st, f);
      && StreamOk(window, st')
      && LoopFits(loop, f.id, st')
      && (HasId(loop) ==> loop.id == f.id)
      && (loop.Delivering? ==> st.inTable)
      && !loop.Granting?
  {
  }

  /** Writing one stream back and moving the loop keeps the invariant when that stream is in
      order and the loop was, and is, on no other stream. */
  lemma PutKeeps(e: Edge, i: nat, st: EdgeStream, loop: EdgeLoop)
    requires EdgeInv(e) && i in e.streams
    requires StreamOk(e.window, st) && LoopFits(loop, i, st)
    requires HasId(e.loop) && e.loop.id != i ==> loop == e.loop
    requires HasId(loop) && loop.id != i ==> loop == e.loop
    ensures EdgeInv(Put(e, i, st).(loop := loop))
  {
  }

  lemma LoopStepKeeps(e: Edge, a: EdgeAction)
    requires EdgeInv(e)
    ensures EdgeInv(LoopStep(e, a).0)
  {
    if HasId(e.loop) {
      var i := e.loop.id;
      var r := LoopMove(e.queueOpen, At(e, i), e.loop, a);
      if r.Some? {
        if i in e.streams {
          LoopMoveKeeps(e.window, e.queueOpen, e.streams[i], e.loop, a);
          PutKeeps(e, i, r.value.st, r.value.loop);
        }
      }
    }
  }

  lemma DoKeeps(e: Edge, i: nat, step: EdgeLocal)
    requires EdgeInv(e) && i in e.streams
    requires LocalMove(i, e.window, e.queueOpen, e.streams[i], step).Some?
    ensures EdgeInv(Step(e, Do(i, step)).0)
  {
    LocalKeeps(i, e.window, e.queueOpen, e.streams[i], step);
    MovedKeeps(e, i, LocalMove(i, e.window, e.queueOpen, e.streams[i], step).value.st);
  }

  lemma MovedKeeps(e: Edge, i: nat, st: EdgeStream)
    requires EdgeInv(e) && i in e.streams && StreamOk(e.window, st)
    requires BodyKept(e.streams[i], st)
    ensures EdgeInv(Put(e, i, st))
  {
    PutKeeps(e, i, st, e.loop);
    assert Put(e, i, st) == Put(e, i, st).(loop := e.loop);
  }

  lemma CounterStepKeeps(e: Edge, a: EdgeAction)
    requires EdgeInv(e)
    requires a.Count? || a.CountDown?
    ensures EdgeInv(Step(e, a).0)
  {
    var i := a.id;
    if i in e.streams {
      if a.Count? && e.streams[i].handler.Inserted? {
        PutKeeps(e, i, e.streams[i].(handler := Counted), e.loop);
      }
      if a.CountDown? && e.streams[i].closer.SemaphoreClosed? {
        PutKeeps(e, i, e.streams[i].(closer := Finished), e.loop);
      }
    }
  }

  lemma TeardownKeeps(e: Edge, i: nat)
    requires EdgeInv(e)
    ensures EdgeInv(Step(e, TeardownClose(i)).0)
  {
    if e.loop.Teardown? && i in e.loop.ids && i in e.streams {
      CloseKeeps(e.window, e.streams[i]);
      PutKeeps(e, i, Close(e.streams[i]), TeardownOf(e.loop.ids - {i}));
    }
  }

  lemma StepKeeps(e: Edge, a: EdgeAction)
    requires EdgeInv(e)
    ensures EdgeInv(Step(e, a).0)
  {
    match a
    case Do(i, step) =>
      if i in e.streams && LocalMove(i, e.window, e.queueOpen, e.streams[i], step).Some? {
        DoKeeps(e, i, step);
      }
    case Count(i) => CounterStepKeeps(e, a);
    case CountDown(i) => CounterStepKeeps(e, a);
    case LoopDeliver => LoopStepKeeps(e, a);
    case LoopClose => LoopStepKeeps(e, a);
    case LoopGrant => LoopStepKeeps(e, a);
    case TeardownClose(i) => TeardownKeeps(e, i);
    case Allocate => AllocateKeeps(e);
    case _ =>
  }

  lemma AllocateKeeps(e: Edge)
    requires EdgeInv(e)
    ensures EdgeInv(Step(e, Allocate).0)
  {
    assert StreamOk(e.window, Fresh(e.window));
  }

  lemma FeedKeeps(e: Edge, input: Input)
    requires EdgeInv(e)
    ensures EdgeInv(Feed(e, input))
  {
    match input
    case Act(a) => StepKeeps(e, a);
    case Arrives(f) =>
      if e.loop.Ready? && f.id in e.streams {
        var (st, loop) := Receive(e.streams[f.id], f);
        ReceiveKeeps(e.window, e.streams[f.id], f);
        PutKeeps(e, f.id, st, loop);
      }
  }

  lemma {:induction false} RunKeeps(e: Edge, inputs: seq<Input>)
    requires EdgeInv(e)
    ensures EdgeInv(Run(e, inputs))
    decreases |inputs|
  {
    if inputs != [] {
      FeedKeeps(e, inputs[0]);
      RunKeeps(Feed(e, inputs[0]), inputs[1..]);
    }
  }

  lemma InitOk(limit: nat, window: nat)
    ensures EdgeInv(Init(limit, window))
  {
  }

  // ---- theorems --------------------------------------------------------------------------

  /** Whatever an agent sends, what a public client reads is Data* (End | Reset)?, at most
      16 chunks of it waiting; a clean end is only reported for an End frame. */
  lemma BodiesAreWords(limit: nat, window: nat, inputs: seq<Input>, i: nat)
    ensures
      var e := Run(Init(limit, window), inputs);
      i in e.streams ==>
        var st := e.streams[i];
        && Word(st.handed)
        && |st.channel| <= 16 && Suffix(st.channel, st.handed)
        && (Chunk.End in st.handed ==> st.endSeen)
  {
    InitOk(limit, window);
    RunKeeps(Init(limit, window), inputs);
  }

  /** A handler that ran to its end, response body included, has left no entry and no receiver, and a
      stream that has been in the table and is not any more is being closed. */
  lemma FinishedHandlersLeaveNothing(limit: nat, window: nat, inputs: seq<Input>, i: nat)
    ensures
      var e := Run(Init(limit, window), inputs);
      i in e.streams ==>
        var st := e.streams[i];
        && (st.handler.Done? ==> i !in Table(e) && !st.rxAlive)
        && (i !in Table(e) && !st.handler.Allocated? ==> !st.closer.Untouched?)
  {
    InitOk(limit, window);
    RunKeeps(Init(limit, window), inputs);
  }

  // ---- senders of removed streams ------------------------------------------------------------------

  /** A sender that was waiting for credit when its semaphore was closed, or has stopped since. */
  predicate Released(st: EdgeStream, queued: Bytes) {
    SemaphoreShut(st) && !st.inTable && (st.pump.Sending? || st.pump.Stopped?) && st.queued == queued
  }

  lemma ReleasedHandler(i: nat, window: nat, queueOpen: bool, st: EdgeStream, h: HandlerStep, queued: Bytes)
    requires Released(st, queued) && !st.handler.Allocated?
    requires HandlerMove(i, window, queueOpen, st, h).Some?
    ensures Released(HandlerMove(i, window, queueOpen, st, h).value.st, queued)
  {
  }

  lemma ReleasedUpload(i: nat, queueOpen: bool, st: EdgeStream, u: UploadStep, queued: Bytes)
    requires Released(st, queued) && UploadMove(i, queueOpen, st, u).Some?
    ensures Released(UploadMove(i, queueOpen, st, u).value.st, queued)
  {
  }

  lemma ReleasedMove(i: nat, window: nat, queueOpen: bool, st: EdgeStream, a: EdgeLocal, queued: Bytes)
    requires Released(st, queued) && !st.handler.Allocated?
    requires LocalMove(i, window, queueOpen, st, a).Some?
    ensures Released(LocalMove(i, window, queueOpen, st, a).value.st, queued)
  {
    match a
    case Handle(h) => ReleasedHandler(i, window, queueOpen, st, h, queued);
    case Upload(u) => ReleasedUpload(i, queueOpen, st, u, queued);
  }

  lemma ReleasedStep(e: Edge, input: Input, i: nat, queued: Bytes)
    requires EdgeInv(e) && i in e.streams && Released(e.streams[i], queued)
    ensures i in Feed(e, input).streams && Released(Feed(e, input).streams[i], queued)
  {
    assert LifeOk(e.window, e.streams[i]);
    if input.Act? && input.a.Do? && input.a.id == i {
      if LocalMove(i, e.window, e.queueOpen, e.streams[i], input.a.step).Some? {
        ReleasedMove(i, e.window, e.queueOpen, e.streams[i], input.a.step, queued);
      }
    } else if input.Act? {
      OthersKeepReleased(e, input.a, i, queued);
    }
  }

  lemma OthersKeepReleased(e: Edge, a: EdgeAction, i: nat, queued: Bytes)
    requires EdgeInv(e) && i in e.streams && Released(e.streams[i], queued)
    requires a.Do? ==> a.id != i
    ensures i in Step(e, a).0.streams && Released(Step(e, a).0.streams[i], queued)
  {
    match a
    case Do(_, _) =>
    case LoopDeliver => LoopKeepsReleased(e, a, i, queued);
    case LoopClose => LoopKeepsReleased(e, a, i, queued);
    case LoopGrant => LoopKeepsReleased(e, a, i, queued);
    case _ =>
  }

  lemma LoopKeepsReleased(e: Edge, a: EdgeAction, i: nat, queued: Bytes)
    requires i in e.streams && Released(e.streams[i], queued)
    ensures i in LoopStep(e, a).0.streams && Released(LoopStep(e, a).0.streams[i], queued)
  {
  }

  /** Every sender left on the semaphore of a removed stream is released with failure: in any run
      from there it queues nothing more, and unless it has stopped already it can stop at once. */
  lemma {:induction false} ReleasedSenderSendsNothing(e: Edge, inputs: seq<Input>, i: nat)
    requires EdgeInv(e) && i in e.streams && SemaphoreShut(e.streams[i])
    requires e.streams[i].pump.Sending? || e.streams[i].pump.Stopped?
    ensures
      var e' := Run(e, inputs);
      i in e'.streams &&
      var st := e'.streams[i];
      && st.queued == e.streams[i].queued
      && (st.pump.Stopped? || LocalMove(i, e'.window, e'.queueOpen, st, Upload(PumpStop)).Some?)
    decreases |inputs|
  {
    assert LifeOk(e.window, e.streams[i]);
    if inputs != [] {
      ReleasedStep(e, inputs[0], i, e.streams[i].queued);
      FeedKeeps(e, inputs[0]);
      ReleasedSenderSendsNothing(Feed(e, inputs[0]), inputs[1..], i);
    }
  }

  // ---- handlers that are dropped early ---------------------------------------------------------

  /** The step takes stream `i` out of the table on behalf of its upload task, of the read loop, or
      of teardown. */
  predicate Removes(e: Edge, input: Input, i: nat) {
    && i in Table(e)
    && input.Act?
    && match input.a
       case Do(j, step) => j == i && step == Upload(PumpClose) && e.streams[i].abort.MustClose?
       case LoopClose => e.loop.Discarding? && e.loop.id == i
       case TeardownClose(j) => j == i && e.loop.Teardown? && i in e.loop.ids
       case _ => false
  }

  /** The handler itself takes it out. */
  predicate HandlerCloses(e: Edge, input: Input, i: nat) {
    && i in Table(e)
    && input == Act(Do(i, Handle(HandlerClose)))
    && MayClose(e.streams[i].handler)
  }

  predicate MayClose(h: Handler) {
    h.OpenFailed? || h.HeadLost? || h.TimedOut? || h.BodyDropped?
  }

  /** The stream has been in the table and is not any more. */
  predicate Gone(e: Edge, i: nat) {
    i in e.streams && !e.streams[i].handler.Allocated? && !e.streams[i].inTable
  }

  lemma HandlerLeaves(i: nat, window: nat, queueOpen: bool, st: EdgeStream, h: HandlerStep)
    requires LifeOk(window, st) && HandlerMove(i, window, queueOpen, st, h).Some?
    ensures
      var m := HandlerMove(i, window, queueOpen, st, h).value.st;
      && (HasClosed(st.handler) ==> HasClosed(m.handler))
      && !m.handler.Allocated?
      && (!m.inTable <==> (!st.inTable && !st.handler.Allocated?)
                          || (h.HandlerClose? && st.inTable))
      && (h.HandlerClose? ==> HasClosed(m.handler) && MayClose(st.handler))
  {
  }

  lemma UploadStays(i: nat, queueOpen: bool, st: EdgeStream, u: UploadStep)
    requires UploadMove(i, queueOpen, st, u).Some? && !u.PumpClose?
    ensures
      var m := UploadMove(i, queueOpen, st, u).value.st;
      m.handler == st.handler && m.inTable == st.inTable
  {
  }

  lemma UploadCloses(i: nat, queueOpen: bool, st: EdgeStream)
    requires UploadMove(i, queueOpen, st, PumpClose).Some?
    ensures
      var m := UploadMove(i, queueOpen, st, PumpClose).value.st;
      m.handler == st.handler && !m.inTable && st.abort.MustClose?
  {
  }

  lemma UploadLeaves(i: nat, window: nat, queueOpen: bool, st: EdgeStream, u: UploadStep)
    requires LifeOk(window, st) && UploadMove(i, queueOpen, st, u).Some?
    ensures
      var m := UploadMove(i, queueOpen, st, u).value.st;
      && m.handler == st.handler && !m.handler.Allocated?
      && (!m.inTable <==> !st.inTable || u.PumpClose?)
      && (u.PumpClose? ==> st.abort.MustClose?)
  {
    UploadIsAnnounced(i, window, queueOpen, st, u);
    if u.PumpClose? {
      UploadCloses(i, queueOpen, st);
    } else {
      UploadStays(i, queueOpen, st, u);
    }
  }

  lemma UploadIsAnnounced(i: nat, window: nat, queueOpen: bool, st: EdgeStream, u: UploadStep)
    requires LifeOk(window, st) && UploadMove(i, queueOpen, st, u).Some?
    ensures !st.handler.Allocated?
  {
  }

  /** What one step can do to the entry of a stream and to its handler's past. */
  ghost predicate EntryMoves(e: Edge, input: Input, i: nat) {
    var e' := Feed(e, input);
    && (Gone(e', i) <==> Gone(e, i) || Removes(e, input, i) || HandlerCloses(e, input, i))
    && (i in e.streams ==> i in e'.streams && (HasClosed(e.streams[i].handler) ==> HasClosed(e'.streams[i].handler)))
    && (HandlerCloses(e, input, i) ==> HasClosed(e'.streams[i].handler))
  }

  /** Both together, for a step that is enabled. */
  lemma LocalLeaves(i: nat, window: nat, queueOpen: bool, st: EdgeStream, step: EdgeLocal)
    requires LifeOk(window, st) && LocalMove(i, window, queueOpen, st, step).Some?
    ensures
      var m := LocalMove(i, window, queueOpen, st, step).value.st;
      && (HasClosed(st.handler) ==> HasClosed(m.handler))
      && !m.handler.Allocated?
      && (!m.inTable <==> (!st.inTable && !st.handler.Allocated?)
                          || ((step == Handle(HandlerClose) || step == Upload(PumpClose)) && st.inTable))
      && (step == Handle(HandlerClose) ==> HasClosed(m.handler) && MayClose(st.handler))
      && (step == Upload(PumpClose) ==> st.abort.MustClose?)
  {
    match step
    case Handle(h) => HandlerLeaves(i, window, queueOpen, st, h);
    case Upload(u) => UploadLeaves(i, window, queueOpen, st, u);
  }

  lemma CloseEnabled(i: nat, window: nat, queueOpen: bool, st: EdgeStream)
    ensures MayClose(st.handler) <==> LocalMove(i, window, queueOpen, st, Handle(HandlerClose)).Some?
    ensures st.abort.MustClose? <==> LocalMove(i, window, queueOpen, st, Upload(PumpClose)).Some?
  {
  }

  lemma DoEntry(e: Edge, i: nat, step: EdgeLocal)
    requires EdgeInv(e)
    ensures EntryMoves(e, Act(Do(i, step)), i)
  {
    if i in e.streams {
      CloseEnabled(i, e.window, e.queueOpen, e.streams[i]);
      if LocalMove(i, e.window, e.queueOpen, e.streams[i], step).Some? {
        LocalLeaves(i, e.window, e.queueOpen, e.streams[i], step);
        DoMoved(e, i, step, LocalMove(i, e.window, e.queueOpen, e.streams[i], step).value.st);
      } else {
        assert Feed(e, Act(Do(i, step))) == e;
      }
    }
  }

  lemma DoMoved(e: Edge, i: nat, step: EdgeLocal, m: EdgeStream)
    requires i in e.streams && LocalMove(i, e.window, e.queueOpen, e.streams[i], step).Some?
    requires m == LocalMove(i, e.window, e.queueOpen, e.streams[i], step).value.st
    ensures i in Feed(e, Act(Do(i, step))).streams && Feed(e, Act(Do(i, step))).streams[i] == m
  {
  }

  lemma DoOther(e: Edge, j: nat, step: EdgeLocal, i: nat)
    requires i != j
    ensures EntryMoves(e, Act(Do(j, step)), i)
  {
    var e' := Feed(e, Act(Do(j, step)));
    assert i in e'.streams <==> i in e.streams;
    assert i in e.streams ==> e'.streams[i] == e.streams[i];
  }

  /** What the shared steps need to know. */
  ghost predicate Placed(e: Edge, i: nat) {
    e.nextStreamId !in e.streams && (i in Table(e) ==> !e.streams[i].handler.Allocated?)
  }

  lemma InvPlaced(e: Edge, i: nat)
    requires EdgeInv(e)
    ensures Placed(e, i)
  {
    if i in e.streams {
      assert LifeOk(e.window, e.streams[i]);
    }
  }

  lemma DeliverEntry(e: Edge, i: nat)
    requires Placed(e, i)
    ensures EntryMoves(e, Act(LoopDeliver), i)
  {
  }

  lemma CloseEntry(e: Edge, i: nat)
    requires Placed(e, i)
    ensures EntryMoves(e, Act(LoopClose), i)
  {
  }

  lemma GrantEntry(e: Edge, i: nat)
    requires Placed(e, i)
    ensures EntryMoves(e, Act(LoopGrant), i)
  {
  }

  lemma ReceiveEntry(st: EdgeStream, f: ClientFrame)
    ensures Receive(st, f).0.inTable == st.inTable && Receive(st, f).0.handler == st.handler
  {
  }

  lemma ArrivalEntry(e: Edge, f: ClientFrame, i: nat)
    requires Placed(e, i)
    ensures EntryMoves(e, Arrives(f), i)
  {
    if e.loop.Ready? {
      ReceiveEntry(At(e, f.id), f);
    }
  }

  lemma TeardownEntry(e: Edge, j: nat, i: nat)
    requires Placed(e, i)
    ensures EntryMoves(e, Act(TeardownClose(j)), i)
  {
    if j != i {
      var e' := Feed(e, Act(TeardownClose(j)));
      assert i in e'.streams <==> i in e.streams;
      assert i in e.streams ==> e'.streams[i] == e.streams[i];
    }
  }

  lemma CountEntry(e: Edge, a: EdgeAction, i: nat)
    requires Placed(e, i) && (a.Count? || a.CountDown?)
    ensures EntryMoves(e, Act(a), i)
  {
  }

  lemma AllocateEntry(e: Edge, i: nat)
    requires Placed(e, i)
    ensures EntryMoves(e, Act(Allocate), i)
  {
  }

  lemma QuietEntry(e: Edge, a: EdgeAction, i: nat)
    requires a.Admit? || a.HangUp? || a.Disconnect?
    ensures EntryMoves(e, Act(a), i)
  {
  }

  lemma SharedEntry(e: Edge, a: EdgeAction, i: nat)
    requires Placed(e, i) && !a.Do?
    ensures EntryMoves(e, Act(a), i)
  {
    match a
    case Allocate => AllocateEntry(e, i);
    case Count(_) => CountEntry(e, a, i);
    case CountDown(_) => CountEntry(e, a, i);
    case TeardownClose(j) => TeardownEntry(e, j, i);
    case LoopDeliver => DeliverEntry(e, i);
    case LoopClose => CloseEntry(e, i);
    case LoopGrant => GrantEntry(e, i);
    case _ => QuietEntry(e, a, i);
  }

  lemma FeedEntry(e: Edge, input: Input, i: nat)
    requires EdgeInv(e)
    ensures EntryMoves(e, input, i)
  {
    InvPlaced(e, i);
    match input
    case Arrives(f) => ArrivalEntry(e, f, i);
    case Act(a) =>
      if a.Do? {
        if a.id == i {
          DoEntry(e, i, a.step);
        } else {
          DoOther(e, a.id, a.step, i);
        }
      } else {
        SharedEntry(e, a, i);
      }
  }

  /** Some step of the run takes the stream out of the table, other than its own handler's. */
  predicate RemovedIn(e: Edge, inputs: seq<Input>, i: nat)
    decreases |inputs|
  {
    inputs != [] && (Removes(e, inputs[0], i) || RemovedIn(Feed(e, inputs[0]), inputs[1..], i))
  }

  lemma {:induction false} HasClosedStays(e: Edge, inputs: seq<Input>, i: nat)
    requires EdgeInv(e) && i in e.streams && HasClosed(e.streams[i].handler)
    ensures i in Run(e, inputs).streams && HasClosed(Run(e, inputs).streams[i].handler)
    decreases |inputs|
  {
    if inputs != [] {
      FeedEntry(e, inputs[0], i);
      FeedKeeps(e, inputs[0]);
      HasClosedStays(Feed(e, inputs[0]), inputs[1..], i);
    }
  }

  /** A handler that was dropped before there was a guard has its entry in the table until one of
      the other three closes the stream: from any reachable state, whatever happens then. */
  lemma {:induction false} CancelledEntry(e: Edge, inputs: seq<Input>, i: nat)
    requires EdgeInv(e)
    ensures
      var e' := Run(e, inputs);
      i in e'.streams && e'.streams[i].handler.Cancelled? ==>
        (i in Table(e') <==> !Gone(e, i) && !RemovedIn(e, inputs, i))
    decreases |inputs|
  {
    if inputs != [] {
      var e1 := Feed(e, inputs[0]);
      FeedEntry(e, inputs[0], i);
      FeedKeeps(e, inputs[0]);
      CancelledEntry(e1, inputs[1..], i);
      if HandlerCloses(e, inputs[0], i) {
        HasClosedStays(e1, inputs[1..], i);
      }
    }
  }

  /** Once cancelled, a handler takes no further step. */
  lemma {:induction false} CancelledStays(e: Edge, inputs: seq<Input>, i: nat)
    requires EdgeInv(e) && i in e.streams && e.streams[i].handler.Cancelled?
    ensures
      var e' := Run(e, inputs);
      i in e'.streams && e'.streams[i].handler.Cancelled? && e'.streams[i].announced == e.streams[i].announced
    decreases |inputs|
  {
    if inputs != [] {
      CancelledStep(e, inputs[0], i);
      FeedKeeps(e, inputs[0]);
      CancelledStays(Feed(e, inputs[0]), inputs[1..], i);
    }
  }

  lemma CancelledMove(i: nat, window: nat, queueOpen: bool, st: EdgeStream, h: HandlerStep)
    requires st.handler.Cancelled? && HandlerMove(i, window, queueOpen, st, h).Some?
    ensures
      var m := HandlerMove(i, window, queueOpen, st, h).value.st;
      m.handler.Cancelled? && m.announced == st.announced
  {
  }

  lemma UploadIsApart(i: nat, queueOpen: bool, st: EdgeStream, u: UploadStep)
    requires UploadMove(i, queueOpen, st, u).Some?
    ensures
      var m := UploadMove(i, queueOpen, st, u).value.st;
      m.handler == st.handler && m.announced == st.announced
  {
  }

  lemma CancelledStep(e: Edge, input: Input, i: nat)
    requires EdgeInv(e) && i in e.streams && e.streams[i].handler.Cancelled?
    ensures
      var e' := Feed(e, input);
      i in e'.streams && e'.streams[i].handler.Cancelled? && e'.streams[i].announced == e.streams[i].announced
  {
    if input.Act? && input.a.Do? && input.a.id == i {
      if LocalMove(i, e.window, e.queueOpen, e.streams[i], input.a.step).Some? {
        match input.a.step
        case Handle(h) => CancelledMove(i, e.window, e.queueOpen, e.streams[i], h);
        case Upload(u) => UploadIsApart(i, e.queueOpen, e.streams[i], u);
      }
    } else if input.Act? {
      OthersKeepHandler(e, input.a, i);
    }
  }

  lemma OthersKeepHandler(e: Edge, a: EdgeAction, i: nat)
    requires EdgeInv(e) && i in e.streams && e.streams[i].handler.Cancelled?
    requires a.Do? ==> a.id != i
    ensures
      var e' := Step(e, a).0;
      i in e'.streams && e'.streams[i].handler == e.streams[i].handler && e'.streams[i].announced == e.streams[i].announced
  {
    match a
    case Do(_, _) =>
    case LoopDeliver => LoopKeepsHandler(e, a, i);
    case LoopClose => LoopKeepsHandler(e, a, i);
    case LoopGrant => LoopKeepsHandler(e, a, i);
    case _ =>
  }

  lemma LoopKeepsHandler(e: Edge, a: EdgeAction, i: nat)
    requires i in e.streams
    ensures
      var e' := LoopStep(e, a).0;
      i in e'.streams && e'.streams[i].handler == e.streams[i].handler && e'.streams[i].announced == e.streams[i].announced
  {
  }

  /** No entry outlives its handler exactly unless the handler was dropped early: when a handler is
      through, its stream is in the table if and only if the handler was cancelled and neither the
      upload task, nor the read loop, nor teardown has closed the stream. */
  lemma EntryOutlivesHandler(limit: nat, window: nat, inputs: seq<Input>, i: nat)
    ensures
      var e := Run(Init(limit, window), inputs);
      i in e.streams && (e.streams[i].handler.Done? || e.streams[i].handler.Cancelled?) ==>
        (i in Table(e) <==> e.streams[i].handler.Cancelled? && !RemovedIn(Init(limit, window), inputs, i))
  {
    InitOk(limit, window);
    RunKeeps(Init(limit, window), inputs);
    CancelledEntry(Init(limit, window), inputs, i);
  }

  /** From a state with such an entry, any run keeps it that holds no close of the other three, and
      the first of them removes it for good. */
  lemma CancelledEntryPersists(e: Edge, inputs: seq<Input>, i: nat)
    requires EdgeInv(e) && i in Table(e) && e.streams[i].handler.Cancelled?
    ensures i in Table(Run(e, inputs)) <==> !RemovedIn(e, inputs, i)
    ensures i in Run(e, inputs).streams && Run(e, inputs).streams[i].handler.Cancelled?
  {
    CancelledEntry(e, inputs, i);
    CancelledStays(e, inputs, i);
  }

  /** The step is a close by the upload task. */
  predicate ByUpload(input: Input, i: nat) {
    input == Act(Do(i, Upload(PumpClose)))
  }

  /** A handler cancelled before its Open was queued has no upload task: only the read loop, for a
      stray frame of the agent, or teardown can remove its entry. */
  lemma UnannouncedEntryHasNoUpload(e: Edge, inputs: seq<Input>, i: nat, k: nat)
    requires EdgeInv(e) && i in e.streams && e.streams[i].handler.Cancelled? && !e.streams[i].announced
    requires k < |inputs| && Removes(Run(e, inputs[..k]), inputs[k], i)
    ensures !ByUpload(inputs[k], i)
  {
    CancelledStays(e, inputs[..k], i);
    RunKeeps(e, inputs[..k]);
    assert LifeOk(e.window, Run(e, inputs[..k]).streams[i]) by {
      RunWindow(e, inputs[..k]);
    }
  }

  lemma UnannouncedGoesBy(e: Edge, input: Input, i: nat)
    requires EdgeInv(e) && i in Table(e) && e.streams[i].handler.Cancelled? && !e.streams[i].announced
    ensures i !in Table(Feed(e, input)) ==>
      input == Act(TeardownClose(i)) || (input == Act(LoopClose) && e.loop.Discarding? && e.loop.id == i)
  {
    assert LifeOk(e.window, e.streams[i]);
    FeedEntry(e, input, i);
    CancelledStep(e, input, i);
    assert Gone(Feed(e, input), i) ==> Removes(e, input, i);
  }

  lemma {:induction false} RunWindow(e: Edge, inputs: seq<Input>)
    ensures Run(e, inputs).window == e.window
    decreases |inputs|
  {
    if inputs != [] {
      RunWindow(Feed(e, inputs[0]), inputs[1..]);
    }
  }

  /** A stream that was opened and whose handler was then dropped. */
  function Abandoned(window: nat): Edge {
    var st := Fresh(window).(handler := Cancelled, announced := true, inTable := true, rxAlive := false);
    Init(0, window).(nextStreamId := 2, openStreams := 1, streams := map[1 := st])
  }

  function AbandonScript(): seq<Input> {
    [Act(Admit)] + ([Act(Allocate)] + ([Act(Do(1, Handle(Insert)))] + ([Act(Count(1))]
      + ([Act(Do(1, Handle(SendOpen)))] + ([Act(Do(1, Handle(Cancel)))] + [])))))
  }

  /** A stream before its Open. */
  function Opening(window: nat): Edge {
    var st := Fresh(window).(handler := Counted, inTable := true);
    Init(0, window).(nextStreamId := 2, openStreams := 1, streams := map[1 := st])
  }

  lemma AllocatedRuns(window: nat, rest: seq<Input>)
    ensures Run(Init(0, window), [Act(Admit)] + ([Act(Allocate)] + rest))
      == Run(Init(0, window).(nextStreamId := 2, streams := map[1 := Fresh(window)]), rest)
  {
    var e1 := Feed(Init(0, window), Act(Admit));
    assert Feed(e1, Act(Allocate)).streams == map[1 := Fresh(window)];
    RunStep(e1, Act(Allocate), rest);
    RunStep(Init(0, window), Act(Admit), [Act(Allocate)] + rest);
  }

  lemma PlacedRuns(window: nat, rest: seq<Input>)
    ensures
      var e2 := Init(0, window).(nextStreamId := 2, streams := map[1 := Fresh(window)]);
      Run(e2, [Act(Do(1, Handle(Insert)))] + ([Act(Count(1))] + rest)) == Run(Opening(window), rest)
  {
    var e2 := Init(0, window).(nextStreamId := 2, streams := map[1 := Fresh(window)]);
    var e3 := Feed(e2, Act(Do(1, Handle(Insert))));
    assert Feed(e3, Act(Count(1))).streams == Opening(window).streams;
    RunStep(e3, Act(Count(1)), rest);
    RunStep(e2, Act(Do(1, Handle(Insert))), [Act(Count(1))] + rest);
  }

  lemma OpeningRuns(window: nat, rest: seq<Input>)
    ensures Run(Init(0, window), [Act(Admit)] + ([Act(Allocate)] + ([Act(Do(1, Handle(Insert)))] + ([Act(Count(1))] + rest))))
      == Run(Opening(window), rest)
  {
    PlacedRuns(window, rest);
    AllocatedRuns(window, [Act(Do(1, Handle(Insert)))] + ([Act(Count(1))] + rest));
  }

  lemma AbandonRuns(window: nat)
    ensures Run(Init(0, window), AbandonScript()) == Abandoned(window)
  {
    var e := Opening(window);
    var e1 := Feed(e, Act(Do(1, Handle(SendOpen))));
    assert Feed(e1, Act(Do(1, Handle(Cancel)))).streams == Abandoned(window).streams;
    RunStep(e1, Act(Do(1, Handle(Cancel))), []);
    RunStep(e, Act(Do(1, Handle(SendOpen))), [Act(Do(1, Handle(Cancel)))] + []);
    OpeningRuns(window, [Act(Do(1, Handle(SendOpen)))] + ([Act(Do(1, Handle(Cancel)))] + []));
  }

  /** The shortest run that leaves an entry behind, counted; and the upload task closing the stream
      when the client's body fails after all. */
  lemma CancelledHandlerLeavesItsEntry()
    ensures
      var e := Run(Init(0, MAX_CHUNK), AbandonScript());
      && 1 in Table(e) && e.openStreams == 1 && e.streams[1].handler.Cancelled?
      && 1 !in Table(Run(e, [Act(Do(1, Upload(FailBody)))] + [Act(Do(1, Upload(PumpClose)))]))
  {
    AbandonRuns(MAX_CHUNK);
    var e := Abandoned(MAX_CHUNK);
    var e1 := Feed(e, Act(Do(1, Upload(FailBody))));
    RunStep(e, Act(Do(1, Upload(FailBody))), [Act(Do(1, Upload(PumpClose)))]);
    RunStep(e1, Act(Do(1, Upload(PumpClose))), []);
    assert [Act(Do(1, Upload(PumpClose)))] + [] == [Act(Do(1, Upload(PumpClose)))];
  }

  lemma RunStep(e: Edge, input: Input, rest: seq<Input>)
    ensures Run(e, [input] + rest) == Run(Feed(e, input), rest)
  {
    assert ([input] + rest)[1..] == rest;
  }

  lemma {:induction false} RunSplit(e: Edge, a: seq<Input>, b: seq<Input>)
    ensures Run(e, a + b) == Run(Run(e, a), b)
    decreases |a|
  {
    if a == [] {
      assert a + b == b;
    } else {
      assert (a + b)[1..] == a[1..] + b;
      RunSplit(Feed(e, a[0]), a[1..], b);
    }
  }

  // ---- the life of a stream ----------------------------------------------------------------

  /** Allocated, in the table, removed, semaphore closed, counted down. */
  function Phase(st: EdgeStream): nat {
    if st.handler.Allocated? then 0
    else match st.closer
      case Untouched => 1
      case Removed => 2
      case SemaphoreClosed => 3
      case Finished => 4
  }

  /** What one phase step of a stream may look like, short of counting it down. */
  ghost predicate Advances(st: EdgeStream, st': EdgeStream) {
    && Phase(st) <= Phase(st') <= Phase(st) + 1
    && (Phase(st') == 4 ==> Phase(st) == 4)
  }

  lemma HandlerAdvances(i: nat, window: nat, queueOpen: bool, st: EdgeStream, h: HandlerStep)
    requires LifeOk(window, st) && HandlerMove(i, window, queueOpen, st, h).Some?
    ensures Advances(st, HandlerMove(i, window, queueOpen, st, h).value.st)
  {
  }

  lemma UploadAdvances(i: nat, window: nat, queueOpen: bool, st: EdgeStream, u: UploadStep)
    requires LifeOk(window, st) && UploadMove(i, queueOpen, st, u).Some?
    ensures Advances(st, UploadMove(i, queueOpen, st, u).value.st)
  {
  }

  lemma LocalAdvances(i: nat, window: nat, queueOpen: bool, st: EdgeStream, a: EdgeLocal)
    requires LifeOk(window, st) && LocalMove(i, window, queueOpen, st, a).Some?
    ensures Advances(st, LocalMove(i, window, queueOpen, st, a).value.st)
  {
    match a
    case Handle(h) => HandlerAdvances(i, window, queueOpen, st, h);
    case Upload(u) => UploadAdvances(i, window, queueOpen, st, u);
  }

  lemma LoopAdvances(window: nat, queueOpen: bool, st: EdgeStream, loop: EdgeLoop, a: EdgeAction)
    requires LifeOk(window, st) && LoopMove(queueOpen, st, loop, a).Some?
    ensures Advances(st, LoopMove(queueOpen, st, loop, a).value.st)
  {
  }

  lemma ActAdvances(e: Edge, a: EdgeAction, i: nat)
    requires EdgeInv(e) && i in e.streams
    ensures i in Step(e, a).0.streams
    ensures !CountsDown(e, Act(a), i) ==> Advances(e.streams[i], Step(e, a).0.streams[i])
  {
    match a
    case Do(j, step) =>
      if j == i {
        var r := LocalMove(i, e.window, e.queueOpen, e.streams[i], step);
        if r.Some? {
          LocalAdvances(i, e.window, e.queueOpen, e.streams[i], step);
        }
      }
    case LoopDeliver => LoopStepAdvances(e, a, i);
    case LoopClose => LoopStepAdvances(e, a, i);
    case LoopGrant => LoopStepAdvances(e, a, i);
    case _ =>
  }

  lemma LoopStepAdvances(e: Edge, a: EdgeAction, i: nat)
    requires EdgeInv(e) && i in e.streams
    ensures i in LoopStep(e, a).0.streams && Advances(e.streams[i], LoopStep(e, a).0.streams[i])
  {
    if HasId(e.loop) && e.loop.id == i && LoopMove(e.queueOpen, e.streams[i], e.loop, a).Some? {
      LoopAdvances(e.window, e.queueOpen, e.streams[i], e.loop, a);
    }
  }

  /** Each step moves a stream at most one phase forward, never back, and only CountDown, which is
      also what takes one off the counter, moves it into the last phase. */
  lemma FeedAdvances(e: Edge, input: Input, i: nat)
    requires EdgeInv(e) && i in e.streams
    ensures
      var e' := Feed(e, input);
      && i in e'.streams
      && Phase(e.streams[i]) <= Phase(e'.streams[i]) <= Phase(e.streams[i]) + 1
      && (Phase(e'.streams[i]) == 4 && Phase(e.streams[i]) < 4 <==> CountsDown(e, input, i))
  {
    match input
    case Act(a) =>
      ActAdvances(e, a, i);
      if CountsDown(e, input, i) {
        assert !e.streams[i].handler.Allocated?;
      }
    case Arrives(f) =>
      if e.loop.Ready? {
        assert Advances(At(e, f.id), Receive(At(e, f.id), f).0);
      }
  }

  predicate CountsDown(e: Edge, input: Input, i: nat) {
    input == Act(CountDown(i)) && i in e.streams && e.streams[i].closer.SemaphoreClosed?
  }

  function TimesCountedDown(e: Edge, inputs: seq<Input>, i: nat): nat
    decreases |inputs|
  {
    if inputs == [] then 0
    else (if CountsDown(e, inputs[0], i) then 1 else 0) + TimesCountedDown(Feed(e, inputs[0]), inputs[1..], i)
  }

  /** From any reachable state on: a stream that has left the table never comes back, and it is
      counted down exactly when it goes from not finished to finished, so at most once. */
  lemma {:induction false} NeverResurrected(e: Edge, inputs: seq<Input>, i: nat)
    requires EdgeInv(e) && i in e.streams
    ensures
      var e' := Run(e, inputs);
      && i in e'.streams
      && Phase(e.streams[i]) <= Phase(e'.streams[i])
      && (Phase(e.streams[i]) >= 2 ==> i !in Table(e'))
      && TimesCountedDown(e, inputs, i) == (if Phase(e.streams[i]) < 4 && Phase(e'.streams[i]) == 4 then 1 else 0)
    decreases |inputs|
  {
    RunKeeps(e, inputs);
    if inputs != [] {
      FeedKeeps(e, inputs[0]);
      FeedAdvances(e, inputs[0], i);
      NeverResurrected(Feed(e, inputs[0]), inputs[1..], i);
    }
  }

  /** Stream ids are never reused: a new stream gets an id that no stream has had. */
  lemma IdsAreFresh(limit: nat, window: nat, inputs: seq<Input>)
    ensures
      var e := Run(Init(limit, window), inputs);
      && e.nextStreamId !in e.streams
      && 0 !in e.streams
      && (e.admitted > 0 ==> Step(e, Allocate).0.streams.Keys == e.streams.Keys + {e.nextStreamId})
  {
    InitOk(limit, window);
    RunKeeps(Init(limit, window), inputs);
  }
}
